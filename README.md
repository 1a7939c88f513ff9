# Kanban board add-on: access rules and handler state changes

This project models the core of a Trello-style Kanban add-on for a Flask
application (`trella/app/trello`). Boards hold lists, lists hold cards, and
cards carry labels, members, comments, checklists with items, and
attachments. Each board also has an append-only activity log. Access is
governed by the `board_members` association table, keyed by the
(board, user) pair with a free-text role. A board's creator is always its
owner. "owner", "admin" and "member" may edit, "viewer" may only view, and a
public board is viewable by everyone.

The project has four modules, one file each:

- `models.dfy` (module `Models`): one datatype per table row, and the role
  resolver (`get_member_role`, `is_owner`, `can_edit`, `can_view`). It also
  holds the two derived card fields: `is_overdue`, with the current time as
  a parameter, and `checklist_progress`, a nested counting loop proved
  against recursive count functions.
- `positions.dfy` (module `Positions`): the append-at-end position rule
  `(max(position) or 0) + 1` used by `create_list` and `create_card`.
- `tables.dfy` (module `Tables`): all tables as one value (`State`).
  - One map per table, keyed by row id, plus the membership map and the
    activity sequence.
  - The store invariant (`ValidState`) covers four things: ids below the
    next id, every key into the add-on's own tables resolving (keys into the
    users table are not checked), a card's labels coming from its
    own board, and an item's completer being set exactly when it is
    complete.
  - One named function per kind of row change, each with a lemma that it
    keeps the invariant.
  - The cascades of `delete_card` and `delete_board`.
- `handlers.dfy` (module `Handlers`): the route handlers as methods of a
  `Store` class. Its field `db` holds the tables; each handler checks,
  updates `db` and logs as its source does.
  - A handler first looks up the row it is addressed to (`NotFound` when
    missing, as `get_or_404` does).
  - It then checks permissions (`Denied`, the HTTP 403 branch).
  - Only `add_comment` validates its input; a missing or empty content is
    `Rejected` (HTTP 400). Every other handler's `ensures` rules `Rejected`
    out, so a request for an existing row by a permitted actor is `Ok`.
  - Otherwise the result is `Ok` and the tables change.
  - On every outcome but `Ok`, the tables are unchanged.
  - Each handler's `ensures` gives the new tables as a named row change of
    the old ones, and keeps `ValidState`.

Inputs that come from the request or the environment are parameters: the
logged-in user (`actor`), the request fields (`Option` for an absent key),
and the current time. The activity entry of `create_list` and `create_card`
has no target id (`None`): the handler reads the new row's id before the
session assigns one.

## Model

| member | source | states |
|---|---|---|
| `Models.RoleOf` | trella/app/trello/models.py:52-60 | The role is absent exactly when the (board, user) pair has no row; otherwise it is that row's role, one per pair since the pair is the key. |
| `Models.IsOwner` | trella/app/trello/models.py:62-63 | The creator is always owner; a non-creator without a membership row never is (the full truth table is IsOwnerIff). |
| `Models.IsOwnerIff` | trella/app/trello/models.py:62-63 | Ownership holds iff the user is the creator or holds an explicit "owner" row; an admin, member or viewer row does not make an owner. |
| `Models.CanEdit` | trella/app/trello/models.py:65-67 | Ownership implies edit rights; a non-creator whose row says "viewer" cannot edit. |
| `Models.CanView` | trella/app/trello/models.py:69-72 | Everyone can view a public board; edit rights imply view rights. |
| `Models.CreatorIsOwner` | trella/app/trello/models.py:62-72 | The creator is owner, editor and viewer whatever the membership table says. |
| `Models.CanEditIff` | trella/app/trello/models.py:65-67 | Edit rights hold iff the user is the creator or holds an owner, admin or member row. |
| `Models.ViewerCannotEdit` | trella/app/trello/models.py:65-72 | A non-creator with a "viewer" row cannot edit but can view, even on a private board. |
| `Models.PrivateViewIff` | trella/app/trello/models.py:69-72 | On a private board, view rights hold iff the user is the creator or has any membership row. |
| `Models.PermissionChain` | trella/app/trello/models.py:62-72 | owner implies edit, and edit implies view. |
| `Models.IsOverdue` | trella/app/trello/models.py:120-124 | Never overdue without a due date or once marked complete; otherwise overdue iff now is past the due date. |
| `Models.OverdueStaysOverdue` | trella/app/trello/models.py:120-124 | An overdue card stays overdue at every later time while its fields are unchanged. |
| `Models.CountComplete` | trella/app/trello/models.py:132-135 | The completed items of one checklist are at most its items. |
| `Models.CompletedAtMostTotal` | trella/app/trello/models.py:126-136 | Over all checklists of a card, completed items never exceed total items. |
| `Models.ChecklistProgress` | trella/app/trello/models.py:126-136 | The nested loop returns the total number of items and the number of completed ones, with completed <= total. |
| `Positions.MaxPosition` | trella/app/trello/__init__.py:198-199 | The SQL max aggregate is absent exactly on an empty set and otherwise is an element no smaller than any other. |
| `Positions.NextPosition` | trella/app/trello/__init__.py:198-205 | The new position exceeds every sibling's; it is 1 with no siblings, and otherwise one more than an existing position (the maximum, or 0 when the maximum is 0). |
| `Positions.NextPositionIsFree` | trella/app/trello/__init__.py:284-291 | The position handed out is not held by any sibling. |
| `Tables.NewListGoesLast` | trella/app/trello/__init__.py:198-205 | A new list lands after every list of its board, archived ones included. |
| `Tables.NewCardGoesLast` | trella/app/trello/__init__.py:284-291 | A new card lands after every card of its list, archived ones included. |
| `Tables.LabelRows` | trella/app/trello/__init__.py:80-85 | The default label rows are exactly the consecutive ids from the first one, each with an empty name, the board id and the i-th default colour. |
| `Tables.ListRows` | trella/app/trello/__init__.py:88-90 | The default list rows are exactly the consecutive ids from the first one, the i-th named "To Do", "In Progress", "Done" in turn, at position i. |
| `Tables.InsertBoardLabels` | trella/app/trello/__init__.py:80-85 | After create_board the new board owns exactly six labels, the default colours in order with empty names; other labels are unchanged. |
| `Tables.InsertBoardLists` | trella/app/trello/__init__.py:88-90 | After create_board the new board owns exactly three lists, "To Do", "In Progress" and "Done" at positions 0, 1, 2; other lists are unchanged. |
| `Tables.InsertBoardContents` | trella/app/trello/__init__.py:66-93 | In a valid store, create_board adds the board at the next id with exactly its six default labels and three default lists; cards, memberships and the log are untouched. |
| `Tables.InsertBoardKeepsValid` | trella/app/trello/__init__.py:66-93 | Inserting a board with its default rows keeps the store invariant. |
| `Tables.DropBoardEntries` | trella/app/trello/models.py:48-49 | Dropping a board's activity keeps exactly the other boards' entries, each as many times as it occurred, and never lengthens the log. |
| `Tables.DropBoardEntriesAppend` | trella/app/trello/models.py:48-49 | The drop works entry by entry in log order: on a concatenation it is the concatenation of the results, so the kept entries keep their order. |
| `Tables.DropBoardEntriesSingle` | trella/app/trello/models.py:48-49 | A single entry is kept exactly when it belongs to another board. |
| `Tables.RemoveCards` | trella/app/trello/models.py:112-117 | Deleted cards are gone together with exactly their comments, checklists, those checklists' items and attachments; every other card and child row stays with its value; boards, lists, labels, memberships and the log are untouched. |
| `Tables.RemoveCardsKeepsValid` | trella/app/trello/models.py:112-117 | After the card cascade the invariant holds and no comment, checklist or attachment refers to a deleted card. |
| `Tables.WithoutBoard` | trella/app/trello/__init__.py:169-182 | Deleting a board removes it, exactly its lists, labels, memberships and log entries, and exactly the cards on its lists together with their comments, checklists, items and attachments; the log becomes `DropBoardEntries` of the old one, so order is kept; every surviving row keeps its value; users and the id counter are untouched. |
| `Tables.WithoutBoardKeepsValid` | trella/app/trello/models.py:43-49 | The board cascade (lists, labels, memberships, activity, then the cards' own children) keeps the invariant. |
| `Tables.NoOrphans` | trella/app/trello/models.py:43-49 | In a valid store without board b, no membership, list, label, card, comment, checklist, item, attachment or log entry leads to b. |
| `Tables.LoggedKeepsValid` | trella/app/trello/__init__.py:18-28 | Appending an entry for an existing board keeps the invariant. |
| `Tables.SetCardKeepsValid` | trella/app/trello/__init__.py:395-403 | A card rewritten within its own board, keeping to that board's labels, keeps the invariant. |
| `Tables.SetItemKeepsValid` | trella/app/trello/__init__.py:602-608 | An item rewritten with a completer set exactly when it is complete keeps the invariant. |
| `Tables.InsertLabelKeepsValid` | trella/app/trello/__init__.py:666-671 | A new label on an existing board keeps the invariant. |
| `Tables.RemoveChecklist` | trella/app/trello/models.py:172-173 | The checklist goes, and exactly the items whose checklist it was; the surviving items keep their values and every other table is unchanged. |
| `Tables.RemoveLabel` | trella/app/trello/models.py:110 | The label goes; every card stays with all its fields, except that the label is taken out of its label set; every other table is unchanged. |
| `Tables.RemoveChecklistKeepsValid` | trella/app/trello/models.py:172-173 | Removing a checklist together with its items keeps the invariant. |
| `Tables.RemoveLabelKeepsValid` | trella/app/trello/__init__.py:708-709 | Removing a label and its card associations keeps the invariant. |
| `Tables.AddMemberEffect` | trella/app/trello/__init__.py:772-784 | After add, the pair has a row holding its earlier role if it had one, else the requested role; no other pair or table changes. |
| `Tables.AddMemberIdempotent` | trella/app/trello/__init__.py:778-784 | Adding the same user twice, with any roles, equals adding once. |
| `Tables.RemoveMemberEffect` | trella/app/trello/__init__.py:796-803 | Remove deletes exactly that pair's row; every other row and table stays. |
| `Tables.RemoveUndoesAdd` | trella/app/trello/__init__.py:776-803 | Removing a newcomer just added restores the tables exactly. |
| `Handlers.CheckBoardAccess` | trella/app/trello/__init__.py:31-35 | With require_edit the check is edit rights, otherwise view rights; passing the edit check implies view rights. |
| `Handlers.Toggled` | trella/app/trello/__init__.py:602-608 | The flag flips; completer and time are set (to the actor and now) exactly when the item becomes complete; content, list and position stay. |
| `Handlers.ToggleTwice` | trella/app/trello/__init__.py:602-608 | Two toggles restore the flag; a consistent incomplete item returns unchanged; a complete one comes back credited to the second actor. |
| `Handlers.ApplyPatch` | trella/app/trello/__init__.py:362-374 | Each field present in the request takes the value sent (a null description, due date or cover colour clears it); absent fields keep their values; list, position, archive flag, creator, labels and members never change. |
| `Handlers.ApplyPatchIdempotent` | trella/app/trello/__init__.py:362-374 | Sending the same update twice has the effect of sending it once. |
| `Handlers.EmptyPatchIsIdentity` | trella/app/trello/__init__.py:362-374 | An update with no fields leaves the card unchanged. |
| `Handlers.Patched` | trella/app/trello/__init__.py:362-374 | The chain of per-field assignments computes exactly the partial update. |
| `Handlers.KnownUsers` | trella/app/trello/__init__.py:459-460 | The new member set is exactly the requested ids that name existing users. |
| `Handlers.LabelsOf` | trella/app/trello/__init__.py:476-480 | The new label set is exactly the requested ids that are labels of the card's board; foreign ids are dropped. |
| `Handlers.MovedCard` | trella/app/trello/__init__.py:395-403 | When the target list exists on the card's board the card is now on it; otherwise its list is unchanged, so it stays on its board. Its position is the supplied one, if any; no other field changes. |
| `Handlers.DefaultLabelRows` | trella/app/trello/__init__.py:80-85 | The label loop builds exactly the six default label rows. |
| `Handlers.DefaultListRows` | trella/app/trello/__init__.py:88-90 | The list loop builds exactly the three default list rows. |
| `Handlers.Store.CardBoard` | trella/app/trello/__init__.py:355 | A card's board, read through its list, exists in a valid store. |
| `Handlers.Store.LogActivity` | trella/app/trello/__init__.py:18-28 | Appends one entry for the acting user to the end of the log and changes nothing else. |
| `Handlers.Store.Index` | trella/app/trello/__init__.py:44-61 | The three groups are pairwise disjoint and together are exactly the unarchived boards the user can view; "mine" is exactly the unarchived boards they created, "joined" exactly the unarchived boards they hold a row on but did not create, and "public" therefore the rest. |
| `Handlers.Store.CreateBoard` | trella/app/trello/__init__.py:66-98 | Inserts the board (colour "slate" by default) with its default rows at fresh ids and logs created_board; the contents are pinned by InsertBoardContents. |
| `Handlers.Store.EditBoard` | trella/app/trello/__init__.py:127-147 | Owner only: replaces name, description, colour and privacy, and logs updated_board. |
| `Handlers.Store.ArchiveBoard` | trella/app/trello/__init__.py:152-164 | Owner only: sets the archived flag and logs it. |
| `Handlers.Store.DeleteBoard` | trella/app/trello/__init__.py:169-182 | Owner only: the store becomes the board cascade of the old one, with nothing logged. |
| `Handlers.Store.CreateList` | trella/app/trello/__init__.py:191-214 | Editors only: a list named "New List" by default, at a position above every sibling's, logged as created_list. |
| `Handlers.Store.RenameList` | trella/app/trello/__init__.py:219-233 | Editors only: the name changes (kept when absent) and the old and new names are logged. |
| `Handlers.Store.ArchiveList` | trella/app/trello/__init__.py:238-250 | Editors only: sets the archived flag and logs it. |
| `Handlers.Store.MoveList` | trella/app/trello/__init__.py:255-267 | Editors only: only this list's position changes, to the supplied value or 0; no sibling renumbering, no log. |
| `Handlers.Store.CreateCard` | trella/app/trello/__init__.py:276-305 | Editors only: a card titled "New Card" by default, created by the actor, at a position above every card of its list, logged as created_card. |
| `Handlers.Store.UpdateCard` | trella/app/trello/__init__.py:352-379 | Editors only: the card becomes its partial update and the new title is logged. |
| `Handlers.Store.MoveCard` | trella/app/trello/__init__.py:384-407 | Editors only: the card changes as MovedCard says, and moved_card is logged exactly when the target list exists on the card's board, even if it is the card's current list. |
| `Handlers.Store.ArchiveCard` | trella/app/trello/__init__.py:412-424 | Editors only: sets the archived flag and logs it. |
| `Handlers.Store.DeleteCard` | trella/app/trello/__init__.py:429-442 | Editors only: the card cascade, then a deleted_card entry with the old title. |
| `Handlers.Store.UpdateCardMembers` | trella/app/trello/__init__.py:451-463 | Editors only: the card's members become exactly the requested ids of existing users. |
| `Handlers.Store.UpdateCardLabels` | trella/app/trello/__init__.py:468-483 | Editors only: the card's labels become exactly the requested labels of its board. |
| `Handlers.Store.AddComment` | trella/app/trello/__init__.py:492-518 | Editors only: missing or empty content is rejected; otherwise a comment by the actor is added and logged. |
| `Handlers.Store.DeleteComment` | trella/app/trello/__init__.py:523-536 | Succeeds iff the actor wrote the comment or owns the board; then only that comment goes. |
| `Handlers.Store.AddChecklist` | trella/app/trello/__init__.py:545-563 | Editors only: a checklist named "Checklist" by default. |
| `Handlers.Store.AddChecklistItem` | trella/app/trello/__init__.py:568-588 | Editors only: a new item starts incomplete with no completer. |
| `Handlers.Store.ToggleChecklistItem` | trella/app/trello/__init__.py:593-615 | Editors only: the item becomes its toggle and nothing else changes. |
| `Handlers.Store.DeleteChecklist` | trella/app/trello/__init__.py:620-632 | Editors only: the checklist goes with its items. |
| `Handlers.Store.CreateLabel` | trella/app/trello/__init__.py:659-678 | Editors only: a label named "" and coloured "gray" unless sent. |
| `Handlers.Store.UpdateLabel` | trella/app/trello/__init__.py:683-695 | Editors only: each field that is not sent keeps its value. |
| `Handlers.Store.DeleteLabel` | trella/app/trello/__init__.py:700-711 | Editors only: the label goes and so does its association with every card. |
| `Handlers.Store.AddBoardMember` | trella/app/trello/__init__.py:764-787 | Owner only; an unknown user is NotFound. A row with the given role ("member" by default) is inserted only when the pair has none, so re-adding keeps the old role. |
| `Handlers.Store.RemoveBoardMember` | trella/app/trello/__init__.py:792-806 | Owner only: deletes that pair's row, if any, and nothing else. |

## Left out

- HTTP plumbing: routing, templates, flash messages, redirects, JSON
  bodies and status codes. A handler's reply is reduced to an `Outcome`,
  and the ids it returns are out-parameters.
- The database session. Each handler's `add`, `flush`, `delete` and
  `commit` become one assignment of the new tables. Row-by-row updates of
  ORM objects, and aliasing between them, are therefore not modelled
  separately.
- The declared ORM cascades of models.py:43-49, 87-88, 112-117 and 172-173
  are computed as whole-table functions (`WithoutBoard`, `RemoveCards`,
  `RemoveChecklist`, `RemoveLabel`), not row by row.
- Row ids: one counter is shared by all tables, where the database keeps
  one sequence per table. Only freshness matters.
- Timestamps (`created_at`, `updated_at`, `added_at`, `uploaded_at`) are
  not stored. The current time is a parameter wherever a handler reads it
  (`is_overdue`, `toggle_checklist_item`).
- Due-date parsing with `datetime.fromisoformat`, and its exception on
  malformed text. `CardPatch` carries an already-parsed optional time.
- JSON values of the wrong type, such as a non-string title or a non-list
  `label_ids`. The model's parameters are already typed. A JSON null is
  modelled only for update_card's description, due date and cover colour.
  Other nullable columns also take a request value unchanged, and the model
  has no null for them: a member's role (add_board_member), a list's or
  card's position (move_list, move_card), a label's name (create_label,
  update_label) and a card's due_complete (update_card).
- `Models.RoleOf`: a membership row whose role is NULL is not modelled;
  every row holds a role. add_board_member can write one from
  `{"role": null}`. For such a row the source's get_member_role gives no
  role, so the user is neither owner nor editor, yet can_view still counts
  them as a member of a private board. The model's "no role exactly when
  there is no row" does not hold for that row.
- A missing `name` form field, which `create_board` and `edit_board` read
  as `None`. In the model the name is a plain string. The source would then
  fail at commit on the non-null column.
- The read-only views `view_board`, `view_card`, `get_labels`,
  `board_activity` and `get_board_members`. They only query and render;
  their ordering and the limit of 50 are display concerns.
- The order of boards within each index group: the groups are sets.
- `Handlers.Store.ToggleChecklistItem`: the progress pair it returns is
  not part of its result. That count is `Models.ChecklistProgress`.
- `Models.ChecklistProgress` counts over a card's checklists given as a
  sequence of item sequences. No function reads that sequence out of the
  tables (`State`), so the count is not tied to the store. The source walks
  two relationship queries, and their order does not affect the count.
- Attachments are rows of the data model and take part in the card
  cascade. No handler creates them.
- Concurrent requests, and the last-writer-wins behaviour between them.
- trella/INTEGRATION.py: registration instructions and code held in
  string literals. It is not part of this model.
