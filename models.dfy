/**
 * The entities of the Kanban add-on (one datatype per table), the board
 * role resolver and the two derived card fields.
 */
module Models {

  datatype Option<T> = None | Some(value: T) {
    function GetOr(default: T): T {
      match this
      case Some(v) => v
      case None => default
    }
  }

  type UserId = int
  type BoardId = int
  type ListId = int
  type CardId = int
  type LabelId = int
  type CommentId = int
  type ChecklistId = int
  type ItemId = int
  type AttachmentId = int

  /** An instant, as an integer count of time units; only its order matters here. */
  type Time = int

  /**
   * A membership role. The column is a free string: the resolver recognises
   * "owner", "admin", "member" and "viewer", but any string can be stored.
   */
  type Role = string

  const OwnerRole: Role := "owner"
  const AdminRole: Role := "admin"
  const MemberRole: Role := "member"
  const ViewerRole: Role := "viewer"

  /** The roles that grant edit rights. */
  const EditRoles: set<Role> := {OwnerRole, AdminRole, MemberRole}

  /**
   * The board_members association table. Its primary key is the
   * (board, user) pair, so a map from that pair to the role column holds
   * at most one role per pair by construction.
   */
  type Membership = map<(BoardId, UserId), Role>

  datatype Board = Board(
    name: string,
    description: Option<string>,
    backgroundColor: string,
    isPrivate: bool,
    isArchived: bool,
    createdBy: Option<UserId>)

  datatype BoardList = BoardList(
    boardId: BoardId,
    name: string,
    position: int,
    isArchived: bool)

  datatype Card = Card(
    listId: ListId,
    title: string,
    description: Option<string>,
    position: int,
    dueDate: Option<Time>,
    dueComplete: bool,
    isArchived: bool,
    coverColor: Option<string>,
    createdBy: Option<UserId>,
    labels: set<LabelId>,
    members: set<UserId>)

  datatype Label = Label(boardId: BoardId, name: string, color: string)

  datatype Comment = Comment(cardId: CardId, author: UserId, content: string)

  datatype Checklist = Checklist(cardId: CardId, name: string, position: int)

  datatype ChecklistItem = ChecklistItem(
    checklistId: ChecklistId,
    content: string,
    isComplete: bool,
    position: int,
    completedBy: Option<UserId>,
    completedAt: Option<Time>)

  datatype Attachment = Attachment(
    cardId: CardId,
    filename: string,
    filepath: string,
    filesize: Option<int>,
    filetype: Option<string>,
    uploadedBy: Option<UserId>)

  /** One row of the activity log; `user` is absent for system actions. */
  datatype Activity = Activity(
    boardId: BoardId,
    user: Option<UserId>,
    action: string,
    targetType: Option<string>,
    targetId: Option<int>,
    details: Option<map<string, string>>)

  // ---------------------------------------------------------------------------
  // Role resolver
  // ---------------------------------------------------------------------------

  /** The explicit role row of `user` on board `id`, if there is one. */
  function RoleOf(members: Membership, id: BoardId, user: UserId): (r: Option<Role>)
    ensures r.None? <==> (id, user) !in members
    ensures r.Some? ==> (id, user) in members && members[(id, user)] == r.value
  {
    if (id, user) in members then Some(members[(id, user)]) else None
  }

  predicate IsCreator(b: Board, user: UserId) {
    b.createdBy == Some(user)
  }

  /** Owner: the board's creator, or anyone holding an explicit "owner" row. */
  function IsOwner(b: Board, members: Membership, id: BoardId, user: UserId): (r: bool)
    ensures IsCreator(b, user) ==> r
    ensures !IsCreator(b, user) && (id, user) !in members ==> !r
  {
    b.createdBy == Some(user) || RoleOf(members, id, user) == Some(OwnerRole)
  }

  /** Edit rights: the creator, or an explicit owner, admin or member row. */
  function CanEdit(b: Board, members: Membership, id: BoardId, user: UserId): (r: bool)
    ensures IsOwner(b, members, id, user) ==> r
    ensures RoleOf(members, id, user) == Some(ViewerRole) && !IsCreator(b, user) ==> !r
  {
    var role := RoleOf(members, id, user);
    (role.Some? && role.value in EditRoles) || b.createdBy == Some(user)
  }

  /** View rights: everyone on a public board; otherwise the creator or anyone with a row. */
  function CanView(b: Board, members: Membership, id: BoardId, user: UserId): (r: bool)
    ensures !b.isPrivate ==> r
    ensures CanEdit(b, members, id, user) ==> r
  {
    if !b.isPrivate then true
    else (id, user) in members || b.createdBy == Some(user)
  }

  lemma CreatorIsOwner(b: Board, members: Membership, id: BoardId, user: UserId)
    requires IsCreator(b, user)
    ensures IsOwner(b, members, id, user) && CanEdit(b, members, id, user) && CanView(b, members, id, user)
  {
  }

  /** The full truth table of ownership: the creator, or an explicit "owner" row and no other role. */
  lemma IsOwnerIff(b: Board, members: Membership, id: BoardId, user: UserId)
    ensures IsOwner(b, members, id, user) <==>
              IsCreator(b, user) || ((id, user) in members && members[(id, user)] == OwnerRole)
  {
  }

  /** The full truth table of edit rights. */
  lemma CanEditIff(b: Board, members: Membership, id: BoardId, user: UserId)
    ensures CanEdit(b, members, id, user) <==>
              IsCreator(b, user) || ((id, user) in members && members[(id, user)] in EditRoles)
  {
  }

  /** A user whose only standing on the board is a "viewer" row cannot edit, yet can view. */
  lemma ViewerCannotEdit(b: Board, members: Membership, id: BoardId, user: UserId)
    requires (id, user) in members && members[(id, user)] == ViewerRole
    requires !IsCreator(b, user)
    ensures !CanEdit(b, members, id, user)
    ensures CanView(b, members, id, user)
  {
  }

  /** The full truth table of view rights on a private board. */
  lemma PrivateViewIff(b: Board, members: Membership, id: BoardId, user: UserId)
    requires b.isPrivate
    ensures CanView(b, members, id, user) <==> IsCreator(b, user) || (id, user) in members
  {
  }

  /** owner ==> edit ==> view. */
  lemma PermissionChain(b: Board, members: Membership, id: BoardId, user: UserId)
    ensures IsOwner(b, members, id, user) ==> CanEdit(b, members, id, user)
    ensures CanEdit(b, members, id, user) ==> CanView(b, members, id, user)
  {
  }

  // ---------------------------------------------------------------------------
  // Derived card fields
  // ---------------------------------------------------------------------------

  /** is_overdue: a due date is set, not marked complete, and `now` is past it. */
  function IsOverdue(c: Card, now: Time): (r: bool)
    ensures c.dueDate.None? || c.dueComplete ==> !r
    ensures c.dueDate.Some? && !c.dueComplete ==> (r <==> now > c.dueDate.value)
  {
    if c.dueDate.None? || c.dueComplete then false
    else now > c.dueDate.value
  }

  /** Once overdue, a card stays overdue as time passes (until its fields change). */
  lemma OverdueStaysOverdue(c: Card, now: Time, later: Time)
    requires now <= later
    requires IsOverdue(c, now)
    ensures IsOverdue(c, later)
  {
  }

  /** Number of items whose completion flag is set. */
  function CountComplete(items: seq<ChecklistItem>): (n: nat)
    ensures n <= |items|
  {
    if items == [] then 0
    else CountComplete(items[..|items| - 1]) + (if items[|items| - 1].isComplete then 1 else 0)
  }

  /** Number of items over all checklists of a card. */
  function TotalItems(checklists: seq<seq<ChecklistItem>>): nat {
    if checklists == [] then 0
    else TotalItems(checklists[..|checklists| - 1]) + |checklists[|checklists| - 1]|
  }

  /** Number of completed items over all checklists of a card. */
  function CompletedItems(checklists: seq<seq<ChecklistItem>>): nat {
    if checklists == [] then 0
    else CompletedItems(checklists[..|checklists| - 1]) + CountComplete(checklists[|checklists| - 1])
  }

  lemma {:induction false} CompletedAtMostTotal(checklists: seq<seq<ChecklistItem>>)
    ensures CompletedItems(checklists) <= TotalItems(checklists)
  {
    if checklists != [] {
      CompletedAtMostTotal(checklists[..|checklists| - 1]);
    }
  }

  /**
   * checklist_progress: walks every checklist of the card and every item of
   * each, counting all items and the completed ones.
   */
  method ChecklistProgress(checklists: seq<seq<ChecklistItem>>) returns (completed: nat, total: nat)
    ensures total == TotalItems(checklists)
    ensures completed == CompletedItems(checklists)
    ensures completed <= total
  {
    total, completed := 0, 0;
    for i := 0 to |checklists|
      invariant total == TotalItems(checklists[..i])
      invariant completed == CompletedItems(checklists[..i])
    {
      var items := checklists[i];
      for j := 0 to |items|
        invariant total == TotalItems(checklists[..i]) + j
        invariant completed == CompletedItems(checklists[..i]) + CountComplete(items[..j])
      {
        assert items[..j + 1][..j] == items[..j];
        total := total + 1;
        if items[j].isComplete {
          completed := completed + 1;
        }
      }
      assert checklists[..i + 1][..i] == checklists[..i];
      assert items[..|items|] == items;
    }
    assert checklists[..|checklists|] == checklists;
    CompletedAtMostTotal(checklists);
  }
}
