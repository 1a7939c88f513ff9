/**
 * The state changes behind the board blueprint's route handlers, over a
 * store object that holds the add-on's tables (Tables.State).
 *
 * Each handler takes the acting (logged-in) user and returns an Outcome:
 * NotFound when a referenced row is missing (checked first, as the
 * handlers' get_or_404 does), Denied when the permission check fails,
 * Rejected when the request itself is refused (only add_comment refuses
 * one, for missing content), and otherwise Ok with the store updated. On any outcome but Ok the store is left exactly as it was,
 * and every handler keeps the store's invariant (Tables.ValidState).
 */
module Handlers {
  import opened Models
  import opened Positions
  import opened Tables

  datatype Outcome = Ok | Denied | NotFound | Rejected

  /** The optional fields of an update_card request; None means "key absent". */
  datatype CardPatch = CardPatch(
    title: Option<string>,
    description: Option<Option<string>>,  // Some(None): key present with a null value, which clears the column
    dueDate: Option<Option<Time>>,        // Some(None): key present but empty, which clears the date
    dueComplete: Option<bool>,
    coverColor: Option<Option<string>>)   // Some(None): key present with a null value, which clears the column

  /** The three board groups of the index page. */
  datatype BoardIndex = BoardIndex(mine: set<BoardId>, joined: set<BoardId>, public: set<BoardId>)

  // ---------------------------------------------------------------------------
  // Pure helpers of the handlers
  // ---------------------------------------------------------------------------

  /** check_board_access: edit rights when `requireEdit`, view rights otherwise. */
  function CheckBoardAccess(b: Board, members: Membership, id: BoardId, user: UserId, requireEdit: bool): (r: bool)
    ensures requireEdit ==> (r <==> CanEdit(b, members, id, user))
    ensures !requireEdit ==> (r <==> CanView(b, members, id, user))
    ensures requireEdit && r ==> CanView(b, members, id, user)
  {
    if requireEdit then CanEdit(b, members, id, user) else CanView(b, members, id, user)
  }

  /** toggle_checklist_item's update of one item. */
  function Toggled(item: ChecklistItem, actor: UserId, now: Time): (r: ChecklistItem)
    ensures r.isComplete == !item.isComplete
    ensures CompletionConsistent(r)
    ensures r.isComplete ==> r.completedBy == Some(actor) && r.completedAt == Some(now)
    ensures r.checklistId == item.checklistId && r.content == item.content && r.position == item.position
  {
    if !item.isComplete then
      item.(isComplete := true, completedBy := Some(actor), completedAt := Some(now))
    else
      item.(isComplete := false, completedBy := None, completedAt := None)
  }

  /** Toggling twice restores the flag; an item that started incomplete comes back unchanged. */
  lemma ToggleTwice(item: ChecklistItem, a1: UserId, t1: Time, a2: UserId, t2: Time)
    ensures Toggled(Toggled(item, a1, t1), a2, t2).isComplete == item.isComplete
    ensures CompletionConsistent(item) && !item.isComplete ==> Toggled(Toggled(item, a1, t1), a2, t2) == item
    ensures item.isComplete ==> Toggled(Toggled(item, a1, t1), a2, t2).completedBy == Some(a2)
  {
  }

  /** update_card's partial update: each field present in the patch replaces the card's. */
  function ApplyPatch(c: Card, p: CardPatch): (r: Card)
    ensures r.listId == c.listId && r.position == c.position && r.isArchived == c.isArchived
    ensures r.createdBy == c.createdBy && r.labels == c.labels && r.members == c.members
    ensures p.title.None? ==> r.title == c.title
    ensures p.description.None? ==> r.description == c.description
    ensures p.dueDate.None? ==> r.dueDate == c.dueDate
    ensures p.dueComplete.None? ==> r.dueComplete == c.dueComplete
    ensures p.coverColor.None? ==> r.coverColor == c.coverColor
    ensures p.title.Some? ==> r.title == p.title.value
    ensures p.description.Some? ==> r.description == p.description.value
    ensures p.dueDate.Some? ==> r.dueDate == p.dueDate.value
    ensures p.dueComplete.Some? ==> r.dueComplete == p.dueComplete.value
    ensures p.coverColor.Some? ==> r.coverColor == p.coverColor.value
  {
    var c1 := if p.title.Some? then c.(title := p.title.value) else c;
    var c2 := if p.description.Some? then c1.(description := p.description.value) else c1;
    var c3 := if p.dueDate.Some? then c2.(dueDate := p.dueDate.value) else c2;
    var c4 := if p.dueComplete.Some? then c3.(dueComplete := p.dueComplete.value) else c3;
    if p.coverColor.Some? then c4.(coverColor := p.coverColor.value) else c4
  }

  /** Sending the same update twice has the effect of sending it once. */
  lemma ApplyPatchIdempotent(c: Card, p: CardPatch)
    ensures ApplyPatch(ApplyPatch(c, p), p) == ApplyPatch(c, p)
  {
  }

  /** An update with no fields leaves the card as it was. */
  lemma EmptyPatchIsIdentity(c: Card)
    ensures ApplyPatch(c, CardPatch(None, None, None, None, None)) == c
  {
  }

  /** update_card_members' filter: the requested ids that name existing users. */
  function KnownUsers(ids: seq<UserId>, users: set<UserId>): (r: set<UserId>)
    ensures forall u :: u in r <==> u in ids && u in users
  {
    set u | u in ids && u in users
  }

  /** update_card_labels' filter: the requested ids that name labels of board `b`. */
  function LabelsOf(ids: seq<LabelId>, labels: map<LabelId, Label>, b: BoardId): (r: set<LabelId>)
    ensures LabelsOnBoard(labels, r, b)
    ensures forall l :: l in r <==> l in ids && l in labels && labels[l].boardId == b
  {
    set l | l in ids && l in labels && labels[l].boardId == b
  }

  /** update_card's chain of field assignments, one per field present in the request. */
  method Patched(card: Card, patch: CardPatch) returns (r: Card)
    ensures r == ApplyPatch(card, patch)
  {
    r := card;
    if patch.title.Some? {
      r := r.(title := patch.title.value);
    }
    if patch.description.Some? {
      r := r.(description := patch.description.value);
    }
    if patch.dueDate.Some? {
      r := r.(dueDate := patch.dueDate.value);
    }
    if patch.dueComplete.Some? {
      r := r.(dueComplete := patch.dueComplete.value);
    }
    if patch.coverColor.Some? {
      r := r.(coverColor := patch.coverColor.value);
    }
  }

  /** move_card's guard: the requested list exists and lies on the card's board `board`. */
  predicate MovesToList(lists: map<ListId, BoardList>, board: BoardId, target: Option<ListId>) {
    target.Some? && target.value in lists && lists[target.value].boardId == board
  }

  /**
   * move_card's update of a card on board `board`: the list changes only
   * under the guard, the position whenever one is sent, nothing else ever.
   */
  function MovedCard(c: Card, lists: map<ListId, BoardList>, board: BoardId, target: Option<ListId>,
                     position: Option<int>): (r: Card)
    ensures c.listId in lists && lists[c.listId].boardId == board ==> r.listId in lists && lists[r.listId].boardId == board
    ensures r.listId != c.listId ==> MovesToList(lists, board, target) && r.listId == target.value
    ensures MovesToList(lists, board, target) ==> r.listId == target.value
    ensures r.position == position.GetOr(c.position)
    ensures r.(listId := c.listId, position := c.position) == c
  {
    c.(listId := if MovesToList(lists, board, target) then target.value else c.listId, position := position.GetOr(c.position))
  }

  /** Adding the rows the two loops built is create_board's whole insertion. */
  lemma InsertBoardFrom(s: State, board: Board, newLabels: map<LabelId, Label>, newLists: map<ListId, BoardList>)
    requires newLabels == LabelRows(s.nextId, s.nextId + 1, 6) && newLists == ListRows(s.nextId, s.nextId + 7, 3)
    ensures s.(boards := s.boards[s.nextId := board], labels := s.labels + newLabels,
               lists := s.lists + newLists, nextId := s.nextId + 10) == InsertBoard(s, board)
  {
    InsertBoardShape(s, board);
  }

  /** create_board's label loop: one colour-only label per default colour, at consecutive ids from `first`. */
  method DefaultLabelRows(board: BoardId, first: LabelId) returns (rows: map<LabelId, Label>)
    ensures rows == LabelRows(board, first, 6)
  {
    rows := map[];
    for i := 0 to |DefaultLabelColors|
      invariant rows == LabelRows(board, first, i)
    {
      rows := rows[first + i := Label(board, "", DefaultLabelColors[i])];
    }
  }

  /** create_board's list loop: one list per default name, at positions 0, 1, 2 and consecutive ids from `first`. */
  method DefaultListRows(board: BoardId, first: ListId) returns (rows: map<ListId, BoardList>)
    ensures rows == ListRows(board, first, 3)
  {
    rows := map[];
    for i := 0 to |DefaultListNames|
      invariant rows == ListRows(board, first, i)
    {
      rows := rows[first + i := BoardList(board, DefaultListNames[i], i, false)];
    }
  }

  // ---------------------------------------------------------------------------
  // The store
  // ---------------------------------------------------------------------------

  class Store {
    /**
     * The add-on's tables as the database session holds them. Every
     * handler replaces them with the tables after its commit.
     */
    var db: State

    ghost predicate Valid()
      reads this
    {
      ValidState(db)
    }

    /** An empty database over a given users table. */
    constructor (users: set<UserId>)
      ensures Valid()
      ensures db == State(users, map[], map[], map[], map[], map[], map[], map[], map[], map[], [], 1)
    {
      db := State(users, map[], map[], map[], map[], map[], map[], map[], map[], map[], [], 1);
    }

    /** The board a card sits on, read through the card's list. */
    function CardBoard(c: CardId): (b: BoardId)
      reads this
      requires Valid() && c in db.cards
      ensures b in db.boards && b == BoardOfCard(db, c)
    {
      db.lists[db.cards[c].listId].boardId
    }

    /** log_activity: appends one entry for the acting user. */
    method LogActivity(actor: UserId, board: BoardId, action: string, targetType: Option<string>,
                       targetId: Option<int>, details: Option<map<string, string>>)
      requires Valid() && board in db.boards
      modifies this
      ensures Valid()
      ensures db == Logged(old(db), Activity(board, Some(actor), action, targetType, targetId, details))
    {
      var entry := Activity(board, Some(actor), action, targetType, targetId, details);
      LoggedKeepsValid(db, entry);
      db := Logged(db, entry);
    }

    /**
     * index: the user's own boards, the boards they joined (without their
     * own), and the public boards in neither group; archived boards nowhere.
     */
    function Index(user: UserId): (r: BoardIndex)
      reads this
      ensures r.mine !! r.joined && r.mine !! r.public && r.joined !! r.public
      ensures r.mine + r.joined + r.public ==
                set b | b in db.boards && !db.boards[b].isArchived && CanView(db.boards[b], db.members, b, user)
      ensures forall b :: b in r.mine <==> b in db.boards && !db.boards[b].isArchived && IsCreator(db.boards[b], user)
      ensures forall b :: b in r.joined <==> b in db.boards && !db.boards[b].isArchived && (b, user) in db.members
                                             && !IsCreator(db.boards[b], user)
    {
      var boards := db.boards;
      var mine := set b | b in boards && boards[b].createdBy == Some(user) && !boards[b].isArchived;
      var memberOf := set b | b in boards && (b, user) in db.members && !boards[b].isArchived;
      var publicOnes := set b | b in boards && !boards[b].isPrivate && !boards[b].isArchived;
      var all := mine + memberOf;
      var joined := set b | b in memberOf && boards[b].createdBy != Some(user);
      BoardIndex(mine, joined, publicOnes - all)
    }

    // -------------------------------------------------------------------------
    // Boards
    // -------------------------------------------------------------------------

    /**
     * create_board: the board, six colour-only default labels, three default
     * lists at positions 0, 1, 2, and one log entry.
     */
    method CreateBoard(actor: UserId, name: string, description: Option<string>,
                       backgroundColor: Option<string>, isPrivate: bool) returns (id: BoardId)
      requires Valid()
      modifies this
      ensures Valid()
      ensures id == old(db.nextId) && id !in old(db.boards)
      ensures db == Logged(InsertBoard(old(db), Board(name, description, backgroundColor.GetOr("slate"), isPrivate, false, Some(actor))),
                           Activity(id, Some(actor), "created_board", Some("board"), Some(id), None))
    {
      id := db.nextId;
      var board := Board(name, description, backgroundColor.GetOr("slate"), isPrivate, false, Some(actor));
      var newLabels := DefaultLabelRows(id, id + 1);
      var newLists := DefaultListRows(id, id + 7);
      InsertBoardFrom(db, board, newLabels, newLists);
      InsertBoardKeepsValid(db, board);
      db := db.(boards := db.boards[id := board], labels := db.labels + newLabels,
                lists := db.lists + newLists, nextId := id + 10);
      LogActivity(actor, id, "created_board", Some("board"), Some(id), None);
    }

    /** edit_board: owner only; replaces the settings and logs the change. */
    method EditBoard(actor: UserId, id: BoardId, name: string, description: Option<string>,
                     backgroundColor: Option<string>, isPrivate: bool) returns (res: Outcome)
      requires Valid()
      modifies this
      ensures Valid()
      ensures res == NotFound <==> id !in old(db.boards)
      ensures res == Denied <==> id in old(db.boards) && !MayOwn(old(db), id, actor)
      ensures res != Ok ==> db == old(db)
      ensures res != Rejected
      ensures res == Ok ==> db == Logged(
                SetBoard(old(db), id, old(db.boards)[id].(name := name, description := description,
                                                          backgroundColor := backgroundColor.GetOr("slate"), isPrivate := isPrivate)),
                Activity(id, Some(actor), "updated_board", Some("board"), Some(id), None))
    {
      if id !in db.boards { return NotFound; }
      var board := db.boards[id];
      if !IsOwner(board, db.members, id, actor) { return Denied; }
      var updated := board.(name := name, description := description,
                            backgroundColor := backgroundColor.GetOr("slate"), isPrivate := isPrivate);
      SetBoardKeepsValid(db, id, updated);
      db := SetBoard(db, id, updated);
      LogActivity(actor, id, "updated_board", Some("board"), Some(id), None);
      res := Ok;
    }

    /** archive_board: owner only; sets the archived flag and logs it. */
    method ArchiveBoard(actor: UserId, id: BoardId) returns (res: Outcome)
      requires Valid()
      modifies this
      ensures Valid()
      ensures res == NotFound <==> id !in old(db.boards)
      ensures res == Denied <==> id in old(db.boards) && !MayOwn(old(db), id, actor)
      ensures res != Ok ==> db == old(db)
      ensures res != Rejected
      ensures res == Ok ==> db == Logged(SetBoard(old(db), id, old(db.boards)[id].(isArchived := true)),
                                         Activity(id, Some(actor), "archived_board", Some("board"), Some(id), None))
    {
      if id !in db.boards { return NotFound; }
      var board := db.boards[id];
      if !IsOwner(board, db.members, id, actor) { return Denied; }
      SetBoardKeepsValid(db, id, board.(isArchived := true));
      db := SetBoard(db, id, board.(isArchived := true));
      LogActivity(actor, id, "archived_board", Some("board"), Some(id), None);
      res := Ok;
    }

    /**
     * delete_board: owner only; removes the board with everything it owns:
     * memberships, labels, activity, lists, their cards, and the cards'
     * comments, checklists, checklist items and attachments. Nothing is
     * logged, since the board's log goes with it.
     */
    method DeleteBoard(actor: UserId, id: BoardId) returns (res: Outcome)
      requires Valid()
      modifies this
      ensures Valid()
      ensures res == NotFound <==> id !in old(db.boards)
      ensures res == Denied <==> id in old(db.boards) && !MayOwn(old(db), id, actor)
      ensures res != Ok ==> db == old(db)
      ensures res != Rejected
      ensures res == Ok ==> db == WithoutBoard(old(db), id)
    {
      if id !in db.boards { return NotFound; }
      if !IsOwner(db.boards[id], db.members, id, actor) { return Denied; }
      WithoutBoardKeepsValid(db, id);
      db := WithoutBoard(db, id);
      res := Ok;
    }

    // -------------------------------------------------------------------------
    // Lists
    // -------------------------------------------------------------------------

    /** create_list: editors only; appends after every existing list of the board. */
    method CreateList(actor: UserId, board: BoardId, name: Option<string>) returns (res: Outcome, id: ListId)
      requires Valid()
      modifies this
      ensures Valid()
      ensures res == NotFound <==> board !in old(db.boards)
      ensures res == Denied <==> board in old(db.boards) && !MayEdit(old(db), board, actor)
      ensures res != Ok ==> db == old(db)
      ensures res != Rejected
      ensures res == Ok ==> id == old(db.nextId) && id !in old(db.lists) && db == Logged(
                InsertList(old(db), BoardList(board, name.GetOr("New List"), NextPosition(ListPositions(old(db.lists), board)), false)),
                Activity(board, Some(actor), "created_list", Some("list"), None, Some(map["name" := name.GetOr("New List")])))
      ensures res == Ok ==> forall l :: l in old(db.lists) && old(db.lists)[l].boardId == board ==>
                                         old(db.lists)[l].position < db.lists[id].position
    {
      id := 0;
      if board !in db.boards { return NotFound, id; }
      if !CheckBoardAccess(db.boards[board], db.members, board, actor, true) { return Denied, id; }
      var position := NextPosition(ListPositions(db.lists, board));
      NewListGoesLast(db.lists, board);
      var row := BoardList(board, name.GetOr("New List"), position, false);
      id := db.nextId;
      InsertListKeepsValid(db, row);
      db := InsertList(db, row);
      LogActivity(actor, board, "created_list", Some("list"), None, Some(map["name" := row.name]));
      res := Ok;
    }

    /** rename_list: editors only; keeps the old name when none is sent. */
    method RenameList(actor: UserId, id: ListId, name: Option<string>) returns (res: Outcome)
      requires Valid()
      modifies this
      ensures Valid()
      ensures res == NotFound <==> id !in old(db.lists)
      ensures res == Denied <==> id in old(db.lists) && !MayEdit(old(db), old(db.lists)[id].boardId, actor)
      ensures res != Ok ==> db == old(db)
      ensures res != Rejected
      ensures res == Ok ==>
                var was := old(db.lists)[id];
                db == Logged(SetList(old(db), id, was.(name := name.GetOr(was.name))),
                             Activity(was.boardId, Some(actor), "renamed_list", Some("list"), Some(id),
                                      Some(map["old_name" := was.name, "new_name" := name.GetOr(was.name)])))
    {
      if id !in db.lists { return NotFound; }
      var list := db.lists[id];
      var board := list.boardId;
      if !CheckBoardAccess(db.boards[board], db.members, board, actor, true) { return Denied; }
      var newName := name.GetOr(list.name);
      SetListKeepsValid(db, id, list.(name := newName));
      db := SetList(db, id, list.(name := newName));
      LogActivity(actor, board, "renamed_list", Some("list"), Some(id), Some(map["old_name" := list.name, "new_name" := newName]));
      res := Ok;
    }

    /** archive_list: editors only; sets the archived flag and logs it. */
    method ArchiveList(actor: UserId, id: ListId) returns (res: Outcome)
      requires Valid()
      modifies this
      ensures Valid()
      ensures res == NotFound <==> id !in old(db.lists)
      ensures res == Denied <==> id in old(db.lists) && !MayEdit(old(db), old(db.lists)[id].boardId, actor)
      ensures res != Ok ==> db == old(db)
      ensures res != Rejected
      ensures res == Ok ==>
                var was := old(db.lists)[id];
                db == Logged(SetList(old(db), id, was.(isArchived := true)),
                             Activity(was.boardId, Some(actor), "archived_list", Some("list"), Some(id), Some(map["name" := was.name])))
    {
      if id !in db.lists { return NotFound; }
      var list := db.lists[id];
      var board := list.boardId;
      if !CheckBoardAccess(db.boards[board], db.members, board, actor, true) { return Denied; }
      SetListKeepsValid(db, id, list.(isArchived := true));
      db := SetList(db, id, list.(isArchived := true));
      LogActivity(actor, board, "archived_list", Some("list"), Some(id), Some(map["name" := list.name]));
      res := Ok;
    }

    /**
     * move_list: editors only; stores the supplied position (0 when absent)
     * on this list alone. Siblings are not renumbered and nothing is logged.
     */
    method MoveList(actor: UserId, id: ListId, position: Option<int>) returns (res: Outcome)
      requires Valid()
      modifies this
      ensures Valid()
      ensures res == NotFound <==> id !in old(db.lists)
      ensures res == Denied <==> id in old(db.lists) && !MayEdit(old(db), old(db.lists)[id].boardId, actor)
      ensures res != Ok ==> db == old(db)
      ensures res != Rejected
      ensures res == Ok ==> db == SetList(old(db), id, old(db.lists)[id].(position := position.GetOr(0)))
    {
      if id !in db.lists { return NotFound; }
      var list := db.lists[id];
      var board := list.boardId;
      if !CheckBoardAccess(db.boards[board], db.members, board, actor, true) { return Denied; }
      SetListKeepsValid(db, id, list.(position := position.GetOr(0)));
      db := SetList(db, id, list.(position := position.GetOr(0)));
      res := Ok;
    }

    // -------------------------------------------------------------------------
    // Cards
    // -------------------------------------------------------------------------

    /** create_card: editors only; appends after every existing card of the list. */
    method CreateCard(actor: UserId, list: ListId, title: Option<string>) returns (res: Outcome, id: CardId)
      requires Valid()
      modifies this
      ensures Valid()
      ensures res == NotFound <==> list !in old(db.lists)
      ensures res == Denied <==> list in old(db.lists) && !MayEdit(old(db), old(db.lists)[list].boardId, actor)
      ensures res != Ok ==> db == old(db)
      ensures res != Rejected
      ensures res == Ok ==> id == old(db.nextId) && id !in old(db.cards) && db == Logged(
                InsertCard(old(db), Card(list, title.GetOr("New Card"), None, NextPosition(CardPositions(old(db.cards), list)),
                                         None, false, false, None, Some(actor), {}, {})),
                Activity(old(db.lists)[list].boardId, Some(actor), "created_card", Some("card"), None, Some(map["title" := title.GetOr("New Card")])))
      ensures res == Ok ==> forall c :: c in old(db.cards) && old(db.cards)[c].listId == list ==>
                                         old(db.cards)[c].position < db.cards[id].position
    {
      id := 0;
      if list !in db.lists { return NotFound, id; }
      var board := db.lists[list].boardId;
      if !CheckBoardAccess(db.boards[board], db.members, board, actor, true) { return Denied, id; }
      var position := NextPosition(CardPositions(db.cards, list));
      NewCardGoesLast(db.cards, list);
      var row := Card(list, title.GetOr("New Card"), None, position, None, false, false, None, Some(actor), {}, {});
      id := db.nextId;
      InsertCardKeepsValid(db, row);
      db := InsertCard(db, row);
      LogActivity(actor, board, "created_card", Some("card"), None, Some(map["title" := row.title]));
      res := Ok;
    }

    /** update_card: editors only; applies the fields present in the request and logs the change. */
    method UpdateCard(actor: UserId, id: CardId, patch: CardPatch) returns (res: Outcome)
      requires Valid()
      modifies this
      ensures Valid()
      ensures res == NotFound <==> id !in old(db.cards)
      ensures res == Denied <==> id in old(db.cards) && !MayEdit(old(db), BoardOfCard(old(db), id), actor)
      ensures res != Ok ==> db == old(db)
      ensures res != Rejected
      ensures res == Ok ==>
                var updated := ApplyPatch(old(db.cards)[id], patch);
                db == Logged(SetCard(old(db), id, updated),
                             Activity(BoardOfCard(old(db), id), Some(actor), "updated_card", Some("card"), Some(id),
                                      Some(map["title" := updated.title])))
    {
      if id !in db.cards { return NotFound; }
      var board := CardBoard(id);
      if !CheckBoardAccess(db.boards[board], db.members, board, actor, true) { return Denied; }
      var card := Patched(db.cards[id], patch);
      SetCardKeepsValid(db, id, card);
      db := SetCard(db, id, card);
      LogActivity(actor, board, "updated_card", Some("card"), Some(id), Some(map["title" := card.title]));
      res := Ok;
    }

    /**
     * move_card: editors only. The card changes list only when the target
     * list exists on the card's own board, and only then is the move logged;
     * otherwise the list part is silently ignored. A supplied position is
     * stored either way.
     */
    method MoveCard(actor: UserId, id: CardId, target: Option<ListId>, position: Option<int>) returns (res: Outcome)
      requires Valid()
      modifies this
      ensures Valid()
      ensures res == NotFound <==> id !in old(db.cards)
      ensures res == Denied <==> id in old(db.cards) && !MayEdit(old(db), BoardOfCard(old(db), id), actor)
      ensures res != Ok ==> db == old(db)
      ensures res != Rejected
      ensures res == Ok ==>
                var was := old(db.cards)[id];
                var board := BoardOfCard(old(db), id);
                var moved := SetCard(old(db), id, MovedCard(was, old(db.lists), board, target, position));
                db == if MovesToList(old(db.lists), board, target) then Logged(moved, Activity(board, Some(actor), "moved_card", Some("card"), Some(id),
                                                           Some(map["from" := old(db.lists)[was.listId].name,
                                                                    "to" := old(db.lists)[target.value].name])))
                      else moved
    {
      if id !in db.cards { return NotFound; }
      var card := db.cards[id];
      var board := CardBoard(id);
      if !CheckBoardAccess(db.boards[board], db.members, board, actor, true) { return Denied; }
      var oldList := db.lists[card.listId].name;
      var updated := MovedCard(card, db.lists, board, target, position);
      SetCardKeepsValid(db, id, updated);
      db := SetCard(db, id, updated);
      if MovesToList(db.lists, board, target) {
        LogActivity(actor, board, "moved_card", Some("card"), Some(id), Some(map["from" := oldList, "to" := db.lists[target.value].name]));
      }
      res := Ok;
    }

    /** archive_card: editors only; sets the archived flag and logs it. */
    method ArchiveCard(actor: UserId, id: CardId) returns (res: Outcome)
      requires Valid()
      modifies this
      ensures Valid()
      ensures res == NotFound <==> id !in old(db.cards)
      ensures res == Denied <==> id in old(db.cards) && !MayEdit(old(db), BoardOfCard(old(db), id), actor)
      ensures res != Ok ==> db == old(db)
      ensures res != Rejected
      ensures res == Ok ==>
                var was := old(db.cards)[id];
                db == Logged(SetCard(old(db), id, was.(isArchived := true)),
                             Activity(BoardOfCard(old(db), id), Some(actor), "archived_card", Some("card"), Some(id),
                                      Some(map["title" := was.title])))
    {
      if id !in db.cards { return NotFound; }
      var card := db.cards[id];
      var board := CardBoard(id);
      if !CheckBoardAccess(db.boards[board], db.members, board, actor, true) { return Denied; }
      SetCardKeepsValid(db, id, card.(isArchived := true));
      db := SetCard(db, id, card.(isArchived := true));
      LogActivity(actor, board, "archived_card", Some("card"), Some(id), Some(map["title" := card.title]));
      res := Ok;
    }

    /** delete_card: editors only; removes the card with its comments, checklists, items and attachments, and logs it. */
    method DeleteCard(actor: UserId, id: CardId) returns (res: Outcome)
      requires Valid()
      modifies this
      ensures Valid()
      ensures res == NotFound <==> id !in old(db.cards)
      ensures res == Denied <==> id in old(db.cards) && !MayEdit(old(db), BoardOfCard(old(db), id), actor)
      ensures res != Ok ==> db == old(db)
      ensures res != Rejected
      ensures res == Ok ==> db == Logged(RemoveCards(old(db), {id}),
                                         Activity(BoardOfCard(old(db), id), Some(actor), "deleted_card", Some("card"), Some(id),
                                                  Some(map["title" := old(db.cards)[id].title])))
    {
      if id !in db.cards { return NotFound; }
      var card := db.cards[id];
      var board := CardBoard(id);
      if !CheckBoardAccess(db.boards[board], db.members, board, actor, true) { return Denied; }
      RemoveCardsKeepsValid(db, {id});
      db := RemoveCards(db, {id});
      LogActivity(actor, board, "deleted_card", Some("card"), Some(id), Some(map["title" := card.title]));
      res := Ok;
    }

    /** update_card_members: editors only; the card's members become the requested ids that name known users. */
    method UpdateCardMembers(actor: UserId, id: CardId, memberIds: seq<UserId>) returns (res: Outcome)
      requires Valid()
      modifies this
      ensures Valid()
      ensures res == NotFound <==> id !in old(db.cards)
      ensures res == Denied <==> id in old(db.cards) && !MayEdit(old(db), BoardOfCard(old(db), id), actor)
      ensures res != Ok ==> db == old(db)
      ensures res != Rejected
      ensures res == Ok ==> db == SetCard(old(db), id, old(db.cards)[id].(members := KnownUsers(memberIds, old(db.users))))
      ensures res == Ok ==> id in db.cards && forall u :: u in db.cards[id].members <==> u in memberIds && u in db.users
    {
      if id !in db.cards { return NotFound; }
      var card := db.cards[id];
      var board := CardBoard(id);
      if !CheckBoardAccess(db.boards[board], db.members, board, actor, true) { return Denied; }
      var updated := card.(members := KnownUsers(memberIds, db.users));
      SetCardKeepsValid(db, id, updated);
      db := SetCard(db, id, updated);
      res := Ok;
    }

    /**
     * update_card_labels: editors only; the card's labels become the
     * requested ids that name labels of the card's board; others are dropped.
     */
    method UpdateCardLabels(actor: UserId, id: CardId, labelIds: seq<LabelId>) returns (res: Outcome)
      requires Valid()
      modifies this
      ensures Valid()
      ensures res == NotFound <==> id !in old(db.cards)
      ensures res == Denied <==> id in old(db.cards) && !MayEdit(old(db), BoardOfCard(old(db), id), actor)
      ensures res != Ok ==> db == old(db)
      ensures res != Rejected
      ensures res == Ok ==> db == SetCard(old(db), id, old(db.cards)[id].(labels := LabelsOf(labelIds, old(db.labels), BoardOfCard(old(db), id))))
      ensures res == Ok ==> id in db.cards && forall l :: l in db.cards[id].labels <==>
                l in labelIds && l in db.labels && db.labels[l].boardId == BoardOfCard(db, id)
    {
      if id !in db.cards { return NotFound; }
      var card := db.cards[id];
      var board := CardBoard(id);
      if !CheckBoardAccess(db.boards[board], db.members, board, actor, true) { return Denied; }
      var updated := card.(labels := LabelsOf(labelIds, db.labels, board));
      SetCardKeepsValid(db, id, updated);
      db := SetCard(db, id, updated);
      res := Ok;
    }

    // -------------------------------------------------------------------------
    // Comments
    // -------------------------------------------------------------------------

    /** add_comment: editors only; empty or missing content is rejected. */
    method AddComment(actor: UserId, card: CardId, content: Option<string>) returns (res: Outcome, id: CommentId)
      requires Valid()
      modifies this
      ensures Valid()
      ensures res == NotFound <==> card !in old(db.cards)
      ensures res == Denied <==> card in old(db.cards) && !MayEdit(old(db), BoardOfCard(old(db), card), actor)
      ensures res == Rejected <==> card in old(db.cards) && MayEdit(old(db), BoardOfCard(old(db), card), actor)
                                   && (content.None? || content.value == "")
      ensures res != Ok ==> db == old(db)
      ensures res == Ok ==> content.Some? && id == old(db.nextId) && id !in old(db.comments) && db == Logged(
                InsertComment(old(db), Comment(card, actor, content.value)),
                Activity(BoardOfCard(old(db), card), Some(actor), "added_comment", Some("card"), Some(card), None))
    {
      id := 0;
      if card !in db.cards { return NotFound, id; }
      var board := CardBoard(card);
      if !CheckBoardAccess(db.boards[board], db.members, board, actor, true) { return Denied, id; }
      if content.None? || content.value == "" { return Rejected, id; }
      var row := Comment(card, actor, content.value);
      id := db.nextId;
      InsertCommentKeepsValid(db, row);
      db := InsertComment(db, row);
      LogActivity(actor, board, "added_comment", Some("card"), Some(card), None);
      res := Ok;
    }

    /** delete_comment: only the comment's author or the board's owner; nothing is logged. */
    method DeleteComment(actor: UserId, id: CommentId) returns (res: Outcome)
      requires Valid()
      modifies this
      ensures Valid()
      ensures res == NotFound <==> id !in old(db.comments)
      ensures res == Denied <==> id in old(db.comments) && old(db.comments)[id].author != actor
                                 && !MayOwn(old(db), BoardOfCard(old(db), old(db.comments)[id].cardId), actor)
      ensures res != Ok ==> db == old(db)
      ensures res != Rejected
      ensures res == Ok ==> db == RemoveComment(old(db), id)
    {
      if id !in db.comments { return NotFound; }
      var comment := db.comments[id];
      var board := CardBoard(comment.cardId);
      if comment.author != actor && !IsOwner(db.boards[board], db.members, board, actor) { return Denied; }
      RemoveCommentKeepsValid(db, id);
      db := RemoveComment(db, id);
      res := Ok;
    }

    // -------------------------------------------------------------------------
    // Checklists
    // -------------------------------------------------------------------------

    /** add_checklist: editors only; named "Checklist" when no name is sent. */
    method AddChecklist(actor: UserId, card: CardId, name: Option<string>) returns (res: Outcome, id: ChecklistId)
      requires Valid()
      modifies this
      ensures Valid()
      ensures res == NotFound <==> card !in old(db.cards)
      ensures res == Denied <==> card in old(db.cards) && !MayEdit(old(db), BoardOfCard(old(db), card), actor)
      ensures res != Ok ==> db == old(db)
      ensures res != Rejected
      ensures res == Ok ==> id == old(db.nextId) && id !in old(db.checklists)
                            && db == InsertChecklist(old(db), Checklist(card, name.GetOr("Checklist"), 0))
    {
      id := 0;
      if card !in db.cards { return NotFound, id; }
      var board := CardBoard(card);
      if !CheckBoardAccess(db.boards[board], db.members, board, actor, true) { return Denied, id; }
      var row := Checklist(card, name.GetOr("Checklist"), 0);
      id := db.nextId;
      InsertChecklistKeepsValid(db, row);
      db := InsertChecklist(db, row);
      res := Ok;
    }

    /** add_checklist_item: editors only; a new item starts incomplete with no completer. */
    method AddChecklistItem(actor: UserId, checklist: ChecklistId, content: Option<string>) returns (res: Outcome, id: ItemId)
      requires Valid()
      modifies this
      ensures Valid()
      ensures res == NotFound <==> checklist !in old(db.checklists)
      ensures res == Denied <==> checklist in old(db.checklists)
                                 && !MayEdit(old(db), BoardOfCard(old(db), old(db.checklists)[checklist].cardId), actor)
      ensures res != Ok ==> db == old(db)
      ensures res != Rejected
      ensures res == Ok ==> id == old(db.nextId) && id !in old(db.items)
                            && db == InsertItem(old(db), ChecklistItem(checklist, content.GetOr(""), false, 0, None, None))
    {
      id := 0;
      if checklist !in db.checklists { return NotFound, id; }
      var board := CardBoard(db.checklists[checklist].cardId);
      if !CheckBoardAccess(db.boards[board], db.members, board, actor, true) { return Denied, id; }
      var row := ChecklistItem(checklist, content.GetOr(""), false, 0, None, None);
      id := db.nextId;
      InsertItemKeepsValid(db, row);
      db := InsertItem(db, row);
      res := Ok;
    }

    /**
     * toggle_checklist_item: editors only; flips the completion flag and
     * sets or clears the completer and completion time with it.
     */
    method ToggleChecklistItem(actor: UserId, id: ItemId, now: Time) returns (res: Outcome)
      requires Valid()
      modifies this
      ensures Valid()
      ensures res == NotFound <==> id !in old(db.items)
      ensures res == Denied <==> id in old(db.items)
                                 && !MayEdit(old(db), BoardOfCard(old(db), old(db.checklists)[old(db.items)[id].checklistId].cardId), actor)
      ensures res != Ok ==> db == old(db)
      ensures res != Rejected
      ensures res == Ok ==> db == SetItem(old(db), id, Toggled(old(db.items)[id], actor, now))
    {
      if id !in db.items { return NotFound; }
      var item := db.items[id];
      var board := CardBoard(db.checklists[item.checklistId].cardId);
      if !CheckBoardAccess(db.boards[board], db.members, board, actor, true) { return Denied; }
      item := item.(isComplete := !item.isComplete);
      if item.isComplete {
        item := item.(completedBy := Some(actor), completedAt := Some(now));
      } else {
        item := item.(completedBy := None, completedAt := None);
      }
      assert item == Toggled(db.items[id], actor, now);
      SetItemKeepsValid(db, id, item);
      db := SetItem(db, id, item);
      res := Ok;
    }

    /** delete_checklist: editors only; removes the checklist and its items. */
    method DeleteChecklist(actor: UserId, id: ChecklistId) returns (res: Outcome)
      requires Valid()
      modifies this
      ensures Valid()
      ensures res == NotFound <==> id !in old(db.checklists)
      ensures res == Denied <==> id in old(db.checklists)
                                 && !MayEdit(old(db), BoardOfCard(old(db), old(db.checklists)[id].cardId), actor)
      ensures res != Ok ==> db == old(db)
      ensures res != Rejected
      ensures res == Ok ==> db == RemoveChecklist(old(db), id)
    {
      if id !in db.checklists { return NotFound; }
      var board := CardBoard(db.checklists[id].cardId);
      if !CheckBoardAccess(db.boards[board], db.members, board, actor, true) { return Denied; }
      RemoveChecklistKeepsValid(db, id);
      db := RemoveChecklist(db, id);
      res := Ok;
    }

    // -------------------------------------------------------------------------
    // Labels
    // -------------------------------------------------------------------------

    /** create_label: editors only; name "" and colour "gray" unless sent. */
    method CreateLabel(actor: UserId, board: BoardId, name: Option<string>, color: Option<string>) returns (res: Outcome, id: LabelId)
      requires Valid()
      modifies this
      ensures Valid()
      ensures res == NotFound <==> board !in old(db.boards)
      ensures res == Denied <==> board in old(db.boards) && !MayEdit(old(db), board, actor)
      ensures res != Ok ==> db == old(db)
      ensures res != Rejected
      ensures res == Ok ==> id == old(db.nextId) && id !in old(db.labels)
                            && db == InsertLabel(old(db), Label(board, name.GetOr(""), color.GetOr("gray")))
    {
      id := 0;
      if board !in db.boards { return NotFound, id; }
      if !CheckBoardAccess(db.boards[board], db.members, board, actor, true) { return Denied, id; }
      var row := Label(board, name.GetOr(""), color.GetOr("gray"));
      id := db.nextId;
      InsertLabelKeepsValid(db, row);
      db := InsertLabel(db, row);
      res := Ok;
    }

    /** update_label: editors only; keeps each field that is not sent. */
    method UpdateLabel(actor: UserId, id: LabelId, name: Option<string>, color: Option<string>) returns (res: Outcome)
      requires Valid()
      modifies this
      ensures Valid()
      ensures res == NotFound <==> id !in old(db.labels)
      ensures res == Denied <==> id in old(db.labels) && !MayEdit(old(db), old(db.labels)[id].boardId, actor)
      ensures res != Ok ==> db == old(db)
      ensures res != Rejected
      ensures res == Ok ==>
                var was := old(db.labels)[id];
                db == SetLabel(old(db), id, was.(name := name.GetOr(was.name), color := color.GetOr(was.color)))
    {
      if id !in db.labels { return NotFound; }
      var row := db.labels[id];
      var board := row.boardId;
      if !CheckBoardAccess(db.boards[board], db.members, board, actor, true) { return Denied; }
      var updated := row.(name := name.GetOr(row.name), color := color.GetOr(row.color));
      SetLabelKeepsValid(db, id, updated);
      db := SetLabel(db, id, updated);
      res := Ok;
    }

    /** delete_label: editors only; the label also disappears from every card carrying it. */
    method DeleteLabel(actor: UserId, id: LabelId) returns (res: Outcome)
      requires Valid()
      modifies this
      ensures Valid()
      ensures res == NotFound <==> id !in old(db.labels)
      ensures res == Denied <==> id in old(db.labels) && !MayEdit(old(db), old(db.labels)[id].boardId, actor)
      ensures res != Ok ==> db == old(db)
      ensures res != Rejected
      ensures res == Ok ==> db == RemoveLabel(old(db), id)
    {
      if id !in db.labels { return NotFound; }
      var board := db.labels[id].boardId;
      if !CheckBoardAccess(db.boards[board], db.members, board, actor, true) { return Denied; }
      RemoveLabelKeepsValid(db, id);
      db := RemoveLabel(db, id);
      res := Ok;
    }

    // -------------------------------------------------------------------------
    // Board members
    // -------------------------------------------------------------------------

    /**
     * add_board_member: owner only; the user must exist. Inserts a row with
     * the given role ("member" when none is sent) only if the user has no
     * row yet; re-adding keeps the existing role.
     */
    method AddBoardMember(actor: UserId, id: BoardId, user: UserId, role: Option<Role>) returns (res: Outcome)
      requires Valid()
      modifies this
      ensures Valid()
      ensures res == NotFound <==> id !in old(db.boards) || (MayOwn(old(db), id, actor) && user !in old(db.users))
      ensures res == Denied <==> id in old(db.boards) && !MayOwn(old(db), id, actor)
      ensures res != Ok ==> db == old(db)
      ensures res != Rejected
      ensures res == Ok ==> db == AddMember(old(db), id, user, role.GetOr(MemberRole))
    {
      if id !in db.boards { return NotFound; }
      if !IsOwner(db.boards[id], db.members, id, actor) { return Denied; }
      if user !in db.users { return NotFound; }
      if (id, user) !in db.members {
        SetMemberKeepsValid(db, id, user, role.GetOr(MemberRole));
        db := SetMember(db, id, user, role.GetOr(MemberRole));
      }
      res := Ok;
    }

    /** remove_board_member: owner only; deletes the one row of that (board, user) pair, if any. */
    method RemoveBoardMember(actor: UserId, id: BoardId, user: UserId) returns (res: Outcome)
      requires Valid()
      modifies this
      ensures Valid()
      ensures res == NotFound <==> id !in old(db.boards)
      ensures res == Denied <==> id in old(db.boards) && !MayOwn(old(db), id, actor)
      ensures res != Ok ==> db == old(db)
      ensures res != Rejected
      ensures res == Ok ==> db == RemoveMember(old(db), id, user)
    {
      if id !in db.boards { return NotFound; }
      if !IsOwner(db.boards[id], db.members, id, actor) { return Denied; }
      RemoveMemberKeepsValid(db, id, user);
      db := RemoveMember(db, id, user);
      res := Ok;
    }
  }
}
