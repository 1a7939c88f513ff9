/**
 * The add-on's tables as one value: a map per table keyed by row id, the
 * board_members association keyed by (board, user), and the append-only
 * activity log. Its invariant is referential integrity plus the two
 * consistency rules the handlers keep (a card's labels come from its own
 * board; a checklist item's completer is set exactly when it is complete).
 * The lemmas below show, one kind of row change at a time, that the
 * handlers' updates keep the invariant; the cascade functions give the
 * outcome of deleting a card or a board.
 */
module Tables {
  import opened Models
  import opened Positions

  datatype State = State(
    users: set<UserId>,
    boards: map<BoardId, Board>,
    members: Membership,
    lists: map<ListId, BoardList>,
    cards: map<CardId, Card>,
    labels: map<LabelId, Label>,
    comments: map<CommentId, Comment>,
    checklists: map<ChecklistId, Checklist>,
    items: map<ItemId, ChecklistItem>,
    attachments: map<AttachmentId, Attachment>,
    activity: seq<Activity>,
    nextId: int)

  const DefaultLabelColors: seq<string> := ["emerald", "blue", "purple", "red", "yellow", "orange"]
  const DefaultListNames: seq<string> := ["To Do", "In Progress", "Done"]

  /** completed_by and completed_at are set exactly when the item is complete. */
  predicate CompletionConsistent(item: ChecklistItem) {
    (item.completedBy.Some? <==> item.isComplete) && (item.completedAt.Some? <==> item.isComplete)
  }

  // ---------------------------------------------------------------------------
  // The invariant
  // ---------------------------------------------------------------------------

  /** Every row id is below the next id to be handed out. */
  ghost predicate IdsBelow(s: State) {
    && (forall k :: k in s.boards ==> k < s.nextId)
    && (forall k :: k in s.lists ==> k < s.nextId)
    && (forall k :: k in s.cards ==> k < s.nextId)
    && (forall k :: k in s.labels ==> k < s.nextId)
    && (forall k :: k in s.comments ==> k < s.nextId)
    && (forall k :: k in s.checklists ==> k < s.nextId)
    && (forall k :: k in s.items ==> k < s.nextId)
    && (forall k :: k in s.attachments ==> k < s.nextId)
  }

  /** Every foreign key names an existing row. */
  ghost predicate RefsResolve(s: State) {
    && (forall k :: k in s.members ==> k.0 in s.boards)
    && (forall l :: l in s.lists ==> s.lists[l].boardId in s.boards)
    && (forall c :: c in s.cards ==> s.cards[c].listId in s.lists)
    && (forall l :: l in s.labels ==> s.labels[l].boardId in s.boards)
    && (forall c :: c in s.comments ==> s.comments[c].cardId in s.cards)
    && (forall c :: c in s.checklists ==> s.checklists[c].cardId in s.cards)
    && (forall i :: i in s.items ==> s.items[i].checklistId in s.checklists)
    && (forall a :: a in s.attachments ==> s.attachments[a].cardId in s.cards)
    && (forall e :: e in s.activity ==> e.boardId in s.boards)
  }

  /** Every label id in `ls` names a label of board `b`. */
  predicate LabelsOnBoard(labels: map<LabelId, Label>, ls: set<LabelId>, b: BoardId) {
    forall l :: l in ls ==> l in labels && labels[l].boardId == b
  }

  /** A card's labels belong to the board of the card's list. */
  ghost predicate CardLabelsOnBoard(s: State) {
    forall c :: c in s.cards && s.cards[c].listId in s.lists ==>
      LabelsOnBoard(s.labels, s.cards[c].labels, s.lists[s.cards[c].listId].boardId)
  }

  ghost predicate ItemsConsistent(s: State) {
    forall i :: i in s.items ==> CompletionConsistent(s.items[i])
  }

  ghost predicate ValidState(s: State) {
    IdsBelow(s) && RefsResolve(s) && CardLabelsOnBoard(s) && ItemsConsistent(s)
  }

  // ---------------------------------------------------------------------------
  // Derived lookups
  // ---------------------------------------------------------------------------

  /** The board a card belongs to, through its list (card.list.board). */
  function BoardOfCard(s: State, c: CardId): BoardId
    requires c in s.cards && s.cards[c].listId in s.lists
  {
    s.lists[s.cards[c].listId].boardId
  }

  predicate MayEdit(s: State, b: BoardId, user: UserId) {
    b in s.boards && CanEdit(s.boards[b], s.members, b, user)
  }

  predicate MayOwn(s: State, b: BoardId, user: UserId) {
    b in s.boards && IsOwner(s.boards[b], s.members, b, user)
  }

  /** Positions of all lists of a board, archived ones included. */
  function ListPositions(lists: map<ListId, BoardList>, b: BoardId): set<int> {
    set l | l in lists && lists[l].boardId == b :: lists[l].position
  }

  /** Positions of all cards of a list, archived ones included. */
  function CardPositions(cards: map<CardId, Card>, l: ListId): set<int> {
    set c | c in cards && cards[c].listId == l :: cards[c].position
  }

  /** A list appended to a board lands after every list of that board, archived ones included. */
  lemma {:induction false} NewListGoesLast(lists: map<ListId, BoardList>, b: BoardId)
    ensures forall l :: l in lists && lists[l].boardId == b ==> lists[l].position < NextPosition(ListPositions(lists, b))
  {
    forall l | l in lists && lists[l].boardId == b
      ensures lists[l].position < NextPosition(ListPositions(lists, b))
    {
      assert lists[l].position in ListPositions(lists, b);
    }
  }

  /** A card appended to a list lands after every card of that list, archived ones included. */
  lemma {:induction false} NewCardGoesLast(cards: map<CardId, Card>, l: ListId)
    ensures forall c :: c in cards && cards[c].listId == l ==> cards[c].position < NextPosition(CardPositions(cards, l))
  {
    forall c | c in cards && cards[c].listId == l
      ensures cards[c].position < NextPosition(CardPositions(cards, l))
    {
      assert cards[c].position in CardPositions(cards, l);
    }
  }

  /** The first `n` default labels of a new board, at consecutive ids from `first`. */
  function LabelRows(board: BoardId, first: LabelId, n: nat): (r: map<LabelId, Label>)
    requires n <= |DefaultLabelColors|
    ensures forall k :: k in r <==> first <= k < first + n
    ensures forall i :: 0 <= i < n ==> r[first + i] == Label(board, "", DefaultLabelColors[i])
    ensures forall k :: k in r ==> r[k].boardId == board
  {
    if n == 0 then map[]
    else LabelRows(board, first, n - 1)[first + n - 1 := Label(board, "", DefaultLabelColors[n - 1])]
  }

  /** The first `n` default lists of a new board, at positions 0, 1, ... and consecutive ids from `first`. */
  function ListRows(board: BoardId, first: ListId, n: nat): (r: map<ListId, BoardList>)
    requires n <= |DefaultListNames|
    ensures forall k :: k in r <==> first <= k < first + n
    ensures forall i :: 0 <= i < n ==> r[first + i] == BoardList(board, DefaultListNames[i], i, false)
    ensures forall k :: k in r ==> r[k].boardId == board
  {
    if n == 0 then map[]
    else ListRows(board, first, n - 1)[first + n - 1 := BoardList(board, DefaultListNames[n - 1], n - 1, false)]
  }

  /** The board row itself, at the next id. */
  function AddBoardRow(s: State, board: Board): State {
    s.(boards := s.boards[s.nextId := board], nextId := s.nextId + 1)
  }

  /** The first `n` default labels of board `b`, at the next ids. */
  function AddLabelRows(s: State, b: BoardId, n: nat): State
    requires n <= |DefaultLabelColors|
  {
    s.(labels := s.labels + LabelRows(b, s.nextId, n), nextId := s.nextId + n)
  }

  /** The first `n` default lists of board `b`, at the next ids. */
  function AddListRows(s: State, b: BoardId, n: nat): State
    requires n <= |DefaultListNames|
  {
    s.(lists := s.lists + ListRows(b, s.nextId, n), nextId := s.nextId + n)
  }

  /**
   * create_board's rows, in the order it adds them: the board at the next
   * id, its six default labels after it, then its three default lists.
   */
  function InsertBoard(s: State, board: Board): State {
    AddListRows(AddLabelRows(AddBoardRow(s, board), s.nextId, 6), s.nextId, 3)
  }

  /** Adding a new board's default labels to a table that holds none of that board's. */
  lemma NewBoardLabels(labels: map<LabelId, Label>, b: BoardId, merged: map<LabelId, Label>)
    requires forall k :: k in labels ==> k < b && labels[k].boardId != b
    requires merged == labels + LabelRows(b, b + 1, 6)
    ensures forall k :: (k in merged && merged[k].boardId == b) <==> b < k <= b + 6
    ensures forall i :: 0 <= i < 6 ==> merged[b + 1 + i] == Label(b, "", DefaultLabelColors[i])
    ensures forall k :: k in labels ==> k in merged && merged[k] == labels[k]
  {
    var rows := LabelRows(b, b + 1, 6);
    forall k | k in labels
      ensures merged[k] == labels[k]
    {
      assert k !in rows;
    }
  }

  /** Adding a new board's default lists to a table that holds none of that board's. */
  lemma NewBoardLists(lists: map<ListId, BoardList>, b: BoardId, merged: map<ListId, BoardList>)
    requires forall k :: k in lists ==> k < b && lists[k].boardId != b
    requires merged == lists + ListRows(b, b + 7, 3)
    ensures forall k :: (k in merged && merged[k].boardId == b) <==> b + 7 <= k < b + 10
    ensures forall i :: 0 <= i < 3 ==> merged[b + 7 + i] == BoardList(b, DefaultListNames[i], i, false)
    ensures forall k :: k in lists ==> k in merged && merged[k] == lists[k]
  {
    var rows := ListRows(b, b + 7, 3);
    forall k | k in lists
      ensures merged[k] == lists[k]
    {
      assert k !in rows;
    }
  }

  /** create_board's rows, laid out as one update of the tables. */
  lemma InsertBoardShape(s: State, board: Board)
    ensures InsertBoard(s, board) == s.(boards := s.boards[s.nextId := board],
                                        labels := s.labels + LabelRows(s.nextId, s.nextId + 1, 6),
                                        lists := s.lists + ListRows(s.nextId, s.nextId + 7, 3),
                                        nextId := s.nextId + 10)
  {
  }

  /** In a valid store no label or list belongs to the board id handed out next. */
  lemma NextBoardIdIsFresh(s: State)
    requires ValidState(s)
    ensures forall k :: k in s.labels ==> k < s.nextId && s.labels[k].boardId != s.nextId
    ensures forall k :: k in s.lists ==> k < s.nextId && s.lists[k].boardId != s.nextId
  {
  }

  /** create_board's labels: the new board owns exactly the six default labels, at the ids after its own. */
  lemma InsertBoardLabels(s: State, board: Board)
    requires forall k :: k in s.labels ==> k < s.nextId && s.labels[k].boardId != s.nextId
    ensures forall k :: (k in InsertBoard(s, board).labels && InsertBoard(s, board).labels[k].boardId == s.nextId)
                          <==> s.nextId < k <= s.nextId + 6
    ensures forall i :: 0 <= i < 6 ==> InsertBoard(s, board).labels[s.nextId + 1 + i] == Label(s.nextId, "", DefaultLabelColors[i])
    ensures forall k :: k in s.labels ==> k in InsertBoard(s, board).labels && InsertBoard(s, board).labels[k] == s.labels[k]
  {
    InsertBoardShape(s, board);
    NewBoardLabels(s.labels, s.nextId, InsertBoard(s, board).labels);
  }

  /** create_board's lists: the new board owns exactly the three default lists, after its labels. */
  lemma InsertBoardLists(s: State, board: Board)
    requires forall k :: k in s.lists ==> k < s.nextId && s.lists[k].boardId != s.nextId
    ensures forall k :: (k in InsertBoard(s, board).lists && InsertBoard(s, board).lists[k].boardId == s.nextId)
                          <==> s.nextId + 7 <= k < s.nextId + 10
    ensures forall i :: 0 <= i < 3 ==> InsertBoard(s, board).lists[s.nextId + 7 + i] == BoardList(s.nextId, DefaultListNames[i], i, false)
    ensures forall k :: k in s.lists ==> k in InsertBoard(s, board).lists && InsertBoard(s, board).lists[k] == s.lists[k]
  {
    InsertBoardShape(s, board);
    NewBoardLists(s.lists, s.nextId, InsertBoard(s, board).lists);
  }

  /**
   * What create_board leaves behind in a valid store: the board at the
   * next id, owning exactly the six default labels and the three default
   * lists; every row that was there before is still there, unchanged.
   */
  lemma InsertBoardContents(s: State, board: Board)
    requires ValidState(s)
    ensures InsertBoard(s, board).boards == s.boards[s.nextId := board]
    ensures InsertBoard(s, board).nextId == s.nextId + 10
    ensures forall k :: (k in InsertBoard(s, board).labels && InsertBoard(s, board).labels[k].boardId == s.nextId)
                          <==> s.nextId < k <= s.nextId + 6
    ensures forall i :: 0 <= i < 6 ==> InsertBoard(s, board).labels[s.nextId + 1 + i] == Label(s.nextId, "", DefaultLabelColors[i])
    ensures forall k :: (k in InsertBoard(s, board).lists && InsertBoard(s, board).lists[k].boardId == s.nextId)
                          <==> s.nextId + 7 <= k < s.nextId + 10
    ensures forall i :: 0 <= i < 3 ==> InsertBoard(s, board).lists[s.nextId + 7 + i] == BoardList(s.nextId, DefaultListNames[i], i, false)
    ensures forall k :: k in s.labels ==> k in InsertBoard(s, board).labels && InsertBoard(s, board).labels[k] == s.labels[k]
    ensures forall k :: k in s.lists ==> k in InsertBoard(s, board).lists && InsertBoard(s, board).lists[k] == s.lists[k]
    ensures InsertBoard(s, board).cards == s.cards && InsertBoard(s, board).members == s.members
    ensures InsertBoard(s, board).activity == s.activity
  {
    NextBoardIdIsFresh(s);
    InsertBoardLabels(s, board);
    InsertBoardLists(s, board);
  }

  lemma AddBoardRowKeepsValid(s: State, board: Board)
    requires ValidState(s)
    ensures ValidState(AddBoardRow(s, board))
  {
  }

  lemma AddLabelRowsKeepsValid(s: State, b: BoardId, n: nat)
    requires ValidState(s) && b in s.boards && n <= |DefaultLabelColors|
    ensures ValidState(AddLabelRows(s, b, n))
  {
    var rows := LabelRows(b, s.nextId, n);
    var r := AddLabelRows(s, b, n);
    forall l | l in s.labels
      ensures r.labels[l] == s.labels[l]
    {
      assert l !in rows;
    }
    assert IdsBelow(r);
    assert RefsResolve(r);
    forall c | c in r.cards && r.cards[c].listId in r.lists
      ensures LabelsOnBoard(r.labels, r.cards[c].labels, r.lists[r.cards[c].listId].boardId)
    {
      assert LabelsOnBoard(s.labels, s.cards[c].labels, s.lists[s.cards[c].listId].boardId);
    }
  }

  lemma AddListRowsKeepsValid(s: State, b: BoardId, n: nat)
    requires ValidState(s) && b in s.boards && n <= |DefaultListNames|
    ensures ValidState(AddListRows(s, b, n))
  {
    var rows := ListRows(b, s.nextId, n);
    var r := AddListRows(s, b, n);
    forall l | l in s.lists
      ensures r.lists[l] == s.lists[l]
    {
      assert l !in rows;
    }
    assert IdsBelow(r);
    assert RefsResolve(r);
    forall c | c in r.cards && r.cards[c].listId in r.lists
      ensures LabelsOnBoard(r.labels, r.cards[c].labels, r.lists[r.cards[c].listId].boardId)
    {
      assert LabelsOnBoard(s.labels, s.cards[c].labels, s.lists[s.cards[c].listId].boardId);
    }
  }

  lemma InsertBoardKeepsValid(s: State, board: Board)
    requires ValidState(s)
    ensures ValidState(InsertBoard(s, board))
  {
    var t1 := AddBoardRow(s, board);
    AddBoardRowKeepsValid(s, board);
    var t2 := AddLabelRows(t1, s.nextId, 6);
    AddLabelRowsKeepsValid(t1, s.nextId, 6);
    AddListRowsKeepsValid(t2, s.nextId, 3);
  }

  /** The activity log without the entries of one board, in the same order. */
  function DropBoardEntries(log: seq<Activity>, board: BoardId): (r: seq<Activity>)
    ensures forall e :: e in r <==> e in log && e.boardId != board
    ensures forall e :: multiset(r)[e] == if e.boardId == board then 0 else multiset(log)[e]
    ensures |r| <= |log|
  {
    if log == [] then []
    else
      assert log == [log[0]] + log[1..];
      if log[0].boardId == board then DropBoardEntries(log[1..], board)
      else [log[0]] + DropBoardEntries(log[1..], board)
  }

  /**
   * Dropping a board's entries works entry by entry, in log order: on a
   * concatenation it is the concatenation of the two results. With the
   * one-entry case this fixes the result, the order of the kept entries
   * included.
   */
  lemma {:induction false} DropBoardEntriesAppend(a: seq<Activity>, b: seq<Activity>, board: BoardId)
    ensures DropBoardEntries(a + b, board) == DropBoardEntries(a, board) + DropBoardEntries(b, board)
  {
    if a == [] {
      assert a + b == b;
    } else {
      assert (a + b)[0] == a[0];
      assert (a + b)[1..] == a[1..] + b;
      DropBoardEntriesAppend(a[1..], b, board);
    }
  }

  /** A single entry is kept exactly when it belongs to another board. */
  lemma DropBoardEntriesSingle(e: Activity, board: BoardId)
    ensures DropBoardEntries([e], board) == if e.boardId == board then [] else [e]
  {
    assert [e][1..] == [];
  }

  // ---------------------------------------------------------------------------
  // Cascading deletes
  // ---------------------------------------------------------------------------

  function ListsOfBoard(lists: map<ListId, BoardList>, b: BoardId): set<ListId> {
    set l | l in lists && lists[l].boardId == b
  }

  function CardsInLists(cards: map<CardId, Card>, ls: set<ListId>): set<CardId> {
    set c | c in cards && cards[c].listId in ls
  }

  function ChecklistsOfCards(checklists: map<ChecklistId, Checklist>, cs: set<CardId>): set<ChecklistId> {
    set k | k in checklists && checklists[k].cardId in cs
  }

  function CommentsNotOn(comments: map<CommentId, Comment>, cs: set<CardId>): (r: map<CommentId, Comment>)
    ensures forall k :: k in r <==> k in comments && comments[k].cardId !in cs
    ensures forall k :: k in r ==> r[k] == comments[k]
  {
    map k | k in comments && comments[k].cardId !in cs :: comments[k]
  }

  function ItemsNotIn(items: map<ItemId, ChecklistItem>, gone: set<ChecklistId>): (r: map<ItemId, ChecklistItem>)
    ensures forall i :: i in r <==> i in items && items[i].checklistId !in gone
    ensures forall i :: i in r ==> r[i] == items[i]
  {
    map i | i in items && items[i].checklistId !in gone :: items[i]
  }

  function AttachmentsNotOn(attachments: map<AttachmentId, Attachment>, cs: set<CardId>): (r: map<AttachmentId, Attachment>)
    ensures forall a :: a in r <==> a in attachments && attachments[a].cardId !in cs
    ensures forall a :: a in r ==> r[a] == attachments[a]
  {
    map a | a in attachments && attachments[a].cardId !in cs :: attachments[a]
  }

  /**
   * Deleting cards: the cards go, and with them their comments, their
   * checklists, those checklists' items, and their attachments. The other
   * tables are untouched.
   */
  function RemoveCards(s: State, cs: set<CardId>): (r: State)
    ensures forall c :: c in r.cards <==> c in s.cards && c !in cs
    ensures forall c :: c in r.cards ==> r.cards[c] == s.cards[c]
    ensures forall k :: k in r.comments <==> k in s.comments && s.comments[k].cardId !in cs
    ensures forall k :: k in r.comments ==> r.comments[k] == s.comments[k]
    ensures forall k :: k in r.checklists <==> k in s.checklists && s.checklists[k].cardId !in cs
    ensures forall k :: k in r.checklists ==> r.checklists[k] == s.checklists[k]
    ensures forall i :: i in r.items <==> i in s.items && !(s.items[i].checklistId in s.checklists
                                                           && s.checklists[s.items[i].checklistId].cardId in cs)
    ensures forall i :: i in r.items ==> r.items[i] == s.items[i]
    ensures forall a :: a in r.attachments <==> a in s.attachments && s.attachments[a].cardId !in cs
    ensures forall a :: a in r.attachments ==> r.attachments[a] == s.attachments[a]
    ensures r.boards == s.boards && r.lists == s.lists && r.labels == s.labels && r.members == s.members
    ensures r.activity == s.activity && r.users == s.users && r.nextId == s.nextId
  {
    var gone := ChecklistsOfCards(s.checklists, cs);
    s.(cards := s.cards - cs,
       comments := CommentsNotOn(s.comments, cs),
       checklists := s.checklists - gone,
       items := ItemsNotIn(s.items, gone),
       attachments := AttachmentsNotOn(s.attachments, cs))
  }

  function ListsNotOn(lists: map<ListId, BoardList>, b: BoardId): (r: map<ListId, BoardList>)
    ensures forall l :: l in r <==> l in lists && lists[l].boardId != b
    ensures forall l :: l in r ==> r[l] == lists[l]
  {
    map l | l in lists && lists[l].boardId != b :: lists[l]
  }

  function LabelsNotOn(labels: map<LabelId, Label>, b: BoardId): (r: map<LabelId, Label>)
    ensures forall l :: l in r <==> l in labels && labels[l].boardId != b
    ensures forall l :: l in r ==> r[l] == labels[l]
  {
    map l | l in labels && labels[l].boardId != b :: labels[l]
  }

  function MembersNotOn(members: Membership, b: BoardId): (r: Membership)
    ensures forall k :: k in r <==> k in members && k.0 != b
    ensures forall k :: k in r ==> r[k] == members[k]
  {
    map k | k in members && k.0 != b :: members[k]
  }

  /**
   * The rows that hang directly off a board: its memberships, lists,
   * labels and activity entries, and the board row itself.
   */
  function DropBoardRows(s: State, b: BoardId): (r: State)
    ensures r.boards == s.boards - {b}
  {
    s.(boards := s.boards - {b},
       members := MembersNotOn(s.members, b),
       lists := ListsNotOn(s.lists, b),
       labels := LabelsNotOn(s.labels, b),
       activity := DropBoardEntries(s.activity, b))
  }

  /** The cards on the lists of board `b`. */
  function BoardCards(s: State, b: BoardId): set<CardId> {
    CardsInLists(s.cards, ListsOfBoard(s.lists, b))
  }

  /**
   * Deleting a board: the cards of its lists go with everything they own,
   * then the rows that hang off the board itself.
   */
  function WithoutBoard(s: State, b: BoardId): (r: State)
    ensures r.boards == s.boards - {b}
    ensures forall c :: c in r.cards <==> c in s.cards && s.cards[c].listId !in ListsOfBoard(s.lists, b)
    ensures forall c :: c in r.cards ==> r.cards[c] == s.cards[c]
    ensures forall l :: l in r.lists <==> l in s.lists && s.lists[l].boardId != b
    ensures forall l :: l in r.lists ==> r.lists[l] == s.lists[l]
    ensures forall l :: l in r.labels <==> l in s.labels && s.labels[l].boardId != b
    ensures forall l :: l in r.labels ==> r.labels[l] == s.labels[l]
    ensures forall k :: k in r.members <==> k in s.members && k.0 != b
    ensures forall k :: k in r.members ==> r.members[k] == s.members[k]
    ensures forall e :: e in r.activity <==> e in s.activity && e.boardId != b
    ensures r.activity == DropBoardEntries(s.activity, b)
    ensures forall k :: k in r.comments <==> k in s.comments && s.comments[k].cardId !in BoardCards(s, b)
    ensures forall k :: k in r.comments ==> r.comments[k] == s.comments[k]
    ensures forall k :: k in r.checklists <==> k in s.checklists && s.checklists[k].cardId !in BoardCards(s, b)
    ensures forall k :: k in r.checklists ==> r.checklists[k] == s.checklists[k]
    ensures forall i :: i in r.items <==> i in s.items && !(s.items[i].checklistId in s.checklists
                                                           && s.checklists[s.items[i].checklistId].cardId in BoardCards(s, b))
    ensures forall i :: i in r.items ==> r.items[i] == s.items[i]
    ensures forall a :: a in r.attachments <==> a in s.attachments && s.attachments[a].cardId !in BoardCards(s, b)
    ensures forall a :: a in r.attachments ==> r.attachments[a] == s.attachments[a]
    ensures r.users == s.users && r.nextId == s.nextId
  {
    DropBoardRows(RemoveCards(s, BoardCards(s, b)), b)
  }

  /** No comment, checklist, item or attachment outlives its card. */
  lemma {:induction false} RemoveCardsKeepsValid(s: State, cs: set<CardId>)
    requires ValidState(s)
    ensures ValidState(RemoveCards(s, cs))
    ensures forall c :: c in RemoveCards(s, cs).comments ==> RemoveCards(s, cs).comments[c].cardId !in cs
    ensures forall k :: k in RemoveCards(s, cs).checklists ==> RemoveCards(s, cs).checklists[k].cardId !in cs
    ensures forall a :: a in RemoveCards(s, cs).attachments ==> RemoveCards(s, cs).attachments[a].cardId !in cs
  {
    var r := RemoveCards(s, cs);
    var gone := ChecklistsOfCards(s.checklists, cs);
    assert IdsBelow(r);
    forall i | i in r.items
      ensures r.items[i].checklistId in r.checklists
    {
      assert s.items[i].checklistId !in gone;
    }
    forall k | k in r.checklists
      ensures r.checklists[k].cardId in r.cards
    {
      assert k !in gone;
    }
    assert RefsResolve(r);
    assert CardLabelsOnBoard(r);
    assert ItemsConsistent(r);
  }

  /** Dropping a board's own rows is safe once no card of the board is left. */
  lemma DropBoardRowsKeepsValid(s: State, b: BoardId)
    requires ValidState(s)
    requires forall c :: c in s.cards ==> BoardOfCard(s, c) != b
    ensures ValidState(DropBoardRows(s, b))
  {
    var r := DropBoardRows(s, b);
    DropBoardRowsResolve(s, b);
    forall c | c in r.cards && r.cards[c].listId in r.lists
      ensures LabelsOnBoard(r.labels, r.cards[c].labels, r.lists[r.cards[c].listId].boardId)
    {
      assert BoardOfCard(s, c) != b;
      assert LabelsOnBoard(s.labels, s.cards[c].labels, BoardOfCard(s, c));
    }
  }

  /** After dropping a board's own rows, every reference still resolves. */
  lemma DropBoardRowsResolve(s: State, b: BoardId)
    requires ValidState(s)
    requires forall c :: c in s.cards ==> BoardOfCard(s, c) != b
    ensures RefsResolve(DropBoardRows(s, b))
  {
  }

  lemma WithoutBoardKeepsValid(s: State, b: BoardId)
    requires ValidState(s)
    ensures ValidState(WithoutBoard(s, b))
  {
    var cs := CardsInLists(s.cards, ListsOfBoard(s.lists, b));
    var t := RemoveCards(s, cs);
    RemoveCardsKeepsValid(s, cs);
    forall c | c in t.cards
      ensures BoardOfCard(t, c) != b
    {
      assert c !in cs;
    }
    DropBoardRowsKeepsValid(t, b);
  }

  /** Once a board is gone from a valid store, no row anywhere leads back to it. */
  lemma NoOrphans(s: State, b: BoardId)
    requires ValidState(s) && b !in s.boards
    ensures forall k :: k in s.members ==> k.0 != b
    ensures forall l :: l in s.lists ==> s.lists[l].boardId != b
    ensures forall l :: l in s.labels ==> s.labels[l].boardId != b
    ensures forall c :: c in s.cards ==> BoardOfCard(s, c) != b
    ensures forall c :: c in s.comments ==> BoardOfCard(s, s.comments[c].cardId) != b
    ensures forall k :: k in s.checklists ==> BoardOfCard(s, s.checklists[k].cardId) != b
    ensures forall i :: i in s.items ==> BoardOfCard(s, s.checklists[s.items[i].checklistId].cardId) != b
    ensures forall a :: a in s.attachments ==> BoardOfCard(s, s.attachments[a].cardId) != b
    ensures forall e :: e in s.activity ==> e.boardId != b
  {
  }

  // ---------------------------------------------------------------------------
  // Row changes, and that each keeps the invariant
  // ---------------------------------------------------------------------------

  /** One more entry at the end of the activity log. */
  function Logged(s: State, e: Activity): State {
    s.(activity := s.activity + [e])
  }

  function SetBoard(s: State, id: BoardId, b: Board): State {
    s.(boards := s.boards[id := b])
  }

  function InsertList(s: State, l: BoardList): State {
    s.(lists := s.lists[s.nextId := l], nextId := s.nextId + 1)
  }

  function SetList(s: State, id: ListId, l: BoardList): State {
    s.(lists := s.lists[id := l])
  }

  function InsertCard(s: State, c: Card): State {
    s.(cards := s.cards[s.nextId := c], nextId := s.nextId + 1)
  }

  function SetCard(s: State, id: CardId, c: Card): State {
    s.(cards := s.cards[id := c])
  }

  function InsertComment(s: State, c: Comment): State {
    s.(comments := s.comments[s.nextId := c], nextId := s.nextId + 1)
  }

  function RemoveComment(s: State, id: CommentId): State {
    s.(comments := s.comments - {id})
  }

  function InsertChecklist(s: State, c: Checklist): State {
    s.(checklists := s.checklists[s.nextId := c], nextId := s.nextId + 1)
  }

  /** A checklist goes together with its items. */
  function RemoveChecklist(s: State, id: ChecklistId): (r: State)
    ensures r.checklists == s.checklists - {id}
    ensures forall i :: i in r.items <==> i in s.items && s.items[i].checklistId != id
    ensures forall i :: i in r.items ==> r.items[i] == s.items[i]
    ensures r.(checklists := s.checklists, items := s.items) == s
  {
    s.(checklists := s.checklists - {id},
       items := ItemsNotIn(s.items, {id}))
  }

  function InsertItem(s: State, item: ChecklistItem): State {
    s.(items := s.items[s.nextId := item], nextId := s.nextId + 1)
  }

  function SetItem(s: State, id: ItemId, item: ChecklistItem): State {
    s.(items := s.items[id := item])
  }

  function InsertLabel(s: State, l: Label): State {
    s.(labels := s.labels[s.nextId := l], nextId := s.nextId + 1)
  }

  function SetLabel(s: State, id: LabelId, l: Label): State {
    s.(labels := s.labels[id := l])
  }

  /** A label goes, and its association rows with every card that carried it. */
  function RemoveLabel(s: State, id: LabelId): (r: State)
    ensures r.labels == s.labels - {id}
    ensures r.cards.Keys == s.cards.Keys
    ensures forall c :: c in r.cards ==> r.cards[c] == s.cards[c].(labels := s.cards[c].labels - {id})
    ensures r.(labels := s.labels, cards := s.cards) == s
  {
    s.(labels := s.labels - {id},
       cards := map c | c in s.cards :: s.cards[c].(labels := s.cards[c].labels - {id}))
  }

  function SetMember(s: State, b: BoardId, u: UserId, role: Role): State {
    s.(members := s.members[(b, u) := role])
  }

  function RemoveMember(s: State, b: BoardId, u: UserId): State {
    s.(members := s.members - {(b, u)})
  }

  /** add_board_member's change: a row for the pair only when it has none yet. */
  function AddMember(s: State, b: BoardId, u: UserId, role: Role): State {
    if (b, u) in s.members then s else SetMember(s, b, u, role)
  }

  /**
   * After adding, the pair has a row, holding the role it already had if
   * any and the requested one otherwise; no other pair and no other table
   * is touched.
   */
  lemma AddMemberEffect(s: State, b: BoardId, u: UserId, role: Role)
    ensures (b, u) in AddMember(s, b, u, role).members
    ensures AddMember(s, b, u, role).members[(b, u)] == if (b, u) in s.members then s.members[(b, u)] else role
    ensures forall k :: k != (b, u) ==> (k in AddMember(s, b, u, role).members <==> k in s.members)
    ensures forall k :: k != (b, u) && k in s.members ==> AddMember(s, b, u, role).members[k] == s.members[k]
    ensures AddMember(s, b, u, role).(members := s.members) == s
  {
  }

  /** Adding the same user twice, whatever roles are sent, is adding them once. */
  lemma AddMemberIdempotent(s: State, b: BoardId, u: UserId, r1: Role, r2: Role)
    ensures AddMember(AddMember(s, b, u, r1), b, u, r2) == AddMember(s, b, u, r1)
  {
  }

  /** Removing deletes that one pair's row and nothing else. */
  lemma RemoveMemberEffect(s: State, b: BoardId, u: UserId)
    ensures forall k :: k in RemoveMember(s, b, u).members <==> k in s.members && k != (b, u)
    ensures forall k :: k in RemoveMember(s, b, u).members ==> RemoveMember(s, b, u).members[k] == s.members[k]
    ensures RemoveMember(s, b, u).(members := s.members) == s
  {
  }

  /** Removing a user who was just added as a newcomer restores the tables. */
  lemma {:induction false} RemoveUndoesAdd(s: State, b: BoardId, u: UserId, role: Role)
    requires (b, u) !in s.members
    ensures RemoveMember(AddMember(s, b, u, role), b, u) == s
  {
    assert RemoveMember(AddMember(s, b, u, role), b, u).members == s.members;
  }

  lemma LoggedKeepsValid(s: State, e: Activity)
    requires ValidState(s) && e.boardId in s.boards
    ensures ValidState(Logged(s, e))
  {
    var t := Logged(s, e);
    forall x | x in t.activity
      ensures x.boardId in t.boards
    {
      if x != e {
        assert x in s.activity;
      }
    }
  }

  lemma SetBoardKeepsValid(s: State, id: BoardId, b: Board)
    requires ValidState(s) && id in s.boards
    ensures ValidState(SetBoard(s, id, b))
  {
  }

  lemma InsertListKeepsValid(s: State, l: BoardList)
    requires ValidState(s) && l.boardId in s.boards
    ensures ValidState(InsertList(s, l))
  {
    var t := InsertList(s, l);
    assert forall c :: c in s.cards ==> t.lists[s.cards[c].listId] == s.lists[s.cards[c].listId];
  }

  lemma SetListKeepsValid(s: State, id: ListId, l: BoardList)
    requires ValidState(s) && id in s.lists && l.boardId == s.lists[id].boardId
    ensures ValidState(SetList(s, id, l))
  {
  }

  lemma InsertCardKeepsValid(s: State, c: Card)
    requires ValidState(s) && c.listId in s.lists && c.labels == {}
    ensures ValidState(InsertCard(s, c))
  {
  }

  /** A card may be rewritten freely as long as it stays on its board and keeps to that board's labels. */
  lemma SetCardKeepsValid(s: State, id: CardId, c: Card)
    requires ValidState(s) && id in s.cards
    requires c.listId in s.lists && s.lists[c.listId].boardId == BoardOfCard(s, id)
    requires LabelsOnBoard(s.labels, c.labels, BoardOfCard(s, id))
    ensures ValidState(SetCard(s, id, c))
  {
  }

  lemma InsertCommentKeepsValid(s: State, c: Comment)
    requires ValidState(s) && c.cardId in s.cards
    ensures ValidState(InsertComment(s, c))
  {
  }

  lemma RemoveCommentKeepsValid(s: State, id: CommentId)
    requires ValidState(s)
    ensures ValidState(RemoveComment(s, id))
  {
  }

  lemma InsertChecklistKeepsValid(s: State, c: Checklist)
    requires ValidState(s) && c.cardId in s.cards
    ensures ValidState(InsertChecklist(s, c))
  {
  }

  lemma RemoveChecklistKeepsValid(s: State, id: ChecklistId)
    requires ValidState(s)
    ensures ValidState(RemoveChecklist(s, id))
  {
  }

  lemma InsertItemKeepsValid(s: State, item: ChecklistItem)
    requires ValidState(s) && item.checklistId in s.checklists && CompletionConsistent(item)
    ensures ValidState(InsertItem(s, item))
  {
  }

  lemma SetItemKeepsValid(s: State, id: ItemId, item: ChecklistItem)
    requires ValidState(s) && id in s.items
    requires item.checklistId == s.items[id].checklistId && CompletionConsistent(item)
    ensures ValidState(SetItem(s, id, item))
  {
  }

  lemma InsertLabelKeepsValid(s: State, l: Label)
    requires ValidState(s) && l.boardId in s.boards
    ensures ValidState(InsertLabel(s, l))
  {
    var t := InsertLabel(s, l);
    assert forall k :: k in s.labels ==> t.labels[k] == s.labels[k];
  }

  lemma SetLabelKeepsValid(s: State, id: LabelId, l: Label)
    requires ValidState(s) && id in s.labels && l.boardId == s.labels[id].boardId
    ensures ValidState(SetLabel(s, id, l))
  {
  }

  lemma RemoveLabelKeepsValid(s: State, id: LabelId)
    requires ValidState(s)
    ensures ValidState(RemoveLabel(s, id))
  {
  }

  lemma SetMemberKeepsValid(s: State, b: BoardId, u: UserId, role: Role)
    requires ValidState(s) && b in s.boards
    ensures ValidState(SetMember(s, b, u, role))
  {
  }

  lemma RemoveMemberKeepsValid(s: State, b: BoardId, u: UserId)
    requires ValidState(s)
    ensures ValidState(RemoveMember(s, b, u))
  {
  }
}
