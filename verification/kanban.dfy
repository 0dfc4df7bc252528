/** The Kanban board of src/components/kanban-board.tsx: the working set of application
    cards, the drag gestures that move a card to another status column with an
    optimistic update, the status update sent to the store, and the rollback to the
    list the board was mounted with when that update fails. The clock and the store's
    answer are parameters. */
module Kanban {
  import opened Types
  import opened Constants
  import opened Census

  /** No two cards share an id (the store's primary key). */
  predicate UniqueIds(apps: seq<Application>) {
    forall i, j :: 0 <= i < j < |apps| ==> apps[i].id != apps[j].id
  }

  /** The position of the first card with `id`. */
  function FirstIndex(apps: seq<Application>, id: string): (r: Option<nat>)
    ensures r.Some? ==> r.value < |apps| && apps[r.value].id == id
    ensures r.Some? ==> forall j :: 0 <= j < r.value ==> apps[j].id != id
    ensures r.None? ==> forall j :: 0 <= j < |apps| ==> apps[j].id != id
  {
    if |apps| == 0 then None
    else if apps[0].id == id then Some(0)
    else match FirstIndex(apps[1..], id)
      case Some(k) => Some(k + 1)
      case None => None
  }

  /** `apps.find((a) => a.id === id)` */
  function Find(apps: seq<Application>, id: string): (r: Option<Application>)
    ensures r.Some? <==> exists i :: 0 <= i < |apps| && apps[i].id == id
    ensures r.Some? ==> r.value.id == id && r.value in apps
  {
    match FirstIndex(apps, id)
    case Some(i) => Some(apps[i])
    case None => None
  }

  /** The `applied_at` a card gets when it moves to `newStatus` at time `now`: the
      first move away from `todo` stamps it, anything else keeps the old value. */
  function StampAppliedAt(newStatus: string, appliedAt: Option<string>, now: string): Option<string> {
    if newStatus != Key(Todo) && !Truthy(appliedAt) then Some(now) else appliedAt
  }

  /** The board's state: the list it was mounted with (`initialApps`), the working set
      shown in the columns, and the card under the drag overlay. */
  datatype Board = Board(initial: seq<Application>, working: seq<Application>, dragging: Option<Application>)

  /** The board right after mounting with `apps`. */
  function Mount(apps: seq<Application>): (b: Board)
    ensures b.initial == apps && b.working == apps && b.dragging.None?
  {
    Board(apps, apps, None)
  }

  /** `handleDragStart`: the overlay shows the dragged card, or nothing when its id is unknown. */
  function DragStart(b: Board, activeId: string): (r: Board)
    ensures r.initial == b.initial && r.working == b.working
    ensures r.dragging.Some? <==> exists i :: 0 <= i < |b.working| && b.working[i].id == activeId
    ensures r.dragging.Some? ==> r.dragging.value in b.working && r.dragging.value.id == activeId
  {
    b.(dragging := Find(b.working, activeId))
  }

  /** The status a drop over `overId` asks for: a column id names its own status,
      a card id names that card's status, anything else names none. */
  function ResolveDestination(apps: seq<Application>, overId: string): (r: Option<string>)
    ensures overId in KanbanColumns ==> r == Some(overId)
    ensures overId !in KanbanColumns ==>
      (r.Some? <==> exists i :: 0 <= i < |apps| && apps[i].id == overId)
    ensures overId !in KanbanColumns && r.Some? ==>
      exists i :: 0 <= i < |apps| && apps[i].id == overId && apps[i].status == r.value
  {
    if overId in KanbanColumns then Some(overId)
    else match Find(apps, overId)
      case Some(a) => Some(a.status)
      case None => None
  }

  /** A status change the drop asks for: the dragged card as it was, and its new status. */
  datatype Move = Move(card: Application, destination: string)

  /** The guards of `handleDragEnd`: a drop target, a known dragged card, and a
      destination that is non-empty and differs from the card's status. */
  function PlanMove(apps: seq<Application>, activeId: string, overId: Option<string>): (r: Option<Move>)
    ensures r.Some? ==> overId.Some? && Find(apps, activeId) == Some(r.value.card)
    ensures r.Some? ==> ResolveDestination(apps, overId.value) == Some(r.value.destination)
    ensures r.Some? ==> r.value.destination != "" && r.value.destination != r.value.card.status
    ensures r.None? ==>
      || overId.None?
      || Find(apps, activeId).None?
      || !Truthy(ResolveDestination(apps, overId.value))
      || ResolveDestination(apps, overId.value) == Some(Find(apps, activeId).value.status)
  {
    if overId.None? then None
    else match Find(apps, activeId)
      case None => None
      case Some(card) =>
        match ResolveDestination(apps, overId.value)
        case None => None
        case Some(d) => if d == "" || card.status == d then None else Some(Move(card, d))
  }

  /** The optimistic update: every card with `activeId` takes the new status and a
      stamped `applied_at`; every other card is kept as it is, in place. */
  function MoveCard(apps: seq<Application>, activeId: string, dest: string, now: string): (r: seq<Application>)
    ensures |r| == |apps|
    ensures forall i :: 0 <= i < |apps| && apps[i].id != activeId ==> r[i] == apps[i]
    ensures forall i :: 0 <= i < |apps| && apps[i].id == activeId ==>
      r[i] == apps[i].(status := dest, appliedAt := StampAppliedAt(dest, apps[i].appliedAt, now))
  {
    if |apps| == 0 then []
    else
      var a := apps[0];
      var moved := if a.id == activeId then a.(status := dest, appliedAt := StampAppliedAt(dest, a.appliedAt, now)) else a;
      [moved] + MoveCard(apps[1..], activeId, dest, now)
  }

  /** The fields sent to the store for one application. */
  datatype StatusUpdate = StatusUpdate(id: string, status: string, appliedAt: Option<string>)

  /** One drag end: the board shown while the update is in flight, the update sent
      (none when the drop aborts), and the board once the store has answered. */
  datatype DragResult = DragResult(shown: Board, sent: Option<StatusUpdate>, settled: Board)

  /** `handleDragEnd`. The source reads the clock twice, once for the optimistic card
      (`optimisticNow`) and once for the stored row (`persistNow`); `persistOk` is
      whether the store's update reported no error. */
  function DragEnd(b: Board, activeId: string, overId: Option<string>,
                   optimisticNow: string, persistNow: string, persistOk: bool): (r: DragResult)
    ensures r.shown.initial == b.initial && r.settled.initial == b.initial
    ensures r.shown.dragging.None? && r.settled.dragging.None?
    ensures r.sent.None? <==> PlanMove(b.working, activeId, overId).None?
    ensures r.sent.None? ==> r.shown.working == b.working && r.settled.working == b.working
    ensures r.sent.Some? ==> r.sent.value.id == activeId && |r.shown.working| == |b.working|
    ensures r.sent.Some? ==>
      && overId.Some? && Find(b.working, activeId).Some?
      && Some(r.sent.value.status) == ResolveDestination(b.working, overId.value)
      && r.sent.value.appliedAt == StampAppliedAt(r.sent.value.status, Find(b.working, activeId).value.appliedAt, persistNow)
      && r.shown.working == MoveCard(b.working, activeId, r.sent.value.status, optimisticNow)
    ensures r.sent.Some? && persistOk ==> r.settled.working == r.shown.working
    ensures r.sent.Some? && !persistOk ==> r.settled.working == b.initial
  {
    var cleared := b.(dragging := None);
    match PlanMove(b.working, activeId, overId)
    case None => DragResult(cleared, None, cleared)
    case Some(m) =>
      var shown := cleared.(working := MoveCard(b.working, activeId, m.destination, optimisticNow));
      var update := StatusUpdate(activeId, m.destination, StampAppliedAt(m.destination, m.card.appliedAt, persistNow));
      var settled := if persistOk then shown else shown.(working := b.initial);
      DragResult(shown, Some(update), settled)
  }

  /** A drop outside any target changes nothing and sends nothing. */
  lemma DropOutsideIsNoop(b: Board, activeId: string, t1: string, t2: string, ok: bool)
    ensures DragEnd(b, activeId, None, t1, t2, ok).sent.None?
    ensures DragEnd(b, activeId, None, t1, t2, ok).settled.working == b.working
  {
  }

  /** Dragging an id that is not in the working set changes nothing and sends nothing. */
  lemma UnknownCardIsNoop(b: Board, activeId: string, overId: Option<string>, t1: string, t2: string, ok: bool)
    requires forall i :: 0 <= i < |b.working| ==> b.working[i].id != activeId
    ensures DragEnd(b, activeId, overId, t1, t2, ok).sent.None?
    ensures DragEnd(b, activeId, overId, t1, t2, ok).settled.working == b.working
  {
  }

  /** Dropping a card on its own column, or on a card of its own column, aborts:
      reordering within a column is never sent to the store. */
  lemma SameColumnDropIsNoop(b: Board, activeId: string, overId: string, t1: string, t2: string, ok: bool)
    requires Find(b.working, activeId).Some?
    requires ResolveDestination(b.working, overId) == Some(Find(b.working, activeId).value.status)
    ensures DragEnd(b, activeId, Some(overId), t1, t2, ok).sent.None?
    ensures DragEnd(b, activeId, Some(overId), t1, t2, ok).settled.working == b.working
  {
  }

  /** A drop over a card whose stored status is `""` resolves to a falsy destination
      and aborts as if no destination resolved. */
  lemma EmptyStatusTargetIsNoop(b: Board, activeId: string, overId: string, t1: string, t2: string, ok: bool)
    requires overId !in KanbanColumns
    requires Find(b.working, overId).Some? && Find(b.working, overId).value.status == ""
    ensures DragEnd(b, activeId, Some(overId), t1, t2, ok).sent.None?
  {
  }

  /** With unique ids, a drag that is sent changes exactly one card of the working set:
      the dragged card, which takes the destination status and the stamped `applied_at`
      and keeps every other field; the length and order of the set are unchanged. */
  lemma {:induction false} OptimisticUpdateChangesOneCard(b: Board, activeId: string, overId: Option<string>,
                                                          t1: string, t2: string, ok: bool)
    requires UniqueIds(b.working)
    requires DragEnd(b, activeId, overId, t1, t2, ok).sent.Some?
    ensures var r := DragEnd(b, activeId, overId, t1, t2, ok);
      exists i :: 0 <= i < |b.working|
        && b.working[i].id == activeId
        && r.shown.working[i] != b.working[i]
        && r.shown.working[i] == b.working[i].(status := r.sent.value.status,
                                                appliedAt := StampAppliedAt(r.sent.value.status, b.working[i].appliedAt, t1))
        && (forall j :: 0 <= j < |b.working| && j != i ==> r.shown.working[j] == b.working[j])
  {
    var r := DragEnd(b, activeId, overId, t1, t2, ok);
    var m := PlanMove(b.working, activeId, overId).value;
    var i := FirstIndex(b.working, activeId).value;
    assert m.card == b.working[i];
    forall j | 0 <= j < |b.working| && j != i ensures r.shown.working[j] == b.working[j] {
      assert b.working[j].id != activeId;
    }
    assert r.shown.working[i].status != b.working[i].status;
  }

  /** The rule for `applied_at` on the moved card: it becomes the drop time exactly when
      the destination is not `todo` and the card had no `applied_at`; otherwise it is
      kept, so it is never cleared, not even by a move back to `todo`. */
  lemma AppliedAtRule(b: Board, activeId: string, overId: Option<string>, t1: string, t2: string, ok: bool, i: nat)
    requires i < |b.working| && b.working[i].id == activeId
    requires DragEnd(b, activeId, overId, t1, t2, ok).sent.Some?
    ensures var r := DragEnd(b, activeId, overId, t1, t2, ok);
      var before := b.working[i].appliedAt;
      var after := r.shown.working[i].appliedAt;
      && (r.sent.value.status != "todo" && !Truthy(before) ==> after == Some(t1))
      && (r.sent.value.status == "todo" || Truthy(before) ==> after == before)
      && (Truthy(before) ==> Truthy(after))
  {
  }

  /** A card moved todo → applied → todo → interview keeps the time of its first move
      away from `todo` throughout. */
  lemma AppliedAtSurvivesReturnToTodo(a0: Option<string>, t1: string, t2: string, t3: string)
    requires !Truthy(a0) && t1 != ""
    ensures var a1 := StampAppliedAt("applied", a0, t1);
      var a2 := StampAppliedAt("todo", a1, t2);
      var a3 := StampAppliedAt("interview", a2, t3);
      a1 == Some(t1) && a2 == a1 && a3 == a1
  {
  }

  /** The update sent to the store carries the optimistic card's status, and its
      `applied_at` follows the same rule from the card as it was before the drag; when
      both clock readings agree it equals the optimistic card's `applied_at`. */
  lemma PersistedUpdateMatchesOptimistic(b: Board, activeId: string, overId: Option<string>,
                                         t1: string, t2: string, ok: bool)
    requires DragEnd(b, activeId, overId, t1, t2, ok).sent.Some?
    ensures var r := DragEnd(b, activeId, overId, t1, t2, ok);
      var i := FirstIndex(b.working, activeId).value;
      && r.sent.value.status == r.shown.working[i].status
      && r.sent.value.appliedAt == StampAppliedAt(r.sent.value.status, b.working[i].appliedAt, t2)
      && (t1 == t2 ==> r.sent.value.appliedAt == r.shown.working[i].appliedAt)
  {
  }

  /** A failed update rolls the whole working set back to the list the board was mounted
      with, not to the state after the last successful drag: after one drag that the
      store accepts, a second drag that it rejects loses the first drag too. */
  lemma {:induction false} RollbackIsToMountList(apps: seq<Application>,
                                                 id1: string, over1: Option<string>,
                                                 id2: string, over2: Option<string>, t: string)
    requires DragEnd(Mount(apps), id1, over1, t, t, true).sent.Some?
    requires DragEnd(DragEnd(Mount(apps), id1, over1, t, t, true).settled, id2, over2, t, t, false).sent.Some?
    ensures var first := DragEnd(Mount(apps), id1, over1, t, t, true).settled;
      var second := DragEnd(first, id2, over2, t, t, false).settled;
      second.working == apps && second.initial == apps
  {
    var first := DragEnd(Mount(apps), id1, over1, t, t, true).settled;
    assert first.initial == apps;
  }

  /** `getApplicationsByStatus`: the cards of one column, in working-set order. */
  function ColumnView(apps: seq<Application>, k: string): (r: seq<Application>)
    ensures |r| == CountStatus(apps, k)
    ensures forall a :: a in r ==> a.status == k && a in apps
    ensures forall a :: a in apps && a.status == k ==> a in r
  {
    if |apps| == 0 then []
    else (if apps[0].status == k then [apps[0]] else []) + ColumnView(apps[1..], k)
  }

  /** A column of a concatenation is the concatenation of the columns: every column
      keeps the working-set order of its cards. */
  lemma {:induction false} ColumnViewKeepsOrder(a: seq<Application>, b: seq<Application>, k: string)
    ensures ColumnView(a + b, k) == ColumnView(a, k) + ColumnView(b, k)
    decreases |a|
  {
    if |a| == 0 {
      assert a + b == b;
    } else {
      assert (a + b)[1..] == a[1..] + b;
      ColumnViewKeepsOrder(a[1..], b, k);
    }
  }

  /** The six columns, in KANBAN_COLUMNS order. */
  function Columns(apps: seq<Application>): (r: seq<seq<Application>>)
    ensures |r| == |KanbanColumns|
  {
    seq(|KanbanColumns|, i requires 0 <= i < |KanbanColumns| => ColumnView(apps, KanbanColumns[i]))
  }

  /** The total size of a list of columns. */
  function TotalSize(cols: seq<seq<Application>>): nat {
    if |cols| == 0 then 0 else |cols[0]| + TotalSize(cols[1..])
  }

  /** The columns partition the working set: a card with a valid status is in the
      column of its status and in no other, a card with any other status is in none,
      and the column sizes add up to the number of cards with a valid status. */
  lemma {:induction false} ColumnsPartition(apps: seq<Application>)
    ensures forall i, a :: 0 <= i < |KanbanColumns| && a in apps ==>
      (a in Columns(apps)[i] <==> a.status == KanbanColumns[i])
    ensures forall a :: a in apps && !ValidStatus(a.status) ==>
      forall i :: 0 <= i < |KanbanColumns| ==> a !in Columns(apps)[i]
    ensures TotalSize(Columns(apps)) == CountValid(apps)
  {
    KanbanColumnsAreTheStatusKeys();
    var cols := Columns(apps);
    StatusCountsSumToValid(apps);
    var s := StatusOrder;
    assert TotalSize(cols[6..]) == SumCounts(apps, s[6..]);
    assert TotalSize(cols[5..]) == SumCounts(apps, s[5..]) by { assert cols[5..][1..] == cols[6..]; assert s[5..][1..] == s[6..]; }
    assert TotalSize(cols[4..]) == SumCounts(apps, s[4..]) by { assert cols[4..][1..] == cols[5..]; assert s[4..][1..] == s[5..]; }
    assert TotalSize(cols[3..]) == SumCounts(apps, s[3..]) by { assert cols[3..][1..] == cols[4..]; assert s[3..][1..] == s[4..]; }
    assert TotalSize(cols[2..]) == SumCounts(apps, s[2..]) by { assert cols[2..][1..] == cols[3..]; assert s[2..][1..] == s[3..]; }
    assert TotalSize(cols[1..]) == SumCounts(apps, s[1..]) by { assert cols[1..][1..] == cols[2..]; assert s[1..][1..] == s[2..]; }
    assert TotalSize(cols) == SumCounts(apps, s) by { assert cols[1..] == cols[1..]; }
  }

  /** Dropping a card on another status column moves it there: the update sent names
      that column's status, and in the board shown meanwhile the card is in that
      column and no longer in the column it left. */
  lemma DroppedCardLandsInTargetColumn(b: Board, activeId: string, column: string,
                                       t1: string, t2: string, ok: bool)
    requires column in KanbanColumns
    requires Find(b.working, activeId).Some? && Find(b.working, activeId).value.status != column
    ensures var r := DragEnd(b, activeId, Some(column), t1, t2, ok);
      var from := Find(b.working, activeId).value.status;
      && r.sent.Some? && r.sent.value.status == column
      && (exists a :: a in ColumnView(r.shown.working, column) && a.id == activeId)
      && (forall a :: a in ColumnView(r.shown.working, from) ==> a.id != activeId)
  {
    var r := DragEnd(b, activeId, Some(column), t1, t2, ok);
    var i := FirstIndex(b.working, activeId).value;
    assert r.shown.working[i] in r.shown.working;
  }
}
