/**
 * The nodes table: a primary key on the content id and a unique index on the logical slot.
 * One insertion rule, `Store`, is all that any log implementation does to the table.
 */
module LogTable {
  import opened Base
  import opened SlotMap
  import opened Text
  import opened Nodes

  datatype Row = Row(id: string, node: Node)

  /** The indexed slot. The index reads a missing step as -1. */
  datatype LogSlot = LogSlot(tenant: string, trajectory: string, step: int, pos: int, kind: string)

  function StepOr(step: Option<int>): int {
    if step.None? then -1 else step.value
  }

  function SlotOf(n: Node): LogSlot {
    LogSlot(n.tenant, n.trajectory, StepOr(n.step), n.pos, n.kind)
  }

  function RowOf(c: Codec, n: Node): (r: Row)
    ensures r.node == n && r.id != ""
  {
    Row(NodeId(c, n), n)
  }

  predicate HasId(rows: seq<Row>, id: string) {
    exists i | 0 <= i < |rows| :: rows[i].id == id
  }

  predicate HasSlot(rows: seq<Row>, s: LogSlot) {
    exists i | 0 <= i < |rows| :: SlotOf(rows[i].node) == s
  }

  predicate Free(rows: seq<Row>, r: Row) {
    !HasId(rows, r.id) && !HasSlot(rows, SlotOf(r.node))
  }

  /** What an insertion leaves: the row is added unless it would break a unique index. */
  function Store(rows: seq<Row>, r: Row): (rows': seq<Row>) {
    if Free(rows, r) then rows + [r] else rows
  }

  /** The id at a slot, or "" when no row has that slot. */
  function Owner(rows: seq<Row>, s: LogSlot): (id: string)
    ensures !HasSlot(rows, s) ==> id == ""
    ensures HasSlot(rows, s) ==> exists i :: 0 <= i < |rows| && SlotOf(rows[i].node) == s && rows[i].id == id
  {
    if rows == [] then ""
    else if SlotOf(rows[0].node) == s then rows[0].id
    else
      var id := Owner(rows[1..], s);
      assert HasSlot(rows, s) ==> HasSlot(rows[1..], s);
      assert forall i | 0 <= i < |rows[1..]| :: rows[1..][i] == rows[i + 1];
      id
  }

  /** Whether an append of this row is accepted: its slot is empty or already holds its id. */
  predicate Admits(rows: seq<Row>, r: Row) {
    Owner(rows, SlotOf(r.node)) == "" || Owner(rows, SlotOf(r.node)) == r.id
  }

  // ---- Tables that logs build

  predicate RowOk(c: Codec, r: Row) {
    ValidNode(r.node) && r.id == NodeId(c, r.node)
  }

  ghost predicate TableOk(c: Codec, rows: seq<Row>) {
    && (forall i | 0 <= i < |rows| :: RowOk(c, rows[i]))
    && (forall i, j | 0 <= i < j < |rows| :: rows[i].id != rows[j].id)
    && (forall i, j | 0 <= i < j < |rows| :: SlotOf(rows[i].node) != SlotOf(rows[j].node))
  }

  /** The abstract slot map: which id each slot holds. */
  ghost function Abs(rows: seq<Row>): map<LogSlot, string> {
    map s | HasSlot(rows, s) && s in (set i | 0 <= i < |rows| :: SlotOf(rows[i].node)) :: Owner(rows, s)
  }

  lemma StoreKeepsTable(c: Codec, rows: seq<Row>, n: Node)
    requires TableOk(c, rows) && ValidNode(n)
    ensures TableOk(c, Store(rows, RowOf(c, n)))
  {
    hide ValidNode, NodeId;
  }

  lemma OwnerIs(c: Codec, rows: seq<Row>, i: nat)
    requires TableOk(c, rows) && i < |rows|
    ensures Owner(rows, SlotOf(rows[i].node)) == rows[i].id
  {
    var s := SlotOf(rows[i].node);
    assert HasSlot(rows, s);
  }

  lemma AbsAt(rows: seq<Row>, s: LogSlot)
    ensures s in Abs(rows) <==> HasSlot(rows, s)
    ensures s in Abs(rows) ==> Abs(rows)[s] == Owner(rows, s)
  {}

  lemma {:induction false} OwnerOfStored(rows: seq<Row>, r: Row, s: LogSlot)
    ensures HasSlot(rows + [r], s) <==> HasSlot(rows, s) || SlotOf(r.node) == s
    ensures HasSlot(rows, s) ==> Owner(rows + [r], s) == Owner(rows, s)
    ensures !HasSlot(rows, s) && SlotOf(r.node) == s ==> Owner(rows + [r], s) == r.id
  {
    var all := rows + [r];
    assert all[|rows|] == r && forall i | 0 <= i < |rows| :: all[i] == rows[i];
    if rows != [] {
      assert all[1..] == rows[1..] + [r];
      OwnerOfStored(rows[1..], r, s);
      assert HasSlot(rows, s) <==> SlotOf(rows[0].node) == s || HasSlot(rows[1..], s) by {
        assert forall i | 0 <= i < |rows[1..]| :: rows[1..][i] == rows[i + 1];
        assert forall i | 1 <= i < |rows| :: rows[1..][i - 1] == rows[i];
      }
    }
  }

  /** The row's id sits at some other slot, and its own slot is empty: the insertion is lost. */
  predicate Lost(rows: seq<Row>, r: Row) {
    HasId(rows, r.id) && !HasSlot(rows, SlotOf(r.node))
  }

  ghost predicate Collides(c: Codec, m: Node, n: Node) {
    || Collision(c.sha, NodePreimage(c, m), NodePreimage(c, n))
    || Collision(c.sha, c.canon(m.payload), c.canon(n.payload))
  }

  /** A lost insertion exhibits a SHA-256 collision with a stored node. */
  lemma LostNeedsCollision(c: Codec, rows: seq<Row>, n: Node)
    requires TableOk(c, rows) && ValidNode(n) && Lost(rows, RowOf(c, n))
    ensures exists i | 0 <= i < |rows| :: Collides(c, rows[i].node, n)
  {
    var i :| 0 <= i < |rows| && rows[i].id == NodeId(c, n);
    assert RowOk(c, rows[i]);
    NodeIdCommits(c, rows[i].node, n);
    assert SlotOf(rows[i].node) != SlotOf(n);
  }

  lemma StoreFree(rows: seq<Row>, r: Row)
    requires Free(rows, r)
    ensures Abs(rows + [r]) == Abs(rows)[SlotOf(r.node) := r.id]
  {
    hide HasSlot, HasId, Owner, Abs;
    var s := SlotOf(r.node);
    forall t ensures t in Abs(rows + [r]) <==> t in Abs(rows)[s := r.id]
             ensures t in Abs(rows + [r]) ==> Abs(rows + [r])[t] == Abs(rows)[s := r.id][t] {
      OwnerOfStored(rows, r, t);
      AbsAt(rows, t);
      AbsAt(rows + [r], t);
    }
  }

  lemma OwnerNotEmpty(c: Codec, rows: seq<Row>, s: LogSlot)
    requires TableOk(c, rows) && HasSlot(rows, s)
    ensures Owner(rows, s) != ""
  {
    hide ValidNode;
    var i :| 0 <= i < |rows| && SlotOf(rows[i].node) == s && rows[i].id == Owner(rows, s);
    assert RowOk(c, rows[i]);
  }

  lemma AdmitsIsAccepts(c: Codec, rows: seq<Row>, n: Node)
    requires TableOk(c, rows)
    ensures Admits(rows, RowOf(c, n)) <==> Accepts(Abs(rows), SlotOf(n), RowOf(c, n).id)
  {
    hide HasSlot, TableOk, Abs;
    AbsAt(rows, SlotOf(n));
    if HasSlot(rows, SlotOf(n)) {
      OwnerNotEmpty(c, rows, SlotOf(n));
    }
  }

  /**
   * The table refines the slot map. An append is accepted exactly when the map accepts the id,
   * and the stored table is then the map's `Put`; the one exception is a lost insertion.
   */
  lemma StoreRefinesPut(c: Codec, rows: seq<Row>, n: Node)
    requires TableOk(c, rows)
    ensures var r := RowOf(c, n);
      && (Admits(rows, r) <==> Accepts(Abs(rows), SlotOf(n), r.id))
      && (Abs(Store(rows, r)) == Put(Abs(rows), SlotOf(n), r.id) <==> !Lost(rows, r))
  {
    hide HasSlot, HasId, Owner, Abs, TableOk, Admits;
    var r := RowOf(c, n);
    AdmitsIsAccepts(c, rows, n);
    AbsAt(rows, SlotOf(n));
    if Free(rows, r) {
      StoreFree(rows, r);
    }
  }

  /** What a refused append means for the nodes, ids aside. */
  lemma AdmitsMeaning(c: Codec, rows: seq<Row>, n: Node)
    requires TableOk(c, rows) && ValidNode(n)
    requires forall i | 0 <= i < |rows| :: !Collides(c, rows[i].node, n)
    ensures Admits(rows, RowOf(c, n)) <==>
            forall i | 0 <= i < |rows| :: SlotOf(rows[i].node) == SlotOf(n) ==> SameIdentity(c, rows[i].node, n)
  {
    forall i | 0 <= i < |rows| && SlotOf(rows[i].node) == SlotOf(n)
      ensures Admits(rows, RowOf(c, n)) <==> SameIdentity(c, rows[i].node, n)
    {
      OwnerIs(c, rows, i);
      assert RowOk(c, rows[i]);
      if rows[i].id == NodeId(c, n) {
        NodeIdCommits(c, rows[i].node, n);
      }
    }
    if !HasSlot(rows, SlotOf(n)) {
      assert Owner(rows, SlotOf(n)) == "";
    }
  }

  // ---- Whole runs

  /** The table after any sequence of appends and claims; invalid nodes never reach it. */
  function StoreAll(c: Codec, rows: seq<Row>, ns: seq<Node>): seq<Row>
    decreases |ns|
  {
    if ns == [] then rows
    else StoreAll(c, if ValidNode(ns[0]) then Store(rows, RowOf(c, ns[0])) else rows, ns[1..])
  }

  /** Rows are never removed, changed or reordered, and both indexes stay unique. */
  lemma {:induction false} RunsOnlyAppend(c: Codec, rows: seq<Row>, ns: seq<Node>)
    requires TableOk(c, rows)
    ensures TableOk(c, StoreAll(c, rows, ns))
    ensures rows <= StoreAll(c, rows, ns)
    ensures Extends(Abs(rows), Abs(StoreAll(c, rows, ns)))
    decreases |ns|
  {
    if ns != [] {
      var next := if ValidNode(ns[0]) then Store(rows, RowOf(c, ns[0])) else rows;
      if ValidNode(ns[0]) {
        StoreKeepsTable(c, rows, ns[0]);
      }
      RunsOnlyAppend(c, next, ns[1..]);
      forall s | s in Abs(rows) ensures s in Abs(next) && Abs(next)[s] == Abs(rows)[s] {
        AbsAt(rows, s);
        AbsAt(next, s);
        if next != rows {
          OwnerOfStored(rows, RowOf(c, ns[0]), s);
        }
      }
    }
  }

  /** Ids and slots are in bijection: every row is one slot and one id, and no two share either. */
  lemma {:induction false} IdsAndSlotsBijection(c: Codec, ns: seq<Node>)
    ensures var rows := StoreAll(c, [], ns);
      && (forall i | 0 <= i < |rows| :: SlotOf(rows[i].node) in Abs(rows) && Abs(rows)[SlotOf(rows[i].node)] == rows[i].id)
      && (forall s | s in Abs(rows) :: HasId(rows, Abs(rows)[s]))
      && (forall s, t | s in Abs(rows) && t in Abs(rows) && Abs(rows)[s] == Abs(rows)[t] :: s == t)
  {
    var rows := StoreAll(c, [], ns);
    RunsOnlyAppend(c, [], ns);
    forall i | 0 <= i < |rows| ensures SlotOf(rows[i].node) in Abs(rows) && Abs(rows)[SlotOf(rows[i].node)] == rows[i].id {
      OwnerIs(c, rows, i);
      AbsAt(rows, SlotOf(rows[i].node));
    }
    forall s | s in Abs(rows) ensures exists i :: 0 <= i < |rows| && SlotOf(rows[i].node) == s && rows[i].id == Abs(rows)[s] {
      AbsAt(rows, s);
    }
  }

  // ---- Listing

  /** The ORDER BY of a listing. Rows with equal keys may come in any order. */
  predicate Before(m: Node, n: Node) {
    StepOr(m.step) < StepOr(n.step) || (StepOr(m.step) == StepOr(n.step) && m.pos <= n.pos)
  }
}
