/** Importing a loaded package into a log, and the whole way from one log to another. */
module Importing {
  import opened Base
  import opened Nodes
  import opened Sorting
  import opened Lists
  import opened LogTable
  import opened Package
  import opened PackageLaws
  import SqlLog
  import RoundTrip
  import Signing

  datatype ImportError = BadRecord | BadNode | IdMismatch | Conflict

  datatype Imported = Imported(error: Option<ImportError>, rows: seq<Row>)

  /** Records go in one by one; the first that is refused ends the import, and what went in stays. */
  function ImportFrom(c: Codec, rows: seq<Row>, recs: seq<Object>): Imported
    decreases |recs|
  {
    if recs == [] then Imported(None, rows)
    else
      match DecodeNode(recs[0])
      case None => Imported(Some(BadRecord), rows)
      case Some(n) =>
        if !ValidNode(n) then Imported(Some(BadNode), rows)
        else if NodeId(c, n) != IdOf(recs[0]) then Imported(Some(IdMismatch), rows)
        else if !Admits(rows, RowOf(c, n)) then Imported(Some(Conflict), rows)
        else ImportFrom(c, Store(rows, RowOf(c, n)), recs[1..])
  }

  lemma RefusedStoresNothing(rows: seq<Row>, r: Row)
    requires !Admits(rows, r)
    ensures Store(rows, r) == rows
  {}

  lemma ImportStep(c: Codec, rows: seq<Row>, recs: seq<Object>, i: nat)
    requires i < |recs|
    ensures ImportFrom(c, rows, recs[i..]) ==
      match DecodeNode(recs[i])
      case None => Imported(Some(BadRecord), rows)
      case Some(n) =>
        if !ValidNode(n) then Imported(Some(BadNode), rows)
        else if NodeId(c, n) != IdOf(recs[i]) then Imported(Some(IdMismatch), rows)
        else if !Admits(rows, RowOf(c, n)) then Imported(Some(Conflict), rows)
        else ImportFrom(c, Store(rows, RowOf(c, n)), recs[i + 1..])
  {
    hide ValidNode, NodeId, DecodeNode, Admits, Store;
    assert recs[i..][0] == recs[i] && recs[i..][1..] == recs[i + 1..];
  }

  method Import(log: SqlLog.SqliteLog, recs: seq<Object>) returns (error: Option<ImportError>)
    requires log.db.Ready() && TableOk(log.c, log.db.committed)
    modifies log.db
    ensures Imported(error, log.db.committed) == ImportFrom(log.c, old(log.db.committed), recs)
    ensures log.db.Ready() && TableOk(log.c, log.db.committed)
  {
    hide ValidNode, NodeId, DecodeNode, Admits, Store, TableOk, ImportFrom;
    assert recs[0..] == recs;
    for i := 0 to |recs|
      invariant log.db.Ready() && TableOk(log.c, log.db.committed)
      invariant ImportFrom(log.c, log.db.committed, recs[i..]) == ImportFrom(log.c, old(log.db.committed), recs)
    {
      ImportStep(log.c, log.db.committed, recs, i);
      var n := DecodeNode(recs[i]);
      if n.None? {
        return Some(BadRecord);
      }
      if !ValidNode(n.value) {
        return Some(BadNode);
      }
      if NodeId(log.c, n.value) != IdOf(recs[i]) {
        return Some(IdMismatch);
      }
      StoreKeepsTable(log.c, log.db.committed, n.value);
      if !Admits(log.db.committed, RowOf(log.c, n.value)) {
        RefusedStoresNothing(log.db.committed, RowOf(log.c, n.value));
      }
      var res := log.Append(n.value);
      if res == SqlLog.SlotConflict {
        return Some(Conflict);
      }
    }
    assert recs[|recs|..] == [];
    ImportNothing(log.c, log.db.committed);
    error := None;
  }

  lemma ImportNothing(c: Codec, rows: seq<Row>)
    ensures ImportFrom(c, rows, []) == Imported(None, rows)
  {}

  // ---- What an import of verified records does

  function NodesOf(c: Codec, recs: seq<Object>): (ns: seq<Node>)
    requires forall i | 0 <= i < |recs| :: Verified(c, recs[i])
    ensures |ns| == |recs| && forall i | 0 <= i < |ns| :: ns[i] == NodeOf(c, recs[i])
  {
    seq(|recs|, i requires 0 <= i < |recs| => NodeOf(c, recs[i]))
  }

  /** The node is refused by the log as it is when its turn comes. */
  ghost predicate Stops(c: Codec, rows: seq<Row>, ns: seq<Node>, i: nat)
    requires i < |ns|
  {
    ns[i].kind !in NODE_KINDS || !Admits(StoreAll(c, rows, ns[..i]), RowOf(c, ns[i]))
  }

  lemma VerifiedIsValid(c: Codec, rec: Object)
    requires Verified(c, rec)
    ensures ValidNode(NodeOf(c, rec)) <==> NodeOf(c, rec).kind in NODE_KINDS
    ensures NodeId(c, NodeOf(c, rec)) == IdOf(rec)
  {}

  lemma StoreAllCons(c: Codec, rows: seq<Row>, n: Node, ns: seq<Node>)
    requires ValidNode(n)
    ensures StoreAll(c, rows, [n] + ns) == StoreAll(c, Store(rows, RowOf(c, n)), ns)
  {
    hide ValidNode, Store;
    assert ([n] + ns)[1..] == ns;
  }

  lemma StoreNone(c: Codec, rows: seq<Row>)
    ensures StoreAll(c, rows, []) == rows
  {}

  /**
   * The result is the old log plus the nodes before the first slot conflict or unknown kind, and
   * the import succeeds exactly when there is none. `stop` is the number of nodes taken.
   */
  lemma {:induction false} ImportTakesPrefix(c: Codec, rows: seq<Row>, recs: seq<Object>) returns (stop: nat)
    requires AllVerified(c, recs)
    ensures stop <= |recs|
    ensures var ns := NodesOf(c, recs);
      && ImportFrom(c, rows, recs).rows == StoreAll(c, rows, ns[..stop])
      && (forall i | 0 <= i < stop :: !Stops(c, rows, ns, i))
      && (ImportFrom(c, rows, recs).error.None? <==> stop == |recs|)
      && (stop < |recs| ==> Stops(c, rows, ns, stop))
    decreases |recs|
  {
    hide Verified, ValidNode, NodeId, Admits, Store, StoreAll;
    var ns := NodesOf(c, recs);
    StoreNone(c, rows);
    if recs == [] {
      return 0;
    }
    assert ns[..0] == [];
    VerifiedIsValid(c, recs[0]);
    assert recs[0..] == recs;
    ImportStep(c, rows, recs, 0);
    if ns[0].kind !in NODE_KINDS || !Admits(rows, RowOf(c, ns[0])) {
      return 0;
    }
    var next := Store(rows, RowOf(c, ns[0]));
    var rest := ImportTakesPrefix(c, next, recs[1..]);
    assert ns[1..] == NodesOf(c, recs[1..]);
    forall i | 0 <= i <= |recs| - 1 ensures StoreAll(c, rows, ns[..i + 1]) == StoreAll(c, next, ns[1..][..i]) {
      assert ns[..i + 1] == [ns[0]] + ns[1..][..i];
      StoreAllCons(c, rows, ns[0], ns[1..][..i]);
    }
    forall i | 0 < i < |recs| ensures Stops(c, rows, ns, i) <==> Stops(c, next, ns[1..], i - 1) {}
    stop := rest + 1;
  }

  // ---- Importing again

  ghost predicate Has(c: Codec, rows: seq<Row>, n: Node) {
    exists i | 0 <= i < |rows| :: SlotOf(rows[i].node) == SlotOf(n) && rows[i].id == NodeId(c, n)
  }

  /** No imported node collides with a stored one. */
  ghost predicate Apart(c: Codec, rows: seq<Row>, ns: seq<Node>) {
    forall i, j | 0 <= i < |rows| && 0 <= j < |ns| :: !Collides(c, rows[i].node, ns[j])
  }

  lemma AcceptedIsStored(c: Codec, rows: seq<Row>, n: Node)
    requires TableOk(c, rows) && ValidNode(n) && Admits(rows, RowOf(c, n))
    requires forall i | 0 <= i < |rows| :: !Collides(c, rows[i].node, n)
    ensures Has(c, Store(rows, RowOf(c, n)), n)
  {
    hide ValidNode, NodeId;
    var r := RowOf(c, n);
    if Lost(rows, r) {
      LostNeedsCollision(c, rows, n);
    }
    if Free(rows, r) {
      assert (rows + [r])[|rows|] == r;
    } else {
      OwnerNotEmpty(c, rows, SlotOf(n));
    }
  }

  lemma HasGrows(c: Codec, rows: seq<Row>, rows': seq<Row>, n: Node)
    requires rows <= rows' && Has(c, rows, n)
    ensures Has(c, rows', n)
  {}

  lemma StoredAgain(c: Codec, rows: seq<Row>, n: Node)
    requires TableOk(c, rows) && Has(c, rows, n)
    ensures Admits(rows, RowOf(c, n)) && Store(rows, RowOf(c, n)) == rows
  {
    hide ValidNode, NodeId;
    var i :| 0 <= i < |rows| && SlotOf(rows[i].node) == SlotOf(n) && rows[i].id == NodeId(c, n);
    OwnerIs(c, rows, i);
  }

  lemma ImportGrows(c: Codec, rows: seq<Row>, recs: seq<Object>)
    requires AllVerified(c, recs) && TableOk(c, rows)
    ensures TableOk(c, ImportFrom(c, rows, recs).rows) && rows <= ImportFrom(c, rows, recs).rows
  {
    hide Verified, TableOk, ImportFrom, StoreAll;
    var stop := ImportTakesPrefix(c, rows, recs);
    RunsOnlyAppend(c, rows, NodesOf(c, recs)[..stop]);
  }

  lemma ImportHead(c: Codec, rows: seq<Row>, recs: seq<Object>)
    requires AllVerified(c, recs) && recs != [] && ImportFrom(c, rows, recs).error.None?
    ensures var n := NodeOf(c, recs[0]);
      && ValidNode(n) && Admits(rows, RowOf(c, n))
      && ImportFrom(c, rows, recs) == ImportFrom(c, Store(rows, RowOf(c, n)), recs[1..])
  {
    hide ValidNode, NodeId, Admits, Store;
    assert Verified(c, recs[0]);
  }

  lemma {:induction false} ImportedAreStored(c: Codec, rows: seq<Row>, recs: seq<Object>)
    requires AllVerified(c, recs) && TableOk(c, rows) && ImportFrom(c, rows, recs).error.None?
    requires Apart(c, ImportFrom(c, rows, recs).rows, NodesOf(c, recs))
    ensures forall i | 0 <= i < |recs| :: Has(c, ImportFrom(c, rows, recs).rows, NodesOf(c, recs)[i])
    decreases |recs|
  {
    hide Verified, ValidNode, NodeId, Admits, Store, TableOk, ImportFrom, Has, Collides;
    if recs != [] {
      var ns := NodesOf(c, recs);
      var next := Store(rows, RowOf(c, ns[0]));
      var after := ImportFrom(c, rows, recs).rows;
      ImportHead(c, rows, recs);
      StoreKeepsTable(c, rows, ns[0]);
      ImportGrows(c, rows, recs);
      ImportGrows(c, next, recs[1..]);
      forall i | 0 <= i < |rows| ensures !Collides(c, rows[i].node, ns[0]) {
        assert after[i] == rows[i];
      }
      AcceptedIsStored(c, rows, ns[0]);
      HasGrows(c, next, after, ns[0]);
      var tail := NodesOf(c, recs[1..]);
      assert forall i | 0 <= i < |tail| :: tail[i] == ns[i + 1];
      ImportedAreStored(c, next, recs[1..]);
      assert forall i | 1 <= i < |recs| :: ns[i] == tail[i - 1];
    }
  }

  lemma {:induction false} StoredImportsAgain(c: Codec, rows: seq<Row>, recs: seq<Object>)
    requires AllVerified(c, recs) && TableOk(c, rows)
    requires forall i | 0 <= i < |recs| :: NodeOf(c, recs[i]).kind in NODE_KINDS && Has(c, rows, NodeOf(c, recs[i]))
    ensures ImportFrom(c, rows, recs) == Imported(None, rows)
    decreases |recs|
  {
    hide Verified, ValidNode, NodeId, Admits, Store, TableOk, Has, ImportFrom;
    if recs == [] {
      ImportNothing(c, rows);
    } else {
      assert recs[0..] == recs;
      VerifiedIsValid(c, recs[0]);
      StoredAgain(c, rows, NodeOf(c, recs[0]));
      ImportStep(c, rows, recs, 0);
      assert forall i | 0 <= i < |recs[1..]| :: recs[1..][i] == recs[i + 1];
      StoredImportsAgain(c, rows, recs[1..]);
    }
  }

  /** A second import of a package that went in changes nothing, unless two nodes collide. */
  lemma ImportAgainChangesNothing(c: Codec, rows: seq<Row>, recs: seq<Object>)
    requires AllVerified(c, recs) && TableOk(c, rows) && ImportFrom(c, rows, recs).error.None?
    requires Apart(c, ImportFrom(c, rows, recs).rows, NodesOf(c, recs))
    ensures ImportFrom(c, ImportFrom(c, rows, recs).rows, recs) == ImportFrom(c, rows, recs)
  {
    hide Verified, ImportFrom, Apart, TableOk, Has;
    var after := ImportFrom(c, rows, recs).rows;
    ImportedAreStored(c, rows, recs);
    ImportGrows(c, rows, recs);
    var stop := ImportTakesPrefix(c, rows, recs);
    assert forall i | 0 <= i < |recs| :: NodesOf(c, recs)[i] == NodeOf(c, recs[i]);
    forall i | 0 <= i < |recs| ensures NodeOf(c, recs[i]).kind in NODE_KINDS {
      assert !Stops(c, rows, NodesOf(c, recs), i);
    }
    StoredImportsAgain(c, after, recs);
  }

  // ---- From one log to another

  predicate RowBefore(r: Row, s: Row) {
    Before(r.node, s.node)
  }

  function Filter(rows: seq<Row>, keep: Row -> bool): seq<Row> {
    if rows == [] then [] else (if keep(rows[0]) then [rows[0]] else []) + Filter(rows[1..], keep)
  }

  /** What a listing query may return: the kept rows, each once, ordered by step and seq. */
  ghost predicate IsListing(rows: seq<Row>, keep: Row -> bool, out: seq<Row>) {
    multiset(out) == multiset(Filter(rows, keep)) && Sorted(out, RowBefore)
  }

  function Records(c: Codec, rows: seq<Row>, ts: Row -> real): (recs: seq<Object>)
    ensures |recs| == |rows| && forall i | 0 <= i < |recs| :: recs[i] == RecordOf(c, rows[i].node, ts(rows[i]))
  {
    seq(|rows|, i requires 0 <= i < |rows| => RecordOf(c, rows[i].node, ts(rows[i])))
  }

  lemma {:induction false} FilterIsSubset(rows: seq<Row>, keep: Row -> bool)
    ensures multiset(Filter(rows, keep)) <= multiset(rows)
    ensures forall r | r in Filter(rows, keep) :: keep(r)
    ensures (forall r | r in rows :: keep(r)) ==> Filter(rows, keep) == rows
  {
    if rows != [] {
      FilterIsSubset(rows[1..], keep);
      assert rows == [rows[0]] + rows[1..];
    }
  }

  /** Rows of a table, taken in any order, are a table. */
  lemma PartOfTable(c: Codec, rows: seq<Row>, out: seq<Row>)
    requires TableOk(c, rows) && multiset(out) <= multiset(rows)
    ensures TableOk(c, out)
  {
    hide RowOk;
    TableIsNoDup(c, rows);
    forall x ensures multiset(out)[x] <= 1 {
      NoDupCount(rows, x);
    }
    CountNoDup(out);
    forall i | 0 <= i < |out| ensures exists k | 0 <= k < |rows| :: rows[k] == out[i] {
      assert out[i] in multiset(out);
      assert out[i] in multiset(rows);
    }
    forall i, j | 0 <= i < j < |out| ensures out[i].id != out[j].id && SlotOf(out[i].node) != SlotOf(out[j].node) {
      var k :| 0 <= k < |rows| && rows[k] == out[i];
      var l :| 0 <= l < |rows| && rows[l] == out[j];
    }
  }

  lemma TableIsNoDup(c: Codec, rows: seq<Row>)
    requires TableOk(c, rows)
    ensures NoDup(rows)
  {}

  lemma RecordsAreVerified(c: Codec, rows: seq<Row>, ts: Row -> real)
    requires TableOk(c, rows)
    ensures var recs := Records(c, rows, ts);
      && AllVerified(c, recs) && DistinctIds(recs)
      && forall i | 0 <= i < |recs| :: DecodeNode(recs[i]) == Some(rows[i].node) && IdOf(recs[i]) == rows[i].id
  {
    hide ValidNode, NodeId, Verified, DecodeNode;
    forall i | 0 <= i < |rows|
      ensures Verified(c, RecordOf(c, rows[i].node, ts(rows[i]))) && IdOf(RecordOf(c, rows[i].node, ts(rows[i]))) == rows[i].id
        && DecodeNode(RecordOf(c, rows[i].node, ts(rows[i]))) == Some(rows[i].node)
    {
      assert RowOk(c, rows[i]);
      RecordDescribesNode(c, rows[i].node, ts(rows[i]));
    }
  }

  lemma {:induction false} RecordsImport(c: Codec, done: seq<Row>, rest: seq<Row>, ts: Row -> real)
    requires TableOk(c, done + rest)
    ensures ImportFrom(c, done, Records(c, rest, ts)) == Imported(None, done + rest)
    decreases |rest|
  {
    hide ValidNode, NodeId, DecodeNode, ImportFrom;
    if rest == [] {
      ImportNothing(c, done);
      assert done + rest == done;
    } else {
      var all := done + rest;
      var r := rest[0];
      assert all[|done|] == r && RowOk(c, all[|done|]);
      assert forall i | 0 <= i < |done| :: all[i] == done[i];
      assert Free(done, r);
      assert (done + [r]) + rest[1..] == all;
      RecordsImport(c, done + [r], rest[1..], ts);
      var recs := Records(c, rest, ts);
      RecordDescribesNode(c, r.node, ts(r));
      assert recs[0..] == recs && recs[1..] == Records(c, rest[1..], ts);
      assert !HasSlot(done, SlotOf(r.node)) && Owner(done, SlotOf(r.node)) == "";
      ImportStep(c, done, recs, 0);
    }
  }

  /** No two rows have the same step and seq. */
  ghost predicate DistinctPlaces(rows: seq<Row>) {
    forall i, j | 0 <= i < j < |rows| :: StepOr(rows[i].node.step) != StepOr(rows[j].node.step) || rows[i].node.pos != rows[j].node.pos
  }

  lemma PlacesAreStrict(rows: seq<Row>)
    requires DistinctPlaces(rows)
    ensures Strict(rows, RowBefore)
  {
    forall x, y | x in rows && y in rows && RowBefore(x, y) && RowBefore(y, x) ensures x == y {
      var i :| 0 <= i < |rows| && rows[i] == x;
      var j :| 0 <= j < |rows| && rows[j] == y;
      assert i == j;
    }
  }

  lemma ListedAgain(out: seq<Row>, keep: Row -> bool, again: seq<Row>)
    requires Sorted(out, RowBefore) && DistinctPlaces(out) && (forall r | r in out :: keep(r)) && IsListing(out, keep, again)
    ensures again == out
  {
    FilterIsSubset(out, keep);
    PlacesAreStrict(out);
    assert Preorder(RowBefore);
    SortedUnique(out, again, RowBefore);
  }

  /**
   * Export, load and import into an empty log reproduce the exported nodes, ids included; and
   * when no two of them share step and seq, every later listing shows them in the same order.
   */
  lemma ExportLoadImport(
    c: Codec, t: JsonText, k: Signing.Crypto, table: seq<Row>, keep: Row -> bool, out: seq<Row>, ts: Row -> real,
    src: Source, order: seq<string>)
    requires TableOk(c, table) && IsListing(table, keep, out) && src.recs == Records(c, out, ts)
    requires Exportable(c, src) && RoundTrip.PlainSource(c, t, src) && Faithful(t)
    requires OrderOf(order, EmbeddedIn(src)) && RoundTrip.ExportLimits(c, t, src, order)
    ensures var loaded := Load(c, t, k, Export(c, t, src, order), true);
      && loaded.Ok?
      && ImportFrom(c, [], loaded.value.nodes) == Imported(None, out)
      && multiset(out) == multiset(Filter(table, keep))
      && (DistinctPlaces(out) ==> forall again | IsListing(out, keep, again) :: again == out)
  {
    hide Exportable, Export, EmbeddedIn, RoundTrip.PlainSource, Load, ImportFrom, TableOk, DistinctIds, Faithful, OrderOf,
      RoundTrip.ExportLimits, AllVerified, DistinctPlaces, Sorted;
    FilterIsSubset(table, keep);
    PartOfTable(c, table, out);
    RecordsAreVerified(c, out, ts);
    RoundTrip.LoadAcceptsExport(c, t, k, src, order);
    assert [] + out == out;
    RecordsImport(c, [], out, ts);
    forall r | r in out ensures keep(r) {
      assert r in multiset(out);
      assert r in multiset(Filter(table, keep));
    }
    forall again | DistinctPlaces(out) && IsListing(out, keep, again) ensures again == out {
      ListedAgain(out, keep, again);
    }
  }
}
