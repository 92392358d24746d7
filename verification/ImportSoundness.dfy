/** What an import adds to a log, and what a listing of a log shows. */
module ImportSoundness {
  import opened Base
  import opened Nodes
  import opened LogTable
  import opened Package
  import opened PackageLaws
  import opened LoadSoundness
  import opened Formats
  import opened Importing
  import Sorting

  /** The record describes the legal node, and states the node's id. */
  ghost predicate StatesNode(c: Codec, rec: Object, n: Node) {
    && Describes(rec, n) && AsString(Get(rec, "id")) == NodeId(c, n)
    && n.kind in NODE_KINDS && LegalId(n.tenant) && LegalId(n.trajectory) && "ts" !in n.payload
  }

  ghost predicate StatesSome(c: Codec, rec: Object) {
    exists n :: StatesNode(c, rec, n)
  }

  lemma AcceptedStates(c: Codec, rec: Object)
    ensures DecodeNode(rec).Some? && ValidNode(DecodeNode(rec).value) && NodeId(c, DecodeNode(rec).value) == IdOf(rec) ==>
      StatesNode(c, rec, DecodeNode(rec).value) && StatesSome(c, rec)
  {
    hide ValidNode, NodeId, Describes, DecodeNode, LegalId;
    if DecodeNode(rec).Some? {
      DecodeMeans(rec, DecodeNode(rec).value);
      ValidNodeMeans(DecodeNode(rec).value);
    }
  }

  /** The row is that of a record, under the record's own id. */
  ghost predicate FromRecord(c: Codec, recs: seq<Object>, row: Row) {
    exists j | 0 <= j < |recs| :: StatesNode(c, recs[j], row.node) && row.id == AsString(Get(recs[j], "id"))
  }

  lemma FromMore(c: Codec, rec: Object, recs: seq<Object>, row: Row)
    requires FromRecord(c, recs, row)
    ensures FromRecord(c, [rec] + recs, row)
  {
    hide StatesNode;
    var j :| 0 <= j < |recs| && StatesNode(c, recs[j], row.node) && row.id == AsString(Get(recs[j], "id"));
    assert ([rec] + recs)[j + 1] == recs[j];
  }

  /**
   * Whatever the records are, an import only adds rows, each of them a record's legal node under
   * the record's own id; and it succeeds only when every record states such a node.
   */
  lemma {:induction false} ImportedHaveTheirIds(c: Codec, rows: seq<Row>, recs: seq<Object>)
    ensures var out := ImportFrom(c, rows, recs);
      && rows <= out.rows
      && (forall i | |rows| <= i < |out.rows| :: FromRecord(c, recs, out.rows[i]))
      && (out.error.None? ==> forall j | 0 <= j < |recs| :: StatesSome(c, recs[j]))
    decreases |recs|
  {
    hide ValidNode, NodeId, DecodeNode, Admits, StatesNode, FromRecord, Free, StatesSome;
    if recs != [] {
      var rec, rest := recs[0], recs[1..];
      assert recs == [rec] + rest && recs[0..] == recs;
      ImportStep(c, rows, recs, 0);
      AcceptedStates(c, rec);
      var n := DecodeNode(rec);
      if n.Some? && ValidNode(n.value) && NodeId(c, n.value) == IdOf(rec) && Admits(rows, RowOf(c, n.value)) {
        var row := RowOf(c, n.value);
        var next := Store(rows, row);
        var out := ImportFrom(c, rows, recs);
        ImportedHaveTheirIds(c, next, rest);
        HeadRecord(c, rec, rest, row);
        forall i | |rows| <= i < |out.rows| ensures FromRecord(c, recs, out.rows[i]) {
          if i < |next| {
            assert out.rows[i] == next[i] && next[i] == row;
          } else {
            FromMore(c, rec, rest, out.rows[i]);
          }
        }
        assert forall j | 1 <= j < |recs| :: recs[j] == rest[j - 1];
      }
    }
  }

  lemma HeadRecord(c: Codec, rec: Object, recs: seq<Object>, row: Row)
    requires StatesNode(c, rec, row.node) && row.id == IdOf(rec)
    ensures FromRecord(c, [rec] + recs, row)
  {
    hide StatesNode;
    assert ([rec] + recs)[0] == rec;
  }

  // ---- Listings

  /** The first row is not listed after the second: by step, no step before step 0, and then by seq. */
  predicate ListedInOrder(r: Row, s: Row) {
    match (r.node.step, s.node.step)
    case (None, None) => r.node.pos <= s.node.pos
    case (None, Some(n)) => n > -1 || (n == -1 && r.node.pos <= s.node.pos)
    case (Some(m), None) => m < -1 || (m == -1 && r.node.pos <= s.node.pos)
    case (Some(m), Some(n)) => m < n || (m == n && r.node.pos <= s.node.pos)
  }

  lemma {:induction false} FilterMeans(rows: seq<Row>, keep: Row -> bool, row: Row)
    ensures multiset(Filter(rows, keep))[row] == if keep(row) then multiset(rows)[row] else 0
  {
    if rows != [] {
      FilterMeans(rows[1..], keep, row);
      assert rows == [rows[0]] + rows[1..];
    }
  }

  /** A listing shows every kept row as often as it is stored, and no other, by step and then by seq. */
  lemma ListingMeans(rows: seq<Row>, keep: Row -> bool, out: seq<Row>)
    ensures IsListing(rows, keep, out) <==>
      && (forall row :: multiset(out)[row] == if keep(row) then multiset(rows)[row] else 0)
      && forall i, j | 0 <= i < j < |out| :: ListedInOrder(out[i], out[j])
  {
    forall row ensures multiset(Filter(rows, keep))[row] == if keep(row) then multiset(rows)[row] else 0 {
      FilterMeans(rows, keep, row);
    }
    assert forall r, s :: RowBefore(r, s) <==> ListedInOrder(r, s);
    if forall row :: multiset(out)[row] == if keep(row) then multiset(rows)[row] else 0 {
      assert multiset(out) == multiset(Filter(rows, keep));
    }
  }
}
