/** A redacted export is a package of its own: its nodes are rebuilt, clean, and load as verified. */
module RedactedExport {
  import opened Base
  import opened Nodes
  import opened LogTable
  import opened Redact
  import opened Package
  import opened PackageLaws
  import RoundTrip
  import Signing

  function RedactNode(p: Patterns, n: Node): (r: Node)
    ensures SlotOf(r) == SlotOf(n) && r.kind == n.kind
  {
    n.(payload := RedactPayload(p, n.kind, Obj(n.payload)))
  }

  /** The record is rebuilt, so that its id and payload hash are those of the redacted payload. */
  function RedactRecord(c: Codec, p: Patterns, n: Node, ts: real): Object {
    RecordOf(c, RedactNode(p, n), ts)["payload_hash" := Str(PayloadHash(c, RedactNode(p, n).payload))]
  }

  lemma RedactedNodeIsValid(p: Patterns, n: Node)
    requires ValidNode(n)
    ensures ValidNode(RedactNode(p, n))
  {}

  lemma RedactedRecordVerifies(c: Codec, p: Patterns, n: Node, ts: real)
    requires ValidNode(n) && p.Sound()
    ensures Verified(c, RedactRecord(c, p, n, ts))
    ensures DecodeNode(RedactRecord(c, p, n, ts)) == Some(RedactNode(p, n))
    ensures IdOf(RedactRecord(c, p, n, ts)) == NodeId(c, RedactNode(p, n))
    ensures CleanObject(p, RedactNode(p, n).payload) && (n.kind == "THOUGHT" ==> RedactNode(p, n).payload == BLANK)
  {
    hide NodeId, PayloadHash, ValidId, RedactNode, RedactPayload, CleanObject;
    RedactedNodeIsValid(p, n);
    RedactedIsCleanNode(p, n);
    var rec := RecordOf(c, RedactNode(p, n), ts);
    RecordDescribesNode(c, RedactNode(p, n), ts);
    assert forall key | key != "payload_hash" :: Get(RedactRecord(c, p, n, ts), key) == Get(rec, key);
  }

  lemma RedactedIsCleanNode(p: Patterns, n: Node)
    requires p.Sound()
    ensures CleanObject(p, RedactNode(p, n).payload)
    ensures n.kind == "THOUGHT" ==> RedactNode(p, n).payload == BLANK
  {
    hide CleanObject;
    PayloadIdempotent(p, n.kind, Obj(n.payload));
  }

  function RedactRecords(c: Codec, p: Patterns, rows: seq<Row>, ts: Row -> real): (recs: seq<Object>)
    ensures |recs| == |rows| && forall i | 0 <= i < |recs| :: recs[i] == RedactRecord(c, p, rows[i].node, ts(rows[i]))
  {
    seq(|rows|, i requires 0 <= i < |rows| => RedactRecord(c, p, rows[i].node, ts(rows[i])))
  }

  /** Nodes at different slots keep different ids when they are redacted, unless they collide. */
  lemma RedactedIdsDiffer(c: Codec, p: Patterns, m: Node, n: Node)
    requires ValidNode(m) && ValidNode(n) && SlotOf(m) != SlotOf(n) && !Collides(c, RedactNode(p, m), RedactNode(p, n))
    ensures NodeId(c, RedactNode(p, m)) != NodeId(c, RedactNode(p, n))
  {
    hide ValidId, NodePreimage;
    if NodeId(c, RedactNode(p, m)) == NodeId(c, RedactNode(p, n)) {
      NodeIdCommits(c, RedactNode(p, m), RedactNode(p, n));
    }
  }

  ghost predicate NoneCollide(c: Codec, p: Patterns, rows: seq<Row>) {
    forall i, j | 0 <= i < j < |rows| :: !Collides(c, RedactNode(p, rows[i].node), RedactNode(p, rows[j].node))
  }

  lemma RedactedRecordsVerify(c: Codec, p: Patterns, rows: seq<Row>, ts: Row -> real)
    requires TableOk(c, rows) && p.Sound() && NoneCollide(c, p, rows)
    ensures AllVerified(c, RedactRecords(c, p, rows, ts)) && DistinctIds(RedactRecords(c, p, rows, ts))
    ensures forall i | 0 <= i < |rows| ::
      var n := RedactNode(p, rows[i].node);
      && DecodeNode(RedactRecords(c, p, rows, ts)[i]) == Some(n)
      && CleanObject(p, n.payload) && (n.kind == "THOUGHT" ==> n.payload == BLANK)
  {
    hide NodeId, PayloadHash, ValidNode, RedactNode, RedactRecord, Verified, DecodeNode, Collides, CleanObject, IdOf;
    var recs := RedactRecords(c, p, rows, ts);
    forall i | 0 <= i < |rows|
      ensures Verified(c, recs[i]) && IdOf(recs[i]) == NodeId(c, RedactNode(p, rows[i].node))
      ensures DecodeNode(recs[i]) == Some(RedactNode(p, rows[i].node))
      ensures var n := RedactNode(p, rows[i].node); CleanObject(p, n.payload) && (n.kind == "THOUGHT" ==> n.payload == BLANK)
    {
      assert RowOk(c, rows[i]);
      RedactedRecordVerifies(c, p, rows[i].node, ts(rows[i]));
    }
    forall i, j | 0 <= i < j < |rows| ensures IdOf(recs[i]) != IdOf(recs[j]) {
      assert RowOk(c, rows[i]) && RowOk(c, rows[j]);
      RedactedIdsDiffer(c, p, rows[i].node, rows[j].node);
    }
  }

  ghost predicate CleanNode(p: Patterns, rec: Object, n: Node) {
    && DecodeNode(rec) == Some(RedactNode(p, n))
    && CleanObject(p, RedactNode(p, n).payload)
    && (if n.kind == "THOUGHT" then RedactNode(p, n).payload == map["redacted" := Bool(true)]
        else RedactNode(p, n).payload.Keys == n.payload.Keys
             && forall k | k in n.payload && Clean(p, k, n.payload[k]) :: RedactNode(p, n).payload[k] == n.payload[k])
    && RedactNode(p, n) == n.(payload := RedactNode(p, n).payload)
  }

  /** Only what is not clean changes, unless the node is a thought. */
  lemma RedactedKeepsClean(p: Patterns, n: Node)
    requires p.Sound()
    ensures n.kind != "THOUGHT" ==>
      && RedactNode(p, n).payload.Keys == n.payload.Keys
      && forall k | k in n.payload && Clean(p, k, n.payload[k]) :: RedactNode(p, n).payload[k] == n.payload[k]
    ensures RedactNode(p, n) == n.(payload := RedactNode(p, n).payload)
  {
    forall k | k in n.payload ensures RedactValue(p, k, n.payload[k]) == n.payload[k] <==> Clean(p, k, n.payload[k]) {
      UnchangedIffClean(p, k, n.payload[k]);
    }
  }

  lemma CleanNodes(c: Codec, p: Patterns, rows: seq<Row>, ts: Row -> real)
    requires TableOk(c, rows) && p.Sound() && NoneCollide(c, p, rows)
    ensures forall i | 0 <= i < |rows| :: CleanNode(p, RedactRecords(c, p, rows, ts)[i], rows[i].node)
  {
    hide TableOk, NoneCollide, Verified, DecodeNode, CleanObject, RedactRecord, RedactNode, AllVerified, DistinctIds, Clean;
    RedactedRecordsVerify(c, p, rows, ts);
    forall i | 0 <= i < |rows| ensures CleanNode(p, RedactRecords(c, p, rows, ts)[i], rows[i].node) {
      RedactedKeepsClean(p, rows[i].node);
    }
  }

  /**
   * A redacted export within the limits loads as verified, with one clean node for each exported
   * node, in the same place; without a collision no two of them share an id.
   */
  lemma RedactedExportLoads(
    c: Codec, t: JsonText, k: Signing.Crypto, p: Patterns, rows: seq<Row>, ts: Row -> real, src: Source, order: seq<string>)
    requires TableOk(c, rows) && p.Sound() && NoneCollide(c, p, rows)
    requires src.recs == RedactRecords(c, p, rows, ts) && src.redacted && !src.fat
    requires Exportable(c, src) && RoundTrip.PlainSource(c, t, src) && Faithful(t) && OrderOf(order, EmbeddedIn(src))
    ensures var loaded := Load(c, t, k, Export(c, t, src, order), true);
      && (loaded.Ok? <==> RoundTrip.ExportLimits(c, t, src, order))
      && (loaded.Ok? ==> loaded.value.nodes == src.recs && loaded.value.artifacts == map[])
    ensures |src.recs| == |rows| && forall i | 0 <= i < |rows| :: CleanNode(p, src.recs[i], rows[i].node)
  {
    hide Exportable, Export, RoundTrip.PlainSource, Load, TableOk, DistinctIds, Faithful, OrderOf, RoundTrip.ExportLimits,
      AllVerified, NoneCollide, Verified, DecodeNode, CleanObject, RedactRecord, CleanNode;
    RedactedRecordsVerify(c, p, rows, ts);
    RoundTrip.LoadAcceptsExport(c, t, k, src, order);
    CleanNodes(c, p, rows, ts);
  }
}
