/** The protocol's log is what the nodes table stores: each of its writes is one table insertion. */
module LogRefinement {
  import opened Base
  import opened SlotMap
  import opened Nodes
  import opened LogTable
  import P = Protocol

  function KindText(k: P.Kind): string {
    match k
    case ProjectContext => "PROJECT_CONTEXT"
    case Decision => "DECISION"
    case ToolCall => "TOOL_CALL"
    case ToolResult => "TOOL_RESULT"
    case CommitStep => "COMMIT_STEP"
    case Abort => "ABORT"
  }

  /** The payload object that a step writes. */
  function Encode(p: P.Payload): Object {
    match p
    case PContext(ctx) => ctx
    case PPlan(plan) => map["plan" := Obj(plan)]
    case PCall(call) => map["tool" := Str(call.name), "args" := Obj(call.args)]
    case PResult(value) => map["result" := value]
    case PCommit => map[]
    case PAbort(tool) => map["reason" := Str("BLOCKED_NEEDS_GATE"), "tool" := Str(tool)]
  }

  /** Every step writes each payload under its own kind. */
  predicate Fits(k: P.Kind, p: P.Payload) {
    match k
    case ProjectContext => p.PContext?
    case Decision => p.PPlan?
    case ToolCall => p.PCall?
    case ToolResult => p.PResult?
    case CommitStep => p.PCommit?
    case Abort => p.PAbort?
  }

  function ToNode(s: P.Slot, p: P.Payload): Node {
    Node(KindText(s.kind), s.sid.trajectory, s.sid.tenant, Some(s.sid.step), s.pos, Encode(p))
  }

  function ToSlot(s: P.Slot): LogSlot {
    LogSlot(s.sid.tenant, s.sid.trajectory, s.sid.step, s.pos, KindText(s.kind))
  }

  lemma ToSlotInjective(s: P.Slot, t: P.Slot)
    requires ToSlot(s) == ToSlot(t)
    ensures s == t
  {
    assert |KindText(P.ProjectContext)| == 15 && |KindText(P.Decision)| == 8 && |KindText(P.ToolCall)| == 9
        && |KindText(P.CommitStep)| == 11 && KindText(P.ToolResult)[0] == 'T' && |KindText(P.Abort)| == 5;
  }

  lemma EncodeInjective(k: P.Kind, p: P.Payload, q: P.Payload)
    requires Fits(k, p) && Fits(k, q) && Encode(p) == Encode(q)
    ensures p == q
  {
    match k
    case Decision => assert Encode(p)["plan"] == Encode(q)["plan"];
    case ToolCall => assert Encode(p)["tool"] == Encode(q)["tool"] && Encode(p)["args"] == Encode(q)["args"];
    case ToolResult => assert Encode(p)["result"] == Encode(q)["result"];
    case Abort => assert Encode(p)["tool"] == Encode(q)["tool"];
    case _ =>
  }

  ghost predicate Held(rows: seq<Row>, log: P.Log, s: P.Slot) {
    && (HasSlot(rows, ToSlot(s)) <==> s in log)
    && (s in log ==>
      && Fits(s.kind, log[s])
      && forall i | 0 <= i < |rows| :: SlotOf(rows[i].node) == ToSlot(s) ==> rows[i].node == ToNode(s, log[s]))
  }

  ghost predicate Represents(rows: seq<Row>, log: P.Log) {
    forall s :: Held(rows, log, s)
  }

  /** The canonical form tells a slot's stored payload from a different new one. */
  predicate Distinguished(c: Codec, log: P.Log, s: P.Slot, p: P.Payload) {
    s in log && c.canon(Encode(log[s])) == c.canon(Encode(p)) ==> Encode(log[s]) == Encode(p)
  }

  lemma StoreKeepsHeld(rows: seq<Row>, r: Row, log: P.Log, s: P.Slot, p: P.Payload, t: P.Slot)
    requires Held(rows, log, s) && Held(rows, log, t) && Fits(s.kind, p) && r.node == ToNode(s, p) && !Lost(rows, r)
    ensures Held(Store(rows, r), Put(log, s, p), t)
  {
    hide Owner, KindText, Encode, HasId;
    assert SlotOf(r.node) == ToSlot(s);
    if Free(rows, r) {
      OwnerOfStored(rows, r, ToSlot(t));
      if t == s {
        assert forall i | 0 <= i < |rows| :: SlotOf(rows[i].node) != ToSlot(s);
      } else if ToSlot(t) == ToSlot(s) {
        ToSlotInjective(t, s);
      }
    }
  }

  /**
   * An append of the protocol is the table's append: same verdict, and the representation is
   * kept. A claim is won exactly when the protocol finds its slot empty.
   */
  lemma TableImplementsLog(c: Codec, rows: seq<Row>, log: P.Log, s: P.Slot, p: P.Payload)
    requires TableOk(c, rows) && Represents(rows, log) && Fits(s.kind, p) && ValidNode(ToNode(s, p))
    requires forall i | 0 <= i < |rows| :: !Collides(c, rows[i].node, ToNode(s, p))
    requires Distinguished(c, log, s, p)
    ensures var r := RowOf(c, ToNode(s, p));
      && (Admits(rows, r) <==> Accepts(log, s, p))
      && (Free(rows, r) <==> s !in log)
      && Represents(Store(rows, r), Put(log, s, p))
  {
    hide KindText, ValidNode, NodeId;
    var n := ToNode(s, p);
    var r := RowOf(c, n);
    assert Held(rows, log, s);
    if Lost(rows, r) {
      LostNeedsCollision(c, rows, n);
    }
    AdmitsMeaning(c, rows, n);
    if s in log {
      var i :| 0 <= i < |rows| && SlotOf(rows[i].node) == ToSlot(s);
      assert rows[i].node == ToNode(s, log[s]);
      if SameIdentity(c, rows[i].node, n) {
        EncodeInjective(s.kind, log[s], p);
      }
    }
    forall t ensures Held(Store(rows, r), Put(log, s, p), t) {
      assert Held(rows, log, t);
      StoreKeepsHeld(rows, r, log, s, p, t);
    }
  }
}
