/**
 * Whole runs over the nodes table: a system whose workers act on the table's verdicts runs exactly
 * as the protocol does on its slot map, and the table represents that map throughout.
 */
module TableRun {
  import opened SlotMap
  import opened Nodes
  import opened LogTable
  import opened LogRefinement
  import P = Protocol

  // ---- What a worker's next step asks of the log

  datatype Request = Silent | Append(slot: P.Slot, p: P.Payload) | Claim(slot: P.Slot, p: P.Payload)

  function RequestOf(w: P.Worker): Request {
    match w
    case AtContext(a) => if P.ValidAttempt(a) then Append(P.Slot(a.sid, 0, P.ProjectContext), P.PContext(a.ctx)) else Silent
    case AtDecision(a, plan) => Append(P.Slot(a.sid, 1, P.Decision), P.PPlan(plan))
    case AtTool(r) => if r.HasNext() then Silent else Append(P.Slot(r.a.sid, P.CallSeq(|r.calls|), P.CommitStep), P.PCommit)
    case AtClaim(r) => if r.HasNext() then Claim(P.Slot(r.a.sid, r.Pos(), P.ToolCall), P.PCall(r.Next())) else Silent
    case AtAbort(r) => if r.HasNext() then Append(P.Slot(r.a.sid, r.Pos() + 1, P.Abort), P.PAbort(r.Next().name)) else Silent
    case AtCall(r) => if r.HasNext() then Append(P.Slot(r.a.sid, r.Pos(), P.ToolCall), P.PCall(r.Next())) else Silent
    case AtResult(r, v) => Append(P.Slot(r.a.sid, r.Pos() + 1, P.ToolResult), P.PResult(v))
    case _ => Silent
  }

  /** The slot map's answer: accepted, or claimed. */
  predicate LogSays(log: P.Log, q: Request) {
    match q
    case Silent => true
    case Append(slot, p) => Accepts(log, slot, p)
    case Claim(slot, _) => slot !in log
  }

  function LogAfter(log: P.Log, q: Request): P.Log {
    if q.Silent? then log else Put(log, q.slot, q.p)
  }

  /** The table's answer to the same request. */
  predicate TableSays(c: Codec, rows: seq<Row>, q: Request) {
    match q
    case Silent => true
    case Append(slot, p) => Admits(rows, RowOf(c, ToNode(slot, p)))
    case Claim(slot, p) => Free(rows, RowOf(c, ToNode(slot, p)))
  }

  function TableAfter(c: Codec, rows: seq<Row>, q: Request): seq<Row> {
    if q.Silent? then rows else Store(rows, RowOf(c, ToNode(q.slot, q.p)))
  }

  // ---- A worker's step, given the answer

  /** Some other payload. */
  function Other(p: P.Payload): P.Payload {
    if p == P.PCommit then P.PAbort("") else P.PCommit
  }

  /** A log that gives the answer. */
  function Witness(q: Request, yes: bool): P.Log {
    if q.Silent? || yes then map[] else if q.Append? then map[q.slot := Other(q.p)] else map[q.slot := q.p]
  }

  /** What the worker does on the answer; what the log holds besides does not matter. */
  function Answered(memo: P.Memo, w: P.Worker, out: P.Outcome, yes: bool): P.Local {
    P.StepWorker(Witness(RequestOf(w), yes), memo, w, out)
  }

  lemma WitnessSays(q: Request, yes: bool)
    requires q.Silent? ==> yes
    ensures LogSays(Witness(q, yes), q) == yes
  {}

  /** A step depends on the log through the answer only. */
  lemma SameAnswerSameStep(log: P.Log, log': P.Log, memo: P.Memo, w: P.Worker, out: P.Outcome)
    requires LogSays(log, RequestOf(w)) == LogSays(log', RequestOf(w))
    ensures var l, k := P.StepWorker(log, memo, w, out), P.StepWorker(log', memo, w, out);
      l.memo == k.memo && l.w == k.w && l.event == k.event
  {
    hide P.ToolCalls, P.ValidAttempt;
  }

  lemma StepWrites(log: P.Log, memo: P.Memo, w: P.Worker, out: P.Outcome)
    ensures P.StepWorker(log, memo, w, out).log == LogAfter(log, RequestOf(w))
  {
    hide P.ToolCalls, P.ValidAttempt;
  }

  lemma StepFollowsAnswer(log: P.Log, memo: P.Memo, w: P.Worker, out: P.Outcome)
    ensures var l := P.StepWorker(log, memo, w, out);
      var k := Answered(memo, w, out, LogSays(log, RequestOf(w)));
      l.log == LogAfter(log, RequestOf(w)) && l.memo == k.memo && l.w == k.w && l.event == k.event
  {
    hide P.StepWorker, RequestOf, Witness, LogAfter;
    var yes := LogSays(log, RequestOf(w));
    WitnessSays(RequestOf(w), yes);
    SameAnswerSameStep(log, Witness(RequestOf(w), yes), memo, w, out);
    StepWrites(log, memo, w, out);
  }

  // ---- The system over the table

  /** The rows, and the rest of the state; its `log` is not read. */
  datatype TableState = TableState(rows: seq<Row>, rest: P.State)

  function TableNext(c: Codec, s: TableState, act: P.Action): (s': TableState)
    ensures |s'.rest.workers| == |s.rest.workers|
  {
    match act
    case Step(w, out) =>
      if w < |s.rest.workers| then
        var q := RequestOf(s.rest.workers[w]);
        var l := Answered(s.rest.memo, s.rest.workers[w], out, TableSays(c, s.rows, q));
        TableState(TableAfter(c, s.rows, q), P.Advance(s.rest, w, l.(log := s.rest.log)))
      else s
    case Foreign(slot, p) => s.(rows := Store(s.rows, RowOf(c, ToNode(slot, p))))
    case _ => s.(rest := P.Next(s.rest, act))
  }

  function TableExec(c: Codec, s: TableState, acts: seq<P.Action>): (s': TableState)
    ensures |s'.rest.workers| == |s.rest.workers|
    decreases |acts|
  {
    if acts == [] then s else TableExec(c, TableNext(c, s, acts[0]), acts[1..])
  }

  /** The request that an action makes of the log. */
  function Asks(s: P.State, act: P.Action): Request {
    match act
    case Step(w, _) => if w < |s.workers| then RequestOf(s.workers[w]) else Silent
    case Foreign(slot, p) => Append(slot, p)
    case _ => Silent
  }

  /** The new node collides with no stored one, and its canonical form tells it from the one in its slot. */
  ghost predicate Clear(c: Codec, rows: seq<Row>, log: P.Log, q: Request) {
    q.Silent? || (
      && (forall i | 0 <= i < |rows| :: !Collides(c, rows[i].node, ToNode(q.slot, q.p)))
      && Distinguished(c, log, q.slot, q.p))
  }

  ghost predicate AllClear(c: Codec, rows: seq<Row>, s: P.State, acts: seq<P.Action>)
    decreases |acts|
  {
    acts == [] || (
      && Clear(c, rows, s.log, Asks(s, acts[0]))
      && AllClear(c, TableAfter(c, rows, Asks(s, acts[0])), P.Next(s, acts[0]), acts[1..]))
  }

  /** Foreign nodes are nodes that a log would append. */
  predicate Writable(act: P.Action) {
    act.Foreign? ==> Fits(act.slot.kind, act.p) && ValidNode(ToNode(act.slot, act.p))
  }

  /** A worker past PROJECT_CONTEXT has arguments that passed validation. */
  predicate Checked(w: P.Worker) {
    w.Idle? || w.AtContext? || w.Failed? || (P.AttemptOf(w).Some? && P.ValidAttempt(P.AttemptOf(w).value))
  }

  predicate AllChecked(s: P.State) {
    forall i | 0 <= i < |s.workers| :: Checked(s.workers[i])
  }

  lemma StepChecked(log: P.Log, memo: P.Memo, w: P.Worker, out: P.Outcome)
    requires Checked(w)
    ensures Checked(P.StepWorker(log, memo, w, out).w)
  {
    hide P.ToolCalls, Nodes.ValidId;
  }

  lemma NextChecked(s: P.State, act: P.Action)
    requires AllChecked(s)
    ensures AllChecked(P.Next(s, act))
  {
    hide P.StepWorker, Checked;
    if act.Step? && act.w < |s.workers| {
      StepChecked(s.log, s.memo, s.workers[act.w], act.out);
    }
    VolatileChecked(act);
  }

  lemma VolatileChecked(act: P.Action)
    ensures Checked(P.Idle) && (act.Start? ==> Checked(P.AtContext(act.a)))
  {}

  /** Every request of a checked worker is for a legal node, of the kind that its payload has. */
  lemma RequestsAreLegal(w: P.Worker)
    requires Checked(w)
    ensures var q := RequestOf(w); q.Silent? || (Fits(q.slot.kind, q.p) && ValidNode(ToNode(q.slot, q.p)))
  {
    hide Nodes.ValidId;
  }

  ghost predicate Simulates(c: Codec, t: TableState, s: P.State) {
    TableOk(c, t.rows) && Represents(t.rows, s.log) && AllChecked(s) && t.rest == s.(log := t.rest.log)
  }

  lemma RequestSimulated(c: Codec, rows: seq<Row>, log: P.Log, q: Request)
    requires TableOk(c, rows) && Represents(rows, log) && Clear(c, rows, log, q)
    requires q.Silent? || (Fits(q.slot.kind, q.p) && ValidNode(ToNode(q.slot, q.p)))
    ensures TableSays(c, rows, q) == LogSays(log, q)
    ensures TableOk(c, TableAfter(c, rows, q)) && Represents(TableAfter(c, rows, q), LogAfter(log, q))
  {
    hide TableOk, Represents, ValidNode, Store, Admits, Free, Distinguished;
    if !q.Silent? {
      TableImplementsLog(c, rows, log, q.slot, q.p);
      StoreKeepsTable(c, rows, ToNode(q.slot, q.p));
    }
  }

  /** A worker's step, the rest of the state being the same on both sides. */
  lemma StepSimulated(c: Codec, t: TableState, s: P.State, w: nat, out: P.Outcome)
    requires Simulates(c, t, s) && Clear(c, t.rows, s.log, Asks(s, P.Step(w, out)))
    ensures var q := Asks(s, P.Step(w, out));
      && Represents(TableAfter(c, t.rows, q), LogAfter(s.log, q)) && TableOk(c, TableAfter(c, t.rows, q))
      && TableSays(c, t.rows, q) == LogSays(s.log, q)
      && P.Next(s, P.Step(w, out)).log == LogAfter(s.log, q)
      && TableNext(c, t, P.Step(w, out)).rest == P.Next(s, P.Step(w, out)).(log := t.rest.log)
  {
    hide TableOk, Represents, ValidNode, Store, Admits, Free, Checked, P.StepWorker, RequestOf, Clear, TableSays, LogSays, Answered, Fits,
      TableAfter, LogAfter;
    if w < |s.workers| {
      RequestsAreLegal(s.workers[w]);
      RequestSimulated(c, t.rows, s.log, RequestOf(s.workers[w]));
      StepFollowsAnswer(s.log, s.memo, s.workers[w], out);
      SameAdvance(s, t.rest.log, w, P.StepWorker(s.log, s.memo, s.workers[w], out));
    } else {
      RequestSimulated(c, t.rows, s.log, Silent);
      assert LogAfter(s.log, Silent) == s.log by { NothingWritten(s.log); }
    }
  }

  lemma NothingWritten(log: P.Log)
    ensures LogAfter(log, Silent) == log
  {}

  lemma SameAdvance(s: P.State, log: P.Log, w: nat, l: P.Local)
    requires w < |s.workers|
    ensures P.Advance(s.(log := log), w, l.(log := log)) == P.Advance(s, w, l).(log := log)
    ensures P.Advance(s, w, l).log == l.log
  {}

  lemma NextSimulated(c: Codec, t: TableState, s: P.State, act: P.Action)
    requires Simulates(c, t, s) && Writable(act) && Clear(c, t.rows, s.log, Asks(s, act))
    ensures Simulates(c, TableNext(c, t, act), P.Next(s, act))
    ensures TableNext(c, t, act).rows == TableAfter(c, t.rows, Asks(s, act))
    ensures TableSays(c, t.rows, Asks(s, act)) == LogSays(s.log, Asks(s, act))
  {
    hide TableOk, Represents, ValidNode, Store, Admits, Free, Checked, P.StepWorker, RequestOf, Clear, LogSays, TableSays, Answered, Fits;
    NextChecked(s, act);
    match act
    case Step(w, out) => StepSimulated(c, t, s, w, out);
    case Foreign(slot, p) => RequestSimulated(c, t.rows, s.log, Append(slot, p));
    case _ => RequestSimulated(c, t.rows, s.log, Silent);
  }

  lemma {:induction false} ExecSimulated(c: Codec, t: TableState, s: P.State, acts: seq<P.Action>)
    requires Simulates(c, t, s) && AllClear(c, t.rows, s, acts) && forall act | act in acts :: Writable(act)
    ensures Simulates(c, TableExec(c, t, acts), P.Exec(s, acts))
    decreases |acts|
  {
    hide Simulates, TableNext, P.Next, Clear, TableAfter, Asks, Writable;
    if acts != [] {
      NextSimulated(c, t, s, acts[0]);
      ExecSimulated(c, TableNext(c, t, acts[0]), P.Next(s, acts[0]), acts[1..]);
    }
  }

  /**
   * From empty stores: as long as no new node collides with a stored one, and canonical forms tell
   * different payloads of one slot apart, the system over the table has the same workers, memo and
   * histories as the protocol, and its table is well formed and represents the protocol's log.
   */
  lemma TableRunsTheProtocol(c: Codec, n: nat, acts: seq<P.Action>)
    requires AllClear(c, [], P.Init(n), acts) && forall act | act in acts :: Writable(act)
    ensures var t := TableExec(c, TableState([], P.Init(n)), acts); var s := P.Exec(P.Init(n), acts);
      && TableOk(c, t.rows) && Represents(t.rows, s.log)
      && t.rest.memo == s.memo && t.rest.workers == s.workers
      && t.rest.models == s.models && t.rest.gated == s.gated && t.rest.bodies == s.bodies
  {
    var t, s := TableState([], P.Init(n)), P.Init(n);
    assert Represents([], map[]);
    ExecSimulated(c, t, s, acts);
  }
}
