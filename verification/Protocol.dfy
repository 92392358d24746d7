/**
 * The crash and resume protocol of one agent step, as a transition system.
 *
 * Workers run the step script against two durable stores, the node log and the memo
 * backend. Every atomic step of a worker touches at most one store, once. A worker can
 * crash between any two atomic steps; only the stores survive.
 */
module Protocol {
  import opened Base
  import opened SlotMap
  import Nodes

  datatype StepId = StepId(tenant: string, trajectory: string, step: int)

  datatype Kind = ProjectContext | Decision | ToolCall | ToolResult | CommitStep | Abort

  datatype Slot = Slot(sid: StepId, pos: nat, kind: Kind)

  datatype Payload =
    | PContext(ctx: Object)
    | PPlan(plan: Object)
    | PCall(call: Call)
    | PResult(value: Json)
    | PCommit
    | PAbort(tool: string)

  datatype Call = Call(name: string, args: Object)

  datatype MemoKey = InferKey(step: int) | ToolKey(name: string, pos: nat)

  type Log = map<Slot, Payload>
  type Memo = map<(string, MemoKey), Json>

  datatype Effect = Pure | ReadOnly | IdempotentWrite | NonIdempotentWrite | AgentSpawn | Sensitive

  datatype Mode = Live | Sandbox

  predicate RequiresBlockAndGate(e: Effect) {
    e == NonIdempotentWrite
  }

  /** The arguments of one RunStep invocation. Different attempts may differ in all of them. */
  datatype Attempt = Attempt(sid: StepId, workflow: string, tools: map<string, Effect>, mode: Mode, ctx: Object)

  /** An empty workflow id defaults to the trajectory id. */
  function Workflow(a: Attempt): string {
    if a.workflow == "" then a.sid.trajectory else a.workflow
  }

  /** The identity and payload rules that `nodes.NewNode` checks before any row is written. */
  predicate ValidAttempt(a: Attempt) {
    Nodes.ValidId(a.sid.tenant) && Nodes.ValidId(a.sid.trajectory) && "ts" !in a.ctx
  }

  // ---- Plans

  function AsStringMap(j: Json): Option<Object> {
    match j
    case Null => Some(map[])
    case Obj(m) => Some(m)
    case _ => None
  }

  function ParseCall(item: Json): Option<Call> {
    match AsStringMap(item)
    case None => None
    case Some(m) =>
      if AsString(Get(m, "name")) == "" then None
      else
        match AsStringMap(Get(m, "args"))
        case None => None
        case Some(args) => Some(Call(AsString(m["name"]), args))
  }

  function ParseCalls(items: seq<Json>): Option<seq<Call>> {
    if items == [] then Some([])
    else
      match ParseCall(items[0])
      case None => None
      case Some(c) =>
        match ParseCalls(items[1..])
        case None => None
        case Some(cs) => Some([c] + cs)
  }

  function ToolCalls(plan: Object): Option<seq<Call>> {
    if "tool_calls" in plan && plan["tool_calls"].Arr? then ParseCalls(plan["tool_calls"].items) else None
  }

  // ---- One worker

  datatype Error =
    | BadNode
    | SlotConflict
    | ModelError
    | BadPlan
    | UnknownTool(name: string)
    | SandboxForbidden(name: string)
    | ToolError
    | BlockedNeedsGate(name: string)

  /** What the model or a tool body answers. */
  datatype Outcome = Value(v: Json) | Error

  /** The volatile state of a step after its DECISION was appended. */
  datatype Run = Run(a: Attempt, plan: Object, calls: seq<Call>, results: seq<Json>) {
    predicate HasNext() { |results| < |calls| }
    function Next(): Call requires HasNext() { calls[|results|] }
    function Pos(): nat { CallSeq(|results|) }
    function Key(): (string, MemoKey) requires HasNext() { (Workflow(a), ToolKey(Next().name, Pos())) }
    function Push(v: Json): Run { this.(results := results + [v]) }
    predicate Known() { HasNext() && Next().name in a.tools }
    predicate Gated() { Known() && RequiresBlockAndGate(a.tools[Next().name]) }
  }

  function CallSeq(i: nat): nat { 2 + 2 * i }

  datatype Worker =
    | Idle
    | AtContext(a: Attempt)
    | AtInfer(a: Attempt)
    | AtModel(a: Attempt)
    | AtInferSave(a: Attempt, v: Json)
    | AtDecision(a: Attempt, plan: Object)
    | AtTool(r: Run)
    | AtClaim(r: Run)
    | AtAbort(r: Run)
    | AtCall(r: Run)
    | AtBody(r: Run, gated: bool)
    | AtResult(r: Run, v: Json)
    | AtToolSave(r: Run, v: Json)
    | Done(r: Run)
    | Failed(a: Attempt, err: Error)

  function AttemptOf(w: Worker): Option<Attempt> {
    match w
    case Idle => None
    case AtContext(a) => Some(a)
    case AtInfer(a) => Some(a)
    case AtModel(a) => Some(a)
    case AtInferSave(a, _) => Some(a)
    case AtDecision(a, _) => Some(a)
    case Failed(a, _) => Some(a)
    case _ => Some(w.r.a)
  }

  predicate Finished(w: Worker) {
    w.Idle? || w.Done? || w.Failed?
  }

  /** What left the stores during a step: a model call, or the run of a tool body. */
  datatype Event = Quiet | RanModel(sid: StepId) | RanBody(place: Place, name: string, gated: bool)

  datatype Place = Place(sid: StepId, pos: nat)

  datatype Local = Local(log: Log, memo: Memo, w: Worker, event: Event)

  /** An idempotent append followed by `next`, or a slot conflict. */
  function AppendThen(log: Log, memo: Memo, slot: Slot, p: Payload, a: Attempt, next: Worker): Local {
    Local(Put(log, slot, p), memo, if Accepts(log, slot, p) then next else Failed(a, SlotConflict), Quiet)
  }

  function WithPlan(a: Attempt, v: Json): Worker {
    match AsStringMap(v)
    case None => Failed(a, BadPlan)
    case Some(plan) => AtDecision(a, plan)
  }

  /** One atomic step of a worker. `out` is read only where the model or a tool body runs. */
  function StepWorker(log: Log, memo: Memo, w: Worker, out: Outcome): Local {
    match w
    case Idle => Local(log, memo, w, Quiet)
    case Done(_) => Local(log, memo, w, Quiet)
    case Failed(_, _) => Local(log, memo, w, Quiet)
    case AtContext(a) =>
      if ValidAttempt(a)
      then AppendThen(log, memo, Slot(a.sid, 0, ProjectContext), PContext(a.ctx), a, AtInfer(a))
      else Local(log, memo, Failed(a, BadNode), Quiet)
    case AtInfer(a) =>
      var key := (Workflow(a), InferKey(a.sid.step));
      Local(log, memo, if key in memo then WithPlan(a, memo[key]) else AtModel(a), Quiet)
    case AtModel(a) =>
      Local(log, memo, if out.Value? then AtInferSave(a, out.v) else Failed(a, ModelError), RanModel(a.sid))
    case AtInferSave(a, v) =>
      // The caller keeps its own value even when another worker's value was saved first.
      Local(log, Put(memo, (Workflow(a), InferKey(a.sid.step)), v), WithPlan(a, v), Quiet)
    case AtDecision(a, plan) =>
      var next := match ToolCalls(plan)
        case None => Failed(a, BadPlan)
        case Some(calls) => AtTool(Run(a, plan, calls, []));
      AppendThen(log, memo, Slot(a.sid, 1, Decision), PPlan(plan), a, next)
    case AtTool(r) =>
      if !r.HasNext() then
        AppendThen(log, memo, Slot(r.a.sid, CallSeq(|r.calls|), CommitStep), PCommit, r.a, Done(r))
      else
        var name := r.Next().name;
        Local(log, memo,
              if name !in r.a.tools then Failed(r.a, UnknownTool(name))
              else if r.a.mode == Sandbox && r.Gated() then Failed(r.a, SandboxForbidden(name))
              else if r.Key() in memo then AtTool(r.Push(memo[r.Key()]))
              else if r.Gated() then AtClaim(r)
              else AtCall(r),
              Quiet)
    case AtClaim(r) =>
      if !r.HasNext() then Local(log, memo, w, Quiet)
      else
        var slot := Slot(r.a.sid, r.Pos(), ToolCall);
        Local(Put(log, slot, PCall(r.Next())), memo, if slot in log then AtAbort(r) else AtBody(r, true), Quiet)
    case AtAbort(r) =>
      if !r.HasNext() then Local(log, memo, w, Quiet)
      else
        AppendThen(log, memo, Slot(r.a.sid, r.Pos() + 1, Abort), PAbort(r.Next().name), r.a,
                   Failed(r.a, BlockedNeedsGate(r.Next().name)))
    case AtCall(r) =>
      if !r.HasNext() then Local(log, memo, w, Quiet)
      else AppendThen(log, memo, Slot(r.a.sid, r.Pos(), ToolCall), PCall(r.Next()), r.a, AtBody(r, false))
    case AtBody(r, gated) =>
      if !r.HasNext() then Local(log, memo, w, Quiet)
      else
        Local(log, memo, if out.Value? then AtResult(r, out.v) else Failed(r.a, ToolError),
              RanBody(Place(r.a.sid, r.Pos()), r.Next().name, gated))
    case AtResult(r, v) =>
      AppendThen(log, memo, Slot(r.a.sid, r.Pos() + 1, ToolResult), PResult(v), r.a, AtToolSave(r, v))
    case AtToolSave(r, v) =>
      if !r.HasNext() then Local(log, memo, w, Quiet)
      else Local(log, Put(memo, r.Key(), v), AtTool(r.Push(v)), Quiet)
  }

  // ---- The whole system

  /** The stores, the workers, and two histories: which step's model ran, which bodies ran. */
  datatype State = State(
    log: Log,
    memo: Memo,
    workers: seq<Worker>,
    models: multiset<StepId>,
    gated: multiset<Place>,
    bodies: multiset<(Place, string)>)

  datatype Action =
    | Start(w: nat, a: Attempt)
    | Crash(w: nat)
    | Step(w: nat, out: Outcome)
    | LoseMemo(keys: set<(string, MemoKey)>)
    | Foreign(slot: Slot, p: Payload)

  function Init(n: nat): State {
    State(map[], map[], seq(n, _ => Idle), multiset{}, multiset{}, multiset{})
  }

  function Record(s: State, e: Event): State {
    match e
    case Quiet => s
    case RanModel(sid) => s.(models := s.models + multiset{sid})
    case RanBody(p, name, gated) =>
      s.(bodies := s.bodies + multiset{(p, name)},
         gated := if gated then s.gated + multiset{p} else s.gated)
  }

  function Advance(s: State, w: nat, l: Local): (s': State)
    requires w < |s.workers|
  {
    Record(s.(log := l.log, memo := l.memo, workers := s.workers[w := l.w]), l.event)
  }

  /** One transition. An action that does not apply leaves the state as it is. */
  function Next(s: State, act: Action): (s': State)
    ensures |s'.workers| == |s.workers|
  {
    match act
    case Start(w, a) =>
      if w < |s.workers| && Finished(s.workers[w]) then s.(workers := s.workers[w := AtContext(a)]) else s
    case Crash(w) =>
      if w < |s.workers| then s.(workers := s.workers[w := Idle]) else s
    case Step(w, out) =>
      if w < |s.workers| then Advance(s, w, StepWorker(s.log, s.memo, s.workers[w], out)) else s
    case LoseMemo(keys) => s.(memo := s.memo - keys)
    case Foreign(slot, p) => s.(log := Put(s.log, slot, p))
  }

  function Exec(s: State, acts: seq<Action>): (s': State)
    ensures |s'.workers| == |s.workers|
    decreases |acts|
  {
    if acts == [] then s else Exec(Next(s, acts[0]), acts[1..])
  }
}
