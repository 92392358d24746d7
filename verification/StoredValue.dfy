/**
 * The Python rule for a lost race: a memoised call returns the stored value, not its own. Under
 * this rule the sealed plan is the memoised one in every interleaving, which fails under the Go rule.
 */
module StoredValue {
  import opened Base
  import opened SlotMap
  import opened Protocol
  import opened Agreement
  import opened Backing
  import opened Solo

  /** One atomic step of a worker that goes on with what the memo holds after its save. */
  function StepStored(log: Log, memo: Memo, w: Worker, out: Outcome): Local {
    match w
    case AtInferSave(a, v) =>
      var key := (Workflow(a), InferKey(a.sid.step));
      var memo' := Put(memo, key, v);
      Local(log, memo', WithPlan(a, memo'[key]), Quiet)
    case AtToolSave(r, v) =>
      if !r.HasNext() then Local(log, memo, w, Quiet)
      else
        var memo' := Put(memo, r.Key(), v);
        Local(log, memo', AtTool(r.Push(memo'[r.Key()])), Quiet)
    case _ => StepWorker(log, memo, w, out)
  }

  function NextStored(s: State, act: Action): (s': State)
    ensures |s'.workers| == |s.workers|
  {
    if act.Step? then
      if act.w < |s.workers| then Advance(s, act.w, StepStored(s.log, s.memo, s.workers[act.w], act.out)) else s
    else Next(s, act)
  }

  function ExecStored(s: State, acts: seq<Action>): (s': State)
    ensures |s'.workers| == |s.workers|
    decreases |acts|
  {
    if acts == [] then s else ExecStored(NextStored(s, acts[0]), acts[1..])
  }

  /** A logged DECISION holds the memoised plan. */
  ghost predicate PlanStored(wfOf: StepId -> string, log: Log, memo: Memo, slot: Slot) {
    slot in log && (slot.kind == Decision ==> log[slot].PPlan? && InferredPlan(wfOf, memo, slot.sid, log[slot].plan))
  }

  ghost predicate LogStored(wfOf: StepId -> string, log: Log, memo: Memo) {
    forall slot {:trigger PlanStored(wfOf, log, memo, slot)} | slot in log :: PlanStored(wfOf, log, memo, slot)
  }

  /** A worker on its way to the seal works under its step's workflow id, and seals the memoised plan. */
  ghost predicate WorkerStored(wfOf: StepId -> string, memo: Memo, w: Worker) {
    match w
    case AtContext(a) => Home(wfOf, a)
    case AtInfer(a) => Home(wfOf, a)
    case AtModel(a) => Home(wfOf, a)
    case AtInferSave(a, _) => Home(wfOf, a)
    case AtDecision(a, plan) => InferredPlan(wfOf, memo, a.sid, plan)
    case _ => true
  }

  ghost predicate StoredInv(wfOf: StepId -> string, s: State) {
    LogStored(wfOf, s.log, s.memo) && forall i | 0 <= i < |s.workers| :: WorkerStored(wfOf, s.memo, s.workers[i])
  }

  lemma StoredGrowsMemo(log: Log, memo: Memo, w: Worker, out: Outcome)
    ensures Extends(memo, StepStored(log, memo, w, out).memo)
  {
    StepGrowsMemo(log, memo, w, out);
  }

  lemma OthersStored(wfOf: StepId -> string, memo: Memo, memo': Memo, w: Worker)
    requires Extends(memo, memo') && WorkerStored(wfOf, memo, w)
    ensures WorkerStored(wfOf, memo', w)
  {}

  /** Only a worker at DECISION adds one. */
  lemma DecisionsComeFrom(log: Log, memo: Memo, w: Worker, out: Outcome, slot: Slot)
    requires slot in StepStored(log, memo, w, out).log && slot.kind == Decision
    ensures (slot in log && StepStored(log, memo, w, out).log[slot] == log[slot])
         || (w.AtDecision? && slot.sid == w.a.sid && StepStored(log, memo, w, out).log[slot] == PPlan(w.plan))
  {
    hide ToolCalls, ValidAttempt;
  }

  lemma StepStoredKeeps(wfOf: StepId -> string, log: Log, memo: Memo, w: Worker, out: Outcome)
    requires LogStored(wfOf, log, memo) && WorkerStored(wfOf, memo, w)
    ensures var l := StepStored(log, memo, w, out); LogStored(wfOf, l.log, l.memo) && WorkerStored(wfOf, l.memo, l.w)
  {
    var l := StepStored(log, memo, w, out);
    StoredGrowsMemo(log, memo, w, out);
    NextWorkerStored(wfOf, log, memo, w, out);
    hide StepStored;
    forall slot | slot in l.log ensures PlanStored(wfOf, l.log, l.memo, slot) {
      if slot.kind == Decision {
        DecisionsComeFrom(log, memo, w, out, slot);
        if slot in log { assert PlanStored(wfOf, log, memo, slot); }
      }
    }
  }

  lemma PlanningStored(wfOf: StepId -> string, log: Log, memo: Memo, w: Worker, out: Outcome)
    requires WorkerStored(wfOf, memo, w) && (w.AtContext? || w.AtInfer? || w.AtModel? || w.AtInferSave?)
    ensures var l := StepStored(log, memo, w, out); WorkerStored(wfOf, l.memo, l.w)
  {
    hide ToolCalls, ValidAttempt;
  }

  /** After the seal a worker never goes back to its planning. */
  lemma SealedStored(wfOf: StepId -> string, log: Log, memo: Memo, w: Worker, out: Outcome)
    requires !(w.AtContext? || w.AtInfer? || w.AtModel? || w.AtInferSave?)
    ensures var l := StepStored(log, memo, w, out); WorkerStored(wfOf, l.memo, l.w)
  {
    hide ToolCalls, ValidAttempt, InferredPlan, Home;
  }

  lemma NextWorkerStored(wfOf: StepId -> string, log: Log, memo: Memo, w: Worker, out: Outcome)
    requires WorkerStored(wfOf, memo, w)
    ensures var l := StepStored(log, memo, w, out); WorkerStored(wfOf, l.memo, l.w)
  {
    hide StepStored, WorkerStored;
    if w.AtContext? || w.AtInfer? || w.AtModel? || w.AtInferSave? {
      PlanningStored(wfOf, log, memo, w, out);
    } else {
      SealedStored(wfOf, log, memo, w, out);
    }
  }

  lemma NextStoredKeeps(wfOf: StepId -> string, s: State, act: Action)
    requires StoredInv(wfOf, s) && KeepsMemo(wfOf, act)
    ensures StoredInv(wfOf, NextStored(s, act))
  {
    hide StepStored, LogStored;
    if act.Step? && act.w < |s.workers| {
      StepStoredKeeps(wfOf, s.log, s.memo, s.workers[act.w], act.out);
      StoredGrowsMemo(s.log, s.memo, s.workers[act.w], act.out);
      var memo' := StepStored(s.log, s.memo, s.workers[act.w], act.out).memo;
      forall i | 0 <= i < |s.workers| ensures WorkerStored(wfOf, memo', s.workers[i]) {
        OthersStored(wfOf, s.memo, memo', s.workers[i]);
      }
    }
  }

  lemma {:induction false} ExecStoredKeeps(wfOf: StepId -> string, s: State, acts: seq<Action>)
    requires StoredInv(wfOf, s) && forall act | act in acts :: KeepsMemo(wfOf, act)
    ensures StoredInv(wfOf, ExecStored(s, acts))
    decreases |acts|
  {
    hide NextStored, KeepsMemo;
    if acts != [] {
      NextStoredKeeps(wfOf, s, acts[0]);
      ExecStoredKeeps(wfOf, NextStored(s, acts[0]), acts[1..]);
    }
  }

  /** In every interleaving of any number of workers and crashes, the sealed plan is the memoised one. */
  lemma SealedPlanIsMemoised(wfOf: StepId -> string, n: nat, acts: seq<Action>, sid: StepId, plan: Object)
    requires forall act | act in acts :: KeepsMemo(wfOf, act)
    requires Sealed(ExecStored(Init(n), acts).log, sid, plan)
    ensures InferredPlan(wfOf, ExecStored(Init(n), acts).memo, sid, plan)
  {
    ExecStoredKeeps(wfOf, Init(n), acts);
    var s := ExecStored(Init(n), acts);
    assert PlanStored(wfOf, s.log, s.memo, Slot(sid, 1, Decision));
  }
}
