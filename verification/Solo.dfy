/**
 * One worker at a time: crashes and restarts with any arguments, but no second worker in
 * between and no lost memo. Then log and memo agree in detail, the log of a step is a prefix
 * of its script at every crash point, and a blocked step stays blocked.
 */
module Solo {
  import opened Base
  import opened SlotMap
  import opened Protocol
  import opened Agreement
  import opened Backing

  /** Every attempt agrees with `gate` about which tool names are gated. */
  predicate FixedEffects(gate: string -> bool, a: Attempt) {
    forall name | name in a.tools :: RequiresBlockAndGate(a.tools[name]) == gate(name)
  }

  ghost predicate InferredPlan(wfOf: StepId -> string, memo: Memo, sid: StepId, plan: Object) {
    Inferred(wfOf, memo, sid) && AsStringMap(memo[(wfOf(sid), InferKey(sid.step))]) == Some(plan)
  }

  /** The sealed plan is the memoised one, and an ABORT marks a gated call that never gets a memo. */
  ghost predicate Settled(wfOf: StepId -> string, gate: string -> bool, log: Log, memo: Memo, slot: Slot) {
    match slot.kind
    case Decision => slot in log && log[slot].PPlan? && InferredPlan(wfOf, memo, slot.sid, log[slot].plan)
    case Abort =>
      var i, calls := Index(slot.pos), SealedCalls(log, slot.sid);
      i < |calls| && gate(calls[i].name) && !Keyed(wfOf, memo, slot.sid, calls[i].name, i)
    case _ => true
  }

  ghost predicate LogSettled(wfOf: StepId -> string, gate: string -> bool, log: Log, memo: Memo) {
    forall slot {:trigger Settled(wfOf, gate, log, memo, slot)} | slot in log :: Settled(wfOf, gate, log, memo, slot)
  }

  /** The next call is known and has no memo. */
  ghost predicate Fresh(wfOf: StepId -> string, memo: Memo, r: Run) {
    r.Known() && !Keyed(wfOf, memo, r.a.sid, r.Next().name, |r.results|)
  }

  /** Its result can still be saved, because no ABORT is logged for it. */
  ghost predicate Unblocked(wfOf: StepId -> string, log: Log, memo: Memo, r: Run) {
    Fresh(wfOf, memo, r) && Slot(r.a.sid, r.Pos() + 1, Abort) !in log
  }

  ghost predicate WorkerSettled(wfOf: StepId -> string, gate: string -> bool, log: Log, memo: Memo, w: Worker) {
    && (AttemptOf(w).Some? ==> FixedEffects(gate, AttemptOf(w).value))
    && match w
       case AtModel(a) => !Inferred(wfOf, memo, a.sid)
       case AtInferSave(a, _) => !Inferred(wfOf, memo, a.sid)
       case AtDecision(a, plan) => InferredPlan(wfOf, memo, a.sid, plan)
       case AtClaim(r) => Fresh(wfOf, memo, r) && gate(r.Next().name)
       case AtAbort(r) => Fresh(wfOf, memo, r) && gate(r.Next().name)
       case AtCall(r) => Fresh(wfOf, memo, r) && !gate(r.Next().name)
       case AtBody(r, gated) => Unblocked(wfOf, log, memo, r) && gated == gate(r.Next().name)
       case AtResult(r, _) => Unblocked(wfOf, log, memo, r)
       case AtToolSave(r, _) => Unblocked(wfOf, log, memo, r)
       case _ => true
  }

  ghost predicate SoloGood(wfOf: StepId -> string, gate: string -> bool, log: Log, memo: Memo, w: Worker) {
    && Good(wfOf, log, memo, w) && LogBacked(wfOf, log, memo) && WorkerBacked(wfOf, log, memo, w)
    && LogSettled(wfOf, gate, log, memo) && WorkerSettled(wfOf, gate, log, memo, w)
  }

  ghost predicate StaysSettled(wfOf: StepId -> string, gate: string -> bool, l: Local) {
    LogSettled(wfOf, gate, l.log, l.memo) && WorkerSettled(wfOf, gate, l.log, l.memo, l.w)
  }

  lemma PutSettled(wfOf: StepId -> string, gate: string -> bool, log: Log, memo: Memo, slot: Slot, p: Payload)
    requires LogOk(log) && LogSettled(wfOf, gate, log, memo)
    requires slot !in log ==> Settled(wfOf, gate, Put(log, slot, p), memo, slot)
    ensures LogSettled(wfOf, gate, Put(log, slot, p), memo)
  {
    forall t | t in log ensures Settled(wfOf, gate, Put(log, slot, p), memo, t) {
      assert Placed(log, t, log[t]) && Settled(wfOf, gate, log, memo, t);
    }
  }

  lemma PlanningSettled(wfOf: StepId -> string, gate: string -> bool, log: Log, memo: Memo, w: Worker, out: Outcome)
    requires OneStepPerWorkflow(wfOf) && SoloGood(wfOf, gate, log, memo, w)
    requires w.AtContext? || w.AtInfer? || w.AtModel? || w.AtInferSave? || w.AtDecision?
    ensures StaysSettled(wfOf, gate, StepWorker(log, memo, w, out))
  {
    hide ToolCalls, ValidAttempt;
    var a := w.a;
    if w.AtContext? {
      PutSettled(wfOf, gate, log, memo, Slot(a.sid, 0, ProjectContext), PContext(a.ctx));
    } else if w.AtDecision? {
      PutSettled(wfOf, gate, log, memo, Slot(a.sid, 1, Decision), PPlan(w.plan));
    } else if w.AtInferSave? {
      var memo' := Put(memo, (wfOf(a.sid), InferKey(a.sid.step)), w.v);
      forall t | t in log ensures Settled(wfOf, gate, log, memo', t) {
        assert Settled(wfOf, gate, log, memo, t);
      }
    }
  }

  /** An ABORT for the next call implies that it is gated and that its TOOL_CALL is logged. */
  lemma AbortMeans(wfOf: StepId -> string, gate: string -> bool, log: Log, memo: Memo, r: Run)
    requires LogOk(log) && LogSettled(wfOf, gate, log, memo) && Calling(log, r)
    requires Slot(r.a.sid, r.Pos() + 1, Abort) in log
    ensures gate(r.Next().name) && Slot(r.a.sid, r.Pos(), ToolCall) in log
  {
    PairsFromRun(log, r);
    var ab := Slot(r.a.sid, r.Pos() + 1, Abort);
    assert Index(ab.pos) == |r.results|;
    assert Placed(log, ab, log[ab]) && Settled(wfOf, gate, log, memo, ab);
  }

  lemma AbortSettled(wfOf: StepId -> string, gate: string -> bool, log: Log, memo: Memo, r: Run)
    requires LogOk(log) && LogSettled(wfOf, gate, log, memo) && Calling(log, r)
    requires Fresh(wfOf, memo, r) && gate(r.Next().name)
    ensures LogSettled(wfOf, gate, Put(log, Slot(r.a.sid, r.Pos() + 1, Abort), PAbort(r.Next().name)), memo)
  {
    PairsFromRun(log, r);
    var slot := Slot(r.a.sid, r.Pos() + 1, Abort);
    assert Index(slot.pos) == |r.results|;
    assert SealedCalls(Put(log, slot, PAbort(r.Next().name)), r.a.sid) == r.calls;
    PutSettled(wfOf, gate, log, memo, slot, PAbort(r.Next().name));
  }

  lemma SaveSettled(wfOf: StepId -> string, gate: string -> bool, log: Log, memo: Memo, r: Run, v: Json)
    requires OneStepPerWorkflow(wfOf) && Home(wfOf, r.a)
    requires LogOk(log) && LogSettled(wfOf, gate, log, memo) && Calling(log, r) && Unblocked(wfOf, log, memo, r)
    ensures LogSettled(wfOf, gate, log, Put(memo, r.Key(), v))
  {
    PairsFromRun(log, r);
    forall t | t in log ensures Settled(wfOf, gate, log, Put(memo, r.Key(), v), t) {
      assert Settled(wfOf, gate, log, memo, t) && Placed(log, t, log[t]);
    }
  }

  /** A won claim or a plain call starts a body for which no ABORT can be logged. */
  lemma ClaimSettled(wfOf: StepId -> string, gate: string -> bool, log: Log, memo: Memo, w: Worker, out: Outcome)
    requires w.AtClaim? || w.AtCall?
    requires LogOk(log) && Calling(log, w.r)
    requires LogSettled(wfOf, gate, log, memo) && WorkerSettled(wfOf, gate, log, memo, w)
    ensures StaysSettled(wfOf, gate, StepWorker(log, memo, w, out))
  {
    hide ToolCalls, ValidAttempt;
    var r := w.r;
    PutSettled(wfOf, gate, log, memo, Slot(r.a.sid, r.Pos(), ToolCall), PCall(r.Next()));
    if Slot(r.a.sid, r.Pos() + 1, Abort) in log { AbortMeans(wfOf, gate, log, memo, r); }
  }

  lemma SavedSettled(wfOf: StepId -> string, gate: string -> bool, log: Log, memo: Memo, w: Worker, out: Outcome)
    requires w.AtToolSave? && OneStepPerWorkflow(wfOf) && WorkerOk(wfOf, log, w)
    requires LogOk(log) && LogSettled(wfOf, gate, log, memo) && WorkerSettled(wfOf, gate, log, memo, w)
    ensures StaysSettled(wfOf, gate, StepWorker(log, memo, w, out))
  {
    SaveSettled(wfOf, gate, log, memo, w.r, w.v);
  }

  lemma OutcomeSettled(wfOf: StepId -> string, gate: string -> bool, log: Log, memo: Memo, w: Worker, out: Outcome)
    requires w.AtAbort? || w.AtBody? || w.AtResult?
    requires LogOk(log) && Calling(log, w.r)
    requires LogSettled(wfOf, gate, log, memo) && WorkerSettled(wfOf, gate, log, memo, w)
    ensures StaysSettled(wfOf, gate, StepWorker(log, memo, w, out))
  {
    hide ToolCalls, ValidAttempt;
    var r := w.r;
    if w.AtAbort? {
      AbortSettled(wfOf, gate, log, memo, r);
    } else if w.AtResult? {
      PutSettled(wfOf, gate, log, memo, Slot(r.a.sid, r.Pos() + 1, ToolResult), PResult(w.v));
    }
  }

  lemma LookupSettled(wfOf: StepId -> string, gate: string -> bool, log: Log, memo: Memo, r: Run, out: Outcome)
    requires Home(wfOf, r.a) && LogOk(log) && LogSettled(wfOf, gate, log, memo)
    requires WorkerSettled(wfOf, gate, log, memo, AtTool(r))
    ensures StaysSettled(wfOf, gate, StepWorker(log, memo, AtTool(r), out))
  {
    if !r.HasNext() { PutSettled(wfOf, gate, log, memo, Slot(r.a.sid, CallSeq(|r.calls|), CommitStep), PCommit); }
  }

  lemma ToolSettled(wfOf: StepId -> string, gate: string -> bool, log: Log, memo: Memo, w: Worker, out: Outcome)
    requires OneStepPerWorkflow(wfOf)
    requires LogOk(log) && WorkerOk(wfOf, log, w) && HasRun(w)
    requires LogSettled(wfOf, gate, log, memo) && WorkerSettled(wfOf, gate, log, memo, w)
    ensures StaysSettled(wfOf, gate, StepWorker(log, memo, w, out))
  {
    if w.AtTool? {
      LookupSettled(wfOf, gate, log, memo, w.r, out);
    } else if w.AtClaim? || w.AtCall? {
      ClaimSettled(wfOf, gate, log, memo, w, out);
    } else if w.AtToolSave? {
      SavedSettled(wfOf, gate, log, memo, w, out);
    } else if !w.Done? {
      OutcomeSettled(wfOf, gate, log, memo, w, out);
    }
  }

  /** One atomic step of the only worker keeps log, memo and worker in detailed agreement. */
  lemma StepSettled(wfOf: StepId -> string, gate: string -> bool, log: Log, memo: Memo, w: Worker, out: Outcome)
    requires OneStepPerWorkflow(wfOf) && SoloGood(wfOf, gate, log, memo, w)
    ensures var l := StepWorker(log, memo, w, out); SoloGood(wfOf, gate, l.log, l.memo, l.w)
  {
    WorkerStepKeeps(wfOf, log, memo, w, out);
    StepBacked(wfOf, log, memo, w, out);
    if HasRun(w) {
      ToolSettled(wfOf, gate, log, memo, w, out);
    } else if !Finished(w) {
      PlanningSettled(wfOf, gate, log, memo, w, out);
    }
  }

  // ---- Runs with one worker at a time

  ghost predicate SoloInv(wfOf: StepId -> string, gate: string -> bool, s: State) {
    |s.workers| == 1 && SoloGood(wfOf, gate, s.log, s.memo, s.workers[0])
  }

  predicate SoloAct(wfOf: StepId -> string, gate: string -> bool, act: Action) {
    match act
    case Start(_, a) => Home(wfOf, a) && FixedEffects(gate, a)
    case LoseMemo(_) => false
    case Foreign(_, _) => false
    case _ => true
  }

  lemma SoloStep(wfOf: StepId -> string, gate: string -> bool, s: State, act: Action)
    requires OneStepPerWorkflow(wfOf) && SoloInv(wfOf, gate, s) && SoloAct(wfOf, gate, act)
    ensures SoloInv(wfOf, gate, Next(s, act))
  {
    if act.Step? && act.w < |s.workers| {
      StepSettled(wfOf, gate, s.log, s.memo, s.workers[0], act.out);
    }
  }

  lemma {:induction false} SoloRun(wfOf: StepId -> string, gate: string -> bool, s: State, acts: seq<Action>)
    requires OneStepPerWorkflow(wfOf) && SoloInv(wfOf, gate, s)
    requires forall act | act in acts :: SoloAct(wfOf, gate, act)
    ensures SoloInv(wfOf, gate, Exec(s, acts))
    decreases |acts|
  {
    if acts != [] {
      SoloStep(wfOf, gate, s, acts[0]);
      SoloRun(wfOf, gate, Next(s, acts[0]), acts[1..]);
    }
  }

  lemma SoloInit(wfOf: StepId -> string, gate: string -> bool)
    ensures SoloInv(wfOf, gate, Init(1))
  {
  }

  // ---- The log of a step is a prefix of its script

  /** The kind of the node that the script of a plan with n calls puts at `pos`. */
  function ScriptKind(n: nat, pos: nat): Kind {
    if pos == 0 then ProjectContext
    else if pos == 1 then Decision
    else if pos == CallSeq(n) then CommitStep
    else if pos % 2 == 0 then ToolCall
    else ToolResult
  }

  ghost predicate InScript(log: Log, sid: StepId, pos: nat) {
    Slot(sid, pos, ScriptKind(|SealedCalls(log, sid)|, pos)) in log
  }

  /** Without its ABORTs, the step's log is the first k nodes of the script. */
  ghost predicate IsPrefix(log: Log, sid: StepId, k: nat) {
    && k <= CallSeq(|SealedCalls(log, sid)|) + 1
    && (forall pos: nat | pos < k :: InScript(log, sid, pos))
    && (forall slot | slot in log && slot.sid == sid && slot.kind != Abort ::
          slot.pos < k && slot.kind == ScriptKind(|SealedCalls(log, sid)|, slot.pos))
  }

  /** Every ABORT sits right after the last TOOL_CALL of the prefix, so there is at most one. */
  ghost predicate AbortAtEnd(log: Log, sid: StepId, k: nat) {
    forall slot | slot in log && slot.sid == sid && slot.kind == Abort ::
      slot.pos >= 3 && slot.pos % 2 == 1 && slot.pos <= k <= slot.pos + 1
  }

  function Depth(log: Log, sid: StepId, k: nat): (d: nat)
    requires k <= CallSeq(|SealedCalls(log, sid)|) + 1
    ensures k <= d <= CallSeq(|SealedCalls(log, sid)|) + 1
    ensures forall pos: nat | k <= pos < d :: InScript(log, sid, pos)
    ensures d <= CallSeq(|SealedCalls(log, sid)|) ==> !InScript(log, sid, d)
    decreases CallSeq(|SealedCalls(log, sid)|) + 1 - k
  {
    if k <= CallSeq(|SealedCalls(log, sid)|) && Slot(sid, k, ScriptKind(|SealedCalls(log, sid)|, k)) in log
    then Depth(log, sid, k + 1) else k
  }

  /** A node stands where the script puts it, and on everything before it. */
  lemma StandsOnPrefix(log: Log, slot: Slot, pos: nat)
    requires LogOk(log) && slot in log && slot.kind != Abort
    ensures slot.pos <= CallSeq(|SealedCalls(log, slot.sid)|)
    ensures slot.kind == ScriptKind(|SealedCalls(log, slot.sid)|, slot.pos)
    ensures pos < slot.pos ==> InScript(log, slot.sid, pos)
  {
    var sid := slot.sid;
    assert Placed(log, slot, log[slot]);
    if pos < slot.pos {
      var dec := Slot(sid, 1, Decision);
      assert dec in log;
      assert Placed(log, dec, log[dec]);
      if pos >= 2 && Index(pos) < Index(slot.pos) { assert Pair(log, sid, Index(pos)); }
    }
  }

  /** A node behind call i needs the memo of call i. */
  lemma NodeBehindNeedsMemo(wfOf: StepId -> string, log: Log, memo: Memo, sid: StepId, i: nat)
    requires LogBacked(wfOf, log, memo) && i < |SealedCalls(log, sid)| && InScript(log, sid, CallSeq(i + 1))
    ensures MemoAt(wfOf, log, memo, sid, i)
  {
    var next := Slot(sid, CallSeq(i + 1), ScriptKind(|SealedCalls(log, sid)|, CallSeq(i + 1)));
    assert Index(next.pos) == i + 1;
    assert Backed(wfOf, log, memo, next);
  }

  lemma AbortEndsLog(wfOf: StepId -> string, gate: string -> bool, log: Log, memo: Memo, slot: Slot)
    requires LogOk(log) && LogBacked(wfOf, log, memo) && LogSettled(wfOf, gate, log, memo)
    requires slot in log && slot.kind == Abort
    ensures slot.pos >= 3 && slot.pos % 2 == 1 && InScript(log, slot.sid, slot.pos - 1)
    ensures !InScript(log, slot.sid, slot.pos + 1)
  {
    var i := Index(slot.pos);
    assert Placed(log, slot, log[slot]) && Settled(wfOf, gate, log, memo, slot);
    assert !MemoAt(wfOf, log, memo, slot.sid, i) && slot.pos + 1 == CallSeq(i + 1);
    if InScript(log, slot.sid, slot.pos + 1) {
      NodeBehindNeedsMemo(wfOf, log, memo, slot.sid, i);
    }
  }

  /**
   * At every crash point the nodes of a step, in seq order, are a prefix of
   * PROJECT_CONTEXT, DECISION, CALL 0, RESULT 0, ..., COMMIT_STEP for the sealed plan, plus at
   * most one ABORT, at the slot after the last call.
   */
  lemma LogIsScriptPrefix(wfOf: StepId -> string, gate: string -> bool, acts: seq<Action>, sid: StepId) returns (k: nat)
    requires OneStepPerWorkflow(wfOf)
    requires forall act | act in acts :: SoloAct(wfOf, gate, act)
    ensures var log := Exec(Init(1), acts).log; IsPrefix(log, sid, k) && AbortAtEnd(log, sid, k)
  {
    SoloInit(wfOf, gate);
    SoloRun(wfOf, gate, Init(1), acts);
    k := PrefixOf(wfOf, gate, Exec(Init(1), acts), sid);
  }

  lemma PrefixOf(wfOf: StepId -> string, gate: string -> bool, s: State, sid: StepId) returns (k: nat)
    requires SoloInv(wfOf, gate, s)
    ensures IsPrefix(s.log, sid, k) && AbortAtEnd(s.log, sid, k)
  {
    var log := s.log;
    k := Depth(log, sid, 0);
    forall slot | slot in log && slot.sid == sid && slot.kind != Abort
      ensures slot.pos < k && slot.kind == ScriptKind(|SealedCalls(log, sid)|, slot.pos)
    {
      StandsOnPrefix(log, slot, k);
    }
    forall slot | slot in log && slot.sid == sid && slot.kind == Abort
      ensures slot.pos >= 3 && slot.pos % 2 == 1 && slot.pos <= k <= slot.pos + 1
    {
      AbortEndsLog(wfOf, gate, log, s.memo, slot);
      var call := Slot(sid, slot.pos - 1, ScriptKind(|SealedCalls(log, sid)|, slot.pos - 1));
      StandsOnPrefix(log, call, k);
    }
  }

  // ---- After the seal, a lone worker never asks the model again

  /** Once DECISION is logged, whatever crashes and restarts follow, the model is not called for the step. */
  lemma LoneWorkerSkipsModel(wfOf: StepId -> string, gate: string -> bool, acts: seq<Action>, later: seq<Action>, sid: StepId)
    requires OneStepPerWorkflow(wfOf)
    requires forall act | act in acts || act in later :: SoloAct(wfOf, gate, act)
    requires Slot(sid, 1, Decision) in Exec(Init(1), acts).log
    ensures Exec(Exec(Init(1), acts), later).models[sid] == Exec(Init(1), acts).models[sid]
  {
    var s := Exec(Init(1), acts);
    SoloInit(wfOf, gate);
    SoloRun(wfOf, gate, Init(1), acts);
    assert s.workers == [s.workers[0]];
    assert Settled(wfOf, gate, s.log, s.memo, Slot(sid, 1, Decision));
    SealedStepSkipsModel(wfOf, s, later, sid);
  }
}
