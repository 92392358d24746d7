/** Resuming an interrupted step, a step that is blocked, and a step that is already committed. */
module Resumption {
  import opened Base
  import opened SlotMap
  import opened Protocol
  import opened Agreement
  import opened Backing
  import opened Solo
  import opened Recovery

  // ---- From the start of RunStep to its tool loop

  /** The plan a lone RunStep works with: the memoised one, or else what the model answers now. */
  ghost predicate PlanIs(memo: Memo, a: Attempt, outs: Outs, plan: Object) {
    var key := (Workflow(a), InferKey(a.sid.step));
    if key in memo then AsStringMap(memo[key]) == Some(plan)
    else outs.model.Value? && AsStringMap(outs.model.v) == Some(plan)
  }

  function PlanMemo(memo: Memo, a: Attempt, outs: Outs): Memo {
    var key := (Workflow(a), InferKey(a.sid.step));
    if outs.model.Value? then Put(memo, key, outs.model.v) else memo
  }

  function PlanLog(log: Log, a: Attempt, plan: Object): Log {
    Put(Put(log, Slot(a.sid, 0, ProjectContext), PContext(a.ctx)), Slot(a.sid, 1, Decision), PPlan(plan))
  }

  function PlanEvent(memo: Memo, a: Attempt): Event {
    if (Workflow(a), InferKey(a.sid.step)) in memo then Quiet else RanModel(a.sid)
  }

  lemma InferRuns(log: Log, memo: Memo, a: Attempt, outs: Outs, plan: Object)
    requires PlanIs(memo, a, outs, plan)
    ensures var memo' := if PlanEvent(memo, a).Quiet? then memo else PlanMemo(memo, a, outs);
      RunOn(log, memo, AtInfer(a), outs) == Prepend(PlanEvent(memo, a), RunOn(log, memo', AtDecision(a, plan), outs))
  {
    hide RunOn;
    if PlanEvent(memo, a).Quiet? {
      Unroll(log, memo, AtInfer(a), outs, Local(log, memo, AtDecision(a, plan), Quiet));
    } else {
      Unroll(log, memo, AtInfer(a), outs, Local(log, memo, AtModel(a), Quiet));
      Unroll(log, memo, AtModel(a), outs, Local(log, memo, AtInferSave(a, outs.model.v), RanModel(a.sid)));
      Unroll(log, memo, AtInferSave(a, outs.model.v), outs, Local(log, PlanMemo(memo, a, outs), AtDecision(a, plan), Quiet));
    }
  }

  lemma PlanRuns(log: Log, memo: Memo, a: Attempt, outs: Outs, plan: Object, calls: seq<Call>)
    requires ValidAttempt(a) && PlanIs(memo, a, outs, plan) && ToolCalls(plan) == Some(calls)
    requires Accepts(log, Slot(a.sid, 0, ProjectContext), PContext(a.ctx))
    requires Accepts(log, Slot(a.sid, 1, Decision), PPlan(plan))
    ensures var memo' := if PlanEvent(memo, a).Quiet? then memo else PlanMemo(memo, a, outs);
      RunOn(log, memo, AtContext(a), outs)
        == Prepend(PlanEvent(memo, a), RunOn(PlanLog(log, a, plan), memo', AtTool(Run(a, plan, calls, [])), outs))
  {
    hide RunOn;
    var log1 := Put(log, Slot(a.sid, 0, ProjectContext), PContext(a.ctx));
    var memo' := if PlanEvent(memo, a).Quiet? then memo else PlanMemo(memo, a, outs);
    Unroll(log, memo, AtContext(a), outs, Local(log1, memo, AtInfer(a), Quiet));
    InferRuns(log1, memo, a, outs, plan);
    Unroll(log1, memo', AtDecision(a, plan), outs,
           Local(PlanLog(log, a, plan), memo', AtTool(Run(a, plan, calls, [])), Quiet));
  }

  lemma PlanKeepsSolo(wfOf: StepId -> string, gate: string -> bool, log: Log, memo: Memo, a: Attempt, outs: Outs, plan: Object, calls: seq<Call>)
    requires OneStepPerWorkflow(wfOf) && SoloGood(wfOf, gate, log, memo, AtContext(a))
    requires ValidAttempt(a) && PlanIs(memo, a, outs, plan) && ToolCalls(plan) == Some(calls)
    requires Accepts(log, Slot(a.sid, 0, ProjectContext), PContext(a.ctx))
    ensures Accepts(log, Slot(a.sid, 1, Decision), PPlan(plan))
    ensures var memo' := if PlanEvent(memo, a).Quiet? then memo else PlanMemo(memo, a, outs);
      SoloGood(wfOf, gate, PlanLog(log, a, plan), memo', AtTool(Run(a, plan, calls, [])))
  {
    hide LogOk, MemoOk, LogBacked;
    var dec := Slot(a.sid, 1, Decision);
    if dec in log { assert Settled(wfOf, gate, log, memo, dec); }
    var log1 := Put(log, Slot(a.sid, 0, ProjectContext), PContext(a.ctx));
    var memo' := if PlanEvent(memo, a).Quiet? then memo else PlanMemo(memo, a, outs);
    var out := outs.model;
    OneStepSolo(wfOf, gate, log, memo, AtContext(a), out, Local(log1, memo, AtInfer(a), Quiet));
    if PlanEvent(memo, a).Quiet? {
      OneStepSolo(wfOf, gate, log1, memo, AtInfer(a), out, Local(log1, memo, AtDecision(a, plan), Quiet));
    } else {
      OneStepSolo(wfOf, gate, log1, memo, AtInfer(a), out, Local(log1, memo, AtModel(a), Quiet));
      OneStepSolo(wfOf, gate, log1, memo, AtModel(a), out, Local(log1, memo, AtInferSave(a, out.v), RanModel(a.sid)));
      OneStepSolo(wfOf, gate, log1, memo, AtInferSave(a, out.v), out, Local(log1, memo', AtDecision(a, plan), Quiet));
    }
    OneStepSolo(wfOf, gate, log1, memo', AtDecision(a, plan), out,
                Local(PlanLog(log, a, plan), memo', AtTool(Run(a, plan, calls, [])), Quiet));
  }

  // ---- The recovery dichotomy

  /** A live attempt with the logged context, known tools, a well-formed plan and tools that answer. */
  ghost predicate Healthy(wfOf: StepId -> string, gate: string -> bool, log: Log, memo: Memo, r: Run, outs: Outs) {
    && Home(wfOf, r.a) && FixedEffects(gate, r.a) && ValidAttempt(r.a)
    && Accepts(log, Slot(r.a.sid, 0, ProjectContext), PContext(r.a.ctx))
    && PlanIs(memo, r.a, outs, r.plan) && ToolCalls(r.plan) == Some(r.calls) && r.results == []
    && Resumable(wfOf, gate, log, memo, r, outs)
  }

  lemma {:induction false} LeastStuck(wfOf: StepId -> string, gate: string -> bool, log: Log, memo: Memo, sid: StepId, calls: seq<Call>, n: nat)
    requires Stuck(wfOf, gate, log, memo, sid, calls, n)
    ensures exists b: nat :: FirstStuck(wfOf, gate, log, memo, sid, calls, b)
  {
    if j: nat :| j < n && Stuck(wfOf, gate, log, memo, sid, calls, j) {
      LeastStuck(wfOf, gate, log, memo, sid, calls, j);
    } else {
      assert FirstStuck(wfOf, gate, log, memo, sid, calls, n);
    }
  }

  lemma PlanningKeepsStuck(wfOf: StepId -> string, gate: string -> bool, log: Log, memo: Memo, r: Run, outs: Outs)
    requires PlanIs(memo, r.a, outs, r.plan)
    ensures var memo' := if PlanEvent(memo, r.a).Quiet? then memo else PlanMemo(memo, r.a, outs);
      && (forall j: nat :: Stuck(wfOf, gate, PlanLog(log, r.a, r.plan), memo', r.a.sid, r.calls, j) == Stuck(wfOf, gate, log, memo, r.a.sid, r.calls, j))
      && (Resumable(wfOf, gate, log, memo, r, outs) ==> Resumable(wfOf, gate, PlanLog(log, r.a, r.plan), memo', r, outs))
  {
    var memo' := if PlanEvent(memo, r.a).Quiet? then memo else PlanMemo(memo, r.a, outs);
    if Resumable(wfOf, gate, log, memo, r, outs) {
      forall i: nat | |r.results| <= i < |r.calls|
        ensures Replays(wfOf, gate, PlanLog(log, r.a, r.plan), memo', r.a.sid, r.calls, outs, i)
      {
        assert Replays(wfOf, gate, log, memo, r.a.sid, r.calls, outs, i);
      }
    }
  }

  lemma ResumeFrom(wfOf: StepId -> string, gate: string -> bool, log: Log, memo: Memo, r: Run, outs: Outs)
    requires OneStepPerWorkflow(wfOf) && SoloGood(wfOf, gate, log, memo, AtContext(r.a))
    requires Healthy(wfOf, gate, log, memo, r, outs)
    ensures Dichotomy(wfOf, gate, log, memo, r, RunOn(log, memo, AtContext(r.a), outs))
  {
    hide RunOn, SoloGood, Resumable, Stuck, StepWorker;
    var memo' := if PlanEvent(memo, r.a).Quiet? then memo else PlanMemo(memo, r.a, outs);
    var log' := PlanLog(log, r.a, r.plan);
    PlanKeepsSolo(wfOf, gate, log, memo, r.a, outs, r.plan, r.calls);
    PlanRuns(log, memo, r.a, outs, r.plan, r.calls);
    PlanningKeepsStuck(wfOf, gate, log, memo, r, outs);
    assert r == Run(r.a, r.plan, r.calls, []);
    ToolLoopRecovers(wfOf, gate, log', memo', r, outs);
    DichotomyBack(wfOf, gate, log, memo, log', memo', r, r, RunOn(log, memo, AtContext(r.a), outs));
  }

  lemma CommitNeedsMemo(wfOf: StepId -> string, log: Log, memo: Memo, sid: StepId, pos: nat, i: nat)
    requires LogBacked(wfOf, log, memo) && Slot(sid, pos, CommitStep) in log && i < |SealedCalls(log, sid)|
    ensures MemoAt(wfOf, log, memo, sid, i)
  {
    assert Backed(wfOf, log, memo, Slot(sid, pos, CommitStep));
  }

  lemma BlockedHasNoCommit(wfOf: StepId -> string, gate: string -> bool, f: Final, r: Run, b: nat, pos: nat)
    requires SoloGood(wfOf, gate, f.log, f.memo, f.w) && BlocksAt(f, r, b)
    ensures Slot(r.a.sid, pos, CommitStep) !in f.log
  {
    var ab, commit := Slot(r.a.sid, CallSeq(b) + 1, Abort), Slot(r.a.sid, pos, CommitStep);
    assert Index(ab.pos) == b;
    assert Placed(f.log, ab, f.log[ab]) && Settled(wfOf, gate, f.log, f.memo, ab);
    assert !MemoAt(wfOf, f.log, f.memo, r.a.sid, b);
    if commit in f.log { CommitNeedsMemo(wfOf, f.log, f.memo, r.a.sid, pos, b); }
  }

  ghost predicate AnyStuck(wfOf: StepId -> string, gate: string -> bool, log: Log, memo: Memo, r: Run) {
    exists j: nat :: Stuck(wfOf, gate, log, memo, r.a.sid, r.calls, j)
  }

  /**
   * From any state that one worker at a time can leave behind, a crash-free resume commits
   * exactly when no gated call has its TOOL_CALL logged without a memo. Otherwise it blocks at the
   * least such call, and COMMIT_STEP is not in the log.
   */
  lemma RecoveryDichotomy(wfOf: StepId -> string, gate: string -> bool, acts: seq<Action>, r: Run, outs: Outs)
    requires OneStepPerWorkflow(wfOf)
    requires forall act | act in acts :: SoloAct(wfOf, gate, act)
    requires Healthy(wfOf, gate, Exec(Init(1), acts).log, Exec(Init(1), acts).memo, r, outs)
    ensures var s := Exec(Init(1), acts); var f := RunOn(s.log, s.memo, AtContext(r.a), outs);
      && (Commits(f, r) <==> !AnyStuck(wfOf, gate, s.log, s.memo, r))
      && (!Commits(f, r) ==>
            exists b: nat ::
              && FirstStuck(wfOf, gate, s.log, s.memo, r.a.sid, r.calls, b) && BlocksAt(f, r, b)
              && forall pos: nat :: Slot(r.a.sid, pos, CommitStep) !in f.log)
  {
    hide RunOn, Stuck;
    var s := Exec(Init(1), acts);
    SoloInit(wfOf, gate);
    SoloRun(wfOf, gate, Init(1), acts);
    ResumeFrom(wfOf, gate, s.log, s.memo, r, outs);
    var f := RunOn(s.log, s.memo, AtContext(r.a), outs);
    RunOnKeepsSolo(wfOf, gate, s.log, s.memo, AtContext(r.a), outs);
    if j: nat :| Stuck(wfOf, gate, s.log, s.memo, r.a.sid, r.calls, j) {
      LeastStuck(wfOf, gate, s.log, s.memo, r.a.sid, r.calls, j);
      var b: nat :| FirstStuck(wfOf, gate, s.log, s.memo, r.a.sid, r.calls, b);
      assert BlocksAt(f, r, b);
      forall pos: nat ensures Slot(r.a.sid, pos, CommitStep) !in f.log {
        BlockedHasNoCommit(wfOf, gate, f, r, b, pos);
      }
    }
  }

  // ---- A blocked step stays blocked

  predicate Working(w: Worker, sid: StepId, b: nat) {
    (w.AtBody? || w.AtResult? || w.AtToolSave?) && w.r.a.sid == sid && |w.r.results| == b
  }

  ghost predicate BlockedAt(wfOf: StepId -> string, gate: string -> bool, log: Log, memo: Memo, w: Worker, sid: StepId, b: nat) {
    Stuck(wfOf, gate, log, memo, sid, SealedCalls(log, sid), b) && !Working(w, sid, b)
  }

  /** Only a worker that is working on call b could save its memo. */
  lemma MemoStaysMissing(wfOf: StepId -> string, log: Log, memo: Memo, w: Worker, out: Outcome, sid: StepId, name: string, b: nat)
    requires OneStepPerWorkflow(wfOf) && WorkerOk(wfOf, log, w)
    requires !Keyed(wfOf, memo, sid, name, b) && !Working(w, sid, b)
    ensures !Keyed(wfOf, StepWorker(log, memo, w, out).memo, sid, name, b)
  {
    match w
    case AtToolSave(r, v) =>
    case AtInferSave(a, v) =>
    case _ =>
  }

  /** A worker gets to work on a call from its claim or its plain TOOL_CALL only. */
  lemma WorkComesFrom(log: Log, memo: Memo, w: Worker, out: Outcome, sid: StepId, b: nat)
    requires Working(StepWorker(log, memo, w, out).w, sid, b)
    ensures Working(w, sid, b) || ((w.AtClaim? || w.AtCall?) && w.r.a.sid == sid && |w.r.results| == b)
    ensures w.AtClaim? ==> !w.r.HasNext() || Slot(sid, CallSeq(b), ToolCall) !in log
  {
    hide ToolCalls, ValidAttempt;
  }

  /** Nobody starts working on call b: its claim is taken, and it is not a plain call. */
  lemma NobodyStarts(wfOf: StepId -> string, gate: string -> bool, log: Log, memo: Memo, w: Worker, out: Outcome, sid: StepId, b: nat)
    requires WorkerOk(wfOf, log, w) && WorkerSettled(wfOf, gate, log, memo, w)
    requires BlockedAt(wfOf, gate, log, memo, w, sid, b)
    ensures !Working(StepWorker(log, memo, w, out).w, sid, b)
  {
    hide StepWorker;
    if Working(StepWorker(log, memo, w, out).w, sid, b) {
      WorkComesFrom(log, memo, w, out, sid, b);
      if w.AtCall? {
        PairsFromRun(log, w.r);
      }
    }
  }

  lemma WorkerStaysBlocked(wfOf: StepId -> string, gate: string -> bool, log: Log, memo: Memo, w: Worker, out: Outcome, sid: StepId, b: nat)
    requires OneStepPerWorkflow(wfOf)
    requires WorkerOk(wfOf, log, w) && WorkerSettled(wfOf, gate, log, memo, w)
    requires BlockedAt(wfOf, gate, log, memo, w, sid, b)
    ensures var l := StepWorker(log, memo, w, out); BlockedAt(wfOf, gate, l.log, l.memo, l.w, sid, b)
  {
    hide StepWorker, WorkerOk, WorkerSettled;
    var calls := SealedCalls(log, sid);
    StepGrowsLog(log, memo, w, out);
    MemoStaysMissing(wfOf, log, memo, w, out, sid, calls[b].name, b);
    NobodyStarts(wfOf, gate, log, memo, w, out, sid, b);
  }

  lemma StepStaysBlocked(wfOf: StepId -> string, gate: string -> bool, s: State, act: Action, sid: StepId, b: nat)
    requires OneStepPerWorkflow(wfOf) && SoloInv(wfOf, gate, s) && SoloAct(wfOf, gate, act)
    requires BlockedAt(wfOf, gate, s.log, s.memo, s.workers[0], sid, b)
    ensures var s' := Next(s, act); BlockedAt(wfOf, gate, s'.log, s'.memo, s'.workers[0], sid, b)
  {
    hide Stuck, LogOk, MemoOk, LogBacked, LogSettled;
    if act.Step? && act.w < |s.workers| {
      WorkerStaysBlocked(wfOf, gate, s.log, s.memo, s.workers[0], act.out, sid, b);
    }
  }

  /**
   * Once a step is blocked and its worker is gone, no sequence of restarts, crashes and steps
   * of one worker at a time ever logs its COMMIT_STEP or makes the blocking call answerable.
   */
  lemma {:induction false} BlockedForever(wfOf: StepId -> string, gate: string -> bool, s: State, acts: seq<Action>, sid: StepId, b: nat, pos: nat)
    requires OneStepPerWorkflow(wfOf) && SoloInv(wfOf, gate, s)
    requires forall act | act in acts :: SoloAct(wfOf, gate, act)
    requires BlockedAt(wfOf, gate, s.log, s.memo, s.workers[0], sid, b)
    ensures var s' := Exec(s, acts);
      && Slot(sid, pos, CommitStep) !in s'.log
      && Stuck(wfOf, gate, s'.log, s'.memo, sid, SealedCalls(s'.log, sid), b)
    decreases |acts|
  {
    if acts == [] {
      if Slot(sid, pos, CommitStep) in s.log { CommitNeedsMemo(wfOf, s.log, s.memo, sid, pos, b); }
    } else {
      SoloStep(wfOf, gate, s, acts[0]);
      StepStaysBlocked(wfOf, gate, s, acts[0], sid, b);
      BlockedForever(wfOf, gate, Next(s, acts[0]), acts[1..], sid, b, pos);
    }
  }

  /** A stuck call is the first stuck one: its TOOL_CALL is logged after the memos of all calls before it. */
  lemma StuckIsFirst(wfOf: StepId -> string, gate: string -> bool, log: Log, memo: Memo, sid: StepId, b: nat)
    requires LogBacked(wfOf, log, memo) && Stuck(wfOf, gate, log, memo, sid, SealedCalls(log, sid), b)
    ensures FirstStuck(wfOf, gate, log, memo, sid, SealedCalls(log, sid), b)
  {
    var call := Slot(sid, CallSeq(b), ToolCall);
    assert Backed(wfOf, log, memo, call) && Index(call.pos) == b;
    forall j: nat | j < b ensures !Stuck(wfOf, gate, log, memo, sid, SealedCalls(log, sid), j) {
      assert MemoAt(wfOf, log, memo, sid, j);
    }
  }

  /** A resume of a sealed step works with the sealed plan. */
  lemma ResumeUsesSealedCalls(wfOf: StepId -> string, gate: string -> bool, log: Log, memo: Memo, r: Run, outs: Outs)
    requires LogSettled(wfOf, gate, log, memo) && Home(wfOf, r.a) && SealedCalls(log, r.a.sid) != []
    requires PlanIs(memo, r.a, outs, r.plan) && ToolCalls(r.plan) == Some(r.calls)
    ensures r.calls == SealedCalls(log, r.a.sid)
  {
    assert Settled(wfOf, gate, log, memo, Slot(r.a.sid, 1, Decision));
  }

  /**
   * Once a step is blocked and its worker is gone, every later resume blocks: after any sequence
   * of restarts, crashes and steps, every healthy resume blocks at the same call.
   */
  lemma EveryResumeBlocks(
    wfOf: StepId -> string, gate: string -> bool, s: State, acts: seq<Action>, b: nat, r: Run, outs: Outs)
    requires OneStepPerWorkflow(wfOf) && SoloInv(wfOf, gate, s)
    requires forall act | act in acts :: SoloAct(wfOf, gate, act)
    requires BlockedAt(wfOf, gate, s.log, s.memo, s.workers[0], r.a.sid, b)
    requires Healthy(wfOf, gate, Exec(s, acts).log, Exec(s, acts).memo, r, outs)
    ensures BlocksAt(RunOn(Exec(s, acts).log, Exec(s, acts).memo, AtContext(r.a), outs), r, b)
  {
    hide RunOn, Stuck, Exec, LogOk, MemoOk, LogBacked, LogSettled, ToolCalls, ValidAttempt, Resumable;
    var t := Exec(s, acts);
    SoloRun(wfOf, gate, s, acts);
    BlockedForever(wfOf, gate, s, acts, r.a.sid, b, 0);
    StuckIsFirst(wfOf, gate, t.log, t.memo, r.a.sid, b);
    StuckHasCall(wfOf, gate, t.log, t.memo, r.a.sid, SealedCalls(t.log, r.a.sid), b);
    ResumeUsesSealedCalls(wfOf, gate, t.log, t.memo, r, outs);
    ResumeFrom(wfOf, gate, t.log, t.memo, r, outs);
  }

  lemma StuckHasCall(wfOf: StepId -> string, gate: string -> bool, log: Log, memo: Memo, sid: StepId, calls: seq<Call>, b: nat)
    requires Stuck(wfOf, gate, log, memo, sid, calls, b)
    ensures b < |calls|
  {}

  // ---- Running a committed step again

  lemma LoggedResult(wfOf: StepId -> string, log: Log, memo: Memo, r: Run)
    requires MemoOk(wfOf, log, memo) && Home(wfOf, r.a) && Calling(log, r) && r.Key() in memo
    ensures RunOk(log, r.Push(memo[r.Key()]))
  {
    PairsFromRun(log, r);
    assert Index(r.Pos()) == |r.results|;
    assert MemoEntryOk(log, r.a.sid, r.Next().name, r.Pos(), memo[r.Key()]);
    PushOk(log, r, memo[r.Key()]);
  }

  /** Every call has its memo and COMMIT_STEP is logged: the tool loop reads, and writes nothing. */
  lemma {:induction false} CommittedLoop(wfOf: StepId -> string, log: Log, memo: Memo, r: Run, outs: Outs)
    requires MemoOk(wfOf, log, memo) && Home(wfOf, r.a) && RunOk(log, r) && r.a.mode == Live
    requires MemosBelow(wfOf, log, memo, r.a.sid, |r.calls|)
    requires At(log, r.a.sid, CallSeq(|r.calls|), CommitStep, PCommit)
    requires forall i: nat | i < |r.calls| :: r.calls[i].name in r.a.tools
    ensures var f := RunOn(log, memo, AtTool(r), outs);
      f.log == log && f.memo == memo && f.events == [] && Commits(f, r) && RunOk(log, f.w.r)
    decreases |r.calls| - |r.results|
  {
    hide RunOn;
    if r.HasNext() {
      PairsFromRun(log, r);
      assert MemoAt(wfOf, log, memo, r.a.sid, |r.results|);
      LoggedResult(wfOf, log, memo, r);
      MemoisedCall(log, memo, r, outs);
      CommittedLoop(wfOf, log, memo, r.Push(memo[r.Key()]), outs);
    } else {
      Unroll(log, memo, AtTool(r), outs, Local(log, memo, Done(r), Quiet));
      RunOnFinished(log, memo, Done(r), outs);
    }
  }

  /** The attempt repeats the logged context, in live mode, with every tool of the sealed plan known. */
  ghost predicate Repeats(wfOf: StepId -> string, log: Log, a: Attempt) {
    && Home(wfOf, a) && ValidAttempt(a) && a.mode == Live && CtxLogged(log, a)
    && forall i: nat | i < |SealedCalls(log, a.sid)| :: SealedCalls(log, a.sid)[i].name in a.tools
  }

  ghost predicate SamePlanMemoised(memo: Memo, wf: string, sid: StepId, plan: Object) {
    (wf, InferKey(sid.step)) in memo && AsStringMap(memo[(wf, InferKey(sid.step))]) == Some(plan)
  }

  lemma RepeatFails(log: Log, memo: Memo, a: Attempt, outs: Outs)
    requires ValidAttempt(a) && CtxLogged(log, a) && (Workflow(a), InferKey(a.sid.step)) in memo
    requires Slot(a.sid, 1, Decision) in log && log[Slot(a.sid, 1, Decision)].PPlan?
    requires AsStringMap(memo[(Workflow(a), InferKey(a.sid.step))]) != Some(log[Slot(a.sid, 1, Decision)].plan)
    ensures var f := RunOn(log, memo, AtContext(a), outs);
      f.log == log && f.memo == memo && f.events == [] && f.w.Failed?
  {
    hide RunOn;
    Unroll(log, memo, AtContext(a), outs, Local(log, memo, AtInfer(a), Quiet));
    var w := WithPlan(a, memo[(Workflow(a), InferKey(a.sid.step))]);
    Unroll(log, memo, AtInfer(a), outs, Local(log, memo, w, Quiet));
    if w.Failed? {
      RunOnFinished(log, memo, w, outs);
    } else {
      Unroll(log, memo, w, outs, Local(log, memo, Failed(a, SlotConflict), Quiet));
      RunOnFinished(log, memo, Failed(a, SlotConflict), outs);
    }
  }

  /** The facts about a committed step that hold in every reachable state while no memo is lost. */
  ghost predicate Committed(wfOf: StepId -> string, log: Log, memo: Memo, sid: StepId, plan: Object) {
    && MemoOk(wfOf, log, memo) && Sealed(log, sid, plan) && ToolCalls(plan).Some?
    && Inferred(wfOf, memo, sid)
    && MemosBelow(wfOf, log, memo, sid, |SealedCalls(log, sid)|)
    && At(log, sid, CallSeq(|SealedCalls(log, sid)|), CommitStep, PCommit)
  }

  /**
   * Running a committed step again never changes log or memo, never calls the model and never
   * runs a tool body. It succeeds, with the logged results, exactly when the memoised inference
   * is the sealed plan.
   */
  lemma RepeatCommitted(wfOf: StepId -> string, log: Log, memo: Memo, a: Attempt, outs: Outs, plan: Object)
    requires Committed(wfOf, log, memo, a.sid, plan) && Repeats(wfOf, log, a)
    ensures var f := RunOn(log, memo, AtContext(a), outs);
      && f.log == log && f.memo == memo && f.events == []
      && (f.w.Done? <==> SamePlanMemoised(memo, Workflow(a), a.sid, plan))
      && (f.w.Done? ==> RunOk(log, f.w.r) && f.w.r.plan == plan && |f.w.r.results| == |f.w.r.calls|)
  {
    hide RunOn;
    if SamePlanMemoised(memo, Workflow(a), a.sid, plan) {
      var calls := ToolCalls(plan).value;
      var r := Run(a, plan, calls, []);
      PlanRuns(log, memo, a, outs, plan, calls);
      CommittedLoop(wfOf, log, memo, r, outs);
    } else {
      RepeatFails(log, memo, a, outs);
    }
  }

  lemma CommittedInRun(wfOf: StepId -> string, n: nat, acts: seq<Action>, sid: StepId, pos: nat) returns (plan: Object)
    requires OneStepPerWorkflow(wfOf)
    requires forall act | act in acts :: KeepsMemo(wfOf, act)
    requires Slot(sid, pos, CommitStep) in Exec(Init(n), acts).log
    ensures Committed(wfOf, Exec(Init(n), acts).log, Exec(Init(n), acts).memo, sid, plan)
  {
    var s := Exec(Init(n), acts);
    BackedInit(wfOf, n);
    BackedRun(wfOf, Init(n), acts);
    var commit, dec := Slot(sid, pos, CommitStep), Slot(sid, 1, Decision);
    assert Placed(s.log, commit, s.log[commit]) && Backed(wfOf, s.log, s.memo, commit);
    assert Placed(s.log, dec, s.log[dec]) && Backed(wfOf, s.log, s.memo, dec);
    plan := s.log[dec].plan;
  }

  /**
   * The same for a step committed under any interleaving. Another worker's inference may have
   * been memoised first, and then the repeated run is refused at DECISION.
   */
  lemma RerunOfCommittedStep(wfOf: StepId -> string, n: nat, acts: seq<Action>, a: Attempt, outs: Outs, pos: nat)
    requires OneStepPerWorkflow(wfOf)
    requires forall act | act in acts :: KeepsMemo(wfOf, act)
    requires Slot(a.sid, pos, CommitStep) in Exec(Init(n), acts).log && Repeats(wfOf, Exec(Init(n), acts).log, a)
    ensures var s := Exec(Init(n), acts); var f := RunOn(s.log, s.memo, AtContext(a), outs);
      && f.log == s.log && f.memo == s.memo && f.events == []
      && exists plan ::
           && Sealed(s.log, a.sid, plan)
           && (f.w.Done? <==> SamePlanMemoised(s.memo, Workflow(a), a.sid, plan))
           && (f.w.Done? ==> RunOk(s.log, f.w.r) && f.w.r.plan == plan && |f.w.r.results| == |f.w.r.calls|)
  {
    hide RunOn;
    var plan := CommittedInRun(wfOf, n, acts, a.sid, pos);
    RepeatCommitted(wfOf, Exec(Init(n), acts).log, Exec(Init(n), acts).memo, a, outs, plan);
  }

  /** With one worker at a time the repeated run always succeeds, with the logged plan and results. */
  lemma SoloRerunSucceeds(wfOf: StepId -> string, gate: string -> bool, acts: seq<Action>, a: Attempt, outs: Outs, pos: nat)
    requires OneStepPerWorkflow(wfOf)
    requires forall act | act in acts :: SoloAct(wfOf, gate, act)
    requires Slot(a.sid, pos, CommitStep) in Exec(Init(1), acts).log && Repeats(wfOf, Exec(Init(1), acts).log, a)
    ensures var s := Exec(Init(1), acts); var f := RunOn(s.log, s.memo, AtContext(a), outs);
      && f.log == s.log && f.memo == s.memo && f.events == []
      && f.w.Done? && RunOk(s.log, f.w.r) && |f.w.r.results| == |f.w.r.calls|
  {
    hide RunOn;
    var s := Exec(Init(1), acts);
    SoloInit(wfOf, gate);
    SoloRun(wfOf, gate, Init(1), acts);
    var plan := CommittedInRun(wfOf, 1, acts, a.sid, pos);
    assert Settled(wfOf, gate, s.log, s.memo, Slot(a.sid, 1, Decision));
    RepeatCommitted(wfOf, s.log, s.memo, a, outs, plan);
  }
}
