/**
 * Agreement with the log, under any interleaving of workers, crashes and memo losses, when
 * every workflow id belongs to one step: a successful run used the sealed plan and returns
 * the logged results, and a COMMIT_STEP closes a complete list of call and result pairs.
 */
module Agreement {
  import opened Base
  import opened SlotMap
  import opened Protocol

  // ---- What the log says about one step

  ghost predicate At(log: Log, sid: StepId, pos: nat, kind: Kind, p: Payload) {
    var slot := Slot(sid, pos, kind);
    slot in log && log[slot] == p
  }

  ghost predicate Sealed(log: Log, sid: StepId, plan: Object) {
    At(log, sid, 1, Decision, PPlan(plan))
  }

  /** A plan whose tool calls are well formed is sealed. */
  predicate WellSealed(log: Log, sid: StepId) {
    var slot := Slot(sid, 1, Decision);
    slot in log && log[slot].PPlan? && ToolCalls(log[slot].plan).Some?
  }

  /** The calls of the sealed plan, or none when no well-formed plan is sealed. */
  function SealedCalls(log: Log, sid: StepId): seq<Call> {
    if WellSealed(log, sid) then ToolCalls(log[Slot(sid, 1, Decision)].plan).value else []
  }

  /** The index of the call whose TOOL_CALL sits at `pos` or whose outcome sits there. */
  function Index(pos: nat): nat {
    if pos < 2 then 0 else (pos - 2) / 2
  }

  ghost predicate CallLogged(log: Log, sid: StepId, i: nat, c: Call) {
    At(log, sid, CallSeq(i), ToolCall, PCall(c))
  }

  ghost predicate ResultLogged(log: Log, sid: StepId, i: nat, v: Json) {
    At(log, sid, CallSeq(i) + 1, ToolResult, PResult(v))
  }

  ghost predicate HasResult(log: Log, sid: StepId, i: nat) {
    var slot := Slot(sid, CallSeq(i) + 1, ToolResult);
    slot in log && log[slot].PResult?
  }

  ghost predicate Pair(log: Log, sid: StepId, i: nat) {
    && i < |SealedCalls(log, sid)|
    && CallLogged(log, sid, i, SealedCalls(log, sid)[i])
    && HasResult(log, sid, i)
  }

  ghost predicate PairsBelow(log: Log, sid: StepId, n: nat) {
    forall i: nat {:trigger Pair(log, sid, i)} | i < n :: Pair(log, sid, i)
  }

  /** Where each kind of node may sit, and what must be logged before it. */
  ghost predicate Placed(log: Log, slot: Slot, p: Payload) {
    var sid, calls := slot.sid, SealedCalls(log, slot.sid);
    match slot.kind
    case ProjectContext => slot.pos == 0 && p.PContext?
    case Decision => slot.pos == 1 && p.PPlan? && Slot(sid, 0, ProjectContext) in log
    case ToolCall =>
      var i := Index(slot.pos);
      slot.pos == CallSeq(i) && i < |calls| && p == PCall(calls[i]) && PairsBelow(log, sid, i)
    case ToolResult =>
      var i := Index(slot.pos);
      && slot.pos == CallSeq(i) + 1 && i < |calls| && p.PResult?
      && CallLogged(log, sid, i, calls[i]) && PairsBelow(log, sid, i)
    case Abort =>
      var i := Index(slot.pos);
      && slot.pos == CallSeq(i) + 1 && i < |calls| && p == PAbort(calls[i].name)
      && CallLogged(log, sid, i, calls[i])
    case CommitStep =>
      slot.pos == CallSeq(|calls|) && p == PCommit && PairsBelow(log, sid, |calls|) && WellSealed(log, sid)
  }

  ghost predicate LogOk(log: Log) {
    forall slot {:trigger Placed(log, slot, log[slot])} | slot in log :: Placed(log, slot, log[slot])
  }

  // ---- What a worker knows

  ghost predicate CtxLogged(log: Log, a: Attempt) {
    At(log, a.sid, 0, ProjectContext, PContext(a.ctx))
  }

  ghost predicate Answered(log: Log, r: Run, i: nat) {
    && i < |r.results| && i < |r.calls|
    && CallLogged(log, r.a.sid, i, r.calls[i]) && ResultLogged(log, r.a.sid, i, r.results[i])
  }

  ghost predicate RunOk(log: Log, r: Run) {
    && CtxLogged(log, r.a)
    && Sealed(log, r.a.sid, r.plan)
    && ToolCalls(r.plan) == Some(r.calls)
    && |r.results| <= |r.calls|
    && forall i: nat {:trigger Answered(log, r, i)} | i < |r.results| :: Answered(log, r, i)
  }

  ghost predicate Calling(log: Log, r: Run) {
    RunOk(log, r) && r.HasNext()
  }

  ghost predicate Called(log: Log, r: Run) {
    Calling(log, r) && CallLogged(log, r.a.sid, |r.results|, r.Next())
  }

  /** The attempt uses the workflow id that belongs to its step. */
  predicate Home(wfOf: StepId -> string, a: Attempt) {
    Workflow(a) == wfOf(a.sid)
  }

  ghost predicate OneStepPerWorkflow(wfOf: StepId -> string) {
    forall x, y :: wfOf(x) == wfOf(y) ==> x == y
  }

  ghost predicate WorkerOk(wfOf: StepId -> string, log: Log, w: Worker) {
    match w
    case Idle => true
    case Failed(_, _) => true
    case AtContext(a) => Home(wfOf, a)
    case AtInfer(a) => Home(wfOf, a) && CtxLogged(log, a)
    case AtModel(a) => Home(wfOf, a) && CtxLogged(log, a)
    case AtInferSave(a, _) => Home(wfOf, a) && CtxLogged(log, a)
    case AtDecision(a, _) => Home(wfOf, a) && CtxLogged(log, a)
    case AtTool(r) => Home(wfOf, r.a) && RunOk(log, r)
    case AtClaim(r) => Home(wfOf, r.a) && Calling(log, r)
    case AtAbort(r) => Home(wfOf, r.a) && Called(log, r)
    case AtCall(r) => Home(wfOf, r.a) && Calling(log, r)
    case AtBody(r, _) => Home(wfOf, r.a) && Called(log, r)
    case AtResult(r, _) => Home(wfOf, r.a) && Called(log, r)
    case AtToolSave(r, v) =>
      Home(wfOf, r.a) && Called(log, r) && ResultLogged(log, r.a.sid, |r.results|, v)
    case Done(r) =>
      && Home(wfOf, r.a) && RunOk(log, r) && |r.results| == |r.calls|
      && At(log, r.a.sid, CallSeq(|r.calls|), CommitStep, PCommit)
  }

  /** A tool memo of a step's workflow holds the logged result of a logged call of the sealed plan. */
  ghost predicate MemoEntryOk(log: Log, sid: StepId, name: string, pos: nat, v: Json) {
    var i := Index(pos);
    && pos == CallSeq(i) && i < |SealedCalls(log, sid)| && SealedCalls(log, sid)[i].name == name
    && CallLogged(log, sid, i, SealedCalls(log, sid)[i]) && ResultLogged(log, sid, i, v)
  }

  ghost predicate MemoOk(wfOf: StepId -> string, log: Log, memo: Memo) {
    forall sid, name, pos {:trigger MemoEntryOk(log, sid, name, pos, memo[(wfOf(sid), ToolKey(name, pos))])} |
      (wfOf(sid), ToolKey(name, pos)) in memo ::
      MemoEntryOk(log, sid, name, pos, memo[(wfOf(sid), ToolKey(name, pos))])
  }

  ghost predicate Inv(wfOf: StepId -> string, s: State) {
    && LogOk(s.log)
    && MemoOk(wfOf, s.log, s.memo)
    && forall w | w in s.workers :: WorkerOk(wfOf, s.log, w)
  }

  // ---- Everything said about the log stays true while the log grows

  lemma PlacedStable(log: Log, log': Log, slot: Slot, p: Payload)
    requires Extends(log, log') && Placed(log, slot, p)
    ensures Placed(log', slot, p)
  {
    var sid := slot.sid;
    forall i: nat | Pair(log, sid, i) ensures Pair(log', sid, i) {}
    if SealedCalls(log, sid) != [] { assert SealedCalls(log', sid) == SealedCalls(log, sid); }
  }

  lemma RunOkStable(log: Log, log': Log, r: Run)
    requires Extends(log, log') && RunOk(log, r)
    ensures RunOk(log', r)
  {
    forall i: nat | i < |r.results| ensures Answered(log', r, i) { assert Answered(log, r, i); }
  }

  lemma WorkerOkStable(wfOf: StepId -> string, log: Log, log': Log, w: Worker)
    requires Extends(log, log') && WorkerOk(wfOf, log, w)
    ensures WorkerOk(wfOf, log', w)
  {
    match w
    case AtTool(r) => RunOkStable(log, log', r);
    case AtClaim(r) => RunOkStable(log, log', r);
    case AtAbort(r) => RunOkStable(log, log', r);
    case AtCall(r) => RunOkStable(log, log', r);
    case AtBody(r, _) => RunOkStable(log, log', r);
    case AtResult(r, _) => RunOkStable(log, log', r);
    case AtToolSave(r, _) => RunOkStable(log, log', r);
    case Done(r) => RunOkStable(log, log', r);
    case _ =>
  }

  lemma MemoOkStable(wfOf: StepId -> string, log: Log, log': Log, memo: Memo)
    requires Extends(log, log') && MemoOk(wfOf, log, memo)
    ensures MemoOk(wfOf, log', memo)
  {
    forall sid, name, pos | (wfOf(sid), ToolKey(name, pos)) in memo
      ensures MemoEntryOk(log', sid, name, pos, memo[(wfOf(sid), ToolKey(name, pos))])
    {
      assert MemoEntryOk(log, sid, name, pos, memo[(wfOf(sid), ToolKey(name, pos))]);
    }
  }

  // ---- Preservation

  lemma PutKeepsLog(log: Log, slot: Slot, p: Payload)
    requires LogOk(log)
    requires slot !in log ==> Placed(log, slot, p)
    ensures Extends(log, Put(log, slot, p)) && LogOk(Put(log, slot, p))
  {
    var log' := Put(log, slot, p);
    forall t | t in log' ensures Placed(log', t, log'[t]) {
      PlacedStable(log, log', t, log'[t]);
    }
  }

  lemma PairsFromRun(log: Log, r: Run)
    requires RunOk(log, r)
    ensures SealedCalls(log, r.a.sid) == r.calls && PairsBelow(log, r.a.sid, |r.results|)
  {
    forall i: nat | i < |r.results| ensures Pair(log, r.a.sid, i) { assert Answered(log, r, i); }
  }

  /** A worker appends a node that has its place, and every invariant survives. */
  lemma AppendKeeps(wfOf: StepId -> string, log: Log, memo: Memo, slot: Slot, p: Payload)
    requires LogOk(log) && MemoOk(wfOf, log, memo)
    requires slot !in log ==> Placed(log, slot, p)
    ensures var log' := Put(log, slot, p);
      Extends(log, log') && LogOk(log') && MemoOk(wfOf, log', memo)
  {
    PutKeepsLog(log, slot, p);
    MemoOkStable(wfOf, log, Put(log, slot, p), memo);
  }

  lemma SaveKeeps(wfOf: StepId -> string, log: Log, memo: Memo, r: Run, v: Json)
    requires OneStepPerWorkflow(wfOf) && MemoOk(wfOf, log, memo)
    requires WorkerOk(wfOf, log, AtToolSave(r, v))
    ensures MemoOk(wfOf, log, Put(memo, r.Key(), v))
  {
    PairsFromRun(log, r);
    assert Index(r.Pos()) == |r.results|;
  }

  ghost predicate Good(wfOf: StepId -> string, log: Log, memo: Memo, w: Worker) {
    LogOk(log) && MemoOk(wfOf, log, memo) && WorkerOk(wfOf, log, w)
  }

  ghost predicate StaysGood(wfOf: StepId -> string, log: Log, l: Local) {
    Extends(log, l.log) && Good(wfOf, l.log, l.memo, l.w)
  }

  lemma PlanningKeeps(wfOf: StepId -> string, log: Log, memo: Memo, w: Worker, out: Outcome)
    requires Good(wfOf, log, memo, w)
    requires w.AtContext? || w.AtInfer? || w.AtModel? || w.AtInferSave? || w.AtDecision?
    ensures StaysGood(wfOf, log, StepWorker(log, memo, w, out))
  {
    hide ToolCalls, ValidAttempt;
    match w
    case AtContext(a) =>
      AppendKeeps(wfOf, log, memo, Slot(a.sid, 0, ProjectContext), PContext(a.ctx));
    case AtDecision(a, plan) =>
      AppendKeeps(wfOf, log, memo, Slot(a.sid, 1, Decision), PPlan(plan));
      WorkerOkStable(wfOf, log, Put(log, Slot(a.sid, 1, Decision), PPlan(plan)), w);
    case AtInfer(a) =>
    case AtModel(a) =>
    case AtInferSave(a, v) =>
  }

  lemma PushOk(log: Log, r: Run, v: Json)
    requires Called(log, r) && ResultLogged(log, r.a.sid, |r.results|, v)
    ensures RunOk(log, r.Push(v))
  {
    forall i: nat | i < |r.Push(v).results| ensures Answered(log, r.Push(v), i) {
      if i < |r.results| { assert Answered(log, r, i); }
    }
  }

  lemma CommitKeeps(wfOf: StepId -> string, log: Log, memo: Memo, r: Run, out: Outcome)
    requires Good(wfOf, log, memo, AtTool(r)) && !r.HasNext()
    ensures StaysGood(wfOf, log, StepWorker(log, memo, AtTool(r), out))
  {
    PairsFromRun(log, r);
    var slot := Slot(r.a.sid, CallSeq(|r.calls|), CommitStep);
    AppendKeeps(wfOf, log, memo, slot, PCommit);
    WorkerOkStable(wfOf, log, Put(log, slot, PCommit), AtTool(r));
    if slot in log { assert Placed(log, slot, log[slot]); }
  }

  lemma LoadKeeps(wfOf: StepId -> string, log: Log, memo: Memo, r: Run, out: Outcome)
    requires Good(wfOf, log, memo, AtTool(r)) && r.HasNext()
    ensures StaysGood(wfOf, log, StepWorker(log, memo, AtTool(r), out))
  {
    if r.Key() in memo {
      PairsFromRun(log, r);
      assert Index(r.Pos()) == |r.results|;
      assert MemoEntryOk(log, r.a.sid, r.Next().name, r.Pos(), memo[r.Key()]);
      PushOk(log, r, memo[r.Key()]);
    }
  }

  /** A claim that fails finds the very call that the sealed plan puts there. */
  lemma ClaimKeeps(wfOf: StepId -> string, log: Log, memo: Memo, w: Worker, out: Outcome)
    requires (w.AtClaim? || w.AtCall?) && Good(wfOf, log, memo, w)
    ensures StaysGood(wfOf, log, StepWorker(log, memo, w, out))
  {
    var r := w.r;
    var slot := Slot(r.a.sid, r.Pos(), ToolCall);
    PairsFromRun(log, r);
    assert Index(r.Pos()) == |r.results|;
    AppendKeeps(wfOf, log, memo, slot, PCall(r.Next()));
    WorkerOkStable(wfOf, log, Put(log, slot, PCall(r.Next())), w);
    if slot in log { assert Placed(log, slot, log[slot]); }
  }

  lemma AbortKeeps(wfOf: StepId -> string, log: Log, memo: Memo, r: Run, out: Outcome)
    requires Good(wfOf, log, memo, AtAbort(r))
    ensures StaysGood(wfOf, log, StepWorker(log, memo, AtAbort(r), out))
  {
    PairsFromRun(log, r);
    assert Index(r.Pos() + 1) == |r.results|;
    AppendKeeps(wfOf, log, memo, Slot(r.a.sid, r.Pos() + 1, Abort), PAbort(r.Next().name));
  }

  lemma ResultKeeps(wfOf: StepId -> string, log: Log, memo: Memo, r: Run, v: Json, out: Outcome)
    requires Good(wfOf, log, memo, AtResult(r, v))
    ensures StaysGood(wfOf, log, StepWorker(log, memo, AtResult(r, v), out))
  {
    PairsFromRun(log, r);
    assert Index(r.Pos() + 1) == |r.results|;
    var slot := Slot(r.a.sid, r.Pos() + 1, ToolResult);
    AppendKeeps(wfOf, log, memo, slot, PResult(v));
    WorkerOkStable(wfOf, log, Put(log, slot, PResult(v)), AtResult(r, v));
  }

  lemma SavedKeeps(wfOf: StepId -> string, log: Log, memo: Memo, r: Run, v: Json, out: Outcome)
    requires OneStepPerWorkflow(wfOf) && Good(wfOf, log, memo, AtToolSave(r, v))
    ensures StaysGood(wfOf, log, StepWorker(log, memo, AtToolSave(r, v), out))
  {
    SaveKeeps(wfOf, log, memo, r, v);
    PushOk(log, r, v);
  }

  /** One atomic step of one worker keeps the log well placed, the memo truthful and the worker informed. */
  lemma WorkerStepKeeps(wfOf: StepId -> string, log: Log, memo: Memo, w: Worker, out: Outcome)
    requires OneStepPerWorkflow(wfOf) && Good(wfOf, log, memo, w)
    ensures StaysGood(wfOf, log, StepWorker(log, memo, w, out))
  {
    match w
    case AtTool(r) => if r.HasNext() { LoadKeeps(wfOf, log, memo, r, out); } else { CommitKeeps(wfOf, log, memo, r, out); }
    case AtClaim(_) => ClaimKeeps(wfOf, log, memo, w, out);
    case AtCall(_) => ClaimKeeps(wfOf, log, memo, w, out);
    case AtAbort(r) => AbortKeeps(wfOf, log, memo, r, out);
    case AtBody(_, _) =>
    case AtResult(r, v) => ResultKeeps(wfOf, log, memo, r, v, out);
    case AtToolSave(r, v) => SavedKeeps(wfOf, log, memo, r, v, out);
    case Idle =>
    case Done(_) =>
    case Failed(_, _) =>
    case _ => PlanningKeeps(wfOf, log, memo, w, out);
  }

  predicate Allowed(wfOf: StepId -> string, act: Action) {
    match act
    case Start(_, a) => Home(wfOf, a)
    case Foreign(_, _) => false
    case _ => true
  }

  lemma AdvanceKeeps(wfOf: StepId -> string, s: State, w: nat, l: Local)
    requires Inv(wfOf, s) && w < |s.workers|
    requires StaysGood(wfOf, s.log, l)
    ensures Inv(wfOf, Advance(s, w, l))
  {
    forall x | x in s.workers ensures WorkerOk(wfOf, l.log, x) {
      WorkerOkStable(wfOf, s.log, l.log, x);
    }
  }

  lemma StepKeeps(wfOf: StepId -> string, s: State, act: Action)
    requires OneStepPerWorkflow(wfOf) && Inv(wfOf, s) && Allowed(wfOf, act)
    ensures Inv(wfOf, Next(s, act)) && Extends(s.log, Next(s, act).log)
  {
    if act.Step? && act.w < |s.workers| {
      WorkerStepKeeps(wfOf, s.log, s.memo, s.workers[act.w], act.out);
      AdvanceKeeps(wfOf, s, act.w, StepWorker(s.log, s.memo, s.workers[act.w], act.out));
    }
  }

  lemma {:induction false} RunKeeps(wfOf: StepId -> string, s: State, acts: seq<Action>)
    requires OneStepPerWorkflow(wfOf) && Inv(wfOf, s)
    requires forall act | act in acts :: Allowed(wfOf, act)
    ensures Inv(wfOf, Exec(s, acts)) && Extends(s.log, Exec(s, acts).log)
    decreases |acts|
  {
    if acts != [] {
      StepKeeps(wfOf, s, acts[0]);
      RunKeeps(wfOf, Next(s, acts[0]), acts[1..]);
    }
  }

  // ---- Main results

  lemma InitInv(wfOf: StepId -> string, n: nat)
    ensures Inv(wfOf, Init(n))
  {
  }

  predicate Succeeded(s: State, w: nat, r: Run) {
    w < |s.workers| && s.workers[w] == Done(r)
  }

  /**
   * A successful RunStep used exactly the plan in the logged DECISION, returns exactly the
   * values in the logged TOOL_RESULT nodes, one for every call, and is committed.
   */
  lemma SuccessfulRunMatchesLog(wfOf: StepId -> string, n: nat, acts: seq<Action>, w: nat, r: Run)
    requires OneStepPerWorkflow(wfOf)
    requires forall act | act in acts :: Allowed(wfOf, act)
    requires Succeeded(Exec(Init(n), acts), w, r)
    ensures var log := Exec(Init(n), acts).log;
      && Sealed(log, r.a.sid, r.plan) && ToolCalls(r.plan) == Some(r.calls)
      && |r.results| == |r.calls|
      && (forall i: nat | i < |r.calls| :: Answered(log, r, i))
      && At(log, r.a.sid, CallSeq(|r.calls|), CommitStep, PCommit)
  {
    InitInv(wfOf, n);
    RunKeeps(wfOf, Init(n), acts);
    assert WorkerOk(wfOf, Exec(Init(n), acts).log, Done(r));
  }

  lemma StepGrowsLog(log: Log, memo: Memo, w: Worker, out: Outcome)
    ensures Extends(log, StepWorker(log, memo, w, out).log)
  {
  }

  /** The log only grows, so a sealed plan is never replaced; this needs no hypothesis on the run. */
  lemma {:induction false} LogOnlyGrows(s: State, acts: seq<Action>)
    ensures Extends(s.log, Exec(s, acts).log)
    decreases |acts|
  {
    if acts != [] {
      if acts[0].Step? && acts[0].w < |s.workers| {
        StepGrowsLog(s.log, s.memo, s.workers[acts[0].w], acts[0].out);
      }
      LogOnlyGrows(Next(s, acts[0]), acts[1..]);
    }
  }

  /** Two runs of one step that both succeed agree, even when model and tools are nondeterministic. */
  lemma SuccessfulRunsAgree(wfOf: StepId -> string, n: nat, acts: seq<Action>, later: seq<Action>,
                            v: nat, r: Run, w: nat, r': Run)
    requires OneStepPerWorkflow(wfOf)
    requires forall act | act in acts || act in later :: Allowed(wfOf, act)
    requires Succeeded(Exec(Init(n), acts), v, r)
    requires Succeeded(Exec(Exec(Init(n), acts), later), w, r')
    requires r.a.sid == r'.a.sid
    ensures r.plan == r'.plan && r.calls == r'.calls && r.results == r'.results
  {
    var s := Exec(Init(n), acts);
    var log := Exec(s, later).log;
    InitInv(wfOf, n);
    RunKeeps(wfOf, Init(n), acts);
    RunKeeps(wfOf, s, later);
    assert WorkerOk(wfOf, s.log, Done(r)) && WorkerOk(wfOf, log, Done(r'));
    WorkerOkStable(wfOf, s.log, log, Done(r));
    forall i: nat | i < |r.calls| ensures r.results[i] == r'.results[i] {
      assert Answered(log, r, i) && Answered(log, r', i);
    }
  }

  /** A logged COMMIT_STEP closes a complete step: a call and a result for every call of the sealed plan. */
  lemma CommitIsComplete(wfOf: StepId -> string, n: nat, acts: seq<Action>, sid: StepId, pos: nat)
    requires OneStepPerWorkflow(wfOf)
    requires forall act | act in acts :: Allowed(wfOf, act)
    requires Slot(sid, pos, CommitStep) in Exec(Init(n), acts).log
    ensures var log := Exec(Init(n), acts).log;
      && pos == CallSeq(|SealedCalls(log, sid)|)
      && PairsBelow(log, sid, |SealedCalls(log, sid)|)
  {
    InitInv(wfOf, n);
    RunKeeps(wfOf, Init(n), acts);
    var log := Exec(Init(n), acts).log;
    assert Placed(log, Slot(sid, pos, CommitStep), log[Slot(sid, pos, CommitStep)]);
  }
}
