/**
 * What happens when steps share a workflow id, which the results on agreement rule out: the exact
 * condition under which a committed step is complete and agrees with its log, and runs that fail it.
 */
module SharedMemos {
  import opened Base
  import opened SlotMap
  import opened Protocol
  import opened Agreement
  import opened Recovery
  import opened Resumption

  // ---- Steps that share a workflow id share tool memos

  /** A tool loop that ends well either read the memo of its next call or made the call. */
  lemma LoopTurn(log: Log, memo: Memo, r: Run, outs: Outs)
    requires r.HasNext() && RunOn(log, memo, AtTool(r), outs).w.Done?
    ensures r.Key() in memo ==> RunOn(log, memo, AtTool(r), outs) == RunOn(log, memo, AtTool(r.Push(memo[r.Key()])), outs)
    ensures r.Key() !in memo ==>
      && outs.tool(|r.results|).Value? && CanCall(log, memo, r, outs.tool(|r.results|).v)
  {
    hide RunOn;
    var w1 := StepWorker(log, memo, AtTool(r), outs.model).w;
    Unroll(log, memo, AtTool(r), outs, Local(log, memo, w1, Quiet));
    if w1.Failed? {
      RunOnFinished(log, memo, w1, outs);
    } else if !w1.AtTool? {
      ClaimTurn(log, memo, r, w1, outs);
    }
  }

  lemma ClaimTurn(log: Log, memo: Memo, r: Run, w: Worker, outs: Outs)
    requires r.HasNext() && (w == AtClaim(r) || w == AtCall(r)) && RunOn(log, memo, w, outs).w.Done?
    ensures w.AtClaim? ==> Slot(r.a.sid, r.Pos(), ToolCall) !in log
    ensures w.AtCall? ==> Accepts(log, Slot(r.a.sid, r.Pos(), ToolCall), PCall(r.Next()))
    ensures outs.tool(|r.results|).Value?
    ensures Accepts(log, Slot(r.a.sid, r.Pos() + 1, ToolResult), PResult(outs.tool(|r.results|).v))
  {
    hide RunOn;
    var l := StepWorker(log, memo, w, outs.model);
    Unroll(log, memo, w, outs, l);
    if l.w.Failed? {
      RunOnFinished(l.log, memo, l.w, outs);
    } else if l.w.AtAbort? {
      var l2 := StepWorker(l.log, memo, l.w, outs.model);
      Unroll(l.log, memo, l.w, outs, l2);
      RunOnFinished(l2.log, memo, l2.w, outs);
    } else {
      BodyTurn(l.log, memo, r, l.w, outs);
    }
  }

  lemma BodyTurn(log: Log, memo: Memo, r: Run, w: Worker, outs: Outs)
    requires r.HasNext() && w.AtBody? && w.r == r && RunOn(log, memo, w, outs).w.Done?
    ensures outs.tool(|r.results|).Value?
    ensures Accepts(log, Slot(r.a.sid, r.Pos() + 1, ToolResult), PResult(outs.tool(|r.results|).v))
  {
    hide RunOn;
    var l := StepWorker(log, memo, w, outs.tool(|r.results|));
    Unroll(log, memo, w, outs, l);
    if l.w.Failed? {
      RunOnFinished(log, memo, l.w, outs);
    } else {
      var l2 := StepWorker(log, memo, l.w, outs.model);
      Unroll(log, memo, l.w, outs, l2);
      if l2.w.Failed? { RunOnFinished(l2.log, memo, l2.w, outs); }
    }
  }

  function Peek(log: Log, slot: Slot): Option<Payload> {
    if slot in log then Some(log[slot]) else None
  }

  function CallAt(log: Log, r: Run, i: nat): Option<Payload> {
    Peek(log, Slot(r.a.sid, CallSeq(i), ToolCall))
  }

  function ResultAt(log: Log, r: Run, i: nat): Option<Payload> {
    Peek(log, Slot(r.a.sid, CallSeq(i) + 1, ToolResult))
  }

  function KeyAt(r: Run, i: nat): (string, MemoKey)
    requires i < |r.calls|
  {
    (Workflow(r.a), ToolKey(r.calls[i].name, CallSeq(i)))
  }

  /** The events hold the run of a body at that place. */
  ghost predicate RanAt(events: seq<Event>, sid: StepId, i: nat) {
    exists e :: e in events && e.RanBody? && e.place == Place(sid, CallSeq(i))
  }

  lemma RanAtPrepended(e: Event, f: Final, sid: StepId, i: nat)
    ensures RanAt(Prepend(e, f).events, sid, i) <==> RanAt(f.events, sid, i) || (e.RanBody? && e.place == Place(sid, CallSeq(i)))
  {
    assert !e.Quiet? ==> Prepend(e, f).events == [e] + f.events;
  }

  /** The rest of the loop keeps the run's identity and results, and the slots of earlier calls. */
  lemma {:induction false} LaterCallsElsewhere(log: Log, memo: Memo, r: Run, outs: Outs, i: nat)
    requires |r.results| <= |r.calls| && RunOn(log, memo, AtTool(r), outs).w.Done?
    ensures var f := RunOn(log, memo, AtTool(r), outs);
      && f.w.r.a == r.a && f.w.r.plan == r.plan && f.w.r.calls == r.calls && |f.w.r.results| == |r.calls| && r.results <= f.w.r.results
      && At(f.log, r.a.sid, CallSeq(|r.calls|), CommitStep, PCommit)
      && (i < |r.results| ==>
            CallAt(f.log, r, i) == CallAt(log, r, i) && ResultAt(f.log, r, i) == ResultAt(log, r, i) && !RanAt(f.events, r.a.sid, i))
    decreases |r.calls| - |r.results|
  {
    hide RunOn, StepWorker;
    if r.HasNext() {
      LoopTurn(log, memo, r, outs);
      var v := if r.Key() in memo then memo[r.Key()] else outs.tool(|r.results|).v;
      var log' := if r.Key() in memo then log else CallLog(log, r, v);
      if r.Key() !in memo {
        CallRuns(log, memo, r, outs);
        RanAtPrepended(RanBody(Place(r.a.sid, r.Pos()), r.Next().name, r.Gated()),
                       RunOn(log', Put(memo, r.Key(), v), AtTool(r.Push(v)), outs), r.a.sid, i);
      }
      LaterCallsElsewhere(log', Put(memo, r.Key(), v), r.Push(v), outs, i);
    } else {
      LoopEnd(log, memo, r, outs);
    }
  }

  /** What call i of a committing run leaves, in terms of the stores before the run. */
  ghost predicate CallOutcome(log: Log, memo: Memo, r: Run, outs: Outs, i: nat, f: Final)
    requires i < |r.calls| && f.w.Done? && i < |f.w.r.results|
  {
    if KeyAt(r, i) in memo then
      && f.w.r.results[i] == memo[KeyAt(r, i)]
      && CallAt(f.log, r, i) == CallAt(log, r, i) && ResultAt(f.log, r, i) == ResultAt(log, r, i)
      && !RanAt(f.events, r.a.sid, i)
    else
      && outs.tool(i) == Value(f.w.r.results[i])
      && CallAt(f.log, r, i) == Some(PCall(r.calls[i])) && ResultAt(f.log, r, i) == Some(PResult(f.w.r.results[i]))
      && RanAt(f.events, r.a.sid, i)
  }

  /** This call was made by the loop, or read from the memo; then only later calls follow. */
  lemma CallNow(log: Log, memo: Memo, r: Run, outs: Outs)
    requires r.HasNext() && RunOn(log, memo, AtTool(r), outs).w.Done?
    ensures var f := RunOn(log, memo, AtTool(r), outs);
      && f.w.r.a == r.a && |f.w.r.results| == |r.calls|
      && CallOutcome(log, memo, r, outs, |r.results|, f)
  {
    hide RunOn, StepWorker;
    var i := |r.results|;
    LoopTurn(log, memo, r, outs);
    if r.Key() in memo {
      LaterCallsElsewhere(log, memo, r.Push(memo[r.Key()]), outs, i);
    } else {
      var v := outs.tool(i).v;
      CallRuns(log, memo, r, outs);
      LaterCallsElsewhere(CallLog(log, r, v), Put(memo, r.Key(), v), r.Push(v), outs, i);
      RanAtPrepended(RanBody(Place(r.a.sid, r.Pos()), r.Next().name, r.Gated()),
                     RunOn(CallLog(log, r, v), Put(memo, r.Key(), v), AtTool(r.Push(v)), outs), r.a.sid, i);
    }
  }

  lemma OtherCallNow(log: Log, memo: Memo, r: Run, v: Json, i: nat)
    requires r.HasNext() && |r.results| < i < |r.calls|
    ensures KeyAt(r, i) in Put(memo, r.Key(), v) <==> KeyAt(r, i) in memo
    ensures KeyAt(r, i) in memo ==> Put(memo, r.Key(), v)[KeyAt(r, i)] == memo[KeyAt(r, i)]
    ensures CallAt(CallLog(log, r, v), r, i) == CallAt(log, r, i) && ResultAt(CallLog(log, r, v), r, i) == ResultAt(log, r, i)
  {}

  lemma {:induction false} LoopOutcome(log: Log, memo: Memo, r: Run, outs: Outs, i: nat)
    requires |r.results| <= i < |r.calls| && RunOn(log, memo, AtTool(r), outs).w.Done?
    ensures var f := RunOn(log, memo, AtTool(r), outs);
      && f.w.r.a == r.a && |f.w.r.results| == |r.calls|
      && CallOutcome(log, memo, r, outs, i, f)
    decreases |r.calls| - |r.results|
  {
    hide RunOn, StepWorker;
    if i == |r.results| {
      CallNow(log, memo, r, outs);
    } else {
      LoopTurn(log, memo, r, outs);
      if r.Key() in memo {
        LoopOutcome(log, memo, r.Push(memo[r.Key()]), outs, i);
      } else {
        var v := outs.tool(|r.results|).v;
        CallRuns(log, memo, r, outs);
        OtherCallNow(log, memo, r, v, i);
        RanAtPrepended(RanBody(Place(r.a.sid, r.Pos()), r.Next().name, r.Gated()),
                       RunOn(CallLog(log, r, v), Put(memo, r.Key(), v), AtTool(r.Push(v)), outs), r.a.sid, i);
        LoopOutcome(CallLog(log, r, v), Put(memo, r.Key(), v), r.Push(v), outs, i);
      }
    }
  }

  /** A RunStep that commits got through its planning. */
  lemma PlanTurn(log: Log, memo: Memo, a: Attempt, outs: Outs) returns (plan: Object, calls: seq<Call>)
    requires RunOn(log, memo, AtContext(a), outs).w.Done?
    ensures ValidAttempt(a) && PlanIs(memo, a, outs, plan) && ToolCalls(plan) == Some(calls)
    ensures Accepts(log, Slot(a.sid, 0, ProjectContext), PContext(a.ctx)) && Accepts(log, Slot(a.sid, 1, Decision), PPlan(plan))
  {
    hide RunOn, ToolCalls, ValidAttempt;
    var l := StepWorker(log, memo, AtContext(a), outs.model);
    Unroll(log, memo, AtContext(a), outs, l);
    if l.w.Failed? { RunOnFinished(l.log, memo, l.w, outs); }
    plan := InferTurn(l.log, memo, a, outs);
    var memo' := if PlanEvent(memo, a).Quiet? then memo else PlanMemo(memo, a, outs);
    InferRuns(l.log, memo, a, outs, plan);
    var l2 := StepWorker(l.log, memo', AtDecision(a, plan), outs.model);
    Unroll(l.log, memo', AtDecision(a, plan), outs, l2);
    if l2.w.Failed? { RunOnFinished(l2.log, memo', l2.w, outs); }
    calls := l2.w.r.calls;
  }

  lemma InferTurn(log: Log, memo: Memo, a: Attempt, outs: Outs) returns (plan: Object)
    requires RunOn(log, memo, AtInfer(a), outs).w.Done?
    ensures PlanIs(memo, a, outs, plan)
  {
    hide RunOn, ToolCalls, ValidAttempt;
    var l := StepWorker(log, memo, AtInfer(a), outs.model);
    Unroll(log, memo, AtInfer(a), outs, l);
    if l.w.Failed? {
      RunOnFinished(log, memo, l.w, outs);
    } else if l.w.AtDecision? {
      plan := l.w.plan;
    } else {
      var l2 := StepWorker(log, memo, l.w, outs.model);
      Unroll(log, memo, l.w, outs, l2);
      if l2.w.Failed? { RunOnFinished(log, memo, l2.w, outs); }
      var l3 := StepWorker(log, memo, l2.w, outs.model);
      Unroll(log, memo, l2.w, outs, l3);
      if l3.w.Failed? { RunOnFinished(log, l3.memo, l3.w, outs); }
      plan := l3.w.plan;
    }
  }

  /** The log before the run already answers call i with the value that the memo has for it. */
  ghost predicate AnsweredBefore(log: Log, memo: Memo, r: Run, i: nat)
    requires i < |r.calls|
  {
    && KeyAt(r, i) in memo
    && CallAt(log, r, i) == Some(PCall(r.calls[i])) && ResultAt(log, r, i) == Some(PResult(memo[KeyAt(r, i)]))
  }

  /**
   * With no hypothesis on workflow ids, in terms of log and memo before a crash-free RunStep that
   * commits: TOOL_CALL and TOOL_RESULT of call i are in the log exactly when they were before or
   * the memo had no entry `name@seq` under the workflow id; and the returned value is the logged
   * one, for the logged call, exactly when there was no entry or the log already held both with
   * the entry's value; and its body runs exactly when there was no entry. The key carries no
   * step number, so the entry may stem from another step.
   */
  lemma CommittedCallIff(log: Log, memo: Memo, a: Attempt, outs: Outs, i: nat)
    requires RunOn(log, memo, AtContext(a), outs).w.Done? && i < |RunOn(log, memo, AtContext(a), outs).w.r.calls|
    ensures var f := RunOn(log, memo, AtContext(a), outs);
      var r := f.w.r;
      var missing := KeyAt(r, i) !in memo;
      && r.a == a && |r.results| == |r.calls| && Sealed(f.log, a.sid, r.plan) && ToolCalls(r.plan) == Some(r.calls)
      && (CallAt(f.log, r, i).Some? <==> CallAt(log, r, i).Some? || missing)
      && (ResultAt(f.log, r, i).Some? <==> ResultAt(log, r, i).Some? || missing)
      && (ResultAt(f.log, r, i) == Some(PResult(r.results[i])) <==> missing || ResultAt(log, r, i) == Some(PResult(memo[KeyAt(r, i)])))
      && (Answered(f.log, r, i) <==> AnsweredBefore(log, memo, r, i) || missing)
      && (RanAt(f.events, a.sid, i) <==> missing)
  {
    hide RunOn, StepWorker, ToolCalls, ValidAttempt;
    var plan, calls := PlanTurn(log, memo, a, outs);
    PlanRuns(log, memo, a, outs, plan, calls);
    var memo' := if PlanEvent(memo, a).Quiet? then memo else PlanMemo(memo, a, outs);
    var log', r0 := PlanLog(log, a, plan), Run(a, plan, calls, []);
    LaterCallsElsewhere(log', memo', r0, outs, 0);
    LoopOutcome(log', memo', r0, outs, i);
    RanAtPrepended(PlanEvent(memo, a), RunOn(log', memo', AtTool(r0), outs), a.sid, i);
    LoopKeepsSeal(log', memo', r0, outs);
  }

  /** The loop leaves DECISION alone. */
  lemma {:induction false} LoopKeepsSeal(log: Log, memo: Memo, r: Run, outs: Outs)
    requires |r.results| <= |r.calls| && RunOn(log, memo, AtTool(r), outs).w.Done?
    ensures Peek(RunOn(log, memo, AtTool(r), outs).log, Slot(r.a.sid, 1, Decision)) == Peek(log, Slot(r.a.sid, 1, Decision))
    decreases |r.calls| - |r.results|
  {
    hide RunOn, StepWorker;
    if r.HasNext() {
      LoopTurn(log, memo, r, outs);
      var v := if r.Key() in memo then memo[r.Key()] else outs.tool(|r.results|).v;
      var log' := if r.Key() in memo then log else CallLog(log, r, v);
      if r.Key() !in memo { CallRuns(log, memo, r, outs); }
      LoopKeepsSeal(log', Put(memo, r.Key(), v), r.Push(v), outs);
    } else {
      LoopEnd(log, memo, r, outs);
    }
  }

  /**
   * So a committed step is complete and agrees with its log exactly when every call that the
   * memo answered was, before the run, logged with the memo's value.
   */
  lemma CommittedStepAgreesIff(log: Log, memo: Memo, a: Attempt, outs: Outs)
    requires RunOn(log, memo, AtContext(a), outs).w.Done?
    ensures var f := RunOn(log, memo, AtContext(a), outs);
      var r := f.w.r;
      (forall i: nat | i < |r.calls| :: Answered(f.log, r, i))
        <==> forall i: nat | i < |r.calls| && KeyAt(r, i) in memo :: AnsweredBefore(log, memo, r, i)
  {
    hide RunOn, Answered, ToolCalls;
    var r := RunOn(log, memo, AtContext(a), outs).w.r;
    forall i: nat | i < |r.calls|
      ensures Answered(RunOn(log, memo, AtContext(a), outs).log, r, i) <==> KeyAt(r, i) !in memo || AnsweredBefore(log, memo, r, i)
    {
      CommittedCallIff(log, memo, a, outs, i);
    }
  }

  lemma LoopEnd(log: Log, memo: Memo, r: Run, outs: Outs)
    requires |r.results| == |r.calls|
    ensures var slot := Slot(r.a.sid, CallSeq(|r.calls|), CommitStep);
      RunOn(log, memo, AtTool(r), outs)
        == Final(Put(log, slot, PCommit), memo, if Accepts(log, slot, PCommit) then Done(r) else Failed(r.a, SlotConflict), [])
  {
    var l := StepWorker(log, memo, AtTool(r), outs.model);
    Unroll(log, memo, AtTool(r), outs, l);
    RunOnFinished(l.log, memo, l.w, outs);
  }

  const PAY_CALL := Call("pay", map[])

  function PayPlan(): Object {
    map["tool_calls" := Arr([Obj(map["name" := Str("pay")])])]
  }

  /** A step of trajectory `j` with the default workflow id and one gated tool. */
  function PayAttempt(step: int): Attempt {
    Attempt(StepId("t", "j", step), "", map["pay" := NonIdempotentWrite], Live, map[])
  }

  function PayRun(step: int): Run {
    Run(PayAttempt(step), PayPlan(), [PAY_CALL], [])
  }

  lemma PayPlanParses()
    ensures ToolCalls(PayPlan()) == Some([PAY_CALL])
  {
    var item := Obj(map["name" := Str("pay")]);
    assert Get(item.members, "name") == Str("pay") && Get(item.members, "args") == Null;
    assert ParseCall(item) == Some(PAY_CALL);
    assert ParseCalls([item][1..]) == Some([]);
    assert [PAY_CALL] + [] == [PAY_CALL];
  }

  lemma PayAttemptIsValid(step: int)
    ensures ValidAttempt(PayAttempt(step))
  {
  }

  function PayOuts(v: Json): Outs {
    Outs(Value(Obj(PayPlan())), (i: nat) => Value(v))
  }

  lemma FirstPayStep(v: Json)
    ensures var r := PayRun(1);
      RunOn(map[], map[], AtContext(r.a), PayOuts(v))
        == Final(map[Slot(r.a.sid, 0, ProjectContext) := PContext(map[]), Slot(r.a.sid, 1, Decision) := PPlan(PayPlan()),
                     Slot(r.a.sid, 2, ToolCall) := PCall(PAY_CALL), Slot(r.a.sid, 3, ToolResult) := PResult(v),
                     Slot(r.a.sid, 4, CommitStep) := PCommit],
                 map[("j", InferKey(1)) := Obj(PayPlan()), ("j", ToolKey("pay", 2)) := v],
                 Done(r.Push(v)), [RanModel(r.a.sid), RanBody(Place(r.a.sid, 2), "pay", true)])
  {
    hide RunOn, StepWorker, ToolCalls;
    PayPlanParses();
    PayAttemptIsValid(1);
    var outs := PayOuts(v);
    var r := PayRun(1);
    PlanRuns(map[], map[], r.a, outs, PayPlan(), [PAY_CALL]);
    var log, memo := PlanLog(map[], r.a, PayPlan()), PlanMemo(map[], r.a, outs);
    CallRuns(log, memo, r, outs);
    LoopEnd(CallLog(log, r, v), Put(memo, r.Key(), v), r.Push(v), outs);
  }

  /**
   * Two steps of one trajectory, run one after the other with the default workflow id, both
   * calling the same gated tool first: the second commits, with the first one's result, without
   * running the tool and without logging a TOOL_CALL.
   */
  lemma DefaultWorkflowSkipsTool(v: Json)
    ensures var f := RunOn(map[], map[], AtContext(PayAttempt(1)), PayOuts(v));
      var g := RunOn(f.log, f.memo, AtContext(PayAttempt(2)), PayOuts(v));
      && f.w.Done? && g.w.Done? && g.w.r.results == f.w.r.results == [v]
      && CallAt(g.log, PayRun(2), 0) == None
      && g.events == [RanModel(StepId("t", "j", 2))]
      && Slot(StepId("t", "j", 2), CallSeq(1), CommitStep) in g.log
  {
    hide RunOn, StepWorker, ToolCalls, ValidAttempt;
    FirstPayStep(v);
    PayPlanParses();
    PayAttemptIsValid(2);
    var outs := PayOuts(v);
    var f := RunOn(map[], map[], AtContext(PayAttempt(1)), outs);
    var r := PayRun(2);
    PlanRuns(f.log, f.memo, r.a, outs, PayPlan(), [PAY_CALL]);
    var log, memo := PlanLog(f.log, r.a, PayPlan()), PlanMemo(f.memo, r.a, outs);
    MemoisedCall(log, memo, r, outs);
    LoopEnd(log, memo, r.Push(v), outs);
  }

  // ---- The same with a crash: the step's TOOL_CALL is its own, the result is another step's

  lemma Go(s: State, act: Action, s': State, rest: seq<Action>)
    requires Next(s, act) == s'
    ensures Exec(s, [act] + rest) == Exec(s', rest)
  {
    assert ([act] + rest)[1..] == rest;
  }

  lemma StepGoes(s: State, w: nat, out: Outcome, l: Local, rest: seq<Action>)
    requires w < |s.workers| && StepWorker(s.log, s.memo, s.workers[w], out) == l
    ensures Exec(s, [Step(w, out)] + rest) == Exec(Advance(s, w, l), rest)
  {
    hide StepWorker, Exec, Advance;
    Go(s, Step(w, out), Advance(s, w, l), rest);
  }

  function One(log: Log, memo: Memo, w: Worker, models: multiset<StepId>): State {
    State(log, memo, [w], models, multiset{}, multiset{})
  }

  /** A step claims its tool and dies before the body answers. */
  function ClaimAndCrash(a: Attempt, o: Outcome): seq<Action> {
    [Start(0, a)] + ([Step(0, o)] + ([Step(0, o)] + ([Step(0, o)] + ([Step(0, o)] + ([Step(0, o)] + ([Step(0, o)]
      + ([Step(0, o)] + ([Crash(0)] + []))))))))
  }

  function ClaimedLog(a: Attempt): Log {
    Put(PlanLog(map[], a, PayPlan()), Slot(a.sid, 2, ToolCall), PCall(PAY_CALL))
  }

  function PlannedMemo(step: int): Memo {
    map[("j", InferKey(step)) := Obj(PayPlan())]
  }

  lemma OneGoes(log: Log, memo: Memo, w: Worker, models: multiset<StepId>, o: Outcome, l: Local, rest: seq<Action>)
    requires StepWorker(log, memo, w, o) == l && l.event.Quiet?
    ensures Exec(One(log, memo, w, models), [Step(0, o)] + rest) == Exec(One(l.log, l.memo, l.w, models), rest)
  {
    hide StepWorker, Exec;
    Go(One(log, memo, w, models), Step(0, o), One(l.log, l.memo, l.w, models), rest);
  }

  lemma ModelGoes(log: Log, memo: Memo, a: Attempt, o: Outcome, v: Json, rest: seq<Action>)
    requires o == Value(v)
    ensures Exec(One(log, memo, AtModel(a), multiset{}), [Step(0, o)] + rest)
         == Exec(One(log, memo, AtInferSave(a, v), multiset{a.sid}), rest)
  {
    hide Exec, ToolCalls, ValidAttempt;
    assert StepWorker(log, memo, AtModel(a), o) == Local(log, memo, AtInferSave(a, v), RanModel(a.sid));
    hide StepWorker;
    assert multiset{} + multiset{a.sid} == multiset{a.sid};
    Go(One(log, memo, AtModel(a), multiset{}), Step(0, o), One(log, memo, AtInferSave(a, v), multiset{a.sid}), rest);
  }

  function InferredMemo(a: Attempt, plan: Object): Memo {
    map[(Workflow(a), InferKey(a.sid.step)) := Obj(plan)]
  }

  function ContextLog(a: Attempt): Log {
    map[Slot(a.sid, 0, ProjectContext) := PContext(a.ctx)]
  }

  lemma FirstSteps(a: Attempt, o: Outcome)
    requires ValidAttempt(a)
    ensures StepWorker(map[], map[], AtContext(a), o) == Local(ContextLog(a), map[], AtInfer(a), Quiet)
    ensures StepWorker(ContextLog(a), map[], AtInfer(a), o) == Local(ContextLog(a), map[], AtModel(a), Quiet)
  {
    hide ToolCalls, ValidAttempt;
  }

  lemma SealSteps(a: Attempt, plan: Object, calls: seq<Call>, o: Outcome)
    requires ToolCalls(plan) == Some(calls)
    ensures var memo := InferredMemo(a, plan);
      && StepWorker(ContextLog(a), map[], AtInferSave(a, Obj(plan)), o) == Local(ContextLog(a), memo, AtDecision(a, plan), Quiet)
      && StepWorker(ContextLog(a), memo, AtDecision(a, plan), o)
           == Local(PlanLog(map[], a, plan), memo, AtTool(Run(a, plan, calls, [])), Quiet)
  {
    hide ToolCalls, ValidAttempt;
  }

  /** From PROJECT_CONTEXT to the tool loop over empty stores, step by step. */
  lemma PlanningGoes(a: Attempt, plan: Object, calls: seq<Call>, o: Outcome, rest: seq<Action>)
    requires ValidAttempt(a) && ToolCalls(plan) == Some(calls) && o == Value(Obj(plan))
    ensures
      Exec(One(map[], map[], AtContext(a), multiset{}), [Step(0, o)] + ([Step(0, o)] + ([Step(0, o)] + ([Step(0, o)] + ([Step(0, o)] + rest)))))
        == Exec(One(PlanLog(map[], a, plan), InferredMemo(a, plan), AtTool(Run(a, plan, calls, [])), multiset{a.sid}), rest)
  {
    hide *;
    var none: Memo := map[];
    var log, memo := ContextLog(a), InferredMemo(a, plan);
    FirstSteps(a, o);
    SealSteps(a, plan, calls, o);
    var r4 := [Step(0, o)] + rest;
    var r3 := [Step(0, o)] + r4;
    var r2 := [Step(0, o)] + r3;
    OneGoes(map[], none, AtContext(a), multiset{}, o, Local(log, none, AtInfer(a), Quiet), [Step(0, o)] + r2);
    OneGoes(log, none, AtInfer(a), multiset{}, o, Local(log, none, AtModel(a), Quiet), r2);
    ModelGoes(log, none, a, o, Obj(plan), r3);
    OneGoes(log, none, AtInferSave(a, Obj(plan)), multiset{a.sid}, o, Local(log, memo, AtDecision(a, plan), Quiet), r4);
    OneGoes(log, memo, AtDecision(a, plan), multiset{a.sid}, o,
            Local(PlanLog(map[], a, plan), memo, AtTool(Run(a, plan, calls, [])), Quiet), rest);
  }

  lemma ClaimStep(step: int, log: Log, memo: Memo, o: Outcome)
    requires Slot(PayAttempt(step).sid, 2, ToolCall) !in log && ("j", ToolKey("pay", 2)) !in memo
    ensures var r := PayRun(step);
      && StepWorker(log, memo, AtTool(r), o) == Local(log, memo, AtClaim(r), Quiet)
      && StepWorker(log, memo, AtClaim(r), o)
           == Local(Put(log, Slot(r.a.sid, 2, ToolCall), PCall(PAY_CALL)), memo, AtBody(r, true), Quiet)
  {
    hide ToolCalls, ValidAttempt, PayPlan;
    var r := PayRun(step);
    assert r.HasNext() && r.Next() == PAY_CALL && r.Gated() && r.Pos() == 2 && Workflow(r.a) == "j";
  }

  lemma CrashGoes(log: Log, memo: Memo, w: Worker, models: multiset<StepId>)
    ensures Exec(One(log, memo, w, models), [Crash(0)] + []) == One(log, memo, Idle, models)
  {
    Go(One(log, memo, w, models), Crash(0), One(log, memo, Idle, models), []);
  }

  lemma ClaimGoes(step: int, o: Outcome)
    ensures var a := PayAttempt(step);
      Exec(One(PlanLog(map[], a, PayPlan()), PlannedMemo(step), AtTool(PayRun(step)), multiset{a.sid}),
           [Step(0, o)] + ([Step(0, o)] + ([Crash(0)] + [])))
        == One(ClaimedLog(a), PlannedMemo(step), Idle, multiset{a.sid})
  {
    hide StepWorker, Exec, ToolCalls, ValidAttempt, PayPlan, One;
    var r := PayRun(step);
    var a := r.a;
    var log, memo := PlanLog(map[], a, PayPlan()), PlannedMemo(step);
    ClaimStep(step, log, memo, o);
    OneGoes(log, memo, AtTool(r), multiset{a.sid}, o, Local(log, memo, AtClaim(r), Quiet), [Step(0, o)] + ([Crash(0)] + []));
    OneGoes(log, memo, AtClaim(r), multiset{a.sid}, o, Local(ClaimedLog(a), memo, AtBody(r, true), Quiet), [Crash(0)] + []);
    CrashGoes(ClaimedLog(a), memo, AtBody(r, true), multiset{a.sid});
  }

  lemma ClaimAndCrashRuns(step: int)
    ensures var a := PayAttempt(step);
      Exec(Init(1), ClaimAndCrash(a, Value(Obj(PayPlan())))) == One(ClaimedLog(a), PlannedMemo(step), Idle, multiset{a.sid})
  {
    hide Exec, StepWorker, PayPlan;
    var a := PayAttempt(step);
    var o := Value(Obj(PayPlan()));
    var tail := [Step(0, o)] + ([Step(0, o)] + ([Crash(0)] + []));
    var steps := [Step(0, o)] + ([Step(0, o)] + ([Step(0, o)] + ([Step(0, o)] + ([Step(0, o)] + tail))));
    assert Init(1).workers[0 := AtContext(a)] == [AtContext(a)];
    Go(Init(1), Start(0, a), One(map[], map[], AtContext(a), multiset{}), steps);
    PayPlanParses();
    PayAttemptIsValid(step);
    PlanningGoes(a, PayPlan(), [PAY_CALL], o, tail);
    assert InferredMemo(a, PayPlan()) == PlannedMemo(step);
    ClaimGoes(step, o);
  }

  /** Step 1 runs over what step 2 left: it makes its own call and memoises it for both. */
  lemma FirstStepAfterCrash(v: Json)
    ensures var a2 := PayAttempt(2);
      var r := PayRun(1);
      var f := RunOn(ClaimedLog(a2), PlannedMemo(2), AtContext(r.a), PayOuts(v));
      var log := CallLog(PlanLog(ClaimedLog(a2), r.a, PayPlan()), r, v);
      && f.log == Put(log, Slot(r.a.sid, 4, CommitStep), PCommit)
      && f.memo == Put(PlanMemo(PlannedMemo(2), r.a, PayOuts(v)), ("j", ToolKey("pay", 2)), v)
      && f.w == Done(r.Push(v))
  {
    hide RunOn, StepWorker, ToolCalls, ValidAttempt;
    PayPlanParses();
    PayAttemptIsValid(1);
    var outs, r := PayOuts(v), PayRun(1);
    var log0, memo0 := ClaimedLog(PayAttempt(2)), PlannedMemo(2);
    PlanRuns(log0, memo0, r.a, outs, PayPlan(), [PAY_CALL]);
    var log, memo := PlanLog(log0, r.a, PayPlan()), PlanMemo(memo0, r.a, outs);
    CallRuns(log, memo, r, outs);
    LoopEnd(CallLog(log, r, v), Put(memo, r.Key(), v), r.Push(v), outs);
  }

  lemma FirstStepLeaves(v: Json)
    ensures var f := RunOn(ClaimedLog(PayAttempt(2)), PlannedMemo(2), AtContext(PayAttempt(1)), PayOuts(v));
      && f.w.Done? && f.w.r.results == [v]
      && (forall slot: Slot | slot.sid == STEP_TWO :: Peek(f.log, slot) == Peek(ClaimedLog(PayAttempt(2)), slot))
      && ("j", InferKey(2)) in f.memo && f.memo[("j", InferKey(2))] == Obj(PayPlan())
      && ("j", ToolKey("pay", 2)) in f.memo && f.memo[("j", ToolKey("pay", 2))] == v
  {
    hide RunOn, ToolCalls, PayPlan, ClaimedLog;
    FirstStepAfterCrash(v);
  }

  /** Step 2 resumes over these stores: it reads the memo of the call it has claimed. */
  lemma ResumeReadsOther(log: Log, memo: Memo, v: Json, u: Json)
    requires forall slot: Slot | slot.sid == STEP_TWO :: Peek(log, slot) == Peek(ClaimedLog(PayAttempt(2)), slot)
    requires ("j", InferKey(2)) in memo && memo[("j", InferKey(2))] == Obj(PayPlan())
    requires ("j", ToolKey("pay", 2)) in memo && memo[("j", ToolKey("pay", 2))] == v
    ensures var r := PayRun(2);
      RunOn(log, memo, AtContext(r.a), PayOuts(u)) == Final(Put(log, Slot(STEP_TWO, 4, CommitStep), PCommit), memo, Done(r.Push(v)), [])
  {
    hide RunOn, StepWorker, ToolCalls, ValidAttempt, PayPlan;
    PayPlanParses();
    PayAttemptIsValid(2);
    var outs, r := PayOuts(u), PayRun(2);
    var ctx, dec, commit := Slot(STEP_TWO, 0, ProjectContext), Slot(STEP_TWO, 1, Decision), Slot(STEP_TWO, 4, CommitStep);
    var claimed := ClaimedLog(r.a);
    assert Peek(claimed, ctx) == Some(PContext(map[])) && Peek(claimed, dec) == Some(PPlan(PayPlan())) && Peek(claimed, commit) == None;
    assert Peek(log, ctx) == Peek(claimed, ctx) && Peek(log, dec) == Peek(claimed, dec) && Peek(log, commit) == Peek(claimed, commit);
    PlanRuns(log, memo, r.a, outs, PayPlan(), [PAY_CALL]);
    assert PlanLog(log, r.a, PayPlan()) == log;
    MemoisedCall(log, memo, r, outs);
    LoopEnd(log, memo, r.Push(v), outs);
  }

  const STEP_TWO := StepId("t", "j", 2)

  /**
   * Two steps of one trajectory under the default workflow id. Step 2 claims its tool and
   * crashes; step 1 then runs the same tool at the same seq; step 2 resumes. It commits without
   * running anything: its TOOL_CALL is logged, there is no TOOL_RESULT, and its result is step 1's.
   */
  lemma CrashThenShare(v: Json, u: Json)
    ensures var s := Exec(Init(1), ClaimAndCrash(PayAttempt(2), Value(Obj(PayPlan()))));
      var f := RunOn(s.log, s.memo, AtContext(PayAttempt(1)), PayOuts(v));
      var g := RunOn(f.log, f.memo, AtContext(PayAttempt(2)), PayOuts(u));
      && s.workers == [Idle] && f.w.Done? && g.w.Done? && g.events == [] && g.w.r.results == f.w.r.results == [v]
      && CallAt(g.log, PayRun(2), 0) == Some(PCall(PAY_CALL)) && ResultAt(g.log, PayRun(2), 0) == None
      && At(g.log, STEP_TWO, CallSeq(1), CommitStep, PCommit)
  {
    hide RunOn, Exec, StepWorker, ToolCalls, ValidAttempt, PayPlan, ClaimAndCrash, ClaimedLog, PlannedMemo;
    ClaimAndCrashRuns(2);
    FirstStepLeaves(v);
    var f := RunOn(ClaimedLog(PayAttempt(2)), PlannedMemo(2), AtContext(PayAttempt(1)), PayOuts(v));
    ResumeReadsOther(f.log, f.memo, v, u);
    ClaimedSlots();
    assert CallSeq(0) == 2 && CallSeq(1) == 4;
  }

  lemma ClaimedSlots()
    ensures var log := ClaimedLog(PayAttempt(2));
      Peek(log, Slot(STEP_TWO, 2, ToolCall)) == Some(PCall(PAY_CALL)) && Peek(log, Slot(STEP_TWO, 3, ToolResult)) == None
      && Peek(log, Slot(STEP_TWO, 4, CommitStep)) == None
  {
    hide PayPlan;
  }
}
