/** A plain tool that runs again after a crash: what happens when it answers something else. */
module Refetch {
  import opened Base
  import opened SlotMap
  import opened Protocol
  import opened Agreement
  import opened Backing
  import opened Recovery
  import opened Resumption
  import opened SharedMemos

  lemma {:induction false} RunKeepsMemo(log: Log, memo: Memo, w: Worker, outs: Outs)
    requires WellFormed(w)
    ensures Extends(memo, RunOn(log, memo, w, outs).memo)
    decreases Phase(w), Left(w)
  {
    hide StepWorker;
    if !Finished(w) {
      var l := StepWorker(log, memo, w, OutFor(w, outs));
      StepGrowsMemo(log, memo, w, OutFor(w, outs));
      StepProgress(log, memo, w, OutFor(w, outs));
      RunKeepsMemo(l.log, l.memo, l.w, outs);
    }
  }

  /** A plain call without a memo, whose TOOL_CALL the log accepts and whose body answers. */
  ghost predicate PlainCallRuns(log: Log, memo: Memo, r: Run, outs: Outs) {
    && r.Known() && !r.Gated() && r.Key() !in memo
    && Accepts(log, Slot(r.a.sid, r.Pos(), ToolCall), PCall(r.Next()))
    && outs.tool(|r.results|).Value?
  }

  function CalledLog(log: Log, r: Run): Log
    requires r.HasNext()
  {
    Put(log, Slot(r.a.sid, r.Pos(), ToolCall), PCall(r.Next()))
  }

  lemma PlainSteps(log: Log, memo: Memo, r: Run, outs: Outs)
    requires PlainCallRuns(log, memo, r, outs)
    ensures var v := outs.tool(|r.results|).v;
      RunOn(log, memo, AtTool(r), outs)
        == Prepend(RanBody(Place(r.a.sid, r.Pos()), r.Next().name, false), RunOn(CalledLog(log, r), memo, AtResult(r, v), outs))
  {
    hide RunOn, ToolCalls, ValidAttempt;
    var v := outs.tool(|r.results|).v;
    var log' := CalledLog(log, r);
    Unroll(log, memo, AtTool(r), outs, Local(log, memo, AtCall(r), Quiet));
    Unroll(log, memo, AtCall(r), outs, Local(log', memo, AtBody(r, false), Quiet));
    Unroll(log', memo, AtBody(r, false), outs,
           Local(log', memo, AtResult(r, v), RanBody(Place(r.a.sid, r.Pos()), r.Next().name, false)));
  }

  /** The run stops with a slot conflict, having stored nothing after the TOOL_CALL. */
  ghost predicate StopsAtResult(log: Log, memo: Memo, r: Run, f: Final)
    requires r.HasNext()
  {
    && f.w == Failed(r.a, SlotConflict) && f.log == CalledLog(log, r) && f.memo == memo
    && f.events == [RanBody(Place(r.a.sid, r.Pos()), r.Next().name, false)]
  }

  /** The value is logged and memoised, and the loop goes on with it. */
  ghost predicate GoesOnWith(log: Log, memo: Memo, r: Run, outs: Outs, v: Json, f: Final)
    requires r.HasNext()
  {
    f == Prepend(RanBody(Place(r.a.sid, r.Pos()), r.Next().name, false),
                 RunOn(CallLog(log, r, v), Put(memo, r.Key(), v), AtTool(r.Push(v)), outs))
  }

  lemma SameValueGoesOn(log: Log, memo: Memo, r: Run, outs: Outs)
    requires PlainCallRuns(log, memo, r, outs)
    requires Accepts(log, Slot(r.a.sid, r.Pos() + 1, ToolResult), PResult(outs.tool(|r.results|).v))
    ensures var f := RunOn(log, memo, AtTool(r), outs);
      GoesOnWith(log, memo, r, outs, outs.tool(|r.results|).v, f) && r.Key() in f.memo
  {
    hide RunOn;
    var v := outs.tool(|r.results|).v;
    CallRuns(log, memo, r, outs);
    RunKeepsMemo(CallLog(log, r, v), Put(memo, r.Key(), v), AtTool(r.Push(v)), outs);
    assert r.Key() in Put(memo, r.Key(), v);
  }

  lemma OtherValueStops(log: Log, memo: Memo, r: Run, outs: Outs)
    requires PlainCallRuns(log, memo, r, outs)
    requires !Accepts(log, Slot(r.a.sid, r.Pos() + 1, ToolResult), PResult(outs.tool(|r.results|).v))
    ensures StopsAtResult(log, memo, r, RunOn(log, memo, AtTool(r), outs))
  {
    hide RunOn, ToolCalls, ValidAttempt;
    var v := outs.tool(|r.results|).v;
    var log' := CalledLog(log, r);
    PlainSteps(log, memo, r, outs);
    Unroll(log', memo, AtResult(r, v), outs, Local(log', memo, Failed(r.a, SlotConflict), Quiet));
    RunOnFinished(log', memo, Failed(r.a, SlotConflict), outs);
  }

  /**
   * A plain tool that runs again and answers v: the run stops with a slot conflict, and no new
   * TOOL_RESULT, exactly when the log already holds another result at the slot. It logs v, memoises
   * it and goes on with it exactly when not.
   */
  lemma RefetchConflictsIff(log: Log, memo: Memo, r: Run, outs: Outs)
    requires PlainCallRuns(log, memo, r, outs)
    ensures var v := outs.tool(|r.results|).v;
      var f := RunOn(log, memo, AtTool(r), outs);
      var same := Accepts(log, Slot(r.a.sid, r.Pos() + 1, ToolResult), PResult(v));
      && (StopsAtResult(log, memo, r, f) <==> !same)
      && (GoesOnWith(log, memo, r, outs, v, f) && r.Key() in f.memo <==> same)
  {
    hide RunOn, CallLog, CalledLog;
    if Accepts(log, Slot(r.a.sid, r.Pos() + 1, ToolResult), PResult(outs.tool(|r.results|).v)) {
      SameValueGoesOn(log, memo, r, outs);
    } else {
      OtherValueStops(log, memo, r, outs);
    }
  }

  const FETCH := Call("fetch", map[])

  function FetchPlan(): Object {
    map["tool_calls" := Arr([Obj(map["name" := Str("fetch")])])]
  }

  function FetchRun(): Run {
    Run(Attempt(StepId("t", "j", 1), "", map["fetch" := ReadOnly], Live, map[]), FetchPlan(), [FETCH], [])
  }

  /** The stores of a step that crashed between TOOL_RESULT and the memo of its read-only call. */
  function FetchedLog(v: Json): Log {
    var sid := StepId("t", "j", 1);
    map[Slot(sid, 0, ProjectContext) := PContext(map[]), Slot(sid, 1, Decision) := PPlan(FetchPlan()),
        Slot(sid, 2, ToolCall) := PCall(FETCH), Slot(sid, 3, ToolResult) := PResult(v)]
  }

  function PlanMemoised(): Memo {
    map[("j", InferKey(1)) := Obj(FetchPlan())]
  }

  lemma FetchPlanParses()
    ensures ToolCalls(FetchPlan()) == Some([FETCH]) && ValidAttempt(FetchRun().a)
  {
    var item := Obj(map["name" := Str("fetch")]);
    assert Get(item.members, "name") == Str("fetch") && Get(item.members, "args") == Null;
    assert ParseCall(item) == Some(FETCH);
    assert ParseCalls([item][1..]) == Some([]);
    assert [FETCH] + [] == [FETCH];
  }

  // ---- The step before its crash

  /** A step fetches and logs a value, and dies before the value is memoised. */
  function FetchAndCrash(was: Json): seq<Action> {
    var o := Value(Obj(FetchPlan()));
    [Start(0, FetchRun().a)] + ([Step(0, o)] + ([Step(0, o)] + ([Step(0, o)] + ([Step(0, o)] + ([Step(0, o)] + Fetching(was))))))
  }

  function Fetching(was: Json): seq<Action> {
    [Step(0, Value(was))] + ([Step(0, Value(was))] + ([Step(0, Value(was))] + ([Step(0, Value(was))] + ([Crash(0)] + []))))
  }

  lemma FetchSteps(log: Log, memo: Memo, v: Json)
    requires ("j", ToolKey("fetch", 2)) !in memo && Slot(StepId("t", "j", 1), 2, ToolCall) !in log
    requires Slot(StepId("t", "j", 1), 3, ToolResult) !in log
    ensures var r, o := FetchRun(), Value(v);
      var called := log[Slot(r.a.sid, 2, ToolCall) := PCall(FETCH)];
      && StepWorker(log, memo, AtTool(r), o) == Local(log, memo, AtCall(r), Quiet)
      && StepWorker(log, memo, AtCall(r), o) == Local(called, memo, AtBody(r, false), Quiet)
      && StepWorker(called, memo, AtBody(r, false), o) == Local(called, memo, AtResult(r, v), RanBody(Place(r.a.sid, 2), "fetch", false))
      && StepWorker(called, memo, AtResult(r, v), o)
           == Local(called[Slot(r.a.sid, 3, ToolResult) := PResult(v)], memo, AtToolSave(r, v), Quiet)
  {
    hide ToolCalls, ValidAttempt, FetchPlan;
    var r := FetchRun();
    assert r.HasNext() && r.Next() == FETCH && !r.Gated() && r.Pos() == 2 && Workflow(r.a) == "j";
  }

  /** The stores that a state has, with its one worker. */
  ghost predicate Has(s: State, log: Log, memo: Memo, w: Worker) {
    s.log == log && s.memo == memo && s.workers == [w]
  }

  lemma Goes(s: State, log: Log, memo: Memo, w: Worker, out: Outcome, l: Local, rest: seq<Action>) returns (t: State)
    requires Has(s, log, memo, w) && StepWorker(log, memo, w, out) == l
    ensures Has(t, l.log, l.memo, l.w) && Exec(s, [Step(0, out)] + rest) == Exec(t, rest)
  {
    hide StepWorker, Exec;
    StepGoes(s, 0, out, l, rest);
    t := Advance(s, 0, l);
  }

  lemma FetchingGoes(s: State, log: Log, memo: Memo, was: Json)
    requires Has(s, log, memo, AtTool(FetchRun())) && ("j", ToolKey("fetch", 2)) !in memo
    requires Slot(StepId("t", "j", 1), 2, ToolCall) !in log && Slot(StepId("t", "j", 1), 3, ToolResult) !in log
    ensures Has(Exec(s, Fetching(was)),
                log[Slot(StepId("t", "j", 1), 2, ToolCall) := PCall(FETCH)][Slot(StepId("t", "j", 1), 3, ToolResult) := PResult(was)],
                memo, Idle)
  {
    hide StepWorker, Exec, Has, FetchPlan;
    var r, o := FetchRun(), Value(was);
    var sid := r.a.sid;
    var called := log[Slot(sid, 2, ToolCall) := PCall(FETCH)];
    var logged := called[Slot(sid, 3, ToolResult) := PResult(was)];
    FetchSteps(log, memo, was);
    var r4 := [Crash(0)] + [];
    var r3 := [Step(0, o)] + r4;
    var r2 := [Step(0, o)] + r3;
    var s1 := Goes(s, log, memo, AtTool(r), o, Local(log, memo, AtCall(r), Quiet), [Step(0, o)] + r2);
    var s2 := Goes(s1, log, memo, AtCall(r), o, Local(called, memo, AtBody(r, false), Quiet), r2);
    var s3 := Goes(s2, called, memo, AtBody(r, false), o, Local(called, memo, AtResult(r, was), RanBody(Place(sid, 2), "fetch", false)), r3);
    var s4 := Goes(s3, called, memo, AtResult(r, was), o, Local(logged, memo, AtToolSave(r, was), Quiet), r4);
    CrashEnds(s4, logged, memo, AtToolSave(r, was));
  }

  lemma CrashEnds(s: State, log: Log, memo: Memo, w: Worker)
    requires Has(s, log, memo, w)
    ensures Has(Exec(s, [Crash(0)] + []), log, memo, Idle)
  {
    Go(s, Crash(0), Next(s, Crash(0)), []);
  }

  lemma FetchAndCrashRuns(was: Json)
    ensures Has(Exec(Init(1), FetchAndCrash(was)), FetchedLog(was), PlanMemoised(), Idle)
  {
    FetchPlanParses();
    hide StepWorker, Exec, FetchPlan, Fetching, ToolCalls, ValidAttempt;
    var r := FetchRun();
    var o := Value(Obj(FetchPlan()));
    var steps := [Step(0, o)] + ([Step(0, o)] + ([Step(0, o)] + ([Step(0, o)] + ([Step(0, o)] + Fetching(was)))));
    assert Init(1).workers[0 := AtContext(r.a)] == [AtContext(r.a)];
    Go(Init(1), Start(0, r.a), One(map[], map[], AtContext(r.a), multiset{}), steps);
    PlanningGoes(r.a, FetchPlan(), [FETCH], o, Fetching(was));
    var log := PlanLog(map[], r.a, FetchPlan());
    FetchingGoes(One(log, InferredMemo(r.a, FetchPlan()), AtTool(r), multiset{r.a.sid}), log, InferredMemo(r.a, FetchPlan()), was);
    assert InferredMemo(r.a, FetchPlan()) == PlanMemoised();
  }

  /**
   * A step that fetched a value and crashed before memoising it is resumed, and re-fetches another
   * value: a slot conflict, and both stores are as the crash left them.
   */
  lemma RefetchedValueIsRefused(was: Json, now: Json)
    requires was != now
    ensures var s := Exec(Init(1), FetchAndCrash(was));
      var f := RunOn(s.log, s.memo, AtContext(FetchRun().a), Outs(Outcome.Error, (i: nat) => Value(now)));
      && At(s.log, FetchRun().a.sid, 3, ToolResult, PResult(was)) && s.workers == [Idle]
      && f.w == Failed(FetchRun().a, SlotConflict) && f.log == s.log && f.memo == s.memo
  {
    hide Exec, RunOn, FetchPlan;
    FetchAndCrashRuns(was);
    FetchedStoresRefuse(was, now);
  }

  lemma FetchedStoresRefuse(was: Json, now: Json)
    requires was != now
    ensures var f := RunOn(FetchedLog(was), PlanMemoised(), AtContext(FetchRun().a), Outs(Outcome.Error, (i: nat) => Value(now)));
      f.w == Failed(FetchRun().a, SlotConflict) && f.log == FetchedLog(was) && f.memo == PlanMemoised()
  {
    FetchPlanParses();
    hide RunOn, ToolCalls, ValidAttempt, FetchPlan;
    var r, outs := FetchRun(), Outs(Outcome.Error, (i: nat) => Value(now));
    var log, memo := FetchedLog(was), PlanMemoised();
    PlanRuns(log, memo, r.a, outs, r.plan, [FETCH]);
    assert PlanLog(log, r.a, r.plan) == log;
    assert r.Next() == FETCH && r.Pos() == 2 && r.Known() && !r.Gated();
    OtherValueStops(log, memo, r, outs);
  }
}
