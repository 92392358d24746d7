/**
 * What a run leaves in every case: the stores, the error and the calls made outside, for the
 * planning of a step and for each of its tool calls, said of the inputs and the stores alone.
 */
module StepOutcomes {
  import opened Base
  import opened SlotMap
  import opened Protocol
  import opened Recovery
  import opened SharedMemos
  import Nodes

  // ---- One call of the tool loop

  predicate Refused(a: Attempt, name: string) {
    a.mode == Sandbox && name in a.tools && a.tools[name] == NonIdempotentWrite
  }

  function Memoised(memo: Memo, a: Attempt, name: string, pos: nat): Option<Json> {
    var key := (if a.workflow == "" then a.sid.trajectory else a.workflow, ToolKey(name, pos));
    if key in memo then Some(memo[key]) else None
  }

  /** A tool that the attempt does not know stops the run at once. */
  lemma UnknownToolStops(log: Log, memo: Memo, r: Run, outs: Outs)
    requires r.HasNext() && r.calls[|r.results|].name !in r.a.tools
    ensures RunOn(log, memo, AtTool(r), outs) == Final(log, memo, Failed(r.a, UnknownTool(r.calls[|r.results|].name)), [])
  {
    hide RunOn, ToolCalls, ValidAttempt;
    var w := Failed(r.a, UnknownTool(r.Next().name));
    Unroll(log, memo, AtTool(r), outs, Local(log, memo, w, Quiet));
    RunOnFinished(log, memo, w, outs);
  }

  /**
   * A sandbox run that reaches a call of a NON_IDEMPOTENT_WRITE tool, memoised or not, ends there:
   * both stores are as they were before the call, and no body runs.
   */
  lemma SandboxRefuses(log: Log, memo: Memo, r: Run, outs: Outs)
    requires r.HasNext() && Refused(r.a, r.calls[|r.results|].name)
    ensures RunOn(log, memo, AtTool(r), outs) == Final(log, memo, Failed(r.a, SandboxForbidden(r.calls[|r.results|].name)), [])
  {
    hide RunOn, ToolCalls, ValidAttempt;
    var w := Failed(r.a, SandboxForbidden(r.Next().name));
    Unroll(log, memo, AtTool(r), outs, Local(log, memo, w, Quiet));
    RunOnFinished(log, memo, w, outs);
  }

  /** A memoised call is answered from the memo, with both stores left alone. */
  lemma MemoAnswers(log: Log, memo: Memo, r: Run, outs: Outs, v: Json)
    requires r.HasNext() && r.calls[|r.results|].name in r.a.tools && !Refused(r.a, r.calls[|r.results|].name)
    requires Memoised(memo, r.a, r.calls[|r.results|].name, 2 + 2 * |r.results|) == Some(v)
    ensures RunOn(log, memo, AtTool(r), outs) == RunOn(log, memo, AtTool(r.(results := r.results + [v])), outs)
  {
    hide RunOn, ToolCalls, ValidAttempt;
    Unroll(log, memo, AtTool(r), outs, Local(log, memo, AtTool(r.Push(v)), Quiet));
  }

  /** The call is known, may run, and has no memo; it is of the gated class or not. */
  predicate Unanswered(memo: Memo, r: Run, gated: bool) {
    && r.HasNext() && r.calls[|r.results|].name in r.a.tools && !Refused(r.a, r.calls[|r.results|].name)
    && (r.a.tools[r.calls[|r.results|].name] == NonIdempotentWrite <==> gated)
    && Memoised(memo, r.a, r.calls[|r.results|].name, 2 + 2 * |r.results|).None?
  }

  function CallSlot(r: Run): Slot { Slot(r.a.sid, 2 + 2 * |r.results|, ToolCall) }
  function ResultSlot(r: Run): Slot { Slot(r.a.sid, 3 + 2 * |r.results|, ToolResult) }
  function AbortSlot(r: Run): Slot { Slot(r.a.sid, 3 + 2 * |r.results|, Abort) }

  /** A gated call whose TOOL_CALL is taken blocks: an ABORT beside it, or a conflict with another one. */
  lemma LostClaimBlocks(log: Log, memo: Memo, r: Run, outs: Outs)
    requires Unanswered(memo, r, true) && CallSlot(r) in log
    ensures var name := r.calls[|r.results|].name;
      RunOn(log, memo, AtTool(r), outs) ==
        if Accepts(log, AbortSlot(r), PAbort(name))
        then Final(Put(log, AbortSlot(r), PAbort(name)), memo, Failed(r.a, BlockedNeedsGate(name)), [])
        else Final(log, memo, Failed(r.a, SlotConflict), [])
  {
    hide RunOn, ToolCalls, ValidAttempt;
    var name := r.Next().name;
    var w := Failed(r.a, if Accepts(log, AbortSlot(r), PAbort(name)) then BlockedNeedsGate(name) else SlotConflict);
    var log' := Put(log, AbortSlot(r), PAbort(name));
    assert r.Pos() == 2 + 2 * |r.results|;
    Unroll(log, memo, AtTool(r), outs, Local(log, memo, AtClaim(r), Quiet));
    Unroll(log, memo, AtClaim(r), outs, Local(log, memo, AtAbort(r), Quiet));
    Unroll(log, memo, AtAbort(r), outs, Local(log', memo, w, Quiet));
    RunOnFinished(log', memo, w, outs);
  }

  /** A plain call whose TOOL_CALL differs from the logged one conflicts before its body. */
  lemma OtherCallConflicts(log: Log, memo: Memo, r: Run, outs: Outs)
    requires Unanswered(memo, r, false) && !Accepts(log, CallSlot(r), PCall(r.calls[|r.results|]))
    ensures RunOn(log, memo, AtTool(r), outs) == Final(log, memo, Failed(r.a, SlotConflict), [])
  {
    hide RunOn, ToolCalls, ValidAttempt;
    Unroll(log, memo, AtTool(r), outs, Local(log, memo, AtCall(r), Quiet));
    Unroll(log, memo, AtCall(r), outs, Local(log, memo, Failed(r.a, SlotConflict), Quiet));
    RunOnFinished(log, memo, Failed(r.a, SlotConflict), outs);
  }

  /** The TOOL_CALL goes into the log: a claim of an empty slot, or a plain append. */
  predicate CallEnters(log: Log, memo: Memo, r: Run, gated: bool) {
    && Unanswered(memo, r, gated)
    && if gated then CallSlot(r) !in log else Accepts(log, CallSlot(r), PCall(r.calls[|r.results|]))
  }

  function BodyRan(r: Run, gated: bool): Event
    requires r.HasNext()
  {
    RanBody(Place(r.a.sid, 2 + 2 * |r.results|), r.calls[|r.results|].name, gated)
  }

  lemma BodyStarts(log: Log, memo: Memo, r: Run, gated: bool, outs: Outs)
    requires CallEnters(log, memo, r, gated)
    ensures RunOn(log, memo, AtTool(r), outs)
         == RunOn(Put(log, CallSlot(r), PCall(r.calls[|r.results|])), memo, AtBody(r, gated), outs)
  {
    hide RunOn, ToolCalls, ValidAttempt;
    var log' := Put(log, CallSlot(r), PCall(r.Next()));
    var w := if gated then AtClaim(r) else AtCall(r);
    assert r.Gated() == gated && r.Pos() == 2 + 2 * |r.results|;
    Unroll(log, memo, AtTool(r), outs, Local(log, memo, w, Quiet));
    Unroll(log, memo, w, outs, Local(log', memo, AtBody(r, gated), Quiet));
  }

  /** A body that fails leaves its TOOL_CALL, and neither result nor memo. */
  lemma BodyFails(log: Log, memo: Memo, r: Run, gated: bool, outs: Outs)
    requires CallEnters(log, memo, r, gated) && outs.tool(|r.results|).Error?
    ensures RunOn(log, memo, AtTool(r), outs)
         == Final(Put(log, CallSlot(r), PCall(r.calls[|r.results|])), memo, Failed(r.a, ToolError), [BodyRan(r, gated)])
  {
    hide RunOn, ToolCalls, ValidAttempt;
    var log' := Put(log, CallSlot(r), PCall(r.Next()));
    BodyStarts(log, memo, r, gated, outs);
    Unroll(log', memo, AtBody(r, gated), outs, Local(log', memo, Failed(r.a, ToolError), BodyRan(r, gated)));
    RunOnFinished(log', memo, Failed(r.a, ToolError), outs);
  }

  /** A body that answers: its value is logged and memoised, or conflicts with a logged one. */
  lemma BodyAnswers(log: Log, memo: Memo, r: Run, gated: bool, outs: Outs, v: Json)
    requires CallEnters(log, memo, r, gated) && outs.tool(|r.results|) == Value(v)
    ensures var called := Put(log, CallSlot(r), PCall(r.calls[|r.results|]));
      RunOn(log, memo, AtTool(r), outs) ==
        if Accepts(log, ResultSlot(r), PResult(v)) then
          Prepend(BodyRan(r, gated), RunOn(Put(called, ResultSlot(r), PResult(v)), Put(memo, r.Key(), v), AtTool(r.(results := r.results + [v])), outs))
        else Final(called, memo, Failed(r.a, SlotConflict), [BodyRan(r, gated)])
  {
    hide RunOn, ToolCalls, ValidAttempt;
    var called := Put(log, CallSlot(r), PCall(r.Next()));
    BodyStarts(log, memo, r, gated, outs);
    assert r.Pos() + 1 == 3 + 2 * |r.results|;
    assert Accepts(called, ResultSlot(r), PResult(v)) <==> Accepts(log, ResultSlot(r), PResult(v));
    if Accepts(log, ResultSlot(r), PResult(v)) {
      BodyRuns(called, memo, r, gated, outs);
    } else {
      Unroll(called, memo, AtBody(r, gated), outs, Local(called, memo, AtResult(r, v), BodyRan(r, gated)));
      Unroll(called, memo, AtResult(r, v), outs, Local(called, memo, Failed(r.a, SlotConflict), Quiet));
      RunOnFinished(called, memo, Failed(r.a, SlotConflict), outs);
    }
  }

  /** After the last call: COMMIT_STEP, or a conflict with what is logged in its slot. */
  lemma LastCallCommits(log: Log, memo: Memo, r: Run, outs: Outs)
    requires |r.results| == |r.calls|
    ensures var slot := Slot(r.a.sid, 2 + 2 * |r.calls|, CommitStep);
      RunOn(log, memo, AtTool(r), outs)
        == Final(Put(log, slot, PCommit), memo, if Accepts(log, slot, PCommit) then Done(r) else Failed(r.a, SlotConflict), [])
  {
    LoopEnd(log, memo, r, outs);
  }

  /** The cases above are all there are. */
  lemma CallCases(log: Log, memo: Memo, r: Run)
    requires r.HasNext()
    ensures var name := r.calls[|r.results|].name;
      || name !in r.a.tools
      || Refused(r.a, name)
      || Memoised(memo, r.a, name, 2 + 2 * |r.results|).Some?
      || (Unanswered(memo, r, true) && CallSlot(r) in log)
      || (Unanswered(memo, r, false) && !Accepts(log, CallSlot(r), PCall(r.calls[|r.results|])))
      || CallEnters(log, memo, r, true) || CallEnters(log, memo, r, false)
  {}

  // ---- Planning

  function ContextSlot(a: Attempt): Slot { Slot(a.sid, 0, ProjectContext) }
  function DecisionSlot(a: Attempt): Slot { Slot(a.sid, 1, Decision) }

  function PlanKey(a: Attempt): (string, MemoKey) {
    (if a.workflow == "" then a.sid.trajectory else a.workflow, InferKey(a.sid.step))
  }

  /** Ids that break the rules, or a wall clock in the context, stop the step before it writes anything. */
  lemma IllegalStepStops(log: Log, memo: Memo, a: Attempt, outs: Outs)
    requires !Nodes.ValidId(a.sid.tenant) || !Nodes.ValidId(a.sid.trajectory) || "ts" in a.ctx
    ensures RunOn(log, memo, AtContext(a), outs) == Final(log, memo, Failed(a, BadNode), [])
  {
    hide RunOn, ToolCalls, Nodes.ValidId;
    Unroll(log, memo, AtContext(a), outs, Local(log, memo, Failed(a, BadNode), Quiet));
    RunOnFinished(log, memo, Failed(a, BadNode), outs);
  }

  /** Another context in the log is a conflict, before the model is asked. */
  lemma OtherContextConflicts(log: Log, memo: Memo, a: Attempt, outs: Outs)
    requires ValidAttempt(a) && !Accepts(log, ContextSlot(a), PContext(a.ctx))
    ensures RunOn(log, memo, AtContext(a), outs) == Final(log, memo, Failed(a, SlotConflict), [])
  {
    hide RunOn, ToolCalls, ValidAttempt;
    Unroll(log, memo, AtContext(a), outs, Local(log, memo, Failed(a, SlotConflict), Quiet));
    RunOnFinished(log, memo, Failed(a, SlotConflict), outs);
  }

  /** The context goes into the log, and the plan is looked up there. */
  predicate ContextEnters(log: Log, a: Attempt) {
    ValidAttempt(a) && Accepts(log, ContextSlot(a), PContext(a.ctx))
  }

  function ContextLogged(log: Log, a: Attempt): Log {
    Put(log, ContextSlot(a), PContext(a.ctx))
  }

  /** A model that fails leaves the context, and nothing memoised. */
  lemma ModelFails(log: Log, memo: Memo, a: Attempt, outs: Outs)
    requires ContextEnters(log, a) && PlanKey(a) !in memo && outs.model.Error?
    ensures RunOn(log, memo, AtContext(a), outs) == Final(ContextLogged(log, a), memo, Failed(a, ModelError), [RanModel(a.sid)])
  {
    hide RunOn, ToolCalls, ValidAttempt;
    var log' := ContextLogged(log, a);
    Unroll(log, memo, AtContext(a), outs, Local(log', memo, AtInfer(a), Quiet));
    Unroll(log', memo, AtInfer(a), outs, Local(log', memo, AtModel(a), Quiet));
    Unroll(log', memo, AtModel(a), outs, Local(log', memo, Failed(a, ModelError), RanModel(a.sid)));
    RunOnFinished(log', memo, Failed(a, ModelError), outs);
  }

  /** The plan value: the memoised one, or else what the model answers, which is then memoised. */
  ghost predicate Plans(memo: Memo, a: Attempt, outs: Outs, v: Json, memo': Memo, asked: seq<Event>) {
    if PlanKey(a) in memo then v == memo[PlanKey(a)] && memo' == memo && asked == []
    else outs.model == Value(v) && memo' == memo[PlanKey(a) := v] && asked == [RanModel(a.sid)]
  }

  lemma PlanningReaches(log: Log, memo: Memo, a: Attempt, outs: Outs, v: Json, memo': Memo, asked: seq<Event>)
    requires ContextEnters(log, a) && Plans(memo, a, outs, v, memo', asked)
    ensures var f := RunOn(ContextLogged(log, a), memo', WithPlan(a, v), outs);
      RunOn(log, memo, AtContext(a), outs) == f.(events := asked + f.events)
  {
    hide RunOn, ToolCalls, ValidAttempt;
    var log' := ContextLogged(log, a);
    var f := RunOn(log', memo', WithPlan(a, v), outs);
    Unroll(log, memo, AtContext(a), outs, Local(log', memo, AtInfer(a), Quiet));
    if PlanKey(a) in memo {
      Unroll(log', memo, AtInfer(a), outs, Local(log', memo, WithPlan(a, v), Quiet));
      assert [] + f.events == f.events;
    } else {
      Unroll(log', memo, AtInfer(a), outs, Local(log', memo, AtModel(a), Quiet));
      Unroll(log', memo, AtModel(a), outs, Local(log', memo, AtInferSave(a, v), RanModel(a.sid)));
      Unroll(log', memo, AtInferSave(a, v), outs, Local(log', memo', WithPlan(a, v), Quiet));
    }
  }

  /** A plan that is no object is refused before the seal; it stays memoised. */
  lemma NoObjectIsNoPlan(log: Log, memo: Memo, a: Attempt, outs: Outs, v: Json, memo': Memo, asked: seq<Event>)
    requires ContextEnters(log, a) && Plans(memo, a, outs, v, memo', asked) && !v.Obj? && v != Null
    ensures RunOn(log, memo, AtContext(a), outs) == Final(ContextLogged(log, a), memo', Failed(a, BadPlan), asked)
  {
    hide RunOn, ToolCalls, ValidAttempt;
    PlanningReaches(log, memo, a, outs, v, memo', asked);
    RunOnFinished(ContextLogged(log, a), memo', Failed(a, BadPlan), outs);
    assert asked + [] == asked;
  }

  /** The object that a plan value is; null is the empty one. */
  function PlanObject(v: Json): Object
    requires v.Obj? || v == Null
  {
    if v.Obj? then v.members else map[]
  }

  /**
   * A plan that is an object is sealed, or conflicts with the sealed one; and it is sealed before
   * its calls are looked at, so a malformed list fails after the seal.
   */
  lemma PlanIsSealed(log: Log, memo: Memo, a: Attempt, outs: Outs, v: Json, memo': Memo, asked: seq<Event>)
    requires ContextEnters(log, a) && Plans(memo, a, outs, v, memo', asked) && (v.Obj? || v == Null)
    ensures var plan := PlanObject(v);
      var sealed := Put(ContextLogged(log, a), DecisionSlot(a), PPlan(plan));
      RunOn(log, memo, AtContext(a), outs) ==
        if !Accepts(log, DecisionSlot(a), PPlan(plan)) then Final(ContextLogged(log, a), memo', Failed(a, SlotConflict), asked)
        else if ToolCalls(plan).None? then Final(sealed, memo', Failed(a, BadPlan), asked)
        else
          var f := RunOn(sealed, memo', AtTool(Run(a, plan, ToolCalls(plan).value, [])), outs);
          f.(events := asked + f.events)
  {
    hide RunOn, ToolCalls, ValidAttempt;
    var plan := PlanObject(v);
    var log' := ContextLogged(log, a);
    PlanningReaches(log, memo, a, outs, v, memo', asked);
    assert WithPlan(a, v) == AtDecision(a, plan);
    assert Accepts(log', DecisionSlot(a), PPlan(plan)) <==> Accepts(log, DecisionSlot(a), PPlan(plan));
    var l := StepWorker(log', memo', AtDecision(a, plan), outs.model);
    Unroll(log', memo', AtDecision(a, plan), outs, l);
    if l.w.Failed? {
      RunOnFinished(l.log, memo', l.w, outs);
      assert asked + [] == asked;
    }
  }
}
