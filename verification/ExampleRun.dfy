/** A run that meets the hypotheses of the protocol's theorems: one step with one gated tool, to its commit. */
module ExampleRun {
  import opened Base
  import opened Text
  import opened Protocol
  import opened AtMostOnce
  import opened Agreement
  import opened ExactlyOnce
  import opened Solo
  import opened Recovery
  import opened SharedMemos

  const STEP_ONE := StepId("t", "j", 1)

  /** A workflow id for every step: lengths first, so that no two steps share one. */
  function Encoded(x: StepId): string {
    Itoa(|x.tenant|) + ['|'] + (x.tenant + (Itoa(|x.trajectory|) + ['|'] + (x.trajectory + Itoa(x.step))))
  }

  lemma NoBar(n: int)
    ensures '|' !in Itoa(n)
  {}

  lemma EncodedInjective(x: StepId, y: StepId)
    requires Encoded(x) == Encoded(y)
    ensures x == y
  {
    NoBar(|x.tenant|);
    NoBar(|y.tenant|);
    NoBar(|x.trajectory|);
    NoBar(|y.trajectory|);
    var s, t := x.trajectory + Itoa(x.step), y.trajectory + Itoa(y.step);
    var u, v := Itoa(|x.trajectory|) + ['|'] + s, Itoa(|y.trajectory|) + ['|'] + t;
    SplitFirst(Itoa(|x.tenant|), x.tenant + u, Itoa(|y.tenant|), y.tenant + v, '|');
    ItoaInjective(|x.tenant|, |y.tenant|);
    assert (x.tenant + u)[..|x.tenant|] == x.tenant && (y.tenant + v)[..|y.tenant|] == y.tenant;
    assert (x.tenant + u)[|x.tenant|..] == u && (y.tenant + v)[|y.tenant|..] == v;
    SplitFirst(Itoa(|x.trajectory|), s, Itoa(|y.trajectory|), t, '|');
    ItoaInjective(|x.trajectory|, |y.trajectory|);
    assert s[..|x.trajectory|] == x.trajectory && t[..|y.trajectory|] == y.trajectory;
    assert s[|x.trajectory|..] == Itoa(x.step) && t[|y.trajectory|..] == Itoa(y.step);
    ItoaInjective(x.step, y.step);
  }

  function WorkflowOf(x: StepId): string {
    if x == STEP_ONE then "j" else "-" + Encoded(x)
  }

  /** There is a workflow id for every step, as the theorems on runs suppose. */
  lemma WorkflowsCanBeDistinct()
    ensures OneStepPerWorkflow(WorkflowOf)
  {
    hide Encoded;
    forall x, y | WorkflowOf(x) == WorkflowOf(y) ensures x == y {
      if x != STEP_ONE && y != STEP_ONE {
        assert ("-" + Encoded(x))[1..] == Encoded(x) && ("-" + Encoded(y))[1..] == Encoded(y);
        EncodedInjective(x, y);
      } else {
        assert "j"[0] == 'j' && forall z :: ("-" + Encoded(z))[0] == '-';
      }
    }
  }

  function IsPay(name: string): bool {
    name == "pay"
  }

  function PayActions(v: Json): seq<Action> {
    [Start(0, PayAttempt(1))] + Schedule(map[], map[], AtContext(PayAttempt(1)), PayOuts(v))
  }

  lemma {:induction false} ScheduleOnlySteps(log: Log, memo: Memo, w: Worker, outs: Outs)
    requires WellFormed(w)
    ensures forall act | act in Schedule(log, memo, w, outs) :: act.Step?
    decreases Phase(w), Left(w)
  {
    hide StepWorker;
    if !Finished(w) {
      StepProgress(log, memo, w, OutFor(w, outs));
      var l := StepWorker(log, memo, w, OutFor(w, outs));
      ScheduleOnlySteps(l.log, l.memo, l.w, outs);
    }
  }

  lemma PayActionsAreAllowed(v: Json)
    ensures forall act | act in PayActions(v) ::
      Allowed(WorkflowOf, act) && GatesIn(IsPay, act) && SoloAct(WorkflowOf, IsPay, act)
  {
    hide Schedule;
    ScheduleOnlySteps(map[], map[], AtContext(PayAttempt(1)), PayOuts(v));
    assert RequiresBlockAndGate(NonIdempotentWrite);
  }

  lemma PayRunsToCommit(v: Json)
    ensures var s := Exec(Init(1), PayActions(v));
      && Slot(STEP_ONE, 1, Decision) in s.log && s.log[Slot(STEP_ONE, 1, Decision)] == PPlan(PayPlan())
      && Slot(STEP_ONE, 4, CommitStep) in s.log
      && |s.workers| == 1 && s.workers[0] == Done(PayRun(1).Push(v))
  {
    hide Schedule, StepWorker, RunOn, ToolCalls, ValidAttempt;
    var a := PayAttempt(1);
    var s := State(map[], map[], [AtContext(a)], multiset{}, multiset{}, multiset{});
    var acts := Schedule(map[], map[], AtContext(a), PayOuts(v));
    assert Next(Init(1), Start(0, a)) == s by { assert Init(1).workers[0 := AtContext(a)] == [AtContext(a)]; }
    Go(Init(1), Start(0, a), s, acts);
    RunOnIsARun(s, PayOuts(v));
    FirstPayStep(v);
  }

  /** In that run the gated body ran exactly once, and the run agrees with the log. */
  lemma PayRanOnce(v: Json)
    ensures Exec(Init(1), PayActions(v)).gated[Place(STEP_ONE, 2)] == 1
    ensures var s := Exec(Init(1), PayActions(v));
      SealedCalls(s.log, STEP_ONE) == [PAY_CALL] && Slot(STEP_ONE, 3, ToolResult) in s.log
  {
    hide Exec, PayActions, Allowed, GatesIn, SoloAct, PayPlan, ToolCalls, OneStepPerWorkflow;
    WorkflowsCanBeDistinct();
    PayActionsAreAllowed(v);
    PayRunsToCommit(v);
    PayPlanParses();
    var s := Exec(Init(1), PayActions(v));
    assert SealedCalls(s.log, STEP_ONE) == [PAY_CALL];
    CommittedGatedBodiesRanExactlyOnce(WorkflowOf, IsPay, 1, PayActions(v), STEP_ONE, 4, 0);
    CommitIsComplete(WorkflowOf, 1, PayActions(v), STEP_ONE, 4);
    assert Pair(s.log, STEP_ONE, 0);
    assert CallSeq(0) == 2;
  }
}
