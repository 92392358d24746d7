/** A committed step can refuse to run again: a run of two workers in which it does. */
module Hypotheses {
  import opened Base
  import opened Protocol
  import opened Agreement
  import opened Resumption
  import opened SharedMemos

  // ---- A second worker's inference can be memoised first

  function EmptyPlan(note: string): Object {
    map["tool_calls" := Arr([]), "note" := Str(note)]
  }

  function Two(log: Log, memo: Memo, v: Worker, w: Worker, models: multiset<StepId>): State {
    State(log, memo, [v, w], models, multiset{}, multiset{})
  }

  /** Both workers start and miss the memo. */
  function Missing(a: Attempt): seq<Action> {
    [Start(0, a)] + ([Start(1, a)] + ([Step(0, Outcome.Error)] + ([Step(1, Outcome.Error)]
      + ([Step(0, Outcome.Error)] + ([Step(1, Outcome.Error)] + [])))))
  }

  /** Both ask the model, and worker 0 saves its plan first. */
  function Saving(x: Json, y: Json): seq<Action> {
    [Step(0, Value(x))] + ([Step(1, Value(y))] + ([Step(0, Value(x))] + ([Step(1, Value(y))] + [])))
  }

  /** Worker 1 seals its own plan and commits. */
  function Sealing(): seq<Action> {
    [Step(1, Outcome.Error)] + ([Step(1, Outcome.Error)] + [])
  }

  function CtxLog(a: Attempt): Log {
    map[Slot(a.sid, 0, ProjectContext) := PContext(a.ctx)]
  }

  function InferMemo(a: Attempt, x: Json): Memo {
    map[(Workflow(a), InferKey(a.sid.step)) := x]
  }

  lemma BothStart(a: Attempt, rest: seq<Action>)
    ensures Exec(Init(2), [Start(0, a)] + ([Start(1, a)] + rest))
         == Exec(Two(map[], map[], AtContext(a), AtContext(a), multiset{}), rest)
  {
    hide Exec, StepWorker;
    var first := Two(map[], map[], AtContext(a), Idle, multiset{});
    Go(Init(2), Start(0, a), first, [Start(1, a)] + rest);
    Go(first, Start(1, a), Two(map[], map[], AtContext(a), AtContext(a), multiset{}), rest);
  }

  lemma BothContexts(a: Attempt, rest: seq<Action>)
    requires ValidAttempt(a)
    ensures Exec(Two(map[], map[], AtContext(a), AtContext(a), multiset{}), [Step(0, Outcome.Error)] + ([Step(1, Outcome.Error)] + rest))
         == Exec(Two(CtxLog(a), map[], AtInfer(a), AtInfer(a), multiset{}), rest)
  {
    hide Exec, ToolCalls, ValidAttempt;
    var out := Outcome.Error;
    var log := CtxLog(a);
    var l := Local(log, map[], AtInfer(a), Quiet);
    var s := Two(map[], map[], AtContext(a), AtContext(a), multiset{});
    assert StepWorker(map[], map[], AtContext(a), out) == l && StepWorker(log, map[], AtContext(a), out) == l;
    hide StepWorker;
    StepGoes(s, 0, out, l, [Step(1, out)] + rest);
    var mid := Two(log, map[], AtInfer(a), AtContext(a), multiset{});
    assert Advance(s, 0, l) == mid;
    StepGoes(mid, 1, out, l, rest);
    assert Advance(mid, 1, l) == Two(log, map[], AtInfer(a), AtInfer(a), multiset{});
  }

  lemma BothLookups(log: Log, a: Attempt, rest: seq<Action>)
    ensures Exec(Two(log, map[], AtInfer(a), AtInfer(a), multiset{}), [Step(0, Outcome.Error)] + ([Step(1, Outcome.Error)] + rest))
         == Exec(Two(log, map[], AtModel(a), AtModel(a), multiset{}), rest)
  {
    hide Exec, ToolCalls, ValidAttempt;
    var out := Outcome.Error;
    var l := Local(log, map[], AtModel(a), Quiet);
    var s := Two(log, map[], AtInfer(a), AtInfer(a), multiset{});
    assert StepWorker(log, map[], AtInfer(a), out) == l;
    hide StepWorker;
    StepGoes(s, 0, out, l, [Step(1, out)] + rest);
    var mid := Two(log, map[], AtModel(a), AtInfer(a), multiset{});
    assert Advance(s, 0, l) == mid;
    StepGoes(mid, 1, out, l, rest);
    assert Advance(mid, 1, l) == Two(log, map[], AtModel(a), AtModel(a), multiset{});
  }

  lemma BothMiss(a: Attempt)
    requires ValidAttempt(a)
    ensures Exec(Init(2), Missing(a)) == Two(CtxLog(a), map[], AtModel(a), AtModel(a), multiset{})
  {
    hide StepWorker, ValidAttempt, Two, CtxLog;
    var e := Step(1, Outcome.Error);
    var d := Step(0, Outcome.Error);
    BothStart(a, [d] + ([e] + ([d] + ([e] + []))));
    BothContexts(a, [d] + ([e] + []));
    BothLookups(CtxLog(a), a, []);
  }

  lemma FirstAsks(log: Log, a: Attempt, x: Json, out: Outcome, rest: seq<Action>)
    requires out == Value(x)
    ensures Exec(Two(log, map[], AtModel(a), AtModel(a), multiset{}), [Step(0, out)] + rest)
         == Exec(Two(log, map[], AtInferSave(a, x), AtModel(a), multiset{a.sid}), rest)
  {
    hide Exec, Nodes.ValidUtf8;
    var s := Two(log, map[], AtModel(a), AtModel(a), multiset{});
    assert StepWorker(log, map[], AtModel(a), out) == Local(log, map[], AtInferSave(a, x), RanModel(a.sid));
    Go(s, Step(0, out), Two(log, map[], AtInferSave(a, x), AtModel(a), multiset{a.sid}), rest);
  }

  lemma SecondAsks(log: Log, a: Attempt, x: Json, y: Json, out: Outcome, rest: seq<Action>)
    requires out == Value(y)
    ensures Exec(Two(log, map[], AtInferSave(a, x), AtModel(a), multiset{a.sid}), [Step(1, out)] + rest)
         == Exec(Two(log, map[], AtInferSave(a, x), AtInferSave(a, y), multiset{a.sid, a.sid}), rest)
  {
    hide Exec, Nodes.ValidUtf8;
    var s := Two(log, map[], AtInferSave(a, x), AtModel(a), multiset{a.sid});
    assert StepWorker(log, map[], AtModel(a), out) == Local(log, map[], AtInferSave(a, y), RanModel(a.sid));
    Go(s, Step(1, out), Two(log, map[], AtInferSave(a, x), AtInferSave(a, y), multiset{a.sid, a.sid}), rest);
  }

  lemma BothAsk(log: Log, a: Attempt, x: Json, y: Json, rest: seq<Action>)
    ensures Exec(Two(log, map[], AtModel(a), AtModel(a), multiset{}), [Step(0, Value(x))] + ([Step(1, Value(y))] + rest))
         == Exec(Two(log, map[], AtInferSave(a, x), AtInferSave(a, y), multiset{a.sid, a.sid}), rest)
  {
    hide *;
    FirstAsks(log, a, x, Value(x), [Step(1, Value(y))] + rest);
    SecondAsks(log, a, x, y, Value(y), rest);
  }

  lemma BothSave(log: Log, a: Attempt, p: Object, q: Object, models: multiset<StepId>)
    ensures Exec(Two(log, map[], AtInferSave(a, Obj(p)), AtInferSave(a, Obj(q)), models),
                 [Step(0, Value(Obj(p)))] + ([Step(1, Value(Obj(q)))] + []))
         == Two(log, InferMemo(a, Obj(p)), AtDecision(a, p), AtDecision(a, q), models)
  {
    hide ToolCalls, ValidAttempt;
    var memo := InferMemo(a, Obj(p));
    var one := Two(log, memo, AtDecision(a, p), AtInferSave(a, Obj(q)), models);
    Go(Two(log, map[], AtInferSave(a, Obj(p)), AtInferSave(a, Obj(q)), models), Step(0, Value(Obj(p))), one, [Step(1, Value(Obj(q)))] + []);
    Go(one, Step(1, Value(Obj(q))), Two(log, memo, AtDecision(a, p), AtDecision(a, q), models), []);
  }

  lemma FirstSaveWins(log: Log, a: Attempt, p: Object, q: Object)
    ensures Exec(Two(log, map[], AtModel(a), AtModel(a), multiset{}), Saving(Obj(p), Obj(q)))
         == Two(log, InferMemo(a, Obj(p)), AtDecision(a, p), AtDecision(a, q), multiset{a.sid, a.sid})
  {
    hide Exec;
    BothAsk(log, a, Obj(p), Obj(q), [Step(0, Value(Obj(p)))] + ([Step(1, Value(Obj(q)))] + []));
    BothSave(log, a, p, q, multiset{a.sid, a.sid});
  }

  lemma OtherDecides(memo: Memo, a: Attempt, p: Object, q: Object, models: multiset<StepId>, out: Outcome, rest: seq<Action>)
    requires ToolCalls(q) == Some([])
    ensures Exec(Two(CtxLog(a), memo, AtDecision(a, p), AtDecision(a, q), models), [Step(1, out)] + rest)
         == Exec(Two(CtxLog(a)[Slot(a.sid, 1, Decision) := PPlan(q)], memo, AtDecision(a, p), AtTool(Run(a, q, [], [])), models), rest)
  {
    hide Exec, ToolCalls, ValidAttempt;
    var log := CtxLog(a);
    var dec := log[Slot(a.sid, 1, Decision) := PPlan(q)];
    assert StepWorker(log, memo, AtDecision(a, q), out) == Local(dec, memo, AtTool(Run(a, q, [], [])), Quiet);
    Go(Two(log, memo, AtDecision(a, p), AtDecision(a, q), models), Step(1, out),
       Two(dec, memo, AtDecision(a, p), AtTool(Run(a, q, [], [])), models), rest);
  }

  lemma OtherCommits(log: Log, memo: Memo, v: Worker, r: Run, models: multiset<StepId>, out: Outcome)
    requires r.calls == [] && r.results == [] && Slot(r.a.sid, 2, CommitStep) !in log
    ensures Exec(Two(log, memo, v, AtTool(r), models), [Step(1, out)] + [])
         == Two(log[Slot(r.a.sid, 2, CommitStep) := PCommit], memo, v, Done(r), models)
  {
    hide ToolCalls, ValidAttempt;
    var after := log[Slot(r.a.sid, 2, CommitStep) := PCommit];
    assert StepWorker(log, memo, AtTool(r), out) == Local(after, memo, Done(r), Quiet);
    Go(Two(log, memo, v, AtTool(r), models), Step(1, out), Two(after, memo, v, Done(r), models), []);
  }

  lemma OtherSeals(memo: Memo, a: Attempt, p: Object, q: Object, models: multiset<StepId>)
    requires ToolCalls(q) == Some([])
    ensures Exec(Two(CtxLog(a), memo, AtDecision(a, p), AtDecision(a, q), models), Sealing())
         == Two(CtxLog(a)[Slot(a.sid, 1, Decision) := PPlan(q)][Slot(a.sid, 2, CommitStep) := PCommit], memo,
                AtDecision(a, p), Done(Run(a, q, [], [])), models)
  {
    hide Exec, ToolCalls, ValidAttempt, StepWorker;
    OtherDecides(memo, a, p, q, models, Outcome.Error, [Step(1, Outcome.Error)] + []);
    OtherCommits(CtxLog(a)[Slot(a.sid, 1, Decision) := PPlan(q)], memo, AtDecision(a, p), Run(a, q, [], []), models, Outcome.Error);
  }

  lemma {:induction false} ExecConcat(s: State, acts: seq<Action>, rest: seq<Action>)
    ensures Exec(s, acts + rest) == Exec(Exec(s, acts), rest)
    decreases |acts|
  {
    hide Next;
    if acts == [] {
      assert acts + rest == rest;
    } else {
      assert (acts + rest)[1..] == acts[1..] + rest;
      ExecConcat(Next(s, acts[0]), acts[1..], rest);
    }
  }

  function Race(a: Attempt): seq<Action> {
    Missing(a) + (Saving(Obj(EmptyPlan("x")), Obj(EmptyPlan("y"))) + Sealing())
  }

  /**
   * Two workers of one step: the step commits with the plan of one, the memo keeps the plan of
   * the other, and by `RepeatCommitted` every later run of the committed step is refused.
   */
  lemma RaceLeavesOtherPlanMemoised(a: Attempt)
    requires ValidAttempt(a)
    ensures var s := Exec(Init(2), Race(a));
      && |s.workers| == 2 && s.workers[1].Done?
      && Sealed(s.log, a.sid, EmptyPlan("y"))
      && At(s.log, a.sid, CallSeq(0), CommitStep, PCommit)
      && !SamePlanMemoised(s.memo, Workflow(a), a.sid, EmptyPlan("y"))
  {
    hide Next, Exec;
    var x, y := Obj(EmptyPlan("x")), Obj(EmptyPlan("y"));
    var start := Two(CtxLog(a), map[], AtModel(a), AtModel(a), multiset{});
    ExecConcat(Init(2), Missing(a), Saving(x, y) + Sealing());
    BothMiss(a);
    ExecConcat(start, Saving(x, y), Sealing());
    FirstSaveWins(CtxLog(a), a, x.members, y.members);
    OtherSeals(InferMemo(a, x), a, x.members, y.members, multiset{a.sid, a.sid});
    assert EmptyPlan("x")["note"] != EmptyPlan("y")["note"];
  }
}
