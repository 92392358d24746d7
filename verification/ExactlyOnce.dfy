/** In a committed step every gated tool body ran exactly once. */
module ExactlyOnce {
  import opened SlotMap
  import opened Protocol
  import opened AtMostOnce
  import opened Agreement

  ghost predicate Ran(s: State, sid: StepId, i: nat) {
    s.gated[Place(sid, CallSeq(i))] >= 1
  }

  /** A logged result of a gated call comes from a gated run. */
  ghost predicate ResultsRan(gate: string -> bool, s: State) {
    forall sid, i: nat |
      Slot(sid, CallSeq(i) + 1, ToolResult) in s.log && i < |SealedCalls(s.log, sid)| && gate(SealedCalls(s.log, sid)[i].name) ::
      Ran(s, sid, i)
  }

  ghost predicate HolderRan(gate: string -> bool, s: State, w: Worker) {
    w.AtResult? && w.r.HasNext() && gate(w.r.Next().name) ==> Ran(s, w.r.a.sid, |w.r.results|)
  }

  ghost predicate RanOk(gate: string -> bool, s: State) {
    ResultsRan(gate, s) && forall w | w in s.workers :: HolderRan(gate, s, w)
  }

  /** A new TOOL_RESULT comes from a worker that holds the value of a finished body. */
  lemma NewResult(log: Log, memo: Memo, w: Worker, out: Outcome, slot: Slot)
    requires slot.kind == ToolResult && slot !in log
    requires slot in StepWorker(log, memo, w, out).log
    ensures w.AtResult? && slot == Slot(w.r.a.sid, w.r.Pos() + 1, ToolResult)
  {
  }

  lemma NewHolder(log: Log, memo: Memo, w: Worker, out: Outcome)
    requires StepWorker(log, memo, w, out).w.AtResult?
    ensures w.AtBody? && w.r.HasNext() && StepWorker(log, memo, w, out).w.r == w.r
    ensures StepWorker(log, memo, w, out).event == RanBody(Place(w.r.a.sid, w.r.Pos()), w.r.Next().name, w.gated)
  {
  }

  lemma AdvanceHolders(gate: string -> bool, s: State, w: nat, l: Local)
    requires RanOk(gate, s) && w < |s.workers|
    requires l.w.AtResult? ==>
               && l.w.r.HasNext() && l.event.RanBody? && l.event.place == Place(l.w.r.a.sid, l.w.r.Pos())
               && (gate(l.w.r.Next().name) ==> l.event.gated)
    ensures forall x | x in Advance(s, w, l).workers :: HolderRan(gate, Advance(s, w, l), x)
  {
    var s' := Advance(s, w, l);
    assert forall p :: s'.gated[p] >= s.gated[p];
    forall x | x in s'.workers ensures HolderRan(gate, s', x) {
      if x != l.w { assert x in s.workers; }
    }
  }

  lemma AdvanceResults(gate: string -> bool, s: State, w: nat, l: Local)
    requires LogOk(s.log) && RanOk(gate, s) && w < |s.workers| && Extends(s.log, l.log)
    requires forall slot | slot in l.log && slot !in s.log && slot.kind == ToolResult ::
      s.workers[w].AtResult? && slot == Slot(s.workers[w].r.a.sid, s.workers[w].r.Pos() + 1, ToolResult)
    requires s.workers[w].AtResult? ==> Called(s.log, s.workers[w].r)
    ensures ResultsRan(gate, Advance(s, w, l))
  {
    var s', me := Advance(s, w, l), s.workers[w];
    assert forall p :: s'.gated[p] >= s.gated[p];
    forall sid, i: nat |
      Slot(sid, CallSeq(i) + 1, ToolResult) in s'.log && i < |SealedCalls(s'.log, sid)| && gate(SealedCalls(s'.log, sid)[i].name)
      ensures Ran(s', sid, i)
    {
      var slot := Slot(sid, CallSeq(i) + 1, ToolResult);
      if slot in s.log {
        assert Placed(s.log, slot, s.log[slot]) && Index(slot.pos) == i;
        assert SealedCalls(s.log, sid) == SealedCalls(s'.log, sid);
        assert Ran(s, sid, i);
      } else {
        PairsFromRun(s.log, me.r);
        assert SealedCalls(s.log, sid) == SealedCalls(s'.log, sid);
        assert HolderRan(gate, s, me);
      }
    }
  }

  lemma RanOkStep(wfOf: StepId -> string, gate: string -> bool, s: State, w: nat, out: Outcome)
    requires Inv(wfOf, s) && BodiesGated(gate, s) && RanOk(gate, s) && w < |s.workers|
    ensures RanOk(gate, Next(s, Step(w, out)))
  {
    var me := s.workers[w];
    var l := StepWorker(s.log, s.memo, me, out);
    assert OnGatedPath(gate, me) && WorkerOk(wfOf, s.log, me);
    if l.w.AtResult? { NewHolder(s.log, s.memo, me, out); }
    AdvanceHolders(gate, s, w, l);
    StepGrowsLog(s.log, s.memo, me, out);
    forall slot | slot in l.log && slot !in s.log && slot.kind == ToolResult
      ensures me.AtResult? && slot == Slot(me.r.a.sid, me.r.Pos() + 1, ToolResult)
    {
      NewResult(s.log, s.memo, me, out, slot);
    }
    AdvanceResults(gate, s, w, l);
  }

  ghost predicate OnceInv(wfOf: StepId -> string, gate: string -> bool, s: State) {
    Inv(wfOf, s) && BodiesGated(gate, s) && RanOk(gate, s)
  }

  lemma RanOkOtherwise(gate: string -> bool, s: State, s': State)
    requires RanOk(gate, s) && s'.log == s.log && s'.gated == s.gated
    requires forall x | x in s'.workers :: x in s.workers || !x.AtResult?
    ensures RanOk(gate, s')
  {
  }

  lemma OnceStep(wfOf: StepId -> string, gate: string -> bool, s: State, act: Action)
    requires OneStepPerWorkflow(wfOf) && OnceInv(wfOf, gate, s)
    requires Allowed(wfOf, act) && GatesIn(gate, act)
    ensures RanOk(gate, Next(s, act))
  {
    if act.Step? && act.w < |s.workers| {
      RanOkStep(wfOf, gate, s, act.w, act.out);
    } else {
      RanOkOtherwise(gate, s, Next(s, act));
    }
  }

  lemma {:induction false} OnceRun(wfOf: StepId -> string, gate: string -> bool, s: State, acts: seq<Action>)
    requires OneStepPerWorkflow(wfOf) && OnceInv(wfOf, gate, s)
    requires forall act | act in acts :: Allowed(wfOf, act) && GatesIn(gate, act)
    ensures RanOk(gate, Exec(s, acts))
    decreases |acts|
  {
    if acts != [] {
      var act := acts[0];
      StepKeeps(wfOf, s, act);
      BodiesGatedStep(gate, s, act);
      OnceStep(wfOf, gate, s, act);
      OnceRun(wfOf, gate, Next(s, act), acts[1..]);
    }
  }

  lemma OnceAt(gate: string -> bool, s: State, sid: StepId, i: nat)
    requires RanOk(gate, s) && Pair(s.log, sid, i) && gate(SealedCalls(s.log, sid)[i].name)
    requires s.gated[Place(sid, CallSeq(i))] <= 1
    ensures s.gated[Place(sid, CallSeq(i))] == 1
  {
  }

  /**
   * COMMIT_STEP in the log means that the body of every gated call of the sealed plan ran
   * exactly once, whatever interleaving of workers, crashes and memo losses led there.
   */
  lemma CommittedGatedBodiesRanExactlyOnce(
    wfOf: StepId -> string, gate: string -> bool, n: nat, acts: seq<Action>, sid: StepId, pos: nat, i: nat)
    requires OneStepPerWorkflow(wfOf)
    requires forall act | act in acts :: Allowed(wfOf, act) && GatesIn(gate, act)
    requires Slot(sid, pos, CommitStep) in Exec(Init(n), acts).log
    requires i < |SealedCalls(Exec(Init(n), acts).log, sid)|
    requires gate(SealedCalls(Exec(Init(n), acts).log, sid)[i].name)
    ensures Exec(Init(n), acts).gated[Place(sid, CallSeq(i))] == 1
  {
    CommitIsComplete(wfOf, n, acts, sid, pos);
    InitInv(wfOf, n);
    OnceRun(wfOf, gate, Init(n), acts);
    GatedBodyRunsAtMostOnce(n, acts, Place(sid, CallSeq(i)));
    OnceAt(gate, Exec(Init(n), acts), sid, i);
  }
}
