/**
 * While no memo is lost, the log is backed by the memo under any interleaving: a sealed plan
 * implies a memoised inference, and a node behind a call implies that call's memoised result.
 */
module Backing {
  import opened Base
  import opened SlotMap
  import opened Protocol
  import opened Agreement

  ghost predicate Inferred(wfOf: StepId -> string, memo: Memo, sid: StepId) {
    (wfOf(sid), InferKey(sid.step)) in memo
  }

  ghost predicate Keyed(wfOf: StepId -> string, memo: Memo, sid: StepId, name: string, i: nat) {
    (wfOf(sid), ToolKey(name, CallSeq(i))) in memo
  }

  ghost predicate MemoAt(wfOf: StepId -> string, log: Log, memo: Memo, sid: StepId, i: nat) {
    i < |SealedCalls(log, sid)| && Keyed(wfOf, memo, sid, SealedCalls(log, sid)[i].name, i)
  }

  ghost predicate MemosBelow(wfOf: StepId -> string, log: Log, memo: Memo, sid: StepId, n: nat) {
    forall i: nat {:trigger MemoAt(wfOf, log, memo, sid, i)} | i < n :: MemoAt(wfOf, log, memo, sid, i)
  }

  /** What a logged node says about the memo. */
  ghost predicate Backed(wfOf: StepId -> string, log: Log, memo: Memo, slot: Slot) {
    match slot.kind
    case Decision => Inferred(wfOf, memo, slot.sid)
    case ToolCall => MemosBelow(wfOf, log, memo, slot.sid, Index(slot.pos))
    case CommitStep => MemosBelow(wfOf, log, memo, slot.sid, |SealedCalls(log, slot.sid)|)
    case _ => true
  }

  ghost predicate LogBacked(wfOf: StepId -> string, log: Log, memo: Memo) {
    forall slot {:trigger Backed(wfOf, log, memo, slot)} | slot in log :: Backed(wfOf, log, memo, slot)
  }

  predicate HasRun(w: Worker) {
    w.AtTool? || w.AtClaim? || w.AtAbort? || w.AtCall? || w.AtBody? || w.AtResult? || w.AtToolSave? || w.Done?
  }

  ghost predicate WorkerBacked(wfOf: StepId -> string, log: Log, memo: Memo, w: Worker) {
    && (w.AtDecision? ==> Inferred(wfOf, memo, w.a.sid))
    && (HasRun(w) ==> MemosBelow(wfOf, log, memo, w.r.a.sid, |w.r.results|))
  }

  ghost predicate BackedInv(wfOf: StepId -> string, s: State) {
    && Inv(wfOf, s) && LogBacked(wfOf, s.log, s.memo)
    && forall w {:trigger WorkerBacked(wfOf, s.log, s.memo, w)} | w in s.workers :: WorkerBacked(wfOf, s.log, s.memo, w)
  }

  // ---- Stability: both stores only grow

  lemma MemosStable(wfOf: StepId -> string, log: Log, log': Log, memo: Memo, memo': Memo, sid: StepId, n: nat)
    requires Extends(log, log') && Extends(memo, memo') && MemosBelow(wfOf, log, memo, sid, n)
    ensures MemosBelow(wfOf, log', memo', sid, n)
  {
    forall i: nat | i < n ensures MemoAt(wfOf, log', memo', sid, i) { assert MemoAt(wfOf, log, memo, sid, i); }
  }

  lemma WorkerStable(wfOf: StepId -> string, log: Log, log': Log, memo: Memo, memo': Memo, w: Worker)
    requires Extends(log, log') && Extends(memo, memo') && WorkerBacked(wfOf, log, memo, w)
    ensures WorkerBacked(wfOf, log', memo', w)
  {
    if HasRun(w) { MemosStable(wfOf, log, log', memo, memo', w.r.a.sid, |w.r.results|); }
  }

  lemma LogStable(wfOf: StepId -> string, log: Log, memo: Memo, memo': Memo)
    requires Extends(memo, memo') && LogBacked(wfOf, log, memo)
    ensures LogBacked(wfOf, log, memo')
  {
    forall slot | slot in log ensures Backed(wfOf, log, memo', slot) {
      assert Backed(wfOf, log, memo, slot);
      match slot.kind
      case ToolCall => MemosStable(wfOf, log, log, memo, memo', slot.sid, Index(slot.pos));
      case CommitStep => MemosStable(wfOf, log, log, memo, memo', slot.sid, |SealedCalls(log, slot.sid)|);
      case _ =>
    }
  }

  lemma PutBacked(wfOf: StepId -> string, log: Log, memo: Memo, slot: Slot, p: Payload)
    requires LogOk(log) && LogBacked(wfOf, log, memo)
    requires slot !in log ==> Backed(wfOf, Put(log, slot, p), memo, slot)
    ensures LogBacked(wfOf, Put(log, slot, p), memo)
  {
    var log' := Put(log, slot, p);
    forall t | t in log ensures Backed(wfOf, log', memo, t) {
      assert Placed(log, t, log[t]) && Backed(wfOf, log, memo, t);
      match t.kind
      case ToolCall => MemosStable(wfOf, log, log', memo, memo, t.sid, Index(t.pos));
      case CommitStep => MemosStable(wfOf, log, log', memo, memo, t.sid, |SealedCalls(log, t.sid)|);
      case _ =>
    }
  }

  // ---- One worker's step

  ghost predicate StaysBacked(wfOf: StepId -> string, memo: Memo, l: Local) {
    Extends(memo, l.memo) && LogBacked(wfOf, l.log, l.memo) && WorkerBacked(wfOf, l.log, l.memo, l.w)
  }

  lemma StepGrowsMemo(log: Log, memo: Memo, w: Worker, out: Outcome)
    ensures Extends(memo, StepWorker(log, memo, w, out).memo)
  {
  }

  lemma AppendBacked(wfOf: StepId -> string, log: Log, memo: Memo, r: Run, slot: Slot, p: Payload)
    requires LogOk(log) && LogBacked(wfOf, log, memo) && RunOk(log, r)
    requires MemosBelow(wfOf, log, memo, r.a.sid, |r.results|)
    requires slot.sid == r.a.sid
    requires slot.kind != Decision && (slot.kind == ToolCall ==> Index(slot.pos) == |r.results|)
    requires slot.kind == CommitStep ==> !r.HasNext()
    ensures LogBacked(wfOf, Put(log, slot, p), memo)
    ensures MemosBelow(wfOf, Put(log, slot, p), memo, r.a.sid, |r.results|)
  {
    PairsFromRun(log, r);
    MemosStable(wfOf, log, Put(log, slot, p), memo, memo, r.a.sid, |r.results|);
    assert slot !in log ==> SealedCalls(Put(log, slot, p), slot.sid) == r.calls;
    PutBacked(wfOf, log, memo, slot, p);
  }

  lemma PlanningBacked(wfOf: StepId -> string, log: Log, memo: Memo, w: Worker, out: Outcome)
    requires Good(wfOf, log, memo, w) && LogBacked(wfOf, log, memo) && WorkerBacked(wfOf, log, memo, w)
    requires w.AtContext? || w.AtInfer? || w.AtModel? || w.AtInferSave? || w.AtDecision?
    ensures StaysBacked(wfOf, memo, StepWorker(log, memo, w, out))
  {
    hide ToolCalls, ValidAttempt;
    var l := StepWorker(log, memo, w, out);
    StepGrowsMemo(log, memo, w, out);
    match w
    case AtContext(a) => PutBacked(wfOf, log, memo, Slot(a.sid, 0, ProjectContext), PContext(a.ctx));
    case AtDecision(a, plan) => PutBacked(wfOf, log, memo, Slot(a.sid, 1, Decision), PPlan(plan));
    case AtInferSave(a, v) => LogStable(wfOf, log, memo, l.memo);
    case AtInfer(a) =>
    case AtModel(a) =>
  }

  lemma PushBacked(wfOf: StepId -> string, log: Log, memo: Memo, r: Run, v: Json)
    requires Home(wfOf, r.a) && Calling(log, r) && r.Key() in memo
    requires MemosBelow(wfOf, log, memo, r.a.sid, |r.results|)
    ensures MemosBelow(wfOf, log, memo, r.a.sid, |r.Push(v).results|)
  {
    PairsFromRun(log, r);
    assert MemoAt(wfOf, log, memo, r.a.sid, |r.results|);
  }

  lemma SaveBacked(wfOf: StepId -> string, log: Log, memo: Memo, r: Run, v: Json)
    requires Home(wfOf, r.a) && Calling(log, r) && LogBacked(wfOf, log, memo)
    requires MemosBelow(wfOf, log, memo, r.a.sid, |r.results|)
    ensures LogBacked(wfOf, log, Put(memo, r.Key(), v))
    ensures MemosBelow(wfOf, log, Put(memo, r.Key(), v), r.a.sid, |r.Push(v).results|)
  {
    var memo' := Put(memo, r.Key(), v);
    LogStable(wfOf, log, memo, memo');
    MemosStable(wfOf, log, log, memo, memo', r.a.sid, |r.results|);
    PushBacked(wfOf, log, memo', r, v);
  }

  lemma ToolBacked(wfOf: StepId -> string, log: Log, memo: Memo, w: Worker, out: Outcome)
    requires LogOk(log) && WorkerOk(wfOf, log, w) && LogBacked(wfOf, log, memo) && WorkerBacked(wfOf, log, memo, w)
    requires HasRun(w)
    ensures StaysBacked(wfOf, memo, StepWorker(log, memo, w, out))
  {
    hide ToolCalls, ValidAttempt;
    var r := w.r;
    StepGrowsMemo(log, memo, w, out);
    match w
    case AtTool(_) =>
      if !r.HasNext() {
        AppendBacked(wfOf, log, memo, r, Slot(r.a.sid, CallSeq(|r.calls|), CommitStep), PCommit);
      } else if r.Key() in memo {
        PushBacked(wfOf, log, memo, r, memo[r.Key()]);
      }
    case AtClaim(_) => AppendBacked(wfOf, log, memo, r, Slot(r.a.sid, r.Pos(), ToolCall), PCall(r.Next()));
    case AtCall(_) => AppendBacked(wfOf, log, memo, r, Slot(r.a.sid, r.Pos(), ToolCall), PCall(r.Next()));
    case AtAbort(_) => AppendBacked(wfOf, log, memo, r, Slot(r.a.sid, r.Pos() + 1, Abort), PAbort(r.Next().name));
    case AtBody(_, _) =>
    case AtResult(_, v) => AppendBacked(wfOf, log, memo, r, Slot(r.a.sid, r.Pos() + 1, ToolResult), PResult(v));
    case AtToolSave(_, v) => SaveBacked(wfOf, log, memo, r, v);
    case Done(_) =>
  }

  lemma StepBacked(wfOf: StepId -> string, log: Log, memo: Memo, w: Worker, out: Outcome)
    requires Good(wfOf, log, memo, w) && LogBacked(wfOf, log, memo) && WorkerBacked(wfOf, log, memo, w)
    ensures StaysBacked(wfOf, memo, StepWorker(log, memo, w, out))
  {
    if HasRun(w) {
      ToolBacked(wfOf, log, memo, w, out);
    } else if !Finished(w) {
      PlanningBacked(wfOf, log, memo, w, out);
    }
  }

  // ---- Runs

  predicate KeepsMemo(wfOf: StepId -> string, act: Action) {
    Allowed(wfOf, act) && !act.LoseMemo?
  }

  lemma AdvanceBacked(wfOf: StepId -> string, s: State, w: nat, l: Local)
    requires BackedInv(wfOf, s) && w < |s.workers|
    requires StaysGood(wfOf, s.log, l) && StaysBacked(wfOf, s.memo, l)
    ensures BackedInv(wfOf, Advance(s, w, l))
  {
    AdvanceKeeps(wfOf, s, w, l);
    forall x | x in s.workers ensures WorkerBacked(wfOf, l.log, l.memo, x) {
      WorkerStable(wfOf, s.log, l.log, s.memo, l.memo, x);
    }
  }

  lemma BackedStep(wfOf: StepId -> string, s: State, act: Action)
    requires OneStepPerWorkflow(wfOf) && BackedInv(wfOf, s) && KeepsMemo(wfOf, act)
    ensures BackedInv(wfOf, Next(s, act))
  {
    if act.Step? && act.w < |s.workers| {
      var w := s.workers[act.w];
      assert WorkerOk(wfOf, s.log, w) && WorkerBacked(wfOf, s.log, s.memo, w);
      WorkerStepKeeps(wfOf, s.log, s.memo, w, act.out);
      StepBacked(wfOf, s.log, s.memo, w, act.out);
      AdvanceBacked(wfOf, s, act.w, StepWorker(s.log, s.memo, w, act.out));
    } else {
      StepKeeps(wfOf, s, act);
      forall x | x in Next(s, act).workers ensures WorkerBacked(wfOf, s.log, s.memo, x) {
        assert x in s.workers ==> WorkerBacked(wfOf, s.log, s.memo, x);
      }
    }
  }

  lemma {:induction false} BackedRun(wfOf: StepId -> string, s: State, acts: seq<Action>)
    requires OneStepPerWorkflow(wfOf) && BackedInv(wfOf, s)
    requires forall act | act in acts :: KeepsMemo(wfOf, act)
    ensures BackedInv(wfOf, Exec(s, acts))
    decreases |acts|
  {
    if acts != [] {
      BackedStep(wfOf, s, acts[0]);
      BackedRun(wfOf, Next(s, acts[0]), acts[1..]);
    }
  }

  lemma BackedInit(wfOf: StepId -> string, n: nat)
    ensures BackedInv(wfOf, Init(n))
  {
  }

  /** A logged DECISION implies the inference memo; a committed step has the memos of all its calls. */
  lemma SealImpliesMemo(wfOf: StepId -> string, n: nat, acts: seq<Action>, slot: Slot)
    requires OneStepPerWorkflow(wfOf)
    requires forall act | act in acts :: KeepsMemo(wfOf, act)
    requires slot in Exec(Init(n), acts).log
    ensures var s := Exec(Init(n), acts);
      && (slot.kind == Decision ==> Inferred(wfOf, s.memo, slot.sid))
      && (slot.kind == CommitStep ==> MemosBelow(wfOf, s.log, s.memo, slot.sid, |SealedCalls(s.log, slot.sid)|))
  {
    BackedInit(wfOf, n);
    BackedRun(wfOf, Init(n), acts);
    assert Backed(wfOf, Exec(Init(n), acts).log, Exec(Init(n), acts).memo, slot);
  }

  /** Workers of `sid` that looked for the inference memo before it existed. */
  predicate AsksModel(w: Worker, sid: StepId) {
    w.AtModel? && w.a.sid == sid
  }

  /**
   * Once the step is sealed, an inference whose memo lookup follows the seal does not call the
   * model: only workers that were already past the lookup can, and when there is none, no
   * interleaving whatsoever calls the model for this step again.
   */
  lemma {:induction false} SealedStepSkipsModel(wfOf: StepId -> string, s: State, acts: seq<Action>, sid: StepId)
    requires OneStepPerWorkflow(wfOf) && BackedInv(wfOf, s)
    requires forall act | act in acts :: KeepsMemo(wfOf, act)
    requires Slot(sid, 1, Decision) in s.log
    requires forall w | w in s.workers :: !AsksModel(w, sid)
    ensures Exec(s, acts).models[sid] == s.models[sid]
    decreases |acts|
  {
    if acts != [] {
      var act := acts[0];
      assert Backed(wfOf, s.log, s.memo, Slot(sid, 1, Decision));
      BackedStep(wfOf, s, act);
      if act.Step? && act.w < |s.workers| {
        var w := s.workers[act.w];
        StepGrowsLog(s.log, s.memo, w, act.out);
        assert WorkerOk(wfOf, s.log, w) && !AsksModel(w, sid);
        SkipsModel(wfOf, s.log, s.memo, w, act.out, sid);
      }
      SealedStepSkipsModel(wfOf, Next(s, act), acts[1..], sid);
    }
  }

  lemma SkipsModel(wfOf: StepId -> string, log: Log, memo: Memo, w: Worker, out: Outcome, sid: StepId)
    requires WorkerOk(wfOf, log, w) && Inferred(wfOf, memo, sid) && !AsksModel(w, sid)
    ensures !AsksModel(StepWorker(log, memo, w, out).w, sid)
    ensures StepWorker(log, memo, w, out).event != RanModel(sid)
  {
  }
}
