/**
 * A crash-free RunStep: the worker script iterated to its end. What a resume does from any
 * state that crashes can leave, and what running a committed step again does.
 */
module Recovery {
  import opened Base
  import opened SlotMap
  import opened Protocol
  import opened Agreement
  import opened Backing
  import opened Solo

  /** What the model and the body of the i-th tool answer if they are asked. */
  datatype Outs = Outs(model: Outcome, tool: nat -> Outcome)

  function OutFor(w: Worker, outs: Outs): Outcome {
    if w.AtBody? then outs.tool(|w.r.results|) else outs.model
  }

  predicate WellFormed(w: Worker) {
    match w
    case AtTool(r) => |r.results| <= |r.calls|
    case AtClaim(r) => r.HasNext()
    case AtAbort(r) => r.HasNext()
    case AtCall(r) => r.HasNext()
    case AtBody(r, _) => r.HasNext()
    case AtResult(r, _) => r.HasNext()
    case AtToolSave(r, _) => r.HasNext()
    case _ => true
  }

  function Phase(w: Worker): nat {
    match w
    case AtContext(_) => 5
    case AtInfer(_) => 4
    case AtModel(_) => 3
    case AtInferSave(_, _) => 2
    case AtDecision(_, _) => 1
    case _ => 0
  }

  /** Atomic steps left in the tool loop, at most. */
  function Left(w: Worker): nat
    requires WellFormed(w)
  {
    match w
    case AtTool(r) => 6 * (|r.calls| - |r.results|) + 5
    case AtClaim(r) => 6 * (|r.calls| - |r.results|) + 4
    case AtCall(r) => 6 * (|r.calls| - |r.results|) + 4
    case AtBody(r, _) => 6 * (|r.calls| - |r.results|) + 3
    case AtAbort(r) => 6 * (|r.calls| - |r.results|) + 3
    case AtResult(r, _) => 6 * (|r.calls| - |r.results|) + 2
    case AtToolSave(r, _) => 6 * (|r.calls| - |r.results|) + 1
    case _ => 0
  }

  ghost predicate Progress(w: Worker, w': Worker)
    requires WellFormed(w)
  {
    WellFormed(w') && (Phase(w') < Phase(w) || (Phase(w') == Phase(w) && Left(w') < Left(w)))
  }

  lemma LoopProgress(log: Log, memo: Memo, w: Worker, out: Outcome)
    requires WellFormed(w) && !Finished(w) && Phase(w) == 0
    ensures Progress(w, StepWorker(log, memo, w, out).w)
  {
    hide ToolCalls, ValidAttempt;
  }

  lemma PlanningProgress(log: Log, memo: Memo, w: Worker, out: Outcome)
    requires WellFormed(w) && Phase(w) > 0
    ensures Progress(w, StepWorker(log, memo, w, out).w)
  {
    hide ToolCalls, ValidAttempt;
  }

  lemma StepProgress(log: Log, memo: Memo, w: Worker, out: Outcome)
    requires WellFormed(w) && !Finished(w)
    ensures Progress(w, StepWorker(log, memo, w, out).w)
  {
    hide StepWorker, Progress;
    if Phase(w) == 0 {
      LoopProgress(log, memo, w, out);
    } else {
      PlanningProgress(log, memo, w, out);
    }
  }

  datatype Final = Final(log: Log, memo: Memo, w: Worker, events: seq<Event>)

  function Prepend(e: Event, f: Final): Final {
    if e.Quiet? then f else f.(events := [e] + f.events)
  }

  /** Runs one worker, undisturbed, until RunStep returns. */
  function RunOn(log: Log, memo: Memo, w: Worker, outs: Outs): (f: Final)
    requires WellFormed(w)
    ensures Finished(f.w)
    decreases Phase(w), Left(w)
  {
    if Finished(w) then Final(log, memo, w, [])
    else
      StepProgress(log, memo, w, OutFor(w, outs));
      var l := StepWorker(log, memo, w, OutFor(w, outs));
      Prepend(l.event, RunOn(l.log, l.memo, l.w, outs))
  }

  /** The actions of the transition system that this run consists of. */
  function Schedule(log: Log, memo: Memo, w: Worker, outs: Outs): seq<Action>
    requires WellFormed(w)
    decreases Phase(w), Left(w)
  {
    if Finished(w) then []
    else
      StepProgress(log, memo, w, OutFor(w, outs));
      var l := StepWorker(log, memo, w, OutFor(w, outs));
      [Step(0, OutFor(w, outs))] + Schedule(l.log, l.memo, l.w, outs)
  }

  /** A crash-free RunStep is a run of the transition system, so every invariant of runs covers it. */
  lemma {:induction false} RunOnIsARun(s: State, outs: Outs)
    requires |s.workers| == 1 && WellFormed(s.workers[0])
    ensures var s' := Exec(s, Schedule(s.log, s.memo, s.workers[0], outs));
      var f := RunOn(s.log, s.memo, s.workers[0], outs);
      s'.log == f.log && s'.memo == f.memo && s'.workers == [f.w]
    decreases Phase(s.workers[0]), Left(s.workers[0])
  {
    var w := s.workers[0];
    if !Finished(w) {
      var act := Step(0, OutFor(w, outs));
      StepProgress(s.log, s.memo, w, OutFor(w, outs));
      var s1 := Next(s, act);
      assert s1.workers[0] == StepWorker(s.log, s.memo, w, OutFor(w, outs)).w;
      RunOnIsARun(s1, outs);
      var rest := Schedule(s1.log, s1.memo, s1.workers[0], outs);
      assert ([act] + rest)[1..] == rest;
    }
  }

  lemma {:induction false} RunOnKeepsSolo(wfOf: StepId -> string, gate: string -> bool, log: Log, memo: Memo, w: Worker, outs: Outs)
    requires OneStepPerWorkflow(wfOf) && WellFormed(w) && SoloGood(wfOf, gate, log, memo, w)
    ensures var f := RunOn(log, memo, w, outs); SoloGood(wfOf, gate, f.log, f.memo, f.w)
    decreases Phase(w), Left(w)
  {
    if !Finished(w) {
      var l := StepWorker(log, memo, w, OutFor(w, outs));
      StepSettled(wfOf, gate, log, memo, w, OutFor(w, outs));
      StepProgress(log, memo, w, OutFor(w, outs));
      RunOnKeepsSolo(wfOf, gate, l.log, l.memo, l.w, outs);
    }
  }

  // ---- One call of the tool loop

  ghost predicate CanCall(log: Log, memo: Memo, r: Run, v: Json) {
    && r.Known() && (r.a.mode == Live || !r.Gated()) && r.Key() !in memo
    && (if r.Gated() then Slot(r.a.sid, r.Pos(), ToolCall) !in log
        else Accepts(log, Slot(r.a.sid, r.Pos(), ToolCall), PCall(r.Next())))
    && Accepts(log, Slot(r.a.sid, r.Pos() + 1, ToolResult), PResult(v))
  }

  function CallLog(log: Log, r: Run, v: Json): Log
    requires r.HasNext()
  {
    Put(Put(log, Slot(r.a.sid, r.Pos(), ToolCall), PCall(r.Next())), Slot(r.a.sid, r.Pos() + 1, ToolResult), PResult(v))
  }

  /** Unfolds the run by one atomic step. */
  lemma Unroll(log: Log, memo: Memo, w: Worker, outs: Outs, l: Local)
    requires WellFormed(w) && !Finished(w) && l == StepWorker(log, memo, w, OutFor(w, outs))
    ensures WellFormed(l.w) && RunOn(log, memo, w, outs) == Prepend(l.event, RunOn(l.log, l.memo, l.w, outs))
  {
    StepProgress(log, memo, w, OutFor(w, outs));
  }

  lemma RunOnFinished(log: Log, memo: Memo, w: Worker, outs: Outs)
    requires Finished(w)
    ensures RunOn(log, memo, w, outs) == Final(log, memo, w, [])
  {
  }

  function Claiming(r: Run): Worker {
    if r.Gated() then AtClaim(r) else AtCall(r)
  }

  lemma ClaimRuns(log: Log, memo: Memo, r: Run, outs: Outs, v: Json)
    requires CanCall(log, memo, r, v)
    ensures RunOn(log, memo, AtTool(r), outs)
         == RunOn(Put(log, Slot(r.a.sid, r.Pos(), ToolCall), PCall(r.Next())), memo, AtBody(r, r.Gated()), outs)
  {
    var log1 := Put(log, Slot(r.a.sid, r.Pos(), ToolCall), PCall(r.Next()));
    Unroll(log, memo, AtTool(r), outs, Local(log, memo, Claiming(r), Quiet));
    Unroll(log, memo, Claiming(r), outs, Local(log1, memo, AtBody(r, r.Gated()), Quiet));
  }

  lemma BodyRuns(log: Log, memo: Memo, r: Run, gated: bool, outs: Outs)
    requires r.HasNext() && outs.tool(|r.results|).Value?
    requires Accepts(log, Slot(r.a.sid, r.Pos() + 1, ToolResult), PResult(outs.tool(|r.results|).v))
    ensures var v := outs.tool(|r.results|).v;
      RunOn(log, memo, AtBody(r, gated), outs)
        == Prepend(RanBody(Place(r.a.sid, r.Pos()), r.Next().name, gated),
                   RunOn(Put(log, Slot(r.a.sid, r.Pos() + 1, ToolResult), PResult(v)), Put(memo, r.Key(), v),
                         AtTool(r.Push(v)), outs))
  {
    hide ToolCalls, ValidAttempt;
    var v := outs.tool(|r.results|).v;
    var log' := Put(log, Slot(r.a.sid, r.Pos() + 1, ToolResult), PResult(v));
    Unroll(log, memo, AtBody(r, gated), outs,
           Local(log, memo, AtResult(r, v), RanBody(Place(r.a.sid, r.Pos()), r.Next().name, gated)));
    Unroll(log, memo, AtResult(r, v), outs, Local(log', memo, AtToolSave(r, v), Quiet));
    Unroll(log', memo, AtToolSave(r, v), outs, Local(log', Put(memo, r.Key(), v), AtTool(r.Push(v)), Quiet));
  }

  lemma CallRuns(log: Log, memo: Memo, r: Run, outs: Outs)
    requires r.HasNext() && outs.tool(|r.results|).Value? && CanCall(log, memo, r, outs.tool(|r.results|).v)
    ensures var v := outs.tool(|r.results|).v;
      RunOn(log, memo, AtTool(r), outs)
        == Prepend(RanBody(Place(r.a.sid, r.Pos()), r.Next().name, r.Gated()),
                   RunOn(CallLog(log, r, v), Put(memo, r.Key(), v), AtTool(r.Push(v)), outs))
  {
    hide RunOn;
    var v := outs.tool(|r.results|).v;
    ClaimRuns(log, memo, r, outs, v);
    BodyRuns(Put(log, Slot(r.a.sid, r.Pos(), ToolCall), PCall(r.Next())), memo, r, r.Gated(), outs);
  }

  lemma OneStepSolo(wfOf: StepId -> string, gate: string -> bool, log: Log, memo: Memo, w: Worker, out: Outcome, l: Local)
    requires OneStepPerWorkflow(wfOf) && SoloGood(wfOf, gate, log, memo, w) && l == StepWorker(log, memo, w, out)
    ensures SoloGood(wfOf, gate, l.log, l.memo, l.w)
  {
    StepSettled(wfOf, gate, log, memo, w, out);
  }

  lemma ClaimSteps(log: Log, memo: Memo, r: Run, out: Outcome)
    requires r.HasNext() && out.Value? && CanCall(log, memo, r, out.v)
    ensures StepWorker(log, memo, AtTool(r), out) == Local(log, memo, Claiming(r), Quiet)
    ensures StepWorker(log, memo, Claiming(r), out)
         == Local(Put(log, Slot(r.a.sid, r.Pos(), ToolCall), PCall(r.Next())), memo, AtBody(r, r.Gated()), Quiet)
  {
    hide ToolCalls, ValidAttempt;
  }

  lemma BodySteps(log: Log, memo: Memo, r: Run, v: Json)
    requires r.HasNext() && Accepts(log, Slot(r.a.sid, r.Pos() + 1, ToolResult), PResult(v))
    ensures StepWorker(log, memo, AtBody(r, r.Gated()), Value(v))
         == Local(log, memo, AtResult(r, v), RanBody(Place(r.a.sid, r.Pos()), r.Next().name, r.Gated()))
    ensures StepWorker(log, memo, AtResult(r, v), Value(v))
         == Local(Put(log, Slot(r.a.sid, r.Pos() + 1, ToolResult), PResult(v)), memo, AtToolSave(r, v), Quiet)
    ensures StepWorker(log, memo, AtToolSave(r, v), Value(v)) == Local(log, Put(memo, r.Key(), v), AtTool(r.Push(v)), Quiet)
  {
    hide ToolCalls, ValidAttempt;
  }

  lemma CallKeepsSolo(wfOf: StepId -> string, gate: string -> bool, log: Log, memo: Memo, r: Run, out: Outcome)
    requires OneStepPerWorkflow(wfOf) && SoloGood(wfOf, gate, log, memo, AtTool(r))
    requires r.HasNext() && out.Value? && CanCall(log, memo, r, out.v)
    ensures SoloGood(wfOf, gate, CallLog(log, r, out.v), Put(memo, r.Key(), out.v), AtTool(r.Push(out.v)))
  {
    hide SoloGood, StepWorker;
    var v := out.v;
    var log1 := Put(log, Slot(r.a.sid, r.Pos(), ToolCall), PCall(r.Next()));
    var log2 := CallLog(log, r, v);
    ClaimSteps(log, memo, r, out);
    BodySteps(log1, memo, r, v);
    BodySteps(log2, memo, r, v);
    OneStepSolo(wfOf, gate, log, memo, AtTool(r), out, Local(log, memo, Claiming(r), Quiet));
    OneStepSolo(wfOf, gate, log, memo, Claiming(r), out, Local(log1, memo, AtBody(r, r.Gated()), Quiet));
    OneStepSolo(wfOf, gate, log1, memo, AtBody(r, r.Gated()), out,
                Local(log1, memo, AtResult(r, v), RanBody(Place(r.a.sid, r.Pos()), r.Next().name, r.Gated())));
    OneStepSolo(wfOf, gate, log1, memo, AtResult(r, v), out, Local(log2, memo, AtToolSave(r, v), Quiet));
    OneStepSolo(wfOf, gate, log2, memo, AtToolSave(r, v), out, Local(log2, Put(memo, r.Key(), v), AtTool(r.Push(v)), Quiet));
  }

  lemma CallBlocks(log: Log, memo: Memo, r: Run, outs: Outs)
    requires r.Gated() && r.a.mode == Live && r.Key() !in memo
    requires Slot(r.a.sid, r.Pos(), ToolCall) in log
    requires Accepts(log, Slot(r.a.sid, r.Pos() + 1, Abort), PAbort(r.Next().name))
    ensures RunOn(log, memo, AtTool(r), outs)
         == Final(Put(log, Slot(r.a.sid, r.Pos() + 1, Abort), PAbort(r.Next().name)), memo,
                  Failed(r.a, BlockedNeedsGate(r.Next().name)), [])
  {
    var log' := Put(log, Slot(r.a.sid, r.Pos() + 1, Abort), PAbort(r.Next().name));
    Unroll(log, memo, AtTool(r), outs, Local(log, memo, AtClaim(r), Quiet));
    Unroll(log, memo, AtClaim(r), outs, Local(log, memo, AtAbort(r), Quiet));
    Unroll(log, memo, AtAbort(r), outs, Local(log', memo, Failed(r.a, BlockedNeedsGate(r.Next().name)), Quiet));
  }

  // ---- What a resume does

  /** A gated call whose TOOL_CALL is logged without a memo. */
  ghost predicate Stuck(wfOf: StepId -> string, gate: string -> bool, log: Log, memo: Memo, sid: StepId, calls: seq<Call>, i: nat) {
    i < |calls| && gate(calls[i].name) && Slot(sid, CallSeq(i), ToolCall) in log && !Keyed(wfOf, memo, sid, calls[i].name, i)
  }

  ghost predicate FirstStuck(wfOf: StepId -> string, gate: string -> bool, log: Log, memo: Memo, sid: StepId, calls: seq<Call>, b: nat) {
    Stuck(wfOf, gate, log, memo, sid, calls, b) && forall j: nat | j < b :: !Stuck(wfOf, gate, log, memo, sid, calls, j)
  }

  /** A plain tool that runs again answers what is already logged for it. */
  ghost predicate Replays(wfOf: StepId -> string, gate: string -> bool, log: Log, memo: Memo, sid: StepId, calls: seq<Call>, outs: Outs, i: nat) {
    && outs.tool(i).Value?
    && (i < |calls| && !gate(calls[i].name) && !Keyed(wfOf, memo, sid, calls[i].name, i) ==>
          Accepts(log, Slot(sid, CallSeq(i) + 1, ToolResult), PResult(outs.tool(i).v)))
  }

  ghost predicate Resumable(wfOf: StepId -> string, gate: string -> bool, log: Log, memo: Memo, r: Run, outs: Outs) {
    && r.a.mode == Live
    && (forall i: nat | i < |r.calls| :: r.calls[i].name in r.a.tools)
    && (forall i: nat {:trigger Replays(wfOf, gate, log, memo, r.a.sid, r.calls, outs, i)} | |r.results| <= i < |r.calls| ::
          Replays(wfOf, gate, log, memo, r.a.sid, r.calls, outs, i))
  }

  /** The run commits, or it blocks at b and leaves an ABORT there. */
  ghost predicate Commits(f: Final, r: Run) {
    && f.w.Done? && f.w.r.a == r.a && f.w.r.plan == r.plan && f.w.r.calls == r.calls
    && |f.w.r.results| == |r.calls|
    && At(f.log, r.a.sid, CallSeq(|r.calls|), CommitStep, PCommit)
  }

  ghost predicate BlocksAt(f: Final, r: Run, b: nat) {
    && b < |r.calls|
    && f.w == Failed(r.a, BlockedNeedsGate(r.calls[b].name))
    && At(f.log, r.a.sid, CallSeq(b) + 1, Abort, PAbort(r.calls[b].name))
  }

  /** Neither a stuck call further on nor a replay obligation changes while call |r.results| is made. */
  lemma OtherCallsUntouched(wfOf: StepId -> string, gate: string -> bool, log: Log, memo: Memo, r: Run, outs: Outs, v: Json)
    requires OneStepPerWorkflow(wfOf) && Home(wfOf, r.a) && r.HasNext()
    ensures forall j: nat | j != |r.results| ::
      Stuck(wfOf, gate, CallLog(log, r, v), Put(memo, r.Key(), v), r.a.sid, r.calls, j) == Stuck(wfOf, gate, log, memo, r.a.sid, r.calls, j)
    ensures forall j: nat | j > |r.results| && Replays(wfOf, gate, log, memo, r.a.sid, r.calls, outs, j) ::
      Replays(wfOf, gate, CallLog(log, r, v), Put(memo, r.Key(), v), r.a.sid, r.calls, outs, j)
    ensures !Stuck(wfOf, gate, CallLog(log, r, v), Put(memo, r.Key(), v), r.a.sid, r.calls, |r.results|)
  {
  }

  lemma NextCallAccepted(wfOf: StepId -> string, gate: string -> bool, log: Log, memo: Memo, r: Run, outs: Outs)
    requires SoloGood(wfOf, gate, log, memo, AtTool(r)) && Resumable(wfOf, gate, log, memo, r, outs)
    requires r.HasNext() && r.Key() !in memo
    ensures r.Gated() == gate(r.Next().name) && outs.tool(|r.results|).Value?
    ensures !Stuck(wfOf, gate, log, memo, r.a.sid, r.calls, |r.results|) ==> CanCall(log, memo, r, outs.tool(|r.results|).v)
    ensures Accepts(log, Slot(r.a.sid, r.Pos() + 1, Abort), PAbort(r.Next().name))
  {
    PairsFromRun(log, r);
    assert Replays(wfOf, gate, log, memo, r.a.sid, r.calls, outs, |r.results|);
    var call, result, ab := Slot(r.a.sid, r.Pos(), ToolCall), Slot(r.a.sid, r.Pos() + 1, ToolResult), Slot(r.a.sid, r.Pos() + 1, Abort);
    assert Index(call.pos) == Index(result.pos) == |r.results|;
    if call in log { assert Placed(log, call, log[call]); }
    if result in log { assert Placed(log, result, log[result]); }
    if ab in log { assert Placed(log, ab, log[ab]); }
  }

  lemma LoopCommits(log: Log, memo: Memo, r: Run, outs: Outs)
    requires LogOk(log) && RunOk(log, r) && !r.HasNext()
    ensures Commits(RunOn(log, memo, AtTool(r), outs), r)
  {
    hide RunOn;
    PairsFromRun(log, r);
    var slot := Slot(r.a.sid, CallSeq(|r.calls|), CommitStep);
    if slot in log { assert Placed(log, slot, log[slot]); }
    Unroll(log, memo, AtTool(r), outs, Local(Put(log, slot, PCommit), memo, Done(r), Quiet));
    RunOnFinished(Put(log, slot, PCommit), memo, Done(r), outs);
  }

  lemma MemoisedCall(log: Log, memo: Memo, r: Run, outs: Outs)
    requires r.Known() && (r.a.mode == Live || !r.Gated()) && r.Key() in memo
    ensures RunOn(log, memo, AtTool(r), outs) == RunOn(log, memo, AtTool(r.Push(memo[r.Key()])), outs)
  {
    hide RunOn;
    Unroll(log, memo, AtTool(r), outs, Local(log, memo, AtTool(r.Push(memo[r.Key()])), Quiet));
  }

  ghost predicate Dichotomy(wfOf: StepId -> string, gate: string -> bool, log: Log, memo: Memo, r: Run, f: Final) {
    && (forall b: nat | FirstStuck(wfOf, gate, log, memo, r.a.sid, r.calls, b) :: BlocksAt(f, r, b))
    && ((forall j: nat :: !Stuck(wfOf, gate, log, memo, r.a.sid, r.calls, j)) ==> Commits(f, r))
  }

  /** The same calls are stuck in two states, so the dichotomy holds of one as of the other. */
  lemma DichotomyBack(wfOf: StepId -> string, gate: string -> bool, log: Log, memo: Memo, log': Log, memo': Memo, r: Run, r': Run, f: Final)
    requires r'.a == r.a && r'.plan == r.plan && r'.calls == r.calls
    requires Dichotomy(wfOf, gate, log', memo', r', f)
    requires forall j: nat :: Stuck(wfOf, gate, log', memo', r.a.sid, r.calls, j) == Stuck(wfOf, gate, log, memo, r.a.sid, r.calls, j)
    ensures Dichotomy(wfOf, gate, log, memo, r, f)
  {
    hide Stuck;
    forall b: nat | FirstStuck(wfOf, gate, log, memo, r.a.sid, r.calls, b) ensures BlocksAt(f, r, b) {
      assert FirstStuck(wfOf, gate, log', memo', r.a.sid, r.calls, b);
    }
  }

  lemma DichotomyHere(wfOf: StepId -> string, gate: string -> bool, log: Log, memo: Memo, r: Run, outs: Outs)
    requires SoloGood(wfOf, gate, log, memo, AtTool(r)) && Resumable(wfOf, gate, log, memo, r, outs) && r.HasNext()
    requires Stuck(wfOf, gate, log, memo, r.a.sid, r.calls, |r.results|)
    ensures Dichotomy(wfOf, gate, log, memo, r, RunOn(log, memo, AtTool(r), outs))
  {
    hide RunOn, StepWorker, LogOk, MemoOk, LogBacked, LogSettled;
    NothingStuckBelow(wfOf, log, memo, gate, r);
    NextCallAccepted(wfOf, gate, log, memo, r, outs);
    CallBlocks(log, memo, r, outs);
  }

  lemma NothingStuckBelow(wfOf: StepId -> string, log: Log, memo: Memo, gate: string -> bool, r: Run)
    requires RunOk(log, r) && WorkerBacked(wfOf, log, memo, AtTool(r))
    ensures forall j: nat | j < |r.results| :: !Stuck(wfOf, gate, log, memo, r.a.sid, r.calls, j)
  {
    PairsFromRun(log, r);
    forall j: nat | j < |r.results| ensures !Stuck(wfOf, gate, log, memo, r.a.sid, r.calls, j) {
      assert MemoAt(wfOf, log, memo, r.a.sid, j);
    }
  }

  lemma {:induction false} ToolLoopRecovers(wfOf: StepId -> string, gate: string -> bool, log: Log, memo: Memo, r: Run, outs: Outs)
    requires OneStepPerWorkflow(wfOf) && SoloGood(wfOf, gate, log, memo, AtTool(r))
    requires Resumable(wfOf, gate, log, memo, r, outs)
    ensures Dichotomy(wfOf, gate, log, memo, r, RunOn(log, memo, AtTool(r), outs))
    decreases |r.calls| - |r.results|
  {
    hide RunOn, StepWorker, LogOk, MemoOk, LogBacked, LogSettled;
    var i := |r.results|;
    if !r.HasNext() {
      NothingStuckBelow(wfOf, log, memo, gate, r);
      LoopCommits(log, memo, r, outs);
    } else if r.Key() in memo {
      var v := memo[r.Key()];
      MemoisedSolo(wfOf, gate, log, memo, r);
      MemoisedCall(log, memo, r, outs);
      ToolLoopRecovers(wfOf, gate, log, memo, r.Push(v), outs);
      DichotomyBack(wfOf, gate, log, memo, log, memo, r, r.Push(v), RunOn(log, memo, AtTool(r), outs));
    } else if Stuck(wfOf, gate, log, memo, r.a.sid, r.calls, i) {
      DichotomyHere(wfOf, gate, log, memo, r, outs);
    } else {
      NextCallAccepted(wfOf, gate, log, memo, r, outs);
      var v := outs.tool(i).v;
      var log', memo' := CallLog(log, r, v), Put(memo, r.Key(), v);
      CallRuns(log, memo, r, outs);
      CallKeepsSolo(wfOf, gate, log, memo, r, outs.tool(i));
      OtherCallsUntouched(wfOf, gate, log, memo, r, outs, v);
      StillResumable(wfOf, gate, log, memo, r, outs, v);
      ToolLoopRecovers(wfOf, gate, log', memo', r.Push(v), outs);
      DichotomyBack(wfOf, gate, log, memo, log', memo', r, r.Push(v), RunOn(log', memo', AtTool(r.Push(v)), outs));
    }
  }

  lemma MemoisedSolo(wfOf: StepId -> string, gate: string -> bool, log: Log, memo: Memo, r: Run)
    requires OneStepPerWorkflow(wfOf) && SoloGood(wfOf, gate, log, memo, AtTool(r))
    requires r.Known() && r.a.mode == Live && r.Key() in memo
    ensures SoloGood(wfOf, gate, log, memo, AtTool(r.Push(memo[r.Key()])))
  {
    OneStepSolo(wfOf, gate, log, memo, AtTool(r), Outcome.Error, Local(log, memo, AtTool(r.Push(memo[r.Key()])), Quiet));
  }

  lemma StillResumable(wfOf: StepId -> string, gate: string -> bool, log: Log, memo: Memo, r: Run, outs: Outs, v: Json)
    requires OneStepPerWorkflow(wfOf) && Home(wfOf, r.a) && r.HasNext()
    requires Resumable(wfOf, gate, log, memo, r, outs)
    ensures Resumable(wfOf, gate, CallLog(log, r, v), Put(memo, r.Key(), v), r.Push(v), outs)
  {
    OtherCallsUntouched(wfOf, gate, log, memo, r, outs, v);
    forall j: nat | |r.results| < j < |r.calls|
      ensures Replays(wfOf, gate, CallLog(log, r, v), Put(memo, r.Key(), v), r.a.sid, r.calls, outs, j)
    {
      assert Replays(wfOf, gate, log, memo, r.a.sid, r.calls, outs, j);
    }
  }
}
