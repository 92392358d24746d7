/** Sandbox runs, in any number and interleaving, never touch what a gated tool leaves in the log. */
module Sandbox {
  import opened SlotMap
  import opened Protocol
  import opened AtMostOnce

  /** Attempts are sandbox ones, and give every name in `gate` that they know the gated class. */
  predicate SandboxAttempt(gate: string -> bool, a: Attempt) {
    a.mode == Mode.Sandbox && forall name | name in a.tools && gate(name) :: a.tools[name] == NonIdempotentWrite
  }

  predicate SandboxAct(gate: string -> bool, act: Action) {
    match act
    case Start(_, a) => SandboxAttempt(gate, a)
    case Foreign(_, _) => false
    case _ => true
  }

  /** The worker is in the tool loop for a call that is not gated, or not there at all. */
  predicate Harmless(gate: string -> bool, w: Worker) {
    && (AttemptOf(w).Some? ==> SandboxAttempt(gate, AttemptOf(w).value))
    && !w.AtClaim? && !w.AtAbort?
    && (w.AtCall? ==> w.r.HasNext() && !gate(w.r.Next().name))
    && (w.AtBody? ==> w.r.HasNext() && !w.gated && !gate(w.r.Next().name))
  }

  /** The slot holds the TOOL_CALL of a tool in `gate`, or an ABORT. */
  predicate GatedMark(gate: string -> bool, log: Log, slot: Slot) {
    slot in log && (slot.kind == Abort || (slot.kind == ToolCall && log[slot].PCall? && gate(log[slot].call.name)))
  }

  lemma StepHarmless(gate: string -> bool, log: Log, memo: Memo, w: Worker, out: Outcome)
    requires Harmless(gate, w)
    ensures Harmless(gate, StepWorker(log, memo, w, out).w)
  {
    hide ToolCalls, ValidAttempt;
    StepKeepsAttempt(log, memo, w, out);
  }

  lemma StepMarksNothing(gate: string -> bool, log: Log, memo: Memo, w: Worker, out: Outcome, slot: Slot)
    requires Harmless(gate, w) && GatedMark(gate, StepWorker(log, memo, w, out).log, slot)
    ensures slot in log
  {
    hide ToolCalls, ValidAttempt, AttemptOf, SandboxAttempt;
  }

  lemma StepRunsNothingGated(gate: string -> bool, log: Log, memo: Memo, w: Worker, out: Outcome)
    requires Harmless(gate, w)
    ensures var e := StepWorker(log, memo, w, out).event; e.RanBody? ==> !e.gated && !gate(e.name)
  {
    hide ToolCalls, ValidAttempt, AttemptOf, SandboxAttempt;
  }

  predicate AllHarmless(gate: string -> bool, s: State) {
    forall i | 0 <= i < |s.workers| :: Harmless(gate, s.workers[i])
  }

  /** Nothing gated is new in t: no mark in the log, no gated body, no body of a tool in `gate`. */
  ghost predicate NothingGatedAdded(gate: string -> bool, s: State, t: State) {
    && (forall slot | GatedMark(gate, t.log, slot) :: slot in s.log && slot in t.log && t.log[slot] == s.log[slot])
    && (forall slot | slot in s.log :: slot in t.log && t.log[slot] == s.log[slot])
    && t.gated == s.gated
    && (forall p, name | gate(name) :: t.bodies[(p, name)] == s.bodies[(p, name)])
  }

  lemma StepKeepsLog(log: Log, memo: Memo, w: Worker, out: Outcome)
    ensures Extends(log, StepWorker(log, memo, w, out).log)
  {
    hide ToolCalls, ValidAttempt;
  }

  lemma AdvanceAddsNothing(gate: string -> bool, s: State, w: nat, l: Local)
    requires w < |s.workers| && Extends(s.log, l.log)
    requires forall slot | GatedMark(gate, l.log, slot) :: slot in s.log
    requires l.event.RanBody? ==> !l.event.gated && !gate(l.event.name)
    ensures NothingGatedAdded(gate, s, Advance(s, w, l))
  {}

  lemma StepAddsNothing(gate: string -> bool, s: State, w: nat, out: Outcome)
    requires AllHarmless(gate, s) && w < |s.workers|
    ensures var l := StepWorker(s.log, s.memo, s.workers[w], out);
      AllHarmless(gate, Advance(s, w, l)) && NothingGatedAdded(gate, s, Advance(s, w, l))
  {
    hide StepWorker, Harmless, GatedMark;
    var l := StepWorker(s.log, s.memo, s.workers[w], out);
    StepHarmless(gate, s.log, s.memo, s.workers[w], out);
    StepKeepsLog(s.log, s.memo, s.workers[w], out);
    StepRunsNothingGated(gate, s.log, s.memo, s.workers[w], out);
    forall slot | GatedMark(gate, l.log, slot) ensures slot in s.log {
      StepMarksNothing(gate, s.log, s.memo, s.workers[w], out, slot);
    }
    AdvanceAddsNothing(gate, s, w, l);
  }

  lemma NextAddsNothing(gate: string -> bool, s: State, act: Action)
    requires AllHarmless(gate, s) && SandboxAct(gate, act)
    ensures AllHarmless(gate, Next(s, act)) && NothingGatedAdded(gate, s, Next(s, act))
  {
    hide StepWorker, Advance;
    if act.Step? && act.w < |s.workers| {
      StepAddsNothing(gate, s, act.w, act.out);
    }
  }

  lemma {:induction false} ExecAddsNothing(gate: string -> bool, s: State, acts: seq<Action>)
    requires AllHarmless(gate, s) && forall act | act in acts :: SandboxAct(gate, act)
    ensures NothingGatedAdded(gate, s, Exec(s, acts))
    decreases |acts|
  {
    hide Next, AllHarmless, SandboxAct, NothingGatedAdded;
    if acts == [] {
      NothingYet(gate, s);
    } else {
      NextAddsNothing(gate, s, acts[0]);
      ExecAddsNothing(gate, Next(s, acts[0]), acts[1..]);
      AddedNothingTwice(gate, s, Next(s, acts[0]), Exec(s, acts));
    }
  }

  lemma NothingYet(gate: string -> bool, s: State)
    ensures NothingGatedAdded(gate, s, s)
  {}

  lemma AddedNothingTwice(gate: string -> bool, s: State, t: State, u: State)
    requires NothingGatedAdded(gate, s, t) && NothingGatedAdded(gate, t, u)
    ensures NothingGatedAdded(gate, s, u)
  {
    forall slot | GatedMark(gate, u.log, slot) ensures slot in s.log && u.log[slot] == s.log[slot] {
      assert GatedMark(gate, t.log, slot);
    }
  }

  /**
   * From any state without a worker at work: runs made of sandbox attempts only, with crashes and
   * memo losses, add no TOOL_CALL of a gated tool and no ABORT, and run no gated body.
   */
  lemma SandboxLeavesGatedToolsAlone(gate: string -> bool, s: State, acts: seq<Action>)
    requires (forall i | 0 <= i < |s.workers| :: s.workers[i] == Idle) && forall act | act in acts :: SandboxAct(gate, act)
    ensures var t := Exec(s, acts);
      && (forall slot | slot in t.log && slot.kind == ToolCall && t.log[slot].PCall? && gate(t.log[slot].call.name) ::
            slot in s.log && t.log[slot] == s.log[slot])
      && (forall slot | slot in t.log && slot.kind == Abort :: slot in s.log)
      && t.gated == s.gated
      && (forall p, name | gate(name) :: t.bodies[(p, name)] == s.bodies[(p, name)])
  {
    hide Exec;
    ExecAddsNothing(gate, s, acts);
    var t := Exec(s, acts);
    forall slot | slot in t.log && slot.kind == ToolCall && t.log[slot].PCall? && gate(t.log[slot].call.name)
      ensures slot in s.log && t.log[slot] == s.log[slot]
    {
      assert GatedMark(gate, t.log, slot);
    }
    forall slot | slot in t.log && slot.kind == Abort ensures slot in s.log {
      assert GatedMark(gate, t.log, slot);
    }
  }
}
