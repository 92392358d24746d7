/**
 * Block and gate: in every run, whatever workers, crashes, lost memos and foreign log
 * writers do, the body of a gated tool runs at most once at one (step, seq).
 */
module AtMostOnce {
  import opened Protocol

  /** The worker has won the claim of `p` and not run the body yet. */
  predicate Holds(w: Worker, p: Place) {
    w.AtBody? && w.gated && Place(w.r.a.sid, w.r.Pos()) == p
  }

  function Holders(ws: seq<Worker>, p: Place): nat {
    if ws == [] then 0 else (if Holds(ws[0], p) then 1 else 0) + Holders(ws[1..], p)
  }

  lemma {:induction false} HoldersUpdate(ws: seq<Worker>, i: nat, w: Worker, p: Place)
    requires i < |ws|
    ensures Holders(ws[i := w], p) + (if Holds(ws[i], p) then 1 else 0)
         == Holders(ws, p) + (if Holds(w, p) then 1 else 0)
  {
    if i == 0 {
      assert ws[0 := w][1..] == ws[1..];
    } else {
      assert ws[i := w][1..] == ws[1..][i - 1 := w];
      HoldersUpdate(ws[1..], i - 1, w, p);
    }
  }

  lemma {:induction false} NoHolders(n: nat, p: Place)
    ensures Holders(seq(n, _ => Idle), p) == 0
  {
    if n > 0 {
      assert seq(n, _ => Idle)[1..] == seq(n - 1, _ => Idle);
      NoHolders(n - 1, p);
    }
  }

  predicate Claimed(log: Log, p: Place) {
    Slot(p.sid, p.pos, ToolCall) in log
  }

  /** Conservation: runs so far plus runs still owed never exceed the one claim the slot can give. */
  ghost predicate Conserved(s: State, p: Place) {
    s.gated[p] + Holders(s.workers, p) <= if Claimed(s.log, p) then 1 else 0
  }

  function Bit(b: bool): nat {
    if b then 1 else 0
  }

  predicate RunsGated(e: Event, p: Place) {
    e.RanBody? && e.gated && e.place == p
  }

  /** A step pays for a run with a held claim, and for a held claim with a newly filled slot. */
  lemma WorkerConserves(log: Log, memo: Memo, w: Worker, out: Outcome, p: Place)
    ensures var l := StepWorker(log, memo, w, out);
      Bit(RunsGated(l.event, p)) + Bit(Holds(l.w, p)) + Bit(Claimed(log, p))
        <= Bit(Holds(w, p)) + Bit(Claimed(l.log, p))
  {
    hide ToolCalls, ValidAttempt;
  }

  lemma ConservedStep(s: State, act: Action, p: Place)
    requires Conserved(s, p)
    ensures Conserved(Next(s, act), p)
  {
    hide ToolCalls, ValidAttempt;
    match act
    case Start(w, a) => if w < |s.workers| { HoldersUpdate(s.workers, w, AtContext(a), p); }
    case Crash(w) => if w < |s.workers| { HoldersUpdate(s.workers, w, Idle, p); }
    case Step(w, out) =>
      if w < |s.workers| {
        WorkerConserves(s.log, s.memo, s.workers[w], out, p);
        HoldersUpdate(s.workers, w, StepWorker(s.log, s.memo, s.workers[w], out).w, p);
      }
    case LoseMemo(_) =>
    case Foreign(_, _) =>
  }

  lemma {:induction false} ConservedRun(s: State, acts: seq<Action>, p: Place)
    requires Conserved(s, p)
    ensures Conserved(Exec(s, acts), p)
    decreases |acts|
  {
    if acts != [] {
      ConservedStep(s, acts[0], p);
      ConservedRun(Next(s, acts[0]), acts[1..], p);
    }
  }

  /** No run of the system executes a gated body twice at one place. */
  lemma GatedBodyRunsAtMostOnce(n: nat, acts: seq<Action>, p: Place)
    ensures Exec(Init(n), acts).gated[p] <= 1
  {
    NoHolders(n, p);
    ConservedRun(Init(n), acts, p);
  }

  // ---- The same for tools whose effect class is the gated one in every attempt

  /** The attempt gives the gated class to every name in `gate` that it knows. */
  predicate Gates(gate: string -> bool, a: Attempt) {
    forall name | name in a.tools && gate(name) :: RequiresBlockAndGate(a.tools[name])
  }

  predicate GatesIn(gate: string -> bool, act: Action) {
    act.Start? ==> Gates(gate, act.a)
  }

  /** A name in `gate` never takes the plain path. */
  predicate OnGatedPath(gate: string -> bool, w: Worker) {
    && (AttemptOf(w).Some? ==> Gates(gate, AttemptOf(w).value))
    && (w.AtCall? ==> w.r.Known() && !gate(w.r.Next().name))
    && (w.AtBody? ==> w.r.HasNext() && (gate(w.r.Next().name) ==> w.gated))
  }

  /** A step never changes the arguments it works for. */
  lemma StepKeepsAttempt(log: Log, memo: Memo, w: Worker, out: Outcome)
    ensures AttemptOf(StepWorker(log, memo, w, out).w) == AttemptOf(w)
  {
    hide ToolCalls, ValidAttempt;
  }

  lemma OnGatedPathStep(gate: string -> bool, log: Log, memo: Memo, w: Worker, out: Outcome)
    requires OnGatedPath(gate, w)
    ensures OnGatedPath(gate, StepWorker(log, memo, w, out).w)
    ensures var e := StepWorker(log, memo, w, out).event; e.RanBody? && gate(e.name) ==> e.gated
  {
    hide ToolCalls, ValidAttempt;
    StepKeepsAttempt(log, memo, w, out);
  }

  ghost predicate BodiesGated(gate: string -> bool, s: State) {
    && (forall w | w in s.workers :: OnGatedPath(gate, w))
    && (forall p, name | gate(name) :: s.bodies[(p, name)] <= s.gated[p])
  }

  lemma BodiesGatedAdvance(gate: string -> bool, s: State, w: nat, l: Local)
    requires BodiesGated(gate, s) && w < |s.workers|
    requires OnGatedPath(gate, l.w)
    requires l.event.RanBody? && gate(l.event.name) ==> l.event.gated
    ensures BodiesGated(gate, Advance(s, w, l))
  {
  }

  lemma BodiesGatedStep(gate: string -> bool, s: State, act: Action)
    requires BodiesGated(gate, s) && GatesIn(gate, act)
    ensures BodiesGated(gate, Next(s, act))
  {
    if act.Step? && act.w < |s.workers| {
      OnGatedPathStep(gate, s.log, s.memo, s.workers[act.w], act.out);
      BodiesGatedAdvance(gate, s, act.w, StepWorker(s.log, s.memo, s.workers[act.w], act.out));
    }
  }

  lemma {:induction false} BodiesGatedRun(gate: string -> bool, s: State, acts: seq<Action>)
    requires BodiesGated(gate, s)
    requires forall act | act in acts :: GatesIn(gate, act)
    ensures BodiesGated(gate, Exec(s, acts))
    decreases |acts|
  {
    if acts != [] {
      BodiesGatedStep(gate, s, acts[0]);
      BodiesGatedRun(gate, Next(s, acts[0]), acts[1..]);
    }
  }

  /**
   * When a tool's class is NON_IDEMPOTENT_WRITE in every attempt, every run of its body is a
   * gated run, so it runs at most once per (tenant, trajectory, step, seq).
   */
  lemma FixedGatedToolRunsAtMostOnce(n: nat, acts: seq<Action>, p: Place, name: string)
    requires forall act | act in acts :: GatesIn(x => x == name, act)
    ensures Exec(Init(n), acts).bodies[(p, name)] <= 1
  {
    BodiesGatedRun(x => x == name, Init(n), acts);
    GatedBodyRunsAtMostOnce(n, acts, p);
  }
}
