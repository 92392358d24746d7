/**
 * RunStep as the code runs it: a method that appends to the log and saves to the backend,
 * proved to have exactly the effect of iterating the atomic steps of `Protocol`.
 */
module RunStep {
  import opened Base
  import opened SlotMap
  import opened Protocol
  import opened Recovery

  class NodeLog {
    var slots: Log

    /** Appends idempotently. False is a slot conflict. */
    method Append(slot: Slot, p: Payload) returns (ok: bool)
      modifies this
      ensures slots == Put(old(slots), slot, p) && ok == Accepts(old(slots), slot, p)
    {
      if slot !in slots {
        slots := slots[slot := p];
        ok := true;
      } else {
        ok := slots[slot] == p;
      }
    }

    /** Takes the TOOL_CALL slot. False means that it was taken already. */
    method ClaimToolCall(slot: Slot, p: Payload) returns (claimed: bool)
      modifies this
      ensures slots == Put(old(slots), slot, p) && claimed == (slot !in old(slots))
    {
      claimed := slot !in slots;
      if claimed {
        slots := slots[slot := p];
      }
    }
  }

  class Backend {
    var data: Memo

    method Load(key: (string, MemoKey)) returns (v: Option<Json>)
      ensures v == if key in data then Some(data[key]) else None
    {
      v := if key in data then Some(data[key]) else None;
    }

    /** First writer wins. */
    method Save(key: (string, MemoKey), v: Json)
      modifies this
      ensures data == Put(old(data), key, v)
    {
      if key !in data {
        data := data[key := v];
      }
    }
  }

  datatype StepResult<+T> = Ok(value: T) | Err(error: Error)

  function WithEvents(events: seq<Event>, f: Final): Final {
    f.(events := events + f.events)
  }

  /** The calls of a plan, item by item, or nothing at the first malformed item. */
  method ToolCallsFromPlan(plan: Object) returns (calls: Option<seq<Call>>)
    ensures calls == ToolCalls(plan)
  {
    if "tool_calls" !in plan || !plan["tool_calls"].Arr? {
      return None;
    }
    var list := plan["tool_calls"].items;
    var out: seq<Call> := [];
    var i := 0;
    assert list[0..] == list;
    assert forall cs: seq<Call> :: [] + cs == cs;
    while i < |list|
      invariant 0 <= i <= |list|
      invariant ParseCalls(list) == match ParseCalls(list[i..]) { case None => None case Some(rest) => Some(out + rest) }
    {
      assert list[i..][1..] == list[i + 1..];
      match ParseCall(list[i]) {
        case None => return None;
        case Some(c) =>
          ghost var rest := ParseCalls(list[i + 1..]);
          assert rest.Some? ==> out + ([c] + rest.value) == (out + [c]) + rest.value;
          out := out + [c];
      }
      i := i + 1;
    }
    assert list[i..] == [] && out + [] == out;
    calls := Some(out);
  }

  /** The body of the gated wrapper: claim, run, log the result; or log an ABORT and block. */
  method GatedCall(log: NodeLog, ghost memo: Memo, r: Run, outs: Outs) returns (res: StepResult<Json>, events: seq<Event>)
    requires r.HasNext()
    modifies log
    ensures res.Ok? ==>
      RunOn(old(log.slots), memo, AtClaim(r), outs)
        == WithEvents(events, RunOn(log.slots, memo, AtToolSave(r, res.value), outs))
    ensures res.Err? ==>
      RunOn(old(log.slots), memo, AtClaim(r), outs)
        == Final(log.slots, memo, Failed(r.a, res.error), events)
  {
    hide RunOn;
    events := [];
    var claimed := log.ClaimToolCall(Slot(r.a.sid, r.Pos(), ToolCall), PCall(r.Next()));
    Unroll(old(log.slots), memo, AtClaim(r), outs, Local(log.slots, memo, if claimed then AtBody(r, true) else AtAbort(r), Quiet));
    if !claimed {
      ghost var before := log.slots;
      var ok := log.Append(Slot(r.a.sid, r.Pos() + 1, Abort), PAbort(r.Next().name));
      res := Err(if ok then BlockedNeedsGate(r.Next().name) else SlotConflict);
      Unroll(before, memo, AtAbort(r), outs, Local(log.slots, memo, Failed(r.a, res.error), Quiet));
      RunOnFinished(log.slots, memo, Failed(r.a, res.error), outs);
      return;
    }
    res, events := BodyAndResult(log, memo, r, true, outs);
  }

  /** The body of the plain wrapper: log the call, run, log the result. */
  method PlainCall(log: NodeLog, ghost memo: Memo, r: Run, outs: Outs) returns (res: StepResult<Json>, events: seq<Event>)
    requires r.HasNext()
    modifies log
    ensures res.Ok? ==>
      RunOn(old(log.slots), memo, AtCall(r), outs)
        == WithEvents(events, RunOn(log.slots, memo, AtToolSave(r, res.value), outs))
    ensures res.Err? ==>
      RunOn(old(log.slots), memo, AtCall(r), outs)
        == Final(log.slots, memo, Failed(r.a, res.error), events)
  {
    hide RunOn;
    events := [];
    var ok := log.Append(Slot(r.a.sid, r.Pos(), ToolCall), PCall(r.Next()));
    Unroll(old(log.slots), memo, AtCall(r), outs,
           Local(log.slots, memo, if ok then AtBody(r, false) else Failed(r.a, SlotConflict), Quiet));
    if !ok {
      RunOnFinished(log.slots, memo, Failed(r.a, SlotConflict), outs);
      return Err(SlotConflict), [];
    }
    res, events := BodyAndResult(log, memo, r, false, outs);
  }

  method BodyAndResult(log: NodeLog, ghost memo: Memo, r: Run, gated: bool, outs: Outs) returns (res: StepResult<Json>, events: seq<Event>)
    requires r.HasNext()
    modifies log
    ensures res.Ok? ==>
      RunOn(old(log.slots), memo, AtBody(r, gated), outs)
        == WithEvents(events, RunOn(log.slots, memo, AtToolSave(r, res.value), outs))
    ensures res.Err? ==>
      RunOn(old(log.slots), memo, AtBody(r, gated), outs)
        == Final(log.slots, memo, Failed(r.a, res.error), events)
  {
    hide RunOn;
    var out := outs.tool(|r.results|);
    var ran := RanBody(Place(r.a.sid, r.Pos()), r.Next().name, gated);
    events := [ran];
    if out.Error? {
      Unroll(log.slots, memo, AtBody(r, gated), outs, Local(log.slots, memo, Failed(r.a, ToolError), ran));
      RunOnFinished(log.slots, memo, Failed(r.a, ToolError), outs);
      return Err(ToolError), events;
    }
    Unroll(log.slots, memo, AtBody(r, gated), outs, Local(log.slots, memo, AtResult(r, out.v), ran));
    ghost var before := log.slots;
    var ok := log.Append(Slot(r.a.sid, r.Pos() + 1, ToolResult), PResult(out.v));
    Unroll(before, memo, AtResult(r, out.v), outs,
           Local(log.slots, memo, if ok then AtToolSave(r, out.v) else Failed(r.a, SlotConflict), Quiet));
    if ok {
      res := Ok(out.v);
    } else {
      RunOnFinished(log.slots, memo, Failed(r.a, SlotConflict), outs);
      res := Err(SlotConflict);
    }
  }

  /** One turn of the tool loop: registry, mode, memo, and otherwise the wrapped call and its memo. */
  method CallTool(log: NodeLog, backend: Backend, r: Run, outs: Outs) returns (res: StepResult<Json>, events: seq<Event>)
    requires r.HasNext()
    modifies log, backend
    ensures res.Ok? ==>
      RunOn(old(log.slots), old(backend.data), AtTool(r), outs)
        == WithEvents(events, RunOn(log.slots, backend.data, AtTool(r.Push(res.value)), outs))
    ensures res.Err? ==>
      RunOn(old(log.slots), old(backend.data), AtTool(r), outs)
        == Final(log.slots, backend.data, Failed(r.a, res.error), events)
  {
    hide RunOn;
    ghost var slots, memo := log.slots, backend.data;
    events := [];
    var name := r.Next().name;
    if name !in r.a.tools || (r.a.mode == Sandbox && RequiresBlockAndGate(r.a.tools[name])) {
      res := Err(if name !in r.a.tools then UnknownTool(name) else SandboxForbidden(name));
      Unroll(slots, memo, AtTool(r), outs, Local(slots, memo, Failed(r.a, res.error), Quiet));
      RunOnFinished(slots, memo, Failed(r.a, res.error), outs);
      return;
    }
    var saved := backend.Load(r.Key());
    if saved.Some? {
      Unroll(slots, memo, AtTool(r), outs, Local(slots, memo, AtTool(r.Push(saved.value)), Quiet));
      return Ok(saved.value), [];
    }
    if RequiresBlockAndGate(r.a.tools[name]) {
      Unroll(slots, memo, AtTool(r), outs, Local(slots, memo, AtClaim(r), Quiet));
      res, events := GatedCall(log, memo, r, outs);
    } else {
      Unroll(slots, memo, AtTool(r), outs, Local(slots, memo, AtCall(r), Quiet));
      res, events := PlainCall(log, memo, r, outs);
    }
    if res.Ok? {
      backend.Save(r.Key(), res.value);
      Unroll(log.slots, memo, AtToolSave(r, res.value), outs,
             Local(log.slots, backend.data, AtTool(r.Push(res.value)), Quiet));
    }
  }

  /** Infers the plan through the memo: the saved value, or what the model answers now. */
  method InferPlan(log: NodeLog, backend: Backend, a: Attempt, outs: Outs) returns (res: StepResult<Object>, events: seq<Event>)
    modifies backend
    ensures res.Ok? ==>
      RunOn(log.slots, old(backend.data), AtInfer(a), outs)
        == WithEvents(events, RunOn(log.slots, backend.data, AtDecision(a, res.value), outs))
    ensures res.Err? ==>
      RunOn(log.slots, old(backend.data), AtInfer(a), outs)
        == Final(log.slots, backend.data, Failed(a, res.error), events)
  {
    hide RunOn;
    ghost var slots, memo := log.slots, backend.data;
    var key := (Workflow(a), InferKey(a.sid.step));
    var saved := backend.Load(key);
    var v: Json;
    if saved.Some? {
      v, events := saved.value, [];
      Unroll(slots, memo, AtInfer(a), outs, Local(slots, memo, WithPlan(a, v), Quiet));
    } else {
      events := [RanModel(a.sid)];
      Unroll(slots, memo, AtInfer(a), outs, Local(slots, memo, AtModel(a), Quiet));
      if outs.model.Error? {
        Unroll(slots, memo, AtModel(a), outs, Local(slots, memo, Failed(a, ModelError), RanModel(a.sid)));
        RunOnFinished(slots, memo, Failed(a, ModelError), outs);
        return Err(ModelError), events;
      }
      v := outs.model.v;
      Unroll(slots, memo, AtModel(a), outs, Local(slots, memo, AtInferSave(a, v), RanModel(a.sid)));
      backend.Save(key, v);
      Unroll(slots, memo, AtInferSave(a, v), outs, Local(slots, backend.data, WithPlan(a, v), Quiet));
    }
    match AsStringMap(v) {
      case None =>
        RunOnFinished(slots, backend.data, Failed(a, BadPlan), outs);
        res := Err(BadPlan);
      case Some(plan) => res := Ok(plan);
    }
  }

  function Returned(w: Worker): StepResult<seq<Json>>
    requires w.Done? || w.Failed?
  {
    if w.Done? then Ok(w.r.results) else Err(w.err)
  }

  /** The tool loop and the closing COMMIT_STEP. */
  method RunTools(log: NodeLog, backend: Backend, start: Run, outs: Outs) returns (res: StepResult<seq<Json>>, events: seq<Event>)
    requires |start.results| <= |start.calls|
    modifies log, backend
    ensures var f := RunOn(old(log.slots), old(backend.data), AtTool(start), outs);
      && log.slots == f.log && backend.data == f.memo && events == f.events
      && (f.w.Done? || f.w.Failed?) && res == Returned(f.w)
  {
    hide RunOn;
    ghost var f := RunOn(log.slots, backend.data, AtTool(start), outs);
    var r := start;
    events := [];
    while |r.results| < |r.calls|
      invariant |r.results| <= |r.calls| && r.a == start.a
      invariant f == WithEvents(events, RunOn(log.slots, backend.data, AtTool(r), outs))
    {
      var result, ran := CallTool(log, backend, r, outs);
      if result.Err? {
        return Err(result.error), events + ran;
      }
      ghost var rest := RunOn(log.slots, backend.data, AtTool(r.Push(result.value)), outs);
      assert events + (ran + rest.events) == (events + ran) + rest.events;
      events := events + ran;
      r := r.Push(result.value);
    }
    ghost var last := log.slots;
    var ok := log.Append(Slot(r.a.sid, CallSeq(|r.calls|), CommitStep), PCommit);
    ghost var end := if ok then Done(r) else Failed(r.a, SlotConflict);
    Unroll(last, backend.data, AtTool(r), outs, Local(log.slots, backend.data, end, Quiet));
    RunOnFinished(log.slots, backend.data, end, outs);
    res := if ok then Ok(r.results) else Err(SlotConflict);
  }

  /**
   * Runs one agent step. Log, memo, result and the calls made to model and tools are those of
   * the worker script run to its end.
   */
  method RunStep(log: NodeLog, backend: Backend, a: Attempt, outs: Outs) returns (res: StepResult<seq<Json>>, events: seq<Event>)
    modifies log, backend
    ensures var f := RunOn(old(log.slots), old(backend.data), AtContext(a), outs);
      && log.slots == f.log && backend.data == f.memo && events == f.events
      && (f.w.Done? || f.w.Failed?) && res == Returned(f.w)
  {
    hide RunOn;
    ghost var slots, memo := log.slots, backend.data;
    ghost var f := RunOn(slots, memo, AtContext(a), outs);
    events := [];
    if !ValidAttempt(a) {
      Unroll(slots, memo, AtContext(a), outs, Local(slots, memo, Failed(a, BadNode), Quiet));
      RunOnFinished(slots, memo, Failed(a, BadNode), outs);
      return Err(BadNode), [];
    }
    var ok := log.Append(Slot(a.sid, 0, ProjectContext), PContext(a.ctx));
    Unroll(slots, memo, AtContext(a), outs, Local(log.slots, memo, if ok then AtInfer(a) else Failed(a, SlotConflict), Quiet));
    if !ok {
      RunOnFinished(log.slots, memo, Failed(a, SlotConflict), outs);
      return Err(SlotConflict), [];
    }
    var inferred, asked := InferPlan(log, backend, a, outs);
    events := asked;
    if inferred.Err? {
      return Err(inferred.error), events;
    }
    var plan := inferred.value;
    ghost var before := log.slots;
    ok := log.Append(Slot(a.sid, 1, Decision), PPlan(plan));
    var calls := ToolCallsFromPlan(plan);
    if !ok || calls.None? {
      res := Err(if ok then BadPlan else SlotConflict);
      Unroll(before, backend.data, AtDecision(a, plan), outs, Local(log.slots, backend.data, Failed(a, res.error), Quiet));
      RunOnFinished(log.slots, backend.data, Failed(a, res.error), outs);
      return;
    }
    var r := Run(a, plan, calls.value, []);
    Unroll(before, backend.data, AtDecision(a, plan), outs, Local(log.slots, backend.data, AtTool(r), Quiet));
    var ran;
    res, ran := RunTools(log, backend, r, outs);
    events := events + ran;
  }
}
