/** What the calls of a plan are, said of the plan's JSON alone. */
module PlanReading {
  import opened Base
  import opened Protocol

  /** The item is an object whose "name" and "args" are those of the call. */
  predicate Reads(item: Json, c: Call) {
    && item.Obj?
    && c.name != "" && Get(item.members, "name") == Str(c.name)
    && (Get(item.members, "args") == Obj(c.args) || (Get(item.members, "args") == Null && c.args == map[]))
  }

  /** No object, no name, an empty name, or args that are neither an object nor null. */
  predicate Malformed(item: Json) {
    || !item.Obj?
    || !Get(item.members, "name").Str? || Get(item.members, "name") == Str("")
    || !(Get(item.members, "args").Obj? || Get(item.members, "args") == Null)
  }

  lemma ParseCallReads(item: Json)
    ensures ParseCall(item).None? <==> Malformed(item)
    ensures ParseCall(item).Some? ==> Reads(item, ParseCall(item).value)
  {}

  lemma {:induction false} ParseCallsReads(items: seq<Json>)
    ensures ParseCalls(items).None? <==> exists i | 0 <= i < |items| :: Malformed(items[i])
    ensures ParseCalls(items).Some? ==>
      |ParseCalls(items).value| == |items| && forall i | 0 <= i < |items| :: Reads(items[i], ParseCalls(items).value[i])
  {
    hide ParseCall, Malformed, Reads;
    if items != [] {
      ParseCallReads(items[0]);
      ParseCallsReads(items[1..]);
      assert forall i | 0 <= i < |items[1..]| :: items[1..][i] == items[i + 1];
      assert forall i | 1 <= i < |items| :: items[i] == items[1..][i - 1];
    }
  }

  /** The plan has a list under "tool_calls". */
  predicate HasList(plan: Object) {
    "tool_calls" in plan && plan["tool_calls"].Arr?
  }

  /**
   * A plan has calls exactly when it has a list without a malformed item; and then there is one
   * call for each item, with the item's own name and args.
   */
  lemma ToolCallsReadThePlan(plan: Object)
    ensures ToolCalls(plan).None? <==> !HasList(plan) || exists i | 0 <= i < |plan["tool_calls"].items| :: Malformed(plan["tool_calls"].items[i])
    ensures ToolCalls(plan).Some? ==>
      && HasList(plan) && |ToolCalls(plan).value| == |plan["tool_calls"].items|
      && forall i | 0 <= i < |ToolCalls(plan).value| :: Reads(plan["tool_calls"].items[i], ToolCalls(plan).value[i])
  {
    hide Malformed, Reads, ParseCalls;
    if HasList(plan) {
      ParseCallsReads(plan["tool_calls"].items);
    }
  }
}
