/** Redaction applied to what the projector produced, in both languages. */
module ProjectedRedaction {
  import opened Base
  import opened Redact
  import Projector

  // ---- Python: items are a plain list

  /** The Python projector writes an empty object for a missing payload. */
  function PyItem(n: Object): Object {
    Projector.Item(n)["payload" := if Get(n, "payload").Null? then Obj(map[]) else Get(n, "payload")]
  }

  function PyContext(included: seq<Object>, budget: int, used: nat): Object {
    Projector.Context(included, budget, used)
      ["items" := Arr(seq(|included|, i requires 0 <= i < |included| => Obj(PyItem(included[i]))))]
  }

  lemma {:induction false} AllObjects(items: seq<Json>)
    requires forall i | 0 <= i < |items| :: items[i].Obj?
    ensures |Objects(items)| == |items| && forall i | 0 <= i < |items| :: items[i] == Obj(Objects(items)[i])
  {
    if items != [] {
      AllObjects(items[1..]);
    }
  }

  ghost predicate Scrubbed(p: Patterns, n: Object, item: Json) {
    && item.Obj?
    && Get(item.members, "id") == Get(n, "id") && Get(item.members, "kind") == Get(n, "kind")
    && Get(item.members, "step_n") == Get(n, "step_n") && Get(item.members, "seq") == Get(n, "seq")
    && Get(item.members, "payload").Obj? && CleanObject(p, item.members["payload"].members)
    && (AsString(Get(n, "kind")) == "THOUGHT" ==> item.members["payload"] == Obj(BLANK))
  }

  /** Every projected node keeps its place and identity; no thought and no secret is left in it. */
  lemma ProjectionIsScrubbed(p: Patterns, included: seq<Object>, budget: int, used: nat)
    requires p.Sound()
    ensures var items := Get(RedactContext(p, PyContext(included, budget, used)), "items");
      && items.Arr? && |items.items| == |included|
      && forall i | 0 <= i < |included| :: Scrubbed(p, included[i], items.items[i])
  {
    var context := PyContext(included, budget, used);
    var items := context["items"].items;
    AllObjects(items);
    ItemsKept(p, items);
    forall i | 0 <= i < |included| ensures Scrubbed(p, included[i], RedactItems(p, items)[i]) {
      var item := PyItem(included[i]);
      assert RedactItems(p, items)[i] == Obj(RedactItem(p, item));
      PayloadIdempotent(p, AsString(Get(item, "kind")), Get(item, "payload"));
    }
  }

  // ---- Go: the projector's items are a []map[string]any, which is not a []any

  datatype GoValue = Any(j: Json) | Maps(maps: seq<Object>) | Texts(texts: seq<string>)

  function GoContext(included: seq<Object>, budget: int, used: nat): map<string, GoValue> {
    map["items" := Maps(seq(|included|, i requires 0 <= i < |included| => Projector.Item(included[i]))),
        "included_ids" := Texts(Projector.IdList(included)), "budget" := Any(Num(budget as real)),
        "size_units" := Any(Num(used as real)), "metric" := Any(Str("rfc8785_bytes"))]
  }

  /** The type switch has no case for a typed slice: it is returned as it came. */
  function RedactGoValue(p: Patterns, key: string, v: GoValue): GoValue {
    if p.secretKey(key) then Any(Str(REDACTED))
    else if v.Any? then Any(RedactValue(p, key, v.j))
    else v
  }

  predicate HasAnyList(context: map<string, GoValue>) {
    "items" in context && context["items"].Any? && context["items"].j.Arr?
  }

  function RedactTyped(p: Patterns, context: map<string, GoValue>): map<string, GoValue> {
    if HasAnyList(context)
    then context["items" := Any(Arr(RedactItems(p, context["items"].j.items)))]["redacted" := Any(Bool(true))]
    else (map k | k in context :: RedactGoValue(p, k, context[k]))["redacted" := Any(Bool(true))]
  }

  method RedactTypedLoop(p: Patterns, context: map<string, GoValue>) returns (out: map<string, GoValue>)
    ensures out == RedactTyped(p, context)
  {
    if HasAnyList(context) {
      var items := RedactItemsLoop(p, context["items"].j.items);
      return context["items" := Any(Arr(items))]["redacted" := Any(Bool(true))];
    }
    out := map[];
    var todo := context.Keys;
    while todo != {}
      invariant todo <= context.Keys && out.Keys == context.Keys - todo
      invariant forall k | k in out :: out[k] == RedactGoValue(p, k, context[k])
    {
      var k :| k in todo;
      out := out[k := RedactGoValue(p, k, context[k])];
      todo := todo - {k};
    }
    out := out["redacted" := Any(Bool(true))];
  }

  // ---- When the Go redactor does what the Python one does

  /** The plain JSON that a Go value encodes. */
  function PlainValue(v: GoValue): Json {
    match v
    case Any(j) => j
    case Maps(maps) => Arr(seq(|maps|, i requires 0 <= i < |maps| => Obj(maps[i])))
    case Texts(texts) => Arr(seq(|texts|, i requires 0 <= i < |texts| => Str(texts[i])))
  }

  function PlainContext(context: map<string, GoValue>): (m: Object)
    ensures m.Keys == context.Keys && forall k | k in context :: m[k] == PlainValue(context[k])
  {
    map k | k in context :: PlainValue(context[k])
  }

  /** The item has a clean object as payload, or the blank one if it is a thought. */
  predicate CleanItem(p: Patterns, item: Object) {
    && "payload" in item && item["payload"].Obj?
    && if AsString(Get(item, "kind")) == "THOUGHT" then item["payload"].members == BLANK else CleanObject(p, item["payload"].members)
  }

  /** There is nothing for a redaction of the items to do. */
  predicate CleanItems(p: Patterns, items: GoValue) {
    match items
    case Any(_) => false
    case Maps(maps) => forall i | 0 <= i < |maps| :: CleanItem(p, maps[i])
    case Texts(texts) => texts == []
  }

  /** The Go redaction of one member leaves its plain value as it is. */
  predicate LeftAlone(p: Patterns, key: string, v: GoValue) {
    if v.Any? then Clean(p, key, v.j) else !p.secretKey(key)
  }

  /** A typed slice has nothing in it to redact, or goes away under a secret key in both languages. */
  predicate NothingMissed(p: Patterns, key: string, v: GoValue) {
    v.Any? || p.secretKey(key) || Clean(p, key, PlainValue(v))
  }

  /**
   * The items are a list of any values; or they are a typed slice that needs no redaction, and so
   * does every other member; or there are no items, the context is marked, and no typed slice
   * holds a secret.
   */
  predicate GoMatchesPython(p: Patterns, context: map<string, GoValue>) {
    if HasAnyList(context) then true
    else if "items" in context && !context["items"].Any? then
      && !p.secretKey("items") && CleanItems(p, context["items"])
      && forall k | k in context && k != "items" && k != "redacted" :: LeftAlone(p, k, context[k])
    else
      && "redacted" in context && context["redacted"] == Any(Bool(true))
      && forall k | k in context :: NothingMissed(p, k, context[k])
  }

  lemma PayloadUnchangedIffClean(p: Patterns, m: Object)
    requires p.Sound()
    ensures RedactMembers(p, m) == m <==> CleanObject(p, m)
  {
    forall k | k in m ensures RedactMembers(p, m)[k] == m[k] <==> Clean(p, k, m[k]) {
      UnchangedIffClean(p, k, m[k]);
    }
    assert RedactMembers(p, m) == m <==> forall k | k in m :: RedactMembers(p, m)[k] == m[k];
  }

  lemma ItemUnchangedIffClean(p: Patterns, item: Object)
    requires p.Sound()
    ensures RedactItem(p, item) == item <==> CleanItem(p, item)
  {
    var payload := Get(item, "payload");
    if payload.Obj? {
      PayloadUnchangedIffClean(p, payload.members);
    }
    assert RedactItem(p, item)["payload"] == Obj(RedactPayload(p, AsString(Get(item, "kind")), payload));
    assert RedactItem(p, item) == item <==> "payload" in item && item["payload"] == RedactItem(p, item)["payload"];
  }

  lemma {:induction false} NoObjects(items: seq<Json>)
    requires forall i | 0 <= i < |items| :: !items[i].Obj?
    ensures Objects(items) == []
  {
    if items != [] {
      NoObjects(items[1..]);
    }
  }

  lemma ItemsUnchangedIffClean(p: Patterns, items: GoValue)
    requires p.Sound() && !items.Any?
    ensures RedactItems(p, PlainValue(items).items) == PlainValue(items).items <==> CleanItems(p, items)
  {
    var plain := PlainValue(items).items;
    ItemsKept(p, plain);
    if items.Maps? {
      AllObjects(plain);
      forall i | 0 <= i < |plain| ensures RedactItems(p, plain)[i] == plain[i] <==> CleanItem(p, items.maps[i]) {
        assert plain[i] == Obj(items.maps[i]);
        ItemUnchangedIffClean(p, items.maps[i]);
      }
      assert RedactItems(p, plain) == plain <==> forall i | 0 <= i < |plain| :: RedactItems(p, plain)[i] == plain[i];
    } else {
      NoObjects(plain);
    }
  }

  lemma LeftAloneMeans(p: Patterns, key: string, v: GoValue)
    requires p.Sound()
    ensures PlainValue(RedactGoValue(p, key, v)) == PlainValue(v) <==> LeftAlone(p, key, v)
  {
    if v.Any? {
      UnchangedIffClean(p, key, v.j);
    }
  }

  lemma NothingMissedMeans(p: Patterns, key: string, v: GoValue)
    requires p.Sound()
    ensures PlainValue(RedactGoValue(p, key, v)) == RedactValue(p, key, PlainValue(v)) <==> NothingMissed(p, key, v)
  {
    UnchangedIffClean(p, key, PlainValue(v));
  }

  lemma ListMatches(p: Patterns, context: map<string, GoValue>)
    requires HasAnyList(context)
    ensures PlainContext(RedactTyped(p, context)) == RedactContext(p, PlainContext(context))
  {}

  lemma TypedSliceMatchesIff(p: Patterns, context: map<string, GoValue>)
    requires p.Sound() && "items" in context && !context["items"].Any?
    ensures PlainContext(RedactTyped(p, context)) == RedactContext(p, PlainContext(context)) <==> GoMatchesPython(p, context)
  {
    hide RedactGoValue, LeftAlone, CleanItems, RedactItems;
    var go, py := PlainContext(RedactTyped(p, context)), RedactContext(p, PlainContext(context));
    var items := context["items"];
    ItemsUnchangedIffClean(p, items);
    ItemsOfTyped(p, items);
    assert go.Keys == py.Keys;
    assert go["redacted"] == py["redacted"] == Bool(true);
    forall k | k in context && k != "items" && k != "redacted" ensures go[k] == py[k] <==> LeftAlone(p, k, context[k]) {
      LeftAloneMeans(p, k, context[k]);
    }
    assert py["items"] == Arr(RedactItems(p, PlainValue(items).items));
    assert go["items"] == py["items"] <==> !p.secretKey("items") && CleanItems(p, items);
    assert go == py <==> forall k | k in go :: go[k] == py[k];
  }

  lemma ItemsOfTyped(p: Patterns, items: GoValue)
    requires !items.Any?
    ensures PlainValue(items).Arr?
    ensures PlainValue(RedactGoValue(p, "items", items)) == if p.secretKey("items") then Str(REDACTED) else PlainValue(items)
  {}

  lemma FreeFormMatchesIff(p: Patterns, context: map<string, GoValue>)
    requires p.Sound() && !HasAnyList(context) && ("items" in context ==> context["items"].Any?)
    ensures PlainContext(RedactTyped(p, context)) == RedactContext(p, PlainContext(context)) <==> GoMatchesPython(p, context)
  {
    hide RedactGoValue, NothingMissed, RedactValue;
    var go, py := PlainContext(RedactTyped(p, context)), RedactContext(p, PlainContext(context));
    assert py == RedactMembers(p, PlainContext(context));
    assert go.Keys == context.Keys + {"redacted"} && py.Keys == context.Keys;
    assert go["redacted"] == Bool(true);
    forall k | k in context && k != "redacted" ensures go[k] == py[k] <==> NothingMissed(p, k, context[k]) {
      NothingMissedMeans(p, k, context[k]);
    }
    if "redacted" in context {
      MarkMeans(p, context["redacted"]);
    }
    assert go == py <==> "redacted" in context && forall k | k in context :: go[k] == py[k];
  }

  /** Redaction yields the mark from the mark only. */
  lemma MarkMeans(p: Patterns, v: GoValue)
    requires p.Sound()
    ensures RedactValue(p, "redacted", PlainValue(v)) == Bool(true) <==> v == Any(Bool(true))
    ensures v == Any(Bool(true)) ==> NothingMissed(p, "redacted", v)
  {}

  /**
   * For every context of Go values: the Go redaction is the Python redaction of the plain context
   * exactly when the condition holds, which reads the input alone.
   */
  lemma GoMatchesPythonIff(p: Patterns, context: map<string, GoValue>)
    requires p.Sound()
    ensures PlainContext(RedactTyped(p, context)) == RedactContext(p, PlainContext(context)) <==> GoMatchesPython(p, context)
  {
    if HasAnyList(context) {
      ListMatches(p, context);
    } else if "items" in context && !context["items"].Any? {
      TypedSliceMatchesIff(p, context);
    } else {
      FreeFormMatchesIff(p, context);
    }
  }

  /** The typed slices of the context change nothing against the same context decoded from JSON. */
  predicate TypesDoNotMatter(p: Patterns, context: map<string, GoValue>) {
    if HasAnyList(context) || ("items" in context && !context["items"].Any?) then GoMatchesPython(p, context)
    else forall k | k in context && k != "redacted" :: NothingMissed(p, k, context[k])
  }

  lemma FreeFormTypesIff(p: Patterns, context: map<string, GoValue>)
    requires p.Sound() && !HasAnyList(context) && ("items" in context ==> context["items"].Any?)
    ensures PlainContext(RedactTyped(p, context)) == GoRedactContext(p, PlainContext(context)) <==> TypesDoNotMatter(p, context)
  {
    hide RedactGoValue, NothingMissed, RedactValue;
    var go, json := PlainContext(RedactTyped(p, context)), GoRedactContext(p, PlainContext(context));
    assert json == RedactMembers(p, PlainContext(context))["redacted" := Bool(true)];
    assert go.Keys == json.Keys == context.Keys + {"redacted"};
    assert go["redacted"] == json["redacted"] == Bool(true);
    forall k | k in context && k != "redacted" ensures go[k] == json[k] <==> NothingMissed(p, k, context[k]) {
      NothingMissedMeans(p, k, context[k]);
    }
    assert go == json <==> forall k | k in context && k != "redacted" :: go[k] == json[k];
  }

  /**
   * For every context of Go values: redacting it in Go is redacting the same context decoded from
   * JSON exactly when its typed slices do not matter; without typed slices that is always so.
   */
  lemma TypedMatchesJsonIff(p: Patterns, context: map<string, GoValue>)
    requires p.Sound()
    ensures PlainContext(RedactTyped(p, context)) == GoRedactContext(p, PlainContext(context)) <==> TypesDoNotMatter(p, context)
    ensures (forall k | k in context :: context[k].Any?) ==> TypesDoNotMatter(p, context)
  {
    hide RedactTyped, RedactContext, NothingMissed;
    if HasAnyList(context) || ("items" in context && !context["items"].Any?) {
      assert Get(PlainContext(context), "items").Arr?;
      GoMatchesPythonIff(p, context);
    } else {
      FreeFormTypesIff(p, context);
    }
    forall k | k in context && context[k].Any? ensures NothingMissed(p, k, context[k]) {
      AnyMissesNothing(p, k, context[k]);
    }
  }

  lemma AnyMissesNothing(p: Patterns, key: string, v: GoValue)
    requires v.Any?
    ensures NothingMissed(p, key, v)
  {}

  /** No pattern speaks of the projector's own member names and metric. */
  ghost predicate SparesProjection(p: Patterns) {
    && !p.secretKey("items") && !p.secretKey("included_ids") && !p.secretKey("budget")
    && !p.secretKey("size_units") && !p.secretKey("metric") && !p.secretValue("rfc8785_bytes")
  }

  lemma ProjectionOnlyMarked(p: Patterns, included: seq<Object>, budget: int, used: nat)
    requires SparesProjection(p)
    ensures var context := GoContext(included, budget, used); RedactTyped(p, context) == context["redacted" := Any(Bool(true))]
  {
    var context := GoContext(included, budget, used);
    assert forall k | k in context :: RedactGoValue(p, k, context[k]) == context[k];
    assert (map k | k in context :: RedactGoValue(p, k, context[k])) == context;
  }

  /** No included node has anything to redact. */
  predicate NothingToRedact(p: Patterns, included: seq<Object>) {
    forall i | 0 <= i < |included| :: CleanItem(p, Projector.Item(included[i]))
  }

  lemma ProjectionCondition(p: Patterns, included: seq<Object>, budget: int, used: nat)
    requires SparesProjection(p)
    ensures GoMatchesPython(p, GoContext(included, budget, used)) <==> NothingToRedact(p, included)
  {
    hide CleanItem;
    var context := GoContext(included, budget, used);
    assert forall k | k in context && k != "items" && k != "redacted" :: LeftAlone(p, k, context[k]);
    var maps := context["items"].maps;
    assert forall i | 0 <= i < |included| :: maps[i] == Projector.Item(included[i]);
    assert GoMatchesPython(p, context) <==> CleanItems(p, context["items"]);
    assert (forall i | 0 <= i < |maps| :: CleanItem(p, maps[i])) <==> NothingToRedact(p, included) by {
      if forall i | 0 <= i < |maps| :: CleanItem(p, maps[i]) {
        forall i | 0 <= i < |included| ensures CleanItem(p, Projector.Item(included[i])) { assert CleanItem(p, maps[i]); }
      }
    }
  }

  /** What the Go projector produced is redacted as in Python exactly when nothing in it needed it. */
  lemma ProjectionMatchesIff(p: Patterns, included: seq<Object>, budget: int, used: nat)
    requires p.Sound() && SparesProjection(p)
    ensures var context := GoContext(included, budget, used);
      && RedactTyped(p, context) == context["redacted" := Any(Bool(true))]
      && (PlainContext(RedactTyped(p, context)) == RedactContext(p, PlainContext(context)) <==> NothingToRedact(p, included))
  {
    hide NothingToRedact, RedactTyped, RedactContext, GoMatchesPython, SparesProjection;
    ProjectionOnlyMarked(p, included, budget, used);
    ProjectionCondition(p, included, budget, used);
    GoMatchesPythonIff(p, GoContext(included, budget, used));
  }

  /** The Go redactor returns the Go projector's items as they were. */
  lemma GoProjectionKeepsItems(p: Patterns, included: seq<Object>, budget: int, used: nat)
    requires !p.secretKey("items")
    ensures var out := RedactTyped(p, GoContext(included, budget, used));
      && "items" in out && out["items"].Maps? && |out["items"].maps| == |included|
      && (forall i | 0 <= i < |included| :: out["items"].maps[i] == Projector.Item(included[i]))
  {}

  const THOUGHT: Object := map[
    "id" := Str("a"), "kind" := Str("THOUGHT"), "payload" := Obj(map["body" := Str("private")]), "step_n" := Num(1.0), "seq" := Num(0.0)]

  /** A thought that is projected in Go comes out of the redaction with its body. */
  lemma ThoughtSurvivesInGo(p: Patterns, budget: int, used: nat)
    requires p.Sound() && SparesProjection(p)
    ensures var out := RedactTyped(p, GoContext([THOUGHT], budget, used));
      && "items" in out && out["items"] == Maps([THOUGHT])
      && PlainContext(out) != RedactContext(p, PlainContext(GoContext([THOUGHT], budget, used)))
  {
    hide RedactTyped, RedactContext, PlainContext, GoContext;
    var nodes := [THOUGHT];
    ProjectionMatchesIff(p, nodes, budget, used);
    GoProjectionKeepsItems(p, nodes, budget, used);
    ThoughtNeedsRedaction(p);
    assert RedactTyped(p, GoContext(nodes, budget, used))["items"].maps == nodes;
  }

  lemma ThoughtNeedsRedaction(p: Patterns)
    ensures Projector.Item(THOUGHT) == THOUGHT && !NothingToRedact(p, [THOUGHT])
  {
    assert Projector.Item(THOUGHT) == THOUGHT;
    assert "body" in THOUGHT["payload"].members && "body" !in BLANK;
    var nodes := [THOUGHT];
    assert !CleanItem(p, Projector.Item(nodes[0]));
  }
}
