/**
 * Redaction of thoughts and secrets. The functions are the Python ones; the methods are the
 * Go loops, proved to compute the same.
 */
module Redact {
  import opened Base

  const REDACTED := "[REDACTED]"

  /** The two patterns, as predicates on strings. */
  datatype Patterns = Patterns(secretKey: string -> bool, secretValue: string -> bool) {
    /** What the patterns say of the redactor's own words. */
    ghost predicate Sound() {
      !secretValue(REDACTED) && !secretKey("redacted")
    }
  }

  function RedactValue(p: Patterns, key: string, value: Json): Json
    decreases value
  {
    if p.secretKey(key) then Str(REDACTED)
    else
      match value
      case Obj(m) => Obj(map k | k in m :: RedactValue(p, k, m[k]))
      case Arr(items) => Arr(seq(|items|, i requires 0 <= i < |items| => RedactValue(p, key, items[i])))
      case Str(s) => if p.secretValue(s) then Str(REDACTED) else value
      case _ => value
  }

  function RedactMembers(p: Patterns, m: Object): Object {
    map k | k in m :: RedactValue(p, k, m[k])
  }

  const BLANK: Object := map["redacted" := Bool(true)]

  function RedactPayload(p: Patterns, kind: string, payload: Json): Object {
    if kind == "THOUGHT" then BLANK
    else if payload.Obj? then RedactMembers(p, payload.members)
    else BLANK
  }

  function RedactItem(p: Patterns, item: Object): Object {
    item["payload" := Obj(RedactPayload(p, AsString(Get(item, "kind")), Get(item, "payload")))]
  }

  /** Items that are not objects are left out. */
  function RedactItems(p: Patterns, items: seq<Json>): seq<Json> {
    if items == [] then []
    else (if items[0].Obj? then [Obj(RedactItem(p, items[0].members))] else []) + RedactItems(p, items[1..])
  }

  /** The Python context redaction. */
  function RedactContext(p: Patterns, context: Object): Object {
    var items := Get(context, "items");
    if items.Arr? then context["items" := Arr(RedactItems(p, items.items))]["redacted" := Bool(true)]
    else RedactMembers(p, context)
  }

  /** The Go context redaction marks a free-form context too. */
  function GoRedactContext(p: Patterns, context: Object): Object {
    if Get(context, "items").Arr? then RedactContext(p, context)
    else RedactMembers(p, context)["redacted" := Bool(true)]
  }

  // ---- The loops

  method RedactValueLoop(p: Patterns, key: string, value: Json) returns (r: Json)
    ensures r == RedactValue(p, key, value)
    decreases value
  {
    if p.secretKey(key) {
      return Str(REDACTED);
    }
    match value {
      case Obj(m) =>
        var out: Object := map[];
        var todo := m.Keys;
        while todo != {}
          invariant todo <= m.Keys && out.Keys == m.Keys - todo
          invariant forall k | k in out :: out[k] == RedactValue(p, k, m[k])
        {
          var k :| k in todo;
          var child := RedactValueLoop(p, k, m[k]);
          out := out[k := child];
          todo := todo - {k};
        }
        assert out == RedactMembers(p, m);
        r := Obj(out);
      case Arr(items) =>
        var out: seq<Json> := [];
        for i := 0 to |items|
          invariant |out| == i && forall j | 0 <= j < i :: out[j] == RedactValue(p, key, items[j])
        {
          var child := RedactValueLoop(p, key, items[i]);
          out := out + [child];
        }
        r := Arr(out);
      case Str(s) =>
        r := if p.secretValue(s) then Str(REDACTED) else value;
      case _ =>
        r := value;
    }
  }

  method RedactMembersLoop(p: Patterns, m: Object) returns (out: Object)
    ensures out == RedactMembers(p, m)
  {
    out := map[];
    var todo := m.Keys;
    while todo != {}
      invariant todo <= m.Keys && out.Keys == m.Keys - todo
      invariant forall k | k in out :: out[k] == RedactValue(p, k, m[k])
    {
      var k :| k in todo;
      var child := RedactValueLoop(p, k, m[k]);
      out := out[k := child];
      todo := todo - {k};
    }
  }

  method RedactPayloadLoop(p: Patterns, kind: string, payload: Json) returns (out: Object)
    ensures out == RedactPayload(p, kind, payload)
  {
    if kind == "THOUGHT" {
      return BLANK;
    }
    if payload.Obj? {
      out := RedactMembersLoop(p, payload.members);
    } else {
      out := BLANK;
    }
  }

  method RedactItemsLoop(p: Patterns, items: seq<Json>) returns (out: seq<Json>)
    ensures out == RedactItems(p, items)
  {
    out := [];
    for i := 0 to |items|
      invariant out + RedactItems(p, items[i..]) == RedactItems(p, items)
    {
      assert items[i..][1..] == items[i + 1..];
      if items[i].Obj? {
        var item := items[i].members;
        var payload := RedactPayloadLoop(p, AsString(Get(item, "kind")), Get(item, "payload"));
        out := out + [Obj(item["payload" := Obj(payload)])];
      }
    }
  }

  method RedactProjectionContext(p: Patterns, context: Object) returns (out: Object)
    ensures out == GoRedactContext(p, context)
  {
    var items := Get(context, "items");
    if !items.Arr? {
      out := RedactMembersLoop(p, context);
      return out["redacted" := Bool(true)];
    }
    var newItems := RedactItemsLoop(p, items.items);
    out := context["items" := Arr(newItems)]["redacted" := Bool(true)];
  }

  // ---- What redaction leaves

  /** Nothing under a secret key but the mark, and no secret-shaped string anywhere. */
  predicate Clean(p: Patterns, key: string, value: Json)
    decreases value
  {
    if p.secretKey(key) then value == Str(REDACTED)
    else
      match value
      case Obj(m) => forall k | k in m :: Clean(p, k, m[k])
      case Arr(items) => forall i | 0 <= i < |items| :: Clean(p, key, items[i])
      case Str(s) => !p.secretValue(s)
      case _ => true
  }

  predicate CleanObject(p: Patterns, m: Object) {
    forall k | k in m :: Clean(p, k, m[k])
  }

  lemma {:induction false} RedactedIsClean(p: Patterns, key: string, value: Json)
    requires p.Sound()
    ensures Clean(p, key, RedactValue(p, key, value))
    decreases value
  {
    if !p.secretKey(key) {
      match value
      case Obj(m) =>
        forall k | k in m ensures Clean(p, k, RedactValue(p, k, m[k])) { RedactedIsClean(p, k, m[k]); }
      case Arr(items) =>
        forall i | 0 <= i < |items| ensures Clean(p, key, RedactValue(p, key, items[i])) { RedactedIsClean(p, key, items[i]); }
      case _ =>
    }
  }

  /** Redaction changes a value exactly when there is something to hide in it. */
  lemma {:induction false} UnchangedIffClean(p: Patterns, key: string, value: Json)
    requires p.Sound()
    ensures RedactValue(p, key, value) == value <==> Clean(p, key, value)
    decreases value
  {
    if !p.secretKey(key) {
      match value
      case Obj(m) =>
        var out := map k | k in m :: RedactValue(p, k, m[k]);
        assert RedactValue(p, key, value) == Obj(out);
        forall k | k in m ensures out[k] == m[k] <==> Clean(p, k, m[k]) { UnchangedIffClean(p, k, m[k]); }
        assert out == m <==> forall k | k in m :: out[k] == m[k];
      case Arr(items) =>
        var out := seq(|items|, i requires 0 <= i < |items| => RedactValue(p, key, items[i]));
        assert RedactValue(p, key, value) == Arr(out);
        forall i | 0 <= i < |items| ensures out[i] == items[i] <==> Clean(p, key, items[i]) { UnchangedIffClean(p, key, items[i]); }
        assert out == items <==> forall i | 0 <= i < |items| :: out[i] == items[i];
      case _ =>
    }
  }

  lemma MembersIdempotent(p: Patterns, m: Object)
    requires p.Sound()
    ensures RedactMembers(p, RedactMembers(p, m)) == RedactMembers(p, m)
    ensures CleanObject(p, RedactMembers(p, m))
  {
    forall k | k in m
      ensures RedactValue(p, k, RedactValue(p, k, m[k])) == RedactValue(p, k, m[k]) && Clean(p, k, RedactValue(p, k, m[k]))
    {
      RedactedIsClean(p, k, m[k]);
      UnchangedIffClean(p, k, RedactValue(p, k, m[k]));
    }
  }

  lemma BlankIsClean(p: Patterns)
    requires p.Sound()
    ensures CleanObject(p, BLANK) && RedactMembers(p, BLANK) == BLANK
  {
    UnchangedIffClean(p, "redacted", Bool(true));
  }

  lemma PayloadIdempotent(p: Patterns, kind: string, payload: Json)
    requires p.Sound()
    ensures RedactPayload(p, kind, Obj(RedactPayload(p, kind, payload))) == RedactPayload(p, kind, payload)
    ensures CleanObject(p, RedactPayload(p, kind, payload))
  {
    BlankIsClean(p);
    if payload.Obj? {
      MembersIdempotent(p, payload.members);
    }
  }

  lemma {:induction false} ItemsIdempotent(p: Patterns, items: seq<Json>)
    requires p.Sound()
    ensures RedactItems(p, RedactItems(p, items)) == RedactItems(p, items)
  {
    if items != [] {
      ItemsIdempotent(p, items[1..]);
      if items[0].Obj? {
        var item := items[0].members;
        PayloadIdempotent(p, AsString(Get(item, "kind")), Get(item, "payload"));
        assert RedactItem(p, RedactItem(p, item)) == RedactItem(p, item);
        assert RedactItems(p, items) == [Obj(RedactItem(p, item))] + RedactItems(p, items[1..]);
      } else {
        assert RedactItems(p, items) == RedactItems(p, items[1..]);
      }
    }
  }

  lemma NeverBecomesList(p: Patterns, key: string, value: Json)
    requires !value.Arr?
    ensures !RedactValue(p, key, value).Arr?
  {}

  lemma ContextIdempotent(p: Patterns, context: Object)
    requires p.Sound()
    ensures RedactContext(p, RedactContext(p, context)) == RedactContext(p, context)
    ensures GoRedactContext(p, GoRedactContext(p, context)) == GoRedactContext(p, context)
  {
    var items := Get(context, "items");
    if items.Arr? {
      ItemsIdempotent(p, items.items);
    } else {
      MembersIdempotent(p, context);
      BlankIsClean(p);
      assert Get(RedactMembers(p, context), "items") == if "items" in context then RedactValue(p, "items", items) else Null;
      NeverBecomesList(p, "items", items);
    }
  }

  /** The two languages agree on lists of items, and on free-form contexts already marked. */
  lemma LanguagesAgreeIff(p: Patterns, context: Object)
    requires p.Sound()
    ensures RedactContext(p, context) == GoRedactContext(p, context)
       <==> Get(context, "items").Arr? || Get(context, "redacted") == Bool(true)
  {
    if !Get(context, "items").Arr? {
      var py := RedactMembers(p, context);
      assert py == py["redacted" := Bool(true)] <==> Get(py, "redacted") == Bool(true);
    }
  }

  // ---- What redaction hides: two inputs look alike exactly when they differ only in secrets

  predicate Masked(p: Patterns, s: string) {
    p.secretValue(s) || s == REDACTED
  }

  predicate Alike(p: Patterns, key: string, u: Json, v: Json)
    decreases u
  {
    p.secretKey(key) ||
    match (u, v)
    case (Obj(m), Obj(n)) => m.Keys == n.Keys && forall k | k in m :: Alike(p, k, m[k], n[k])
    case (Arr(x), Arr(y)) => |x| == |y| && forall i | 0 <= i < |x| :: Alike(p, key, x[i], y[i])
    case (Str(s), Str(t)) => s == t || (Masked(p, s) && Masked(p, t))
    case _ => u == v
  }

  lemma {:induction false} SameOutputIffAlike(p: Patterns, key: string, u: Json, v: Json)
    ensures RedactValue(p, key, u) == RedactValue(p, key, v) <==> Alike(p, key, u, v)
    decreases u, 1
  {
    if !p.secretKey(key) {
      match (u, v)
      case (Obj(m), Obj(n)) =>
        assert u == Obj(m);
        MembersAlike(p, m, n);
      case (Arr(x), Arr(y)) => ItemsAlike(p, key, x, y);
      case _ =>
    }
  }

  lemma {:induction false} MembersAlike(p: Patterns, m: Object, n: Object)
    ensures RedactMembers(p, m) == RedactMembers(p, n) <==> m.Keys == n.Keys && forall k | k in m :: Alike(p, k, m[k], n[k])
    decreases Obj(m), 0
  {
    assert RedactMembers(p, m).Keys == m.Keys && RedactMembers(p, n).Keys == n.Keys;
    if m.Keys == n.Keys {
      forall k | k in m ensures RedactMembers(p, m)[k] == RedactMembers(p, n)[k] <==> Alike(p, k, m[k], n[k]) {
        SameOutputIffAlike(p, k, m[k], n[k]);
      }
      assert RedactMembers(p, m) == RedactMembers(p, n) <==> forall k | k in m :: RedactMembers(p, m)[k] == RedactMembers(p, n)[k];
    }
  }

  lemma {:induction false} ItemsAlike(p: Patterns, key: string, x: seq<Json>, y: seq<Json>)
    requires !p.secretKey(key)
    ensures RedactValue(p, key, Arr(x)) == RedactValue(p, key, Arr(y))
       <==> |x| == |y| && forall i | 0 <= i < |x| :: Alike(p, key, x[i], y[i])
    decreases Arr(x), 0
  {
    var s := seq(|x|, i requires 0 <= i < |x| => RedactValue(p, key, x[i]));
    var t := seq(|y|, i requires 0 <= i < |y| => RedactValue(p, key, y[i]));
    assert RedactValue(p, key, Arr(x)) == Arr(s) && RedactValue(p, key, Arr(y)) == Arr(t);
    if |x| == |y| {
      forall i | 0 <= i < |x| ensures s[i] == t[i] <==> Alike(p, key, x[i], y[i]) {
        SameOutputIffAlike(p, key, x[i], y[i]);
      }
      assert s == t <==> forall i | 0 <= i < |x| :: s[i] == t[i];
    }
  }

  /** Two items look alike when they agree on everything but the payload, and the payloads look alike. */
  predicate AlikeItem(p: Patterns, m: Object, n: Object) {
    && m - {"payload"} == n - {"payload"}
    && (AsString(Get(m, "kind")) == "THOUGHT"
        || AlikePayload(p, Get(m, "payload"), Get(n, "payload")))
  }

  /** A payload that is not an object looks like the blank one. */
  function Shown(payload: Json): Object {
    if payload.Obj? then payload.members else BLANK
  }

  predicate AlikePayload(p: Patterns, u: Json, v: Json) {
    Shown(u).Keys == Shown(v).Keys && forall k | k in Shown(u) :: Alike(p, k, Shown(u)[k], Shown(v)[k])
  }

  lemma PayloadsAlike(p: Patterns, kind: string, u: Json, v: Json)
    requires p.Sound()
    ensures RedactPayload(p, kind, u) == RedactPayload(p, kind, v) <==> kind == "THOUGHT" || AlikePayload(p, u, v)
  {
    BlankIsClean(p);
    MembersAlike(p, Shown(u), Shown(v));
  }

  lemma ItemAlike(p: Patterns, m: Object, n: Object)
    requires p.Sound()
    ensures RedactItem(p, m) == RedactItem(p, n) <==> AlikeItem(p, m, n)
  {
    var x, y := RedactItem(p, m), RedactItem(p, n);
    assert m - {"payload"} == x - {"payload"} && n - {"payload"} == y - {"payload"};
    assert x == (x - {"payload"})["payload" := x["payload"]] && y == (y - {"payload"})["payload" := y["payload"]];
    assert x == y <==> x - {"payload"} == y - {"payload"} && x["payload"] == y["payload"];
    if m - {"payload"} == n - {"payload"} {
      assert Get(m - {"payload"}, "kind") == Get(n - {"payload"}, "kind");
      PayloadsAlike(p, AsString(Get(m, "kind")), Get(m, "payload"), Get(n, "payload"));
    }
  }

  /** The items that are objects, in order. */
  function Objects(items: seq<Json>): seq<Object> {
    if items == [] then []
    else (if items[0].Obj? then [items[0].members] else []) + Objects(items[1..])
  }

  /** Every item that is an object is kept, in its place among them. */
  lemma {:induction false} ItemsKept(p: Patterns, items: seq<Json>)
    ensures |RedactItems(p, items)| == |Objects(items)|
    ensures forall i | 0 <= i < |Objects(items)| :: RedactItems(p, items)[i] == Obj(RedactItem(p, Objects(items)[i]))
  {
    if items != [] {
      ItemsKept(p, items[1..]);
    }
  }

  predicate AlikeContext(p: Patterns, c: Object, d: Object) {
    var x, y := Get(c, "items"), Get(d, "items");
    && x.Arr? && y.Arr?
    && c - {"items", "redacted"} == d - {"items", "redacted"}
    && |Objects(x.items)| == |Objects(y.items)|
    && forall i | 0 <= i < |Objects(x.items)| :: AlikeItem(p, Objects(x.items)[i], Objects(y.items)[i])
  }

  /**
   * Two projected contexts redact to the same output exactly when they differ only in what
   * redaction hides: thoughts, values under secret keys, secret-shaped strings.
   */
  lemma ContextsAlike(p: Patterns, c: Object, d: Object)
    requires p.Sound() && Get(c, "items").Arr? && Get(d, "items").Arr?
    ensures RedactContext(p, c) == RedactContext(p, d) <==> AlikeContext(p, c, d)
  {
    var x, y := Get(c, "items").items, Get(d, "items").items;
    var rc, rd := RedactContext(p, c), RedactContext(p, d);
    ItemsKept(p, x);
    ItemsKept(p, y);
    var s, t := RedactItems(p, x), RedactItems(p, y);
    assert rc - {"items", "redacted"} == c - {"items", "redacted"} && rd - {"items", "redacted"} == d - {"items", "redacted"};
    assert rc == (c - {"items", "redacted"})["items" := Arr(s)]["redacted" := Bool(true)];
    assert rd == (d - {"items", "redacted"})["items" := Arr(t)]["redacted" := Bool(true)];
    assert rc["items"] == Arr(s) && rd["items"] == Arr(t);
    assert rc == rd <==> c - {"items", "redacted"} == d - {"items", "redacted"} && s == t;
    if |s| == |t| {
      forall i | 0 <= i < |s| ensures s[i] == t[i] <==> AlikeItem(p, Objects(x)[i], Objects(y)[i]) {
        ItemAlike(p, Objects(x)[i], Objects(y)[i]);
      }
      assert s == t <==> forall i | 0 <= i < |s| :: s[i] == t[i];
    }
  }
}
