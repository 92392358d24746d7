/** The budgeted context projector: which node records fit into a context, and in what order. */
module Projector {
  import opened Base
  import opened Sorting
  import opened Lists

  /** A node record as decoded from JSON. */
  type Rec = Object

  function Id(n: Rec): string { AsString(Get(n, "id")) }
  function KindOf(n: Rec): string { AsString(Get(n, "kind")) }
  predicate HasId(n: Rec) { Get(n, "id").Str? }

  datatype Key = Key(step: int, pos: int, id: string)

  function Ordinal(j: Json): int {
    if j.Num? then Truncate(j.n) else 1_000_000_000
  }

  function KeyOf(n: Rec): Key {
    Key(Ordinal(Get(n, "step_n")), Ordinal(Get(n, "seq")), Id(n))
  }

  predicate KeyLeq(k: Key, l: Key) {
    if k.step != l.step then k.step < l.step
    else if k.pos != l.pos then k.pos < l.pos
    else StringLeq(k.id, l.id)
  }

  predicate RecLeq(m: Rec, n: Rec) {
    KeyLeq(KeyOf(m), KeyOf(n))
  }

  lemma RecPreorder()
    ensures Preorder(RecLeq)
  {
    forall x: Rec, y: Rec ensures RecLeq(x, y) || RecLeq(y, x) {
      StringTotal(Id(x), Id(y));
    }
    forall x: Rec, y: Rec, z: Rec | RecLeq(x, y) && RecLeq(y, z) ensures RecLeq(x, z) {
      KeyTransitive(KeyOf(x), KeyOf(y), KeyOf(z));
    }
  }

  lemma KeyTransitive(x: Key, y: Key, z: Key)
    requires KeyLeq(x, y) && KeyLeq(y, z)
    ensures KeyLeq(x, z)
  {
    if x.step == y.step == z.step && x.pos == y.pos == z.pos {
      StringTransitive(x.id, y.id, z.id);
    }
  }

  // ---- The specification

  predicate IsMust(n: Rec, pins: set<string>) {
    KindOf(n) == "CONSTRAINT" || Id(n) in pins
  }

  /** Constraints and pins with an id, each id once. */
  function Must(nodes: seq<Rec>, pins: set<string>, seen: set<string>): seq<Rec> {
    if nodes == [] then []
    else if IsMust(nodes[0], pins) && Id(nodes[0]) != "" && Id(nodes[0]) !in seen
    then [nodes[0]] + Must(nodes[1..], pins, seen + {Id(nodes[0])})
    else Must(nodes[1..], pins, seen)
  }

  function IdsOf(nodes: seq<Rec>): set<string> {
    set n | n in nodes && HasId(n) :: Id(n)
  }

  function Without(nodes: seq<Rec>, ids: set<string>): seq<Rec> {
    if nodes == [] then []
    else if Id(nodes[0]) !in ids then [nodes[0]] + Without(nodes[1..], ids)
    else Without(nodes[1..], ids)
  }

  /** First fit over a list: a node that does not fit is skipped, later ones may still fit. */
  function Fill(size: Rec -> nat, nodes: seq<Rec>, room: nat): (r: seq<Rec>)
    ensures Sum(size, r) <= room
  {
    if nodes == [] then []
    else if size(nodes[0]) > room then Fill(size, nodes[1..], room)
    else [nodes[0]] + Fill(size, nodes[1..], room - size(nodes[0]))
  }

  function IdList(nodes: seq<Rec>): (ids: seq<string>)
    ensures |ids| == |nodes| && forall i | 0 <= i < |ids| :: ids[i] == Id(nodes[i])
  {
    seq(|nodes|, i requires 0 <= i < |nodes| => Id(nodes[i]))
  }

  function Dropped(nodes: seq<Rec>, included: set<string>): seq<string> {
    if nodes == [] then []
    else if Id(nodes[0]) != "" && Id(nodes[0]) !in included then [Id(nodes[0])] + Dropped(nodes[1..], included)
    else Dropped(nodes[1..], included)
  }

  function Item(n: Rec): Object {
    map["id" := Get(n, "id"), "kind" := Get(n, "kind"), "payload" := Get(n, "payload"),
        "step_n" := Get(n, "step_n"), "seq" := Get(n, "seq")]
  }

  function Items(nodes: seq<Rec>): (items: seq<Json>)
    ensures |items| == |nodes| && forall i | 0 <= i < |items| :: items[i] == Obj(Item(nodes[i]))
  {
    seq(|nodes|, i requires 0 <= i < |nodes| => Obj(Item(nodes[i])))
  }

  function Strings(ids: seq<string>): (items: seq<Json>)
    ensures |items| == |ids| && forall i | 0 <= i < |items| :: items[i] == Str(ids[i])
  {
    seq(|ids|, i requires 0 <= i < |ids| => Str(ids[i]))
  }

  function Context(included: seq<Rec>, budget: int, used: nat): Object {
    map["items" := Arr(Items(included)), "included_ids" := Arr(Strings(IdList(included))),
        "budget" := Num(budget as real), "size_units" := Num(used as real), "metric" := Str("rfc8785_bytes")]
  }

  datatype Projection = Projection(included: seq<string>, dropped: seq<string>, context: Object, used: nat, budget: int)

  datatype Result =
    | Ok(p: Projection)
    | BudgetImpossible(required: nat)
    | BadBudget

  function MustSorted(nodes: seq<Rec>, pins: set<string>): seq<Rec> {
    Sort(Must(nodes, pins, {}), RecLeq)
  }

  function Optional(nodes: seq<Rec>, pins: set<string>): seq<Rec> {
    Sort(Without(nodes, IdsOf(MustSorted(nodes, pins))), RecLeq)
  }

  function Kept(size: Rec -> nat, nodes: seq<Rec>, budget: nat, pins: set<string>): seq<Rec>
    requires Sum(size, MustSorted(nodes, pins)) <= budget
  {
    var must := MustSorted(nodes, pins);
    must + Fill(size, Optional(nodes, pins), budget - Sum(size, must))
  }

  function Project(size: Rec -> nat, nodes: seq<Rec>, budget: int, pins: set<string>): Result {
    if budget < 0 then BadBudget
    else
      var required := Sum(size, MustSorted(nodes, pins));
      if required > budget then BudgetImpossible(required)
      else
        var kept := Kept(size, nodes, budget, pins);
        var included := Sort(kept, RecLeq);
        Ok(Projection(IdList(included), Sort(Dropped(nodes, IdsOf(kept)), StringLeq),
                      Context(included, budget, Sum(size, kept)), Sum(size, kept), budget))
  }

  // ---- The algorithm

  method TotalSize(size: Rec -> nat, nodes: seq<Rec>) returns (total: nat)
    ensures total == Sum(size, nodes)
  {
    total := 0;
    for i := 0 to |nodes|
      invariant total + Sum(size, nodes[i..]) == Sum(size, nodes)
    {
      total := total + size(nodes[i]);
    }
  }

  method CollectMust(nodes: seq<Rec>, pins: set<string>) returns (must: seq<Rec>)
    ensures must == Must(nodes, pins, {})
  {
    must := [];
    var seen: set<string> := {};
    for i := 0 to |nodes|
      invariant must + Must(nodes[i..], pins, seen) == Must(nodes, pins, {})
    {
      var n := nodes[i];
      assert nodes[i..][1..] == nodes[i + 1..];
      if IsMust(n, pins) && Id(n) != "" && Id(n) !in seen {
        assert must + ([n] + Must(nodes[i + 1..], pins, seen + {Id(n)})) == must + [n] + Must(nodes[i + 1..], pins, seen + {Id(n)});
        must := must + [n];
        seen := seen + {Id(n)};
      }
    }
  }

  method CollectOptional(nodes: seq<Rec>, ids: set<string>) returns (optional: seq<Rec>)
    ensures optional == Without(nodes, ids)
  {
    optional := [];
    for i := 0 to |nodes|
      invariant optional + Without(nodes[i..], ids) == Without(nodes, ids)
    {
      assert nodes[i..][1..] == nodes[i + 1..];
      if Id(nodes[i]) !in ids {
        optional := optional + [nodes[i]];
      }
    }
  }

  method CollectDropped(nodes: seq<Rec>, included: set<string>) returns (dropped: seq<string>)
    ensures dropped == Dropped(nodes, included)
  {
    dropped := [];
    for i := 0 to |nodes|
      invariant dropped + Dropped(nodes[i..], included) == Dropped(nodes, included)
    {
      assert nodes[i..][1..] == nodes[i + 1..];
      if Id(nodes[i]) != "" && Id(nodes[i]) !in included {
        dropped := dropped + [Id(nodes[i])];
      }
    }
  }

  lemma FillStep(size: Rec -> nat, nodes: seq<Rec>, i: nat, room: nat)
    requires i < |nodes|
    ensures Fill(size, nodes[i..], room) ==
      if size(nodes[i]) > room then Fill(size, nodes[i + 1..], room)
      else [nodes[i]] + Fill(size, nodes[i + 1..], room - size(nodes[i]))
  {
    assert nodes[i..][1..] == nodes[i + 1..];
  }

  lemma FillNothing(size: Rec -> nat, nodes: seq<Rec>, room: nat)
    ensures Fill(size, nodes[|nodes|..], room) == []
  {}

  lemma Pushed(size: Rec -> nat, s: seq<Rec>, n: Rec)
    ensures Sum(size, s + [n]) == Sum(size, s) + size(n)
    ensures IdsOf(s + [n]) == IdsOf(s) + if HasId(n) then {Id(n)} else {}
  {
    SumConcat(size, s, [n]);
    assert Sum(size, [n]) == size(n);
  }

  /** The greedy loop: `used` and the included ids grow together. */
  method FillLoop(size: Rec -> nat, optional: seq<Rec>, must: seq<Rec>, mustSize: nat, budget: nat)
    returns (included: seq<Rec>, ids: set<string>, used: nat)
    requires mustSize == Sum(size, must) <= budget
    ensures included == must + Fill(size, optional, budget - mustSize)
    ensures ids == IdsOf(included) && used == Sum(size, included) <= budget
  {
    hide Fill, Sum, IdsOf, HasId, Id;
    included, ids, used := must, IdsOf(must), mustSize;
    assert optional[0..] == optional;
    for i := 0 to |optional|
      invariant used == Sum(size, included) <= budget && ids == IdsOf(included)
      invariant included + Fill(size, optional[i..], budget - used) == must + Fill(size, optional, budget - mustSize)
    {
      var n := optional[i];
      FillStep(size, optional, i, budget - used);
      if used + size(n) <= budget {
        Pushed(size, included, n);
        included := included + [n];
        if HasId(n) {
          ids := ids + {Id(n)};
        }
        used := used + size(n);
      }
    }
    assert Fill(size, optional[|optional|..], budget - used) == [] by { FillNothing(size, optional, budget - used); }
  }

  method ProjectContext(size: Rec -> nat, nodes: seq<Rec>, budget: int, pins: set<string>) returns (res: Result)
    ensures res == Project(size, nodes, budget, pins)
  {
    hide Must, Sum, Without, Fill, Context, IdList, Dropped, IdsOf, Sort, RecLeq, StringLeq;
    if budget < 0 {
      return BadBudget;
    }
    var must := CollectMust(nodes, pins);
    must := Sort(must, RecLeq);
    var mustSize := TotalSize(size, must);
    if mustSize > budget {
      return BudgetImpossible(mustSize);
    }
    var optional := CollectOptional(nodes, IdsOf(must));
    optional := Sort(optional, RecLeq);
    var included, ids, used := FillLoop(size, optional, must, mustSize, budget);
    var dropped := CollectDropped(nodes, ids);
    included := Sort(included, RecLeq);
    res := Ok(Projection(IdList(included), Sort(dropped, StringLeq), Context(included, budget, used), used, budget));
  }
}
