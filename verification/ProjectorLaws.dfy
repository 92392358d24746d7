/** What the projector promises for node records with distinct, non-empty ids. */
module ProjectorLaws {
  import opened Base
  import opened Sorting
  import opened Projector
  import opened Lists

  // ---- What is required, and what comes first, said of the records' own members

  /** The number under the key, its fraction dropped; a large one when there is no number. */
  function Number(n: Rec, key: string): int {
    if key in n && n[key].Num? then Truncate(n[key].n) else 1_000_000_000
  }

  function IdText(n: Rec): string {
    if "id" in n && n["id"].Str? then n["id"].s else ""
  }

  /** A constraint, or a pinned node. */
  predicate Required(n: Rec, pins: set<string>) {
    ("kind" in n && n["kind"] == Str("CONSTRAINT")) || IdText(n) in pins
  }

  /** Smaller step, then smaller seq, then smaller id. */
  predicate Precedes(m: Rec, n: Rec) {
    || Number(m, "step_n") < Number(n, "step_n")
    || (Number(m, "step_n") == Number(n, "step_n") && Number(m, "seq") < Number(n, "seq"))
    || (Number(m, "step_n") == Number(n, "step_n") && Number(m, "seq") == Number(n, "seq")
        && IdText(m) != IdText(n) && StringLeq(IdText(m), IdText(n)))
  }

  lemma RequiredIsMust(pins: set<string>)
    ensures forall n: Rec :: Required(n, pins) <==> IsMust(n, pins)
  {}

  lemma EarlierIsPrecedes(m: Rec, n: Rec)
    ensures Earlier(m, n) <==> Precedes(m, n)
  {
    StringTotal(Id(m), Id(n));
  }

  // ---- Distinct nodes

  ghost predicate Distinct(nodes: seq<Rec>) {
    && NoDup(nodes)
    && (forall x | x in nodes :: Id(x) != "")
    && (forall x, y {:trigger Id(x), Id(y)} | x in nodes && y in nodes && Id(x) == Id(y) :: x == y)
  }

  lemma DistinctStrict(nodes: seq<Rec>, s: seq<Rec>)
    requires Distinct(nodes) && forall x | x in s :: x in nodes
    ensures Strict(s, RecLeq)
  {
    forall x, y | x in s && y in s && RecLeq(x, y) && RecLeq(y, x) ensures x == y {
      StringTotal(Id(x), Id(y));
    }
  }

  lemma {:induction false} MustElements(nodes: seq<Rec>, pins: set<string>, seen: set<string>)
    requires Distinct(nodes) && forall x | x in nodes :: Id(x) !in seen
    ensures NoDup(Must(nodes, pins, seen))
    ensures forall x :: x in Must(nodes, pins, seen) <==> x in nodes && IsMust(x, pins)
  {
    if nodes != [] {
      assert nodes == [nodes[0]] + nodes[1..];
      assert nodes[0] !in nodes[1..];
      var seen' := if IsMust(nodes[0], pins) then seen + {Id(nodes[0])} else seen;
      MustElements(nodes[1..], pins, seen');
    }
  }

  lemma {:induction false} WithoutElements(nodes: seq<Rec>, ids: set<string>)
    requires NoDup(nodes)
    ensures NoDup(Without(nodes, ids))
    ensures forall x :: x in Without(nodes, ids) <==> x in nodes && Id(x) !in ids
  {
    if nodes != [] {
      assert nodes == [nodes[0]] + nodes[1..];
      assert nodes[0] !in nodes[1..];
      WithoutElements(nodes[1..], ids);
    }
  }

  lemma SortElements(s: seq<Rec>)
    ensures forall x :: x in Sort(s, RecLeq) <==> x in s
    ensures NoDup(s) ==> NoDup(Sort(s, RecLeq))
    ensures Sorted(Sort(s, RecLeq), RecLeq)
  {
    PermutationElements(s, Sort(s, RecLeq));
    RecPreorder();
    SortSorted(s, RecLeq);
  }

  lemma MustSortedElements(nodes: seq<Rec>, pins: set<string>)
    requires Distinct(nodes)
    ensures NoDup(MustSorted(nodes, pins)) && Sorted(MustSorted(nodes, pins), RecLeq)
    ensures forall x :: x in MustSorted(nodes, pins) <==> x in nodes && IsMust(x, pins)
  {
    MustElements(nodes, pins, {});
    SortElements(Must(nodes, pins, {}));
  }

  lemma OptionalElements(nodes: seq<Rec>, pins: set<string>)
    requires Distinct(nodes)
    ensures NoDup(Optional(nodes, pins)) && Sorted(Optional(nodes, pins), RecLeq)
    ensures forall x :: x in Optional(nodes, pins) <==> x in nodes && !IsMust(x, pins)
  {
    hide IsMust;
    var must := MustSorted(nodes, pins);
    MustSortedElements(nodes, pins);
    WithoutElements(nodes, IdsOf(must));
    SortElements(Without(nodes, IdsOf(must)));
    forall x | x in nodes ensures Id(x) in IdsOf(must) <==> IsMust(x, pins) {
      if Id(x) in IdsOf(must) {
        var y :| y in must && HasId(y) && Id(y) == Id(x);
        assert y == x;
      }
    }
  }

  // ---- First fit

  lemma {:induction false} FillElements(size: Rec -> nat, s: seq<Rec>, room: nat)
    requires NoDup(s)
    ensures NoDup(Fill(size, s, room)) && forall x | x in Fill(size, s, room) :: x in s
  {
    if s != [] {
      assert s == [s[0]] + s[1..];
      assert s[0] !in s[1..];
      FillElements(size, s[1..], if size(s[0]) > room then room else room - size(s[0]));
    }
  }

  /** Filling a list is filling a prefix of it and then the rest with the room that is left. */
  lemma {:induction false} FillSplits(size: Rec -> nat, s: seq<Rec>, i: nat, room: nat)
    requires i <= |s|
    ensures Fill(size, s, room) == Fill(size, s[..i], room) + Fill(size, s[i..], room - Sum(size, Fill(size, s[..i], room)))
  {
    if i > 0 {
      assert s[..i][0] == s[0] && s[..i][1..] == s[1..][..i - 1] && s[1..][i - 1..] == s[i..];
      FillSplits(size, s[1..], i - 1, if size(s[0]) > room then room else room - size(s[0]));
    } else {
      assert s[..0] == [] && s[0..] == s;
    }
  }

  lemma FillHead(size: Rec -> nat, s: seq<Rec>, i: nat, room: nat)
    requires NoDup(s) && i < |s|
    ensures s[i] in Fill(size, s[i..], room) <==> size(s[i]) <= room
    ensures forall x | x in Fill(size, s[i..], room) :: x in s[i..]
  {
    assert s[i..][0] == s[i] && s[i..][1..] == s[i + 1..];
    FillElements(size, s[i..], room);
    if size(s[i]) > room {
      FillElements(size, s[i + 1..], room);
      assert s[i] !in s[i + 1..];
    }
  }

  lemma PrefixAndSuffix(s: seq<Rec>, i: nat)
    requires NoDup(s) && i <= |s|
    ensures forall x :: x in s <==> x in s[..i] || x in s[i..]
    ensures forall x :: !(x in s[..i] && x in s[i..])
    ensures NoDup(s[..i]) && NoDup(s[i..])
  {
    assert s == s[..i] + s[i..];
    forall x | x in s[..i] ensures x !in s[i..] {
      var j :| 0 <= j < i && s[j] == x;
    }
  }

  /** An element is taken exactly when it fits beside the elements taken before it. */
  lemma FillTakes(size: Rec -> nat, s: seq<Rec>, i: nat, room: nat)
    requires NoDup(s) && i < |s|
    ensures s[i] in Fill(size, s, room) <==> Sum(size, Fill(size, s[..i], room)) + size(s[i]) <= room
    ensures forall x :: x in Fill(size, s[..i], room) <==> x in Fill(size, s, room) && x in s[..i]
  {
    hide Fill;
    var left := room - Sum(size, Fill(size, s[..i], room));
    FillSplits(size, s, i, room);
    PrefixAndSuffix(s, i);
    FillElements(size, s[..i], room);
    FillHead(size, s, i, left);
    assert s[i] == s[i..][0];
  }

  // ---- The theorems

  /** The nodes that satisfy a predicate, in input order. */
  ghost function Those(nodes: seq<Rec>, p: Rec -> bool): seq<Rec> {
    if nodes == [] then [] else (if p(nodes[0]) then [nodes[0]] else []) + Those(nodes[1..], p)
  }

  lemma {:induction false} ThoseElements(nodes: seq<Rec>, p: Rec -> bool)
    requires NoDup(nodes)
    ensures NoDup(Those(nodes, p))
    ensures forall x :: x in Those(nodes, p) <==> x in nodes && p(x)
  {
    if nodes != [] {
      assert nodes == [nodes[0]] + nodes[1..];
      assert nodes[0] !in nodes[1..];
      ThoseElements(nodes[1..], p);
    }
  }

  /** A sum over any duplicate-free list of the nodes with a property. */
  lemma SumOfThose(size: Rec -> nat, nodes: seq<Rec>, p: Rec -> bool, s: seq<Rec>)
    requires NoDup(nodes) && NoDup(s) && forall x :: x in s <==> x in nodes && p(x)
    ensures Sum(size, s) == Sum(size, Those(nodes, p))
  {
    ThoseElements(nodes, p);
    SameElements(s, Those(nodes, p));
    SumPermutation(size, s, Those(nodes, p));
  }

  /** Projection fails exactly when the constraints and pins alone exceed the budget. */
  lemma FailsExactlyWhenMustExceeds(size: Rec -> nat, nodes: seq<Rec>, budget: nat, pins: set<string>)
    requires Distinct(nodes)
    ensures var required := Sum(size, Those(nodes, n => Required(n, pins)));
      && (Project(size, nodes, budget, pins) == BudgetImpossible(required) <==> required > budget)
      && (Project(size, nodes, budget, pins).Ok? <==> required <= budget)
  {
    hide Kept, Required, IsMust;
    RequiredIsMust(pins);
    MustSortedElements(nodes, pins);
    SumOfThose(size, nodes, n => Required(n, pins), MustSorted(nodes, pins));
  }

  lemma KeptElements(size: Rec -> nat, nodes: seq<Rec>, budget: nat, pins: set<string>)
    requires Distinct(nodes) && Sum(size, MustSorted(nodes, pins)) <= budget
    ensures var kept := Kept(size, nodes, budget, pins);
      && NoDup(kept)
      && (forall x | x in kept :: x in nodes)
      && (forall x | x in nodes && IsMust(x, pins) :: x in kept)
      && (forall x | x in nodes && !IsMust(x, pins) ::
          x in kept <==> x in Fill(size, Optional(nodes, pins), budget - Sum(size, MustSorted(nodes, pins))))
      && Sum(size, kept) <= budget
  {
    hide IsMust, Fill, MustSorted, Optional;
    var must := MustSorted(nodes, pins);
    var room := budget - Sum(size, must);
    MustSortedElements(nodes, pins);
    OptionalElements(nodes, pins);
    FillElements(size, Optional(nodes, pins), room);
    SumConcat(size, must, Fill(size, Optional(nodes, pins), room));
    NoDupConcat(must, Fill(size, Optional(nodes, pins), room));
  }

  lemma IdsOfKept(nodes: seq<Rec>, kept: seq<Rec>)
    requires Distinct(nodes) && forall x | x in kept :: x in nodes
    ensures forall x | x in nodes :: Id(x) in IdsOf(kept) <==> x in kept
    ensures forall x | x in nodes :: Id(x) in IdList(Sort(kept, RecLeq)) <==> x in kept
  {
    var sorted := Sort(kept, RecLeq);
    SortElements(kept);
    forall x | x in nodes ensures Id(x) in IdsOf(kept) <==> x in kept {
      if Id(x) in IdsOf(kept) {
        var y :| y in kept && HasId(y) && Id(y) == Id(x);
        assert y == x;
      }
    }
    forall x | x in nodes ensures Id(x) in IdList(sorted) <==> x in kept {
      if x in kept {
        var i :| 0 <= i < |sorted| && sorted[i] == x;
        assert IdList(sorted)[i] == Id(x);
      }
      if Id(x) in IdList(sorted) {
        var i :| 0 <= i < |sorted| && IdList(sorted)[i] == Id(x);
        assert sorted[i] in sorted && sorted[i] == x;
      }
    }
  }

  lemma {:induction false} DroppedElements(nodes: seq<Rec>, ids: set<string>)
    requires Distinct(nodes)
    ensures NoDup(Dropped(nodes, ids))
    ensures forall d :: d in Dropped(nodes, ids) <==> exists x | x in nodes :: Id(x) == d && d !in ids
  {
    if nodes != [] {
      assert nodes == [nodes[0]] + nodes[1..];
      assert nodes[0] !in nodes[1..];
      DroppedElements(nodes[1..], ids);
    }
  }

  /**
   * A success keeps every constraint and pin, lists the kept nodes in order, reports their
   * exact size within the budget, and splits the node ids into included and dropped.
   */
  lemma KeepsMustAndPartitions(size: Rec -> nat, nodes: seq<Rec>, budget: nat, pins: set<string>)
    requires Distinct(nodes) && Project(size, nodes, budget, pins).Ok?
    ensures var p := Project(size, nodes, budget, pins).p;
      && (forall x | x in nodes && Required(x, pins) :: Id(x) in p.included)
      && (forall x | x in nodes :: Id(x) in p.included <==> Id(x) !in p.dropped)
      && (forall id | id in p.included + p.dropped :: exists x | x in nodes :: Id(x) == id)
      && NoDup(p.included) && NoDup(p.dropped) && Sorted(p.dropped, StringLeq)
      && p.used == Sum(size, Those(nodes, x => Id(x) in p.included)) <= budget
  {
    hide Kept, Fill, Required, IsMust, MustSorted, Optional;
    RequiredIsMust(pins);
    var p := Project(size, nodes, budget, pins).p;
    var kept := Kept(size, nodes, budget, pins);
    KeptElements(size, nodes, budget, pins);
    IdsOfKept(nodes, kept);
    DroppedLaws(nodes, IdsOf(kept), p.dropped);
    IncludedLaws(nodes, kept);
    SumOfThose(size, nodes, x => Id(x) in p.included, kept);
  }

  lemma DroppedLaws(nodes: seq<Rec>, ids: set<string>, dropped: seq<string>)
    requires Distinct(nodes) && dropped == Sort(Dropped(nodes, ids), StringLeq)
    ensures NoDup(dropped) && Sorted(dropped, StringLeq)
    ensures forall x | x in nodes :: Id(x) in dropped <==> Id(x) !in ids
    ensures forall d | d in dropped :: exists x | x in nodes :: Id(x) == d
  {
    DroppedElements(nodes, ids);
    PermutationElements(Dropped(nodes, ids), dropped);
    StringPreorder();
    SortSorted(Dropped(nodes, ids), StringLeq);
  }

  lemma IncludedLaws(nodes: seq<Rec>, kept: seq<Rec>)
    requires Distinct(nodes) && NoDup(kept) && forall x | x in kept :: x in nodes
    ensures var ids := IdList(Sort(kept, RecLeq));
      NoDup(ids) && forall id | id in ids :: exists x | x in nodes :: Id(x) == id
  {
    var s := Sort(kept, RecLeq);
    SortElements(kept);
    forall i, j | 0 <= i < j < |s| ensures IdList(s)[i] != IdList(s)[j] {
      assert s[i] in s && s[j] in s;
    }
    forall id | id in IdList(s) ensures exists x | x in nodes :: Id(x) == id {
      var i :| 0 <= i < |s| && IdList(s)[i] == id;
      assert s[i] in s;
    }
  }

  ghost predicate ItemOf(nodes: seq<Rec>, id: string, item: Json) {
    exists x | x in nodes ::
      && IdText(x) == id
      && item == Obj(map["id" := Get(x, "id"), "kind" := Get(x, "kind"), "payload" := Get(x, "payload"),
                         "step_n" := Get(x, "step_n"), "seq" := Get(x, "seq")])
  }

  ghost predicate InOrder(nodes: seq<Rec>, first: string, second: string) {
    forall x, y | x in nodes && y in nodes && IdText(x) == first && IdText(y) == second :: Precedes(x, y)
  }

  /** One item for each id, in the projector's order. */
  ghost predicate ListsNodes(nodes: seq<Rec>, ids: seq<string>, items: seq<Json>) {
    && |items| == |ids|
    && (forall i | 0 <= i < |ids| :: ItemOf(nodes, ids[i], items[i]))
    && (forall i, j | 0 <= i < j < |ids| :: InOrder(nodes, ids[i], ids[j]))
  }

  /** The context lists the included nodes. */
  lemma ContextListsIncluded(size: Rec -> nat, nodes: seq<Rec>, budget: nat, pins: set<string>)
    requires Distinct(nodes) && Project(size, nodes, budget, pins).Ok?
    ensures var p := Project(size, nodes, budget, pins).p;
      && Get(p.context, "items").Arr? && ListsNodes(nodes, p.included, Get(p.context, "items").items)
      && Get(p.context, "included_ids") == Arr(Strings(p.included))
      && Get(p.context, "size_units") == Num(p.used as real) && Get(p.context, "budget") == Num(budget as real)
      && Get(p.context, "metric") == Str("rfc8785_bytes") && p.budget == budget
  {
    hide Kept, Fill, IsMust, MustSorted, Optional, RecLeq, ListsNodes, Distinct, Context, Sort, NoDup;
    var kept := Kept(size, nodes, budget, pins);
    KeptElements(size, nodes, budget, pins);
    SortedListing(nodes, kept);
    ContextMembers(Sort(kept, RecLeq), budget, Sum(size, kept));
  }

  lemma ContextMembers(included: seq<Rec>, budget: int, used: nat)
    ensures var context := Context(included, budget, used);
      && Get(context, "items") == Arr(Items(included)) && Get(context, "included_ids") == Arr(Strings(IdList(included)))
      && Get(context, "size_units") == Num(used as real) && Get(context, "budget") == Num(budget as real)
      && Get(context, "metric") == Str("rfc8785_bytes")
  {}

  lemma ItemListed(nodes: seq<Rec>, x: Rec)
    requires x in nodes
    ensures ItemOf(nodes, Id(x), Obj(Item(x)))
  {
    assert IdText(x) == Id(x);
  }

  lemma OrderListed(nodes: seq<Rec>, x: Rec, y: Rec)
    requires Distinct(nodes) && x in nodes && y in nodes && Precedes(x, y)
    ensures InOrder(nodes, Id(x), Id(y))
  {
    hide Precedes;
    forall u, v | u in nodes && v in nodes && IdText(u) == Id(x) && IdText(v) == Id(y) ensures u == x && v == y {
      assert Id(u) == Id(x) && Id(v) == Id(y);
    }
  }

  lemma SortedListing(nodes: seq<Rec>, kept: seq<Rec>)
    requires Distinct(nodes) && NoDup(kept) && forall x | x in kept :: x in nodes
    ensures ListsNodes(nodes, IdList(Sort(kept, RecLeq)), Items(Sort(kept, RecLeq)))
  {
    var s := Sort(kept, RecLeq);
    SortElements(kept);
    DistinctStrict(nodes, s);
    hide RecLeq, Precedes, Item, ItemOf, InOrder, Sort, Distinct;
    forall i | 0 <= i < |s| ensures ItemOf(nodes, IdList(s)[i], Items(s)[i]) {
      assert s[i] in s;
      ItemListed(nodes, s[i]);
    }
    forall i, j | 0 <= i < j < |s| ensures InOrder(nodes, IdList(s)[i], IdList(s)[j]) {
      assert s[i] in s && s[j] in s && RecLeq(s[i], s[j]) && s[i] != s[j];
      EarlierIsPrecedes(s[i], s[j]);
      OrderListed(nodes, s[i], s[j]);
    }
  }

  /** Strictly before in the projector's order. */
  predicate Earlier(m: Rec, n: Rec) {
    RecLeq(m, n) && !RecLeq(n, m)
  }

  lemma SortedPrefix(nodes: seq<Rec>, s: seq<Rec>, i: nat)
    requires Distinct(nodes) && Sorted(s, RecLeq) && NoDup(s) && i < |s| && forall x | x in s :: x in nodes
    ensures forall x :: x in s[..i] <==> x in s && Earlier(x, s[i])
  {
    DistinctStrict(nodes, s);
    PrefixAndSuffix(s, i);
    forall x | x in s[i..] ensures !Earlier(x, s[i]) {
      var j :| i <= j < |s| && s[j] == x;
    }
    forall x | x in s[..i] ensures Earlier(x, s[i]) {
      var j :| 0 <= j < i && s[j] == x;
      assert x in s && s[i] in s && RecLeq(x, s[i]) && x != s[i];
    }
  }

  /**
   * First fit, said of the result alone: an optional node is included exactly when it fits
   * beside all constraints and pins and the included optional nodes that come before it. With
   * the order on nodes this fixes the included set; a dropped node does not fit in what is left.
   */
  lemma IncludedExactlyWhenItFits(size: Rec -> nat, nodes: seq<Rec>, budget: nat, pins: set<string>, n: Rec)
    requires Distinct(nodes) && Project(size, nodes, budget, pins).Ok?
    requires n in nodes && !Required(n, pins)
    ensures var p := Project(size, nodes, budget, pins).p;
      && (IdText(n) in p.included <==>
            Sum(size, Those(nodes, x => Required(x, pins)))
            + Sum(size, Those(nodes, x => !Required(x, pins) && Precedes(x, n) && IdText(x) in p.included))
            + size(n) <= budget)
      && (IdText(n) !in p.included ==> p.used + size(n) > budget)
  {
    hide Kept, Fill, IsMust, Required, MustSorted, Optional, RecLeq, Project, Distinct, NoDup, Those, Precedes;
    var opt := Optional(nodes, pins);
    RequiredIsMust(pins);
    OptionalElements(nodes, pins);
    MustSortedElements(nodes, pins);
    DistinctIsNoDup(nodes);
    SumOfThose(size, nodes, x => Required(x, pins), MustSorted(nodes, pins));
    var i :| 0 <= i < |opt| && opt[i] == n;
    IncludedAt(size, nodes, budget, pins, i);
    TakenBefore(size, nodes, budget, pins, i);
  }

  lemma DistinctIsNoDup(nodes: seq<Rec>)
    requires Distinct(nodes)
    ensures NoDup(nodes)
  {}

  /** An optional node is included exactly when the fill takes it. */
  lemma IncludedIsFilled(size: Rec -> nat, nodes: seq<Rec>, budget: nat, pins: set<string>)
    requires Distinct(nodes) && Project(size, nodes, budget, pins).Ok?
    ensures Sum(size, MustSorted(nodes, pins)) <= budget
    ensures var p := Project(size, nodes, budget, pins).p;
      && p.used == Sum(size, Kept(size, nodes, budget, pins))
      && forall x | x in nodes && !IsMust(x, pins) ::
           Id(x) in p.included <==> x in Fill(size, Optional(nodes, pins), budget - Sum(size, MustSorted(nodes, pins)))
  {
    hide Kept, Fill, IsMust, MustSorted, Optional, RecLeq, Distinct, NoDup, Sort, Context, IdsOf;
    KeptElements(size, nodes, budget, pins);
    IdsOfKept(nodes, Kept(size, nodes, budget, pins));
  }

  /** Membership of the i-th optional node, in terms of the fill of the earlier ones. */
  lemma IncludedAt(size: Rec -> nat, nodes: seq<Rec>, budget: nat, pins: set<string>, i: nat)
    requires Distinct(nodes) && Project(size, nodes, budget, pins).Ok? && i < |Optional(nodes, pins)|
    ensures Sum(size, MustSorted(nodes, pins)) <= budget
    ensures var p := Project(size, nodes, budget, pins).p;
      var n := Optional(nodes, pins)[i];
      var before := Sum(size, MustSorted(nodes, pins))
        + Sum(size, Fill(size, Optional(nodes, pins)[..i], budget - Sum(size, MustSorted(nodes, pins))));
      && (Id(n) in p.included <==> before + size(n) <= budget)
      && p.used >= before
  {
    hide Project, Kept, Fill, IsMust, MustSorted, Optional, RecLeq, Distinct, NoDup, Sum, Sorted;
    var n := Optional(nodes, pins)[i];
    IncludedIsFilled(size, nodes, budget, pins);
    OptionalElements(nodes, pins);
    assert n in nodes && !IsMust(n, pins);
    FillTakes(size, Optional(nodes, pins), i, budget - Sum(size, MustSorted(nodes, pins)));
    UsedSplits(size, nodes, budget, pins, i);
  }

  /** What was filled before the i-th optional node is the included optional nodes before it. */
  lemma TakenBefore(size: Rec -> nat, nodes: seq<Rec>, budget: nat, pins: set<string>, i: nat)
    requires Distinct(nodes) && Project(size, nodes, budget, pins).Ok? && i < |Optional(nodes, pins)|
    requires Sum(size, MustSorted(nodes, pins)) <= budget
    ensures var p := Project(size, nodes, budget, pins).p;
      var n := Optional(nodes, pins)[i];
      Sum(size, Fill(size, Optional(nodes, pins)[..i], budget - Sum(size, MustSorted(nodes, pins))))
        == Sum(size, Those(nodes, x => !Required(x, pins) && Precedes(x, n) && IdText(x) in p.included))
  {
    hide Project, Kept, Fill, IsMust, Required, Precedes, MustSorted, Optional, RecLeq, Distinct, NoDup, Earlier, Those, Sum, Sorted;
    var p := Project(size, nodes, budget, pins).p;
    var opt := Optional(nodes, pins);
    var room := budget - Sum(size, MustSorted(nodes, pins));
    var n := opt[i];
    DistinctIsNoDup(nodes);
    OptionalElements(nodes, pins);
    IncludedIsFilled(size, nodes, budget, pins);
    FillTakes(size, opt, i, room);
    SortedPrefix(nodes, opt, i);
    PrefixAndSuffix(opt, i);
    FillElements(size, opt[..i], room);
    RequiredIsMust(pins);
    forall x: Rec ensures Earlier(x, n) <==> Precedes(x, n) {
      EarlierIsPrecedes(x, n);
    }
    SumOfThose(size, nodes, x => !Required(x, pins) && Precedes(x, n) && IdText(x) in p.included, Fill(size, opt[..i], room));
  }

  lemma UsedSplits(size: Rec -> nat, nodes: seq<Rec>, budget: nat, pins: set<string>, i: nat)
    requires Sum(size, MustSorted(nodes, pins)) <= budget && i <= |Optional(nodes, pins)|
    ensures Sum(size, Kept(size, nodes, budget, pins)) >= Sum(size, MustSorted(nodes, pins))
      + Sum(size, Fill(size, Optional(nodes, pins)[..i], budget - Sum(size, MustSorted(nodes, pins))))
  {
    hide Fill, MustSorted, Optional;
    var must, opt := MustSorted(nodes, pins), Optional(nodes, pins);
    var room := budget - Sum(size, must);
    FillSplits(size, opt, i, room);
    SumConcat(size, must, Fill(size, opt, room));
    SumConcat(size, Fill(size, opt[..i], room), Fill(size, opt[i..], room - Sum(size, Fill(size, opt[..i], room))));
  }

  lemma SortedAgree(nodes: seq<Rec>, s: seq<Rec>, t: seq<Rec>)
    requires Distinct(nodes) && NoDup(s) && NoDup(t) && Sorted(s, RecLeq) && Sorted(t, RecLeq)
    requires forall x :: x in s <==> x in t
    requires forall x | x in s :: x in nodes
    ensures s == t
  {
    SameElements(s, t);
    DistinctStrict(nodes, s);
    RecPreorder();
    SortedUnique(s, t, RecLeq);
  }

  lemma DistinctPermutation(nodes: seq<Rec>, nodes': seq<Rec>)
    requires Distinct(nodes) && multiset(nodes) == multiset(nodes')
    ensures Distinct(nodes') && forall x :: x in nodes <==> x in nodes'
  {
    PermutationElements(nodes, nodes');
  }

  lemma MustAgree(nodes: seq<Rec>, nodes': seq<Rec>, pins: set<string>)
    requires Distinct(nodes) && Distinct(nodes') && forall x :: x in nodes <==> x in nodes'
    ensures MustSorted(nodes, pins) == MustSorted(nodes', pins)
  {
    hide MustSorted, IsMust, Distinct, NoDup, Sorted, RecLeq;
    MustSortedElements(nodes, pins);
    MustSortedElements(nodes', pins);
    SortedAgree(nodes, MustSorted(nodes, pins), MustSorted(nodes', pins));
  }

  lemma OptionalAgree(nodes: seq<Rec>, nodes': seq<Rec>, pins: set<string>)
    requires Distinct(nodes) && Distinct(nodes') && forall x :: x in nodes <==> x in nodes'
    ensures Optional(nodes, pins) == Optional(nodes', pins)
  {
    hide Optional, IsMust, Distinct, NoDup, Sorted, RecLeq;
    OptionalElements(nodes, pins);
    OptionalElements(nodes', pins);
    SortedAgree(nodes, Optional(nodes, pins), Optional(nodes', pins));
  }

  /** The order in which nodes are handed over does not matter. */
  lemma InputOrderIrrelevant(size: Rec -> nat, nodes: seq<Rec>, nodes': seq<Rec>, budget: int, pins: set<string>)
    requires Distinct(nodes) && multiset(nodes) == multiset(nodes')
    ensures Project(size, nodes, budget, pins) == Project(size, nodes', budget, pins)
  {
    hide Fill, IsMust, MustSorted, Optional, RecLeq, Distinct, Sum, Sort, Context, IdsOf, Dropped, IdList, NoDup;
    DistinctPermutation(nodes, nodes');
    MustAgree(nodes, nodes', pins);
    OptionalAgree(nodes, nodes', pins);
    if budget >= 0 && Sum(size, MustSorted(nodes, pins)) <= budget {
      DroppedAgree(nodes, nodes', IdsOf(Kept(size, nodes, budget, pins)));
    }
  }

  lemma DroppedAgree(nodes: seq<Rec>, nodes': seq<Rec>, ids: set<string>)
    requires Distinct(nodes) && Distinct(nodes') && multiset(nodes) == multiset(nodes')
    ensures Sort(Dropped(nodes, ids), StringLeq) == Sort(Dropped(nodes', ids), StringLeq)
  {
    PermutationElements(nodes, nodes');
    DroppedElements(nodes, ids);
    DroppedElements(nodes', ids);
    SameElements(Dropped(nodes, ids), Dropped(nodes', ids));
    StringPreorder();
    StringsStrict(Dropped(nodes, ids));
    SortOfPermutation(Dropped(nodes, ids), Dropped(nodes', ids), StringLeq);
  }
}
