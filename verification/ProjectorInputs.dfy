/** What the projector promises for any records: ids may be repeated, empty or missing. */
module ProjectorInputs {
  import opened Sorting
  import opened Projector
  import opened ProjectorLaws
  import opened Lists

  /** The first required record of its id, which is not empty. */
  predicate FirstRequired(nodes: seq<Rec>, pins: set<string>, i: nat) {
    && i < |nodes| && Required(nodes[i], pins) && IdText(nodes[i]) != ""
    && forall j | 0 <= j < i && Required(nodes[j], pins) :: IdText(nodes[j]) != IdText(nodes[i])
  }

  /** The list holds the first required record of each id, once, in input order: `at` says where. */
  ghost predicate TakesFirsts(nodes: seq<Rec>, pins: set<string>, must: seq<Rec>, at: seq<nat>) {
    && |at| == |must|
    && (forall k, l | 0 <= k < l < |at| :: at[k] < at[l])
    && (forall k | 0 <= k < |at| :: FirstRequired(nodes, pins, at[k]) && nodes[at[k]] == must[k])
    && (forall i | FirstRequired(nodes, pins, i) :: i in at)
  }

  lemma {:induction false} MustTakesFrom(nodes: seq<Rec>, pins: set<string>, n: nat, seen: set<string>) returns (at: seq<nat>)
    requires n <= |nodes|
    requires forall id :: id in seen <==> exists j | 0 <= j < n :: Required(nodes[j], pins) && IdText(nodes[j]) == id != ""
    ensures |at| == |Must(nodes[n..], pins, seen)|
    ensures forall k, l | 0 <= k < l < |at| :: at[k] < at[l]
    ensures forall k | 0 <= k < |at| :: n <= at[k] && FirstRequired(nodes, pins, at[k]) && nodes[at[k]] == Must(nodes[n..], pins, seen)[k]
    ensures forall i | n <= i && FirstRequired(nodes, pins, i) :: i in at
    decreases |nodes| - n
  {
    if n == |nodes| {
      return [];
    }
    hide Required, IsMust, IdText;
    assert nodes[n..][0] == nodes[n] && nodes[n..][1..] == nodes[n + 1..];
    RequiredIsMust(pins);
    assert IdText(nodes[n]) == Id(nodes[n]) by { SameId(nodes[n]); }
    if Required(nodes[n], pins) && IdText(nodes[n]) != "" && IdText(nodes[n]) !in seen {
      var rest := MustTakesFrom(nodes, pins, n + 1, seen + {Id(nodes[n])});
      assert FirstRequired(nodes, pins, n);
      at := [n] + rest;
    } else {
      assert !FirstRequired(nodes, pins, n);
      at := MustTakesFrom(nodes, pins, n + 1, seen);
    }
  }

  lemma SameId(n: Rec)
    ensures IdText(n) == Id(n)
  {}

  lemma MustTakesFirsts(nodes: seq<Rec>, pins: set<string>) returns (at: seq<nat>)
    ensures TakesFirsts(nodes, pins, Must(nodes, pins, {}), at)
  {
    hide Must, FirstRequired;
    assert nodes[0..] == nodes;
    at := MustTakesFrom(nodes, pins, 0, {});
  }

  /** It fails exactly when the first required records of all ids together exceed the budget, and reports their size. */
  lemma FailsExactlyWhenFirstsExceed(size: Rec -> nat, nodes: seq<Rec>, budget: int, pins: set<string>) returns (must: seq<Rec>, at: seq<nat>)
    ensures TakesFirsts(nodes, pins, must, at)
    ensures var r := Project(size, nodes, budget, pins);
      && (r == BadBudget <==> budget < 0)
      && (r == BudgetImpossible(Sum(size, must)) <==> 0 <= budget < Sum(size, must))
      && (r.Ok? <==> Sum(size, must) <= budget)
  {
    hide Must, TakesFirsts, Kept, Sum;
    must := Must(nodes, pins, {});
    at := MustTakesFirsts(nodes, pins);
    SumPermutation(size, must, MustSorted(nodes, pins));
    SumSigned(size, must);
  }

  lemma SumSigned(size: Rec -> nat, s: seq<Rec>)
    ensures Sum(size, s) >= 0
  {}

  lemma {:induction false} WithoutMeans(nodes: seq<Rec>, ids: set<string>, x: Rec)
    ensures multiset(Without(nodes, ids))[x] == if Id(x) in ids then 0 else multiset(nodes)[x]
  {
    if nodes != [] {
      WithoutMeans(nodes[1..], ids, x);
      assert nodes == [nodes[0]] + nodes[1..];
    }
  }

  lemma {:induction false} DroppedMeans(nodes: seq<Rec>, ids: set<string>, d: string)
    ensures d in Dropped(nodes, ids) <==> d != "" && d !in ids && exists x | x in nodes :: Id(x) == d
  {
    if nodes != [] {
      DroppedMeans(nodes[1..], ids, d);
      assert nodes == [nodes[0]] + nodes[1..];
      assert forall x :: x in nodes <==> x == nodes[0] || x in nodes[1..];
    }
  }

  lemma {:induction false} FilledArePart(size: Rec -> nat, s: seq<Rec>, room: nat)
    ensures forall x | x in Fill(size, s, room) :: x in s
  {
    if s != [] {
      FilledArePart(size, s[1..], if size(s[0]) > room then room else room - size(s[0]));
    }
  }

  lemma SortedElements(s: seq<Rec>)
    ensures forall x :: x in Sort(s, RecLeq) <==> x in s
  {
    PermutationElements(s, Sort(s, RecLeq));
  }

  lemma FirstsAreMust(nodes: seq<Rec>, pins: set<string>, must: seq<Rec>, at: seq<nat>)
    requires TakesFirsts(nodes, pins, must, at)
    ensures forall x | x in must :: x in nodes
    ensures forall i: nat | i < |nodes| && FirstRequired(nodes, pins, i) :: nodes[i] in must
  {
    forall i: nat | i < |nodes| && FirstRequired(nodes, pins, i) ensures nodes[i] in must {
      var k :| 0 <= k < |at| && at[k] == i;
      assert must[k] == nodes[i];
    }
    forall x | x in must ensures x in nodes {
      var k :| 0 <= k < |must| && must[k] == x;
      assert FirstRequired(nodes, pins, at[k]) && nodes[at[k]] == x;
    }
  }

  lemma OptionalArePart(nodes: seq<Rec>, pins: set<string>)
    ensures forall x | x in Optional(nodes, pins) :: x in nodes
  {
    hide Without, IdsOf, MustSorted;
    var ids := IdsOf(MustSorted(nodes, pins));
    SortedElements(Without(nodes, ids));
    forall x | x in Without(nodes, ids) ensures x in nodes {
      WithoutMeans(nodes, ids, x);
      assert x in multiset(Without(nodes, ids));
      assert x in multiset(nodes);
    }
  }

  lemma KeptAre(size: Rec -> nat, nodes: seq<Rec>, budget: nat, pins: set<string>, at: seq<nat>)
    requires Sum(size, MustSorted(nodes, pins)) <= budget && TakesFirsts(nodes, pins, Must(nodes, pins, {}), at)
    ensures var kept := Kept(size, nodes, budget, pins);
      && Sum(size, kept) <= budget
      && (forall x | x in kept :: x in nodes)
      && forall i: nat | i < |nodes| && FirstRequired(nodes, pins, i) :: nodes[i] in kept
  {
    hide FirstRequired, TakesFirsts, Must, Fill, Sum, Sort, Optional;
    var room := budget - Sum(size, MustSorted(nodes, pins));
    var opt := Optional(nodes, pins);
    SumConcat(size, MustSorted(nodes, pins), Fill(size, opt, room));
    SortedElements(Must(nodes, pins, {}));
    FilledArePart(size, opt, room);
    FirstsAreMust(nodes, pins, Must(nodes, pins, {}), at);
    OptionalArePart(nodes, pins);
  }

  /** Among records with one non-empty id, one of which is required, the first required one is a first. */
  lemma {:induction false} FirstOf(nodes: seq<Rec>, pins: set<string>, i: nat) returns (first: nat)
    requires i < |nodes| && Required(nodes[i], pins) && IdText(nodes[i]) != ""
    ensures first < |nodes| && FirstRequired(nodes, pins, first) && IdText(nodes[first]) == IdText(nodes[i])
    decreases i
  {
    hide Required, IdText;
    if j :| 0 <= j < i && Required(nodes[j], pins) && IdText(nodes[j]) == IdText(nodes[i]) {
      first := FirstOf(nodes, pins, j);
    } else {
      first := i;
    }
  }

  /**
   * Whatever the records are, a success includes every non-empty id of a required record, and
   * each non-empty id is either included or dropped; nothing else is dropped, nothing is
   * included that is no record's, and the size of what is included is within the budget.
   */
  lemma IdsPartitioned(size: Rec -> nat, nodes: seq<Rec>, budget: nat, pins: set<string>)
    requires Project(size, nodes, budget, pins).Ok?
    ensures var p := Project(size, nodes, budget, pins).p;
      && (forall i | 0 <= i < |nodes| && Required(nodes[i], pins) && IdText(nodes[i]) != "" :: IdText(nodes[i]) in p.included)
      && (forall i | 0 <= i < |nodes| && IdText(nodes[i]) != "" :: IdText(nodes[i]) in p.included <==> IdText(nodes[i]) !in p.dropped)
      && (forall d | d in p.dropped :: d != "" && HasIdText(nodes, d))
      && (forall id | id in p.included :: HasIdText(nodes, id))
      && p.used <= budget
  {
    hide Kept, Required, IdText, FirstRequired, HasIdText, Sort, MustSorted, Dropped, Context, TakesFirsts, Must;
    var p := Project(size, nodes, budget, pins).p;
    var kept := Kept(size, nodes, budget, pins);
    var at := MustTakesFirsts(nodes, pins);
    KeptAre(size, nodes, budget, pins, at);
    IncludedAre(nodes, kept);
    forall i | 0 <= i < |nodes| && Required(nodes[i], pins) && IdText(nodes[i]) != "" ensures IdText(nodes[i]) in p.included {
      var first := FirstOf(nodes, pins, i);
      assert nodes[first] in kept;
    }
    DroppedAre(nodes, IdsOf(kept));
    forall d | d in p.dropped ensures d != "" && HasIdText(nodes, d) {
      assert d in Dropped(nodes, IdsOf(kept));
    }
    forall i | 0 <= i < |nodes| && IdText(nodes[i]) != ""
      ensures IdText(nodes[i]) in p.included <==> IdText(nodes[i]) !in p.dropped
    {
      HasOwn(nodes, i);
      assert IdText(nodes[i]) in IdsOf(kept) <==> IdText(nodes[i]) in p.included;
      assert IdText(nodes[i]) in Dropped(nodes, IdsOf(kept)) <==> IdText(nodes[i]) in p.dropped;
    }
  }

  ghost predicate HasIdText(nodes: seq<Rec>, id: string) {
    exists i | 0 <= i < |nodes| :: IdText(nodes[i]) == id
  }

  lemma HasOwn(nodes: seq<Rec>, i: nat)
    requires i < |nodes|
    ensures HasIdText(nodes, IdText(nodes[i]))
  {}

  lemma DroppedAre(nodes: seq<Rec>, ids: set<string>)
    ensures forall d :: d in Dropped(nodes, ids) <==> d != "" && d !in ids && HasIdText(nodes, d)
    ensures forall d :: d in Sort(Dropped(nodes, ids), StringLeq) <==> d in Dropped(nodes, ids)
  {
    hide Dropped, Sort;
    PermutationElements(Dropped(nodes, ids), Sort(Dropped(nodes, ids), StringLeq));
    forall d ensures d in Dropped(nodes, ids) <==> d != "" && d !in ids && HasIdText(nodes, d) {
      DroppedMeans(nodes, ids, d);
      if HasIdText(nodes, d) {
        var i :| 0 <= i < |nodes| && IdText(nodes[i]) == d;
        assert nodes[i] in nodes && Id(nodes[i]) == d;
      }
    }
  }

  lemma IncludedAre(nodes: seq<Rec>, kept: seq<Rec>)
    requires forall x | x in kept :: x in nodes
    ensures forall x | x in kept :: IdText(x) in IdList(Sort(kept, RecLeq))
    ensures forall id | id in IdList(Sort(kept, RecLeq)) :: HasIdText(nodes, id)
    ensures forall id | id != "" :: id in IdsOf(kept) <==> id in IdList(Sort(kept, RecLeq))
  {
    hide Sort, RecLeq, HasIdText;
    var s := Sort(kept, RecLeq);
    SortedElements(kept);
    forall x | x in kept ensures IdText(x) in IdList(s) {
      var i :| 0 <= i < |s| && s[i] == x;
      assert IdList(s)[i] == Id(x);
    }
    forall id | id in IdList(s) ensures HasIdText(nodes, id) && (id != "" ==> id in IdsOf(kept)) {
      var i :| 0 <= i < |s| && IdList(s)[i] == id;
      assert s[i] in s && s[i] in nodes;
      var j :| 0 <= j < |nodes| && nodes[j] == s[i];
      HasOwn(nodes, j);
    }
    forall id | id in IdsOf(kept) ensures id in IdList(s) {
      var x :| x in kept && HasId(x) && Id(x) == id;
    }
  }
}
