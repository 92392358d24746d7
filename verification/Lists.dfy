/** Sequences without repetition, and sums that do not depend on order. */
module Lists {

  ghost predicate NoDup<T>(s: seq<T>) {
    forall i, j | 0 <= i < j < |s| :: s[i] != s[j]
  }

  lemma {:induction false} NoDupCount<T>(s: seq<T>, x: T)
    requires NoDup(s)
    ensures multiset(s)[x] == if x in s then 1 else 0
  {
    if s != [] {
      assert s == [s[0]] + s[1..];
      NoDupCount(s[1..], x);
    }
  }

  lemma {:induction false} CountNoDup<T>(s: seq<T>)
    requires forall x :: multiset(s)[x] <= 1
    ensures NoDup(s)
  {
    forall i, j | 0 <= i < j < |s| ensures s[i] != s[j] {
      assert s == s[..i] + [s[i]] + s[i + 1..j] + [s[j]] + s[j + 1..];
      assert multiset(s)[s[i]] >= 1 + if s[j] == s[i] then 1 else 0;
    }
  }

  lemma NoDupConcat<T>(s: seq<T>, t: seq<T>)
    requires NoDup(s) && NoDup(t) && forall x | x in s :: x !in t
    ensures NoDup(s + t)
  {
    forall i, j | 0 <= i < j < |s + t| ensures (s + t)[i] != (s + t)[j] {
      assert i < |s| ==> s[i] in s;
      assert j >= |s| ==> t[j - |s|] in t;
    }
  }

  lemma SameElements<T>(s: seq<T>, t: seq<T>)
    requires NoDup(s) && NoDup(t) && forall x :: x in s <==> x in t
    ensures multiset(s) == multiset(t)
  {
    forall x ensures multiset(s)[x] == multiset(t)[x] {
      NoDupCount(s, x);
      NoDupCount(t, x);
    }
  }

  lemma PermutationElements<T>(s: seq<T>, t: seq<T>)
    requires multiset(s) == multiset(t)
    ensures forall x :: x in s <==> x in t
    ensures NoDup(s) ==> NoDup(t)
  {
    forall x ensures x in s <==> x in t {
      assert x in s <==> x in multiset(s);
    }
    if NoDup(s) {
      forall x ensures multiset(t)[x] <= 1 {
        NoDupCount(s, x);
      }
      CountNoDup(t);
    }
  }

  // ---- Sums

  function Sum<T>(size: T -> nat, s: seq<T>): nat {
    if s == [] then 0 else size(s[0]) + Sum(size, s[1..])
  }

  lemma {:induction false} SumConcat<T>(size: T -> nat, s: seq<T>, t: seq<T>)
    ensures Sum(size, s + t) == Sum(size, s) + Sum(size, t)
  {
    if s == [] {
      assert s + t == t;
    } else {
      assert (s + t)[1..] == s[1..] + t;
      SumConcat(size, s[1..], t);
    }
  }

  lemma SumInsert<T>(size: T -> nat, a: seq<T>, x: T, b: seq<T>)
    ensures Sum(size, a + ([x] + b)) == size(x) + Sum(size, a + b)
  {
    SumConcat(size, a, [x] + b);
    SumConcat(size, a, b);
  }

  lemma {:induction false} SumPermutation<T>(size: T -> nat, s: seq<T>, t: seq<T>)
    requires multiset(s) == multiset(t)
    ensures Sum(size, s) == Sum(size, t)
  {
    if s == [] {
      assert |multiset(t)| == |t|;
    } else {
      assert s[0] in multiset(t);
      var i :| 0 <= i < |t| && t[i] == s[0];
      var a, x, b := t[..i], t[i], t[i + 1..];
      assert t == a + ([x] + b) && s == [x] + s[1..];
      SumInsert(size, a, x, b);
      Remaining(s[1..], a, x, b);
      SumPermutation(size, s[1..], a + b);
    }
  }

  lemma Remaining<T>(rest: seq<T>, a: seq<T>, x: T, b: seq<T>)
    requires multiset([x] + rest) == multiset(a + ([x] + b))
    ensures multiset(rest) == multiset(a + b)
  {
    assert multiset(rest) == multiset([x] + rest) - multiset{x};
    assert multiset(a + b) == multiset(a + ([x] + b)) - multiset{x};
  }
}
