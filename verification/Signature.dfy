/** Package signatures: the payload stream, and what signing and verifying promise each other. */
module Signature {
  import opened Base
  import opened Text
  import opened Sorting
  import opened Lists
  import opened Archive

  // ---- The payload stream

  /** The low `k` bytes of a number, highest first. */
  function BigEndian(n: nat, k: nat): (s: string)
    ensures |s| == k
  {
    if k == 0 then [] else BigEndian(n / 256, k - 1) + [(n % 256) as char]
  }

  function Power256(k: nat): nat {
    if k == 0 then 1 else 256 * Power256(k - 1)
  }

  lemma {:induction false} BigEndianInjective(m: nat, n: nat, k: nat)
    requires m < Power256(k) && n < Power256(k) && BigEndian(m, k) == BigEndian(n, k)
    ensures m == n
  {
    if k > 0 {
      var s, t := BigEndian(m, k), BigEndian(n, k);
      assert s[k - 1] == t[k - 1];
      assert s[..k - 1] == BigEndian(m / 256, k - 1) && t[..k - 1] == BigEndian(n / 256, k - 1);
      BigEndianInjective(m / 256, n / 256, k - 1);
    }
  }

  function Record(sha: string -> Digest, e: Entry): string {
    BigEndian(|e.name|, 8) + e.name + sha(e.data)
  }

  function Stream(sha: string -> Digest, es: seq<Entry>): string {
    if es == [] then [] else Record(sha, es[0]) + Stream(sha, es[1..])
  }

  /** A member name fits the 8-byte length. */
  predicate Fits(name: string) {
    |name| < Power256(8)
  }

  lemma RecordInjective(sha: string -> Digest, e: Entry, s: string, f: Entry, t: string)
    requires Fits(e.name) && Fits(f.name) && Record(sha, e) + s == Record(sha, f) + t
    ensures e.name == f.name && sha(e.data) == sha(f.data) && s == t
  {
    var x, y := Record(sha, e) + s, Record(sha, f) + t;
    assert x[..8] == BigEndian(|e.name|, 8) && y[..8] == BigEndian(|f.name|, 8);
    BigEndianInjective(|e.name|, |f.name|, 8);
    var n := |e.name|;
    assert x[8..8 + n] == e.name && y[8..8 + n] == f.name;
    assert x[8 + n..40 + n] == sha(e.data) && y[8 + n..40 + n] == sha(f.data);
    assert x[40 + n..] == s && y[40 + n..] == t;
  }

  /** Equal streams list the same names with the same content hashes. */
  lemma {:induction false} StreamInjective(sha: string -> Digest, es: seq<Entry>, fs: seq<Entry>)
    requires (forall i | 0 <= i < |es| :: Fits(es[i].name)) && (forall i | 0 <= i < |fs| :: Fits(fs[i].name))
    requires Stream(sha, es) == Stream(sha, fs)
    ensures |es| == |fs|
    ensures forall i | 0 <= i < |es| :: es[i].name == fs[i].name && sha(es[i].data) == sha(fs[i].data)
  {
    hide Power256;
    if es != [] && fs != [] {
      RecordInjective(sha, es[0], Stream(sha, es[1..]), fs[0], Stream(sha, fs[1..]));
      StreamInjective(sha, es[1..], fs[1..]);
      assert forall i | 1 <= i < |es| :: es[i] == es[1..][i - 1];
      assert forall i | 1 <= i < |fs| :: fs[i] == fs[1..][i - 1];
    }
  }

  /** The stream over a member map: its covered members in name order. */
  ghost function Payload(sha: string -> Digest, members: Members): string {
    Stream(sha, Listed(members - {SIGNATURE}))
  }

  predicate SafeMembers(members: Members) {
    forall n | n in members && n != SIGNATURE :: NameError(n).None?
  }

  ghost function PayloadHash(sha: string -> Digest, members: Members): Option<Digest> {
    if SafeMembers(members) then Some(sha(Payload(sha, members))) else None
  }

  lemma PayloadListing(sha: string -> Digest, m: Members)
    requires SIGNATURE !in m
    ensures Payload(sha, m) == Stream(sha, Listed(m))
  {
    assert m - {SIGNATURE} == m;
  }

  /** Two maps with one payload stream have the same names with the same content hashes. */
  lemma PayloadInjective(sha: string -> Digest, m: Members, n: Members)
    requires SIGNATURE !in m && SIGNATURE !in n
    requires (forall x | x in m :: Fits(x)) && (forall x | x in n :: Fits(x))
    requires Payload(sha, m) == Payload(sha, n)
    ensures m.Keys == n.Keys
    ensures forall x | x in m && x in n :: sha(m[x]) == sha(n[x])
  {
    hide Stream, Listed, Fits, DistinctNames, Payload;
    PayloadListing(sha, m);
    PayloadListing(sha, n);
    var es, fs := Listed(m), Listed(n);
    ListedFits(m);
    ListedFits(n);
    StreamInjective(sha, es, fs);
    SameListing(sha, es, fs);
    ListedNames(m);
    ListedNames(n);
    forall x | x in m && x in n ensures sha(m[x]) == sha(n[x]) {
      ListedIs(m);
      ListedIs(n);
      assert x in Names(es);
      var i :| 0 <= i < |es| && es[i].name == x;
    }
  }

  /** So they are one map, unless two contents of one name collide. */
  lemma SamePayloadSameMembers(sha: string -> Digest, m: Members, n: Members)
    requires SIGNATURE !in m && SIGNATURE !in n
    requires (forall x | x in m :: Fits(x)) && (forall x | x in n :: Fits(x))
    requires Payload(sha, m) == Payload(sha, n)
    ensures m == n || exists x | x in m && x in n :: Collision(sha, m[x], n[x])
  {
    hide Payload, Fits;
    PayloadInjective(sha, m, n);
    if m != n {
      var x :| x in m && m[x] != n[x];
      assert Collision(sha, m[x], n[x]);
    }
  }

  lemma ListedFits(m: Members)
    requires forall x | x in m :: Fits(x)
    ensures forall i | 0 <= i < |Listed(m)| :: Fits(Listed(m)[i].name)
  {
    ListedIs(m);
  }

  lemma SameListing(sha: string -> Digest, es: seq<Entry>, fs: seq<Entry>)
    requires |es| == |fs| && forall i | 0 <= i < |es| :: es[i].name == fs[i].name
    ensures Names(es) == Names(fs)
  {}

  /** The covered names, in whatever order the map yields them, or nothing if one is unsafe. */
  method CoveredNames(members: Members) returns (res: Option<seq<string>>)
    ensures res.Some? <==> SafeMembers(members)
    ensures res.Some? ==> NoDup(res.value) && forall n :: n in res.value <==> n in members && n != SIGNATURE
  {
    hide NameError;
    var names: seq<string> := [];
    var todo := members.Keys;
    while todo != {}
      invariant todo <= members.Keys && NoDup(names)
      invariant forall n :: n in names <==> n in members && n !in todo && n != SIGNATURE
      invariant forall n | n in names :: NameError(n).None?
    {
      var name :| name in todo;
      todo := todo - {name};
      if name != SIGNATURE {
        if NameError(name).Some? {
          return None;
        }
        NoDupConcat(names, [name]);
        names := names + [name];
      }
    }
    res := Some(names);
  }

  method WriteStream(sha: string -> Digest, members: Members, names: seq<string>) returns (stream: string)
    requires (forall n | n in names :: n in members)
    ensures stream == Stream(sha, EntriesOf(members, names))
  {
    ghost var all := EntriesOf(members, names);
    stream := "";
    for i := 0 to |names|
      invariant stream + Stream(sha, all[i..]) == Stream(sha, all)
    {
      assert names[i] in names && all[i] == Entry(names[i], members[names[i]]);
      assert all[i..][0] == all[i] && all[i..][1..] == all[i + 1..];
      var body := members[names[i]];
      ghost var before := stream;
      stream := stream + (BigEndian(|names[i]|, 8) + names[i] + sha(body));
      assert stream + Stream(sha, all[i + 1..]) == before + (Record(sha, all[i]) + Stream(sha, all[i + 1..]));
    }
    assert all[|names|..] == [];
  }

  /** The names reach the method in the map's own order; the sorted stream forgets it. */
  method PayloadHashFromMembers(sha: string -> Digest, members: Members) returns (res: Option<Digest>)
    ensures res == PayloadHash(sha, members)
  {
    hide Sort, SortedNames, Stream, NoDup;
    var covered := CoveredNames(members);
    if covered.None? {
      return None;
    }
    ghost var all := members - {SIGNATURE};
    SortedIsListed(covered.value, all.Keys);
    SortedNamesOf(all.Keys);
    var names := Sort(covered.value, StringLeq);
    var stream := WriteStream(sha, members, names);
    assert EntriesOf(members, names) == Listed(all);
    res := Some(sha(stream));
  }

  lemma SortedIsListed(names: seq<string>, s: set<string>)
    requires NoDup(names) && forall n :: n in names <==> n in s
    ensures Sort(names, StringLeq) == SortedNames(s)
  {
    StringPreorder();
    SortSorted(names, StringLeq);
    SortedNamesOf(s);
    SameElements(names, SortedNames(s));
    StringsStrict(Sort(names, StringLeq));
    SortedUnique(Sort(names, StringLeq), SortedNames(s), StringLeq);
  }
}
