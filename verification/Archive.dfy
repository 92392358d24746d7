/** Zip archives as the package code sees them: entries in order, and the checks on reading them. */
module Archive {
  import opened Base
  import opened Text
  import opened Sorting
  import opened Lists

  const MAX_ENTRIES: nat := 10_000
  const MAX_ENTRY_BYTES: nat := 32 * 1024 * 1024
  const MAX_TOTAL_BYTES: nat := 128 * 1024 * 1024
  const SIGNATURE := "SIGNATURE"

  /** A member. The zip library reports a size header that lies about the data as a read error. */
  datatype Entry = Entry(name: string, data: string)

  type Members = map<string, string>

  datatype Why = Limit | BadPackage | UnsafePath | Verification | BadSignature

  datatype Result<+T> = Ok(value: T) | Err(why: Why) {
    predicate IsFailure() { Err? }

    function PropagateFailure<U>(): (r: Result<U>)
      requires Err?
    {
      Err(why)
    }

    function Extract(): (v: T)
      requires Ok?
    {
      value
    }
  }

  function Check(ok: bool, why: Why): (r: Result<()>)
    ensures r.Ok? <==> ok
  {
    if ok then Ok(()) else Err(why)
  }

  predicate IsDir(name: string) {
    name != "" && name[|name| - 1] == '/'
  }

  function Slashes(name: string): string {
    seq(|name|, i requires 0 <= i < |name| => if name[i] == '\\' then '/' else name[i])
  }

  /** Absolute names and parent segments are unsafe; artifacts live under artifacts/cas/ only. */
  function NameError(name: string): Option<Why> {
    if name == "" || name[0] == '/' || name[0] == '\\' || ".." in Split(Slashes(name), '/') then Some(UnsafePath)
    else if "artifacts/" <= name && name != "artifacts/" && !("artifacts/cas/" <= name) then Some(Verification)
    else None
  }

  function Size(e: Entry): nat { |e.data| }

  // ---- Reading all members

  datatype Collected = Collected(members: Members, signature: Option<string>)

  function CollectFrom(files: seq<Entry>, budget: int, members: Members, signature: Option<string>): Result<Collected>
    decreases |files|
  {
    if files == [] then Ok(Collected(members, signature))
    else
      var f := files[0];
      if IsDir(f.name) then CollectFrom(files[1..], budget, members, signature)
      else if NameError(f.name).Some? then Err(NameError(f.name).value)
      else if Size(f) > MAX_ENTRY_BYTES || Size(f) > budget then Err(Limit)
      else if f.name == SIGNATURE then
        if signature.Some? then Err(BadPackage) else CollectFrom(files[1..], budget - Size(f), members, Some(f.data))
      else if f.name in members then Err(BadPackage)
      else CollectFrom(files[1..], budget - Size(f), members[f.name := f.data], signature)
  }

  function Collect(files: seq<Entry>): Result<Collected> {
    if |files| > MAX_ENTRIES then Err(Limit) else CollectFrom(files, MAX_TOTAL_BYTES, map[], None)
  }

  method CollectZipMembers(files: seq<Entry>) returns (res: Result<Collected>)
    ensures res == Collect(files)
  {
    if |files| > MAX_ENTRIES {
      return Err(Limit);
    }
    var members: Members := map[];
    var signature: Option<string> := None;
    var budget: int := MAX_TOTAL_BYTES;
    for i := 0 to |files|
      invariant CollectFrom(files[i..], budget, members, signature) == Collect(files)
    {
      assert files[i..][1..] == files[i + 1..];
      var f := files[i];
      if IsDir(f.name) {
        continue;
      }
      if NameError(f.name).Some? {
        return Err(NameError(f.name).value);
      }
      if Size(f) > MAX_ENTRY_BYTES || Size(f) > budget {
        return Err(Limit);
      }
      budget := budget - Size(f);
      if f.name == SIGNATURE {
        if signature.Some? {
          return Err(BadPackage);
        }
        signature := Some(f.data);
        continue;
      }
      if f.name in members {
        return Err(BadPackage);
      }
      members := members[f.name := f.data];
    }
    res := Ok(Collected(members, signature));
  }

  // ---- When reading succeeds, and what it yields

  /** The entries that are not directories. */
  function Plain(files: seq<Entry>): seq<Entry> {
    if files == [] then []
    else (if IsDir(files[0].name) then [] else [files[0]]) + Plain(files[1..])
  }

  predicate EntryOk(e: Entry) {
    NameError(e.name).None? && Size(e) <= MAX_ENTRY_BYTES
  }

  ghost predicate DistinctNames(es: seq<Entry>) {
    forall i, j | 0 <= i < j < |es| :: es[i].name != es[j].name
  }

  function Names(es: seq<Entry>): set<string> {
    set i | 0 <= i < |es| :: es[i].name
  }

  function ByName(es: seq<Entry>): Members {
    if es == [] then map[] else ByName(es[1..])[es[0].name := es[0].data]
  }

  lemma {:induction false} ByNameHolds(es: seq<Entry>)
    ensures ByName(es).Keys == Names(es)
    ensures DistinctNames(es) ==> forall i | 0 <= i < |es| :: ByName(es)[es[i].name] == es[i].data
  {
    if es != [] {
      ByNameHolds(es[1..]);
      assert es == [es[0]] + es[1..];
      assert forall i | 1 <= i < |es| :: es[i] == es[1..][i - 1];
    }
  }

  lemma {:induction false} ByNameAppend(es: seq<Entry>, f: Entry)
    requires f.name !in Names(es) && DistinctNames(es)
    ensures ByName(es + [f]) == ByName(es)[f.name := f.data]
    ensures DistinctNames(es + [f])
  {
    assert (es + [f])[|es|] == f && forall i | 0 <= i < |es| :: (es + [f])[i] == es[i] && es[i].name in Names(es);
    if es == [] {
      assert es + [f] == [f] && ByName([f]) == ByName([])[f.name := f.data];
    } else {
      assert (es + [f])[1..] == es[1..] + [f];
      assert forall i | 1 <= i < |es| :: es[i] == es[1..][i - 1];
      assert Names(es) == Names(es[1..]) + {es[0].name};
      ByNameAppend(es[1..], f);
    }
  }

  function Taken(members: Members, signature: Option<string>): set<string> {
    members.Keys + if signature.Some? then {SIGNATURE} else {}
  }

  ghost predicate Readable(es: seq<Entry>, budget: int, taken: set<string>) {
    && (forall i | 0 <= i < |es| :: EntryOk(es[i]))
    && DistinctNames(es) && Names(es) !! taken
    && Sum(Size, es) <= budget
  }

  lemma {:induction false} CollectSkipsDirs(files: seq<Entry>, budget: int, members: Members, signature: Option<string>)
    ensures CollectFrom(files, budget, members, signature) == CollectFrom(Plain(files), budget, members, signature)
    decreases |files|
  {
    hide NameError, IsDir;
    if files != [] {
      var f := files[0];
      if IsDir(f.name) {
        assert Plain(files) == Plain(files[1..]);
        CollectSkipsDirs(files[1..], budget, members, signature);
      } else {
        assert Plain(files)[1..] == Plain(files[1..]);
        CollectSkipsDirs(files[1..], budget - Size(f), members, Some(f.data));
        CollectSkipsDirs(files[1..], budget - Size(f), members[f.name := f.data], signature);
      }
    }
  }

  lemma ReadableHead(es: seq<Entry>, budget: int, taken: set<string>)
    requires es != []
    ensures Readable(es, budget, taken) <==>
      EntryOk(es[0]) && es[0].name !in taken && Readable(es[1..], budget - Size(es[0]), taken + {es[0].name})
  {
    var tail := es[1..];
    assert forall i | 0 <= i < |tail| :: tail[i] == es[i + 1];
    assert forall i | 1 <= i < |es| :: es[i] == tail[i - 1];
    assert Names(es) == Names(tail) + {es[0].name};
    assert DistinctNames(es) <==> DistinctNames(tail) && es[0].name !in Names(tail) by {
      if DistinctNames(tail) && es[0].name !in Names(tail) {
        forall i, j | 0 <= i < j < |es| ensures es[i].name != es[j].name {
          assert es[j].name == tail[j - 1].name && tail[j - 1].name in Names(tail);
        }
      }
    }
  }

  function SignatureOf(es: seq<Entry>, signature: Option<string>): Option<string> {
    if SIGNATURE in ByName(es) then Some(ByName(es)[SIGNATURE]) else signature
  }

  /** Reading succeeds exactly on readable members, and yields them by name. */
  lemma {:induction false} CollectFromIff(es: seq<Entry>, budget: nat, members: Members, signature: Option<string>)
    requires SIGNATURE !in members && forall i | 0 <= i < |es| :: !IsDir(es[i].name)
    ensures CollectFrom(es, budget, members, signature).Ok? <==> Readable(es, budget, Taken(members, signature))
    ensures CollectFrom(es, budget, members, signature).Ok? ==>
      CollectFrom(es, budget, members, signature).value
        == Collected(members + (ByName(es) - {SIGNATURE}), SignatureOf(es, signature))
    decreases |es|
  {
    hide NameError, ByName;
    if es == [] {
      ByNameHolds(es);
      assert members + (ByName(es) - {SIGNATURE}) == members;
    } else {
      var f := es[0];
      ReadableHead(es, budget, Taken(members, signature));
      if EntryOk(f) && f.name !in Taken(members, signature) && Size(f) <= budget {
        CollectTail(es, budget, members, signature);
      }
    }
  }

  lemma {:induction false} CollectTail(es: seq<Entry>, budget: nat, members: Members, signature: Option<string>)
    requires SIGNATURE !in members && forall i | 0 <= i < |es| :: !IsDir(es[i].name)
    requires es != [] && EntryOk(es[0]) && es[0].name !in Taken(members, signature) && Size(es[0]) <= budget
    ensures CollectFrom(es, budget, members, signature).Ok?
       <==> Readable(es[1..], budget - Size(es[0]), Taken(members, signature) + {es[0].name})
    ensures CollectFrom(es, budget, members, signature).Ok? ==>
      CollectFrom(es, budget, members, signature).value
        == Collected(members + (ByName(es) - {SIGNATURE}), SignatureOf(es, signature))
    decreases |es|, 0
  {
    hide NameError, Readable, ByName;
    var f := es[0];
    var tail, left := es[1..], budget - Size(f);
    if f.name == SIGNATURE {
      CollectFromIff(tail, left, members, Some(f.data));
      assert Taken(members, Some(f.data)) == Taken(members, signature) + {f.name};
      assert CollectFrom(es, budget, members, signature) == CollectFrom(tail, left, members, Some(f.data));
      if Readable(tail, left, Taken(members, Some(f.data))) {
        NotInTail(tail, left, Taken(members, Some(f.data)), f.name);
        MergeSignature(es, members, signature);
      }
    } else {
      CollectFromIff(tail, left, members[f.name := f.data], signature);
      assert Taken(members[f.name := f.data], signature) == Taken(members, signature) + {f.name};
      assert CollectFrom(es, budget, members, signature) == CollectFrom(tail, left, members[f.name := f.data], signature);
      if Readable(tail, left, Taken(members[f.name := f.data], signature)) {
        NotInTail(tail, left, Taken(members[f.name := f.data], signature), f.name);
        MergeMember(es, members, signature);
      }
    }
  }

  lemma MergeSignature(es: seq<Entry>, members: Members, signature: Option<string>)
    requires es != [] && es[0].name == SIGNATURE && SIGNATURE !in Names(es[1..])
    ensures members + (ByName(es) - {SIGNATURE}) == members + (ByName(es[1..]) - {SIGNATURE})
    ensures SignatureOf(es, signature) == SignatureOf(es[1..], Some(es[0].data))
  {
    ByNameHolds(es[1..]);
    assert ByName(es) - {SIGNATURE} == ByName(es[1..]) - {SIGNATURE};
  }

  lemma MergeMaps(members: Members, tail: Members, name: string, data: string)
    requires name !in tail && name != SIGNATURE
    ensures members[name := data] + (tail - {SIGNATURE}) == members + (tail[name := data] - {SIGNATURE})
  {}

  lemma MergeMember(es: seq<Entry>, members: Members, signature: Option<string>)
    requires es != [] && es[0].name != SIGNATURE && es[0].name !in Names(es[1..])
    ensures members[es[0].name := es[0].data] + (ByName(es[1..]) - {SIGNATURE}) == members + (ByName(es) - {SIGNATURE})
    ensures SignatureOf(es, signature) == SignatureOf(es[1..], signature)
  {
    ByNameHolds(es[1..]);
    var tail := ByName(es[1..]);
    assert ByName(es) == tail[es[0].name := es[0].data];
    MergeMaps(members, tail, es[0].name, es[0].data);
  }

  lemma NotInTail(es: seq<Entry>, budget: int, taken: set<string>, name: string)
    requires Readable(es, budget, taken) && name in taken
    ensures name !in Names(es)
  {}

  lemma {:induction false} PlainHasNoDirs(files: seq<Entry>)
    ensures forall i | 0 <= i < |Plain(files)| :: !IsDir(Plain(files)[i].name)
    ensures (forall i | 0 <= i < |files| :: !IsDir(files[i].name)) ==> Plain(files) == files
  {
    if files != [] {
      PlainHasNoDirs(files[1..]);
      assert files == [files[0]] + files[1..];
    }
  }

  ghost predicate Acceptable(files: seq<Entry>) {
    |files| <= MAX_ENTRIES && Readable(Plain(files), MAX_TOTAL_BYTES, {})
  }

  /**
   * Members are read exactly when there are at most 10000 entries, and the members that are not
   * directories have safe and distinct names, at most 32 MiB each and at most 128 MiB together.
   */
  lemma CollectIff(files: seq<Entry>)
    ensures Collect(files).Ok? <==> Acceptable(files)
    ensures Collect(files).Ok? ==>
      Collect(files).value == Collected(ByName(Plain(files)) - {SIGNATURE}, SignatureOf(Plain(files), None))
  {
    hide Readable, ByName, Plain;
    CollectSkipsDirs(files, MAX_TOTAL_BYTES, map[], None);
    PlainHasNoDirs(files);
    CollectFromIff(Plain(files), MAX_TOTAL_BYTES, map[], None);
    assert Taken(map[], None) == {};
    assert map[] + (ByName(Plain(files)) - {SIGNATURE}) == ByName(Plain(files)) - {SIGNATURE};
  }

  // ---- Members in name order

  predicate First(x: string, s: set<string>) {
    x in s && forall y | y in s :: StringLeq(x, y)
  }

  lemma {:induction false} FirstExists(s: set<string>)
    requires s != {}
    ensures exists x :: First(x, s)
  {
    StringPreorder();
    var y :| y in s;
    if s - {y} != {} {
      FirstExists(s - {y});
      var x :| First(x, s - {y});
      assert First(if StringLeq(x, y) then x else y, s);
    } else {
      assert s == {y};
      assert First(y, s);
    }
  }

  /** The names of a set, sorted. */
  ghost function SortedNames(s: set<string>): seq<string> {
    if s == {} then []
    else
      FirstExists(s);
      var x :| First(x, s);
      [x] + SortedNames(s - {x})
  }

  lemma {:induction false} SortedNamesOf(s: set<string>)
    ensures Sorted(SortedNames(s), StringLeq) && NoDup(SortedNames(s)) && |SortedNames(s)| == |s|
    ensures forall x :: x in SortedNames(s) <==> x in s
  {
    if s != {} {
      FirstExists(s);
      var x :| First(x, s) && SortedNames(s) == [x] + SortedNames(s - {x});
      SortedNamesOf(s - {x});
    }
  }

  ghost function EntriesOf(members: Members, names: seq<string>): (es: seq<Entry>)
    requires forall i | 0 <= i < |names| :: names[i] in members
    ensures |es| == |names| && forall i | 0 <= i < |es| :: es[i] == Entry(names[i], members[names[i]])
  {
    seq(|names|, i requires 0 <= i < |names| => Entry(names[i], members[names[i]]))
  }

  /** The members as a zip writer lists them, sorted by name. */
  ghost function Listed(members: Members): (es: seq<Entry>)
    ensures |es| == |members.Keys|
  {
    SortedNamesOf(members.Keys);
    EntriesOf(members, SortedNames(members.Keys))
  }

  lemma ListedNames(members: Members)
    ensures DistinctNames(Listed(members)) && Names(Listed(members)) == members.Keys
  {
    var es := Listed(members);
    var names := SortedNames(members.Keys);
    SortedNamesOf(members.Keys);
    hide SortedNames, Sorted;
    forall n ensures n in Names(es) <==> n in members {
      if n in members {
        var i :| 0 <= i < |names| && names[i] == n;
        assert es[i].name == n;
      }
    }
  }

  lemma ListedIs(members: Members)
    ensures ByName(Listed(members)) == members
    ensures forall i | 0 <= i < |Listed(members)| ::
      Listed(members)[i].name in members && Listed(members)[i].data == members[Listed(members)[i].name]
  {
    var es := Listed(members);
    ListedNames(members);
    SortedNamesOf(members.Keys);
    ByNameHolds(es);
    hide SortedNames, Sorted, ByName;
    forall n | n in members ensures ByName(es)[n] == members[n] {
      var i :| 0 <= i < |es| && es[i].name == n;
    }
  }
}
