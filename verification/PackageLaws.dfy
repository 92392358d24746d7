/** Loading what was exported: framing, seals, artifacts and limits. */
module PackageLaws {
  import opened Base
  import opened Text
  import opened Nodes
  import opened Lists
  import opened Archive
  import opened Package
  import Cas

  // ---- Lines

  lemma SplitCons(a: string, x: string, d: char)
    requires d !in a
    ensures Split(a + [d] + x, d) == [a] + Split(x, d)
  {
    var s := a + [d] + x;
    assert s[|a|] == d;
    CutFirstParts(a, x, d);
  }

  ghost predicate AllPlain(t: JsonText, recs: seq<Object>) {
    forall i | 0 <= i < |recs| :: t.plain(Obj(recs[i]))
  }

  lemma ParseLine(t: JsonText, rec: Object, rest: seq<string>, sofar: seq<Object>)
    requires Faithful(t) && t.plain(Obj(rec))
    ensures ParseNodes(t, [t.line(Obj(rec))] + rest, sofar)
         == if |sofar| + 1 > MAX_NODES then Err(Limit) else ParseNodes(t, rest, sofar + [rec])
  {
    assert ParseObject(t, t.line(Obj(rec))) == Some(rec);
    assert ([t.line(Obj(rec))] + rest)[1..] == rest;
  }

  lemma NoLines(t: JsonText, sofar: seq<Object>)
    ensures ParseNodes(t, Split("", '\n'), sofar) == Ok(sofar)
  {
    assert Split("", '\n') == [""] && [""][1..] == [];
    assert Trim("") == "";
    assert ParseNodes(t, [""], sofar) == ParseNodes(t, [], sofar);
  }

  /** Reading the lines of records gives the records back, up to the limit on their number. */
  lemma {:induction false} LinesRoundTrip(t: JsonText, recs: seq<Object>, sofar: seq<Object>)
    requires Faithful(t) && AllPlain(t, recs) && |sofar| <= MAX_NODES
    ensures ParseNodes(t, Split(Lines(t, recs), '\n'), sofar)
         == if |sofar| + |recs| <= MAX_NODES then Ok(sofar + recs) else Err(Limit)
    decreases |recs|
  {
    hide ParseNodes, Split, Trim;
    if recs == [] {
      NoLines(t, sofar);
      assert sofar + recs == sofar;
    } else {
      var line, rest := t.line(Obj(recs[0])), Lines(t, recs[1..]);
      assert t.plain(Obj(recs[0]));
      assert line + ("\n" + rest) == line + ['\n'] + rest;
      SplitCons(line, rest, '\n');
      ParseLine(t, recs[0], Split(rest, '\n'), sofar);
      if |sofar| < MAX_NODES {
        LinesRoundTrip(t, recs[1..], sofar + [recs[0]]);
        assert sofar + [recs[0]] + recs[1..] == sofar + recs;
      }
    }
  }

  // ---- Seals

  ghost predicate AllVerified(c: Codec, recs: seq<Object>) {
    forall i | 0 <= i < |recs| :: Verified(c, recs[i])
  }

  function IdOf(rec: Object): string {
    AsString(Get(rec, "id"))
  }

  ghost predicate DistinctIds(recs: seq<Object>) {
    forall i, j | 0 <= i < j < |recs| :: IdOf(recs[i]) != IdOf(recs[j])
  }

  lemma {:induction false} SealsAreObjects(c: Codec, recs: seq<Object>)
    requires AllVerified(c, recs)
    ensures forall i | 0 <= i < |Seals(c, recs)| :: Seals(c, recs)[i].Obj?
  {
    if recs != [] {
      assert Verified(c, recs[0]);
      SealsAreObjects(c, recs[1..]);
    }
  }

  lemma {:induction false} SealsConcat(c: Codec, recs: seq<Object>, rec: Object)
    requires AllVerified(c, recs + [rec])
    ensures AllVerified(c, recs) && Verified(c, rec)
    ensures Seals(c, recs + [rec])
         == Seals(c, recs) + if NodeOf(c, rec).kind == "DECISION" then [Obj(SealOf(c, rec, NodeOf(c, rec)))] else []
  {
    hide Verified, SealOf;
    var all := recs + [rec];
    assert all[|recs|] == rec && forall i | 0 <= i < |recs| :: all[i] == recs[i];
    if recs != [] {
      assert all[1..] == recs[1..] + [rec];
      SealsConcat(c, recs[1..], rec);
    } else {
      assert all == [rec] && all[1..] == [];
      assert Seals(c, []) == [];
    }
  }

  /** With distinct ids, the seal that a load finds for a decision is the one made for it. */
  lemma {:induction false} SealFound(c: Codec, recs: seq<Object>, i: nat)
    requires AllVerified(c, recs) && DistinctIds(recs) && i < |recs| && NodeOf(c, recs[i]).kind == "DECISION"
    requires forall j | 0 <= j < |Seals(c, recs)| :: ObjectOrNull(Seals(c, recs)[j])
    ensures SealedHash(Objects(Seals(c, recs)), IdOf(recs[i])) == Some(PayloadHash(c, NodeOf(c, recs[i]).payload))
    decreases |recs|
  {
    hide Verified;
    var m := |recs| - 1;
    var init, last := recs[..m], recs[m];
    assert recs == init + [last];
    SealsConcat(c, init, last);
    var n := NodeOf(c, last);
    var seals := Seals(c, init);
    SealsAreObjects(c, init);
    if n.kind == "DECISION" {
      LastSeal(c, seals, last, n, IdOf(recs[i]));
    } else {
      assert Seals(c, recs) == seals;
    }
    if i < m {
      assert IdOf(recs[i]) != IdOf(last);
      SealFound(c, init, i);
    }
  }

  lemma LastSeal(c: Codec, seals: seq<Json>, rec: Object, n: Node, id: string)
    requires forall i | 0 <= i < |seals| :: ObjectOrNull(seals[i])
    ensures var all := seals + [Obj(SealOf(c, rec, n))];
      && (forall i | 0 <= i < |all| :: ObjectOrNull(all[i]))
      && SealedHash(Objects(all), id)
           == if IdOf(rec) == id then Some(PayloadHash(c, n.payload)) else SealedHash(Objects(seals), id)
  {
    var all := seals + [Obj(SealOf(c, rec, n))];
    var objs := Objects(all);
    assert objs[|seals|] == SealOf(c, rec, n);
    assert objs[..|seals|] == Objects(seals);
  }

  lemma SealsRebuilt(c: Codec, recs: seq<Object>)
    requires AllVerified(c, recs) && DistinctIds(recs)
    ensures forall j | 0 <= j < |Seals(c, recs)| :: ObjectOrNull(Seals(c, recs)[j])
    ensures SealsMatch(c, recs, Objects(Seals(c, recs)))
  {
    hide Verified;
    SealsAreObjects(c, recs);
    forall i | 0 <= i < |recs| && NodeOf(c, recs[i]).kind == "DECISION"
      ensures SealedHash(Objects(Seals(c, recs)), IdOf(recs[i])) == Some(PayloadHash(c, NodeOf(c, recs[i]).payload))
    {
      SealFound(c, recs, i);
    }
  }

  // ---- Member names

  const CORE_NAMES: seq<string> := ["manifest.json", "COMPAT.json", "seals.json", "artifacts-manifest.json", "nodes.ndjson"]

  lemma PlainNameIsSafe(name: string)
    requires name != "" && '/' !in name && '\\' !in name && name[0] != '.' && !("artifacts/" <= name)
    ensures NameError(name).None? && !IsDir(name) && !IsArtifact(name)
  {
    assert Slashes(name) == name;
    assert Split(name, '/') == [name];
    assert name[0] in name && name[|name| - 1] in name;
    assert "artifacts/cas/"[9] == '/' && (|name| > 9 ==> name[9] in name);
  }

  lemma CoreNamesAreSafe()
    ensures forall i | 0 <= i < 5 ::
      NameError(CORE_NAMES[i]).None? && !IsDir(CORE_NAMES[i]) && !IsArtifact(CORE_NAMES[i]) && CORE_NAMES[i] != SIGNATURE
    ensures forall i, j | 0 <= i < j < 5 :: CORE_NAMES[i] != CORE_NAMES[j]
  {
    forall i | 0 <= i < 5 ensures NameError(CORE_NAMES[i]).None? && !IsDir(CORE_NAMES[i]) && !IsArtifact(CORE_NAMES[i]) {
      assert CORE_NAMES[3][9] == '-' && "artifacts/"[9] == '/';
      PlainNameIsSafe(CORE_NAMES[i]);
    }
    assert |CORE_NAMES[0]| == 13 && |CORE_NAMES[1]| == 11 && |CORE_NAMES[2]| == 10 && |CORE_NAMES[3]| == 23 && |CORE_NAMES[4]| == 12;
  }

  lemma HexHasNo(h: string, c: char)
    requires IsHex(h) && !('0' <= c <= '9' || 'a' <= c <= 'f')
    ensures c !in h
  {}

  lemma ArtifactNameParts(h: string)
    requires Cas.IsHash(h)
    ensures Slashes(ArtifactName(h)) == ArtifactName(h)
    ensures Split(ArtifactName(h), '/') == ["artifacts", "cas", h[..2], h]
    ensures BaseName(ArtifactName(h)) == h
  {
    var name := ArtifactName(h);
    HexHasNo(h, '\\');
    HexHasNo(h, '/');
    assert IsHex(h[..2]);
    HexHasNo(h[..2], '/');
    assert Slashes(name) == name;
    var s2 := h[..2] + ['/'] + h;
    var s1 := "cas" + ['/'] + s2;
    assert name == "artifacts" + ['/'] + s1;
    SplitCons("artifacts", s1, '/');
    SplitCons("cas", s2, '/');
    SplitCons(h[..2], h, '/');
    assert Split(h, '/') == [h];
    assert name == ("artifacts/cas/" + h[..2]) + ['/'] + h;
    CutLastParts("artifacts/cas/" + h[..2], h, '/');
  }

  lemma ArtifactNameIsSafe(h: string)
    requires Cas.IsHash(h)
    ensures NameError(ArtifactName(h)).None? && !IsDir(ArtifactName(h)) && IsArtifact(ArtifactName(h))
    ensures ArtifactName(h) != SIGNATURE && BaseName(ArtifactName(h)) == h
  {
    var name := ArtifactName(h);
    ArtifactNameParts(h);
    assert "artifacts/cas/" <= name && name[0] == 'a' && SIGNATURE[0] == 'S';
    assert name[|name| - 1] == h[63];
    assert ".."[0] == '.' && h[..2][0] == h[0];
    assert ".." !in ["artifacts", "cas", h[..2], h];
  }

  // ---- Artifacts

  function ArtifactSize(e: Entry): nat {
    if IsArtifact(e.name) then Size(e) else 0
  }

  /** The artifact members of an archive hold embedded bytes under their hashes. */
  ghost predicate Embeds(c: Codec, files: seq<Entry>, embedded: Members) {
    forall i | 0 <= i < |files| && IsArtifact(files[i].name) ::
      ArtifactOk(c, files[i]) && Size(files[i]) <= MAX_ENTRY_BYTES
      && BaseName(files[i].name) in embedded && embedded[BaseName(files[i].name)] == files[i].data
  }

  function ArtifactHashes(files: seq<Entry>): set<string> {
    set i | 0 <= i < |files| && IsArtifact(files[i].name) :: BaseName(files[i].name)
  }

  lemma {:induction false} ArtifactHashesCons(files: seq<Entry>)
    requires files != []
    ensures ArtifactHashes(files)
         == ArtifactHashes(files[1..]) + if IsArtifact(files[0].name) then {BaseName(files[0].name)} else {}
  {
    assert forall i | 1 <= i < |files| :: files[i] == files[1..][i - 1];
  }

  lemma SubsetSize(s: set<string>, t: set<string>)
    requires s <= t
    ensures |s| <= |t|
  {
    assert t == s + (t - s);
  }

  ghost predicate Part(m: Members, embedded: Members) {
    forall h | h in m :: h in embedded && embedded[h] == m[h]
  }

  lemma ArtifactStep(c: Codec, files: seq<Entry>, budget: int, sofar: Members, embedded: Members)
    requires files != [] && Embeds(c, files, embedded) && |embedded.Keys| <= MAX_ARTIFACTS && Part(sofar, embedded)
    ensures Embeds(c, files[1..], embedded)
    ensures IsArtifact(files[0].name) ==> Part(sofar[BaseName(files[0].name) := files[0].data], embedded)
    ensures ReadArtifacts(c, files, budget, sofar) ==
        if !IsArtifact(files[0].name) then ReadArtifacts(c, files[1..], budget, sofar)
        else if Size(files[0]) > budget then Err(Limit)
        else ReadArtifacts(c, files[1..], budget - Size(files[0]), sofar[BaseName(files[0].name) := files[0].data])
  {
    hide IsArtifact, ArtifactOk, BaseName;
    var f := files[0];
    assert forall i | 0 <= i < |files[1..]| :: files[1..][i] == files[i + 1];
    if IsArtifact(f.name) {
      SubsetSize(sofar[BaseName(f.name) := f.data].Keys, embedded.Keys);
    }
  }

  ghost predicate ReadsTo(r: Result<Members>, fits: bool, keys: set<string>, embedded: Members) {
    (r.Ok? <==> fits) && (r.Ok? ==> r.value.Keys == keys && Part(r.value, embedded))
  }

  ghost predicate ArtifactsReadFrom(c: Codec, files: seq<Entry>, budget: nat, sofar: Members, embedded: Members) {
    ReadsTo(ReadArtifacts(c, files, budget, sofar), Sum(ArtifactSize, files) <= budget,
            sofar.Keys + ArtifactHashes(files), embedded)
  }

  lemma SumArtifacts(files: seq<Entry>)
    requires files != []
    ensures Sum(ArtifactSize, files) == (if IsArtifact(files[0].name) then Size(files[0]) else 0) + Sum(ArtifactSize, files[1..])
  {}

  lemma OtherFirst(c: Codec, files: seq<Entry>, budget: nat, sofar: Members, embedded: Members)
    requires files != [] && !IsArtifact(files[0].name) && ArtifactsReadFrom(c, files[1..], budget, sofar, embedded)
    requires ReadArtifacts(c, files, budget, sofar) == ReadArtifacts(c, files[1..], budget, sofar)
    ensures ArtifactsReadFrom(c, files, budget, sofar, embedded)
  {
    hide IsArtifact, BaseName, ReadArtifacts, Part, Sum, ArtifactHashes;
    SumArtifacts(files);
    ArtifactHashesCons(files);
  }

  lemma ArtifactFirst(c: Codec, files: seq<Entry>, budget: nat, sofar: Members, embedded: Members)
    requires files != [] && IsArtifact(files[0].name) && Size(files[0]) <= budget
    requires var next := sofar[BaseName(files[0].name) := files[0].data];
      && ArtifactsReadFrom(c, files[1..], budget - Size(files[0]), next, embedded)
      && ReadArtifacts(c, files, budget, sofar) == ReadArtifacts(c, files[1..], budget - Size(files[0]), next)
    ensures ArtifactsReadFrom(c, files, budget, sofar, embedded)
  {
    hide IsArtifact, BaseName, ReadArtifacts, Part, Sum, ArtifactHashes;
    SumArtifacts(files);
    ArtifactHashesCons(files);
    var base := BaseName(files[0].name);
    assert sofar[base := files[0].data].Keys + ArtifactHashes(files[1..]) == sofar.Keys + (ArtifactHashes(files[1..]) + {base});
  }

  /** The artifact loop succeeds exactly within the budget, and yields the embedded bytes. */
  lemma {:induction false} ArtifactsRead(c: Codec, files: seq<Entry>, budget: nat, sofar: Members, embedded: Members)
    requires Embeds(c, files, embedded) && |embedded.Keys| <= MAX_ARTIFACTS && Part(sofar, embedded)
    ensures ArtifactsReadFrom(c, files, budget, sofar, embedded)
    decreases |files|
  {
    hide IsArtifact, BaseName, Embeds, ReadArtifacts, Part, Sum, ArtifactHashes, ReadsTo, ArtifactsReadFrom;
    if files == [] {
      NoHashes(c, budget, sofar, embedded);
    } else {
      ArtifactStep(c, files, budget, sofar, embedded);
      if !IsArtifact(files[0].name) {
        ArtifactsRead(c, files[1..], budget, sofar, embedded);
        OtherFirst(c, files, budget, sofar, embedded);
      } else if Size(files[0]) <= budget {
        ArtifactsRead(c, files[1..], budget - Size(files[0]), sofar[BaseName(files[0].name) := files[0].data], embedded);
        ArtifactFirst(c, files, budget, sofar, embedded);
      } else {
        TooLarge(c, files, budget, sofar, embedded);
      }
    }
  }

  lemma TooLarge(c: Codec, files: seq<Entry>, budget: nat, sofar: Members, embedded: Members)
    requires files != [] && IsArtifact(files[0].name) && Size(files[0]) > budget && ReadArtifacts(c, files, budget, sofar).Err?
    ensures ArtifactsReadFrom(c, files, budget, sofar, embedded)
  {
    hide IsArtifact, BaseName, ReadArtifacts, Part, ArtifactHashes;
    SumArtifacts(files);
  }

  lemma NoHashes(c: Codec, budget: nat, sofar: Members, embedded: Members)
    requires Part(sofar, embedded)
    ensures ArtifactsReadFrom(c, [], budget, sofar, embedded)
  {
    assert sofar.Keys + ArtifactHashes([]) == sofar.Keys;
  }
}
