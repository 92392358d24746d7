/** A load accepts an export exactly within the limits, and returns what was exported. */
module RoundTrip {
  import opened Base
  import opened Text
  import opened Nodes
  import opened Lists
  import opened Archive
  import opened Package
  import opened PackageLaws
  import Cas
  import Signature
  import Signing

  // ---- An archive that carries an export, in whatever order

  ghost predicate Carries(c: Codec, t: JsonText, src: Source, files: seq<Entry>)
    requires Exportable(c, src)
  {
    && (forall i | 0 <= i < |files| :: !IsDir(files[i].name) && NameError(files[i].name).None?)
    && DistinctNames(files)
    && (forall i {:trigger CORE_NAMES[i]} | 0 <= i < 5 ::
          CORE_NAMES[i] in ByName(files) && ByName(files)[CORE_NAMES[i]] == Core(c, t, src)[i].data)
    && Embeds(c, files, EmbeddedIn(src)) && ArtifactHashes(files) == EmbeddedIn(src).Keys
  }

  /** The values of an export survive JSON text. */
  ghost predicate PlainSource(c: Codec, t: JsonText, src: Source)
    requires Exportable(c, src)
  {
    && AllPlain(t, src.recs) && t.plain(ManifestOf(c, src)) && t.plain(Arr(Seals(c, src.recs))) && t.plain(ArtifactManifest(src))
  }

  ghost predicate CoreFits(c: Codec, t: JsonText, src: Source)
    requires Exportable(c, src)
  {
    forall i | 0 <= i < 5 :: Size(Core(c, t, src)[i]) <= MAX_ENTRY_BYTES
  }

  ghost predicate ParseLimits(c: Codec, t: JsonText, src: Source, files: seq<Entry>)
    requires Exportable(c, src)
  {
    && |files| <= MAX_ENTRIES && CoreFits(c, t, src)
    && Sum(Size, Core(c, t, src)) + Sum(ArtifactSize, files) <= MAX_TOTAL_BYTES
    && |src.recs| <= MAX_NODES && |src.artifacts| <= MAX_ARTIFACTS
  }

  lemma {:induction false} NamesPass(files: seq<Entry>, seen: set<string>)
    requires forall i | 0 <= i < |files| :: !IsDir(files[i].name) && NameError(files[i].name).None?
    requires DistinctNames(files) && Names(files) !! seen
    ensures CheckNames(files, seen) == Ok(())
  {
    hide IsDir, NameError;
    if files != [] {
      assert forall i | 1 <= i < |files| :: files[i] == files[1..][i - 1];
      assert Names(files) == Names(files[1..]) + {files[0].name};
      assert files[0].name !in Names(files[1..]);
      NamesPass(files[1..], seen + {files[0].name});
    }
  }

  lemma EmbeddedSize(c: Codec, src: Source)
    requires Exportable(c, src)
    ensures |EmbeddedIn(src).Keys| <= MAX_ARTIFACTS
    ensures forall h | h in EmbeddedIn(src) ::
      Cas.IsHash(h) && Cas.ContentHash(c.sha, EmbeddedIn(src)[h]) == h && |EmbeddedIn(src)[h]| <= MAX_ENTRY_BYTES
  {
    hide Verified;
    if src.fat {
      var hashes := set i | 0 <= i < |src.artifacts| :: src.artifacts[i].hash;
      HashCount(src.artifacts);
      SubsetSize(EmbeddedIn(src).Keys, hashes);
    }
  }

  lemma {:induction false} HashCount(artifacts: seq<Artifact>)
    ensures |set i | 0 <= i < |artifacts| :: artifacts[i].hash| <= |artifacts|
  {
    var hashes := set i | 0 <= i < |artifacts| :: artifacts[i].hash;
    if artifacts == [] {
      assert hashes == {};
    } else {
      HashCount(artifacts[1..]);
      assert forall i | 1 <= i < |artifacts| :: artifacts[i] == artifacts[1..][i - 1];
      assert hashes == (set i | 0 <= i < |artifacts[1..]| :: artifacts[1..][i].hash) + {artifacts[0].hash};
    }
  }

  function ParsedOf(c: Codec, src: Source): (p: Loaded)
    requires Exportable(c, src)
  {
    SealsAreObjects(c, src.recs);
    Loaded(ManifestOf(c, src).members, src.recs, Objects(Seals(c, src.recs)), Objects(ArtifactManifest(src).items), EmbeddedIn(src), None)
  }

  lemma CoreParses(c: Codec, t: JsonText, src: Source)
    requires Exportable(c, src) && Faithful(t) && PlainSource(c, t, src)
    ensures ParseObject(t, Core(c, t, src)[0].data) == Some(ParsedOf(c, src).manifest)
    ensures ParseObjects(t, Core(c, t, src)[2].data) == Some(ParsedOf(c, src).seals)
    ensures ParseObjects(t, Core(c, t, src)[3].data) == Some(ParsedOf(c, src).artifactManifest)
    ensures ParseNodes(t, Split(Core(c, t, src)[4].data, '\n'), [])
         == if |src.recs| <= MAX_NODES then Ok(src.recs) else Err(Limit)
    ensures |ParsedOf(c, src).artifactManifest| == |src.artifacts|
  {
    hide Verified, ParseNodes, Split;
    SealsAreObjects(c, src.recs);
    LinesRoundTrip(t, src.recs, []);
    assert [] + src.recs == src.recs;
  }

  lemma CoreSum(c: Codec, t: JsonText, src: Source)
    requires Exportable(c, src)
    ensures |Core(c, t, src)| == 5
    ensures var core := Core(c, t, src);
      Sum(Size, core) == |core[0].data| + |core[1].data| + |core[2].data| + |core[3].data| + |core[4].data|
  {
    var core := Core(c, t, src);
    var last := [core[4]];
    assert core == [core[0]] + ([core[1]] + ([core[2]] + ([core[3]] + last)));
    hide Core, Exportable;
    assert Sum(Size, last) == Size(core[4]);
    SumConcat(Size, [core[3]], last);
    SumConcat(Size, [core[2]], [core[3]] + last);
    SumConcat(Size, [core[1]], [core[2]] + ([core[3]] + last));
    SumConcat(Size, [core[0]], [core[1]] + ([core[2]] + ([core[3]] + last)));
  }

  function Used(m: Members): nat
    requires REQUIRED <= m.Keys
  {
    |m["manifest.json"]| + |m["COMPAT.json"]| + |m["seals.json"]| + |m["artifacts-manifest.json"]| + |m["nodes.ndjson"]|
  }

  ghost predicate RequiredFit(m: Members)
    requires REQUIRED <= m.Keys
  {
    && |m["manifest.json"]| <= MAX_ENTRY_BYTES && |m["COMPAT.json"]| <= MAX_ENTRY_BYTES && |m["seals.json"]| <= MAX_ENTRY_BYTES
    && |m["artifacts-manifest.json"]| <= MAX_ENTRY_BYTES && |m["nodes.ndjson"]| <= MAX_ENTRY_BYTES
    && Used(m) <= MAX_TOTAL_BYTES
  }

  /** Five members read one after another, and then the artifacts: all fit, or some read fails. */
  lemma ParseReads(c: Codec, t: JsonText, files: seq<Entry>, m: Members, p: Loaded, nodes: Result<seq<Object>>)
    requires CheckNames(files, {}).Ok? && m == ByName(Plain(files)) && REQUIRED <= m.Keys
    requires ParseObject(t, m["manifest.json"]) == Some(p.manifest) && ParseObjects(t, m["seals.json"]) == Some(p.seals)
    requires ParseObjects(t, m["artifacts-manifest.json"]) == Some(p.artifactManifest)
    requires ParseNodes(t, Split(m["nodes.ndjson"], '\n'), []) == nodes
    requires p.signature == None
    ensures Parse(c, t, files).Ok? <==>
      && |files| <= MAX_ENTRIES && RequiredFit(m) && |p.artifactManifest| <= MAX_ARTIFACTS && nodes.Ok?
      && ReadArtifacts(c, files, MAX_TOTAL_BYTES - Used(m), map[]).Ok?
    ensures Parse(c, t, files).Ok? ==>
      Parse(c, t, files).value
        == p.(nodes := nodes.value, artifacts := ReadArtifacts(c, files, MAX_TOTAL_BYTES - Used(m), map[]).value)
  {
    hide ParseNodes, ParseObject, ParseObjects, Split, CheckNames, ReadArtifacts, Plain, ByName;
  }

  lemma CarriedMembers(c: Codec, t: JsonText, src: Source, files: seq<Entry>)
    requires Exportable(c, src) && Carries(c, t, src, files)
    ensures CheckNames(files, {}).Ok? && Plain(files) == files
    ensures var m := ByName(files); var core := Core(c, t, src);
      && REQUIRED <= m.Keys
      && m["manifest.json"] == core[0].data && m["COMPAT.json"] == core[1].data && m["seals.json"] == core[2].data
      && m["artifacts-manifest.json"] == core[3].data && m["nodes.ndjson"] == core[4].data
      && Used(m) == Sum(Size, core)
      && (RequiredFit(m) <==> CoreFits(c, t, src) && Sum(Size, core) <= MAX_TOTAL_BYTES)
  {
    hide Exportable, CheckNames, Core, IsDir, NameError, DistinctNames, Embeds, ArtifactHashes, EmbeddedIn, ByName, Sum;
    assert CORE_NAMES[0] == "manifest.json" && CORE_NAMES[1] == "COMPAT.json" && CORE_NAMES[2] == "seals.json"
        && CORE_NAMES[3] == "artifacts-manifest.json" && CORE_NAMES[4] == "nodes.ndjson";
    PlainHasNoDirs(files);
    NamesPass(files, {});
    CoreSum(c, t, src);
  }

  lemma CarriedArtifacts(c: Codec, t: JsonText, src: Source, files: seq<Entry>, budget: nat)
    requires Exportable(c, src) && Carries(c, t, src, files)
    ensures ReadArtifacts(c, files, budget, map[]).Ok? <==> Sum(ArtifactSize, files) <= budget
    ensures ReadArtifacts(c, files, budget, map[]).Ok? ==> ReadArtifacts(c, files, budget, map[]).value == EmbeddedIn(src)
  {
    hide Exportable, ReadArtifacts, Core, IsDir, NameError, DistinctNames, Embeds, ArtifactHashes, EmbeddedIn, ByName, Sum;
    EmbeddedSize(c, src);
    ArtifactsRead(c, files, budget, map[], EmbeddedIn(src));
    var none: Members := map[];
    assert none.Keys + ArtifactHashes(files) == ArtifactHashes(files);
    ReadsEmbedded(ReadArtifacts(c, files, budget, map[]), Sum(ArtifactSize, files) <= budget, ArtifactHashes(files), EmbeddedIn(src));
  }

  lemma ParseCarried(c: Codec, t: JsonText, src: Source, files: seq<Entry>)
    requires Exportable(c, src) && Carries(c, t, src, files) && Faithful(t) && PlainSource(c, t, src)
    ensures Parse(c, t, files).Ok? <==> ParseLimits(c, t, src, files)
    ensures Parse(c, t, files).Ok? ==> Parse(c, t, files).value == ParsedOf(c, src)
  {
    hide Exportable, Carries, Parse, ParseNodes, ParseObject, ParseObjects, Split, CheckNames, ReadArtifacts, Core, ParsedOf,
      PlainSource, EmbeddedIn, CoreFits, Sum, Used, RequiredFit, Faithful, ByName;
    var m := ByName(files);
    var p := ParsedOf(c, src);
    CarriedMembers(c, t, src, files);
    CoreParses(c, t, src);
    ParsedArtifacts(c, src);
    ParseReads(c, t, files, m, p, if |src.recs| <= MAX_NODES then Ok(src.recs) else Err(Limit));
    if Used(m) <= MAX_TOTAL_BYTES {
      CarriedArtifacts(c, t, src, files, MAX_TOTAL_BYTES - Used(m));
    }
  }

  lemma ParsedArtifacts(c: Codec, src: Source)
    requires Exportable(c, src)
    ensures ParsedOf(c, src).artifacts == EmbeddedIn(src) && ParsedOf(c, src).nodes == src.recs && ParsedOf(c, src).signature == None
  {}

  lemma ReadsEmbedded(r: Result<Members>, fits: bool, keys: set<string>, embedded: Members)
    requires ReadsTo(r, fits, keys, embedded) && keys == embedded.Keys
    ensures r.Ok? <==> fits
    ensures r.Ok? ==> r.value == embedded
  {}

  // ---- What was parsed passes verification

  lemma ModeIs(c: Codec, src: Source)
    requires Exportable(c, src)
    ensures ModeOf(ParsedOf(c, src).manifest) == if src.fat then "fat" else "thin"
  {
    hide Verified;
  }

  lemma ArtifactsListed(c: Codec, src: Source, i: nat)
    requires Exportable(c, src) && i < |ParsedOf(c, src).artifactManifest|
    ensures |ParsedOf(c, src).artifactManifest| == |src.artifacts|
    ensures AsString(Get(ParsedOf(c, src).artifactManifest[i], "content_hash")) == src.artifacts[i].hash
    ensures src.fat ==> src.artifacts[i].hash in EmbeddedIn(src)
  {
    hide Verified;
    var items := ArtifactManifest(src).items;
    assert items[i] == ManifestEntry(src.artifacts[i], EmbeddedIn(src));
  }

  lemma ExportedIsSound(c: Codec, src: Source)
    requires Exportable(c, src) && DistinctIds(src.recs)
    ensures Sound(c, ParsedOf(c, src))
  {
    hide Verified, DistinctIds, SealsMatch, ModeOf, ManifestOf, ArtifactManifest;
    var p := ParsedOf(c, src);
    ModeIs(c, src);
    SealsRebuilt(c, src.recs);
    SealsAreObjects(c, src.recs);
    if src.fat {
      forall i | 0 <= i < |p.artifactManifest|
        ensures AsString(Get(p.artifactManifest[i], "content_hash")) in p.artifacts
      {
        ArtifactsListed(c, src, i);
      }
    }
  }

  // ---- An export carries itself

  lemma CoreEntries(c: Codec, t: JsonText, src: Source)
    requires Exportable(c, src)
    ensures |Core(c, t, src)| == 5 && forall i | 0 <= i < 5 :: Core(c, t, src)[i].name == CORE_NAMES[i]
  {}

  /** The entries of an export, named: five fixed ones and one for each embedded hash. */
  lemma ExportNames(c: Codec, t: JsonText, src: Source, order: seq<string>)
    requires Exportable(c, src) && OrderOf(order, EmbeddedIn(src))
    ensures var files := Export(c, t, src, order);
      && |files| == 5 + |order|
      && (forall i | 0 <= i < 5 :: files[i] == Core(c, t, src)[i] && files[i].name == CORE_NAMES[i] && !IsArtifact(files[i].name))
      && (forall i | 5 <= i < |files| :: files[i] == Entry(ArtifactName(order[i - 5]), EmbeddedIn(src)[order[i - 5]])
            && order[i - 5] in EmbeddedIn(src)
            && IsArtifact(files[i].name) && BaseName(files[i].name) == order[i - 5])
      && (forall i | 0 <= i < |files| :: !IsDir(files[i].name) && NameError(files[i].name).None? && files[i].name != SIGNATURE)
  {
    hide Exportable, Core, EmbeddedIn, NameError, IsDir, IsArtifact, ArtifactName, BaseName;
    CoreEntries(c, t, src);
    CoreNamesAreSafe();
    EmbeddedSize(c, src);
    forall i | 0 <= i < |order| ensures
      var name := ArtifactName(order[i]);
      order[i] in EmbeddedIn(src) && !IsDir(name) && NameError(name).None? && name != SIGNATURE && IsArtifact(name) && BaseName(name) == order[i]
    {
      assert order[i] in order;
      ArtifactNameIsSafe(order[i]);
    }
  }

  lemma ExportDistinct(c: Codec, t: JsonText, src: Source, order: seq<string>)
    requires Exportable(c, src) && OrderOf(order, EmbeddedIn(src))
    ensures DistinctNames(Export(c, t, src, order))
  {
    hide Exportable, Export, EmbeddedIn, NameError, IsDir, IsArtifact, ArtifactName, BaseName, CORE_NAMES;
    var files := Export(c, t, src, order);
    ExportNames(c, t, src, order);
    CoreNamesAreSafe();
    forall i, j | 0 <= i < j < |files| ensures files[i].name != files[j].name {
      if i >= 5 {
        assert order[i - 5] != order[j - 5];
      } else if j >= 5 {
        assert !IsArtifact(files[i].name) && IsArtifact(files[j].name);
      }
    }
  }

  lemma ExportArtifacts(c: Codec, t: JsonText, src: Source, order: seq<string>)
    requires Exportable(c, src) && OrderOf(order, EmbeddedIn(src))
    ensures var files := Export(c, t, src, order);
      Embeds(c, files, EmbeddedIn(src)) && ArtifactHashes(files) == EmbeddedIn(src).Keys
  {
    hide Exportable, Export, EmbeddedIn, NameError, IsDir, IsArtifact, ArtifactName, BaseName, CORE_NAMES, Core;
    var files := Export(c, t, src, order);
    var embedded := EmbeddedIn(src);
    ExportNames(c, t, src, order);
    EmbeddedSize(c, src);
    forall i | 0 <= i < |files| && IsArtifact(files[i].name)
      ensures ArtifactOk(c, files[i]) && Size(files[i]) <= MAX_ENTRY_BYTES
        && BaseName(files[i].name) in embedded && embedded[BaseName(files[i].name)] == files[i].data
    {
      assert i >= 5;
    }
    forall h | h in embedded ensures h in ArtifactHashes(files) {
      assert h in order;
      var i :| 0 <= i < |order| && order[i] == h;
      assert files[i + 5].name == ArtifactName(h) && BaseName(files[i + 5].name) == h;
    }
  }

  lemma ExportCarries(c: Codec, t: JsonText, src: Source, order: seq<string>)
    requires Exportable(c, src) && OrderOf(order, EmbeddedIn(src))
    ensures Carries(c, t, src, Export(c, t, src, order))
  {
    hide Exportable, Export, EmbeddedIn, NameError, IsDir, IsArtifact, ArtifactName, BaseName, Core, Embeds, ArtifactHashes, DistinctNames, ByName;
    var files := Export(c, t, src, order);
    CoreEntries(c, t, src);
    ExportNames(c, t, src, order);
    ExportDistinct(c, t, src, order);
    ExportArtifacts(c, t, src, order);
    ByNameHolds(files);
    forall i | 0 <= i < 5 ensures CORE_NAMES[i] in ByName(files) && ByName(files)[CORE_NAMES[i]] == Core(c, t, src)[i].data {
      assert files[i].name == CORE_NAMES[i] && files[i].name in Names(files);
    }
  }

  // ---- Sizes

  lemma {:induction false} SameSizes(es: seq<Entry>)
    ensures (forall i | 0 <= i < |es| :: !IsArtifact(es[i].name)) ==> Sum(ArtifactSize, es) == 0
    ensures (forall i | 0 <= i < |es| :: IsArtifact(es[i].name)) ==> Sum(ArtifactSize, es) == Sum(Size, es)
  {
    hide IsArtifact;
    if es != [] {
      assert forall i | 1 <= i < |es| :: es[i] == es[1..][i - 1];
      assert forall i | 0 <= i < |es[1..]| :: es[1..][i] == es[i + 1];
      SameSizes(es[1..]);
    }
  }

  lemma ExportSum(c: Codec, t: JsonText, src: Source, order: seq<string>)
    requires Exportable(c, src) && OrderOf(order, EmbeddedIn(src))
    ensures var files := Export(c, t, src, order);
      Sum(Size, files) == Sum(Size, Core(c, t, src)) + Sum(ArtifactSize, files)
  {
    hide Exportable, EmbeddedIn, NameError, IsDir, IsArtifact, ArtifactName, BaseName, Core, Sum, CORE_NAMES;
    var files := Export(c, t, src, order);
    var core, arts := Core(c, t, src), ArtifactEntries(EmbeddedIn(src), order);
    CoreEntries(c, t, src);
    ExportNames(c, t, src, order);
    forall i | 0 <= i < |arts| ensures IsArtifact(arts[i].name) {
      assert files[i + 5] == arts[i];
    }
    forall i | 0 <= i < |core| ensures !IsArtifact(core[i].name) {
      assert files[i] == core[i];
    }
    SameSizes(core);
    SameSizes(arts);
    SumConcat(Size, core, arts);
    SumConcat(ArtifactSize, core, arts);
  }

  // ---- The theorems

  /** What an export may be for a load to accept it: the reader's own limits, and nothing else. */
  ghost predicate ExportLimits(c: Codec, t: JsonText, src: Source, order: seq<string>)
    requires Exportable(c, src) && OrderOf(order, EmbeddedIn(src))
  {
    var files := Export(c, t, src, order);
    && |files| <= MAX_ENTRIES && Sum(Size, files) <= MAX_TOTAL_BYTES && CoreFits(c, t, src)
    && |src.recs| <= MAX_NODES && |src.artifacts| <= MAX_ARTIFACTS
  }

  /**
   * A verified load accepts an unsigned export exactly when the export is within the limits, and
   * then returns the exported records in their order and the embedded bytes.
   */
  lemma LoadAcceptsExport(c: Codec, t: JsonText, k: Signing.Crypto, src: Source, order: seq<string>)
    requires Exportable(c, src) && OrderOf(order, EmbeddedIn(src)) && Faithful(t) && PlainSource(c, t, src) && DistinctIds(src.recs)
    ensures Load(c, t, k, Export(c, t, src, order), true).Ok? <==> ExportLimits(c, t, src, order)
    ensures Load(c, t, k, Export(c, t, src, order), true).Ok? ==>
      var p := Load(c, t, k, Export(c, t, src, order), true).value;
      p.nodes == src.recs && p.artifacts == EmbeddedIn(src) && p.signature == None && p == ParsedOf(c, src)
  {
    hide Exportable, Export, EmbeddedIn, Carries, PlainSource, DistinctIds, Parse, Sound, CoreFits, Core, ParsedOf, Sum, ByName, NameError, IsDir,
      IsArtifact, ArtifactName, BaseName, CORE_NAMES, Faithful, OrderOf;
    var files := Export(c, t, src, order);
    ExportCarries(c, t, src, order);
    ExportSum(c, t, src, order);
    ExportNames(c, t, src, order);
    ParseCarried(c, t, src, files);
    ParsedArtifacts(c, src);
    ExportedIsSound(c, src);
    PlainHasNoDirs(files);
    ByNameHolds(files);
  }

  // ---- Signed exports

  lemma DistinctIsNoDup(es: seq<Entry>)
    requires DistinctNames(es)
    ensures NoDup(es)
  {}

  /** The listing of a member map is a permutation of any archive with those members. */
  lemma ListedPermutes(es: seq<Entry>)
    requires DistinctNames(es)
    ensures multiset(Listed(ByName(es))) == multiset(es)
  {
    hide Listed, ByName, DistinctNames;
    var ls := Listed(ByName(es));
    ByNameHolds(es);
    ListedNames(ByName(es));
    ListedIs(ByName(es));
    DistinctIsNoDup(es);
    DistinctIsNoDup(ls);
    forall e ensures e in ls <==> e in es {
      if e in ls {
        var i :| 0 <= i < |ls| && ls[i] == e;
        assert e.name in Names(ls);
        var j :| 0 <= j < |es| && es[j].name == e.name;
        assert es[j].data == e.data;
      }
      if e in es {
        var j :| 0 <= j < |es| && es[j] == e;
        assert e.name in Names(es);
        var i :| 0 <= i < |ls| && ls[i].name == e.name;
        assert ls[i].data == e.data;
      }
    }
    SameElements(ls, es);
  }

  lemma SignatureIsNoArtifact()
    ensures !IsArtifact(SIGNATURE) && forall i | 0 <= i < 5 :: CORE_NAMES[i] != SIGNATURE
  {
    CoreNamesAreSafe();
  }

  /** Elements, not order, decide what an archive embeds. */
  lemma EmbedsAnyOrder(c: Codec, es: seq<Entry>, fs: seq<Entry>, embedded: Members)
    requires Embeds(c, es, embedded) && forall e | e in fs && IsArtifact(e.name) :: e in es
    requires forall e | e in es && IsArtifact(e.name) :: e in fs
    ensures Embeds(c, fs, embedded) && ArtifactHashes(fs) == ArtifactHashes(es)
  {
    hide IsArtifact, BaseName, ArtifactOk;
    forall i | 0 <= i < |fs| && IsArtifact(fs[i].name) ensures exists j | 0 <= j < |es| :: es[j] == fs[i] {
      assert fs[i] in es;
    }
    forall i | 0 <= i < |es| && IsArtifact(es[i].name) ensures exists j | 0 <= j < |fs| :: fs[j] == es[i] {
      assert es[i] in fs;
    }
  }

  /** Signing an archive that carries an export leaves an archive that carries it. */
  lemma SignedCarries(c: Codec, t: JsonText, src: Source, files: seq<Entry>, doc: string)
    requires Exportable(c, src) && Carries(c, t, src, files) && SIGNATURE !in Names(files)
    ensures var signed := Signing.Rewrite(ByName(files), doc);
      && Carries(c, t, src, signed)
      && |signed| == |files| + 1 && Sum(ArtifactSize, signed) == Sum(ArtifactSize, files) && Sum(Size, Listed(ByName(files))) == Sum(Size, files)
      && SIGNATURE in ByName(signed)
  {
    hide Exportable, EmbeddedIn, NameError, IsDir, IsArtifact, BaseName, Core, Embeds, ArtifactHashes, DistinctNames, ByName, Listed, Sum, CORE_NAMES;
    var members := ByName(files);
    var ls := Listed(members);
    var signed := Signing.Rewrite(members, doc);
    var sig := Entry(SIGNATURE, doc);
    ListedPermutes(files);
    PermutationElements(ls, files);
    SumPermutation(ArtifactSize, ls, files);
    SumPermutation(Size, ls, files);
    SumConcat(ArtifactSize, ls, [sig]);
    SignatureIsNoArtifact();
    assert Sum(ArtifactSize, [sig]) == 0 by { SameSizes([sig]); }
    ByNameHolds(files);
    Signing.RewriteNames(members, doc);
    Signing.SignatureNameIsSafe();
    assert |multiset(ls)| == |ls| && |multiset(files)| == |files|;
    forall i | 0 <= i < |signed| ensures !IsDir(signed[i].name) && NameError(signed[i].name).None? {
      if i < |ls| {
        assert signed[i] == ls[i] && ls[i] in files;
      }
    }
    EmbedsAnyOrder(c, files, signed, EmbeddedIn(src));
  }

  lemma SignedLoad(c: Codec, t: JsonText, k: Signing.Crypto, src: Source, files: seq<Entry>, doc: string)
    requires Exportable(c, src) && Faithful(t) && PlainSource(c, t, src) && DistinctIds(src.recs)
    requires Carries(c, t, src, files) && SIGNATURE !in Names(files) && ParseLimits(c, t, src, files)
    requires var signed := Signing.Rewrite(ByName(files), doc);
      Signing.Verify(k, signed, ANY_SIGNER).Ok? <==> Signing.WithinLimits(ByName(files), doc)
    ensures var signed := Signing.Rewrite(ByName(files), doc);
      var loaded := Load(c, t, k, signed, true);
      && (loaded.Ok? <==> Signing.WithinLimits(ByName(files), doc))
      && (loaded.Ok? ==> loaded.value == ParsedOf(c, src).(signature := Signing.Verify(k, signed, ANY_SIGNER).value))
  {
    hide Exportable, Carries, PlainSource, DistinctIds, Parse, Sound, CoreFits, Core, ParsedOf, Sum, ByName, Faithful, Signing.Verify, Signing.Rewrite,
      DistinctNames;
    var signed := Signing.Rewrite(ByName(files), doc);
    SignedCarries(c, t, src, files, doc);
    CarriedMembers(c, t, src, signed);
    ParseCarried(c, t, src, signed);
    ExportedIsSound(c, src);
    CountMembers(c, t, src, files);
  }

  lemma CountMembers(c: Codec, t: JsonText, src: Source, files: seq<Entry>)
    requires Exportable(c, src) && Carries(c, t, src, files)
    ensures |ByName(files).Keys| == |files|
  {
    hide Exportable, Core, Embeds, ArtifactHashes, ByName;
    ByNameHolds(files);
    Signing.CountNames(files);
  }

  lemma CollectsByName(files: seq<Entry>)
    requires Collect(files).Ok? && SIGNATURE !in Names(files) && forall i | 0 <= i < |files| :: !IsDir(files[i].name)
    ensures Collect(files).value.members == ByName(files)
  {
    hide Collect, ByName, IsDir;
    CollectIff(files);
    PlainHasNoDirs(files);
    ByNameHolds(files);
    assert ByName(files) - {SIGNATURE} == ByName(files);
  }

  /** The SIGNATURE document that a key makes for an archive can be read back. */
  ghost predicate DocReadsBack(k: Signing.Crypto, members: Members, key: string, signedAt: string, id: string) {
    var hash := Signature.PayloadHash(k.sha, members);
    hash.Some? ==>
      k.decode(k.encode(Signing.DocFor(k, key, hash.value, signedAt, id))) == Some(Signing.DocFor(k, key, hash.value, signedAt, id))
  }

  /**
   * A signed export is accepted exactly when the SIGNATURE member still fits beside the rest,
   * and then yields the same records and bytes, together with the signer's key.
   */
  lemma LoadAcceptsSignedExport(
    c: Codec, t: JsonText, k: Signing.Crypto, src: Source, order: seq<string>, key: string, signedAt: string, id: string)
    requires Exportable(c, src) && OrderOf(order, EmbeddedIn(src)) && Faithful(t) && PlainSource(c, t, src) && DistinctIds(src.recs)
    requires ExportLimits(c, t, src, order) && Signing.Works(k, key)
    requires Signing.Sign(k, Export(c, t, src, order), key, signedAt, id).Ok?
    requires DocReadsBack(k, ByName(Export(c, t, src, order)), key, signedAt, id)
    ensures var files := Export(c, t, src, order);
      var signed := Signing.Sign(k, files, key, signedAt, id).value;
      var loaded := Load(c, t, k, signed, true);
      && (loaded.Ok? <==> Signing.WithinLimits(ByName(files), Signing.SignatureFor(k, ByName(files), key, signedAt, id)))
      && (loaded.Ok? ==>
            && loaded.value.nodes == src.recs && loaded.value.artifacts == EmbeddedIn(src)
            && loaded.value.signature.Some? && loaded.value.signature.value.publicKey == k.pub(key))
  {
    hide Exportable, Export, EmbeddedIn, Carries, PlainSource, DistinctIds, CoreFits, Core, ParsedOf, Sum, ByName, Faithful, OrderOf, IsDir, NameError,
      IsArtifact, ArtifactName, BaseName, CORE_NAMES, Signing.Verify, Signing.Rewrite, Signing.WithinLimits, Signing.SignatureFor, Collect, Load,
      Signing.Works, Signature.PayloadHash;
    var files := Export(c, t, src, order);
    ExportCarries(c, t, src, order);
    ExportSum(c, t, src, order);
    ExportNames(c, t, src, order);
    CollectsByName(files);
    var doc := Signing.SignatureFor(k, ByName(files), key, signedAt, id);
    Signing.SignThenVerify(k, files, key, signedAt, id, ANY_SIGNER);
    SignedLoad(c, t, k, src, files, doc);
    ParsedArtifacts(c, src);
  }
}
