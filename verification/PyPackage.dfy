/** The Python reader of packages, and what it makes of a redacted export. */
module PyPackage {
  import opened Base
  import opened Text
  import opened Nodes
  import opened LogTable
  import opened Lists
  import Cas
  import opened Archive
  import opened Redact
  import opened Package
  import opened PackageLaws
  import opened RoundTrip
  import opened RedactedExport

  // ---- Lines of text

  /** The bytes of the line end, as `splitlines` knows them, that UTF-8 text starts with; or 0. */
  function BreakLength(s: string): (n: nat)
    ensures n <= |s|
  {
    if s == [] then 0
    else if '\n' <= s[0] <= '\r' || 28 <= s[0] as int <= 30 then 1
    else if |s| >= 2 && s[0] as int == 0xC2 && s[1] as int == 0x85 then 2
    else if |s| >= 3 && s[0] as int == 0xE2 && s[1] as int == 0x80 && 0xA8 <= s[2] as int <= 0xA9 then 3
    else 0
  }

  function BreakAt(s: string): (i: nat)
    ensures i <= |s|
    ensures i < |s| ==> BreakLength(s[i..]) > 0
  {
    if s == [] || BreakLength(s) > 0 then 0
    else
      var i := BreakAt(s[1..]);
      assert s[1..][i..] == s[i + 1..];
      1 + i
  }

  function PyLines(s: string): seq<string>
    decreases |s|
  {
    var i := BreakAt(s);
    if i == |s| then [s] else [s[..i]] + PyLines(s[i..][BreakLength(s[i..])..])
  }

  predicate IsPySpace(c: char) {
    c == ' ' || '\t' <= c <= '\r' || 28 <= c as int <= 31
  }

  function StripLeft(s: string): (r: string)
    ensures s != [] && !IsPySpace(s[0]) ==> r == s
  {
    if s != [] && IsPySpace(s[0]) then StripLeft(s[1..]) else s
  }

  function StripRight(s: string): (r: string)
    ensures s != [] && !IsPySpace(s[|s| - 1]) ==> r == s
  {
    if s != [] && IsPySpace(s[|s| - 1]) then StripRight(s[..|s| - 1]) else s
  }

  function Strip(s: string): string {
    StripRight(StripLeft(s))
  }

  // ---- Loading

  datatype PyLoaded = PyLoaded(manifest: Json, nodes: seq<Json>, seals: Json, artifactManifest: Json, artifacts: Members)

  function PyNodes(t: JsonText, lines: seq<string>, sofar: seq<Json>): Result<seq<Json>> {
    if lines == [] then Ok(sofar)
    else
      var line := Strip(lines[0]);
      if line == "" then PyNodes(t, lines[1..], sofar)
      else
        match t.parse(line)
        case None => Err(BadPackage)
        case Some(j) => if |sofar| + 1 > MAX_NODES then Err(Limit) else PyNodes(t, lines[1..], sofar + [j])
  }

  /** The member that a name leads to: the last one of that name. */
  function LastByName(files: seq<Entry>): Members {
    if files == [] then map[]
    else
      var last := files[|files| - 1];
      LastByName(files[..|files| - 1])[last.name := last.data]
  }

  predicate SafeNames(files: seq<Entry>) {
    forall i | 0 <= i < |files| :: NameError(files[i].name).None?
  }

  /** The last component of a path; `.` components and slashes at the end do not count. */
  function PyBase(name: string): string {
    if IsDir(name) then PyBase(name[..|name| - 1])
    else if |name| >= 2 && name[|name| - 2..] == "/." then PyBase(name[..|name| - 2])
    else BaseName(name)
  }

  predicate PyArtifactOk(c: Codec, name: string, data: string) {
    |PyBase(name)| == 64 && AnyHex(PyBase(name)) && Cas.ContentHash(c.sha, data) == PyBase(name)
  }

  /** Artifacts are read by name, so every entry of a repeated name yields the last one's bytes. */
  function PyArtifacts(c: Codec, files: seq<Entry>, members: Members, budget: int, sofar: Members): Result<Members>
    decreases |files|
  {
    if files == [] then Ok(sofar)
    else
      var name := files[0].name;
      if !IsArtifact(name) then PyArtifacts(c, files[1..], members, budget, sofar)
      else
        var data :- ReadMember(members, name, budget);
        var _ :- Check(PyArtifactOk(c, name, data), Verification);
        var next := sofar[PyBase(name) := data];
        var _ :- Check(|next.Keys| <= MAX_ARTIFACTS, Limit);
        PyArtifacts(c, files[1..], members, budget - |data|, next)
  }

  function ParseText(t: JsonText, raw: string): Result<Json> {
    OptionToResult(t.parse(raw), BadPackage)
  }

  function PyParse(c: Codec, t: JsonText, files: seq<Entry>): Result<PyLoaded> {
    var _ :- Check(|files| <= MAX_ENTRIES, Limit);
    var members := LastByName(files);
    var _ :- Check(REQUIRED <= members.Keys, BadPackage);
    var _ :- Check(SafeNames(files), UnsafePath);
    var b0 := MAX_TOTAL_BYTES;
    var rawManifest :- ReadMember(members, "manifest.json", b0);
    var manifest :- ParseText(t, rawManifest);
    var b1 := b0 - |rawManifest|;
    var rawSeals :- ReadMember(members, "seals.json", b1);
    var seals :- ParseText(t, rawSeals);
    var b2 := b1 - |rawSeals|;
    var rawArtifacts :- ReadMember(members, "artifacts-manifest.json", b2);
    var artifactManifest :- ParseText(t, rawArtifacts);
    var b3 := b2 - |rawArtifacts|;
    var compat :- ReadMember(members, "COMPAT.json", b3);
    var b4 := b3 - |compat|;
    var rawNodes :- ReadMember(members, "nodes.ndjson", b4);
    var _ :- Check(ValidUtf8(rawNodes), BadPackage);
    var nodes :- PyNodes(t, PyLines(rawNodes), []);
    var _ :- Check(artifactManifest.Arr? ==> |artifactManifest.items| <= MAX_ARTIFACTS, Limit);
    var b5 := b4 - |rawNodes|;
    var artifacts :- PyArtifacts(c, files, members, b5, map[]);
    Ok(PyLoaded(manifest, nodes, seals, artifactManifest, artifacts))
  }

  /** The Python check of a record: the payload is an object, and a payload hash must be the right one. */
  predicate PyVerified(c: Codec, rec: Object) {
    && Verified(c, rec)
    && Get(rec, "payload").Obj? && Get(rec, "kind").Str?
    && (Get(rec, "step_n").Num? ==> rec["step_n"].n.Floor as real == rec["step_n"].n)
    && ("payload_hash" in rec ==> rec["payload_hash"] == Str(PayloadHash(c, NodeOf(c, rec).payload)))
  }

  /** What a `for` loop over a value sees: nothing in an empty object or string. */
  function PyItems(j: Json): Option<seq<Json>> {
    match j
    case Arr(items) => Some(items)
    case Obj(m) => if m == map[] then Some([]) else None
    case Str(s) => if s == "" then Some([]) else None
    case _ => None
  }

  function MembersOf(items: seq<Json>): (ms: seq<Object>)
    requires forall i | 0 <= i < |items| :: items[i].Obj?
    ensures |ms| == |items| && forall i | 0 <= i < |ms| :: items[i] == Obj(ms[i])
  {
    seq(|items|, i requires 0 <= i < |items| => items[i].members)
  }

  predicate PySealsMatch(c: Codec, recs: seq<Object>, seals: Json)
    requires AllVerified(c, recs)
  {
    && PyItems(seals).Some?
    && (forall i | 0 <= i < |PyItems(seals).value| ::
          PyItems(seals).value[i].Obj? && "node_id" in PyItems(seals).value[i].members
          && !PyItems(seals).value[i].members["node_id"].Arr? && !PyItems(seals).value[i].members["node_id"].Obj?)
    && SealsMatch(c, recs, MembersOf(PyItems(seals).value))
  }

  function PyMode(manifest: Object): Json {
    if "mode" in manifest then manifest["mode"] else Str("thin")
  }

  predicate ListsArtifacts(artifactManifest: Json, artifacts: Members) {
    && PyItems(artifactManifest).Some?
    && forall i | 0 <= i < |PyItems(artifactManifest).value| ::
         var entry := PyItems(artifactManifest).value[i];
         entry.Obj? && Get(entry.members, "content_hash").Str? && entry.members["content_hash"].s in artifacts
  }

  predicate PySound(c: Codec, p: PyLoaded) {
    && p.nodes != []
    && (forall i | 0 <= i < |p.nodes| :: p.nodes[i].Obj? && PyVerified(c, p.nodes[i].members))
    && PySealsMatch(c, MembersOf(p.nodes), p.seals)
    && p.manifest.Obj?
    && (PyMode(p.manifest.members) == Str("fat") ==> ListsArtifacts(p.artifactManifest, p.artifacts))
    && (PyMode(p.manifest.members) == Str("thin") ==> p.artifacts == map[])
  }

  function PyLoad(c: Codec, t: JsonText, files: seq<Entry>): Result<PyLoaded> {
    var p :- PyParse(c, t, files);
    var _ :- Check(PySound(c, p), Verification);
    Ok(p)
  }

  // ---- Reading an export

  /** UTF-8 text that Python reads as one line, with nothing to strip at its ends. */
  predicate PyLineOk(s: string) {
    && s != "" && ValidUtf8(s) && !IsPySpace(s[0]) && !IsPySpace(s[|s| - 1])
    && forall i | 0 <= i < |s| :: BreakLength(s[i..]) == 0
  }

  ghost predicate PyText(t: JsonText) {
    forall v {:trigger t.plain(v)} | t.plain(v) :: PyLineOk(t.line(v))
  }

  predicate Printable(s: string) {
    forall i | 0 <= i < |s| :: ' ' <= s[i] <= '~'
  }

  lemma {:induction false} PrintableIsUtf8(s: string)
    requires Printable(s)
    ensures ValidUtf8(s)
  {
    if s != [] {
      assert RuneLength(s) == 1;
      PrintableIsUtf8(s[1..]);
    }
  }

  /** What Python itself writes, trimmed printable ASCII, is such text. */
  lemma PrintableIsPyText(t: JsonText)
    requires Faithful(t) && forall v {:trigger t.plain(v)} | t.plain(v) :: Printable(t.line(v))
    ensures PyText(t)
  {
    forall v | t.plain(v) ensures PyLineOk(t.line(v)) {
      PrintableIsUtf8(t.line(v));
      TrimmedEnds(t.line(v));
    }
  }

  lemma TrimmedEnds(s: string)
    requires s != "" && Trim(s) == s && Printable(s)
    ensures !IsPySpace(s[0]) && !IsPySpace(s[|s| - 1])
  {
    if s[0] == ' ' {
      TrimShortens(s);
    }
  }

  lemma {:induction false} TrimShortens(s: string)
    requires s != "" && IsSpace(s[0])
    ensures |Trim(s)| < |s|
  {
    LeftNotLonger(s[1..]);
    RightNotLonger(TrimLeft(s));
  }

  lemma LeftNotLonger(s: string)
    ensures |TrimLeft(s)| <= |s|
  {}

  lemma RightNotLonger(s: string)
    ensures |TrimRight(s)| <= |s|
  {}

  lemma {:induction false} BreakAfter(line: string, rest: string)
    requires forall i | 0 <= i < |line| :: BreakLength(line[i..]) == 0
    ensures BreakAt(line + ("\n" + rest)) == |line|
  {
    var s := line + ("\n" + rest);
    if line == [] {
      assert s[0] == '\n';
    } else {
      assert line[0..] == line && BreakLength(line) == 0;
      assert s[0] == line[0] && (|line| >= 2 ==> s[1] == line[1]) && (|line| >= 3 ==> s[2] == line[2]);
      assert |line| == 1 ==> s[1] == '\n';
      assert |line| == 2 ==> s[2] == '\n';
      assert s[1..] == line[1..] + ("\n" + rest);
      assert forall i | 0 <= i < |line[1..]| :: line[1..][i..] == line[i + 1..];
      BreakAfter(line[1..], rest);
    }
  }

  lemma LinesCons(line: string, rest: string)
    requires PyLineOk(line)
    ensures PyLines(line + ("\n" + rest)) == [line] + PyLines(rest)
  {
    var s := line + ("\n" + rest);
    BreakAfter(line, rest);
    assert s[..|line|] == line && s[|line|..] == "\n" + rest;
    assert BreakLength("\n" + rest) == 1 && ("\n" + rest)[1..] == rest;
  }

  lemma FirstRune(a: string, b: string)
    requires a != [] && RuneLength(a) > 0
    ensures RuneLength(a + b) == RuneLength(a)
  {
    assert forall i | 0 <= i < |a| :: (a + b)[i] == a[i];
    forall i: nat, lo, hi | i < |a| ensures Between(a + b, i, lo, hi) == Between(a, i, lo, hi) {}
    forall n: nat | Continues(a, n) && n <= 4 ensures Continues(a + b, n) {
      forall i: nat | 2 <= i < n ensures Between(a + b, i, 0x80, 0xBF) {
        assert Between(a, i, 0x80, 0xBF);
      }
    }
  }

  lemma {:induction false} Utf8Concat(a: string, b: string)
    requires ValidUtf8(a) && ValidUtf8(b)
    ensures ValidUtf8(a + b)
    decreases |a|
  {
    if a == [] {
      assert a + b == b;
    } else {
      var n := RuneLength(a);
      FirstRune(a, b);
      assert (a + b)[n..] == a[n..] + b;
      Utf8Concat(a[n..], b);
    }
  }

  lemma {:induction false} LinesAreUtf8(t: JsonText, recs: seq<Object>)
    requires PyText(t) && AllPlain(t, recs)
    ensures ValidUtf8(Lines(t, recs))
  {
    hide ValidUtf8;
    if recs == [] {
      EmptyIsUtf8();
    } else {
      assert t.plain(Obj(recs[0]));
      LinesAreUtf8(t, recs[1..]);
      NewlineFirst(Lines(t, recs[1..]));
      Utf8Concat(t.line(Obj(recs[0])), "\n" + Lines(t, recs[1..]));
    }
  }

  lemma EmptyIsUtf8()
    ensures ValidUtf8("")
  {}

  lemma NewlineFirst(s: string)
    requires ValidUtf8(s)
    ensures ValidUtf8("\n" + s)
  {
    assert RuneLength("\n" + s) == 1 && ("\n" + s)[1..] == s;
  }

  function AsJson(recs: seq<Object>): (js: seq<Json>)
    ensures |js| == |recs| && forall i | 0 <= i < |js| :: js[i] == Obj(recs[i])
  {
    seq(|recs|, i requires 0 <= i < |recs| => Obj(recs[i]))
  }

  lemma PyLine(t: JsonText, rec: Object, rest: seq<string>, sofar: seq<Json>)
    requires Faithful(t) && PyText(t) && t.plain(Obj(rec))
    ensures PyNodes(t, [t.line(Obj(rec))] + rest, sofar)
         == if |sofar| + 1 > MAX_NODES then Err(Limit) else PyNodes(t, rest, sofar + [Obj(rec)])
  {
    assert Strip(t.line(Obj(rec))) == t.line(Obj(rec));
    assert ([t.line(Obj(rec))] + rest)[1..] == rest;
  }

  lemma PyNoLines(t: JsonText, sofar: seq<Json>)
    ensures PyNodes(t, PyLines(""), sofar) == Ok(sofar)
  {
    assert PyLines("") == [""] && [""][1..] == [];
    assert Strip("") == "";
    assert PyNodes(t, [""], sofar) == PyNodes(t, [], sofar);
  }

  lemma {:induction false} PyLinesRoundTrip(t: JsonText, recs: seq<Object>, sofar: seq<Json>)
    requires Faithful(t) && PyText(t) && AllPlain(t, recs) && |sofar| <= MAX_NODES
    ensures PyNodes(t, PyLines(Lines(t, recs)), sofar)
         == if |sofar| + |recs| <= MAX_NODES then Ok(sofar + AsJson(recs)) else Err(Limit)
    decreases |recs|
  {
    hide PyNodes, PyLines, Strip, ValidUtf8, Faithful, PyText, PyLineOk;
    if recs == [] {
      PyNoLines(t, sofar);
      assert sofar + AsJson(recs) == sofar;
    } else {
      var line, rest := t.line(Obj(recs[0])), Lines(t, recs[1..]);
      assert t.plain(Obj(recs[0]));
      LineIsText(t, Obj(recs[0]));
      LinesCons(line, rest);
      PyLine(t, recs[0], PyLines(rest), sofar);
      if |sofar| < MAX_NODES {
        PyLinesRoundTrip(t, recs[1..], sofar + [Obj(recs[0])]);
        AsJsonCons(recs, sofar);
      }
    }
  }

  lemma LineIsText(t: JsonText, v: Json)
    requires PyText(t) && t.plain(v)
    ensures PyLineOk(t.line(v))
  {}

  lemma AsJsonCons(recs: seq<Object>, sofar: seq<Json>)
    requires recs != []
    ensures sofar + [Obj(recs[0])] + AsJson(recs[1..]) == sofar + AsJson(recs)
  {}

  lemma {:induction false} LastIsFirst(es: seq<Entry>)
    requires DistinctNames(es)
    ensures LastByName(es) == ByName(es)
  {
    if es != [] {
      var m := |es| - 1;
      var init, last := es[..m], es[m];
      assert es == init + [last];
      LastIsFirst(init);
      assert last.name !in Names(init);
      ByNameAppend(init, last);
    }
  }

  function PyParsedOf(c: Codec, src: Source): PyLoaded
    requires Exportable(c, src)
  {
    PyLoaded(ManifestOf(c, src), AsJson(src.recs), Arr(Seals(c, src.recs)), ArtifactManifest(src), EmbeddedIn(src))
  }

  lemma PyParseReads(c: Codec, t: JsonText, files: seq<Entry>, m: Members, p: PyLoaded, nodes: Result<seq<Json>>)
    requires SafeNames(files) && m == LastByName(files) && REQUIRED <= m.Keys
    requires t.parse(m["manifest.json"]) == Some(p.manifest) && t.parse(m["seals.json"]) == Some(p.seals)
    requires t.parse(m["artifacts-manifest.json"]) == Some(p.artifactManifest) && p.artifactManifest.Arr?
    requires PyNodes(t, PyLines(m["nodes.ndjson"]), []) == nodes && ValidUtf8(m["nodes.ndjson"])
    ensures PyParse(c, t, files).Ok? <==>
      && |files| <= MAX_ENTRIES && RequiredFit(m) && |p.artifactManifest.items| <= MAX_ARTIFACTS && nodes.Ok?
      && PyArtifacts(c, files, m, MAX_TOTAL_BYTES - Used(m), map[]).Ok?
    ensures PyParse(c, t, files).Ok? ==>
      PyParse(c, t, files).value
        == p.(nodes := nodes.value, artifacts := PyArtifacts(c, files, m, MAX_TOTAL_BYTES - Used(m), map[]).value)
  {
    hide PyNodes, PyLines, SafeNames, PyArtifacts, LastByName, ValidUtf8;
  }

  lemma PyCoreParses(c: Codec, t: JsonText, src: Source)
    requires Exportable(c, src) && Faithful(t) && PyText(t) && PlainSource(c, t, src)
    ensures var p := PyParsedOf(c, src); var core := Core(c, t, src);
      && t.parse(core[0].data) == Some(p.manifest) && t.parse(core[2].data) == Some(p.seals)
      && t.parse(core[3].data) == Some(p.artifactManifest) && p.artifactManifest.Arr?
      && |p.artifactManifest.items| == |src.artifacts|
      && ValidUtf8(core[4].data)
      && PyNodes(t, PyLines(core[4].data), []) == if |src.recs| <= MAX_NODES then Ok(p.nodes) else Err(Limit)
  {
    hide Verified, PyNodes, PyLines, ValidUtf8;
    LinesAreUtf8(t, src.recs);
    PyLinesRoundTrip(t, src.recs, []);
    assert [] + AsJson(src.recs) == AsJson(src.recs);
  }

  lemma PyParseCarried(c: Codec, t: JsonText, src: Source, files: seq<Entry>)
    requires Exportable(c, src) && Carries(c, t, src, files) && Faithful(t) && PyText(t) && PlainSource(c, t, src)
    ensures PyParse(c, t, files).Ok? <==> ParseLimits(c, t, src, files)
    ensures PyParse(c, t, files).Ok? ==> PyParse(c, t, files).value == PyParsedOf(c, src)
  {
    CarriedNames(c, t, src, files);
    hide Exportable, Carries, PyParse, PyNodes, PyLines, PyArtifacts, ReadArtifacts, ValidUtf8, Core, PyParsedOf, PlainSource, EmbeddedIn, CoreFits, Sum, Used,
      RequiredFit, Faithful, PyText, ByName, LastByName, SafeNames;
    var m := ByName(files);
    var p := PyParsedOf(c, src);
    CarriedMembers(c, t, src, files);
    PyCoreParses(c, t, src);
    PyArtifactsOf(c, src);
    PyParseReads(c, t, files, m, p, if |src.recs| <= MAX_NODES then Ok(p.nodes) else Err(Limit));
    CarriedPyArtifacts(c, t, src, files, MAX_TOTAL_BYTES - Used(m));
    if Used(m) <= MAX_TOTAL_BYTES {
      CarriedArtifacts(c, t, src, files, MAX_TOTAL_BYTES - Used(m));
    }
  }

  lemma PlainBase(name: string)
    requires !IsDir(name) && |BaseName(name)| == 64
    ensures PyBase(name) == BaseName(name)
  {
    hide CutLast;
    if |name| >= 2 && name[|name| - 2..] == "/." {
      var rest := name[..|name| - 2];
      assert name == rest + ['/'] + ".";
      CutLastParts(rest, ".", '/');
    }
  }

  /** On distinct names Python reads the same artifacts as Go. */
  lemma {:induction false} SameArtifacts(c: Codec, files: seq<Entry>, members: Members, budget: int, sofar: Members)
    requires forall i | 0 <= i < |files| :: files[i].name in members && members[files[i].name] == files[i].data
    requires forall i | 0 <= i < |files| && IsArtifact(files[i].name) :: ArtifactOk(c, files[i])
    ensures PyArtifacts(c, files, members, budget, sofar) == ReadArtifacts(c, files, budget, sofar)
    decreases |files|
  {
    hide BaseName, PyBase, IsDir, AnyHex;
    if files != [] {
      var f := files[0];
      assert forall i | 0 <= i < |files[1..]| :: files[1..][i] == files[i + 1];
      if !IsArtifact(f.name) {
        SameArtifacts(c, files[1..], members, budget, sofar);
      } else {
        PlainBase(f.name);
        SameArtifacts(c, files[1..], members, budget - Size(f), sofar[BaseName(f.name) := f.data]);
      }
    }
  }

  lemma CarriedPyArtifacts(c: Codec, t: JsonText, src: Source, files: seq<Entry>, budget: int)
    requires Exportable(c, src) && Carries(c, t, src, files)
    ensures PyArtifacts(c, files, ByName(files), budget, map[]) == ReadArtifacts(c, files, budget, map[])
  {
    hide Exportable, Core, EmbeddedIn, NameError, IsDir, IsArtifact, ArtifactOk, ByName, PyArtifacts, ReadArtifacts, BaseName;
    ByNameHolds(files);
    SameArtifacts(c, files, ByName(files), budget, map[]);
  }

  lemma CarriedNames(c: Codec, t: JsonText, src: Source, files: seq<Entry>)
    requires Exportable(c, src) && Carries(c, t, src, files)
    ensures SafeNames(files) && LastByName(files) == ByName(files)
  {
    hide Exportable, Core, Embeds, ArtifactHashes, EmbeddedIn, NameError, IsDir;
    LastIsFirst(files);
  }

  lemma PyArtifactsOf(c: Codec, src: Source)
    requires Exportable(c, src)
    ensures PyParsedOf(c, src).artifacts == EmbeddedIn(src)
  {}

  lemma {:induction false} SealsHaveIds(c: Codec, recs: seq<Object>)
    requires AllVerified(c, recs)
    ensures forall i | 0 <= i < |Seals(c, recs)| ::
      Seals(c, recs)[i].Obj? && "node_id" in Seals(c, recs)[i].members && Seals(c, recs)[i].members["node_id"].Str?
  {
    if recs != [] {
      assert Verified(c, recs[0]);
      SealsHaveIds(c, recs[1..]);
    }
  }

  lemma PySealsRebuilt(c: Codec, recs: seq<Object>)
    requires AllVerified(c, recs) && DistinctIds(recs)
    ensures PySealsMatch(c, recs, Arr(Seals(c, recs)))
  {
    hide Verified, SealsMatch, DistinctIds;
    SealsHaveIds(c, recs);
    SealsRebuilt(c, recs);
    assert MembersOf(Seals(c, recs)) == Package.Objects(Seals(c, recs));
  }

  ghost predicate AllPyVerified(c: Codec, recs: seq<Object>) {
    forall i | 0 <= i < |recs| :: PyVerified(c, recs[i])
  }

  /** The Python load accepts an export, thin or fat, exactly when the Go load does. */
  lemma PyLoadAcceptsExport(c: Codec, t: JsonText, src: Source, order: seq<string>)
    requires Exportable(c, src) && OrderOf(order, EmbeddedIn(src)) && PlainSource(c, t, src)
    requires Faithful(t) && PyText(t) && DistinctIds(src.recs) && AllPyVerified(c, src.recs)
    ensures PyLoad(c, t, Export(c, t, src, order)).Ok? <==> ExportLimits(c, t, src, order)
    ensures PyLoad(c, t, Export(c, t, src, order)).Ok? ==>
      var p := PyLoad(c, t, Export(c, t, src, order)).value;
      p.nodes == AsJson(src.recs) && p.artifacts == EmbeddedIn(src)
  {
    hide Exportable, Export, EmbeddedIn, Carries, PlainSource, DistinctIds, PyParse, PySound, CoreFits, Core, PyParsedOf, Sum, ByName, NameError, IsDir,
      IsArtifact, ArtifactName, BaseName, CORE_NAMES, Faithful, PyText, AllPyVerified, OrderOf;
    var files := Export(c, t, src, order);
    ExportCarries(c, t, src, order);
    ExportSum(c, t, src, order);
    PyParseCarried(c, t, src, files);
    PyExportIsSound(c, src);
  }

  lemma PyExportIsSound(c: Codec, src: Source)
    requires Exportable(c, src) && DistinctIds(src.recs) && AllPyVerified(c, src.recs)
    ensures PySound(c, PyParsedOf(c, src)) && PyParsedOf(c, src).nodes == AsJson(src.recs) && PyParsedOf(c, src).artifacts == EmbeddedIn(src)
  {
    hide Verified, PyVerified, DistinctIds, PySealsMatch, ListsArtifacts, ArtifactManifest;
    PySealsRebuilt(c, src.recs);
    assert MembersOf(AsJson(src.recs)) == src.recs;
    if src.fat {
      PyListsArtifacts(c, src);
    }
  }

  lemma PyListsArtifacts(c: Codec, src: Source)
    requires Exportable(c, src) && src.fat
    ensures ListsArtifacts(ArtifactManifest(src), EmbeddedIn(src))
  {
    hide Verified;
    var items := ArtifactManifest(src).items;
    forall i | 0 <= i < |items| ensures items[i] == ManifestEntry(src.artifacts[i], EmbeddedIn(src)) && src.artifacts[i].hash in EmbeddedIn(src) {}
  }

  // ---- A redacted export

  lemma RedactedIsPyVerified(c: Codec, p: Patterns, n: Node, ts: real)
    requires ValidNode(n) && p.Sound()
    ensures PyVerified(c, RedactRecord(c, p, n, ts))
  {
    hide NodeId, PayloadHash, ValidId, RedactNode, RedactPayload, CleanObject;
    RedactedRecordVerifies(c, p, n, ts);
  }

  /**
   * A redacted export, read back by the Python reader: it loads as verified exactly within the
   * limits, with one clean node for each exported node, in the same place.
   */
  lemma RedactedExportReloads(
    c: Codec, t: JsonText, p: Patterns, rows: seq<Row>, ts: Row -> real, src: Source, order: seq<string>)
    requires TableOk(c, rows) && p.Sound() && NoneCollide(c, p, rows)
    requires src.recs == RedactRecords(c, p, rows, ts) && src.redacted && !src.fat
    requires Exportable(c, src) && PlainSource(c, t, src) && Faithful(t) && PyText(t) && OrderOf(order, EmbeddedIn(src))
    ensures var loaded := PyLoad(c, t, Export(c, t, src, order));
      && (loaded.Ok? <==> ExportLimits(c, t, src, order))
      && (loaded.Ok? ==> loaded.value.nodes == AsJson(src.recs))
    ensures |src.recs| == |rows| && forall i | 0 <= i < |rows| :: CleanNode(p, src.recs[i], rows[i].node)
  {
    hide Exportable, Export, PlainSource, PyLoad, DistinctIds, Faithful, PyText, OrderOf, ExportLimits, AllVerified, NoneCollide, Verified,
      PyVerified, DecodeNode, CleanObject, RedactRecord, ValidNode, NodeId, CleanNode;
    RedactedRecordsVerify(c, p, rows, ts);
    CleanNodes(c, p, rows, ts);
    forall i | 0 <= i < |rows| ensures PyVerified(c, src.recs[i]) {
      assert RowOk(c, rows[i]);
      RedactedIsPyVerified(c, p, rows[i].node, ts(rows[i]));
    }
    PyLoadAcceptsExport(c, t, src, order);
  }
}
