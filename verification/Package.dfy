/** Portable packages: the records they carry, exporting them and loading them. */
module Package {
  import opened Base
  import opened Text
  import opened Nodes
  import opened Archive
  import Lists
  import Cas
  import Signing

  const MAX_NODES: nat := 100_000
  const MAX_ARTIFACTS: nat := 10_000

  /**
   * JSON text, a library call: one-line and indented forms, and parsing. `plain` are the values
   * that survive it: strings of valid UTF-8, and numbers that a float64 holds exactly.
   */
  datatype JsonText = JsonText(line: Json -> string, pretty: Json -> string, parse: string -> Option<Json>, plain: Json -> bool)

  predicate LineOk(s: string) {
    s != "" && '\n' !in s && Trim(s) == s
  }

  ghost predicate Faithful(t: JsonText) {
    forall v {:trigger t.plain(v)} | t.plain(v) ::
      t.parse(t.line(v)) == Some(v) && t.parse(t.pretty(v) + "\n") == Some(v) && LineOk(t.line(v))
  }

  // ---- Records

  function AsStep(j: Json): Option<Option<int>> {
    match j
    case Null => Some(None)
    case Num(n) => Some(Some(Truncate(n)))
    case _ => None
  }

  /** The node that a record describes. */
  function DecodeNode(rec: Object): Option<Node> {
    var payload := Get(rec, "payload");
    var step := AsStep(Get(rec, "step_n"));
    if !(payload.Null? || payload.Obj?) || step.None? || !Get(rec, "seq").Num? then None
    else
      Some(Node(AsString(Get(rec, "kind")), AsString(Get(rec, "trajectory_id")), AsString(Get(rec, "tenant_id")),
                step.value, Truncate(rec["seq"].n), if payload.Obj? then payload.members else map[]))
  }

  /** A record whose id, and payload hash if it has one, are those of the node it describes. */
  predicate Verified(c: Codec, rec: Object) {
    var n := DecodeNode(rec);
    && n.Some? && "ts" !in n.value.payload && ValidId(n.value.tenant) && ValidId(n.value.trajectory)
    && AsString(Get(rec, "id")) == NodeId(c, n.value)
    && AsString(Get(rec, "payload_hash")) in {"", PayloadHash(c, n.value.payload)}
  }

  function StepJson(step: Option<int>): Json {
    if step.None? then Null else Num(step.value as real)
  }

  /** The record that a log lists for a node. */
  function RecordOf(c: Codec, n: Node, ts: real): Object {
    map["id" := Str(NodeId(c, n)), "trajectory_id" := Str(n.trajectory), "tenant_id" := Str(n.tenant), "seq" := Num(n.pos as real),
        "kind" := Str(n.kind), "payload" := Obj(n.payload), "ts" := Num(ts), "step_n" := StepJson(n.step)]
  }

  lemma RecordDescribesNode(c: Codec, n: Node, ts: real)
    ensures DecodeNode(RecordOf(c, n, ts)) == Some(n)
    ensures ValidNode(n) ==> Verified(c, RecordOf(c, n, ts))
  {}

  // ---- Seals

  function SealOf(c: Codec, rec: Object, n: Node): Object {
    map["type" := Str("DECISION_SEAL"), "node_id" := Str(AsString(Get(rec, "id"))), "step_n" := Get(rec, "step_n"),
        "seq" := Num(n.pos as real), "content_hash" := Str(PayloadHash(c, n.payload))]
  }

  /** One seal for each DECISION, in order. */
  function Seals(c: Codec, recs: seq<Object>): seq<Json>
    requires forall i | 0 <= i < |recs| :: Verified(c, recs[i])
  {
    if recs == [] then []
    else
      var n := NodeOf(c, recs[0]);
      (if n.kind == "DECISION" then [Obj(SealOf(c, recs[0], n))] else []) + Seals(c, recs[1..])
  }

  method SealsFromNodes(c: Codec, recs: seq<Object>) returns (seals: seq<Json>)
    requires forall i | 0 <= i < |recs| :: Verified(c, recs[i])
    ensures seals == Seals(c, recs)
  {
    hide Verified;
    seals := [];
    for i := 0 to |recs|
      invariant seals + Seals(c, recs[i..]) == Seals(c, recs)
    {
      assert recs[i..][0] == recs[i] && recs[i..][1..] == recs[i + 1..];
      assert Verified(c, recs[i]);
      var n := NodeOf(c, recs[i]);
      if n.kind == "DECISION" {
        seals := seals + [Obj(SealOf(c, recs[i], n))];
      }
    }
  }

  function NodeOf(c: Codec, rec: Object): (n: Node)
    requires Verified(c, rec)
    ensures DecodeNode(rec) == Some(n)
  {
    DecodeNode(rec).value
  }

  /** The hash that the last seal for a node id states. */
  function SealedHash(seals: seq<Object>, id: string): Option<string> {
    if seals == [] then None
    else
      var last := seals[|seals| - 1];
      if Get(last, "node_id") == Str(id) then Some(AsString(Get(last, "content_hash")))
      else SealedHash(seals[..|seals| - 1], id)
  }

  // ---- Export

  datatype Artifact = Artifact(path: string, hash: string, uri: Option<string>, size: Option<int>)

  function OptStr(s: Option<string>): Json {
    if s.Some? then Str(s.value) else Null
  }

  function ManifestEntry(a: Artifact, bytes: Members): Json {
    Obj(map["logical_path" := Str(a.path), "content_hash" := Str(a.hash), "uri" := OptStr(a.uri),
            "size" := if a.size.Some? then Num(a.size.value as real)
                      else if a.hash in bytes then Num(|bytes[a.hash]| as real) else Null])
  }

  function ManifestEntries(artifacts: seq<Artifact>, bytes: Members): (js: seq<Json>)
    ensures |js| == |artifacts| && forall i | 0 <= i < |js| :: js[i] == ManifestEntry(artifacts[i], bytes)
  {
    seq(|artifacts|, i requires 0 <= i < |artifacts| => ManifestEntry(artifacts[i], bytes))
  }

  function Manifest(trajectory: string, tenant: string, fat: bool, nodes: nat, seals: nat, redacted: bool): Object {
    map["package_format" := Str("0.1"), "trajectory_id" := Str(trajectory), "tenant_id" := Str(tenant),
        "mode" := Str(if fat then "fat" else "thin"), "node_count" := Num(nodes as real), "seal_count" := Num(seals as real),
        "signature" := Null, "redacted" := Bool(redacted)]
  }

  const COMPAT: Json := Obj(map[
    "package_format" := Str("0.1"), "min_runtime" := Str("0.1.0"),
    "node_id_scheme" := Str("sha256(tenant|trajectory|step|seq|kind|payload_hash)"),
    "payload_hash_scheme" := Str("sha256(rfc8785(payload))")])

  function ArtifactName(h: string): string {
    "artifacts/cas/" + ((if |h| >= 2 then h[..2] else h) + ("/" + h))
  }

  /** One line for each record, each ended by a newline. */
  function Lines(t: JsonText, recs: seq<Object>): string {
    if recs == [] then "" else t.line(Obj(recs[0])) + ("\n" + Lines(t, recs[1..]))
  }

  /** The bytes that a fat package embeds, by content hash. */
  function Embedded(artifacts: seq<Artifact>, bytes: Members): Members {
    map h | h in bytes.Keys * (set i | 0 <= i < |artifacts| :: artifacts[i].hash) :: bytes[h]
  }

  predicate EmbeddableAll(c: Codec, artifacts: seq<Artifact>, bytes: Members) {
    && |artifacts| <= MAX_ARTIFACTS
    && forall i | 0 <= i < |artifacts| ::
         artifacts[i].hash in bytes && Cas.ContentHash(c.sha, bytes[artifacts[i].hash]) == artifacts[i].hash
         && |bytes[artifacts[i].hash]| <= MAX_ENTRY_BYTES
  }

  datatype Source = Source(
    trajectory: string, recs: seq<Object>, fat: bool, artifacts: seq<Artifact>, bytes: Members, redacted: bool)

  /** What an export accepts: some records, all verified and of one tenant, and the bytes of a fat package. */
  predicate Exportable(c: Codec, src: Source) {
    && src.recs != []
    && (forall i | 0 <= i < |src.recs| ::
          Verified(c, src.recs[i]) && AsString(Get(src.recs[i], "tenant_id")) == AsString(Get(src.recs[0], "tenant_id")))
    && (src.fat ==> EmbeddableAll(c, src.artifacts, src.bytes))
  }

  function EmbeddedIn(src: Source): Members {
    if src.fat then Embedded(src.artifacts, src.bytes) else map[]
  }

  function ManifestOf(c: Codec, src: Source): Json
    requires Exportable(c, src)
  {
    Obj(Manifest(src.trajectory, AsString(Get(src.recs[0], "tenant_id")), src.fat, |src.recs|, |Seals(c, src.recs)|, src.redacted))
  }

  function ArtifactManifest(src: Source): Json {
    Arr(ManifestEntries(src.artifacts, EmbeddedIn(src)))
  }

  function Core(c: Codec, t: JsonText, src: Source): seq<Entry>
    requires Exportable(c, src)
  {
    [Entry("manifest.json", t.pretty(ManifestOf(c, src)) + "\n"),
     Entry("COMPAT.json", t.pretty(COMPAT) + "\n"),
     Entry("seals.json", t.pretty(Arr(Seals(c, src.recs))) + "\n"),
     Entry("artifacts-manifest.json", t.pretty(ArtifactManifest(src)) + "\n"),
     Entry("nodes.ndjson", Lines(t, src.recs))]
  }

  function ArtifactEntries(embedded: Members, order: seq<string>): (es: seq<Entry>)
    requires forall i | 0 <= i < |order| :: order[i] in embedded
    ensures |es| == |order| && forall i | 0 <= i < |es| :: es[i] == Entry(ArtifactName(order[i]), embedded[order[i]])
  {
    seq(|order|, i requires 0 <= i < |order| => Entry(ArtifactName(order[i]), embedded[order[i]]))
  }

  /** The order is the one in which the map of embedded bytes happens to be walked. */
  ghost predicate OrderOf(order: seq<string>, embedded: Members) {
    Lists.NoDup(order) && forall h :: h in order <==> h in embedded
  }

  ghost function Export(c: Codec, t: JsonText, src: Source, order: seq<string>): seq<Entry>
    requires Exportable(c, src) && OrderOf(order, EmbeddedIn(src))
  {
    Core(c, t, src) + ArtifactEntries(EmbeddedIn(src), order)
  }

  /** The loop over the records: all verified, all of the first one's tenant. */
  method CheckRecords(c: Codec, recs: seq<Object>) returns (res: Result<()>)
    requires recs != []
    ensures res.Ok? <==> forall i | 0 <= i < |recs| ::
      Verified(c, recs[i]) && AsString(Get(recs[i], "tenant_id")) == AsString(Get(recs[0], "tenant_id"))
  {
    hide Verified;
    var tenant := AsString(Get(recs[0], "tenant_id"));
    for i := 0 to |recs|
      invariant forall j | 0 <= j < i :: Verified(c, recs[j]) && AsString(Get(recs[j], "tenant_id")) == tenant
    {
      if AsString(Get(recs[i], "tenant_id")) != tenant {
        return Err(BadPackage);
      }
      if !Verified(c, recs[i]) {
        return Err(Verification);
      }
    }
    res := Ok(());
  }

  /** The loop over the artifacts of a fat package collects the bytes to embed. */
  method CollectArtifacts(c: Codec, artifacts: seq<Artifact>, bytes: Members) returns (res: Result<Members>)
    ensures res.Ok? <==> EmbeddableAll(c, artifacts, bytes)
    ensures res.Ok? ==> res.value == Embedded(artifacts, bytes)
  {
    var embedded: Members := map[];
    for i := 0 to |artifacts|
      invariant forall j | 0 <= j < i ::
        artifacts[j].hash in bytes && Cas.ContentHash(c.sha, bytes[artifacts[j].hash]) == artifacts[j].hash
        && |bytes[artifacts[j].hash]| <= MAX_ENTRY_BYTES
      invariant forall h :: h in embedded <==> exists j | 0 <= j < i :: artifacts[j].hash == h
      invariant forall h | h in embedded :: h in bytes && embedded[h] == bytes[h]
    {
      var h := artifacts[i].hash;
      if h !in bytes || Cas.ContentHash(c.sha, bytes[h]) != h {
        return Err(BadPackage);
      }
      if |bytes[h]| > MAX_ENTRY_BYTES {
        return Err(Limit);
      }
      embedded := embedded[h := bytes[h]];
    }
    if |artifacts| > MAX_ARTIFACTS {
      return Err(Limit);
    }
    assert embedded == Embedded(artifacts, bytes);
    res := Ok(embedded);
  }

  method WriteLines(t: JsonText, recs: seq<Object>) returns (ndjson: string)
    ensures ndjson == Lines(t, recs)
  {
    ndjson := "";
    for i := 0 to |recs|
      invariant ndjson + Lines(t, recs[i..]) == Lines(t, recs)
    {
      assert recs[i..][0] == recs[i] && recs[i..][1..] == recs[i + 1..];
      ghost var before := ndjson;
      ndjson := ndjson + (t.line(Obj(recs[i])) + "\n");
      assert ndjson + Lines(t, recs[i + 1..]) == before + (t.line(Obj(recs[i])) + ("\n" + Lines(t, recs[i + 1..])));
    }
    assert recs[|recs|..] == [];
  }

  /** The embedded bytes are written in whatever order their map is walked. */
  method WriteArtifacts(embedded: Members) returns (es: seq<Entry>, ghost order: seq<string>)
    ensures |es| == |embedded.Keys| && forall h | h in embedded :: Entry(ArtifactName(h), embedded[h]) in es
    ensures OrderOf(order, embedded) && es == ArtifactEntries(embedded, order)
  {
    es, order := [], [];
    var todo := embedded.Keys;
    while todo != {}
      invariant todo <= embedded.Keys && Lists.NoDup(order)
      invariant forall h :: h in order <==> h in embedded && h !in todo
      invariant es == ArtifactEntries(embedded, order) && |es| == |embedded.Keys| - |todo|
    {
      var h :| h in todo;
      Lists.NoDupConcat(order, [h]);
      es := es + [Entry(ArtifactName(h), embedded[h])];
      order := order + [h];
      todo := todo - {h};
    }
    forall h | h in embedded ensures Entry(ArtifactName(h), embedded[h]) in es {
      assert h in order;
      var i :| 0 <= i < |order| && order[i] == h;
      assert es[i] == Entry(ArtifactName(h), embedded[h]);
    }
  }

  /** Succeeds exactly on exportable sources; `order` is the order of the embedded bytes. */
  method ExportPackage(c: Codec, t: JsonText, src: Source) returns (res: Result<seq<Entry>>, ghost order: seq<string>)
    ensures res.Ok? <==> Exportable(c, src)
    ensures res.Ok? ==> OrderOf(order, EmbeddedIn(src)) && res.value == Export(c, t, src, order)
  {
    hide Verified, Seals, Lines, ArtifactEntries, EmbeddableAll, Embedded, ManifestEntries, OrderOf;
    order := [];
    if src.recs == [] {
      return Err(BadPackage), order;
    }
    var checked := CheckRecords(c, src.recs);
    if checked.Err? {
      return Err(checked.why), order;
    }
    var embedded: Members := map[];
    if src.fat {
      var collected := CollectArtifacts(c, src.artifacts, src.bytes);
      if collected.Err? {
        return Err(collected.why), order;
      }
      embedded := collected.value;
    }
    var seals := SealsFromNodes(c, src.recs);
    var ndjson := WriteLines(t, src.recs);
    var entries;
    entries, order := WriteArtifacts(embedded);
    var manifest := Manifest(src.trajectory, AsString(Get(src.recs[0], "tenant_id")), src.fat, |src.recs|, |seals|, src.redacted);
    var core := [
      Entry("manifest.json", t.pretty(Obj(manifest)) + "\n"),
      Entry("COMPAT.json", t.pretty(COMPAT) + "\n"),
      Entry("seals.json", t.pretty(Arr(seals)) + "\n"),
      Entry("artifacts-manifest.json", t.pretty(Arr(ManifestEntries(src.artifacts, embedded))) + "\n"),
      Entry("nodes.ndjson", ndjson)];
    assert embedded == EmbeddedIn(src);
    res := Ok(core + entries);
  }

  // ---- Load

  datatype Loaded = Loaded(
    manifest: Object, nodes: seq<Object>, seals: seq<Object>, artifactManifest: seq<Object>,
    artifacts: Members, signature: Option<Signing.Info>)

  function ParseObject(t: JsonText, raw: string): Option<Object> {
    match t.parse(raw)
    case Some(Obj(m)) => Some(m)
    case Some(Null) => Some(map[])
    case _ => None
  }

  predicate ObjectOrNull(j: Json) { j.Obj? || j.Null? }

  function Objects(items: seq<Json>): (ms: seq<Object>)
    requires forall i | 0 <= i < |items| :: ObjectOrNull(items[i])
    ensures |ms| == |items| && forall i | 0 <= i < |ms| :: ms[i] == if items[i].Obj? then items[i].members else map[]
  {
    seq(|items|, i requires 0 <= i < |items| => if items[i].Obj? then items[i].members else map[])
  }

  function ParseObjects(t: JsonText, raw: string): Option<seq<Object>> {
    match t.parse(raw)
    case Some(Arr(items)) => if forall i | 0 <= i < |items| :: ObjectOrNull(items[i]) then Some(Objects(items)) else None
    case Some(Null) => Some([])
    case _ => None
  }

  function ParseNodes(t: JsonText, lines: seq<string>, sofar: seq<Object>): Result<seq<Object>> {
    if lines == [] then Ok(sofar)
    else
      var line := Trim(lines[0]);
      if line == "" then ParseNodes(t, lines[1..], sofar)
      else
        match ParseObject(t, line)
        case None => Err(BadPackage)
        case Some(rec) => if |sofar| + 1 > MAX_NODES then Err(Limit) else ParseNodes(t, lines[1..], sofar + [rec])
  }

  method ReadNodes(t: JsonText, raw: string) returns (res: Result<seq<Object>>)
    ensures res == ParseNodes(t, Split(raw, '\n'), [])
  {
    var lines := Split(raw, '\n');
    var recs: seq<Object> := [];
    for i := 0 to |lines|
      invariant ParseNodes(t, lines[i..], recs) == ParseNodes(t, lines, [])
    {
      assert lines[i..][0] == lines[i] && lines[i..][1..] == lines[i + 1..];
      var line := Trim(lines[i]);
      if line != "" {
        var rec := ParseObject(t, line);
        if rec.None? {
          return Err(BadPackage);
        }
        if |recs| + 1 > MAX_NODES {
          return Err(Limit);
        }
        recs := recs + [rec.value];
      }
    }
    res := Ok(recs);
  }

  function CheckNames(files: seq<Entry>, seen: set<string>): Result<()> {
    if files == [] then Ok(())
    else
      var name := files[0].name;
      if IsDir(name) then CheckNames(files[1..], seen)
      else if NameError(name).Some? then Err(NameError(name).value)
      else if name in seen then Err(BadPackage)
      else CheckNames(files[1..], seen + {name})
  }

  const REQUIRED: set<string> := {"manifest.json", "nodes.ndjson", "seals.json", "artifacts-manifest.json", "COMPAT.json"}

  function ReadMember(members: Members, name: string, budget: int): Result<string> {
    if name !in members then Err(BadPackage)
    else if |members[name]| > MAX_ENTRY_BYTES || |members[name]| > budget then Err(Limit)
    else Ok(members[name])
  }

  predicate IsArtifact(name: string) {
    "artifacts/cas/" <= name && !IsDir(name)
  }

  predicate AnyHex(s: string) {
    forall i | 0 <= i < |s| :: '0' <= s[i] <= '9' || 'a' <= s[i] <= 'f' || 'A' <= s[i] <= 'F'
  }

  function BaseName(name: string): string {
    CutLast(name, '/').1
  }

  predicate ArtifactOk(c: Codec, e: Entry) {
    |BaseName(e.name)| == 64 && AnyHex(BaseName(e.name)) && Cas.ContentHash(c.sha, e.data) == BaseName(e.name)
  }

  function ReadArtifacts(c: Codec, files: seq<Entry>, budget: int, sofar: Members): Result<Members>
    decreases |files|
  {
    if files == [] then Ok(sofar)
    else
      var f := files[0];
      if !IsArtifact(f.name) then ReadArtifacts(c, files[1..], budget, sofar)
      else if Size(f) > MAX_ENTRY_BYTES || Size(f) > budget then Err(Limit)
      else if !ArtifactOk(c, f) then Err(Verification)
      else if |sofar[BaseName(f.name) := f.data].Keys| > MAX_ARTIFACTS then Err(Limit)
      else ReadArtifacts(c, files[1..], budget - Size(f), sofar[BaseName(f.name) := f.data])
  }

  predicate SealsMatch(c: Codec, recs: seq<Object>, seals: seq<Object>)
    requires forall i | 0 <= i < |recs| :: Verified(c, recs[i])
  {
    forall i {:trigger recs[i]} | 0 <= i < |recs| && NodeOf(c, recs[i]).kind == "DECISION" ::
      SealedHash(seals, AsString(Get(recs[i], "id"))) == Some(PayloadHash(c, NodeOf(c, recs[i]).payload))
  }

  function ModeOf(manifest: Object): string {
    if AsString(Get(manifest, "mode")) == "" then "thin" else AsString(Get(manifest, "mode"))
  }

  /** The checks of a verified load, once everything is parsed. */
  predicate Sound(c: Codec, p: Loaded) {
    && p.nodes != []
    && (forall i | 0 <= i < |p.nodes| :: Verified(c, p.nodes[i]))
    && SealsMatch(c, p.nodes, p.seals)
    && (ModeOf(p.manifest) == "fat" ==>
          forall i | 0 <= i < |p.artifactManifest| :: AsString(Get(p.artifactManifest[i], "content_hash")) in p.artifacts)
    && (ModeOf(p.manifest) == "thin" ==> p.artifacts == map[])
  }

  function OptionToResult<T>(o: Option<T>, why: Why): Result<T> {
    if o.Some? then Ok(o.value) else Err(why)
  }

  /** Everything that is read and parsed before verification. */
  function Parse(c: Codec, t: JsonText, files: seq<Entry>): Result<Loaded> {
    var _ :- Check(|files| <= MAX_ENTRIES, Limit);
    var _ :- CheckNames(files, {});
    var members := ByName(Plain(files));
    var _ :- Check(REQUIRED <= members.Keys, BadPackage);
    var b0 := MAX_TOTAL_BYTES;
    var rawManifest :- ReadMember(members, "manifest.json", b0);
    var manifest :- OptionToResult(ParseObject(t, rawManifest), BadPackage);
    var b1 := b0 - |rawManifest|;
    var rawSeals :- ReadMember(members, "seals.json", b1);
    var seals :- OptionToResult(ParseObjects(t, rawSeals), BadPackage);
    var b2 := b1 - |rawSeals|;
    var rawArtifacts :- ReadMember(members, "artifacts-manifest.json", b2);
    var artifactManifest :- OptionToResult(ParseObjects(t, rawArtifacts), BadPackage);
    var _ :- Check(|artifactManifest| <= MAX_ARTIFACTS, Limit);
    var b3 := b2 - |rawArtifacts|;
    var compat :- ReadMember(members, "COMPAT.json", b3);
    var b4 := b3 - |compat|;
    var rawNodes :- ReadMember(members, "nodes.ndjson", b4);
    var nodes :- ParseNodes(t, Split(rawNodes, '\n'), []);
    var b5 := b4 - |rawNodes|;
    var artifacts :- ReadArtifacts(c, files, b5, map[]);
    Ok(Loaded(manifest, nodes, seals, artifactManifest, artifacts, None))
  }

  const ANY_SIGNER := Signing.Options(false, [], [])

  ghost function Load(c: Codec, t: JsonText, k: Signing.Crypto, files: seq<Entry>, verify: bool): Result<Loaded> {
    var p :- Parse(c, t, files);
    var _ :- Check(verify ==> Sound(c, p), Verification);
    if SIGNATURE in ByName(Plain(files)) then
      var info :- Signing.Verify(k, files, ANY_SIGNER);
      Ok(p.(signature := info))
    else Ok(p)
  }

  /** The artifact loop. */
  method ReadArtifactsLoop(c: Codec, files: seq<Entry>, total: int) returns (res: Result<Members>)
    ensures res == ReadArtifacts(c, files, total, map[])
  {
    var artifacts: Members := map[];
    var budget := total;
    for i := 0 to |files|
      invariant ReadArtifacts(c, files[i..], budget, artifacts) == ReadArtifacts(c, files, total, map[])
    {
      assert files[i..][0] == files[i] && files[i..][1..] == files[i + 1..];
      var f := files[i];
      if IsArtifact(f.name) {
        if Size(f) > MAX_ENTRY_BYTES || Size(f) > budget {
          return Err(Limit);
        }
        budget := budget - Size(f);
        if !ArtifactOk(c, f) {
          return Err(Verification);
        }
        artifacts := artifacts[BaseName(f.name) := f.data];
        if |artifacts.Keys| > MAX_ARTIFACTS {
          return Err(Limit);
        }
      }
    }
    res := Ok(artifacts);
  }

  lemma NamesAt(files: seq<Entry>, i: nat, seen: set<string>)
    requires i < |files|
    ensures var f := files[i];
      && Plain(files[i..]) == (if IsDir(f.name) then [] else [f]) + Plain(files[i + 1..])
      && CheckNames(files[i..], seen) ==
           if IsDir(f.name) then CheckNames(files[i + 1..], seen)
           else if NameError(f.name).Some? then Err(NameError(f.name).value)
           else if f.name in seen then Err(BadPackage)
           else CheckNames(files[i + 1..], seen + {f.name})
  {
    hide NameError, IsDir;
    assert files[i..][0] == files[i] && files[i..][1..] == files[i + 1..];
  }

  /** The up-front loop over member names. */
  method MembersByName(files: seq<Entry>) returns (res: Result<Members>)
    ensures res.Err? ==> CheckNames(files, {}) == Err(res.why)
    ensures res.Ok? ==> CheckNames(files, {}).Ok? && res.value == ByName(Plain(files))
  {
    hide NameError, IsDir, CheckNames, Plain, ByName, DistinctNames;
    var members: Members := map[];
    ghost var done: seq<Entry> := [];
    assert files[0..] == files && members.Keys == {};
    assert DistinctNames(done) && ByName(done) == members by { NoNames(); }
    for i := 0 to |files|
      invariant CheckNames(files[i..], members.Keys) == CheckNames(files, {})
      invariant done + Plain(files[i..]) == Plain(files) && DistinctNames(done) && ByName(done) == members
    {
      var f := files[i];
      NamesAt(files, i, members.Keys);
      if !IsDir(f.name) {
        if NameError(f.name).Some? {
          return Err(NameError(f.name).value);
        }
        if f.name in members {
          return Err(BadPackage);
        }
        ByNameHolds(done);
        ByNameAppend(done, f);
        members := members[f.name := f.data];
        assert members.Keys == ByName(done).Keys + {f.name};
        done := done + [f];
      }
    }
    assert files[|files|..] == [];
    NothingLeft();
    assert done + [] == done;
    res := Ok(members);
  }

  lemma NoNames()
    ensures DistinctNames([]) && ByName([]) == map[]
  {}

  lemma NothingLeft()
    ensures Plain([]) == [] && forall seen :: CheckNames([], seen) == Ok(())
  {}

  method LoadImpl(c: Codec, t: JsonText, k: Signing.Crypto, files: seq<Entry>, verify: bool) returns (res: Result<Loaded>)
    ensures res == Load(c, t, k, files, verify)
  {
    hide Sound, ByName, CheckNames, ReadArtifacts, ParseNodes, ParseObject, ParseObjects, Signing.Verify, Split, Plain, SIGNATURE;
    if |files| > MAX_ENTRIES {
      return Err(Limit);
    }
    var members :- MembersByName(files);
    if !(REQUIRED <= members.Keys) {
      return Err(BadPackage);
    }
    var budget: int := MAX_TOTAL_BYTES;
    var rawManifest :- ReadMember(members, "manifest.json", budget);
    var manifest :- OptionToResult(ParseObject(t, rawManifest), BadPackage);
    budget := budget - |rawManifest|;
    var rawSeals :- ReadMember(members, "seals.json", budget);
    var seals :- OptionToResult(ParseObjects(t, rawSeals), BadPackage);
    budget := budget - |rawSeals|;
    var rawArtifacts :- ReadMember(members, "artifacts-manifest.json", budget);
    var artifactManifest :- OptionToResult(ParseObjects(t, rawArtifacts), BadPackage);
    if |artifactManifest| > MAX_ARTIFACTS {
      return Err(Limit);
    }
    budget := budget - |rawArtifacts|;
    var compat :- ReadMember(members, "COMPAT.json", budget);
    budget := budget - |compat|;
    var rawNodes :- ReadMember(members, "nodes.ndjson", budget);
    var nodes :- ReadNodes(t, rawNodes);
    budget := budget - |rawNodes|;
    var artifacts :- ReadArtifactsLoop(c, files, budget);
    var p := Loaded(manifest, nodes, seals, artifactManifest, artifacts, None);
    assert Parse(c, t, files) == Ok(p);
    if verify && !Sound(c, p) {
      return Err(Verification);
    }
    if SIGNATURE in members {
      var info :- Signing.VerifyZip(k, files, ANY_SIGNER);
      return Ok(p.(signature := info));
    }
    res := Ok(p);
  }
}
