/** What a loaded package is known to be, said of its records, seals and bytes themselves. */
module LoadSoundness {
  import opened Base
  import opened Text
  import opened Nodes
  import opened LogTable
  import opened ZipNames
  import opened Archive
  import opened Package
  import PackageLaws
  import Cas
  import Signing

  // ---- Records

  /** The record, member by member, describes the node. */
  predicate Describes(rec: Object, n: Node) {
    && n.kind == AsString(Get(rec, "kind"))
    && n.trajectory == AsString(Get(rec, "trajectory_id")) && n.tenant == AsString(Get(rec, "tenant_id"))
    && (match n.step case None => Get(rec, "step_n") == Null case Some(k) => Get(rec, "step_n").Num? && k == Truncate(rec["step_n"].n))
    && Get(rec, "seq").Num? && n.pos == Truncate(rec["seq"].n)
    && (Get(rec, "payload") == Obj(n.payload) || (Get(rec, "payload") == Null && n.payload == map[]))
  }

  /** The node is legal, and the record's id, and payload hash if it has one, are the node's. */
  predicate Honest(c: Codec, rec: Object, n: Node) {
    && Describes(rec, n)
    && "ts" !in n.payload && ValidId(n.tenant) && ValidId(n.trajectory)
    && AsString(Get(rec, "id")) == NodeId(c, n)
    && (AsString(Get(rec, "payload_hash")) != "" ==> AsString(Get(rec, "payload_hash")) == Hex(c.sha(c.canon(n.payload))))
  }

  ghost predicate HonestRecord(c: Codec, rec: Object) {
    exists n :: Honest(c, rec, n)
  }

  lemma DecodeMeans(rec: Object, n: Node)
    ensures DecodeNode(rec) == Some(n) <==> Describes(rec, n)
  {}

  lemma VerifiedIsHonest(c: Codec, rec: Object)
    ensures Verified(c, rec) <==> HonestRecord(c, rec)
    ensures Verified(c, rec) ==> Honest(c, rec, DecodeNode(rec).value)
    ensures forall n | Honest(c, rec, n) :: DecodeNode(rec) == Some(n)
  {
    hide ValidId, NodeId, Describes, DecodeNode;
    forall n | Honest(c, rec, n) ensures Verified(c, rec) && DecodeNode(rec) == Some(n) {
      DecodeMeans(rec, n);
    }
    if Verified(c, rec) {
      DecodeMeans(rec, DecodeNode(rec).value);
      assert Honest(c, rec, DecodeNode(rec).value);
    }
  }

  // ---- Seals

  /** The last seal for the node id states the hash. */
  ghost predicate SealedBy(seals: seq<Object>, id: string, hash: string) {
    exists j | 0 <= j < |seals| ::
      && Get(seals[j], "node_id") == Str(id) && AsString(Get(seals[j], "content_hash")) == hash
      && forall l | j < l < |seals| :: Get(seals[l], "node_id") != Str(id)
  }

  lemma {:induction false} SealedHashMeans(seals: seq<Object>, id: string, hash: string)
    ensures SealedHash(seals, id) == Some(hash) <==> SealedBy(seals, id, hash)
  {
    if seals != [] {
      var m := |seals| - 1;
      var init := seals[..m];
      SealedHashMeans(init, id, hash);
      assert forall j | 0 <= j < m :: init[j] == seals[j];
      if Get(seals[m], "node_id") != Str(id) {
        LastSealElsewhere(seals, id, hash);
      }
    }
  }

  lemma LastSealElsewhere(seals: seq<Object>, id: string, hash: string)
    requires seals != [] && Get(seals[|seals| - 1], "node_id") != Str(id)
    ensures SealedBy(seals, id, hash) <==> SealedBy(seals[..|seals| - 1], id, hash)
  {
    var init := seals[..|seals| - 1];
    if SealedBy(init, id, hash) {
      var j :| 0 <= j < |init| && Get(init[j], "node_id") == Str(id) && AsString(Get(init[j], "content_hash")) == hash
        && forall l | j < l < |init| :: Get(init[l], "node_id") != Str(id);
      assert forall l | j < l < |seals| :: Get(seals[l], "node_id") != Str(id) by {
        forall l | j < l < |seals| ensures Get(seals[l], "node_id") != Str(id) {
          if l < |init| { assert init[l] == seals[l]; }
        }
      }
      assert seals[j] == init[j];
    }
    if SealedBy(seals, id, hash) {
      var j :| 0 <= j < |seals| && Get(seals[j], "node_id") == Str(id) && AsString(Get(seals[j], "content_hash")) == hash
        && forall l | j < l < |seals| :: Get(seals[l], "node_id") != Str(id);
      assert init[j] == seals[j] && forall l | 0 <= l < |init| :: init[l] == seals[l];
    }
  }

  /** Every record of a DECISION is sealed with its payload's hash. */
  ghost predicate SealsCover(c: Codec, recs: seq<Object>, seals: seq<Object>) {
    forall i, n | 0 <= i < |recs| && Honest(c, recs[i], n) && n.kind == "DECISION" ::
      SealedBy(seals, AsString(Get(recs[i], "id")), Hex(c.sha(c.canon(n.payload))))
  }

  lemma SealsMatchMeans(c: Codec, recs: seq<Object>, seals: seq<Object>)
    requires PackageLaws.AllVerified(c, recs)
    ensures SealsMatch(c, recs, seals) <==> SealsCover(c, recs, seals)
  {
    hide Verified, Honest, SealedBy, SealedHash;
    forall i | 0 <= i < |recs|
      ensures Honest(c, recs[i], NodeOf(c, recs[i])) && forall n | Honest(c, recs[i], n) :: n == NodeOf(c, recs[i])
    {
      VerifiedIsHonest(c, recs[i]);
    }
    forall i | 0 <= i < |recs|
      ensures SealedHash(seals, AsString(Get(recs[i], "id"))) == Some(PayloadHash(c, NodeOf(c, recs[i]).payload))
         <==> SealedBy(seals, AsString(Get(recs[i], "id")), Hex(c.sha(c.canon(NodeOf(c, recs[i]).payload))))
    {
      SealedHashMeans(seals, AsString(Get(recs[i], "id")), PayloadHash(c, NodeOf(c, recs[i]).payload));
    }
    if SealsMatch(c, recs, seals) {
      forall i, n | 0 <= i < |recs| && Honest(c, recs[i], n) && n.kind == "DECISION"
        ensures SealedBy(seals, AsString(Get(recs[i], "id")), Hex(c.sha(c.canon(n.payload))))
      {
        assert NodeOf(c, recs[i]).kind == "DECISION";
      }
    }
    if SealsCover(c, recs, seals) {
      forall i | 0 <= i < |recs| && NodeOf(c, recs[i]).kind == "DECISION"
        ensures SealedHash(seals, AsString(Get(recs[i], "id"))) == Some(PayloadHash(c, NodeOf(c, recs[i]).payload))
      {
        assert Honest(c, recs[i], NodeOf(c, recs[i]));
      }
    }
  }

  // ---- What verification adds

  /** A fat package has the bytes of every listed artifact, and a thin one has none. */
  predicate BytesFitMode(manifest: Object, artifactManifest: seq<Object>, artifacts: Members) {
    var mode := AsString(Get(manifest, "mode"));
    && (mode == "fat" ==> forall i | 0 <= i < |artifactManifest| :: AsString(Get(artifactManifest[i], "content_hash")) in artifacts)
    && (mode == "thin" || mode == "" ==> artifacts == map[])
  }

  ghost predicate Trustworthy(c: Codec, p: Loaded) {
    && p.nodes != []
    && (forall i | 0 <= i < |p.nodes| :: HonestRecord(c, p.nodes[i]))
    && SealsCover(c, p.nodes, p.seals)
    && BytesFitMode(p.manifest, p.artifactManifest, p.artifacts)
  }

  lemma SoundMeans(c: Codec, p: Loaded)
    ensures Sound(c, p) <==> Trustworthy(c, p)
  {
    hide Verified, HonestRecord, SealsMatch, SealsCover;
    forall i | 0 <= i < |p.nodes| ensures Verified(c, p.nodes[i]) <==> HonestRecord(c, p.nodes[i]) {
      VerifiedIsHonest(c, p.nodes[i]);
    }
    if forall i | 0 <= i < |p.nodes| :: Verified(c, p.nodes[i]) {
      SealsMatchMeans(c, p.nodes, p.seals);
    }
  }

  /**
   * A verified load succeeds exactly when an unverified one does, with the same package, and every
   * record is honest, every DECISION is sealed, and the embedded bytes fit the mode.
   */
  lemma VerifiedLoadMeans(c: Codec, t: JsonText, k: Signing.Crypto, files: seq<Entry>)
    ensures var plain := Load(c, t, k, files, false);
      && (Load(c, t, k, files, true).Ok? <==> plain.Ok? && Trustworthy(c, plain.value))
      && (Load(c, t, k, files, true).Ok? ==> Load(c, t, k, files, true) == plain)
  {
    hide Parse, Sound, Trustworthy, Signing.Verify, ByName;
    var p := Parse(c, t, files);
    if p.Ok? {
      SoundMeans(c, p.value);
      TrustIgnoresSigner(c, p.value, if Load(c, t, k, files, false).Ok? then Load(c, t, k, files, false).value.signature else None);
    }
  }

  lemma TrustIgnoresSigner(c: Codec, p: Loaded, signer: Option<Signing.Info>)
    ensures Trustworthy(c, p.(signature := signer)) <==> Trustworthy(c, p)
  {
    hide HonestRecord, SealsCover;
  }

  // ---- What every load promises

  lemma {:induction false} NamesPassOnly(files: seq<Entry>, seen: set<string>)
    requires CheckNames(files, seen).Ok?
    ensures forall i | 0 <= i < |files| && !IsDir(files[i].name) :: NameError(files[i].name).None? && files[i].name !in seen
    ensures forall i, j | 0 <= i < j < |files| && !IsDir(files[i].name) && !IsDir(files[j].name) :: files[i].name != files[j].name
  {
    hide NameError, IsDir;
    if files != [] {
      var f := files[0];
      NamesPassOnly(files[1..], if IsDir(f.name) then seen else seen + {f.name});
      assert forall i | 1 <= i < |files| :: files[i] == files[1..][i - 1];
    }
  }

  lemma {:induction false} ArtifactsHash(c: Codec, files: seq<Entry>, budget: int, sofar: Members)
    requires ReadArtifacts(c, files, budget, sofar).Ok?
    requires forall h | h in sofar :: Cas.IsHash(h) && Cas.ContentHash(c.sha, sofar[h]) == h
    ensures var r := ReadArtifacts(c, files, budget, sofar).value;
      forall h | h in r :: Cas.IsHash(h) && Cas.ContentHash(c.sha, r[h]) == h
    decreases |files|
  {
    hide IsArtifact, BaseName, AnyHex, Cas.IsHash;
    if files != [] {
      var f := files[0];
      if !IsArtifact(f.name) {
        ArtifactsHash(c, files[1..], budget, sofar);
      } else {
        ArtifactsHash(c, files[1..], budget - Size(f), sofar[BaseName(f.name) := f.data]);
      }
    }
  }

  lemma {:induction false} NodesCounted(t: JsonText, lines: seq<string>, sofar: seq<Object>)
    requires ParseNodes(t, lines, sofar).Ok? && |sofar| <= MAX_NODES
    ensures |ParseNodes(t, lines, sofar).value| <= MAX_NODES
  {
    hide Trim, ParseObject;
    if lines != [] {
      var line := Trim(lines[0]);
      if line == "" {
        NodesCounted(t, lines[1..], sofar);
      } else {
        NodesCounted(t, lines[1..], sofar + [ParseObject(t, line).value]);
      }
    }
  }

  lemma ParsePromises(c: Codec, t: JsonText, files: seq<Entry>)
    requires Parse(c, t, files).Ok?
    ensures |files| <= MAX_ENTRIES && CheckNames(files, {}).Ok?
    ensures var p := Parse(c, t, files).value;
      && |p.nodes| <= MAX_NODES && |p.artifactManifest| <= MAX_ARTIFACTS && p.signature == None
      && forall h | h in p.artifacts :: Cas.IsHash(h) && Cas.ContentHash(c.sha, p.artifacts[h]) == h
  {
    hide ParseNodes, ParseObject, ParseObjects, Split, CheckNames, ReadArtifacts, Plain, ByName, Cas.IsHash, Cas.ContentHash;
    var m := ByName(Plain(files));
    var used := |m["manifest.json"]| + |m["seals.json"]| + |m["artifacts-manifest.json"]| + |m["COMPAT.json"]| + |m["nodes.ndjson"]|;
    NodesCounted(t, Split(m["nodes.ndjson"], '\n'), []);
    ArtifactsHash(c, files, MAX_TOTAL_BYTES - used, map[]);
  }

  /**
   * Any load, verified or not: at most 10000 members with safe and distinct names, at most 100000
   * records, embedded bytes under their own hashes, and a SIGNATURE, if there is one, that verifies.
   */
  lemma LoadPromises(c: Codec, t: JsonText, k: Signing.Crypto, files: seq<Entry>, verify: bool)
    requires Load(c, t, k, files, verify).Ok?
    ensures var p := Load(c, t, k, files, verify).value;
      && |files| <= 10_000 && |p.nodes| <= 100_000 && |p.artifactManifest| <= 10_000
      && (forall i | 0 <= i < |files| && IsMember(files[i].name) :: IsSafe(files[i].name))
      && (forall i, j | 0 <= i < j < |files| && IsMember(files[i].name) && IsMember(files[j].name) :: files[i].name != files[j].name)
      && (forall h | h in p.artifacts :: |h| == 64 && Hex(c.sha(p.artifacts[h])) == h)
      && (p.signature.Some? <==> exists i | 0 <= i < |files| :: files[i].name == "SIGNATURE")
      && (p.signature.Some? ==> Signing.Verify(k, files, ANY_SIGNER) == Ok(p.signature))
  {
    hide Parse, Sound, NameError, IsDir, IsMember, IsSafe, CheckNames, Signing.Verify, ByName, Plain;
    ParsePromises(c, t, files);
    NamesPassOnly(files, {});
    forall i | 0 <= i < |files| ensures IsDir(files[i].name) <==> !IsMember(files[i].name) {
      IsDirMeans(files[i].name);
    }
    forall i | 0 <= i < |files| && IsMember(files[i].name) ensures IsSafe(files[i].name) {
      NameErrorMeans(files[i].name);
    }
    SignatureIsThere(files);
    if Load(c, t, k, files, verify).value.signature.None? && SIGNATURE in ByName(Plain(files)) {
      SignedVerifies(k, files);
    }
  }

  /** The entry is the embedded artifact with that hash: its path ends in it. */
  predicate IsArtifactOf(e: Entry, h: string) {
    && "artifacts/cas/" <= e.name && |h| < |e.name| && e.name[|e.name| - |h|..] == h && e.name[|e.name| - |h| - 1] == '/'
  }

  lemma BaseNameMeans(name: string)
    requires "artifacts/cas/" <= name
    ensures |BaseName(name)| < |name|
    ensures name[|name| - |BaseName(name)|..] == BaseName(name) && name[|name| - |BaseName(name)| - 1] == '/'
    ensures '/' !in BaseName(name)
  {
    assert name[9] == '/' && name[9] in name;
    CutLastMeans(name, '/');
  }

  lemma {:induction false} CutLastMeans(s: string, d: char)
    requires d in s
    ensures s == CutLast(s, d).0 + [d] + CutLast(s, d).1 && d !in CutLast(s, d).1
    decreases |s|
  {
    var n := |s| - 1;
    assert s == s[..n] + [s[n]];
    if s[n] != d {
      CutLastMeans(s[..n], d);
    }
  }

  /** Every artifact that was read is a member's bytes, under the hash that its path ends in. */
  ghost predicate FromMembers(files: seq<Entry>, artifacts: Members) {
    forall h | h in artifacts :: exists i | 0 <= i < |files| :: IsArtifactOf(files[i], h) && files[i].data == artifacts[h]
  }

  /** Every artifact member that is no directory was read. */
  ghost predicate AllRead(files: seq<Entry>, artifacts: Members) {
    forall i | 0 <= i < |files| && "artifacts/cas/" <= files[i].name && IsMember(files[i].name) ::
      exists h :: h in artifacts && IsArtifactOf(files[i], h)
  }

  lemma {:induction false} ArtifactsCome(c: Codec, all: seq<Entry>, n: nat, budget: int, sofar: Members)
    requires n <= |all| && ReadArtifacts(c, all[n..], budget, sofar).Ok?
    requires FromMembers(all, sofar) && AllRead(all[..n], sofar)
    ensures var r := ReadArtifacts(c, all[n..], budget, sofar).value; FromMembers(all, r) && AllRead(all, r)
    decreases |all| - n
  {
    hide BaseName, ArtifactOk, IsArtifactOf, IsMember;
    if n < |all| {
      var f := all[n];
      assert all[n..][0] == f && all[n..][1..] == all[n + 1..];
      assert all[..n + 1] == all[..n] + [f];
      IsDirMeans(f.name);
      if !IsArtifact(f.name) {
        MoreRead(all, n, sofar, sofar);
        ArtifactsCome(c, all, n + 1, budget, sofar);
      } else {
        var h := BaseName(f.name);
        BaseNameMeans(f.name);
        assert IsArtifactOf(f, h) by { EndsInBase(f); }
        MoreRead(all, n, sofar, sofar[h := f.data]);
        ArtifactsCome(c, all, n + 1, budget - Size(f), sofar[h := f.data]);
      }
    } else {
      assert all[n..] == [] && all[..n] == all;
    }
  }

  lemma EndsInBase(e: Entry)
    requires "artifacts/cas/" <= e.name
    ensures IsArtifactOf(e, BaseName(e.name))
  {
    BaseNameMeans(e.name);
  }

  lemma MoreRead(all: seq<Entry>, n: nat, sofar: Members, next: Members)
    requires n < |all| && AllRead(all[..n], sofar) && sofar.Keys <= next.Keys
    requires "artifacts/cas/" <= all[n].name && IsMember(all[n].name) ==> exists h :: h in next && IsArtifactOf(all[n], h)
    ensures AllRead(all[..n + 1], next)
  {
    hide IsArtifactOf, IsMember;
    var es := all[..n + 1];
    forall i | 0 <= i < |es| && "artifacts/cas/" <= es[i].name && IsMember(es[i].name)
      ensures exists h :: h in next && IsArtifactOf(es[i], h)
    {
      if i < n {
        assert all[..n][i] == es[i];
        var h :| h in sofar && IsArtifactOf(all[..n][i], h);
        assert h in next;
      } else {
        assert es[i] == all[n];
      }
    }
  }

  /** The artifacts of a loaded package are exactly the members under artifacts/cas/. */
  lemma ArtifactsAreMembers(c: Codec, t: JsonText, k: Signing.Crypto, files: seq<Entry>, verify: bool)
    requires Load(c, t, k, files, verify).Ok?
    ensures FromMembers(files, Load(c, t, k, files, verify).value.artifacts)
    ensures AllRead(files, Load(c, t, k, files, verify).value.artifacts)
  {
    hide ParseNodes, ParseObject, ParseObjects, Split, CheckNames, ReadArtifacts, Plain, ByName, FromMembers, AllRead, Sound, Signing.Verify;
    var m := ByName(Plain(files));
    var used := |m["manifest.json"]| + |m["seals.json"]| + |m["artifacts-manifest.json"]| + |m["COMPAT.json"]| + |m["nodes.ndjson"]|;
    NoneRead(files);
    assert files[0..] == files && files[..0] == [];
    ArtifactsCome(c, files, 0, MAX_TOTAL_BYTES - used, map[]);
  }

  lemma NoneRead(files: seq<Entry>)
    ensures FromMembers(files, map[]) && AllRead([], map[])
  {}

  // ---- Lines

  /** The lines that have text in them, trimmed. */
  function TextLines(lines: seq<string>): seq<string> {
    if lines == [] then [] else (if Trim(lines[0]) == "" then [] else [Trim(lines[0])]) + TextLines(lines[1..])
  }

  /** The records continue what was read so far: one for each text, parsed from it. */
  predicate Continue(t: JsonText, texts: seq<string>, sofar: seq<Object>, r: seq<Object>) {
    && |r| == |sofar| + |texts| && sofar <= r
    && forall i | 0 <= i < |texts| :: ParseObject(t, texts[i]) == Some(r[|sofar| + i])
  }

  /** The records are the lines that have text, each parsed, in order; and they are not too many. */
  lemma {:induction false} NodesAreTheLines(t: JsonText, lines: seq<string>, sofar: seq<Object>, r: seq<Object>)
    requires |sofar| <= MAX_NODES
    ensures ParseNodes(t, lines, sofar) == Ok(r) <==> |r| <= 100_000 && Continue(t, TextLines(lines), sofar, r)
  {
    hide Trim, ParseObject, Continue;
    if lines == [] {
      NoTexts(t, sofar, r);
    } else {
      var line := Trim(lines[0]);
      if line == "" {
        assert TextLines(lines) == TextLines(lines[1..]);
        NodesAreTheLines(t, lines[1..], sofar, r);
      } else {
        assert TextLines(lines) == [line] + TextLines(lines[1..]);
        OneMore(t, line, TextLines(lines[1..]), sofar, r);
        if ParseObject(t, line).Some? && |sofar| < MAX_NODES {
          NodesAreTheLines(t, lines[1..], sofar + [ParseObject(t, line).value], r);
        }
      }
    }
  }

  lemma NoTexts(t: JsonText, sofar: seq<Object>, r: seq<Object>)
    ensures Continue(t, [], sofar, r) <==> r == sofar
  {}

  lemma OneMore(t: JsonText, line: string, texts: seq<string>, sofar: seq<Object>, r: seq<Object>)
    ensures Continue(t, [line] + texts, sofar, r) <==>
      ParseObject(t, line).Some? && Continue(t, texts, sofar + [ParseObject(t, line).value], r)
    ensures Continue(t, [line] + texts, sofar, r) ==> |sofar| < |r|
  {
    hide ParseObject;
    var all := [line] + texts;
    assert all[0] == line && forall i | 0 <= i < |texts| :: all[i + 1] == texts[i];
    if Continue(t, all, sofar, r) {
      assert ParseObject(t, all[0]) == Some(r[|sofar| + 0]);
      assert r[..|sofar| + 1] == sofar + [r[|sofar|]];
      forall i | 0 <= i < |texts| ensures ParseObject(t, texts[i]) == Some(r[|sofar| + 1 + i]) {
        assert ParseObject(t, all[i + 1]) == Some(r[|sofar| + (i + 1)]);
      }
    }
    if ParseObject(t, line).Some? && Continue(t, texts, sofar + [ParseObject(t, line).value], r) {
      var next := sofar + [ParseObject(t, line).value];
      assert next <= r && next[|sofar|] == r[|sofar|];
      forall i | 0 <= i < |all| ensures ParseObject(t, all[i]) == Some(r[|sofar| + i]) {
        if i > 0 { assert all[i] == texts[i - 1]; }
      }
    }
  }

  // ---- Parts

  /** The value is the object, null standing for the empty one. */
  predicate IsObject(j: Json, m: Object) {
    j == Obj(m) || (j == Null && m == map[])
  }

  predicate IsObjects(j: Json, ms: seq<Object>) {
    || (j == Null && ms == [])
    || (j.Arr? && |j.items| == |ms| && forall i | 0 <= i < |ms| :: IsObject(j.items[i], ms[i]))
  }

  lemma ParseMeans(t: JsonText, raw: string, m: Object, ms: seq<Object>)
    ensures ParseObject(t, raw) == Some(m) <==> t.parse(raw).Some? && IsObject(t.parse(raw).value, m)
    ensures ParseObjects(t, raw) == Some(ms) <==> t.parse(raw).Some? && IsObjects(t.parse(raw).value, ms)
  {
    var j := t.parse(raw);
    if j.Some? && j.value.Arr? {
      var items := j.value.items;
      if forall i | 0 <= i < |items| :: ObjectOrNull(items[i]) {
        if IsObjects(j.value, ms) { assert Objects(items) == ms; }
      } else {
        assert !IsObjects(j.value, ms);
      }
    }
  }

  /** Some member of that name holds JSON text of a value that satisfies `read`. */
  ghost predicate Holds(t: JsonText, files: seq<Entry>, name: string, read: Json -> bool) {
    exists i | 0 <= i < |files| :: files[i].name == name && t.parse(files[i].data).Some? && read(t.parse(files[i].data).value)
  }

  lemma MemberStands(files: seq<Entry>, name: string)
    requires name in ByName(Plain(files))
    ensures Entry(name, ByName(Plain(files))[name]) in files
  {
    ByNameStands(Plain(files), name);
    PlainIsPart(files);
  }

  lemma {:induction false} ByNameStands(es: seq<Entry>, name: string)
    requires name in ByName(es)
    ensures Entry(name, ByName(es)[name]) in es
  {
    if name != es[0].name {
      ByNameStands(es[1..], name);
    }
  }

  lemma {:induction false} PlainIsPart(files: seq<Entry>)
    ensures forall e | e in Plain(files) :: e in files
  {
    hide IsDir;
    if files != [] { PlainIsPart(files[1..]); }
  }

  /** Manifest, seals and artifact list are what the members of these names say. */
  lemma PartsAreRead(c: Codec, t: JsonText, k: Signing.Crypto, files: seq<Entry>, verify: bool)
    requires Load(c, t, k, files, verify).Ok?
    ensures var p := Load(c, t, k, files, verify).value;
      && Holds(t, files, "manifest.json", j => IsObject(j, p.manifest))
      && Holds(t, files, "seals.json", j => IsObjects(j, p.seals))
      && Holds(t, files, "artifacts-manifest.json", j => IsObjects(j, p.artifactManifest))
      && exists i | 0 <= i < |files| :: files[i].name == "nodes.ndjson" && Continue(t, TextLines(Split(files[i].data, '\n')), [], p.nodes)
  {
    hide ParseNodes, ParseObject, ParseObjects, Split, CheckNames, ReadArtifacts, Plain, ByName, Sound, Signing.Verify, Continue, TextLines, IsObject,
      IsObjects;
    var p := Load(c, t, k, files, verify).value;
    var m := ByName(Plain(files));
    MemberStands(files, "manifest.json");
    MemberStands(files, "seals.json");
    MemberStands(files, "artifacts-manifest.json");
    MemberStands(files, "nodes.ndjson");
    ParseMeans(t, m["manifest.json"], p.manifest, []);
    ParseMeans(t, m["seals.json"], map[], p.seals);
    ParseMeans(t, m["artifacts-manifest.json"], map[], p.artifactManifest);
    NodesAreTheLines(t, Split(m["nodes.ndjson"], '\n'), [], p.nodes);
  }

  lemma SignatureIsThere(files: seq<Entry>)
    ensures SIGNATURE in ByName(Plain(files)) <==> exists i | 0 <= i < |files| :: files[i].name == "SIGNATURE"
  {
    ByNameHolds(Plain(files));
    PlainNames(files, SIGNATURE);
    assert !IsDir("SIGNATURE");
  }

  ghost predicate HasMember(files: seq<Entry>, name: string) {
    exists i | 0 <= i < |files| :: !IsDir(files[i].name) && files[i].name == name
  }

  lemma HasMemberCons(files: seq<Entry>, name: string)
    requires files != []
    ensures HasMember(files, name) <==> (!IsDir(files[0].name) && files[0].name == name) || HasMember(files[1..], name)
  {
    hide IsDir;
    assert forall i | 1 <= i < |files| :: files[i] == files[1..][i - 1];
    assert forall i | 0 <= i < |files[1..]| :: files[1..][i] == files[i + 1];
  }

  lemma NamesCons(f: Entry, es: seq<Entry>)
    ensures Names([f] + es) == Names(es) + {f.name}
  {
    var all := [f] + es;
    assert all[0] == f && forall i | 0 <= i < |es| :: all[i + 1] == es[i];
    forall i | 0 <= i < |all| ensures all[i].name in Names(es) + {f.name} {
      if i > 0 { assert all[i] == es[i - 1]; }
    }
    forall i | 0 <= i < |es| ensures es[i].name in Names(all) { assert all[i + 1] == es[i]; }
    assert all[0].name in Names(all);
  }

  lemma {:induction false} PlainNames(files: seq<Entry>, name: string)
    ensures name in Names(Plain(files)) <==> HasMember(files, name)
  {
    hide IsDir, HasMember, Names;
    if files == [] {
      NoMembers(name);
    } else {
      PlainNames(files[1..], name);
      HasMemberCons(files, name);
      NamesCons(files[0], Plain(files[1..]));
      assert [] + Plain(files[1..]) == Plain(files[1..]);
    }
  }

  lemma NoMembers(name: string)
    ensures !HasMember([], name) && name !in Names([])
  {}

  /** With a SIGNATURE member, a successful verification reports a signer. */
  lemma SignedVerifies(k: Signing.Crypto, files: seq<Entry>)
    requires SIGNATURE in ByName(Plain(files)) && Signing.Verify(k, files, ANY_SIGNER).Ok?
    ensures Signing.Verify(k, files, ANY_SIGNER).value.Some?
  {
    hide Collect, Plain, ByName;
    CollectIff(files);
  }

  // ---- Tampering

  /**
   * If one id stands at two records of verified packages, the nodes have one identity and one
   * canonical payload, or they collide: no record can be edited under its id.
   */
  lemma OneIdOneNode(
    c: Codec, t: JsonText, t': JsonText, k: Signing.Crypto, k': Signing.Crypto, files: seq<Entry>, files': seq<Entry>, i: nat, j: nat)
    requires Load(c, t, k, files, true).Ok? && Load(c, t', k', files', true).Ok?
    requires i < |Load(c, t, k, files, true).value.nodes| && j < |Load(c, t', k', files', true).value.nodes|
    requires AsString(Get(Load(c, t, k, files, true).value.nodes[i], "id")) == AsString(Get(Load(c, t', k', files', true).value.nodes[j], "id"))
    ensures var rec, rec' := Load(c, t, k, files, true).value.nodes[i], Load(c, t', k', files', true).value.nodes[j];
      exists m, n :: Describes(rec, m) && Describes(rec', n) && (SameIdentity(c, m, n) || Collides(c, m, n))
  {
    hide Load, ValidId, NodeId, Describes, SameIdentity, Collides;
    VerifiedLoadMeans(c, t, k, files);
    VerifiedLoadMeans(c, t', k', files');
    var rec, rec' := Load(c, t, k, files, true).value.nodes[i], Load(c, t', k', files', true).value.nodes[j];
    assert HonestRecord(c, rec) && HonestRecord(c, rec');
    var m :| Honest(c, rec, m);
    var n :| Honest(c, rec', n);
    SameIdSameNode(c, m, n);
  }

  lemma SameIdSameNode(c: Codec, m: Node, n: Node)
    requires ValidId(m.tenant) && ValidId(m.trajectory) && ValidId(n.tenant) && ValidId(n.trajectory) && NodeId(c, m) == NodeId(c, n)
    ensures SameIdentity(c, m, n) || Collides(c, m, n)
  {
    hide ValidId, NodePreimage;
    NodeIdCommits(c, m, n);
  }
}
