/** What a package that Python loads is known to be. */
module PySoundness {
  import opened Base
  import opened Text
  import opened Nodes
  import opened Archive
  import opened Package
  import opened PackageLaws
  import opened PyPackage
  import opened LoadSoundness
  import opened ZipNames
  import Cas

  /** An honest record whose payload is an object, whose step is whole, and whose payload hash, if it is there at all, is right. */
  predicate PyHonest(c: Codec, rec: Object, n: Node) {
    && Honest(c, rec, n)
    && Get(rec, "payload") == Obj(n.payload) && Get(rec, "kind") == Str(n.kind)
    && (n.step.Some? ==> Get(rec, "step_n") == Num(n.step.value as real))
    && ("payload_hash" in rec ==> rec["payload_hash"] == Str(Hex(c.sha(c.canon(n.payload)))))
  }

  ghost predicate PyHonestRecord(c: Codec, rec: Object) {
    exists n :: PyHonest(c, rec, n)
  }

  lemma WholeNumber(x: real)
    ensures x.Floor as real == x <==> x == Truncate(x) as real
  {
    if x < 0.0 {
      var k, l := x.Floor, (-x).Floor;
      if x == k as real { assert -x == (-k) as real && l == -k; }
      if x == (-l) as real { assert k == -l; }
    }
  }

  lemma PyVerifiedIsHonest(c: Codec, rec: Object)
    ensures PyVerified(c, rec) <==> PyHonestRecord(c, rec)
  {
    hide ValidId, NodeId, Truncate;
    VerifiedIsHonest(c, rec);
    if Get(rec, "step_n").Num? {
      WholeNumber(rec["step_n"].n);
    }
    forall n | PyHonest(c, rec, n) ensures PyVerified(c, rec) {
      assert Honest(c, rec, n) && DecodeNode(rec) == Some(n);
      if n.step.Some? {
        assert rec["step_n"].n == n.step.value as real;
      }
    }
    if PyVerified(c, rec) {
      var n := DecodeNode(rec).value;
      assert Honest(c, rec, n);
      assert PyHonest(c, rec, n);
    }
  }

  /** The value is a list of these objects; an empty object or string counts as the empty list. */
  predicate ListsObjects(j: Json, ms: seq<Object>) {
    || (ms == [] && (j == Obj(map[]) || j == Str("")))
    || (j.Arr? && AreObjects(j.items, ms))
  }

  predicate AreObjects(items: seq<Json>, ms: seq<Object>) {
    |items| == |ms| && forall i | 0 <= i < |ms| :: items[i] == Obj(ms[i])
  }

  /** Each seal names a node by a value that Python can look up. */
  predicate NameNodes(seals: seq<Object>) {
    forall i | 0 <= i < |seals| :: "node_id" in seals[i] && !seals[i]["node_id"].Arr? && !seals[i]["node_id"].Obj?
  }

  ghost predicate TrustedWith(c: Codec, p: PyLoaded, recs: seq<Object>, seals: seq<Object>) {
    && recs != [] && AreObjects(p.nodes, recs)
    && (forall i | 0 <= i < |recs| :: PyHonestRecord(c, recs[i]))
    && ListsObjects(p.seals, seals) && NameNodes(seals) && SealsCover(c, recs, seals)
    && p.manifest.Obj?
    && (Get(p.manifest.members, "mode") == Str("fat") ==> exists ms :: ListsObjects(p.artifactManifest, ms) && HaveBytes(ms, p.artifacts))
    && ("mode" !in p.manifest.members || p.manifest.members["mode"] == Str("thin") ==> p.artifacts == map[])
  }

  predicate HaveBytes(ms: seq<Object>, artifacts: Members) {
    forall i | 0 <= i < |ms| :: Get(ms[i], "content_hash").Str? && ms[i]["content_hash"].s in artifacts
  }

  lemma ObjectsAre(items: seq<Json>, ms: seq<Object>)
    requires AreObjects(items, ms)
    ensures MembersOf(items) == ms
  {}

  lemma ListsWhat(j: Json, ms: seq<Object>)
    ensures ListsObjects(j, ms) <==> PyItems(j).Some? && AreObjects(PyItems(j).value, ms)
  {}

  lemma ListedArtifacts(j: Json, artifacts: Members)
    ensures ListsArtifacts(j, artifacts) <==> exists ms :: ListsObjects(j, ms) && HaveBytes(ms, artifacts)
  {
    hide PyItems, ListsObjects;
    forall ms | ListsObjects(j, ms) && HaveBytes(ms, artifacts) ensures ListsArtifacts(j, artifacts) {
      ListsWhat(j, ms);
      var items := PyItems(j).value;
      assert forall i | 0 <= i < |items| :: items[i] == Obj(ms[i]);
    }
    if ListsArtifacts(j, artifacts) {
      var items := PyItems(j).value;
      assert forall i | 0 <= i < |items| :: items[i].Obj?;
      ListsWhat(j, MembersOf(items));
    }
  }

  lemma SealsAre(c: Codec, recs: seq<Object>, j: Json)
    requires AllVerified(c, recs)
    ensures PySealsMatch(c, recs, j) <==> exists seals :: ListsObjects(j, seals) && NameNodes(seals) && SealsCover(c, recs, seals)
  {
    hide PyItems, ListsObjects, SealsMatch, SealsCover, Verified;
    forall seals | ListsObjects(j, seals) && NameNodes(seals) && SealsCover(c, recs, seals) ensures PySealsMatch(c, recs, j) {
      ListsWhat(j, seals);
      ObjectsAre(PyItems(j).value, seals);
      SealsMatchMeans(c, recs, seals);
    }
    if PySealsMatch(c, recs, j) {
      var seals := MembersOf(PyItems(j).value);
      ListsWhat(j, seals);
      SealsMatchMeans(c, recs, seals);
    }
  }

  lemma PySoundMeans(c: Codec, p: PyLoaded)
    ensures PySound(c, p) <==> exists recs, seals :: TrustedWith(c, p, recs, seals)
  {
    hide PyVerified, PyHonestRecord, PySealsMatch, ListsArtifacts, SealsCover, ListsObjects, NameNodes, HaveBytes;
    ListedArtifacts(p.artifactManifest, p.artifacts);
    forall recs, seals | TrustedWith(c, p, recs, seals) ensures PySound(c, p) {
      ObjectsAre(p.nodes, recs);
      RecordsVerified(c, recs);
      SealsAre(c, recs, p.seals);
    }
    if PySound(c, p) {
      var recs := MembersOf(p.nodes);
      RecordsVerified(c, recs);
      SealsAre(c, recs, p.seals);
      var seals :| ListsObjects(p.seals, seals) && NameNodes(seals) && SealsCover(c, recs, seals);
      assert TrustedWith(c, p, recs, seals);
    }
  }

  lemma RecordsVerified(c: Codec, recs: seq<Object>)
    ensures (forall i | 0 <= i < |recs| :: PyVerified(c, recs[i])) <==> forall i | 0 <= i < |recs| :: PyHonestRecord(c, recs[i])
    ensures (forall i | 0 <= i < |recs| :: PyVerified(c, recs[i])) ==> AllVerified(c, recs)
  {
    hide PyHonestRecord, Verified;
    forall i | 0 <= i < |recs| ensures PyVerified(c, recs[i]) <==> PyHonestRecord(c, recs[i]) {
      PyVerifiedIsHonest(c, recs[i]);
    }
  }

  /** Python loads a package exactly when it can be parsed and can be trusted, and then as parsed. */
  lemma PyLoadMeans(c: Codec, t: JsonText, files: seq<Entry>)
    ensures PyLoad(c, t, files).Ok? <==>
      PyParse(c, t, files).Ok? && exists recs, seals :: TrustedWith(c, PyParse(c, t, files).value, recs, seals)
    ensures PyLoad(c, t, files).Ok? ==> PyLoad(c, t, files) == PyParse(c, t, files)
  {
    hide PyParse, PySound, TrustedWith;
    if PyParse(c, t, files).Ok? {
      PySoundMeans(c, PyParse(c, t, files).value);
    }
  }

  lemma {:induction false} PyArtifactsHash(c: Codec, files: seq<Entry>, members: Members, budget: int, sofar: Members)
    requires PyArtifacts(c, files, members, budget, sofar).Ok?
    requires forall h | h in sofar :: Cas.IsHash(h) && Cas.ContentHash(c.sha, sofar[h]) == h
    ensures var r := PyArtifacts(c, files, members, budget, sofar).value;
      forall h | h in r :: Cas.IsHash(h) && Cas.ContentHash(c.sha, r[h]) == h
    decreases |files|
  {
    hide IsArtifact, PyBase, AnyHex, Cas.IsHash;
    if files != [] {
      var name := files[0].name;
      if !IsArtifact(name) {
        PyArtifactsHash(c, files[1..], members, budget, sofar);
      } else {
        PyArtifactsHash(c, files[1..], members, budget - |members[name]|, sofar[PyBase(name) := members[name]]);
      }
    }
  }

  /** What is loaded has safe names only, and embedded bytes under their own hashes. */
  lemma PyLoadPromises(c: Codec, t: JsonText, files: seq<Entry>)
    requires PyLoad(c, t, files).Ok?
    ensures |files| <= 10_000 && forall i | 0 <= i < |files| :: IsSafe(files[i].name)
    ensures var p := PyLoad(c, t, files).value;
      forall h | h in p.artifacts :: |h| == 64 && Hex(c.sha(p.artifacts[h])) == h
  {
    hide PyNodes, PyLines, LastByName, PyArtifacts, PySound, NameError, IsSafe, ValidUtf8, Cas.IsHash, Cas.ContentHash;
    var members := LastByName(files);
    var used := |members["manifest.json"]| + |members["seals.json"]| + |members["artifacts-manifest.json"]| + |members["COMPAT.json"]|
      + |members["nodes.ndjson"]|;
    PyArtifactsHash(c, files, members, MAX_TOTAL_BYTES - used, map[]);
    forall i | 0 <= i < |files| ensures IsSafe(files[i].name) {
      NameErrorMeans(files[i].name);
    }
    var p := PyLoad(c, t, files).value;
    forall h | h in p.artifacts ensures |h| == 64 && Hex(c.sha(p.artifacts[h])) == h {
      HashIsHex(c, h, p.artifacts[h]);
    }
  }

  lemma HashIsHex(c: Codec, h: string, data: string)
    requires Cas.IsHash(h) && Cas.ContentHash(c.sha, data) == h
    ensures |h| == 64 && Hex(c.sha(data)) == h
  {}
}
