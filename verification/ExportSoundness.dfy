/** What is exported, and what an exported package says of itself once it is loaded. */
module ExportSoundness {
  import opened Base
  import opened Text
  import opened Nodes
  import opened Archive
  import opened Package
  import opened PackageLaws
  import opened RoundTrip
  import opened LoadSoundness
  import Cas
  import Signing

  /** The bytes are there under their own hash, and are not too long. */
  predicate BytesFor(c: Codec, bytes: Members, hash: string) {
    hash in bytes && Hex(c.sha(bytes[hash])) == hash && |bytes[hash]| <= 33_554_432
  }

  /** An export takes honest records of one tenant, and for a fat package the bytes of every artifact. */
  lemma ExportableMeans(c: Codec, src: Source)
    ensures Exportable(c, src) <==>
      && src.recs != []
      && (forall i | 0 <= i < |src.recs| :: HonestRecord(c, src.recs[i]))
      && (forall i, j | 0 <= i < j < |src.recs| :: AsString(Get(src.recs[i], "tenant_id")) == AsString(Get(src.recs[j], "tenant_id")))
      && (src.fat ==> |src.artifacts| <= 10_000 && forall i | 0 <= i < |src.artifacts| :: BytesFor(c, src.bytes, src.artifacts[i].hash))
  {
    hide Verified, HonestRecord;
    forall i | 0 <= i < |src.recs| ensures Verified(c, src.recs[i]) <==> HonestRecord(c, src.recs[i]) {
      VerifiedIsHonest(c, src.recs[i]);
    }
    forall i | 0 <= i < |src.artifacts|
      ensures BytesFor(c, src.bytes, src.artifacts[i].hash) <==>
        src.artifacts[i].hash in src.bytes && Cas.ContentHash(c.sha, src.bytes[src.artifacts[i].hash]) == src.artifacts[i].hash
        && |src.bytes[src.artifacts[i].hash]| <= MAX_ENTRY_BYTES
    {}
  }

  /** The seal repeats the record's id, step and seq, and holds its payload's hash. */
  predicate SealsRecord(c: Codec, rec: Object, seal: Json) {
    && seal.Obj?
    && Get(seal.members, "type") == Str("DECISION_SEAL") && Get(seal.members, "node_id") == Str(AsString(Get(rec, "id")))
    && Get(seal.members, "step_n") == Get(rec, "step_n")
    && Get(rec, "seq").Num? && Get(seal.members, "seq") == Num(Truncate(rec["seq"].n) as real)
    && Get(seal.members, "content_hash") == Str(Hex(c.sha(c.canon(if Get(rec, "payload").Obj? then rec["payload"].members else map[]))))
  }

  predicate IsDecision(rec: Object) {
    AsString(Get(rec, "kind")) == "DECISION"
  }

  predicate Increasing(at: seq<nat>) {
    forall k, l | 0 <= k < l < |at| :: at[k] < at[l]
  }

  predicate EachSeals(c: Codec, recs: seq<Object>, seals: seq<Json>, at: seq<nat>) {
    |at| == |seals| && forall k | 0 <= k < |at| :: at[k] < |recs| && IsDecision(recs[at[k]]) && SealsRecord(c, recs[at[k]], seals[k])
  }

  predicate NoneMissing(recs: seq<Object>, at: seq<nat>) {
    forall i | 0 <= i < |recs| && IsDecision(recs[i]) :: i in at
  }

  /** Where the seals' records stand: exactly at the DECISIONs, in order. */
  predicate SealPlaces(c: Codec, recs: seq<Object>, seals: seq<Json>, at: seq<nat>) {
    Increasing(at) && EachSeals(c, recs, seals, at) && NoneMissing(recs, at)
  }

  lemma {:induction false} SealsListDecisions(c: Codec, recs: seq<Object>) returns (at: seq<nat>)
    requires AllVerified(c, recs)
    ensures SealPlaces(c, recs, Seals(c, recs), at)
  {
    hide Verified, SealsRecord, IsDecision, SealPlaces, SealOf;
    if recs == [] {
      at := [];
      NoSeals(c);
    } else {
      assert Verified(c, recs[0]);
      var rest := SealsListDecisions(c, recs[1..]);
      DecisionDecodes(c, recs[0]);
      if IsDecision(recs[0]) {
        SealHead(c, recs[0]);
        at := [0] + Moved(rest);
        OneSealMore(c, recs[0], recs[1..], Obj(SealOf(c, recs[0], NodeOf(c, recs[0]))), Seals(c, recs[1..]), rest);
      } else {
        at := Moved(rest);
        NoSealMore(c, recs[0], recs[1..], Seals(c, recs[1..]), rest);
        assert Seals(c, recs) == Seals(c, recs[1..]);
      }
      assert recs == [recs[0]] + recs[1..];
    }
  }

  lemma NoSeals(c: Codec)
    ensures SealPlaces(c, [], [], [])
  {}

  function Moved(at: seq<nat>): (moved: seq<nat>)
    ensures |moved| == |at| && forall k | 0 <= k < |at| :: moved[k] == at[k] + 1
  {
    seq(|at|, k requires 0 <= k < |at| => at[k] + 1)
  }

  lemma NoSealMore(c: Codec, rec: Object, recs: seq<Object>, seals: seq<Json>, at: seq<nat>)
    requires !IsDecision(rec) && SealPlaces(c, recs, seals, at)
    ensures SealPlaces(c, [rec] + recs, seals, Moved(at))
  {
    hide SealsRecord, IsDecision, NoneMissing;
    MovedMisses(rec, recs, at, Moved(at));
  }

  lemma OneSealMore(c: Codec, rec: Object, recs: seq<Object>, seal: Json, seals: seq<Json>, at: seq<nat>)
    requires IsDecision(rec) && SealsRecord(c, rec, seal) && SealPlaces(c, recs, seals, at)
    ensures SealPlaces(c, [rec] + recs, [seal] + seals, [0] + Moved(at))
  {
    hide SealsRecord, IsDecision, NoneMissing, EachSeals;
    EachMoved(c, rec, recs, seal, seals, at);
    var next := [0] + Moved(at);
    assert next[0] == 0;
    forall k | 0 <= k < |at| ensures Moved(at)[k] in next {
      assert next[k + 1] == Moved(at)[k];
    }
    MovedMisses(rec, recs, at, next);
  }

  lemma EachMoved(c: Codec, rec: Object, recs: seq<Object>, seal: Json, seals: seq<Json>, at: seq<nat>)
    requires IsDecision(rec) && SealsRecord(c, rec, seal) && EachSeals(c, recs, seals, at)
    ensures EachSeals(c, [rec] + recs, [seal] + seals, [0] + Moved(at))
  {
    hide SealsRecord, IsDecision;
    var all, next, sealed := [rec] + recs, [0] + Moved(at), [seal] + seals;
    forall k | 0 <= k < |next| ensures next[k] < |all| && IsDecision(all[next[k]]) && SealsRecord(c, all[next[k]], sealed[k]) {
      if k > 0 {
        assert next[k] == at[k - 1] + 1 && all[next[k]] == recs[at[k - 1]] && sealed[k] == seals[k - 1];
      }
    }
  }

  lemma MovedMisses(rec: Object, recs: seq<Object>, at: seq<nat>, next: seq<nat>)
    requires NoneMissing(recs, at) && (forall k | 0 <= k < |at| :: Moved(at)[k] in next) && (IsDecision(rec) ==> 0 in next)
    ensures NoneMissing([rec] + recs, next)
  {
    hide IsDecision;
    var all := [rec] + recs;
    forall i | 0 <= i < |all| && IsDecision(all[i]) ensures i in next {
      if i > 0 {
        assert all[i] == recs[i - 1];
        var k :| 0 <= k < |at| && at[k] == i - 1;
        assert Moved(at)[k] == i;
      }
    }
  }

  lemma DecisionDecodes(c: Codec, rec: Object)
    requires Verified(c, rec)
    ensures IsDecision(rec) <==> NodeOf(c, rec).kind == "DECISION"
  {}

  lemma SealHead(c: Codec, rec: Object)
    requires Verified(c, rec)
    ensures SealsRecord(c, rec, Obj(SealOf(c, rec, NodeOf(c, rec))))
  {
    hide ValidId, NodeId;
  }

  /** The entry describes the artifact; a size that is not given is that of the embedded bytes. */
  predicate EntryFor(a: Artifact, artifacts: Members, entry: Object) {
    && Get(entry, "logical_path") == Str(a.path) && Get(entry, "content_hash") == Str(a.hash)
    && Get(entry, "uri") == (match a.uri case None => Null case Some(u) => Str(u))
    && Get(entry, "size") ==
         match a.size
         case Some(n) => Num(n as real)
         case None => if a.hash in artifacts then Num(|artifacts[a.hash]| as real) else Null
  }

  /** The loaded manifest is that of the export, and counts what the package has. */
  predicate SaysOfItself(src: Source, p: Loaded) {
    && Get(p.manifest, "trajectory_id") == Str(src.trajectory)
    && (forall i | 0 <= i < |p.nodes| :: Get(p.manifest, "tenant_id") == Str(AsString(Get(p.nodes[i], "tenant_id"))))
    && Get(p.manifest, "mode") == Str(if src.fat then "fat" else "thin")
    && Get(p.manifest, "node_count") == Num(|p.nodes| as real) && Get(p.manifest, "seal_count") == Num(|p.seals| as real)
    && Get(p.manifest, "redacted") == Bool(src.redacted) && Get(p.manifest, "package_format") == Str("0.1")
  }

  lemma ParsedSays(c: Codec, src: Source)
    requires Exportable(c, src)
    ensures SaysOfItself(src, ParsedOf(c, src))
    ensures |ParsedOf(c, src).seals| == |Seals(c, src.recs)|
    ensures forall i | 0 <= i < |ParsedOf(c, src).seals| :: Seals(c, src.recs)[i] == Obj(ParsedOf(c, src).seals[i])
  {
    hide Verified, Seals, EmbeddedIn, EmbeddableAll;
    SealsAreObjects(c, src.recs);
  }

  lemma EntriesSay(c: Codec, src: Source)
    requires Exportable(c, src)
    ensures var p := ParsedOf(c, src);
      |p.artifactManifest| == |src.artifacts|
      && forall i | 0 <= i < |src.artifacts| :: EntryFor(src.artifacts[i], p.artifacts, p.artifactManifest[i])
  {
    hide Verified, Seals, EmbeddedIn, EmbeddableAll, Exportable;
    var items := ArtifactManifest(src).items;
    forall i | 0 <= i < |items| ensures items[i] == ManifestEntry(src.artifacts[i], EmbeddedIn(src)) {}
  }

  lemma EmbeddedSays(c: Codec, src: Source)
    requires Exportable(c, src)
    ensures forall h :: h in EmbeddedIn(src) <==> src.fat && exists i | 0 <= i < |src.artifacts| :: src.artifacts[i].hash == h
    ensures forall h | h in EmbeddedIn(src) :: h in src.bytes && EmbeddedIn(src)[h] == src.bytes[h]
  {
    hide Verified;
  }

  function AsValues(ms: seq<Object>): (js: seq<Json>)
    ensures |js| == |ms| && forall i | 0 <= i < |ms| :: js[i] == Obj(ms[i])
  {
    seq(|ms|, i requires 0 <= i < |ms| => Obj(ms[i]))
  }

  /** The package is what was exported: its seals stand for the DECISIONs at these places. */
  ghost predicate IsExported(c: Codec, src: Source, p: Loaded, at: seq<nat>) {
    && p.nodes == src.recs && SaysOfItself(src, p)
    && |p.seals| == |at| && SealPlaces(c, p.nodes, AsValues(p.seals), at)
    && |p.artifactManifest| == |src.artifacts|
    && (forall i | 0 <= i < |src.artifacts| :: EntryFor(src.artifacts[i], p.artifacts, p.artifactManifest[i]))
    && (forall h :: h in p.artifacts <==> src.fat && exists i | 0 <= i < |src.artifacts| :: src.artifacts[i].hash == h)
    && (forall h | h in p.artifacts :: h in src.bytes && p.artifacts[h] == src.bytes[h])
  }

  lemma ParsedIsExported(c: Codec, src: Source) returns (at: seq<nat>)
    requires Exportable(c, src)
    ensures IsExported(c, src, ParsedOf(c, src), at)
  {
    hide Verified, Seals, SealPlaces, EmbeddedIn, SaysOfItself, EntryFor;
    at := SealsListDecisions(c, src.recs);
    PlacesCount(c, src.recs, Seals(c, src.recs), at);
    ParsedSays(c, src);
    EntriesSay(c, src);
    EmbeddedSays(c, src);
    assert AsValues(ParsedOf(c, src).seals) == Seals(c, src.recs);
  }

  lemma PlacesCount(c: Codec, recs: seq<Object>, seals: seq<Json>, at: seq<nat>)
    requires SealPlaces(c, recs, seals, at)
    ensures |at| == |seals|
  {}

  /**
   * A loaded export says of itself what was exported: its manifest counts its nodes and seals,
   * its seals are those of its DECISIONs in order, every artifact is listed, and the listed ones
   * are embedded exactly when the package is fat.
   */
  lemma LoadedExportSays(c: Codec, t: JsonText, k: Signing.Crypto, src: Source, order: seq<string>) returns (at: seq<nat>)
    requires Exportable(c, src) && OrderOf(order, EmbeddedIn(src)) && Faithful(t) && PlainSource(c, t, src) && DistinctIds(src.recs)
    requires Load(c, t, k, Export(c, t, src, order), true).Ok?
    ensures IsExported(c, src, Load(c, t, k, Export(c, t, src, order), true).value, at)
  {
    hide Export, Load, Exportable, PlainSource, DistinctIds, OrderOf, Faithful, EmbeddedIn, IsExported, ExportLimits, ParsedOf;
    LoadAcceptsExport(c, t, k, src, order);
    at := ParsedIsExported(c, src);
  }
}
