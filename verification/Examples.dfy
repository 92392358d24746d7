/** Small instances that meet the hypotheses of the larger theorems, and what follows for them. */
module Examples {
  import opened Base
  import opened Text
  import opened Nodes
  import opened Lists
  import opened LogTable
  import opened Archive
  import opened Package
  import opened PackageLaws
  import RoundTrip
  import Importing
  import Signature
  import Signing

  const ZERO: Digest := seq(32, _ => '0')

  const CODEC := Codec(_ => "", _ => ZERO)

  const INPUT := Node("INPUT", "t", "t", Some(1), 0, map[])

  ghost function Table(): seq<Row> { [RowOf(CODEC, INPUT)] }

  ghost function Package1(): Source {
    Source("t", Importing.Records(CODEC, Table(), _ => 0.0), false, [], map[], false)
  }

  lemma InputIsValid()
    ensures ValidNode(INPUT) && TableOk(CODEC, Table())
  {
    assert RuneLength("t") == 1 && "t"[1..] == "";
    assert ValidUtf8("t");
  }

  /** A log with one node can be exported. */
  lemma PackageIsExportable()
    ensures Exportable(CODEC, Package1()) && DistinctIds(Package1().recs) && |Package1().recs| == 1
    ensures Seals(CODEC, Package1().recs) == []
  {
    InputIsValid();
    Importing.RecordsAreVerified(CODEC, Table(), _ => 0.0);
    hide Verified;
    var recs := Package1().recs;
    assert Verified(CODEC, recs[0]) && NodeOf(CODEC, recs[0]) == INPUT;
    assert recs[1..] == [] && Seals(CODEC, recs[1..]) == [];
  }

  /** JSON text for the three values of that package. */
  ghost function ToyText(rec: Json, manifest: Json): JsonText {
    var write := (v: Json) => if v == rec then "r" else if v == manifest then "m" else "a";
    JsonText(write, write,
             s => if s == "r" || s == "r\n" then Some(rec) else if s == "m" || s == "m\n" then Some(manifest) else Some(Arr([])),
             v => v == rec || v == manifest || v == Arr([]))
  }

  ghost function TextOf(): JsonText {
    PackageIsExportable();
    ToyText(Obj(Package1().recs[0]), ManifestOf(CODEC, Package1()))
  }

  lemma ToyIsFaithful(rec: Json, manifest: Json)
    requires rec != manifest && rec.Obj? && manifest.Obj?
    ensures Faithful(ToyText(rec, manifest))
  {
    assert Trim("r") == "r" && Trim("m") == "m" && Trim("a") == "a";
    assert "m" + "\n" == "m\n" && "r" + "\n" == "r\n" && "a" + "\n" == "a\n";
  }

  lemma TextIsFaithful()
    ensures Exportable(CODEC, Package1())
    ensures Faithful(TextOf()) && RoundTrip.PlainSource(CODEC, TextOf(), Package1())
  {
    hide Verified;
    PackageIsExportable();
    var src := Package1();
    var rec, manifest := src.recs[0], ManifestOf(CODEC, src).members;
    assert "package_format" in manifest && "package_format" !in rec;
    ToyIsFaithful(Obj(rec), Obj(manifest));
    assert ArtifactManifest(src) == Arr([]);
  }

  lemma CoreIsSmall()
    ensures Exportable(CODEC, Package1())
    ensures forall i | 0 <= i < 5 :: Size(Core(CODEC, TextOf(), Package1())[i]) == 2
    ensures Sum(Size, Core(CODEC, TextOf(), Package1())) == 10
  {
    hide Exportable, Verified, Sum, RecordOf;
    PackageIsExportable();
    var src, t := Package1(), TextOf();
    RoundTrip.CoreSum(CODEC, t, src);
    assert forall v :: |t.line(v)| == 1 && |t.pretty(v)| == 1;
    assert Lines(t, src.recs) == t.line(Obj(src.recs[0])) + ("\n" + Lines(t, src.recs[1..]));
    assert src.recs[1..] == [];
  }

  lemma WithinTheLimits()
    ensures Exportable(CODEC, Package1()) && OrderOf([], EmbeddedIn(Package1()))
    ensures RoundTrip.ExportLimits(CODEC, TextOf(), Package1(), [])
  {
    hide Exportable, Verified, Sum, TextOf;
    PackageIsExportable();
    CoreIsSmall();
    RoundTrip.CoreEntries(CODEC, TextOf(), Package1());
    assert Export(CODEC, TextOf(), Package1(), []) == Core(CODEC, TextOf(), Package1());
  }

  lemma OneRowListing()
    ensures Importing.IsListing(Table(), _ => true, Table())
  {
    Importing.FilterIsSubset(Table(), _ => true);
  }

  /** The whole way from a log of one node to an empty one and back to its listing. */
  lemma OneNodeRoundTrip(k: Signing.Crypto)
    ensures Exportable(CODEC, Package1()) && OrderOf([], EmbeddedIn(Package1()))
    ensures var loaded := Load(CODEC, TextOf(), k, Export(CODEC, TextOf(), Package1(), []), true);
      loaded.Ok? && Importing.ImportFrom(CODEC, [], loaded.value.nodes) == Importing.Imported(None, Table())
  {
    hide Exportable, OrderOf, Load, Export, TableOk, Importing.IsListing, Importing.ImportFrom, RoundTrip.ExportLimits, RoundTrip.PlainSource,
      Faithful, TextOf, EmbeddedIn;
    InputIsValid();
    TextIsFaithful();
    WithinTheLimits();
    OneRowListing();
    Importing.ExportLoadImport(CODEC, TextOf(), k, Table(), _ => true, Table(), _ => 0.0, Package1(), []);
  }

  // ---- Signing

  ghost function ToyCrypto(doc: Signing.Doc): Signing.Crypto {
    Signing.Crypto(_ => ZERO, _ => seq(32, _ => 'p'), (_, _) => seq(64, _ => 's'), (_, _, _) => true,
                   x => x, x => Some(x), _ => "d", _ => Some(doc))
  }

  /** The promises of a key pair can be met, and a SIGNATURE document can read back. */
  lemma SigningHypothesesMeet(members: Members, key: string, signedAt: string, id: string)
    ensures exists k :: Signing.Works(k, key) && RoundTrip.DocReadsBack(k, members, key, signedAt, id)
  {
    hide Signature.PayloadHash;
    var doc := Signing.DocFor(ToyCrypto(Signing.Doc("", "", "", "", "", "", "", "", "")), key, ZERO, signedAt, id);
    var k := ToyCrypto(doc);
    assert Signing.DocFor(k, key, ZERO, signedAt, id) == doc;
    var hash := Signature.PayloadHash(k.sha, members);
    assert hash.Some? ==> hash.value == ZERO by { HashIsConstant(k, members); }
    assert Signing.Works(k, key);
  }

  lemma HashIsConstant(k: Signing.Crypto, members: Members)
    requires forall x :: k.sha(x) == ZERO
    ensures Signature.PayloadHash(k.sha, members).Some? ==> Signature.PayloadHash(k.sha, members).value == ZERO
  {}
}
