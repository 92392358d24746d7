/** Signing a package and verifying it: the two meet exactly at the reading limits. */
module Signing {
  import opened Base
  import opened Text
  import opened Sorting
  import opened Lists
  import opened Archive
  import opened Signature

  datatype Doc = Doc(
    scheme: string, payloadAlg: string, payloadHash: string, alg: string,
    publicKey: string, signature: string, signedAt: string, signerId: string, keyId: string)

  /** The library calls: SHA-256, Ed25519, base64 and the JSON form of the SIGNATURE document. */
  datatype Crypto = Crypto(
    sha: string -> Digest,
    pub: string -> string,
    sign: (string, string) -> string,
    verify: (string, string, string) -> bool,
    b64: string -> string,
    unb64: string -> Option<string>,
    encode: Doc -> string,
    decode: string -> Option<Doc>)

  const SCHEME := "trajir-pkg-sig-v1"
  const PAYLOAD_ALG := "trajir-pkg-payload-v1"
  const ALG := "ed25519"

  /** What a key pair and the encodings promise. */
  ghost predicate Works(c: Crypto, key: string) {
    && |c.pub(key)| == 32
    && (forall m :: |c.sign(key, m)| == 64 && c.verify(c.pub(key), m, c.sign(key, m)))
    && (forall x :: c.unb64(c.b64(x)) == Some(x))
  }

  function KeyId(c: Crypto, pub: string): (id: string)
    ensures |id| == 16
  {
    Hex(c.sha(pub))[..16]
  }

  function Message(c: Crypto, payloadHash: string): string {
    c.sha(SCHEME + "\0" + payloadHash)
  }

  function DocFor(c: Crypto, key: string, payloadHash: Digest, signedAt: string, id: string): Doc {
    var pub := c.pub(key);
    Doc(SCHEME, PAYLOAD_ALG, Hex(payloadHash), ALG, c.b64(pub), c.b64(c.sign(key, Message(c, payloadHash))),
        signedAt, id, KeyId(c, pub))
  }

  // ---- Sign

  ghost function Rewrite(members: Members, doc: string): seq<Entry> {
    Listed(members) + [Entry(SIGNATURE, doc)]
  }

  ghost function SignatureFor(c: Crypto, members: Members, key: string, signedAt: string, id: string): string {
    var hash := PayloadHash(c.sha, members);
    c.encode(DocFor(c, key, if hash.Some? then hash.value else c.sha(""), signedAt, id))
  }

  /** The package with its SIGNATURE member written or replaced. */
  ghost function Sign(c: Crypto, files: seq<Entry>, key: string, signedAt: string, id: string): Result<seq<Entry>> {
    if |key| != 64 then Err(BadSignature)
    else
      match Collect(files)
      case Err(why) => Err(why)
      case Ok(read) =>
        if PayloadHash(c.sha, read.members).None? then Err(UnsafePath)
        else Ok(Rewrite(read.members, SignatureFor(c, read.members, key, signedAt, id)))
  }

  // ---- Verify

  datatype Options = Options(requireSignature: bool, trustedKeys: seq<string>, trustedKeyIds: seq<string>)

  datatype Info = Info(doc: Doc, payloadHash: Digest, publicKey: string, keyId: string)

  predicate Trusted(opts: Options, pub: string, keyId: string) {
    (opts.trustedKeys == [] || pub in opts.trustedKeys) && (opts.trustedKeyIds == [] || keyId in opts.trustedKeyIds)
  }

  /** The checks on a SIGNATURE document, for members whose payload hash is `hash`. */
  function VerifyDocument(c: Crypto, hash: Option<Digest>, raw: string, opts: Options): Result<Info> {
    match c.decode(raw)
    case None => Err(BadSignature)
    case Some(doc) =>
      if doc.scheme != SCHEME || doc.payloadAlg != PAYLOAD_ALG || doc.alg != ALG then Err(BadSignature)
      else
        match hash
        case None => Err(UnsafePath)
        case Some(want) =>
          var pub, sig := c.unb64(doc.publicKey), c.unb64(doc.signature);
          if ToLower(Trim(doc.payloadHash)) != Hex(want) then Err(BadSignature)
          else if pub.None? || |pub.value| != 32 || sig.None? || |sig.value| != 64 then Err(BadSignature)
          else if !c.verify(pub.value, Message(c, want), sig.value) then Err(BadSignature)
          else if doc.keyId != "" && doc.keyId != KeyId(c, pub.value) then Err(BadSignature)
          else if !Trusted(opts, pub.value, KeyId(c, pub.value)) then Err(BadSignature)
          else Ok(Info(doc, want, pub.value, KeyId(c, pub.value)))
  }

  ghost function VerifySignatureBytes(c: Crypto, members: Members, raw: string, opts: Options): Result<Info> {
    VerifyDocument(c, PayloadHash(c.sha, members), raw, opts)
  }

  ghost function VerifyFromMembers(c: Crypto, read: Collected, opts: Options): Result<Option<Info>> {
    if read.signature.None? then if opts.requireSignature then Err(BadSignature) else Ok(None)
    else
      match VerifySignatureBytes(c, read.members, read.signature.value, opts)
      case Err(why) => Err(why)
      case Ok(info) => Ok(Some(info))
  }

  ghost function Verify(c: Crypto, files: seq<Entry>, opts: Options): Result<Option<Info>> {
    match Collect(files)
    case Err(why) => Err(why)
    case Ok(read) => VerifyFromMembers(c, read, opts)
  }

  method VerifyZip(c: Crypto, files: seq<Entry>, opts: Options) returns (res: Result<Option<Info>>)
    ensures res == Verify(c, files, opts)
  {
    var read := CollectZipMembers(files);
    if read.Err? {
      return Err(read.why);
    }
    if read.value.signature.None? {
      return if opts.requireSignature then Err(BadSignature) else Ok(None);
    }
    var hash := PayloadHashFromMembers(c.sha, read.value.members);
    var info := VerifyDocument(c, hash, read.value.signature.value, opts);
    res := if info.Err? then Err(info.why) else Ok(Some(info.value));
  }

  // ---- The signed archive can be read back exactly within the limits

  /** The members are ones that an archive was read into. */
  ghost predicate Read(members: Members) {
    SIGNATURE !in members && forall n | n in members :: !IsDir(n) && NameError(n).None? && |members[n]| <= MAX_ENTRY_BYTES
  }

  ghost predicate WithinLimits(members: Members, doc: string) {
    && |members.Keys| + 1 <= MAX_ENTRIES
    && |doc| <= MAX_ENTRY_BYTES
    && Sum(Size, Listed(members)) + |doc| <= MAX_TOTAL_BYTES
  }

  lemma CollectedIsRead(files: seq<Entry>)
    requires Collect(files).Ok?
    ensures Read(Collect(files).value.members)
  {
    hide NameError;
    CollectIff(files);
    var es := Plain(files);
    PlainHasNoDirs(files);
    ByNameHolds(es);
    forall n | n in ByName(es) && n != SIGNATURE
      ensures !IsDir(n) && NameError(n).None? && |ByName(es)[n]| <= MAX_ENTRY_BYTES
    {
      var i :| 0 <= i < |es| && es[i].name == n;
      assert EntryOk(es[i]);
    }
  }

  lemma SignatureNameIsSafe()
    ensures NameError(SIGNATURE).None? && !IsDir(SIGNATURE)
  {
    assert Slashes(SIGNATURE) == SIGNATURE;
    assert Split(SIGNATURE, '/') == [SIGNATURE];
  }

  lemma RewriteNames(members: Members, doc: string)
    requires SIGNATURE !in members
    ensures DistinctNames(Rewrite(members, doc)) && ByName(Rewrite(members, doc)) == members[SIGNATURE := doc]
  {
    hide Listed, ByName, DistinctNames;
    ListedNames(members);
    ListedIs(members);
    ByNameAppend(Listed(members), Entry(SIGNATURE, doc));
  }

  lemma RewriteEntries(members: Members, doc: string)
    requires Read(members)
    ensures var files := Rewrite(members, doc);
      && (forall i | 0 <= i < |files| :: !IsDir(files[i].name))
      && ((forall i | 0 <= i < |files| :: EntryOk(files[i])) <==> |doc| <= MAX_ENTRY_BYTES)
      && Sum(Size, files) == Sum(Size, Listed(members)) + |doc|
      && |files| == |members.Keys| + 1
  {
    hide NameError, Listed, IsDir;
    var es := Listed(members);
    var files := Rewrite(members, doc);
    ListedIs(members);
    SignatureNameIsSafe();
    SumConcat(Size, es, [Entry(SIGNATURE, doc)]);
    assert files[|es|] == Entry(SIGNATURE, doc) && forall i | 0 <= i < |es| :: files[i] == es[i];
    assert EntryOk(files[|es|]) <==> |doc| <= MAX_ENTRY_BYTES;
  }

  lemma RewriteReads(members: Members, doc: string)
    requires Read(members)
    ensures Collect(Rewrite(members, doc)).Ok? <==> WithinLimits(members, doc)
    ensures Collect(Rewrite(members, doc)).Ok? ==> Collect(Rewrite(members, doc)).value == Collected(members, Some(doc))
  {
    hide NameError, Listed, Collect, IsDir, Rewrite, EntryOk, ByName, Sum, DistinctNames;
    var files := Rewrite(members, doc);
    RewriteEntries(members, doc);
    RewriteNames(members, doc);
    PlainHasNoDirs(files);
    CollectIff(files);
    assert members[SIGNATURE := doc] - {SIGNATURE} == members;
  }

  // ---- The signer's loops

  method MemberNames(members: Members) returns (names: seq<string>)
    ensures names == SortedNames(members.Keys)
  {
    hide Sort, SortedNames;
    names := [];
    var todo := members.Keys;
    while todo != {}
      invariant todo <= members.Keys && NoDup(names)
      invariant forall n :: n in names <==> n in members && n !in todo
    {
      var name :| name in todo;
      todo := todo - {name};
      NoDupConcat(names, [name]);
      names := names + [name];
    }
    SortedIsListed(names, members.Keys);
    names := Sort(names, StringLeq);
  }

  /** The members in name order, and SIGNATURE last. */
  method RewriteZip(members: Members, doc: string) returns (files: seq<Entry>)
    ensures files == Rewrite(members, doc)
  {
    hide SortedNames;
    var names := MemberNames(members);
    SortedNamesOf(members.Keys);
    files := [];
    for i := 0 to |names|
      invariant |files| == i && forall j | 0 <= j < i :: files[j] == Listed(members)[j]
    {
      assert names[i] in names;
      files := files + [Entry(names[i], members[names[i]])];
    }
    assert files == Listed(members);
    files := files + [Entry(SIGNATURE, doc)];
  }

  method SignZip(c: Crypto, files: seq<Entry>, key: string, signedAt: string, id: string) returns (res: Result<seq<Entry>>)
    ensures res == Sign(c, files, key, signedAt, id)
  {
    hide Collect, PayloadHash, Rewrite;
    if |key| != 64 {
      return Err(BadSignature);
    }
    var read := CollectZipMembers(files);
    if read.Err? {
      return Err(read.why);
    }
    var hash := PayloadHashFromMembers(c.sha, read.value.members);
    if hash.None? {
      return Err(UnsafePath);
    }
    var doc := c.encode(DocFor(c, key, hash.value, signedAt, id));
    var signed := RewriteZip(read.value.members, doc);
    res := Ok(signed);
  }

  // ---- The theorems

  /** What a key signs, verification of the same members accepts. */
  lemma OwnSignatureVerifies(c: Crypto, members: Members, key: string, signedAt: string, id: string, opts: Options)
    requires Works(c, key) && Trusted(opts, c.pub(key), KeyId(c, c.pub(key))) && PayloadHash(c.sha, members).Some?
    requires var doc := DocFor(c, key, PayloadHash(c.sha, members).value, signedAt, id); c.decode(c.encode(doc)) == Some(doc)
    ensures var hash := PayloadHash(c.sha, members).value;
      VerifySignatureBytes(c, members, SignatureFor(c, members, key, signedAt, id), opts)
        == Ok(Info(DocFor(c, key, hash, signedAt, id), hash, c.pub(key), KeyId(c, c.pub(key))))
  {
    hide PayloadHash;
    HexIsNormal(Hex(PayloadHash(c.sha, members).value));
  }

  /**
   * For every package that Sign accepts, Verify of the result succeeds exactly when the result
   * is within the reading limits; it then reports the signer's key, name and time and the payload hash.
   */
  lemma SignThenVerify(c: Crypto, files: seq<Entry>, key: string, signedAt: string, id: string, opts: Options)
    requires Works(c, key) && Trusted(opts, c.pub(key), KeyId(c, c.pub(key)))
    requires Sign(c, files, key, signedAt, id).Ok?
    requires var doc := DocFor(c, key, PayloadHash(c.sha, Collect(files).value.members).value, signedAt, id);
      c.decode(c.encode(doc)) == Some(doc)
    ensures var signed := Sign(c, files, key, signedAt, id).value;
      var members := Collect(files).value.members;
      && (Verify(c, signed, opts).Ok? <==> WithinLimits(members, SignatureFor(c, members, key, signedAt, id)))
      && (Verify(c, signed, opts).Ok? ==>
            && Verify(c, signed, opts).value.Some?
            && Verify(c, signed, opts).value.value.publicKey == c.pub(key)
            && Verify(c, signed, opts).value.value.doc.signerId == id && Verify(c, signed, opts).value.value.doc.signedAt == signedAt
            && Some(Verify(c, signed, opts).value.value.payloadHash) == PayloadHash(c.sha, members))
  {
    hide PayloadHash, Collect, Read, WithinLimits, Rewrite, VerifySignatureBytes, SignatureFor;
    var members := Collect(files).value.members;
    CollectedIsRead(files);
    RewriteReads(members, SignatureFor(c, members, key, signedAt, id));
    OwnSignatureVerifies(c, members, key, signedAt, id, opts);
  }

  /** Signing keeps every member; signing again keeps them too and leaves only the new signature. */
  lemma SigningKeepsMembers(
    c: Crypto, files: seq<Entry>, key: string, signedAt: string, id: string, key': string, signedAt': string, id': string)
    requires Sign(c, files, key, signedAt, id).Ok? && |key'| == 64
    requires Collect(Sign(c, files, key, signedAt, id).value).Ok?
    ensures var read := Collect(files).value;
      var signed := Sign(c, files, key, signedAt, id).value;
      && Collect(signed).value == Collected(read.members, Some(SignatureFor(c, read.members, key, signedAt, id)))
      && Sign(c, signed, key', signedAt', id')
           == Ok(Rewrite(read.members, SignatureFor(c, read.members, key', signedAt', id')))
      && Sign(c, signed, key', signedAt', id') == Sign(c, files, key', signedAt', id')
  {
    hide PayloadHash, Collect, Read, WithinLimits, Rewrite, SignatureFor;
    var members := Collect(files).value.members;
    CollectedIsRead(files);
    RewriteReads(members, SignatureFor(c, members, key, signedAt, id));
  }

  /** One SIGNATURE is good for one member map: any other map that it verifies exhibits a collision. */
  lemma SignatureCoversMembers(c: Crypto, m: Members, n: Members, raw: string, opts: Options, opts': Options)
    requires VerifySignatureBytes(c, m, raw, opts).Ok? && VerifySignatureBytes(c, n, raw, opts').Ok?
    requires Read(m) && Read(n) && (forall x | x in m :: Fits(x)) && (forall x | x in n :: Fits(x))
    ensures
      || m == n
      || Collision(c.sha, Payload(c.sha, m), Payload(c.sha, n))
      || exists x | x in m && x in n :: Collision(c.sha, m[x], n[x])
  {
    hide Payload, Fits, Trusted, Works;
    HexInjective(PayloadHash(c.sha, m).value, PayloadHash(c.sha, n).value);
    if Payload(c.sha, m) == Payload(c.sha, n) {
      SamePayloadSameMembers(c.sha, m, n);
    }
  }

  // ---- At the limit

  /** Ten thousand empty members, named by number. */
  ghost function FullPackage(): seq<Entry> {
    seq(MAX_ENTRIES, i requires 0 <= i < MAX_ENTRIES => Entry(Decimal(i), ""))
  }

  lemma DecimalNameIsSafe(n: nat)
    ensures NameError(Decimal(n)).None? && !IsDir(Decimal(n)) && Decimal(n) != SIGNATURE
  {
    var d := Decimal(n);
    assert Slashes(d) == d;
    assert '/' !in d && Split(d, '/') == [d];
    assert SIGNATURE[0] == 'S' && ".."[0] == '.';
    assert "artifacts/"[0] == 'a';
  }

  lemma {:induction false} EmptySum(es: seq<Entry>)
    requires forall i | 0 <= i < |es| :: es[i].data == ""
    ensures Sum(Size, es) == 0
  {
    if es != [] {
      EmptySum(es[1..]);
    }
  }

  /** Sign accepts a package with as many members as can be read, and Verify refuses the result. */
  lemma FullPackageSignsButDoesNotVerify(c: Crypto, key: string, signedAt: string, id: string, opts: Options)
    requires Works(c, key) && |key| == 64
    ensures Sign(c, FullPackage(), key, signedAt, id).Ok?
    ensures Verify(c, Sign(c, FullPackage(), key, signedAt, id).value, opts) == Err(Limit)
  {
    hide PayloadHash, CollectFrom, SignatureFor, Decimal, NameError, IsDir, Payload;
    FullPackageReads();
    var members := Collect(FullPackage()).value.members;
    CollectedIsRead(FullPackage());
    assert PayloadHash(c.sha, members).Some? by { ReadIsSafe(c, members); }
  }

  lemma ReadIsSafe(c: Crypto, members: Members)
    requires Read(members)
    ensures PayloadHash(c.sha, members).Some?
  {}

  lemma FullPackageEntries()
    ensures var files := FullPackage();
      && (forall i | 0 <= i < |files| :: !IsDir(files[i].name) && EntryOk(files[i]))
      && DistinctNames(files) && SIGNATURE !in Names(files) && Sum(Size, files) == 0 && |files| == MAX_ENTRIES
  {
    hide NameError, IsDir, Decimal, Sum;
    var files := FullPackage();
    forall i | 0 <= i < |files| ensures !IsDir(files[i].name) && EntryOk(files[i]) && files[i].name != SIGNATURE {
      DecimalNameIsSafe(i);
    }
    forall i, j | 0 <= i < j < |files| ensures files[i].name != files[j].name {
      DecimalRoundTrip(i);
      DecimalRoundTrip(j);
    }
    EmptySum(files);
  }

  lemma UnsignedReads(files: seq<Entry>)
    requires |files| <= MAX_ENTRIES && Sum(Size, files) <= MAX_TOTAL_BYTES && DistinctNames(files) && SIGNATURE !in Names(files)
    requires forall i | 0 <= i < |files| :: !IsDir(files[i].name) && EntryOk(files[i])
    ensures Collect(files) == Ok(Collected(ByName(files), None))
  {
    hide IsDir, EntryOk, Collect, DistinctNames, ByName, Sum;
    PlainHasNoDirs(files);
    CollectIff(files);
    ByNameHolds(files);
    assert ByName(files) - {SIGNATURE} == ByName(files);
  }

  lemma FullPackageReads()
    ensures Collect(FullPackage()).Ok? && |Collect(FullPackage()).value.members.Keys| == MAX_ENTRIES
  {
    hide IsDir, EntryOk, FullPackage, Collect, DistinctNames, ByName, Names, Sum;
    FullPackageEntries();
    UnsignedReads(FullPackage());
    ByNameHolds(FullPackage());
    CountNames(FullPackage());
  }

  lemma {:induction false} CountNames(es: seq<Entry>)
    requires DistinctNames(es)
    ensures |Names(es)| == |es|
  {
    if es != [] {
      CountNames(es[1..]);
      assert forall i | 1 <= i < |es| :: es[i] == es[1..][i - 1];
      assert Names(es) == Names(es[1..]) + {es[0].name};
    }
  }
}
