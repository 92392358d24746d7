/** What a successful verification of a signature means, and what the signed bytes are. */
module VerifySoundness {
  import opened Base
  import opened Text
  import opened Archive
  import opened Signature
  import opened Signing
  import opened ZipNames
  import opened Formats
  import Sorting

  // ---- What is hashed and signed

  /** The number that bytes stand for, the highest first. */
  function FromBytes(s: string): nat {
    if s == [] then 0 else 256 * FromBytes(s[..|s| - 1]) + s[|s| - 1] as nat
  }

  lemma {:induction false} BigEndianReads(n: nat, k: nat)
    requires n < Power256(k)
    ensures FromBytes(BigEndian(n, k)) == n
  {
    if k > 0 {
      BigEndianReads(n / 256, k - 1);
      assert BigEndian(n, k)[..k - 1] == BigEndian(n / 256, k - 1);
    }
  }

  /** Reads a payload stream: an 8-byte length, the name, the 32-byte hash of its content. */
  function ReadStream(s: string): (r: Option<seq<(string, string)>>)
    decreases |s|
  {
    if s == [] then Some([])
    else if |s| < 8 then None
    else
      var n := FromBytes(s[..8]);
      if |s| < 40 + n then None
      else
        match ReadStream(s[40 + n..])
        case None => None
        case Some(rest) => Some([(s[8..8 + n], s[8 + n..40 + n])] + rest)
  }

  function NamesAndHashes(sha: string -> Digest, es: seq<Entry>): (r: seq<(string, string)>)
    ensures |r| == |es| && forall i | 0 <= i < |r| :: r[i] == (es[i].name, sha(es[i].data))
  {
    seq(|es|, i requires 0 <= i < |es| => (es[i].name, sha(es[i].data)))
  }

  /** The stream can be read back: names and content hashes, in order. */
  lemma {:induction false} StreamReads(sha: string -> Digest, es: seq<Entry>)
    requires forall i | 0 <= i < |es| :: Fits(es[i].name)
    ensures ReadStream(Stream(sha, es)) == Some(NamesAndHashes(sha, es))
  {
    hide Power256;
    if es == [] {
      assert NamesAndHashes(sha, es) == [];
    } else {
      var e, rest := es[0], Stream(sha, es[1..]);
      var s := Stream(sha, es);
      var n := |e.name|;
      assert Fits(e.name);
      BigEndianReads(n, 8);
      assert s == BigEndian(n, 8) + e.name + sha(e.data) + rest;
      assert s[..8] == BigEndian(n, 8) && s[8..8 + n] == e.name && s[8 + n..40 + n] == sha(e.data) && s[40 + n..] == rest;
      assert forall i | 0 <= i < |es[1..]| :: es[1..][i] == es[i + 1];
      StreamReads(sha, es[1..]);
      assert [(e.name, sha(e.data))] + NamesAndHashes(sha, es[1..]) == NamesAndHashes(sha, es);
    }
  }

  /** Two payload hashes have one signed message only if the messages collide. */
  lemma MessageSeparates(c: Crypto, g: Digest, h: Digest)
    requires Message(c, g) == Message(c, h)
    ensures g == h || Collision(c.sha, "trajir-pkg-sig-v1" + "\0" + g, "trajir-pkg-sig-v1" + "\0" + h)
  {
    var x, y := SCHEME + "\0" + g, SCHEME + "\0" + h;
    assert x[|SCHEME| + 1..] == g && y[|SCHEME| + 1..] == h;
  }

  /** The stream lists every member but SIGNATURE, each once, in byte order of names, with the hash of its content. */
  ghost predicate ListsMembers(sha: string -> Digest, members: Members, listed: seq<(string, string)>) {
    && (forall i, j | 0 <= i < j < |listed| :: InByteOrder(listed[i].0, listed[j].0) && listed[i].0 != listed[j].0)
    && (forall i | 0 <= i < |listed| :: listed[i].0 in members && listed[i].0 != "SIGNATURE" && listed[i].1 == sha(members[listed[i].0]))
    && (forall n | n in members && n != "SIGNATURE" :: exists i | 0 <= i < |listed| :: listed[i].0 == n)
  }

  lemma ListingLists(sha: string -> Digest, members: Members)
    ensures ListsMembers(sha, members, NamesAndHashes(sha, Listed(members - {SIGNATURE})))
  {
    hide InByteOrder, Listed;
    var covered := members - {SIGNATURE};
    var es := Listed(covered);
    ListedIs(covered);
    ListedNames(covered);
    ListedInOrder(covered);
    forall n | n in members && n != SIGNATURE ensures HasName(es, n) {
      assert n in covered.Keys;
      NameStands(es, n);
    }
    forall i, j | 0 <= i < j < |es| ensures InByteOrder(es[i].name, es[j].name) && es[i].name != es[j].name {
      ByteOrderMeans(es[i].name, es[j].name);
    }
    ListsBy(sha, members, es);
  }

  ghost predicate HasName(es: seq<Entry>, n: string) {
    exists i | 0 <= i < |es| :: es[i].name == n
  }

  lemma NameStands(es: seq<Entry>, n: string)
    requires n in Names(es)
    ensures HasName(es, n)
  {}

  lemma ListsBy(sha: string -> Digest, members: Members, es: seq<Entry>)
    requires forall i, j | 0 <= i < j < |es| :: InByteOrder(es[i].name, es[j].name) && es[i].name != es[j].name
    requires forall i | 0 <= i < |es| :: es[i].name in members - {SIGNATURE} && es[i].data == members[es[i].name]
    requires forall n | n in members && n != SIGNATURE :: HasName(es, n)
    ensures ListsMembers(sha, members, NamesAndHashes(sha, es))
  {
    hide InByteOrder;
    var listed := NamesAndHashes(sha, es);
    forall n | n in members && n != SIGNATURE ensures exists i | 0 <= i < |listed| :: listed[i].0 == n {
      assert HasName(es, n);
      var i :| 0 <= i < |es| && es[i].name == n;
      assert listed[i].0 == n;
    }
  }

  lemma ListedInOrder(members: Members)
    ensures forall i, j | 0 <= i < j < |Listed(members)| :: Sorting.StringLeq(Listed(members)[i].name, Listed(members)[j].name)
  {
    SortedNamesOf(members.Keys);
  }

  /** The payload hash is that of a stream that lists the members; there is none exactly when a name is unsafe. */
  lemma HashMeans(sha: string -> Digest, members: Members) returns (stream: string, listed: seq<(string, string)>)
    requires forall n | n in members :: Fits(n)
    ensures PayloadHash(sha, members) ==
      if forall n | n in members && n != "SIGNATURE" :: IsSafe(n) then Some(sha(stream)) else None
    ensures ReadStream(stream) == Some(listed) && ListsMembers(sha, members, listed)
  {
    hide Stream, Fits, NameError, IsSafe, ListsMembers;
    var es := Listed(members - {SIGNATURE});
    stream, listed := Stream(sha, es), NamesAndHashes(sha, es);
    forall n | n in members && n != SIGNATURE ensures NameError(n).None? <==> IsSafe(n) {
      NameErrorMeans(n);
    }
    ListedIs(members - {SIGNATURE});
    StreamReads(sha, es);
    ListingLists(sha, members);
  }

  /** Signing succeeds exactly on a 64-byte key and an archive that can be read. */
  lemma SignMeans(c: Crypto, files: seq<Entry>, key: string, signedAt: string, id: string)
    ensures Sign(c, files, key, signedAt, id).Ok? <==> |key| == 64 && Collect(files).Ok?
  {
    hide Collect, NameError, Rewrite;
    if Collect(files).Ok? {
      CollectedIsRead(files);
    }
  }

  // ---- What verification means

  /** The key is on the caller's lists, where there are any. */
  predicate OnLists(opts: Options, pub: string, keyId: string) {
    && (opts.trustedKeys != [] ==> pub in opts.trustedKeys)
    && (opts.trustedKeyIds != [] ==> keyId in opts.trustedKeyIds)
  }

  /** The document is one of this scheme for these members, signed by the key that it names. */
  ghost predicate Authentic(c: Crypto, members: Members, raw: string, opts: Options, info: Info) {
    && c.decode(raw) == Some(info.doc)
    && info.doc.scheme == "trajir-pkg-sig-v1" && info.doc.payloadAlg == "trajir-pkg-payload-v1" && info.doc.alg == "ed25519"
    && PayloadHash(c.sha, members) == Some(info.payloadHash)
    && ToLower(Trim(info.doc.payloadHash)) == Hex(info.payloadHash)
    && c.unb64(info.doc.publicKey) == Some(info.publicKey) && |info.publicKey| == 32
    && (var s := c.unb64(info.doc.signature);
        s.Some? && |s.value| == 64
        && c.verify(info.publicKey, c.sha("trajir-pkg-sig-v1" + "\0" + info.payloadHash), s.value))
    && info.keyId == Hex(c.sha(info.publicKey))[..16] && (info.doc.keyId == "" || info.doc.keyId == info.keyId)
    && OnLists(opts, info.publicKey, info.keyId)
  }

  lemma DocumentIsAuthentic(c: Crypto, members: Members, raw: string, opts: Options, info: Info)
    ensures VerifySignatureBytes(c, members, raw, opts) == Ok(info) <==> Authentic(c, members, raw, opts, info)
  {
    hide PayloadHash, Trim, ToLower, Hex;
  }

  /**
   * Verification reports a signer exactly when the archive can be read, has a SIGNATURE, and the
   * document is authentic for the members that were read; it reports none exactly when there is no
   * SIGNATURE and none was required.
   */
  lemma VerifyMeans(c: Crypto, files: seq<Entry>, opts: Options, info: Info)
    ensures Verify(c, files, opts) == Ok(Some(info)) <==>
      && Collect(files).Ok? && Collect(files).value.signature.Some?
      && Authentic(c, Collect(files).value.members, Collect(files).value.signature.value, opts, info)
    ensures Verify(c, files, opts) == Ok(None) <==>
      Collect(files).Ok? && Collect(files).value.signature.None? && !opts.requireSignature
  {
    hide Collect, VerifySignatureBytes, Authentic;
    if Collect(files).Ok? && Collect(files).value.signature.Some? {
      DocumentIsAuthentic(c, Collect(files).value.members, Collect(files).value.signature.value, opts, info);
    }
  }
}
