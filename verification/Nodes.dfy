/** Node identity: which nodes are legal, and what a node id commits to. */
module Nodes {
  import opened Base
  import opened Text

  const NODE_KINDS: set<string> := {
    "INPUT", "CONSTRAINT", "STATE_SET", "PROJECT_CONTEXT", "THOUGHT", "DECISION", "TOOL_CALL", "TOOL_RESULT",
    "ARTIFACT_PUT", "ARTIFACT_REF", "LTM_QUERY", "LTM_HIT", "LTM_PROJECT", "COMMIT_STEP", "ABORT", "REDACTION"
  }

  predicate Between(s: string, i: nat, lo: int, hi: int) {
    i < |s| && lo <= s[i] as int <= hi
  }

  predicate Continues(s: string, n: nat) {
    forall i: nat | 2 <= i < n :: Between(s, i, 0x80, 0xBF)
  }

  /** How many bytes the first character takes, or 0 when they are not well formed. */
  function RuneLength(s: string): (n: nat)
    requires s != []
    ensures n <= |s|
  {
    var b := s[0] as int;
    if b < 0x80 then 1
    else if 0xC2 <= b <= 0xDF && Between(s, 1, 0x80, 0xBF) then 2
    else if 0xE0 <= b <= 0xEF && Between(s, 1, if b == 0xE0 then 0xA0 else 0x80, if b == 0xED then 0x9F else 0xBF) && Continues(s, 3) then
      assert Between(s, 2, 0x80, 0xBF);
      3
    else if 0xF0 <= b <= 0xF4 && Between(s, 1, if b == 0xF0 then 0x90 else 0x80, if b == 0xF4 then 0x8F else 0xBF) && Continues(s, 4) then
      assert Between(s, 3, 0x80, 0xBF);
      4
    else 0
  }

  /** The byte string is well-formed UTF-8: shortest forms, no surrogates, at most U+10FFFF. */
  predicate ValidUtf8(s: string) {
    s == [] || (RuneLength(s) > 0 && ValidUtf8(s[RuneLength(s)..]))
  }

  /** The rule for tenant and trajectory ids. */
  predicate ValidId(s: string) {
    s != [] && ValidUtf8(s) && (forall c | c in s :: c !in "|\n\r\0") && |s| <= 512
  }

  /** RFC 8785 canonicalisation and SHA-256, both library calls. */
  datatype Codec = Codec(canon: Object -> string, sha: string -> Digest)

  datatype Node = Node(kind: string, trajectory: string, tenant: string, step: Option<int>, pos: int, payload: Object)

  /** The construction rules: a known kind, valid ids, and no wall clock in the hashed payload. */
  predicate ValidNode(n: Node) {
    n.kind in NODE_KINDS && ValidId(n.tenant) && ValidId(n.trajectory) && "ts" !in n.payload
  }

  function PayloadHash(c: Codec, payload: Object): (h: string)
    ensures |h| == 64 && IsHex(h)
  {
    Hex(c.sha(c.canon(payload)))
  }

  function StepText(step: Option<int>): string {
    if step.None? then "None" else Itoa(step.value)
  }

  function Preimage(tenant: string, trajectory: string, step: Option<int>, pos: int, kind: string, phash: string): string {
    tenant + "|" + (trajectory + "|" + (StepText(step) + "|" + (Itoa(pos) + "|" + (kind + "|" + phash))))
  }

  function NodePreimage(c: Codec, n: Node): string {
    Preimage(n.tenant, n.trajectory, n.step, n.pos, n.kind, PayloadHash(c, n.payload))
  }

  function NodeId(c: Codec, n: Node): (id: string)
    ensures |id| == 64 && IsHex(id)
  {
    Hex(c.sha(NodePreimage(c, n)))
  }

  lemma StepTextInjective(s: Option<int>, t: Option<int>)
    requires StepText(s) == StepText(t)
    ensures s == t
  {
    assert "None"[0] == 'N';
    if s.Some? && t.Some? {
      ItoaInjective(s.value, t.value);
    }
  }

  /**
   * Different identity tuples never share a preimage. The kind may be any string: everything
   * left of it and the payload hash right of it are free of the delimiter.
   */
  lemma PreimageInjective(
    tenant: string, trajectory: string, step: Option<int>, pos: int, kind: string, phash: string,
    tenant': string, trajectory': string, step': Option<int>, pos': int, kind': string, phash': string)
    requires ValidId(tenant) && ValidId(trajectory) && IsHex(phash)
    requires ValidId(tenant') && ValidId(trajectory') && IsHex(phash')
    requires Preimage(tenant, trajectory, step, pos, kind, phash) == Preimage(tenant', trajectory', step', pos', kind', phash')
    ensures tenant == tenant' && trajectory == trajectory' && step == step' && pos == pos' && kind == kind' && phash == phash'
  {
    assert forall s: string | ValidId(s) :: '|' !in s by { assert '|' in "|\n\r\0"; }
    assert '|' !in "None" && '|' !in StepText(step) && '|' !in StepText(step');
    var tail, tail' := kind + "|" + phash, kind' + "|" + phash';
    var seqs, seqs' := Itoa(pos) + "|" + tail, Itoa(pos') + "|" + tail';
    var steps, steps' := StepText(step) + "|" + seqs, StepText(step') + "|" + seqs';
    SplitFirst(tenant, trajectory + "|" + steps, tenant', trajectory' + "|" + steps', '|');
    SplitFirst(trajectory, steps, trajectory', steps', '|');
    SplitFirst(StepText(step), seqs, StepText(step'), seqs', '|');
    SplitFirst(Itoa(pos), tail, Itoa(pos'), tail', '|');
    SplitLast(kind, phash, kind', phash', '|');
    StepTextInjective(step, step');
    ItoaInjective(pos, pos');
  }

  ghost predicate SameIdentity(c: Codec, m: Node, n: Node) {
    && m.tenant == n.tenant && m.trajectory == n.trajectory && m.step == n.step && m.pos == n.pos && m.kind == n.kind
    && c.canon(m.payload) == c.canon(n.payload)
  }

  /** Equal ids mean equal identity and equal canonical payload, or exhibit a SHA-256 collision. */
  lemma NodeIdCommits(c: Codec, m: Node, n: Node)
    requires ValidId(m.tenant) && ValidId(m.trajectory) && ValidId(n.tenant) && ValidId(n.trajectory)
    requires NodeId(c, m) == NodeId(c, n)
    ensures
      || SameIdentity(c, m, n)
      || Collision(c.sha, NodePreimage(c, m), NodePreimage(c, n))
      || Collision(c.sha, c.canon(m.payload), c.canon(n.payload))
  {
    HexInjective(c.sha(NodePreimage(c, m)), c.sha(NodePreimage(c, n)));
    if NodePreimage(c, m) == NodePreimage(c, n) {
      PreimageInjective(m.tenant, m.trajectory, m.step, m.pos, m.kind, PayloadHash(c, m.payload),
                        n.tenant, n.trajectory, n.step, n.pos, n.kind, PayloadHash(c, n.payload));
      HexInjective(c.sha(c.canon(m.payload)), c.sha(c.canon(n.payload)));
    }
  }
}
