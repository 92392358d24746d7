/** The text formats and rules that identities rest on, each said in a second way. */
module Formats {
  import opened Base
  import opened Text
  import opened Nodes
  import Cas
  import LogRefinement
  import LogTable
  import MemoKeys
  import Sorting
  import P = Protocol

  // ---- Numbers

  /** Dropping the fraction goes towards zero. */
  lemma TruncateMeans(x: real)
    ensures x >= 0.0 ==> Truncate(x) as real <= x < Truncate(x) as real + 1.0
    ensures x <= 0.0 ==> Truncate(x) as real - 1.0 < x <= Truncate(x) as real
  {}

  /** Decimal text has no leading zero. */
  lemma {:induction false} NoLeadingZero(n: nat)
    ensures Decimal(n)[0] == '0' ==> Decimal(n) == "0"
    ensures Decimal(n) == "0" ==> n == 0
  {
    if n >= 10 {
      NoLeadingZero(n / 10);
      assert Decimal(n)[0] == Decimal(n / 10)[0];
      assert |Decimal(n)| > 1;
    }
  }

  // ---- Byte order

  /** The texts agree up to a place where the first has the smaller byte, or ends. */
  ghost predicate InByteOrder(s: string, t: string) {
    s <= t || exists i | 0 <= i < |s| && i < |t| :: s[..i] == t[..i] && s[i] < t[i]
  }

  lemma {:induction false} ByteOrderMeans(s: string, t: string)
    ensures Sorting.StringLeq(s, t) <==> InByteOrder(s, t)
  {
    if s != [] && t != [] {
      if s[0] == t[0] {
        ByteOrderMeans(s[1..], t[1..]);
        ByteOrderCons(s, t);
      } else if s[0] < t[0] {
        assert s[..0] == t[..0];
      }
    }
  }

  lemma ByteOrderCons(s: string, t: string)
    requires s != [] && t != [] && s[0] == t[0]
    ensures InByteOrder(s, t) <==> InByteOrder(s[1..], t[1..])
  {
    hide InByteOrder;
    if InByteOrder(s[1..], t[1..]) {
      ByteOrderUp(s, t);
    }
    if InByteOrder(s, t) {
      ByteOrderDown(s, t);
    }
  }

  lemma ByteOrderUp(s: string, t: string)
    requires s != [] && t != [] && s[0] == t[0] && InByteOrder(s[1..], t[1..])
    ensures InByteOrder(s, t)
  {
    var u, v := s[1..], t[1..];
    assert s == [s[0]] + u && t == [t[0]] + v;
    if i :| 0 <= i < |u| && i < |v| && u[..i] == v[..i] && u[i] < v[i] {
      assert s[..i + 1] == [s[0]] + u[..i] && t[..i + 1] == [t[0]] + v[..i];
      assert s[i + 1] == u[i] && t[i + 1] == v[i];
    }
  }

  lemma ByteOrderDown(s: string, t: string)
    requires s != [] && t != [] && s[0] == t[0] && InByteOrder(s, t)
    ensures InByteOrder(s[1..], t[1..])
  {
    var u, v := s[1..], t[1..];
    if !(s <= t) {
      var i :| 0 <= i < |s| && i < |t| && s[..i] == t[..i] && s[i] < t[i];
      assert u[..i - 1] == s[..i][1..] && v[..i - 1] == t[..i][1..];
      assert u[i - 1] == s[i] && v[i - 1] == t[i];
    }
  }

  // ---- Hexadecimal

  function NibbleValue(c: char): nat
    requires '0' <= c <= '9' || 'a' <= c <= 'f'
  {
    if c <= '9' then c as nat - '0' as nat else c as nat - 'a' as nat + 10
  }

  /** Reads pairs of digits, the high half first. */
  function FromHex(h: string): string
    requires IsHex(h)
  {
    if |h| < 2 then []
    else
      assert IsHex(h[2..]) by { assert forall i | 0 <= i < |h[2..]| :: h[2..][i] == h[i + 2]; }
      [(16 * NibbleValue(h[0]) + NibbleValue(h[1])) as char] + FromHex(h[2..])
  }

  lemma NibbleReads(d: nat)
    requires d < 16
    ensures NibbleValue(Nibble(d)) == d
  {}

  lemma FromHexCons(b: nat, h: string)
    requires b < 256 && IsHex(h)
    ensures IsHex([Nibble(b / 16), Nibble(b % 16)] + h)
    ensures FromHex([Nibble(b / 16), Nibble(b % 16)] + h) == [b as char] + FromHex(h)
  {
    hide Nibble, NibbleValue;
    NibbleReads(b / 16);
    NibbleReads(b % 16);
    var all := [Nibble(b / 16), Nibble(b % 16)] + h;
    assert all[2..] == h && forall i | 2 <= i < |all| :: all[i] == h[i - 2];
  }

  lemma {:induction false} HexReads(s: string)
    requires IsBytes(s)
    ensures FromHex(Hex(s)) == s
  {
    hide FromHex, Nibble;
    if s == [] {
      assert FromHex("") == "" by { NoDigits(); }
    } else {
      var b := s[0] as nat;
      HexReads(s[1..]);
      FromHexCons(b, Hex(s[1..]));
      assert s == [s[0]] + s[1..];
    }
  }

  lemma NoDigits()
    ensures FromHex("") == ""
  {}

  // ---- UTF-8

  predicate IsScalar(c: int) {
    0 <= c <= 0x10FFFF && !(0xD800 <= c <= 0xDFFF)
  }

  function EncodeScalar(c: int): (s: string)
    requires IsScalar(c)
    ensures s != []
  {
    if c < 0x80 then [c as char]
    else if c < 0x800 then [(0xC0 + c / 64) as char, (0x80 + c % 64) as char]
    else if c < 0x10000 then [(0xE0 + c / 4096) as char, (0x80 + c / 64 % 64) as char, (0x80 + c % 64) as char]
    else [(0xF0 + c / 262144) as char, (0x80 + c / 4096 % 64) as char, (0x80 + c / 64 % 64) as char, (0x80 + c % 64) as char]
  }

  function EncodeAll(cs: seq<int>): string
    requires forall i | 0 <= i < |cs| :: IsScalar(cs[i])
  {
    if cs == [] then [] else EncodeScalar(cs[0]) + EncodeAll(cs[1..])
  }

  function DecodeFirst(s: string): int
    requires s != [] && RuneLength(s) > 0
  {
    var n := RuneLength(s);
    if n == 1 then s[0] as int
    else if n == 2 then (s[0] as int - 0xC0) * 64 + (s[1] as int - 0x80)
    else if n == 3 then (s[0] as int - 0xE0) * 4096 + (s[1] as int - 0x80) * 64 + (s[2] as int - 0x80)
    else (s[0] as int - 0xF0) * 262144 + (s[1] as int - 0x80) * 4096 + (s[2] as int - 0x80) * 64 + (s[3] as int - 0x80)
  }

  lemma RuneBytes(s: string)
    requires s != [] && RuneLength(s) > 0
    ensures RuneLength(s) >= 3 ==> Between(s, 2, 0x80, 0xBF)
    ensures RuneLength(s) >= 4 ==> Between(s, 3, 0x80, 0xBF)
    ensures RuneLength(s) <= 4
  {}

  lemma TwoDigits(a: nat, b: nat)
    requires b < 64
    ensures (64 * a + b) / 64 == a && (64 * a + b) % 64 == b
  {}

  lemma FirstDecodes2(s: string)
    requires s != [] && RuneLength(s) == 2
    ensures IsScalar(DecodeFirst(s)) && EncodeScalar(DecodeFirst(s)) == s[..2]
  {
    TwoDigits(s[0] as nat - 0xC0, s[1] as nat - 0x80);
  }

  lemma FirstDecodes3(s: string)
    requires s != [] && RuneLength(s) == 3
    ensures IsScalar(DecodeFirst(s)) && EncodeScalar(DecodeFirst(s)) == s[..3]
  {
    RuneBytes(s);
    var a, b, d := s[0] as nat - 0xE0, s[1] as nat - 0x80, s[2] as nat - 0x80;
    var v := DecodeFirst(s);
    assert v == 64 * (64 * a + b) + d;
    TwoDigits(64 * a + b, d);
    TwoDigits(a, b);
    DivTwice(v);
    assert 0x800 <= v < 0x10000 && !(0xD800 <= v <= 0xDFFF);
    assert EncodeScalar(v) == [s[0], s[1], s[2]];
  }

  lemma DivTwice(v: nat)
    ensures v / 4096 == v / 64 / 64 && v / 262144 == v / 64 / 64 / 64
  {}

  lemma FirstDecodes4(s: string)
    requires s != [] && RuneLength(s) == 4
    ensures IsScalar(DecodeFirst(s)) && EncodeScalar(DecodeFirst(s)) == s[..4]
  {
    RuneBytes(s);
    var a, b, d, e := s[0] as nat - 0xF0, s[1] as nat - 0x80, s[2] as nat - 0x80, s[3] as nat - 0x80;
    var v := DecodeFirst(s);
    assert v == 64 * (64 * (64 * a + b) + d) + e;
    TwoDigits(64 * (64 * a + b) + d, e);
    TwoDigits(64 * a + b, d);
    TwoDigits(a, b);
    DivTwice(v);
    assert 0x10000 <= v <= 0x10FFFF;
    assert EncodeScalar(v) == [s[0], s[1], s[2], s[3]];
  }

  lemma FirstDecodes(s: string)
    requires s != [] && RuneLength(s) > 0
    ensures IsScalar(DecodeFirst(s)) && EncodeScalar(DecodeFirst(s)) == s[..RuneLength(s)]
  {
    RuneBytes(s);
    if RuneLength(s) == 1 {
      assert EncodeScalar(DecodeFirst(s)) == [s[0]];
    } else {
      hide RuneLength, DecodeFirst, EncodeScalar, IsScalar;
      if RuneLength(s) == 2 {
        FirstDecodes2(s);
      } else if RuneLength(s) == 3 {
        FirstDecodes3(s);
      } else {
        FirstDecodes4(s);
      }
    }
  }

  lemma FirstEncodes(c: int, rest: string)
    requires IsScalar(c)
    ensures RuneLength(EncodeScalar(c) + rest) == |EncodeScalar(c)|
  {
    var e := EncodeScalar(c);
    var s := e + rest;
    assert forall i | 0 <= i < |e| :: s[i] == e[i];
    if |e| >= 3 {
      assert Between(s, 2, 0x80, 0xBF);
    }
    if |e| >= 4 {
      assert Between(s, 3, 0x80, 0xBF);
    }
  }

  lemma {:induction false} EncodedIsValid(cs: seq<int>)
    requires forall i | 0 <= i < |cs| :: IsScalar(cs[i])
    ensures ValidUtf8(EncodeAll(cs))
  {
    hide EncodeScalar, RuneLength;
    if cs != [] {
      var e, rest := EncodeScalar(cs[0]), EncodeAll(cs[1..]);
      EncodedIsValid(cs[1..]);
      FirstEncodes(cs[0], rest);
      assert (e + rest)[|e|..] == rest;
    }
  }

  lemma {:induction false} ValidIsEncoded(s: string) returns (cs: seq<int>)
    requires ValidUtf8(s)
    ensures (forall i | 0 <= i < |cs| :: IsScalar(cs[i])) && EncodeAll(cs) == s
    decreases |s|
  {
    hide EncodeScalar, RuneLength, DecodeFirst, IsScalar;
    if s == [] {
      cs := [];
    } else {
      var n := RuneLength(s);
      var rest := ValidIsEncoded(s[n..]);
      FirstDecodes(s);
      cs := [DecodeFirst(s)] + rest;
      assert cs[1..] == rest && s == s[..n] + s[n..];
    }
  }

  /** The bytes encode some Unicode scalar values. */
  ghost predicate IsUtf8(s: string) {
    exists cs: seq<int> :: (forall i | 0 <= i < |cs| :: IsScalar(cs[i])) && EncodeAll(cs) == s
  }

  lemma Utf8Means(s: string)
    ensures ValidUtf8(s) <==> IsUtf8(s)
  {
    if ValidUtf8(s) {
      var cs := ValidIsEncoded(s);
    }
    if cs: seq<int> :| (forall i | 0 <= i < |cs| :: IsScalar(cs[i])) && EncodeAll(cs) == s {
      EncodedIsValid(cs);
    }
  }

  // ---- Nodes

  /** Not empty, at most 512 bytes, UTF-8, and free of the delimiter, line ends and NUL. */
  ghost predicate LegalId(s: string) {
    && 0 < |s| <= 512 && IsUtf8(s)
    && forall i | 0 <= i < |s| :: s[i] != '|' && s[i] != '\n' && s[i] != '\r' && s[i] as int != 0
  }

  lemma ValidIdMeans(s: string)
    ensures ValidId(s) <==> LegalId(s)
  {
    Utf8Means(s);
    hide ValidUtf8, IsUtf8;
    assert "|\n\r\0"[0] == '|' && "|\n\r\0"[1] == '\n' && "|\n\r\0"[2] == '\r' && "|\n\r\0"[3] as int == 0;
    assert (forall c | c in s :: c !in "|\n\r\0") <==> forall i | 0 <= i < |s| :: s[i] !in "|\n\r\0";
  }

  /** A node is refused exactly for its kind, one of its two ids, or a wall clock in its payload. */
  lemma ValidNodeMeans(n: Node)
    ensures ValidNode(n) <==>
      && n.kind in NODE_KINDS && LegalId(n.tenant) && LegalId(n.trajectory) && forall k | k in n.payload :: k != "ts"
  {
    hide ValidId, LegalId;
    ValidIdMeans(n.tenant);
    ValidIdMeans(n.trajectory);
  }

  /** The id preimage, spelled out for numbered steps and for no step. */
  lemma PreimageSpelled(h: string)
    ensures Preimage("t", "j", Some(12), 3, "INPUT", h) == "t|j|" + "12" + "|3|INPUT|" + h
    ensures Preimage("t", "j", Some(-1), 3, "INPUT", h) == "t|j|" + "-1" + "|3|INPUT|" + h
    ensures Preimage("t", "j", None, 3, "INPUT", h) == "t|j|" + "None" + "|3|INPUT|" + h
  {
    StepsSpelled();
    hide StepText, Preimage;
    SpelledWith(Some(12), "12", h);
    SpelledWith(Some(-1), "-1", h);
    SpelledWith(None, "None", h);
  }

  lemma StepsSpelled()
    ensures StepText(Some(12)) == "12" && StepText(Some(-1)) == "-1" && StepText(None) == "None"
  {
    assert Decimal(12) == "12" && Decimal(1) == "1";
  }

  lemma SpelledWith(step: Option<int>, text: string, h: string)
    requires StepText(step) == text
    ensures Preimage("t", "j", step, 3, "INPUT", h) == "t|j|" + text + "|3|INPUT|" + h
  {
    hide StepText;
    assert Itoa(3) == "3" by { assert Decimal(3) == "3"; }
    Spelled(text, h);
  }

  lemma Spelled(step: string, h: string)
    ensures "t" + "|" + ("j" + "|" + (step + "|" + ("3" + "|" + ("INPUT" + "|" + h)))) == "t|j|" + step + "|3|INPUT|" + h
  {}

  lemma KeysSpelled()
    ensures MemoKeys.KeyText(P.InferKey(7)) == "infer:step7" && MemoKeys.KeyText(P.ToolKey("pay", 2)) == "tool:pay@2"
    ensures MemoKeys.MemKey("w", P.InferKey(7)) == "w" + "\0" + "infer:step7" && MemoKeys.StepScope("w", 7) == "w-step7"
  {
    assert Decimal(7) == "7" && Decimal(2) == "2";
  }

  /** Two nodes share a slot exactly when they agree on these; no step and step -1 are one. */
  lemma SlotsMean(m: Node, n: Node)
    ensures LogTable.SlotOf(m) == LogTable.SlotOf(n) <==>
      && m.tenant == n.tenant && m.trajectory == n.trajectory && m.pos == n.pos && m.kind == n.kind
      && (m.step == n.step || (m.step in {None, Some(-1)} && n.step in {None, Some(-1)}))
  {}

  /** The nodes that a step writes, member by member. */
  lemma NodesSpelled(sid: P.StepId, pos: nat, m: Object, name: string, v: Json)
    ensures LogRefinement.ToNode(P.Slot(sid, 0, P.ProjectContext), P.PContext(m))
         == Node("PROJECT_CONTEXT", sid.trajectory, sid.tenant, Some(sid.step), 0, m)
    ensures LogRefinement.ToNode(P.Slot(sid, 1, P.Decision), P.PPlan(m))
         == Node("DECISION", sid.trajectory, sid.tenant, Some(sid.step), 1, map["plan" := Obj(m)])
    ensures LogRefinement.ToNode(P.Slot(sid, pos, P.ToolCall), P.PCall(P.Call(name, m)))
         == Node("TOOL_CALL", sid.trajectory, sid.tenant, Some(sid.step), pos, map["tool" := Str(name), "args" := Obj(m)])
    ensures LogRefinement.ToNode(P.Slot(sid, pos, P.ToolResult), P.PResult(v))
         == Node("TOOL_RESULT", sid.trajectory, sid.tenant, Some(sid.step), pos, map["result" := v])
    ensures LogRefinement.ToNode(P.Slot(sid, pos, P.Abort), P.PAbort(name))
         == Node("ABORT", sid.trajectory, sid.tenant, Some(sid.step), pos, map["reason" := Str("BLOCKED_NEEDS_GATE"), "tool" := Str(name)])
    ensures LogRefinement.ToNode(P.Slot(sid, pos, P.CommitStep), P.PCommit)
         == Node("COMMIT_STEP", sid.trajectory, sid.tenant, Some(sid.step), pos, map[])
  {}

  // ---- Content hashes

  /** White space, 64 hexadecimal digits in either case, white space; the digits spell h. */
  ghost predicate Spells(s: string, a: nat, h: string) {
    && a + 64 <= |s| && |h| == 64
    && (forall i | 0 <= i < a || a + 64 <= i < |s| :: s[i] == ' ' || '\t' <= s[i] <= '\r')
    && forall i | 0 <= i < 64 ::
         ('0' <= h[i] <= '9' && s[a + i] == h[i])
         || ('a' <= h[i] <= 'f' && (s[a + i] == h[i] || s[a + i] as int == h[i] as int - 32))
  }

  lemma {:induction false} TrimLeftCuts(s: string) returns (a: nat)
    ensures a <= |s| && TrimLeft(s) == s[a..] && forall i | 0 <= i < a :: IsSpace(s[i])
  {
    a := 0;
    if s != [] && IsSpace(s[0]) {
      var b := TrimLeftCuts(s[1..]);
      a := b + 1;
      assert forall i | 1 <= i < a :: s[i] == s[1..][i - 1];
    }
  }

  lemma {:induction false} TrimRightCuts(s: string) returns (b: nat)
    ensures b <= |s| && TrimRight(s) == s[..b] && forall i | b <= i < |s| :: IsSpace(s[i])
  {
    b := |s|;
    if s != [] && IsSpace(s[|s| - 1]) {
      b := TrimRightCuts(s[..|s| - 1]);
      assert forall i | b <= i < |s| - 1 :: s[i] == s[..|s| - 1][i];
    }
  }

  /** Where the trimmed text lies. */
  lemma TrimCuts(s: string) returns (a: nat)
    ensures a + |Trim(s)| <= |s| && Trim(s) == s[a..a + |Trim(s)|]
    ensures forall i | 0 <= i < a || a + |Trim(s)| <= i < |s| :: IsSpace(s[i])
  {
    a := TrimLeftCuts(s);
    var b := TrimRightCuts(s[a..]);
    assert s[a..][..b] == s[a..a + b];
    assert forall i | a + b <= i < |s| :: s[i] == s[a..][i - a];
  }

  lemma TrimOf(s: string, a: nat, n: nat)
    requires 0 < n && a + n <= |s| && !IsSpace(s[a]) && !IsSpace(s[a + n - 1])
    requires forall i | 0 <= i < a || a + n <= i < |s| :: IsSpace(s[i])
    ensures Trim(s) == s[a..a + n]
  {
    var b := TrimCuts(s);
    var m := |Trim(s)|;
    TrimEnds(s);
    assert m > 0 ==> s[b] == Trim(s)[0] && s[b + m - 1] == Trim(s)[m - 1];
    assert b <= a && a + n <= b + m;
    assert b == a && m == n;
  }

  lemma TrimEnds(s: string)
    ensures Trim(s) != "" ==> !IsSpace(Trim(s)[0]) && !IsSpace(Trim(s)[|Trim(s)| - 1])
  {
    var l := TrimLeft(s);
    var b := TrimRightCuts(l);
    assert Trim(s) == l[..b];
  }

  /** A hash is accepted exactly in these spellings, and means the one it spells. */
  lemma NormalizeMeans(s: string, h: string)
    ensures Cas.NormalizeHash(s) == Some(h) <==> exists a: nat :: Spells(s, a, h)
  {
    if Cas.NormalizeHash(s) == Some(h) {
      var a := TrimCuts(s);
      var t := Trim(s);
      assert |t| == 64 && forall i | 0 <= i < 64 :: s[a + i] == t[i] && h[i] == Lower(t[i]);
      assert Spells(s, a, h);
    }
    if a: nat :| Spells(s, a, h) {
      var first, last := h[0], h[63];
      assert !IsSpace(s[a]) && !IsSpace(s[a + 63]);
      TrimOf(s, a, 64);
      assert forall i | 0 <= i < 64 :: Trim(s)[i] == s[a + i];
      assert ToLower(Trim(s)) == h;
    }
  }
}
