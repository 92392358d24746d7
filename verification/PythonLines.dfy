/** The Python line splitting over bytes, related to splitting the decoded text. */
module PythonLines {
  import opened Base
  import opened Formats
  import opened Package
  import Archive
  import opened PyPackage

  /** The characters at which Python ends a line. A carriage return and newline in a row end two, the second one blank. */
  predicate EndsLine(c: int) {
    c in {0x0A, 0x0B, 0x0C, 0x0D, 0x1C, 0x1D, 0x1E, 0x85, 0x2028, 0x2029}
  }

  predicate AllScalars(cs: seq<int>) {
    forall i | 0 <= i < |cs| :: IsScalar(cs[i])
  }

  /** The text as bytes. */
  function Encode(cs: seq<int>): string
    requires AllScalars(cs)
  {
    EncodeAll(cs)
  }

  /** The lines of decoded text. */
  function TextLinesOf(cs: seq<int>): (lines: seq<seq<int>>)
    requires AllScalars(cs)
    ensures |lines| > 0 && forall i | 0 <= i < |lines| :: AllScalars(lines[i])
  {
    if cs == [] then [[]]
    else
      var rest := TextLinesOf(cs[1..]);
      if EndsLine(cs[0]) then [[]] + rest else [[cs[0]] + rest[0]] + rest[1..]
  }

  function Encoded(lines: seq<seq<int>>): (r: seq<string>)
    requires forall i | 0 <= i < |lines| :: AllScalars(lines[i])
    ensures |r| == |lines| && forall i | 0 <= i < |r| :: r[i] == Encode(lines[i])
  {
    seq(|lines|, i requires 0 <= i < |lines| => Encode(lines[i]))
  }

  lemma BreakMeans(c: int, rest: string)
    requires IsScalar(c)
    ensures BreakLength(EncodeScalar(c) + rest) == if EndsLine(c) then |EncodeScalar(c)| else 0
  {
    var e := EncodeScalar(c);
    var s := e + rest;
    assert forall i | 0 <= i < |e| :: s[i] == e[i];
    if 0x800 <= c < 0x10000 && e[0] as int == 0xE2 && e[1] as int == 0x80 {
      assert c / 4096 == 2 && c / 64 % 64 == 0;
    }
  }

  /** No line ends inside a character. */
  lemma InsideCharacter(c: int, rest: string, k: nat)
    requires IsScalar(c) && 0 < k < |EncodeScalar(c)|
    ensures BreakLength(EncodeScalar(c)[k..] + rest) == 0
  {
    var s := EncodeScalar(c)[k..] + rest;
    assert s[0] == EncodeScalar(c)[k] && s[0] as int >= 0x80 && s[0] as int < 0xC0;
  }

  lemma {:induction false} BreakIsLater(e: string, rest: string)
    requires forall k | 0 <= k < |e| :: BreakLength(e[k..] + rest) == 0
    ensures BreakAt(e + rest) == |e| + BreakAt(rest)
  {
    if e == [] {
      assert e + rest == rest;
    } else {
      assert e[0..] == e && (e + rest)[1..] == e[1..] + rest;
      assert forall k | 0 <= k < |e[1..]| :: e[1..][k..] == e[k + 1..];
      BreakIsLater(e[1..], rest);
    }
  }

  lemma OneCharacter(e: string, rest: string)
    requires BreakAt(e + rest) == |e| + BreakAt(rest)
    ensures PyLines(rest) != [] && PyLines(e + rest) == [e + PyLines(rest)[0]] + PyLines(rest)[1..]
  {
    hide PyLines, BreakAt, BreakLength;
    var i := BreakAt(rest);
    var s := e + rest;
    LinesStep(rest);
    LinesStep(s);
    assert s[..|e| + i] == e + rest[..i] && s[|e| + i..] == rest[i..];
  }

  lemma LinesStep(s: string)
    ensures PyLines(s) ==
      [s[..BreakAt(s)]] + if BreakAt(s) == |s| then [] else PyLines(s[BreakAt(s)..][BreakLength(s[BreakAt(s)..])..])
  {
    hide BreakAt, BreakLength;
    assert s[..|s|] == s;
  }

  lemma OneBreak(e: string, rest: string)
    requires e != [] && BreakLength(e + rest) == |e|
    ensures PyLines(e + rest) == [""] + PyLines(rest)
  {
    var s := e + rest;
    assert BreakAt(s) == 0 && s[..0] == [] && s[0..] == s && s[|e|..] == rest;
  }

  /** Splitting the bytes is splitting the text that they encode. */
  lemma {:induction false} LinesOfText(cs: seq<int>)
    requires AllScalars(cs)
    ensures PyLines(Encode(cs)) == Encoded(TextLinesOf(cs))
  {
    hide EncodeScalar, BreakLength, EndsLine, IsScalar, PyLines, BreakAt;
    if cs == [] {
      NoText();
    } else {
      var c, tail := cs[0], cs[1..];
      assert IsScalar(c);
      var e, rest := EncodeScalar(c), Encode(tail);
      LinesOfText(tail);
      BreakMeans(c, rest);
      if EndsLine(c) {
        OneBreak(e, rest);
        assert Encoded(TextLinesOf(cs)) == [""] + Encoded(TextLinesOf(tail));
      } else {
        forall k | 0 <= k < |e| ensures BreakLength(e[k..] + rest) == 0 {
          if k == 0 { assert e[0..] == e; } else { InsideCharacter(c, rest, k); }
        }
        BreakIsLater(e, rest);
        OneCharacter(e, rest);
        var first := TextLinesOf(tail)[0];
        assert ([c] + first)[1..] == first;
        assert Encode([c] + first) == e + Encode(first);
        assert Encoded(TextLinesOf(cs)) == [e + Encode(first)] + Encoded(TextLinesOf(tail))[1..];
      }
    }
  }

  lemma NoText()
    ensures PyLines("") == [""] && Encoded(TextLinesOf([])) == [""]
  {
    assert Encoded(TextLinesOf([]))[0] == Encode([]);
  }

  // ---- Records

  /** The lines that have text in them, stripped. */
  function StrippedTexts(lines: seq<string>): seq<string> {
    if lines == [] then [] else (if Strip(lines[0]) == "" then [] else [Strip(lines[0])]) + StrippedTexts(lines[1..])
  }

  /** The values continue what was read so far: one for each text, parsed from it. */
  predicate PyContinue(t: JsonText, texts: seq<string>, sofar: seq<Json>, r: seq<Json>) {
    && |r| == |sofar| + |texts| && sofar <= r
    && forall i | 0 <= i < |texts| :: t.parse(texts[i]) == Some(r[|sofar| + i])
  }

  lemma PyOneMore(t: JsonText, line: string, texts: seq<string>, sofar: seq<Json>, r: seq<Json>)
    ensures PyContinue(t, [line] + texts, sofar, r) <==>
      t.parse(line).Some? && PyContinue(t, texts, sofar + [t.parse(line).value], r)
    ensures PyContinue(t, [line] + texts, sofar, r) ==> |sofar| < |r|
  {
    var all := [line] + texts;
    assert all[0] == line && forall i | 0 <= i < |texts| :: all[i + 1] == texts[i];
    if PyContinue(t, all, sofar, r) {
      assert t.parse(all[0]) == Some(r[|sofar| + 0]);
      assert r[..|sofar| + 1] == sofar + [r[|sofar|]];
      forall i | 0 <= i < |texts| ensures t.parse(texts[i]) == Some(r[|sofar| + 1 + i]) {
        assert t.parse(all[i + 1]) == Some(r[|sofar| + (i + 1)]);
      }
    }
    if t.parse(line).Some? && PyContinue(t, texts, sofar + [t.parse(line).value], r) {
      var next := sofar + [t.parse(line).value];
      assert next <= r && next[|sofar|] == r[|sofar|];
      forall i | 0 <= i < |all| ensures t.parse(all[i]) == Some(r[|sofar| + i]) {
        if i > 0 { assert all[i] == texts[i - 1]; }
      }
    }
  }

  lemma PyNoTexts(t: JsonText, sofar: seq<Json>, r: seq<Json>)
    ensures PyContinue(t, [], sofar, r) <==> r == sofar
  {}

  /** Python's records are the lines that have text, each parsed, in order; and they are not too many. */
  lemma {:induction false} PyNodesAreTheLines(t: JsonText, lines: seq<string>, sofar: seq<Json>, r: seq<Json>)
    requires |sofar| <= MAX_NODES
    ensures PyNodes(t, lines, sofar) == Archive.Ok(r) <==> |r| <= 100_000 && PyContinue(t, StrippedTexts(lines), sofar, r)
  {
    hide Strip, PyContinue;
    if lines == [] {
      PyNoTexts(t, sofar, r);
    } else {
      var line := Strip(lines[0]);
      if line == "" {
        assert StrippedTexts(lines) == StrippedTexts(lines[1..]);
        PyNodesAreTheLines(t, lines[1..], sofar, r);
      } else {
        assert StrippedTexts(lines) == [line] + StrippedTexts(lines[1..]);
        PyOneMore(t, line, StrippedTexts(lines[1..]), sofar, r);
        if t.parse(line).Some? && |sofar| < MAX_NODES {
          PyNodesAreTheLines(t, lines[1..], sofar + [t.parse(line).value], r);
        }
      }
    }
  }

  /** Python's white space among the ASCII characters. */
  predicate IsBlank(c: char) {
    c as int in {9, 10, 11, 12, 13, 28, 29, 30, 31, 32}
  }

  /** Stripping cuts white space off both ends, and all of it. */
  lemma StripMeans(s: string) returns (a: nat)
    ensures a + |Strip(s)| <= |s| && Strip(s) == s[a..a + |Strip(s)|]
    ensures forall i | 0 <= i < a || a + |Strip(s)| <= i < |s| :: IsBlank(s[i])
    ensures Strip(s) != "" ==> !IsBlank(Strip(s)[0]) && !IsBlank(Strip(s)[|Strip(s)| - 1])
  {
    a := LeftCut(s);
    var l := s[a..];
    var b := RightCut(l);
    assert l[..b] == s[a..a + b];
    assert forall i | a + b <= i < |s| :: s[i] == l[i - a];
  }

  lemma {:induction false} LeftCut(s: string) returns (a: nat)
    ensures a <= |s| && StripLeft(s) == s[a..] && (forall i | 0 <= i < a :: IsBlank(s[i])) && (a < |s| ==> !IsBlank(s[a]))
  {
    a := 0;
    if s != [] && IsPySpace(s[0]) {
      var b := LeftCut(s[1..]);
      a := b + 1;
      assert forall i | 1 <= i < a :: s[i] == s[1..][i - 1];
      assert s[1..][b..] == s[a..];
    }
  }

  lemma {:induction false} RightCut(s: string) returns (b: nat)
    ensures b <= |s| && StripRight(s) == s[..b] && (forall i | b <= i < |s| :: IsBlank(s[i])) && (b > 0 ==> !IsBlank(s[b - 1]))
  {
    b := |s|;
    if s != [] && IsPySpace(s[|s| - 1]) {
      b := RightCut(s[..|s| - 1]);
      assert forall i | b <= i < |s| - 1 :: s[i] == s[..|s| - 1][i];
    }
  }
}
