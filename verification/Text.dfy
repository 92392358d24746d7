/**
 * Text encodings that keys and identities are built from. Go strings are byte strings; they
 * are written as Dafny strings here, one character per byte.
 */
module Text {

  predicate IsBytes(s: string) {
    forall i | 0 <= i < |s| :: s[i] as int < 256
  }

  // ---- Decimal numbers

  predicate IsDecimal(s: string) {
    forall i | 0 <= i < |s| :: '0' <= s[i] <= '9'
  }

  function Digit(d: nat): (c: char)
    requires d < 10
    ensures '0' <= c <= '9' && c as int == '0' as int + d
  {
    ('0' as int + d) as char
  }

  function Decimal(n: nat): (s: string)
    ensures s != [] && IsDecimal(s)
  {
    if n < 10 then [Digit(n)] else Decimal(n / 10) + [Digit(n % 10)]
  }

  function Itoa(n: int): (s: string)
    ensures s != [] && (s[0] == '-' || IsDecimal(s))
    ensures forall i | 0 <= i < |s| :: s[i] == '-' || '0' <= s[i] <= '9'
  {
    if n < 0 then "-" + Decimal(-n) else Decimal(n)
  }

  function DecimalValue(s: string): nat
    requires IsDecimal(s)
  {
    if s == [] then 0 else 10 * DecimalValue(s[..|s| - 1]) + (s[|s| - 1] as int - '0' as int)
  }

  lemma {:induction false} DecimalRoundTrip(n: nat)
    ensures DecimalValue(Decimal(n)) == n
  {
    if n >= 10 {
      DecimalRoundTrip(n / 10);
      assert Decimal(n)[..|Decimal(n)| - 1] == Decimal(n / 10);
    } else {
      assert Decimal(n)[..0] == [];
    }
  }

  /** The number that a decimal text with an optional sign stands for. */
  function Atoi(s: string): int
    requires s != [] && (s[0] == '-' || IsDecimal(s))
    requires IsDecimal(s[1..])
  {
    if s[0] == '-' then -(DecimalValue(s[1..]) as int) else DecimalValue(s)
  }

  lemma {:induction false} ItoaRoundTrip(n: int)
    ensures IsDecimal(Itoa(n)[1..]) && Atoi(Itoa(n)) == n
  {
    if n < 0 {
      DecimalRoundTrip(-n);
      assert Itoa(n)[1..] == Decimal(-n);
    } else {
      DecimalRoundTrip(n);
    }
  }

  lemma ItoaInjective(m: int, n: int)
    requires Itoa(m) == Itoa(n)
    ensures m == n
  {
    ItoaRoundTrip(m);
    ItoaRoundTrip(n);
  }

  // ---- Delimiters

  /** The text before the first delimiter, and after it. */
  function CutFirst(s: string, d: char): (r: (string, string)) {
    if s == [] then ([], [])
    else if s[0] == d then ([], s[1..])
    else
      var (a, x) := CutFirst(s[1..], d);
      ([s[0]] + a, x)
  }

  lemma {:induction false} CutFirstParts(a: string, x: string, d: char)
    requires d !in a
    ensures CutFirst(a + [d] + x, d) == (a, x)
  {
    var s := a + [d] + x;
    if a == [] {
      assert s[1..] == x;
    } else {
      assert s[0] == a[0] && a[0] in a;
      assert s[1..] == a[1..] + [d] + x;
      CutFirstParts(a[1..], x, d);
      assert a == [a[0]] + a[1..];
    }
  }

  /** A delimiter that the first parts do not contain marks where they end. */
  lemma SplitFirst(a: string, x: string, b: string, y: string, d: char)
    requires d !in a && d !in b && a + [d] + x == b + [d] + y
    ensures a == b && x == y
  {
    CutFirstParts(a, x, d);
    CutFirstParts(b, y, d);
  }

  /** The text before the last delimiter, and after it. */
  function CutLast(s: string, d: char): (r: (string, string)) {
    if s == [] then ([], [])
    else
      var n := |s| - 1;
      if s[n] == d then (s[..n], [])
      else
        var (a, x) := CutLast(s[..n], d);
        (a, x + [s[n]])
  }

  lemma {:induction false} CutLastParts(a: string, x: string, d: char)
    requires d !in x
    ensures CutLast(a + [d] + x, d) == (a, x)
  {
    var s := a + [d] + x;
    var n := |s| - 1;
    if x == [] {
      assert s[..n] == a;
    } else {
      var m := |x| - 1;
      assert s[n] == x[m] && x[m] in x;
      assert s[..n] == a + [d] + x[..m];
      CutLastParts(a, x[..m], d);
      assert x == x[..m] + [x[m]];
    }
  }

  /** A delimiter that the last parts do not contain marks where they begin. */
  lemma SplitLast(a: string, x: string, b: string, y: string, d: char)
    requires d !in x && d !in y && a + [d] + x == b + [d] + y
    ensures a == b && x == y
  {
    CutLastParts(a, x, d);
    CutLastParts(b, y, d);
  }

  /** The pieces between delimiters; a text without delimiter is one piece. */
  function Split(s: string, d: char): (parts: seq<string>)
    ensures parts != []
    decreases |s|
  {
    if d !in s then [s]
    else
      CutFirstShorter(s, d);
      [CutFirst(s, d).0] + Split(CutFirst(s, d).1, d)
  }

  lemma {:induction false} CutFirstShorter(s: string, d: char)
    requires d in s
    ensures s == CutFirst(s, d).0 + [d] + CutFirst(s, d).1
    ensures d !in CutFirst(s, d).0
    decreases |s|
  {
    if s[0] != d {
      CutFirstShorter(s[1..], d);
      assert s == [s[0]] + s[1..];
    }
  }

  // ---- White space and case

  predicate IsSpace(c: char) {
    c == ' ' || '\t' <= c <= '\r'
  }

  function TrimLeft(s: string): (r: string)
    ensures r == [] || !IsSpace(r[0])
    ensures s != [] && !IsSpace(s[0]) ==> r == s
  {
    if s != [] && IsSpace(s[0]) then TrimLeft(s[1..]) else s
  }

  function TrimRight(s: string): (r: string)
    ensures r == [] || !IsSpace(r[|r| - 1])
    ensures s != [] && !IsSpace(s[|s| - 1]) ==> r == s
  {
    if s != [] && IsSpace(s[|s| - 1]) then TrimRight(s[..|s| - 1]) else s
  }

  function Lower(c: char): char {
    if 'A' <= c <= 'Z' then (c as int + 32) as char else c
  }

  function ToLower(s: string): (r: string)
    ensures |r| == |s| && forall i | 0 <= i < |s| :: r[i] == Lower(s[i])
  {
    seq(|s|, i requires 0 <= i < |s| => Lower(s[i]))
  }

  function Trim(s: string): string {
    TrimRight(TrimLeft(s))
  }

  // ---- Hexadecimal

  predicate IsHex(s: string) {
    forall i | 0 <= i < |s| :: '0' <= s[i] <= '9' || 'a' <= s[i] <= 'f'
  }

  function Nibble(d: nat): (c: char)
    requires d < 16
    ensures '0' <= c <= '9' || 'a' <= c <= 'f'
  {
    if d < 10 then ('0' as int + d) as char else ('a' as int + (d - 10)) as char
  }

  function Hex(s: string): (h: string)
    requires IsBytes(s)
    ensures |h| == 2 * |s| && IsHex(h)
  {
    if s == [] then []
    else
      var b := s[0] as int;
      [Nibble(b / 16), Nibble(b % 16)] + Hex(s[1..])
  }

  lemma NibblesInjective(b: nat, c: nat)
    requires b < 256 && c < 256
    requires Nibble(b / 16) == Nibble(c / 16) && Nibble(b % 16) == Nibble(c % 16)
    ensures b == c
  {}

  lemma {:induction false} HexInjective(s: string, t: string)
    requires IsBytes(s) && IsBytes(t) && Hex(s) == Hex(t)
    ensures s == t
  {
    if s != [] {
      assert Hex(s)[0] == Hex(t)[0] && Hex(s)[1] == Hex(t)[1];
      assert Hex(s)[2..] == Hex(s[1..]) && Hex(t)[2..] == Hex(t[1..]);
      NibblesInjective(s[0] as int, t[0] as int);
      HexInjective(s[1..], t[1..]);
      assert s == [s[0]] + s[1..] && t == [t[0]] + t[1..];
    }
  }

  lemma HexIsNormal(h: string)
    requires IsHex(h)
    ensures ToLower(Trim(h)) == h
  {
    if h != "" {
      assert !IsSpace(h[0]) && !IsSpace(h[|h| - 1]);
    }
    assert ToLower(h) == h;
  }

  // ---- Digests

  /** The 32 bytes of a SHA-256 digest. */
  type Digest = s: string | |s| == 32 && IsBytes(s) witness seq(32, _ => '0')

  ghost predicate Collision(sha: string -> Digest, x: string, y: string) {
    x != y && sha(x) == sha(y)
  }
}
