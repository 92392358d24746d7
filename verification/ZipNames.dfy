/** Which member names are safe, said of the name itself. */
module ZipNames {
  import opened Text
  import opened Archive

  predicate IsSeparator(c: char) {
    c == '/' || c == '\\'
  }

  /** A path component of the name, between separators or its ends, starts at `at` and is `part`. */
  predicate IsComponent(name: string, at: nat, part: string) {
    && at + |part| <= |name| && name[at..at + |part|] == part
    && (at == 0 || IsSeparator(name[at - 1]))
    && (at + |part| == |name| || IsSeparator(name[at + |part|]))
  }

  /** No absolute path, no parent component, and nothing under artifacts/ but artifacts/cas/. */
  ghost predicate IsSafe(name: string) {
    && name != "" && !IsSeparator(name[0])
    && (forall at: nat :: !IsComponent(name, at, ".."))
    && ("artifacts/" <= name ==> name == "artifacts/" || "artifacts/cas/" <= name)
  }

  /** A name that ends in a slash is a directory, and not a member. */
  predicate IsMember(name: string) {
    |name| == 0 || name[|name| - 1] != '/'
  }

  lemma IsDirMeans(name: string)
    ensures IsDir(name) <==> !IsMember(name)
  {}

  predicate PartAt(s: string, d: char, at: nat, part: string) {
    && at + |part| <= |s| && s[at..at + |part|] == part
    && (at == 0 || s[at - 1] == d)
    && (at + |part| == |s| || s[at + |part|] == d)
  }

  lemma FirstPart(a: string, x: string, d: char, at: nat, part: string)
    requires d !in a && d !in part && PartAt(a + [d] + x, d, at, part)
    ensures (at == 0 && part == a) || (at > |a| && PartAt(x, d, at - |a| - 1, part))
  {
    var s := a + [d] + x;
    assert s[|a|] == d && forall i | 0 <= i < |a| :: s[i] == a[i] && a[i] in a;
    assert forall i | 0 <= i < |part| :: s[at..at + |part|][i] == s[at + i] && part[i] in part;
    if at == 0 {
      assert |part| == |a|;
      assert s[..|a|] == a;
    } else {
      assert at > |a|;
      assert at == |a| + 1 || s[at - 1] == x[at - |a| - 2];
      assert s[at..at + |part|] == x[at - |a| - 1..at - |a| - 1 + |part|];
    }
  }

  lemma LaterPart(a: string, x: string, d: char, at: nat, part: string)
    requires PartAt(x, d, at, part)
    ensures PartAt(a + [d] + x, d, |a| + 1 + at, part)
  {
    var s := a + [d] + x;
    assert s[|a| + 1 + at..|a| + 1 + at + |part|] == x[at..at + |part|];
  }

  lemma OnlyPart(s: string, d: char, at: nat, part: string)
    requires d !in s && PartAt(s, d, at, part)
    ensures at == 0 && part == s
  {
    assert forall i | 0 <= i < |s| :: s[i] in s;
    assert at == 0 && |part| == |s|;
    assert s[0..|s|] == s;
  }

  /** The pieces of a split are the texts between delimiters. */
  lemma {:induction false} SplitParts(s: string, d: char, part: string)
    requires d !in part
    ensures part in Split(s, d) <==> exists at: nat :: PartAt(s, d, at, part)
    decreases |s|
  {
    if d !in s {
      if at: nat :| PartAt(s, d, at, part) {
        OnlyPart(s, d, at, part);
      }
      assert PartAt(s, d, 0, s);
    } else {
      var a, x := CutFirst(s, d).0, CutFirst(s, d).1;
      CutFirstShorter(s, d);
      SplitParts(x, d, part);
      if at: nat :| PartAt(s, d, at, part) {
        FirstPart(a, x, d, at, part);
      }
      if at: nat :| PartAt(x, d, at, part) {
        LaterPart(a, x, d, at, part);
      }
      assert PartAt(s, d, 0, a);
    }
  }

  lemma NameErrorMeans(name: string)
    ensures NameError(name).None? <==> IsSafe(name)
  {
    var s := Slashes(name);
    SplitParts(s, '/', "..");
    forall at: nat ensures PartAt(s, '/', at, "..") <==> IsComponent(name, at, "..") {
      if at + 2 <= |name| {
        assert s[at..at + 2] == ".." <==> s[at] == '.' && s[at + 1] == '.';
        assert name[at..at + 2] == ".." <==> name[at] == '.' && name[at + 1] == '.';
      }
    }
  }
}
