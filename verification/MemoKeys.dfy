/** The text of memo keys: what separates one memoised call from another. */
module MemoKeys {
  import opened Base
  import opened SlotMap
  import opened Text
  import P = Protocol

  function KeyText(k: P.MemoKey): string {
    match k
    case InferKey(step) => "infer:step" + Itoa(step)
    case ToolKey(name, pos) => "tool:" + (name + "@" + Itoa(pos))
  }

  lemma ToolText(name: string, pos: nat)
    ensures var t := KeyText(P.ToolKey(name, pos)); t[0] == 't' && t[5..] == name + "@" + Itoa(pos)
  {}

  lemma InferText(step: int)
    ensures var t := KeyText(P.InferKey(step)); t[0] == 'i' && t[10..] == Itoa(step)
  {}

  /** Distinct keys have distinct texts, whatever characters a tool name has. */
  lemma KeyTextInjective(k: P.MemoKey, l: P.MemoKey)
    requires KeyText(k) == KeyText(l)
    ensures k == l
  {
    match k {
      case InferKey(step) => InferText(step);
      case ToolKey(name, pos) => ToolText(name, pos);
    }
    match l {
      case InferKey(step) => InferText(step);
      case ToolKey(name, pos) => ToolText(name, pos);
    }
    if k.InferKey? {
      ItoaInjective(k.step, l.step);
    } else {
      SplitLast(k.name, Itoa(k.pos), l.name, Itoa(l.pos), '@');
      ItoaInjective(k.pos, l.pos);
    }
  }

  // ---- The in-memory backend: workflow id, a NUL, and the key text

  function MemKey(workflow: string, k: P.MemoKey): string {
    workflow + "\0" + KeyText(k)
  }

  /** One workflow id extends the other by a NUL and the start of a tool key. */
  predicate Clash(v: string, w: string) {
    v + "\0tool:" <= w || w + "\0tool:" <= v
  }

  lemma InferTextHasNoNul(step: int)
    ensures '\0' !in KeyText(P.InferKey(step))
  {
    assert '\0' !in "infer:step" && '\0' !in Itoa(step);
  }

  lemma NulIsInsideToolKey(k: P.MemoKey, i: nat)
    requires i < |KeyText(k)| && KeyText(k)[i] == '\0'
    ensures "tool:" <= KeyText(k)[..i]
  {
    if k.InferKey? {
      InferTextHasNoNul(k.step);
    } else {
      assert forall j | 0 <= j < 5 :: KeyText(k)[j] == "tool:"[j];
    }
  }

  /** If a workflow id is longer, the shared key shows a NUL inside the shorter one's tool key. */
  lemma LongerWorkflowClashes(v: string, k: P.MemoKey, w: string, l: P.MemoKey)
    requires |v| < |w| && MemKey(v, k) == MemKey(w, l)
    ensures v + "\0tool:" <= w
  {
    hide KeyText;
    var s := MemKey(v, k);
    var at := |w| - |v| - 1;
    assert s[|w|] == '\0' && s[|w|] == KeyText(k)[at];
    NulIsInsideToolKey(k, at);
    assert w == s[..|w|] == v + "\0" + KeyText(k)[..at];
    assert KeyText(k)[..at] == "tool:" + KeyText(k)[..at][5..];
    assert w == (v + "\0tool:") + KeyText(k)[..at][5..];
  }

  lemma SharedKeysClash(v: string, k: P.MemoKey, w: string, l: P.MemoKey)
    requires MemKey(v, k) == MemKey(w, l)
    ensures (v == w && k == l) || Clash(v, w)
  {
    hide KeyText;
    if |v| < |w| {
      LongerWorkflowClashes(v, k, w, l);
    } else if |w| < |v| {
      LongerWorkflowClashes(w, l, v, k);
    } else {
      assert MemKey(v, k)[..|v|] == v && MemKey(w, l)[..|w|] == w;
      assert MemKey(v, k)[|v| + 1..] == KeyText(k) && MemKey(w, l)[|w| + 1..] == KeyText(l);
      KeyTextInjective(k, l);
    }
  }

  ghost predicate ShareEntry(v: string, w: string) {
    exists k, l :: MemKey(v, k) == MemKey(w, l) && (v != w || k != l)
  }

  /** Two calls share an entry of the in-memory backend exactly when their workflow ids clash. */
  lemma SharedIffClash(v: string, w: string)
    ensures ShareEntry(v, w) <==> Clash(v, w)
  {
    hide MemKey, Clash;
    if ShareEntry(v, w) {
      var k, l :| MemKey(v, k) == MemKey(w, l) && (v != w || k != l);
      SharedKeysClash(v, k, w, l);
    }
    if Clash(v, w) {
      ClashesShare(v, w);
    }
  }

  lemma ClashesShare(v: string, w: string)
    requires Clash(v, w)
    ensures ShareEntry(v, w)
  {
    hide MemKey;
    if v + "\0tool:" <= w {
      ClashShares(v, w);
    } else {
      ClashShares(w, v);
    }
  }

  lemma ClashShares(v: string, w: string)
    requires v + "\0tool:" <= w
    ensures exists k, l :: MemKey(v, k) == MemKey(w, l) && v != w
  {
    var u := w[|v| + 6..];
    assert w == v + "\0tool:" + u;
    var k := P.ToolKey(u + "\0tool:x", 0);
    var l := P.ToolKey("x", 0);
    assert KeyText(k) == "tool:" + u + "\0" + KeyText(l);
    assert MemKey(v, k) == MemKey(w, l);
  }

  /** The entries of the in-memory backend stand for exactly the memo. */
  ghost predicate Mirrors(data: map<string, Json>, memo: P.Memo, workflows: set<string>) {
    forall w, k {:trigger MemKey(w, k)} | w in workflows ::
      (MemKey(w, k) in data <==> (w, k) in memo) && ((w, k) in memo ==> data[MemKey(w, k)] == memo[(w, k)])
  }

  /** First-writer-wins on the text keys is first-writer-wins on the memo, without clashes. */
  lemma SaveMirrors(data: map<string, Json>, memo: P.Memo, workflows: set<string>, w: string, k: P.MemoKey, v: Json)
    requires w in workflows && Mirrors(data, memo, workflows)
    requires forall x, y | x in workflows && y in workflows :: !Clash(x, y)
    ensures Mirrors(Put(data, MemKey(w, k), v), Put(memo, (w, k), v), workflows)
  {
    hide MemKey;
    forall x, l {:trigger MemKey(x, l)} | x in workflows
      ensures MemKey(x, l) == MemKey(w, k) ==> (x, l) == (w, k)
    {
      assert !Clash(x, w);
      SharedIffClash(x, w);
    }
  }

  // ---- The Python local memo: one namespace per step

  /** The workflow id that a step of a workflow runs under. */
  function StepScope(workflow: string, step: int): string {
    workflow + "-step" + Itoa(step)
  }

  /** Steps never share a namespace, even when a workflow id itself looks like a step's. */
  lemma StepScopeInjective(v: string, m: int, w: string, n: int)
    requires StepScope(v, m) == StepScope(w, n)
    ensures v == w && m == n
  {
    assert StepScope(v, m) == (v + "-ste") + ['p'] + Itoa(m);
    assert StepScope(w, n) == (w + "-ste") + ['p'] + Itoa(n);
    SplitLast(v + "-ste", Itoa(m), w + "-ste", Itoa(n), 'p');
    ItoaInjective(m, n);
    assert (v + "-ste")[..|v|] == v && (w + "-ste")[..|w|] == w;
  }
}
