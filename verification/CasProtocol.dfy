/**
 * Concurrent writers of the content-addressed store, as a transition system. Writers hold open
 * files, so a directory maps names to files and a file outlives its name. A writer can crash
 * between any two system calls, any call can fail, and sweeps can remove temps at any time.
 */
module CasProtocol {
  import opened Base
  import opened Text
  import opened Cas

  datatype Writer =
    | Idle
    | AtStat(data: string)
    | AtRead(data: string)
    | AtTemp(data: string)
    | AtWrite(data: string, name: string, file: nat, written: nat)
    | AtRename(data: string, name: string, file: nat)
    | AtFallback(data: string, name: string, tries: nat)
    | AtRemove(data: string, name: string, ok: bool)
    | Stored(data: string)
    | Failed(data: string)

  /** Names of files, files by number, and the writers. */
  datatype State = State(dir: map<string, nat>, files: seq<string>, writers: seq<Writer>)

  /** What the operating system answers: success, with the bytes accepted or the suffix drawn. */
  datatype Answer = Done(bytes: nat, suffix: string) | Error

  datatype Action =
    | Start(w: nat, data: string)
    | Crash(w: nat)
    | Step(w: nat, answer: Answer)
    | Sweep(names: set<string>)

  predicate HasBytes(s: State, sha: string -> Digest, h: string, bytes: string) {
    h in s.dir && s.dir[h] < |s.files| && ContentHash(sha, s.files[s.dir[h]]) == ContentHash(sha, bytes)
  }

  /** One system call of a writer. A call on a file number keeps working when its name is gone. */
  function StepWriter(sha: string -> Digest, s: State, w: Writer, answer: Answer): (State, Writer) {
    match w
    case Idle => (s, w)
    case Stored(_) => (s, w)
    case Failed(_) => (s, w)
    case AtStat(data) =>
      (s, if answer.Done? && ContentHash(sha, data) in s.dir then AtRead(data) else AtTemp(data))
    case AtRead(data) =>
      (s, if answer.Done? && HasBytes(s, sha, ContentHash(sha, data), data) then Stored(data) else Writer.Failed(data))
    case AtTemp(data) =>
      if answer.Error? then (s, Writer.Failed(data))
      else
        var name := TempName(ContentHash(sha, data), answer.suffix);
        if name in s.dir then (s, w)  // taken: draw another suffix
        else (s.(dir := s.dir[name := |s.files|], files := s.files + [""]), AtWrite(data, name, |s.files|, 0))
    case AtWrite(data, name, file, written) =>
      if answer.Error? || file >= |s.files| || written > |data| then (s, AtRemove(data, name, false))
      else if written == |data| then (s, AtRename(data, name, file))  // synced and closed
      else
        var upto := if written + answer.bytes <= |data| then written + answer.bytes else |data|;
        (s.(files := s.files[file := s.files[file] + data[written..upto]]), AtWrite(data, name, file, upto))
    case AtRename(data, name, _) =>
      if answer.Done? && name in s.dir
      then (s.(dir := s.dir[ContentHash(sha, data) := s.dir[name]] - {name}), Stored(data))
      else (s, AtFallback(data, name, 5))
    case AtFallback(data, name, tries) =>
      if tries == 0 || ContentHash(sha, data) !in s.dir then (s, AtRemove(data, name, false))
      else if answer.Error? then (s, AtFallback(data, name, tries - 1))
      else (s, AtRemove(data, name, HasBytes(s, sha, ContentHash(sha, data), data)))
    case AtRemove(data, name, ok) =>
      (if answer.Done? then s.(dir := s.dir - {name}) else s, if ok then Stored(data) else Writer.Failed(data))
  }

  function Next(sha: string -> Digest, s: State, act: Action): (s': State)
    ensures |s'.writers| == |s.writers|
  {
    match act
    case Start(w, data) => if w < |s.writers| then s.(writers := s.writers[w := AtStat(data)]) else s
    case Crash(w) => if w < |s.writers| then s.(writers := s.writers[w := Idle]) else s
    case Step(w, answer) =>
      if w < |s.writers| then
        var (t, v) := StepWriter(sha, s, s.writers[w], answer);
        t.(writers := s.writers[w := v])
      else s
    case Sweep(names) => s.(dir := s.dir - set n | n in names && IsTempName(n))
  }

  function Exec(sha: string -> Digest, s: State, acts: seq<Action>): (s': State)
    ensures |s'.writers| == |s.writers|
    decreases |acts|
  {
    if acts == [] then s else Exec(sha, Next(sha, s, acts[0]), acts[1..])
  }

  /** The temp name that a writer is still going to write to or rename. */
  function HeldName(w: Writer): Option<string> {
    match w
    case AtWrite(_, name, _, _) => Some(name)
    case AtRename(_, name, _) => Some(name)
    case _ => None
  }

  /** The two can share a name: neither holds it both, or there are no bytes in what they store. */
  predicate Share(v: Writer, w: Writer) {
    HeldName(v).Some? && HeldName(v) == HeldName(w) ==> v.data == "" && w.data == ""
  }

  predicate Draws(sha: string -> Digest, s: State, act: Action) {
    && act.Step? && act.w < |s.writers| && s.writers[act.w].AtTemp? && act.answer.Done?
    && TempName(ContentHash(sha, s.writers[act.w].data), act.answer.suffix) !in s.dir
  }

  /** What the drawing writer holds after the draw. */
  function Drawn(sha: string -> Digest, s: State, act: Action): Writer
    requires Draws(sha, s, act)
  {
    var data := s.writers[act.w].data;
    AtWrite(data, TempName(ContentHash(sha, data), act.answer.suffix), |s.files|, 0)
  }

  /**
   * The hypothesis on random suffixes: a name that a live writer holds, and that a sweep has taken
   * away, is not drawn again, unless both store the empty object. Any other name may come back.
   */
  predicate Fresh(sha: string -> Digest, s: State, act: Action) {
    Draws(sha, s, act) ==> forall i | 0 <= i < |s.writers| && i != act.w :: Share(s.writers[i], Drawn(sha, s, act))
  }

  predicate AllFresh(sha: string -> Digest, s: State, acts: seq<Action>)
    decreases |acts|
  {
    acts == [] || (Fresh(sha, s, acts[0]) && AllFresh(sha, Next(sha, s, acts[0]), acts[1..]))
  }

  // ---- The invariant

  ghost predicate NameOk(sha: string -> Digest, s: State, n: string) {
    n in s.dir && s.dir[n] < |s.files| && (IsHash(n) ==> ContentHash(sha, s.files[s.dir[n]]) == n)
  }

  /** Every object at a final name hashes to that name. */
  ghost predicate DirOk(sha: string -> Digest, s: State) {
    forall n {:trigger NameOk(sha, s, n)} | n in s.dir :: NameOk(sha, s, n)
  }

  /**
   * A writer's open file has no name but the writer's own, if that one is still there. A writer of
   * the empty object only needs that its name, if it is there, leads to an empty file.
   */
  ghost predicate Owns(sha: string -> Digest, s: State, data: string, name: string, file: nat) {
    && IsTempName(name) && name[1..65] == ContentHash(sha, data) && file < |s.files|
    && (data == "" ==> name in s.dir ==> s.dir[name] < |s.files| && s.files[s.dir[name]] == "")
    && (data != "" ==> forall n {:trigger s.dir[n]} | n in s.dir :: n == name <==> s.dir[n] == file)
  }

  ghost predicate WriterOk(sha: string -> Digest, s: State, w: Writer) {
    match w
    case AtWrite(data, name, file, written) => Owns(sha, s, data, name, file) && written <= |data| && s.files[file] == data[..written]
    case AtRename(data, name, file) => Owns(sha, s, data, name, file) && s.files[file] == data
    case AtFallback(_, name, _) => IsTempName(name)
    case AtRemove(data, name, ok) => IsTempName(name) && (ok ==> ContentHash(sha, data) in s.dir)
    case Stored(data) => ContentHash(sha, data) in s.dir
    case _ => true
  }

  function OpenFile(w: Writer): Option<nat> {
    match w
    case AtWrite(_, _, file, _) => Some(file)
    case AtRename(_, _, file) => Some(file)
    case _ => None
  }

  ghost predicate Apart(v: Writer, w: Writer) {
    (OpenFile(v).Some? ==> OpenFile(v) != OpenFile(w)) && Share(v, w)
  }

  ghost predicate Inv(sha: string -> Digest, s: State) {
    && DirOk(sha, s)
    && (forall i | 0 <= i < |s.writers| :: WriterOk(sha, s, s.writers[i]))
    && (forall i, j {:trigger s.writers[i], s.writers[j]} | 0 <= i < |s.writers| && 0 <= j < |s.writers| && i != j ::
        Apart(s.writers[i], s.writers[j]))
  }

  /** What one writer's step, from w to v, does to a writer apart from both. */
  ghost predicate Spares(sha: string -> Digest, s: State, t: State, w: Writer, v: Writer) {
    forall u {:trigger WriterOk(sha, t, u)} | WriterOk(sha, s, u) && Apart(u, w) && Share(u, v) :: WriterOk(sha, t, u)
  }

  ghost predicate StepOk(sha: string -> Digest, s: State, w: Writer, t: State, v: Writer) {
    && DirOk(sha, t) && WriterOk(sha, t, v) && Spares(sha, s, t, w, v)
    && (OpenFile(v) == OpenFile(w) || OpenFile(v).None? || OpenFile(v).value >= |s.files|)
  }

  lemma TempStep(sha: string -> Digest, s: State, data: string, suffix: string)
    requires DirOk(sha, s) && TempName(ContentHash(sha, data), suffix) !in s.dir
    ensures var (t, v) := StepWriter(sha, s, AtTemp(data), Done(0, suffix)); StepOk(sha, s, AtTemp(data), t, v)
  {
    var name := TempName(ContentHash(sha, data), suffix);
    var (t, v) := StepWriter(sha, s, AtTemp(data), Done(0, suffix));
    TempNames(ContentHash(sha, data), suffix);
    assert name[1..65] == ContentHash(sha, data);
    hide ContentHash, IsTempName, IsHash, TempName;
    forall n | n in t.dir ensures NameOk(sha, t, n) && (n == name <==> t.dir[n] == |s.files|) {
      if n != name { assert NameOk(sha, s, n); }
    }
    forall u | WriterOk(sha, s, u) && Apart(u, AtTemp(data)) && Share(u, v) ensures WriterOk(sha, t, u) {
      if OpenFile(u).Some? {
        DrawSpares(sha, s, t, u.data, u.name, OpenFile(u).value, name);
      }
    }
  }

  lemma DrawSpares(sha: string -> Digest, s: State, t: State, data: string, name: string, file: nat, drawn: string)
    requires Owns(sha, s, data, name, file) && DirOk(sha, s)
    requires t.dir == s.dir[drawn := |s.files|] && t.files == s.files + [""]
    requires name == drawn ==> data == ""
    ensures Owns(sha, t, data, name, file)
  {
    hide ContentHash, IsTempName, IsHash;
    forall n | n in s.dir ensures s.dir[n] < |s.files| { assert NameOk(sha, s, n); }
  }

  lemma WriteStep(sha: string -> Digest, s: State, w: Writer, answer: Answer)
    requires DirOk(sha, s) && w.AtWrite? && WriterOk(sha, s, w)
    ensures var (t, v) := StepWriter(sha, s, w, answer); StepOk(sha, s, w, t, v)
  {
    var (t, v) := StepWriter(sha, s, w, answer);
    TempNames(ContentHash(sha, w.data), "");
    hide ContentHash, IsTempName, IsHash;
    forall n | n in t.dir ensures NameOk(sha, t, n) {
      assert NameOk(sha, s, n);
    }
    if v.AtWrite? {
      assert w.data[..w.written] + w.data[w.written..v.written] == w.data[..v.written];
    } else if v.AtRename? {
      assert w.data[..|w.data|] == w.data;
    }
  }

  lemma RenameStep(sha: string -> Digest, s: State, w: Writer, answer: Answer)
    requires DirOk(sha, s) && w.AtRename? && WriterOk(sha, s, w)
    ensures var (t, v) := StepWriter(sha, s, w, answer); StepOk(sha, s, w, t, v)
  {
    var (t, v) := StepWriter(sha, s, w, answer);
    TempNames(ContentHash(sha, w.data), "");
    hide ContentHash, IsTempName, IsHash;
    forall n | n in t.dir ensures NameOk(sha, t, n) {
      if n in s.dir { assert NameOk(sha, s, n); }
    }
  }

  lemma OtherStep(sha: string -> Digest, s: State, w: Writer, answer: Answer)
    requires DirOk(sha, s) && !w.AtRename? && !w.AtWrite? && WriterOk(sha, s, w)
    requires w.AtTemp? && answer.Done? ==> TempName(ContentHash(sha, w.data), answer.suffix) in s.dir
    ensures var (t, v) := StepWriter(sha, s, w, answer); StepOk(sha, s, w, t, v)
  {
    var (t, v) := StepWriter(sha, s, w, answer);
    TempNames(ContentHash(sha, ""), "");
    hide ContentHash, IsTempName, IsHash;
    forall n | n in t.dir ensures NameOk(sha, t, n) {
      assert NameOk(sha, s, n);
    }
  }

  lemma StepKeeps(sha: string -> Digest, s: State, w: Writer, answer: Answer)
    requires DirOk(sha, s) && WriterOk(sha, s, w)
    ensures var (t, v) := StepWriter(sha, s, w, answer); StepOk(sha, s, w, t, v) && t.writers == s.writers
  {
    hide StepOk, DirOk, WriterOk, TempName;
    if w.AtWrite? {
      WriteStep(sha, s, w, answer);
    } else if w.AtRename? {
      RenameStep(sha, s, w, answer);
    } else if w.AtTemp? && answer.Done? && TempName(ContentHash(sha, w.data), answer.suffix) !in s.dir {
      TempStep(sha, s, w.data, answer.suffix);
      assert StepWriter(sha, s, w, answer) == StepWriter(sha, s, w, Done(0, answer.suffix));
    } else {
      OtherStep(sha, s, w, answer);
    }
  }

  /** A writer comes to hold a name by drawing it, or it held it already with the same data. */
  lemma HoldsAfter(sha: string -> Digest, s: State, w: nat, answer: Answer)
    requires w < |s.writers|
    ensures var v := StepWriter(sha, s, s.writers[w], answer).1;
      HeldName(v).Some? ==>
        if Draws(sha, s, Step(w, answer)) then v == Drawn(sha, s, Step(w, answer))
        else HeldName(v) == HeldName(s.writers[w]) && v.data == s.writers[w].data
  {
    hide ContentHash, TempName;
  }

  lemma OthersShare(sha: string -> Digest, s: State, w: nat, answer: Answer)
    requires Inv(sha, s) && Fresh(sha, s, Step(w, answer)) && w < |s.writers|
    ensures var v := StepWriter(sha, s, s.writers[w], answer).1;
      forall i | 0 <= i < |s.writers| && i != w :: Share(s.writers[i], v)
  {
    hide StepWriter, DirOk, WriterOk, ContentHash, TempName;
    HoldsAfter(sha, s, w, answer);
    forall i | 0 <= i < |s.writers| && i != w ensures Share(s.writers[i], StepWriter(sha, s, s.writers[w], answer).1) {
      assert Apart(s.writers[i], s.writers[w]);
    }
  }

  lemma NextKeeps(sha: string -> Digest, s: State, act: Action)
    requires Inv(sha, s) && Fresh(sha, s, act)
    ensures Inv(sha, Next(sha, s, act))
  {
    hide StepWriter, TempName, Inv, Fresh, StepOk;
    match act
    case Step(w, answer) =>
      if w < |s.writers| {
        StepKeepsAll(sha, s, w, answer);
      }
    case Sweep(names) => SweepKeeps(sha, s, names);
    case Start(w, data) => VolatileKeeps(sha, s, w, AtStat(data));
    case Crash(w) => VolatileKeeps(sha, s, w, Idle);
  }

  lemma StepKeepsAll(sha: string -> Digest, s: State, w: nat, answer: Answer)
    requires Inv(sha, s) && Fresh(sha, s, Step(w, answer)) && w < |s.writers|
    ensures Inv(sha, Next(sha, s, Step(w, answer)))
  {
    hide StepWriter, StepOk, DirOk, Fresh;
    StepKeeps(sha, s, s.writers[w], answer);
    OthersShare(sha, s, w, answer);
    StepComposes(sha, s, w, StepWriter(sha, s, s.writers[w], answer).0, StepWriter(sha, s, s.writers[w], answer).1);
  }

  lemma VolatileKeeps(sha: string -> Digest, s: State, w: nat, v: Writer)
    requires Inv(sha, s) && (v.Idle? || v.AtStat?)
    ensures w < |s.writers| ==> Inv(sha, s.(writers := s.writers[w := v]))
  {
    hide ContentHash, IsTempName, IsHash;
    if w < |s.writers| {
      var t := s.(writers := s.writers[w := v]);
      forall n | n in t.dir ensures NameOk(sha, t, n) { assert NameOk(sha, s, n); }
      forall i | 0 <= i < |s.writers| ensures WriterOk(sha, t, t.writers[i]) { assert WriterOk(sha, s, s.writers[i]); }
    }
  }

  lemma SweepKeeps(sha: string -> Digest, s: State, names: set<string>)
    requires Inv(sha, s)
    ensures Inv(sha, Next(sha, s, Sweep(names)))
  {
    var t := Next(sha, s, Sweep(names));
    TempNames(ContentHash(sha, ""), "");
    forall n | n in t.dir ensures NameOk(sha, t, n) { assert NameOk(sha, s, n); }
    hide IsTempName, IsHash, ContentHash;
    forall i | 0 <= i < |s.writers| ensures WriterOk(sha, t, t.writers[i]) { assert WriterOk(sha, s, s.writers[i]); }
  }

  lemma StepComposes(sha: string -> Digest, s: State, w: nat, t: State, v: Writer)
    requires Inv(sha, s) && w < |s.writers| && StepOk(sha, s, s.writers[w], t, v) && t.writers == s.writers
    requires forall i | 0 <= i < |s.writers| && i != w :: Share(s.writers[i], v)
    ensures Inv(sha, t.(writers := s.writers[w := v]))
  {
    hide ContentHash, IsTempName, IsHash, Owns;
    var r := t.(writers := s.writers[w := v]);
    forall n | n in r.dir ensures NameOk(sha, r, n) { assert NameOk(sha, t, n); }
    forall i | 0 <= i < |r.writers| ensures WriterOk(sha, t, r.writers[i]) {
      if i != w { assert WriterOk(sha, s, s.writers[i]) && Apart(s.writers[i], s.writers[w]); }
    }
    forall i | 0 <= i < |r.writers| ensures WriterOk(sha, r, r.writers[i]) {
      SameStores(sha, t, r, r.writers[i]);
    }
    forall i, j | 0 <= i < |r.writers| && 0 <= j < |r.writers| && i != j ensures Apart(r.writers[i], r.writers[j]) {
      assert Apart(s.writers[i], s.writers[j]);
      FilesExist(sha, s, i);
      FilesExist(sha, s, j);
    }
  }

  lemma SameStores(sha: string -> Digest, s: State, t: State, w: Writer)
    requires WriterOk(sha, s, w) && t.dir == s.dir && t.files == s.files
    ensures WriterOk(sha, t, w)
  {
    hide ContentHash, IsTempName;
  }

  lemma FilesExist(sha: string -> Digest, s: State, i: nat)
    requires Inv(sha, s) && i < |s.writers|
    ensures OpenFile(s.writers[i]).Some? ==> OpenFile(s.writers[i]).value < |s.files|
  {
    assert WriterOk(sha, s, s.writers[i]);
  }

  // ---- The theorems

  /** Idle writers over a store whose objects are sound. */
  ghost predicate Init(sha: string -> Digest, s: State) {
    DirOk(sha, s) && forall i | 0 <= i < |s.writers| :: s.writers[i] == Idle
  }

  lemma {:induction false} ExecKeeps(sha: string -> Digest, s: State, acts: seq<Action>)
    requires Inv(sha, s) && AllFresh(sha, s, acts)
    ensures Inv(sha, Exec(sha, s, acts))
    decreases |acts|
  {
    if acts != [] {
      NextKeeps(sha, s, acts[0]);
      ExecKeeps(sha, Next(sha, s, acts[0]), acts[1..]);
    }
  }

  /** In every run, with any crashes, failures and sweeps, an object hashes to its name. */
  lemma ObjectsHashToTheirNames(sha: string -> Digest, s: State, acts: seq<Action>, h: string)
    requires Init(sha, s) && AllFresh(sha, s, acts) && IsHash(h)
    ensures var t := Exec(sha, s, acts);
      h in t.dir ==> t.dir[h] < |t.files| && ContentHash(sha, t.files[t.dir[h]]) == h
  {
    ExecKeeps(sha, s, acts);
    var t := Exec(sha, s, acts);
    if h in t.dir {
      assert NameOk(sha, t, h);
    }
  }

  ghost predicate TempsOnly(s: State) {
    forall i | 0 <= i < |s.writers| ::
      s.writers[i].AtWrite? || s.writers[i].AtRename? || s.writers[i].AtFallback? || s.writers[i].AtRemove? ==>
        IsTempName(s.writers[i].name)
  }

  lemma NextKeepsFinals(sha: string -> Digest, s: State, act: Action)
    requires TempsOnly(s)
    ensures TempsOnly(Next(sha, s, act))
    ensures forall h | h in s.dir && IsHash(h) :: h in Next(sha, s, act).dir
  {
    TempNames(ContentHash(sha, ""), "");
    if act.Step? && act.w < |s.writers| {
      var w := s.writers[act.w];
      if w.AtTemp? && act.answer.Done? {
        TempNames(ContentHash(sha, w.data), act.answer.suffix);
      }
    }
    hide IsTempName, IsHash, TempName, ContentHash;
  }

  /** No object is ever removed: not by a sweep, not by a writer, whatever names are drawn. */
  lemma {:induction false} ObjectsStay(sha: string -> Digest, s: State, acts: seq<Action>)
    requires TempsOnly(s)
    ensures TempsOnly(Exec(sha, s, acts))
    ensures forall h | h in s.dir && IsHash(h) :: h in Exec(sha, s, acts).dir
    decreases |acts|
  {
    hide IsHash, TempsOnly, Next;
    if acts != [] {
      NextKeepsFinals(sha, s, acts[0]);
      ObjectsStay(sha, Next(sha, s, acts[0]), acts[1..]);
    }
  }

  /**
   * Once a Put has succeeded, at every later point of the run a Get of its hash finds an object
   * and accepts it, and the bytes are the ones that were put (or they exhibit a collision).
   */
  lemma StoredCanBeRead(sha: string -> Digest, s: State, acts: seq<Action>, later: seq<Action>, w: nat, data: string)
    requires Init(sha, s) && AllFresh(sha, s, acts) && w < |s.writers|
    requires Exec(sha, s, acts).writers[w] == Stored(data) && AllFresh(sha, Exec(sha, s, acts), later)
    ensures var t := Exec(sha, Exec(sha, s, acts), later);
      var h := ContentHash(sha, data);
      && h in t.dir && t.dir[h] < |t.files|
      && ContentHash(sha, t.files[t.dir[h]]) == h
      && (t.files[t.dir[h]] == data || Collision(sha, t.files[t.dir[h]], data))
  {
    hide StepWriter;
    var m := Exec(sha, s, acts);
    ExecKeeps(sha, s, acts);
    assert WriterOk(sha, m, m.writers[w]);
    ExecKeeps(sha, m, later);
    var t := Exec(sha, m, later);
    forall i | 0 <= i < |m.writers| ensures WriterOk(sha, m, m.writers[i]) {}
    assert TempsOnly(m);
    ObjectsStay(sha, m, later);
    var h := ContentHash(sha, data);
    assert NameOk(sha, t, h);
    HexInjective(sha(t.files[t.dir[h]]), sha(data));
  }

  // ---- A draw is harmless exactly when it is fresh

  lemma Go(sha: string -> Digest, s: State, act: Action, t: State, rest: seq<Action>)
    requires Next(sha, s, act) == t
    ensures Exec(sha, s, [act] + rest) == Exec(sha, t, rest)
  {
    assert ([act] + rest)[1..] == rest;
  }

  /** Every object at a final name hashes to it. */
  ghost predicate Sound(sha: string -> Digest, s: State) {
    forall h | h in s.dir && IsHash(h) :: s.dir[h] < |s.files| && ContentHash(sha, s.files[s.dir[h]]) == h
  }

  /** The actions lead to a store with an object that does not hash to its name, without another draw. */
  ghost predicate Corrupts(sha: string -> Digest, s: State, acts: seq<Action>) {
    AllFresh(sha, s, acts) && !Sound(sha, Exec(sha, s, acts))
  }

  lemma CorruptsAfter(sha: string -> Digest, s: State, act: Action, rest: seq<Action>)
    requires !Draws(sha, s, act) && Corrupts(sha, Next(sha, s, act), rest)
    ensures Corrupts(sha, s, [act] + rest)
  {
    hide Next, Draws, Sound;
    Go(sha, s, act, Next(sha, s, act), rest);
    assert ([act] + rest)[1..] == rest && ([act] + rest)[0] == act;
    assert Fresh(sha, s, act);
  }

  /** Writer i holds a name under which there is now another, empty file. */
  ghost predicate Tricked(s: State, i: nat) {
    && i < |s.writers| && (s.writers[i].AtWrite? || s.writers[i].AtRename?)
    && s.writers[i].name in s.dir && s.dir[s.writers[i].name] < |s.files|
    && s.dir[s.writers[i].name] != s.writers[i].file && s.files[s.dir[s.writers[i].name]] == ""
    && (s.writers[i].AtWrite? ==> s.writers[i].file < |s.files| && s.writers[i].written <= |s.writers[i].data|)
  }

  lemma RenameCorrupts(sha: string -> Digest, s: State, i: nat) returns (acts: seq<Action>)
    requires Tricked(s, i) && s.writers[i].AtRename? && ContentHash(sha, "") != ContentHash(sha, s.writers[i].data)
    requires IsTempName(s.writers[i].name)
    ensures Corrupts(sha, s, acts)
  {
    var act := Step(i, Done(0, ""));
    var h := ContentHash(sha, s.writers[i].data);
    TempNames(h, "");
    var t := Next(sha, s, act);
    assert h in t.dir && t.dir[h] == s.dir[s.writers[i].name] && t.files == s.files && IsHash(h);
    assert !Sound(sha, t);
    assert Exec(sha, t, []) == t && AllFresh(sha, t, []);
    CorruptsAfter(sha, s, act, []);
    acts := [act] + [];
  }

  lemma CloseCorrupts(sha: string -> Digest, s: State, i: nat) returns (acts: seq<Action>)
    requires Tricked(s, i) && s.writers[i].AtWrite? && s.writers[i].written == |s.writers[i].data|
    requires ContentHash(sha, "") != ContentHash(sha, s.writers[i].data) && IsTempName(s.writers[i].name)
    ensures Corrupts(sha, s, acts)
  {
    hide ContentHash, IsTempName, Corrupts, Fresh;
    var act := Step(i, Done(0, ""));
    var rest := RenameCorrupts(sha, Next(sha, s, act), i);
    CorruptsAfter(sha, s, act, rest);
    acts := [act] + rest;
  }

  /** It writes what is left, closes its own file, and renames the other one. */
  lemma TrickedCorrupts(sha: string -> Digest, s: State, i: nat) returns (acts: seq<Action>)
    requires Tricked(s, i) && ContentHash(sha, "") != ContentHash(sha, s.writers[i].data) && IsTempName(s.writers[i].name)
    ensures Corrupts(sha, s, acts)
  {
    hide ContentHash, IsTempName, Corrupts, Fresh;
    if s.writers[i].AtRename? {
      acts := RenameCorrupts(sha, s, i);
    } else if s.writers[i].written == |s.writers[i].data| {
      acts := CloseCorrupts(sha, s, i);
    } else {
      var act := Step(i, Done(|s.writers[i].data|, ""));
      var rest := CloseCorrupts(sha, Next(sha, s, act), i);
      CorruptsAfter(sha, s, act, rest);
      acts := [act] + rest;
    }
  }

  /** A draw of a held name leaves its holder tricked. */
  lemma DrawTricks(sha: string -> Digest, s: State, act: Action, i: nat)
    requires Inv(sha, s) && Draws(sha, s, act) && i < |s.writers| && i != act.w && !Share(s.writers[i], Drawn(sha, s, act))
    ensures var t := Next(sha, s, act);
      && Tricked(t, i) && t.writers[i] == s.writers[i] && IsTempName(t.writers[i].name)
      && ContentHash(sha, t.writers[i].data) == ContentHash(sha, s.writers[act.w].data)
  {
    assert WriterOk(sha, s, s.writers[i]);
    var data := s.writers[act.w].data;
    var name := Drawn(sha, s, act).name;
    assert name[1..65] == ContentHash(sha, data);
    hide ContentHash, IsTempName, TempName;
    assert s.writers[i].name == name && name !in s.dir;
  }

  /** No bytes but none hash as none do. */
  ghost predicate EmptyIsUnique(sha: string -> Digest) {
    forall x {:trigger sha(x)} :: !Collision(sha, "", x)
  }

  lemma NonemptyHash(sha: string -> Digest, x: string)
    requires EmptyIsUnique(sha) && x != ""
    ensures ContentHash(sha, "") != ContentHash(sha, x)
  {
    assert !Collision(sha, "", x);
    if Hex(sha("")) == Hex(sha(x)) {
      HexInjective(sha(""), sha(x));
    }
  }

  lemma StaleDrawCorrupts(sha: string -> Digest, s: State, act: Action) returns (acts: seq<Action>)
    requires Inv(sha, s) && !Fresh(sha, s, act) && EmptyIsUnique(sha)
    ensures Corrupts(sha, Next(sha, s, act), acts)
  {
    hide Next, Inv, Corrupts, ContentHash, Tricked, EmptyIsUnique, IsTempName;
    var i :| 0 <= i < |s.writers| && i != act.w && !Share(s.writers[i], Drawn(sha, s, act));
    DrawTricks(sha, s, act, i);
    var t := Next(sha, s, act);
    var x, y := s.writers[i].data, s.writers[act.w].data;
    assert x != "" || y != "";
    NonemptyHash(sha, if x != "" then x else y);
    acts := TrickedCorrupts(sha, t, i);
  }

  lemma {:induction false} SoundForGood(sha: string -> Digest, s: State, acts: seq<Action>)
    requires Inv(sha, s) && AllFresh(sha, s, acts)
    ensures Sound(sha, Exec(sha, s, acts))
  {
    hide Exec, AllFresh, ContentHash;
    ExecKeeps(sha, s, acts);
    var t := Exec(sha, s, acts);
    forall h | h in t.dir && IsHash(h) ensures t.dir[h] < |t.files| && ContentHash(sha, t.files[t.dir[h]]) == h {
      assert NameOk(sha, t, h);
    }
  }

  /**
   * From any state of a run so far: an action keeps every object sound, in every continuation with
   * fresh draws, exactly when it is fresh itself.
   */
  lemma SafeExactlyWhenFresh(sha: string -> Digest, s: State, act: Action)
    requires Inv(sha, s) && EmptyIsUnique(sha)
    ensures Fresh(sha, s, act)
      <==> forall acts | AllFresh(sha, Next(sha, s, act), acts) :: Sound(sha, Exec(sha, Next(sha, s, act), acts))
  {
    hide Next, Inv, Fresh, Exec, AllFresh, Sound, EmptyIsUnique;
    if Fresh(sha, s, act) {
      NextKeeps(sha, s, act);
      forall acts | AllFresh(sha, Next(sha, s, act), acts) ensures Sound(sha, Exec(sha, Next(sha, s, act), acts)) {
        SoundForGood(sha, Next(sha, s, act), acts);
      }
    } else {
      var acts := StaleDrawCorrupts(sha, s, act);
      assert AllFresh(sha, Next(sha, s, act), acts) && !Sound(sha, Exec(sha, Next(sha, s, act), acts));
    }
  }

  // ---- A run from the empty store

  function Two(dir: map<string, nat>, files: seq<string>, v: Writer, w: Writer): State {
    State(dir, files, [v, w])
  }

  /** Writer 0 fills its temp and is about to rename it; writer 1 is about to draw a name. */
  function Writing(data: string): seq<Action> {
    [Start(0, data)] + ([Step(0, Error)] + ([Step(0, Done(0, "x"))] + ([Step(0, Done(|data|, ""))] + ([Step(0, Done(0, ""))]
      + ([Start(1, data)] + ([Step(1, Error)] + []))))))
  }

  /** A sweep takes the temp's name, writer 1 draws the same name, and writer 0 renames. */
  function Reusing(name: string): seq<Action> {
    [Sweep({name})] + ([Step(1, Done(0, "x"))] + ([Step(0, Done(0, ""))] + []))
  }

  lemma WritingRuns(sha: string -> Digest, data: string)
    requires data != ""
    ensures var name := TempName(ContentHash(sha, data), "x");
      Exec(sha, Two(map[], [], Idle, Idle), Writing(data))
        == Two(map[name := 0], [data], AtRename(data, name, 0), AtTemp(data))
  {
    hide ContentHash, TempName;
    var name := TempName(ContentHash(sha, data), "x");
    var none: map<string, nat>, has := map[], map[name := 0];
    var r6 := [Step(1, Error)] + [];
    var r5 := [Start(1, data)] + r6;
    var r4 := [Step(0, Done(0, ""))] + r5;
    var r3 := [Step(0, Done(|data|, ""))] + r4;
    var r2 := [Step(0, Done(0, "x"))] + r3;
    var r1 := [Step(0, Error)] + r2;
    assert "" + data[0..|data|] == data;
    Go(sha, Two(none, [], Idle, Idle), Start(0, data), Two(none, [], AtStat(data), Idle), r1);
    Go(sha, Two(none, [], AtStat(data), Idle), Step(0, Error), Two(none, [], AtTemp(data), Idle), r2);
    Go(sha, Two(none, [], AtTemp(data), Idle), Step(0, Done(0, "x")), Two(has, [""], AtWrite(data, name, 0, 0), Idle), r3);
    Go(sha, Two(has, [""], AtWrite(data, name, 0, 0), Idle), Step(0, Done(|data|, "")),
       Two(has, [data], AtWrite(data, name, 0, |data|), Idle), r4);
    Go(sha, Two(has, [data], AtWrite(data, name, 0, |data|), Idle), Step(0, Done(0, "")),
       Two(has, [data], AtRename(data, name, 0), Idle), r5);
    Go(sha, Two(has, [data], AtRename(data, name, 0), Idle), Start(1, data),
       Two(has, [data], AtRename(data, name, 0), AtStat(data)), r6);
    Go(sha, Two(has, [data], AtRename(data, name, 0), AtStat(data)), Step(1, Error),
       Two(has, [data], AtRename(data, name, 0), AtTemp(data)), []);
  }

  /** From an empty store, with a reused name, a Put succeeds and its object has other bytes. */
  lemma ReusedNameCorrupts(sha: string -> Digest, data: string)
    requires data != "" && !Collision(sha, "", data)
    ensures
      var h := ContentHash(sha, data);
      var s := Exec(sha, Two(map[], [], Idle, Idle), Writing(data));
      var t := Exec(sha, s, Reusing(TempName(h, "x")));
      t.writers[0] == Stored(data) && h in t.dir && t.dir[h] == 1 && t.files == [data, ""] && ContentHash(sha, "") != h
  {
    var h := ContentHash(sha, data);
    var name := TempName(h, "x");
    var w0, w1 := AtRename(data, name, 0), AtTemp(data);
    TempNames(h, "x");
    WritingRuns(sha, data);
    if ContentHash(sha, "") == h {
      HexInjective(sha(""), sha(data));
    }
    hide ContentHash, TempName;
    var swept := Two(map[], [data], w0, w1);
    var drawn := Two(map[name := 1], [data, ""], w0, AtWrite(data, name, 1, 0));
    var renamed := Two(map[h := 1], [data, ""], Stored(data), AtWrite(data, name, 1, 0));
    Go(sha, Two(map[name := 0], [data], w0, w1), Sweep({name}), swept, [Step(1, Done(0, "x"))] + ([Step(0, Done(0, ""))] + []));
    Go(sha, swept, Step(1, Done(0, "x")), drawn, [Step(0, Done(0, ""))] + []);
    Go(sha, drawn, Step(0, Done(0, "")), renamed, []);
  }
}
