/** Content-addressed storage: hashes and names, the read path, sweeping and rehydration. */
module Cas {
  import opened Base
  import opened Text

  function ContentHash(sha: string -> Digest, data: string): (h: string)
    ensures IsHash(h)
  {
    Hex(sha(data))
  }

  predicate IsHash(h: string) {
    |h| == 64 && IsHex(h)
  }

  function NormalizeHash(s: string): Option<string> {
    var h := ToLower(Trim(s));
    if IsHash(h) then Some(h) else None
  }

  /** Hashes in normal form are their own normal form, so every accepted spelling has one name. */
  lemma NormalFormIsStable(s: string)
    ensures IsHash(s) ==> NormalizeHash(s) == Some(s)
    ensures NormalizeHash(s).Some? ==> IsHash(NormalizeHash(s).value)
    ensures NormalizeHash(s).Some? ==> NormalizeHash(NormalizeHash(s).value) == NormalizeHash(s)
  {
    forall h | IsHash(h) ensures NormalizeHash(h) == Some(h) {
      HexIsNormal(h);
    }
  }

  /** The names that a sweep considers. */
  predicate IsTempName(name: string) {
    |name| >= 66 && name[0] == '.' && IsHex(name[1..65]) && name[65] == '.'
  }

  function TempName(h: string, suffix: string): string {
    "." + h + "." + suffix
  }

  lemma TempNames(h: string, suffix: string)
    requires IsHash(h)
    ensures IsTempName(TempName(h, suffix))
    ensures forall g | IsHash(g) :: !IsTempName(g)
  {
    var n := TempName(h, suffix);
    assert n[1..65] == h && n[65] == '.';
  }

  datatype GetResult = Found(data: string) | NotFound | Corrupt | Invalid | IoError

  datatype PutResult = Present | CorruptObject | IoFailed

  datatype File = File(bytes: string, modified: int)

  /** A store on its own: what one process sees between two system calls. */
  class FileSystem {
    const sha: string -> Digest
    var dir: map<string, File>

    /** Every object at a final name hashes to that name. */
    ghost predicate Valid()
      reads this
    {
      forall h | h in dir && IsHash(h) :: ContentHash(sha, dir[h].bytes) == h
    }

    /** What is there is served only if it hashes to its name; reading can fail for other reasons. */
    method Get(contentHash: string) returns (res: GetResult)
      ensures NormalizeHash(contentHash).None? <==> res == Invalid
      ensures NormalizeHash(contentHash).Some? && res != IoError ==>
        var h := NormalizeHash(contentHash).value;
        && (res == NotFound <==> h !in dir)
        && (res.Found? <==> h in dir && ContentHash(sha, dir[h].bytes) == h)
        && (res.Found? ==> res.data == dir[h].bytes)
        && (res == Corrupt <==> h in dir && ContentHash(sha, dir[h].bytes) != h)
    {
      var n := NormalizeHash(contentHash);
      if n.None? {
        return Invalid;
      }
      var readable := Attempt();
      if !readable {
        return IoError;
      }
      if n.value !in dir {
        return NotFound;
      }
      var data := dir[n.value].bytes;
      if ContentHash(sha, data) != n.value {
        return Corrupt;
      }
      return Found(data);
    }

    /** A system call that can fail; `ok` is what it reports. */
    method Attempt() returns (ok: bool)
    {
      ok := *;
    }

    method CreateTemp(h: string, suffix: string, now: int) returns (ok: bool)
      modifies this
      ensures ok ==> TempName(h, suffix) !in old(dir) && dir == old(dir)[TempName(h, suffix) := File("", now)]
      ensures !ok ==> dir == old(dir)
    {
      ok := Attempt();
      if TempName(h, suffix) in dir {
        ok := false;
      }
      if ok {
        dir := dir[TempName(h, suffix) := File("", now)];
      }
    }

    /** A write can stop part way. */
    method Write(name: string, data: string, now: int) returns (ok: bool)
      requires name in dir
      modifies this
      ensures exists n | 0 <= n <= |data| :: dir == old(dir)[name := File(data[..n], now)] && (ok ==> n == |data|)
    {
      var n := |data|;
      ok := Attempt();
      if !ok {
        n :| 0 <= n <= |data|;
      }
      dir := dir[name := File(data[..n], now)];
    }

    method Rename(name: string, path: string) returns (ok: bool)
      requires name in dir && name != path
      modifies this
      ensures dir == if ok then old(dir)[path := old(dir)[name]] - {name} else old(dir)
    {
      ok := Attempt();
      if ok {
        dir := dir[path := dir[name]] - {name};
      }
    }

    method Remove(name: string)
      modifies this
      ensures dir == old(dir) || dir == old(dir) - {name}
    {
      var ok := Attempt();
      if ok {
        dir := dir - {name};
      }
    }

    /**
     * One writer alone, over any store. Success means an object that hashes to its name; an object
     * that is there already is never written to, and if it is corrupt that is the error. Failure
     * leaves every object as it was, and the only trace of a Put besides its object is one temp.
     */
    method Put(data: string, suffix: string, now: int) returns (res: PutResult, h: string)
      modifies this
      ensures h == ContentHash(sha, data) && (old(Valid()) ==> Valid())
      ensures h in old(dir) && res != IoFailed ==> (res == Present <==> ContentHash(sha, old(dir)[h].bytes) == h)
      ensures h in old(dir) ==> dir == old(dir)
      ensures h !in old(dir) ==> res != CorruptObject && (res == Present ==> h in dir && dir[h].bytes == data)
      ensures res != Present ==> dir - {TempName(h, suffix)} == old(dir) - {TempName(h, suffix)}
      ensures dir - {TempName(h, suffix), h} == old(dir) - {TempName(h, suffix), h}
    {
      h := ContentHash(sha, data);
      if h in dir {
        var readable := Attempt();
        if !readable {
          return IoFailed, h;
        }
        return if ContentHash(sha, dir[h].bytes) == h then Present else CorruptObject, h;
      }
      TempNames(h, suffix);
      var name := TempName(h, suffix);
      var ok := CreateTemp(h, suffix, now);
      if !ok {
        return IoFailed, h;
      }
      ok := Write(name, data, now);
      if ok {
        ok := Attempt();
      }
      if ok {
        assert data[..|data|] == data;
        ok := Rename(name, h);
        // A failed rename finds no object to accept: nobody else is writing.
      }
      if !ok {
        Remove(name);
      }
      res := if ok then Present else IoFailed;
    }

    /** The sweep removes stale temporary files and nothing else. */
    method SweepStaleTempFiles(now: int, maxAge: int)
      modifies this
      ensures forall name | name in old(dir) ::
        (name in dir <== !(IsTempName(name) && now - old(dir)[name].modified > maxAge))
      ensures forall name | name in dir :: name in old(dir) && dir[name] == old(dir)[name]
      ensures old(Valid()) ==> Valid()
    {
      var todo := dir.Keys;
      while todo != {}
        invariant todo <= old(dir).Keys
        invariant forall name | name in old(dir) ::
          (name in dir <== name in todo || !(IsTempName(name) && now - old(dir)[name].modified > maxAge))
        invariant forall name | name in dir :: name in old(dir) && dir[name] == old(dir)[name]
      {
        var name :| name in todo;
        if IsTempName(name) && name in dir && now - dir[name].modified > maxAge {
          Remove(name);
        }
        todo := todo - {name};
      }
    }
  }

  // ---- Rehydration

  datatype Rehydrated = Ok(objects: map<string, string>) | Failed(why: GetResult)

  /** An entry stops the rehydration. */
  predicate Stops(get: string -> GetResult, requireAll: bool, entry: string) {
    match NormalizeHash(entry)
    case None => true
    case Some(h) => !get(h).Found? && (get(h) != NotFound || requireAll)
  }

  predicate Fetched(get: string -> GetResult, entry: string, h: string) {
    NormalizeHash(entry) == Some(h) && get(h).Found?
  }

  /** The objects are exactly the requested hashes that the store has, each with its bytes. */
  method Rehydrate(get: string -> GetResult, entries: seq<string>, requireAll: bool) returns (res: Rehydrated)
    ensures res.Ok? <==> forall i | 0 <= i < |entries| :: !Stops(get, requireAll, entries[i])
    ensures res.Ok? ==>
      && (forall h :: h in res.objects <==> exists i | 0 <= i < |entries| :: Fetched(get, entries[i], h))
      && (forall h | h in res.objects :: get(h) == Found(res.objects[h]))
    ensures res.Ok? && requireAll ==>
      forall i | 0 <= i < |entries| :: NormalizeHash(entries[i]).Some? && NormalizeHash(entries[i]).value in res.objects
  {
    hide NormalizeHash;
    var out: map<string, string> := map[];
    for i := 0 to |entries|
      invariant forall j | 0 <= j < i :: !Stops(get, requireAll, entries[j])
      invariant forall h :: h in out <==> exists j | 0 <= j < i :: Fetched(get, entries[j], h)
      invariant forall h | h in out :: get(h) == Found(out[h])
    {
      var n := NormalizeHash(entries[i]);
      if n.None? {
        assert Stops(get, requireAll, entries[i]);
        return Failed(Invalid);
      }
      if n.value !in out {
        var r := get(n.value);
        if r.Found? {
          assert Fetched(get, entries[i], n.value);
          out := out[n.value := r.data];
        } else if r != NotFound || requireAll {
          assert Stops(get, requireAll, entries[i]);
          return Failed(r);
        }
      }
    }
    forall i | 0 <= i < |entries| && requireAll
      ensures NormalizeHash(entries[i]).Some? && NormalizeHash(entries[i]).value in out
    {
      assert !Stops(get, requireAll, entries[i]);
      assert Fetched(get, entries[i], NormalizeHash(entries[i]).value);
    }
    res := Ok(out);
  }
}
