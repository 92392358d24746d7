/** Replacing a package on disk: whatever fails, and wherever the process stops, a whole package remains. */
module PackageFile {
  datatype Outcome = Replaced | Refused | Stopped

  class Disk {
    var files: map<string, string>

    constructor (files: map<string, string>)
      ensures this.files == files
    {
      this.files := files;
    }

    /** A rename may fail; the destination is then as it was. */
    method Rename(src: string, dest: string) returns (ok: bool)
      requires src != dest
      modifies this
      ensures ok ==> src in old(files)
      ensures files == if ok then old(files)[dest := old(files)[src]] - {src} else old(files)
    {
      ok := *;
      ok := ok && src in files;
      if ok {
        files := files[dest := files[src]] - {src};
      }
    }

    method Remove(name: string)
      modifies this
      ensures files == old(files) || files == old(files) - {name}
    {
      if * {
        files := files - {name};
      }
    }

    /** The process stops here, or it does not. */
    method Stops() returns (now: bool)
    {
      now := *;
    }

    /**
     * Installs the package at `src` over `dest`. The old package is at `dest` or at its backup
     * name, unless the new one is at `dest`; other files are untouched.
     */
    method ReplaceFile(src: string, dest: string, bak: string) returns (out: Outcome)
      requires src in files && dest in files && src != dest && src != bak && dest != bak
      modifies this
      ensures out == Replaced ==> dest in files && files[dest] == old(files[src]) && src !in files
      ensures out == Refused ==> files - {bak} == old(files) - {bak} || (dest !in files && bak in files && files[bak] == old(files[dest]))
      ensures
        || (dest in files && files[dest] == old(files[src]))
        || (dest in files && files[dest] == old(files[dest]))
        || (bak in files && files[bak] == old(files[dest]))
      ensures files - {src, dest, bak} == old(files) - {src, dest, bak}
    {
      var ok := Rename(src, dest);
      if ok {
        return Replaced;
      }
      var stop := Stops();
      if stop {
        return Stopped;
      }
      Remove(bak);
      ok := Rename(dest, bak);
      if !ok {
        return Refused;
      }
      stop := Stops();
      if stop {
        return Stopped;
      }
      ok := Rename(src, dest);
      if !ok {
        stop := Stops();
        if stop {
          return Stopped;
        }
        ok := Rename(bak, dest);
        return Refused;
      }
      stop := Stops();
      if stop {
        return Stopped;
      }
      Remove(bak);
      return Replaced;
    }
  }
}
