/** The shared scratch directory `/tmp` and the best-effort `.mp4` sweep that
    `/cleanup` runs and that `/download` runs before every fetch. */
module ScratchStore {
  import opened FileNames
  import opened Units

  /** The `.mp4` names of a listing whose `os.remove` succeeds. */
  function Removable(names: set<string>, locked: set<string>): set<string> {
    set n | n in names && EndsWith(n, Mp4) && n !in locked
  }

  /** Listing one more name adds it to the removable ones exactly when it
      is an `.mp4` whose removal succeeds. */
  lemma RemovableInsert(done: set<string>, name: string, locked: set<string>)
    requires name !in done
    ensures Removable(done + {name}, locked) ==
              if EndsWith(name, Mp4) && name !in locked then Removable(done, locked) + {name}
              else Removable(done, locked)
    ensures |Removable(done + {name}, locked)| ==
              |Removable(done, locked)| + if EndsWith(name, Mp4) && name !in locked then 1 else 0
  {
    if EndsWith(name, Mp4) && name !in locked {
      assert name !in Removable(done, locked);
    }
  }

  /** Removing names in two steps is removing them all at once. */
  lemma RemoveInTwoSteps(files: map<string, nat>, gone: set<string>, name: string)
    ensures files - gone - {name} == files - (gone + {name})
  {
    var lhs := files - gone - {name};
    var rhs := files - (gone + {name});
    assert lhs.Keys == rhs.Keys;
  }

  /** The directory left by one sweep: every `.mp4` file whose removal
      succeeds is gone, every other file is still there with its size. */
  function Swept(files: map<string, nat>, locked: set<string>): (r: map<string, nat>)
    ensures forall n :: n in r <==> n in files && (!EndsWith(n, Mp4) || n in locked)
    ensures forall n :: n in r ==> r[n] == files[n]
  {
    files - Removable(files.Keys, locked)
  }

  /** The count a sweep reports is the number of files that disappeared. */
  lemma SweptCountsVanished(files: map<string, nat>, locked: set<string>)
    ensures |Removable(files.Keys, locked)| == |files.Keys| - |Swept(files, locked).Keys|
  {
    var gone := Removable(files.Keys, locked);
    assert Swept(files, locked).Keys == files.Keys - gone;
    assert files.Keys == (files.Keys - gone) + gone;
    assert (files.Keys - gone) * gone == {};
  }

  /** A second sweep with no new `.mp4` file in between removes nothing and
      so reports 0 (a name whose removal failed fails again). */
  lemma SecondSweepRemovesNothing(files: map<string, nat>, locked: set<string>)
    ensures Swept(Swept(files, locked), locked) == Swept(files, locked)
    ensures |Removable(Swept(files, locked).Keys, locked)| == 0
  {
    var once := Swept(files, locked);
    assert Removable(once.Keys, locked) == {};
  }

  /** The scratch directory: its files by name with their size in bytes, and
      the names whose removal raises (a directory, a file the process may not
      delete); such a name stays undeletable for the directory's lifetime. */
  class ScratchDir {
    var files: map<string, nat>
    const locked: set<string>

    constructor (files: map<string, nat>, locked: set<string>)
      ensures this.files == files && this.locked == locked
    {
      this.files := files;
      this.locked := locked;
    }

    /** An external tool (yt-dlp, ffmpeg) writes or overwrites `name`. */
    method Write(name: string, size: nat)
      modifies this
      ensures files == old(files)[name := size]
    {
      files := files[name := size];
    }

    /** `os.remove`: `ok` is false exactly when it would raise. */
    method Remove(name: string) returns (ok: bool)
      modifies this
      ensures ok == (name in old(files) && name !in locked)
      ensures files == if ok then old(files) - {name} else old(files)
    {
      ok := name in files && name !in locked;
      if ok {
        files := files - {name};
      }
    }

    /** The loop over `os.listdir('/tmp')` that removes every name ending in
      `.mp4`, swallows each failed removal and counts the successful ones. */
    method SweepMp4() returns (removed: nat)
      modifies this
      ensures files == Swept(old(files), locked)
      ensures removed == |Removable(old(files).Keys, locked)|
    {
      var listing := files.Keys;
      var pending := listing;
      removed := 0;
      while pending != {}
        invariant pending <= listing
        invariant files == old(files) - Removable(listing - pending, locked)
        invariant removed == |Removable(listing - pending, locked)|
        decreases pending
      {
        var name :| name in pending;
        ghost var done := listing - pending;
        ghost var gone := Removable(done, locked);
        RemovableInsert(done, name, locked);
        ghost var next := Removable(done + {name}, locked);
        if EndsWith(name, Mp4) {
          var ok := Remove(name);
          if ok {
            assert next == gone + {name} && |next| == removed + 1;
            removed := removed + 1;
            RemoveInTwoSteps(old(files), gone, name);
          } else {
            assert next == gone;
          }
        } else {
          assert next == gone;
        }
        pending := pending - {name};
        assert listing - pending == done + {name};
      }
      assert listing - pending == old(files).Keys;
    }
  }

  /** The `/cleanup` answer. */
  datatype CleanupReport = CleanupReport(filesCleaned: nat, diskFreeGb: nat)

  /** `/cleanup`: sweep, then report the count and the free space, which the
      OS measures after the sweep (`freeBytes`). */
  method Cleanup(dir: ScratchDir, freeBytes: nat) returns (report: CleanupReport)
    modifies dir
    ensures dir.files == Swept(old(dir.files), dir.locked)
    ensures report.filesCleaned == |Removable(old(dir.files).Keys, dir.locked)|
    ensures report.diskFreeGb == Gigabytes(freeBytes)
  {
    var cleaned := dir.SweepMp4();
    report := CleanupReport(cleaned, Gigabytes(freeBytes));
  }

  /** Two `/cleanup` calls in a row: the second reports no file cleaned. */
  method CleanupTwice(dir: ScratchDir, freeBytes: nat) returns (first: CleanupReport, second: CleanupReport)
    modifies dir
    ensures first.filesCleaned == |Removable(old(dir.files).Keys, dir.locked)|
    ensures second.filesCleaned == 0
    ensures dir.files == Swept(old(dir.files), dir.locked)
  {
    first := Cleanup(dir, freeBytes);
    SecondSweepRemovesNothing(old(dir.files), dir.locked);
    second := Cleanup(dir, freeBytes);
  }
}
