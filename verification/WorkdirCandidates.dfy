/** What a cleanup may touch, in terms of paths and times alone: which files it scans, spares and deletes. */
module WorkdirCandidates {
  import opened Common
  import opened FileStreamSpec
  import opened WorkdirCleanup

  // ---------- Names ----------

  /** The endings of TDLib's own files. */
  const ENDINGS := [".binlog", ".binlog.new", ".sqlite", ".sqlite-wal", ".sqlite-shm", ".sqlite-journal"]

  ghost predicate IsSpared(path: Path) {
    exists start, i :: 0 <= i < |ENDINGS| && path == start + ENDINGS[i]
  }

  predicate HasSlash(s: string) {
    '/' in s
  }

  /** A name without a slash that ends a path ends its file name. */
  lemma {:induction false} NameEndsPath(path: Path, start: string, suffix: string)
    requires path == start + suffix && !HasSlash(suffix)
    ensures EndsWith(FileName(path), suffix)
    decreases |suffix|
  {
    if suffix != "" {
      var n := |suffix| - 1;
      hide FileName, EndsWith;
      assert path[..|path| - 1] == start + suffix[..n] && path[|path| - 1] == suffix[n];
      assert suffix[n] in suffix && forall c | c in suffix[..n] :: c in suffix;
      NameEndsPath(path[..|path| - 1], start, suffix[..n]);
      NameGrows(path);
      EndGrows(FileName(path[..|path| - 1]), suffix[..n], suffix[n]);
      assert suffix == suffix[..n] + [suffix[n]];
    } else {
      assert FileName(path)[|FileName(path)|..] == "";
    }
  }

  lemma NameGrows(path: Path)
    requires path != "" && path[|path| - 1] != '/'
    ensures FileName(path) == FileName(path[..|path| - 1]) + [path[|path| - 1]]
  {
  }

  lemma EndGrows(s: string, end: string, c: char)
    requires EndsWith(s, end)
    ensures EndsWith(s + [c], end + [c])
  {
    assert s == s[..|s| - |end|] + end;
    assert s + [c] == s[..|s| - |end|] + (end + [c]);
  }

  lemma {:induction false} NameIsEnd(path: Path)
    ensures |FileName(path)| <= |path| && path[|path| - |FileName(path)|..] == FileName(path)
  {
    if path != "" && path[|path| - 1] != '/' {
      NameIsEnd(path[..|path| - 1]);
      assert path == path[..|path| - 1] + [path[|path| - 1]];
    }
  }

  /** TDLib's own files are those that end in one of the six endings, wherever they are. */
  lemma PersistentIsSpared(path: Path)
    ensures IsPersistent(path) <==> IsSpared(path)
  {
    NoSlashes();
    WhichEnding(path);
    hide FileName, IsPersistent;
    var name := FileName(path);
    NameIsEnd(path);
    if i :| 0 <= i < |ENDINGS| && EndsWith(name, ENDINGS[i]) {
      var suffix := ENDINGS[i];
      assert name == name[..|name| - |suffix|] + suffix;
      assert path == path[..|path| - |name|] + name;
      assert path == (path[..|path| - |name|] + name[..|name| - |suffix|]) + suffix;
    }
    if IsSpared(path) {
      var start, i :| 0 <= i < |ENDINGS| && path == start + ENDINGS[i];
      NameEndsPath(path, start, ENDINGS[i]);
    }
  }

  lemma WhichEnding(path: Path)
    ensures IsPersistent(path) <==> exists i :: 0 <= i < |ENDINGS| && EndsWith(FileName(path), ENDINGS[i])
  {
    hide FileName, EndsWith;
    assert ENDINGS[0] == ".binlog" && ENDINGS[1] == ".binlog.new" && ENDINGS[2] == ".sqlite";
    assert ENDINGS[3] == ".sqlite-wal" && ENDINGS[4] == ".sqlite-shm" && ENDINGS[5] == ".sqlite-journal";
  }

  lemma NoSlashes()
    ensures forall i | 0 <= i < |ENDINGS| :: !HasSlash(ENDINGS[i])
  {
  }

  /** Two dots in a row, anywhere. */
  ghost predicate GoesUp(s: string) {
    exists i :: TwoDots(s, i)
  }

  predicate TwoDots(s: string, i: int) {
    0 <= i < |s| - 1 && s[i] == '.' && s[i + 1] == '.'
  }

  lemma {:induction false} DotsGoUp(s: string)
    ensures HasDots(s) <==> GoesUp(s)
  {
    if |s| >= 2 {
      DotsGoUp(s[1..]);
      assert s[..2] == ".." <==> TwoDots(s, 0);
      if i :| TwoDots(s[1..], i) {
        assert TwoDots(s, i + 1);
      }
      if i :| TwoDots(s, i) {
        assert i > 0 ==> TwoDots(s[1..], i - 1);
      }
    }
  }

  /** What the directory of the workdir is called in front of a file. */
  function RootOf(workdir: string): string
    requires workdir != ""
  {
    if workdir[|workdir| - 1] == '/' then workdir else workdir + "/"
  }

  /** The path lies in the workdir, does not lead out of it, and is not one of TDLib's own files. */
  ghost predicate MayGo(workdir: string, path: Path) {
    && workdir != "" && (exists rest :: rest != "" && path == RootOf(workdir) + rest && !GoesUp(rest))
    && !IsSpared(path)
  }

  lemma CandidatesMayGo(workdir: string, path: Path)
    ensures IsCandidate(workdir, path) <==> MayGo(workdir, path)
  {
    PersistentIsSpared(path);
    hide IsPersistent, IsSpared, HasDots, GoesUp;
    if IsCandidate(workdir, path) {
      var root := RootOf(workdir);
      assert path == root + path[|root|..];
      DotsGoUp(path[|root|..]);
    }
    if MayGo(workdir, path) {
      var rest :| rest != "" && path == RootOf(workdir) + rest && !GoesUp(rest);
      assert path[|RootOf(workdir)|..] == rest;
      DotsGoUp(rest);
    }
  }

  // ---------- What is scanned and what is deleted ----------

  /** Of the regular files found, exactly those are scanned that lie in the workdir and are not TDLib's own. */
  lemma ScansExactly(workdir: string, found: seq<File>, f: File)
    ensures f in Scanned(workdir, found) <==> f in found && MayGo(workdir, f.path)
  {
    CandidatesMayGo(workdir, f.path);
    hide IsCandidate, MayGo;
  }

  /** Of those, the ones may be deleted for which no stream is counted. */
  lemma OffersExactly(workdir: string, found: seq<File>, active: map<Path, int>, f: File)
    ensures f in Unused(Scanned(workdir, found), active) <==>
            f in found && MayGo(workdir, f.path) && (f.path in active ==> active[f.path] <= 0)
  {
    ScansExactly(workdir, found, f);
    hide MayGo, Scanned;
  }

  /**
   A deleted file was found in the workdir: its path is that of the workdir, a slash and something that does not lead
   out of it. None of TDLib's own files is deleted, in whatever directory.
   */
  lemma DeletesNothingElse(cfg: CleanupConfig, found: seq<File>, active: map<Path, int>, now: nat,
                           deletes: (Path, nat) -> bool, candidates: seq<File>, r: CleanupResult, i: nat)
    requires Cleaned(cfg, active, now, deletes, Scanned(cfg.workdir, found), candidates, r.deletedFiles, r)
    requires i < r.deletedFiles
    ensures candidates[i] in found && cfg.workdir != ""
    ensures exists rest :: rest != "" && candidates[i].path == RootOf(cfg.workdir) + rest && !GoesUp(rest)
    ensures forall dir, name, k | 0 <= k < |ENDINGS| && !HasSlash(name) ::
              candidates[i].path != dir + "/" + name + ENDINGS[k]
  {
    hide Deleted, Doomed, ByAccessTime, Scanned, IsSpared;
    assert candidates[i] in multiset(candidates);
    assert candidates[i] in Unused(Scanned(cfg.workdir, found), active);
    ScansExactly(cfg.workdir, found, candidates[i]);
    NotSpared(candidates[i].path);
  }

  lemma NotSpared(path: Path)
    requires !IsSpared(path)
    ensures forall dir, name, k | 0 <= k < |ENDINGS| && !HasSlash(name) :: path != dir + "/" + name + ENDINGS[k]
  {
  }

  /**
   Age alone decides as long as the threshold is not reached: without failures exactly those unused files are deleted
   that were last used a time to live ago or longer.
   */
  lemma AgeDecides(cfg: CleanupConfig, found: seq<File>, active: map<Path, int>, now: nat,
                   deletes: (Path, nat) -> bool, candidates: seq<File>, r: CleanupResult, i: nat)
    requires Cleaned(cfg, active, now, deletes, Scanned(cfg.workdir, found), candidates, r.deletedFiles, r)
    requires r.failedFiles == 0 && !r.thresholdCleanup && i < |candidates| && cfg.fileTtl < 18_446_744_074
    ensures i < r.deletedFiles <==>
            cfg.fileTtl > 0 && candidates[i].accessTime + cfg.fileTtl * 1_000_000_000 <= now
  {
    hide Deleted, Scanned, Unused;
    TtlIsExact(cfg.fileTtl);
  }

  /** A file of negative size counts for nothing, and any other one for its size. */
  lemma SizesAddUp(files: seq<File>, f: File)
    ensures TotalSize(files + [f]) == TotalSize(files) + if f.size < 0 then 0 else f.size
    ensures TotalSize([]) == 0
  {
    TotalSizeSnoc(files, f);
  }
}
