/** Cleaning up the workdir: which files go, in which order, and what a new download must leave free. */
module WorkdirCleanup {
  import opened Common
  import opened FileStreamSpec

  const INT64_MAX := 0x7fff_ffff_ffff_ffff
  const UINT64 := 0x1_0000_0000_0000_0000
  const MAX_RETRIES: nat := 3

  // ---------- Admission of a new download ----------

  datatype SpaceCheck = SpaceCheck(
    allowed: bool, freeKnown: bool, unknownSize: bool, free: int, minFree: int, required: int, increment: int)

  function CheckWorkdirSpace(free: int, minFree: int, fileSize: int, existing: int, margin: int): SpaceCheck {
    var keep := Max(0, minFree);
    if free < 0 then SpaceCheck(false, false, false, -1, keep, 0, 0) else
    var increment := if fileSize >= 0 then Max(0, fileSize - Max(0, existing)) else Max(0, margin);
    var required := if increment > INT64_MAX - keep then INT64_MAX else keep + increment;
    SpaceCheck(free >= required, true, fileSize < 0, free, keep, required, increment)
  }

  /** What the download adds to the workdir, or what is reserved for it when its size is not known. */
  function Grows(fileSize: int, existing: int, margin: int): int {
    if fileSize < 0 then Max(0, margin) else if fileSize <= Max(0, existing) then 0 else fileSize - Max(0, existing)
  }

  /**
   A download is admitted exactly when it leaves the minimum free, and never without knowing what is free. The one
   exception is a disk that reports the largest number there is, which is taken to be enough for anything.
   */
  lemma AdmissionLeavesTheMinimum(free: int, minFree: int, fileSize: int, existing: int, margin: int)
    requires free <= INT64_MAX && minFree <= INT64_MAX && fileSize <= INT64_MAX && margin <= INT64_MAX
    ensures CheckWorkdirSpace(free, minFree, fileSize, existing, margin).allowed <==>
            free >= 0 && (free - Grows(fileSize, existing, margin) >= Max(0, minFree) || free == INT64_MAX)
    ensures 0 <= CheckWorkdirSpace(free, minFree, fileSize, existing, margin).required <= INT64_MAX
  {
  }

  // ---------- Candidates ----------

  predicate EndsWith(s: string, suffix: string) {
    |suffix| <= |s| && s[|s| - |suffix|..] == suffix
  }

  /** The part of a path behind its last slash. */
  function FileName(path: Path): string {
    if path == "" || path[|path| - 1] == '/' then "" else FileName(path[..|path| - 1]) + [path[|path| - 1]]
  }

  /** TDLib's own databases and logs. */
  predicate IsPersistent(path: Path) {
    var name := FileName(path);
    EndsWith(name, ".binlog") || EndsWith(name, ".binlog.new") || EndsWith(name, ".sqlite")
    || EndsWith(name, ".sqlite-wal") || EndsWith(name, ".sqlite-shm") || EndsWith(name, ".sqlite-journal")
  }

  predicate HasDots(s: string) {
    |s| >= 2 && (s[..2] == ".." || HasDots(s[1..]))
  }

  predicate IsCandidate(workdir: string, path: Path) {
    workdir != "" && path != "" &&
    var root := if workdir[|workdir| - 1] == '/' then workdir else workdir + "/";
    root <= path && path != root && !HasDots(path[|root|..]) && !IsPersistent(path)
  }

  // ---------- One cleanup ----------

  /** A regular file found in the workdir; a size below 0 counts as 0. */
  datatype File = File(path: Path, size: int, accessTime: nat)

  datatype CleanupConfig = CleanupConfig(
    workdir: string, threshold: int, target: int, fileTtl: int, minFree: int)

  datatype CleanupResult = CleanupResult(
    scannedBytes: int, scannedFiles: nat, deletedBytes: int, deletedFiles: nat, failedFiles: nat, free: int,
    thresholdCleanup: bool, emergency: bool)

  function SizeOf(f: File): int {
    Max(0, f.size)
  }

  function TotalSize(files: seq<File>): int {
    if files == [] then 0 else TotalSize(files[..|files| - 1]) + SizeOf(files[|files| - 1])
  }

  lemma TotalSizeSnoc(files: seq<File>, f: File)
    ensures TotalSize(files + [f]) == TotalSize(files) + SizeOf(f)
  {
    assert (files + [f])[..|files|] == files;
  }

  /** std::unordered_map: a path that is not counted is not used. */
  predicate IsActive(active: map<Path, int>, path: Path) {
    path in active && active[path] > 0
  }

  /** The time to live in nanoseconds, in the 64 bits the source has for it; 0 means that files do not expire. */
  function TtlNanoseconds(ttl: int): nat {
    if ttl > 0 then (ttl * 1_000_000_000) % UINT64 else 0
  }

  predicate IsExpired(f: File, now: nat, ttl: nat) {
    ttl > 0 && f.accessTime <= now && now - f.accessTime >= ttl
  }

  predicate ByAccessTime(files: seq<File>) {
    forall i, j | 0 <= i < j < |files| :: files[i].accessTime <= files[j].accessTime
  }

  /** The number of expired files, which come first. */
  function Expired(files: seq<File>, now: nat, ttl: nat): (n: nat)
    requires ByAccessTime(files)
    ensures n <= |files| && forall i | 0 <= i < |files| :: IsExpired(files[i], now, ttl) <==> i < n
  {
    if files == [] || !IsExpired(files[0], now, ttl) then 0 else 1 + Expired(files[1..], now, ttl)
  }

  /** The least number of files whose deletion brings `remaining` down to the target; all of them if nothing does. */
  function Excess(files: seq<File>, remaining: int, target: int): (n: nat)
    ensures n <= |files|
  {
    if files == [] || remaining <= target then 0 else 1 + Excess(files[1..], remaining - SizeOf(files[0]), target)
  }

  lemma {:induction false} TotalSizeCons(files: seq<File>)
    requires files != []
    ensures TotalSize(files) == SizeOf(files[0]) + TotalSize(files[1..])
  {
    if |files| > 1 {
      TotalSizeCons(files[..|files| - 1]);
      assert files[1..][..|files| - 2] == files[..|files| - 1][1..];
    }
  }

  /** `Excess` is that number: before it the target is exceeded, at it the target is met or no file is left. */
  lemma {:induction false} ExcessIsLeast(files: seq<File>, remaining: int, target: int, k: nat)
    requires k <= |files|
    ensures k < Excess(files, remaining, target) ==> remaining - TotalSize(files[..k]) > target
    ensures Excess(files, remaining, target) <= k < |files| ==> remaining - TotalSize(files[..k]) <= target
  {
    if files != [] && k > 0 {
      var rest := files[1..];
      TotalSizeCons(files[..k]);
      assert files[..k][1..] == rest[..k - 1];
      ExcessIsLeast(rest, remaining - SizeOf(files[0]), target, k - 1);
      if remaining <= target {
        TotalSizeNat(files[..k]);
      }
    }
  }

  lemma {:induction false} TotalSizeNat(files: seq<File>)
    ensures TotalSize(files) >= 0
  {
    if files != [] {
      TotalSizeNat(files[..|files| - 1]);
    }
  }

  /** How many of the candidates are to go. */
  function Doomed(cfg: CleanupConfig, candidates: seq<File>, scanned: int, now: nat): nat
    requires ByAccessTime(candidates)
  {
    var excess := if cfg.threshold > 0 && scanned >= cfg.threshold then Excess(candidates, scanned, cfg.target) else 0;
    Max(Expired(candidates, now, TtlNanoseconds(cfg.fileTtl)), excess)
  }

  predicate CanDelete(path: Path, deletes: (Path, nat) -> bool) {
    exists attempt :: 0 <= attempt <= MAX_RETRIES && deletes(path, attempt)
  }

  /** Four attempts; `deletes` tells whether an attempt at a path succeeds. */
  method DeleteWithRetries(path: Path, deletes: (Path, nat) -> bool) returns (ok: bool)
    ensures ok <==> CanDelete(path, deletes)
  {
    var attempt := 0;
    while attempt <= MAX_RETRIES
      invariant attempt <= MAX_RETRIES + 1 && forall a | 0 <= a < attempt :: !deletes(path, a)
    {
      if deletes(path, attempt) {
        return true;
      }
      attempt := attempt + 1;
    }
    return false;
  }

  /** The files that no stream holds. */
  function Unused(files: seq<File>, active: map<Path, int>): (r: seq<File>)
    ensures forall f :: f in r <==> f in files && !IsActive(active, f.path)
  {
    if files == [] then [] else
    var l := files[|files| - 1];
    Unused(files[..|files| - 1], active) + if IsActive(active, l.path) then [] else [l]
  }

  /** std::sort by access time. */
  method SortByAccessTime(files: seq<File>) returns (sorted: seq<File>)
    ensures ByAccessTime(sorted) && multiset(sorted) == multiset(files)
  {
    hide ByAccessTime;
    sorted := [];
    NothingToSort(files);
    for i := 0 to |files|
      invariant ByAccessTime(sorted) && multiset(sorted) == multiset(files[..i])
    {
      sorted := InsertByAccessTime(sorted, files[i]);
      OneMoreItem(files, i);
    }
    assert files[..|files|] == files;
  }

  method InsertByAccessTime(sorted: seq<File>, f: File) returns (r: seq<File>)
    requires ByAccessTime(sorted)
    ensures ByAccessTime(r) && multiset(r) == multiset(sorted) + multiset{f}
  {
    hide ByAccessTime;
    var k: nat := |sorted|;
    while k > 0 && sorted[k - 1].accessTime > f.accessTime
      invariant k <= |sorted| && (k < |sorted| ==> sorted[k].accessTime > f.accessTime)
    {
      k := k - 1;
    }
    InTheirOrder(sorted, f, k);
    InsertedItems(sorted, f, k);
    r := Insert(sorted, f, k);
  }

  lemma NothingToSort(files: seq<File>)
    ensures ByAccessTime([]) && multiset(files[..0]) == multiset([])
  {
  }

  lemma InTheirOrder(files: seq<File>, f: File, k: nat)
    requires k <= |files| && ByAccessTime(files)
    requires k > 0 ==> files[k - 1].accessTime <= f.accessTime
    requires k < |files| ==> f.accessTime < files[k].accessTime
    ensures ByAccessTime(Insert(files, f, k))
  {
    var after := Insert(files, f, k);
    forall i, j | 0 <= i < j < |after|
      ensures after[i].accessTime <= after[j].accessTime
    {
      if i < k {
        assert after[i].accessTime <= files[k - 1].accessTime;
      }
      if j > k {
        assert after[j] == files[j - 1];
      }
    }
  }

  /** The regular files found that are candidates, in the order in which they are found. */
  function Scanned(workdir: string, found: seq<File>): (r: seq<File>)
    ensures forall f :: f in r <==> f in found && IsCandidate(workdir, f.path)
  {
    if found == [] then [] else
    var l := found[|found| - 1];
    Scanned(workdir, found[..|found| - 1]) + if IsCandidate(workdir, l.path) then [l] else []
  }

  /** The scan of the workdir: `found` are its regular files. */
  method Scan(cfg: CleanupConfig, found: seq<File>, active: map<Path, int>)
    returns (scanned: seq<File>, bytes: int, candidates: seq<File>)
    ensures scanned == Scanned(cfg.workdir, found) && bytes == TotalSize(scanned)
    ensures candidates == Unused(scanned, active)
  {
    scanned, bytes, candidates := [], 0, [];
    for i := 0 to |found|
      invariant scanned == Scanned(cfg.workdir, found[..i])
      invariant bytes == TotalSize(scanned) && candidates == Unused(scanned, active)
    {
      var f := found[i];
      assert found[..i + 1][..i] == found[..i];
      if IsCandidate(cfg.workdir, f.path) {
        TotalSizeSnoc(scanned, f);
        assert (scanned + [f])[..|scanned|] == scanned;
        scanned := scanned + [f];
        bytes := bytes + SizeOf(f);
        if !(f.path in active && active[f.path] > 0) {
          candidates := candidates + [f];
        }
      }
    }
    assert found[..|found|] == found;
  }

  /** What one cleanup did. */
  ghost predicate Cleaned(cfg: CleanupConfig, active: map<Path, int>, now: nat, deletes: (Path, nat) -> bool,
                          scanned: seq<File>, candidates: seq<File>, deleted: nat, r: CleanupResult)
  {
    && multiset(candidates) == multiset(Unused(scanned, active)) && ByAccessTime(candidates)
    && deleted <= Doomed(cfg, candidates, TotalSize(scanned), now) <= |candidates|
    && Deleted(candidates, deletes, deleted, r.deletedBytes)
    && (if deleted < Doomed(cfg, candidates, TotalSize(scanned), now)
        then !CanDelete(candidates[deleted].path, deletes) && r.failedFiles == 1
        else r.failedFiles == 0)
    && r.scannedFiles == |scanned| && r.scannedBytes == TotalSize(scanned)
    && r.deletedFiles == deleted
    && (r.thresholdCleanup <==> cfg.threshold > 0 && r.scannedBytes >= cfg.threshold)
  }

  /** The first `n` candidates are gone, `bytes` in all. */
  ghost predicate Deleted(candidates: seq<File>, deletes: (Path, nat) -> bool, n: nat, bytes: int)
    requires n <= |candidates|
  {
    (forall i | 0 <= i < n :: CanDelete(candidates[i].path, deletes)) && bytes == TotalSize(candidates[..n])
  }

  lemma NothingDeleted(candidates: seq<File>, deletes: (Path, nat) -> bool)
    ensures Deleted(candidates, deletes, 0, 0)
  {
    assert candidates[..0] == [];
  }

  lemma DeletedBytes(candidates: seq<File>, deletes: (Path, nat) -> bool, n: nat, bytes: int)
    requires n <= |candidates| && Deleted(candidates, deletes, n, bytes)
    ensures bytes == TotalSize(candidates[..n])
  {
  }

  lemma OneMoreDeleted(candidates: seq<File>, deletes: (Path, nat) -> bool, n: nat, bytes: int)
    requires n < |candidates| && Deleted(candidates, deletes, n, bytes) && CanDelete(candidates[n].path, deletes)
    ensures Deleted(candidates, deletes, n + 1, bytes + SizeOf(candidates[n]))
  {
    TotalSizeSnoc(candidates[..n], candidates[n]);
    assert candidates[..n + 1] == candidates[..n] + [candidates[n]];
  }

  lemma DoomedInRange(cfg: CleanupConfig, candidates: seq<File>, scanned: int, now: nat)
    requires ByAccessTime(candidates)
    ensures Doomed(cfg, candidates, scanned, now) <= |candidates|
  {
  }

  /** The loop over the sorted candidates; `deleted` is how many of them were deleted. */
  method DeleteDoomed(cfg: CleanupConfig, candidates: seq<File>, active: map<Path, int>, scannedBytes: int, now: nat,
                      deletes: (Path, nat) -> bool)
    returns (deleted: nat, deletedBytes: int, failed: nat)
    requires ByAccessTime(candidates) && forall f | f in candidates :: !IsActive(active, f.path)
    ensures deleted <= Doomed(cfg, candidates, scannedBytes, now) <= |candidates|
    ensures Deleted(candidates, deletes, deleted, deletedBytes)
    ensures if deleted < Doomed(cfg, candidates, scannedBytes, now)
            then !CanDelete(candidates[deleted].path, deletes) && failed == 1 else failed == 0
  {
    var thresholdCleanup := cfg.threshold > 0 && scannedBytes >= cfg.threshold;
    var ttl := TtlNanoseconds(cfg.fileTtl);
    var remaining := scannedBytes;
    deleted, deletedBytes, failed := 0, 0, 0;
    ghost var doomed := Doomed(cfg, candidates, scannedBytes, now);
    DoomedInRange(cfg, candidates, scannedBytes, now);
    NothingDeleted(candidates, deletes);
    hide Doomed, IsExpired, ByAccessTime, TotalSize, CanDelete, Deleted, TtlNanoseconds;
    for i := 0 to |candidates|
      invariant deleted == Min(i, doomed) && failed == 0
      invariant Deleted(candidates, deletes, deleted, deletedBytes) && remaining == scannedBytes - deletedBytes
    {
      var candidate := candidates[i];
      DoomedAt(cfg, candidates, scannedBytes, now, i);
      DeletedBytes(candidates, deletes, deleted, deletedBytes);
      var mustReduce := thresholdCleanup && remaining > cfg.target;
      var expired := IsExpired(candidate, now, ttl);
      if !mustReduce && !expired {
        continue;
      }
      if candidate.path in active && active[candidate.path] > 0 {
        assert false;
      }
      var ok := DeleteWithRetries(candidate.path, deletes);
      if !ok {
        failed := failed + 1;
        break;
      }
      OneMoreDeleted(candidates, deletes, deleted, deletedBytes);
      deleted := deleted + 1;
      deletedBytes := deletedBytes + SizeOf(candidate);
      remaining := remaining - SizeOf(candidate);
    }
  }

  /** A candidate is doomed exactly when, with those before it gone, it is expired or the target is exceeded. */
  lemma DoomedAt(cfg: CleanupConfig, candidates: seq<File>, scanned: int, now: nat, i: nat)
    requires ByAccessTime(candidates) && i < |candidates|
    ensures var doomed := Doomed(cfg, candidates, scanned, now);
            var gone := TotalSize(candidates[..Min(i, doomed)]);
            i < doomed <==>
            (cfg.threshold > 0 && scanned >= cfg.threshold && scanned - gone > cfg.target)
            || IsExpired(candidates[i], now, TtlNanoseconds(cfg.fileTtl))
  {
    var doomed := Doomed(cfg, candidates, scanned, now);
    ExcessIsLeast(candidates, scanned, cfg.target, Min(i, doomed));
  }

  method RunWorkdirCleanup(cfg: CleanupConfig, found: seq<File>, active: map<Path, int>, now: nat, free: int,
                           deletes: (Path, nat) -> bool)
    returns (r: CleanupResult, ghost candidates: seq<File>)
    ensures Cleaned(cfg, active, now, deletes, Scanned(cfg.workdir, found), candidates, r.deletedFiles, r)
    ensures r.free == free && (r.emergency <==> 0 <= free < cfg.minFree)
  {
    var files, bytes, unused := Scan(cfg, found, active);
    var sorted := SortByAccessTime(unused);
    forall f | f in sorted
      ensures !IsActive(active, f.path)
    {
      assert f in multiset(sorted);
    }
    var deleted, deletedBytes, failed := DeleteDoomed(cfg, sorted, active, bytes, now, deletes);
    r := CleanupResult(bytes, |files|, deletedBytes, deleted, failed, free,
                       cfg.threshold > 0 && bytes >= cfg.threshold,
                       cfg.minFree > 0 && free >= 0 && free < cfg.minFree);
    candidates := sorted;
  }

  // ---------- What a cleanup promises ----------

  /** No file that a stream holds is deleted, and files that were used longer ago go first. */
  lemma OldestUnusedGoFirst(cfg: CleanupConfig, active: map<Path, int>, now: nat, deletes: (Path, nat) -> bool,
                            scanned: seq<File>, candidates: seq<File>, r: CleanupResult, i: nat, f: File)
    requires Cleaned(cfg, active, now, deletes, scanned, candidates, r.deletedFiles, r)
    requires i < r.deletedFiles && f in scanned && !IsActive(active, f.path) && f !in candidates[..r.deletedFiles]
    ensures !IsActive(active, candidates[i].path) && candidates[i] in scanned
    ensures candidates[i].accessTime <= f.accessTime
  {
    assert f in multiset(Unused(scanned, active));
    assert f in candidates;
    var j :| 0 <= j < |candidates| && candidates[j] == f;
    assert forall k | 0 <= k < r.deletedFiles :: candidates[k] == candidates[..r.deletedFiles][k];
    assert candidates[i] in multiset(candidates);
  }

  /**
   When no delete fails, no unused file is left that has expired, and the workdir is down to the target if it
   had reached the threshold, or everything that may go is gone. No file more than that is deleted: without the last
   one either the target would be exceeded or an expired file would be left.
   */
  lemma EnoughAndNoMore(cfg: CleanupConfig, active: map<Path, int>, now: nat, deletes: (Path, nat) -> bool,
                        scanned: seq<File>, candidates: seq<File>, r: CleanupResult)
    requires Cleaned(cfg, active, now, deletes, scanned, candidates, r.deletedFiles, r)
    requires r.failedFiles == 0
    ensures forall i | r.deletedFiles <= i < |candidates| :: !IsExpired(candidates[i], now, TtlNanoseconds(cfg.fileTtl))
    ensures r.thresholdCleanup && r.deletedFiles < |candidates| ==> r.scannedBytes - r.deletedBytes <= cfg.target
    ensures r.deletedFiles > 0 ==>
              IsExpired(candidates[r.deletedFiles - 1], now, TtlNanoseconds(cfg.fileTtl))
              || (r.thresholdCleanup && r.scannedBytes - TotalSize(candidates[..r.deletedFiles - 1]) > cfg.target)
  {
    var doomed := Doomed(cfg, candidates, TotalSize(scanned), now);
    ExcessIsLeast(candidates, TotalSize(scanned), cfg.target, doomed);
    if doomed > 0 {
      ExcessIsLeast(candidates, TotalSize(scanned), cfg.target, doomed - 1);
    }
  }

  /** The 64 bits in which the time to live is kept are enough up to some 584 years. */
  lemma TtlIsExact(ttl: int)
    ensures TtlNanoseconds(ttl) == Max(0, ttl) * 1_000_000_000 <==> ttl < 18_446_744_074
  {
    if ttl > 0 {
      assert ttl < 18_446_744_074 ==> ttl * 1_000_000_000 < UINT64;
    }
  }
}
