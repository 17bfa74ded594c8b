/**
 Publishing a migrated database and its report by renaming files, with what is undone when a rename fails. Any rename
 may fail, and one whose source does not exist does.
 */
module Publication {
  import opened Common

  type Path = string
  type Content = seq<bv8>
  type Files = map<Path, Content>

  /** What `failures(k)` says of the k-th rename. */
  type Failures = nat -> bool

  datatype Outcome = Published(backup: Option<Path>) | PlainError | AggregateError

  /** The files and the number of renames tried so far. */
  datatype State = State(files: Files, tries: nat)

  // ---------- What the two functions do ----------

  predicate RenameWorks(s: State, source: Path, fails: Failures) {
    source in s.files && !fails(s.tries)
  }

  /** A rename takes the place of what was at its target. */
  function Renamed(s: State, source: Path, target: Path, fails: Failures): State {
    State(if RenameWorks(s, source, fails) then (s.files - {source})[target := s.files[source]] else s.files,
          s.tries + 1)
  }

  function Publish(s: State, temporary: Path, target: Path, backup: Path, fails: Failures): (State, Outcome) {
    var had := target in s.files;
    if had && !RenameWorks(s, target, fails) then (Renamed(s, target, backup, fails), PlainError) else
    var s1 := if had then Renamed(s, target, backup, fails) else s;
    var s2 := Renamed(s1, temporary, target, fails);
    if RenameWorks(s1, temporary, fails) then (s2, Published(if had then Some(backup) else None))
    else if !had then (s2, PlainError)
    else (Renamed(s2, backup, target, fails), if RenameWorks(s2, backup, fails) then PlainError else AggregateError)
  }

  /** The report is taken back: it becomes the temporary file again, and the old report returns. */
  function TakeBack(s: State, temporary: Path, report: Path, backup: Option<Path>, fails: Failures): (State, bool) {
    var has := report in s.files;
    if has && !RenameWorks(s, report, fails) then (Renamed(s, report, temporary, fails), false) else
    var s1 := if has then Renamed(s, report, temporary, fails) else s;
    if backup.None? then (s1, true)
    else (Renamed(s1, backup.value, report, fails), RenameWorks(s1, backup.value, fails))
  }

  /** Where the artifacts are: their temporary files, their places and the places for what was there before. */
  datatype Paths = Paths(
    newDatabase: Path, database: Path, oldDatabase: Path, newReport: Path, report: Path, oldReport: Path)

  function PublishBoth(s: State, p: Paths, fails: Failures): (State, Outcome) {
    var (s1, report) := Publish(s, p.newReport, p.report, p.oldReport, fails);
    if !report.Published? then (s1, report) else
    var (s2, database) := Publish(s1, p.newDatabase, p.database, p.oldDatabase, fails);
    if database.Published? then (s2, database) else
    var (s3, ok) := TakeBack(s2, p.newReport, p.report, report.backup, fails);
    (s3, if ok then database else AggregateError)
  }

  // ---------- The program ----------

  class FileSystem {
    var files: Files
    var tries: nat
    const fails: Failures

    constructor (files: Files, fails: Failures)
      ensures this.files == files && tries == 0 && this.fails == fails
    {
      this.files, tries, this.fails := files, 0, fails;
    }

    ghost function Now(): State
      reads this
    {
      State(files, tries)
    }

    method Rename(source: Path, target: Path) returns (ok: bool)
      modifies this
      ensures ok == RenameWorks(old(Now()), source, fails) && Now() == Renamed(old(Now()), source, target, fails)
    {
      ok := source in files && !fails(tries);
      if ok {
        files := (files - {source})[target := files[source]];
      }
      tries := tries + 1;
    }
  }

  method PublishMigratedFile(temporary: Path, target: Path, backup: Path, fs: FileSystem) returns (r: Outcome)
    modifies fs
    ensures (fs.Now(), r) == Publish(old(fs.Now()), temporary, target, backup, fs.fails)
  {
    var hadTarget := target in fs.files;
    if hadTarget {
      var moved := fs.Rename(target, backup);
      if !moved {
        return PlainError;
      }
    }
    var published := fs.Rename(temporary, target);
    if published {
      return Published(if hadTarget then Some(backup) else None);
    }
    if !hadTarget {
      return PlainError;
    }
    var restored := fs.Rename(backup, target);
    if !restored {
      return AggregateError;
    }
    return PlainError;
  }

  method PublishMigrationArtifacts(p: Paths, fs: FileSystem) returns (r: Outcome)
    modifies fs
    ensures (fs.Now(), r) == PublishBoth(old(fs.Now()), p, fs.fails)
  {
    hide Publish;
    var report := PublishMigratedFile(p.newReport, p.report, p.oldReport, fs);
    if !report.Published? {
      return report;
    }
    r := PublishMigratedFile(p.newDatabase, p.database, p.oldDatabase, fs);
    if !r.Published? {
      var ok := true;
      if p.report in fs.files {
        ok := fs.Rename(p.report, p.newReport);
      }
      if ok && report.backup.Some? {
        ok := fs.Rename(report.backup.value, p.report);
      }
      if !ok {
        r := AggregateError;
      }
    }
  }

  // ---------- One file ----------

  /** Only what is at the given places may change. */
  ghost predicate SameExcept(before: Files, after: Files, places: set<Path>) {
    forall p | p !in places :: (p in before <==> p in after) && (p in before ==> before[p] == after[p])
  }

  /** What is in one of the files, or nothing. */
  function At(files: Files, p: Path): Option<Content> {
    if p in files then Some(files[p]) else None
  }

  /** The three places of an artifact: the new file, the place of the artifact and the old one that was there. */
  predicate Has(files: Files, a: Path, b: Path, c: Path,
                atA: Option<Content>, atB: Option<Content>, atC: Option<Content>)
  {
    At(files, a) == atA && At(files, b) == atB && At(files, c) == atC
  }

  predicate Apart(temporary: Path, target: Path, backup: Path) {
    temporary != target && target != backup && backup != temporary
  }

  /** What a caller can check: the backup path is free, or nothing has to be backed up. */
  predicate HasRoom(files: Files, target: Path, backup: Path) {
    backup !in files || target !in files
  }

  /** What the backup path holds in the end: the file that was replaced, or what was there if there was none. */
  function Kept(files: Files, target: Path, backup: Path): Option<Content> {
    if target in files then At(files, target) else At(files, backup)
  }

  /** No content is lost: each is in some file afterwards. */
  ghost predicate Keeps(before: Files, after: Files) {
    forall p | p in before :: Somewhere(after, before[p])
  }

  ghost predicate Somewhere(files: Files, content: Content) {
    exists p :: p in files && files[p] == content
  }

  /**
   What publishing one file promises. Success: the new file is in its place and the one it replaced is the backup. A
   plain error: nothing has changed. An aggregate error: the new file was not moved, and the one it was to replace is
   the backup. In any case no content is lost and no other file is touched.
   */
  ghost predicate Safe(before: Files, after: Files, r: Outcome, temporary: Path, target: Path, backup: Path) {
    var latest, current := At(before, temporary), At(before, target);
    && SameExcept(before, after, {temporary, target, backup})
    && Keeps(before, after)
    && match r
       case Published(kept) =>
         && latest.Some? && Has(after, temporary, target, backup, None, latest, Kept(before, target, backup))
         && kept == (if current.Some? then Some(backup) else None)
       case PlainError => after == before
       case AggregateError => current.Some? && Has(after, temporary, target, backup, latest, None, current)
  }

  lemma PublishOne(s: State, temporary: Path, target: Path, backup: Path, fails: Failures)
    requires Apart(temporary, target, backup) && HasRoom(s.files, target, backup)
    ensures var (s', r) := Publish(s, temporary, target, backup, fails);
            Safe(s.files, s'.files, r, temporary, target, backup)
  {
    PublishKeeps(s, temporary, target, backup, fails);
    hide Keeps;
  }

  lemma PublishKeeps(s: State, temporary: Path, target: Path, backup: Path, fails: Failures)
    requires Apart(temporary, target, backup) && HasRoom(s.files, target, backup)
    ensures Keeps(s.files, Publish(s, temporary, target, backup, fails).0.files)
  {
    var s' := Publish(s, temporary, target, backup, fails).0;
    forall p | p in s.files
      ensures Somewhere(s'.files, s.files[p])
    {
      var q := if p in s'.files && s'.files[p] == s.files[p] then p else if p == target then backup else target;
      assert q in s'.files && s'.files[q] == s.files[p];
    }
  }

  /** How many renames it takes to replace what is at the path, or to put something there. */
  function Renames(files: Files, target: Path): nat {
    if target in files then 2 else 1
  }

  /** The content at the path is nowhere else. */
  ghost predicate OnlyAt(files: Files, path: Path) {
    path in files && forall p | p in files && p != path :: files[p] != files[path]
  }

  /** A taken backup path is overwritten as soon as the file to be replaced is moved there. */
  predicate Overwrites(s: State, target: Path, backup: Path, fails: Failures) {
    !HasRoom(s.files, target, backup) && !fails(s.tries)
  }

  /**
   With a backup path that is taken, what is found only there survives if and only if the first rename does not happen:
   there is no file to back up, or moving it fails. With that, publishing keeps its promise if and only if it survives.
   */
  lemma TakenBackupIsLost(s: State, temporary: Path, target: Path, backup: Path, fails: Failures)
    requires Apart(temporary, target, backup) && OnlyAt(s.files, backup)
    ensures var (s', r) := Publish(s, temporary, target, backup, fails);
            && (Somewhere(s'.files, s.files[backup]) <==> !(target in s.files && !fails(s.tries)))
            && (Safe(s.files, s'.files, r, temporary, target, backup) <==> !Overwrites(s, target, backup, fails))
  {
    var (s', r) := Publish(s, temporary, target, backup, fails);
    if !Overwrites(s, target, backup, fails) {
      assert backup in s'.files && s'.files[backup] == s.files[backup];
      forall p | p in s.files
        ensures Somewhere(s'.files, s.files[p])
      {
        var q := if p in s'.files then p else target;
        assert q in s'.files && s'.files[q] == s.files[p];
      }
    }
  }

  /** Of the renames from the k-th on only the second one fails. */
  function SecondFails(k: nat): Failures {
    n => n == k + 1
  }

  /**
   The promise holds under every pattern of failures if and only if the caller made room. Without room the second rename
   alone may fail: the error is plain, the file is back in its place, and what was at the backup path is gone.
   */
  lemma RoomIsNeeded(s: State, temporary: Path, target: Path, backup: Path)
    requires Apart(temporary, target, backup)
    ensures HasRoom(s.files, target, backup) <==>
            forall fails :: SafelyPublishes(s, temporary, target, backup, fails)
  {
    if HasRoom(s.files, target, backup) {
      forall fails
        ensures SafelyPublishes(s, temporary, target, backup, fails)
      {
        PublishOne(s, temporary, target, backup, fails);
      }
    } else {
      PlainErrorThatLoses(s, temporary, target, backup);
      assert !SafelyPublishes(s, temporary, target, backup, SecondFails(s.tries));
    }
  }

  ghost predicate SafelyPublishes(s: State, temporary: Path, target: Path, backup: Path, fails: Failures) {
    var (s', r) := Publish(s, temporary, target, backup, fails);
    Safe(s.files, s'.files, r, temporary, target, backup)
  }

  /** Without room there is a pattern of failures after which the error is plain but the backup is gone. */
  lemma PlainErrorThatLoses(s: State, temporary: Path, target: Path, backup: Path)
    requires Apart(temporary, target, backup) && !HasRoom(s.files, target, backup)
    ensures Publish(s, temporary, target, backup, SecondFails(s.tries))
            == (State(s.files - {backup}, s.tries + 3), PlainError)
  {
    var s1 := Renamed(s, target, backup, SecondFails(s.tries));
    var s2 := Renamed(s1, temporary, target, SecondFails(s.tries));
    assert s2.files == s1.files;
    assert Renamed(s2, backup, target, SecondFails(s.tries)).files == s.files - {backup};
  }

  // ---------- Both files ----------

  predicate AllApart(p: Paths) {
    |{p.newDatabase, p.database, p.oldDatabase, p.newReport, p.report, p.oldReport}| == 6
  }

  /** What a caller can check: the database needs its room only if the report can be published before it. */
  predicate BothHaveRoom(p: Paths, files: Files) {
    HasRoom(files, p.report, p.oldReport) && (p.newReport in files ==> HasRoom(files, p.database, p.oldDatabase))
  }

  /** Success: both new files are in their places and what they replaced are the backups. */
  predicate BothPublished(p: Paths, before: Files, after: Files) {
    && p.newDatabase in before && p.newReport in before
    && Has(after, p.newDatabase, p.database, p.oldDatabase,
           None, At(before, p.newDatabase), Kept(before, p.database, p.oldDatabase))
    && Has(after, p.newReport, p.report, p.oldReport,
           None, At(before, p.newReport), Kept(before, p.report, p.oldReport))
  }

  /** The new file is still temporary, and what was published before is in its place or is the backup. */
  predicate Recoverable(before: Files, after: Files, temporary: Path, target: Path, backup: Path) {
    || Has(after, temporary, target, backup, At(before, temporary), At(before, target), At(before, backup))
    || (target in before && Has(after, temporary, target, backup, At(before, temporary), None, At(before, target)))
  }

  /** The new report has been published and could not be taken back. */
  predicate ReportStays(p: Paths, before: Files, after: Files) {
    Has(after, p.newReport, p.report, p.oldReport, None, At(before, p.newReport), Kept(before, p.report, p.oldReport))
  }

  /**
   What publishing both files promises. After success both are published; after a plain error the file system is as it
   was; after an aggregate error the database and the report that were there are in their places or are the backups. In
   any case no content is lost and no other file is touched.
   */
  ghost predicate BothSafe(p: Paths, before: Files, after: Files, r: Outcome) {
    && SameExcept(before, after, {p.newDatabase, p.database, p.oldDatabase, p.newReport, p.report, p.oldReport})
    && Keeps(before, after)
    && match r
       case Published(_) => BothPublished(p, before, after)
       case PlainError => after == before
       case AggregateError =>
         && Recoverable(before, after, p.newDatabase, p.database, p.oldDatabase)
         && (Recoverable(before, after, p.newReport, p.report, p.oldReport) || ReportStays(p, before, after))
  }

  ghost predicate SafelyPublishesBoth(s: State, p: Paths, fails: Failures) {
    var (s', r) := PublishBoth(s, p, fails);
    BothSafe(p, s.files, s'.files, r)
  }

  lemma PublishIsSafe(s: State, p: Paths, fails: Failures)
    requires AllApart(p) && BothHaveRoom(p, s.files)
    ensures SafelyPublishesBoth(s, p, fails)
  {
    hide Publish, TakeBack, Keeps;
    PathsApart(p);
    PublishOne(s, p.newReport, p.report, p.oldReport, fails);
    var (s1, report) := Publish(s, p.newReport, p.report, p.oldReport, fails);
    if report.Published? {
      PublishOne(s1, p.newDatabase, p.database, p.oldDatabase, fails);
      var (s2, database) := Publish(s1, p.newDatabase, p.database, p.oldDatabase, fails);
      KeepsOn(s.files, s1.files, s2.files);
      if !database.Published? {
        TakeBackReport(s, s2, p, report.backup, fails);
        KeepsOn(s.files, s2.files, TakeBack(s2, p.newReport, p.report, report.backup, fails).0.files);
      }
    }
  }

  lemma KeepsOn(a: Files, b: Files, c: Files)
    requires Keeps(a, b) && Keeps(b, c)
    ensures Keeps(a, c)
  {
    forall p | p in a
      ensures Somewhere(c, a[p])
    {
      var q :| q in b && b[q] == a[p];
      assert Somewhere(c, b[q]);
    }
  }

  lemma PathsApart(p: Paths)
    requires AllApart(p)
    ensures Apart(p.newDatabase, p.database, p.oldDatabase) && Apart(p.newReport, p.report, p.oldReport)
    ensures {p.newDatabase, p.database, p.oldDatabase} !! {p.newReport, p.report, p.oldReport}
  {
  }

  /** Taking the report back restores it, or leaves the old one as the backup. */
  lemma TakeBackReport(s: State, s2: State, p: Paths, backup: Option<Path>, fails: Failures)
    requires Apart(p.newReport, p.report, p.oldReport) && HasRoom(s.files, p.report, p.oldReport)
    requires p.newReport in s.files && ReportStays(p, s.files, s2.files)
    requires backup == if p.report in s.files then Some(p.oldReport) else None
    ensures var (s3, ok) := TakeBack(s2, p.newReport, p.report, backup, fails);
            && SameExcept(s2.files, s3.files, {p.newReport, p.report, p.oldReport}) && Keeps(s2.files, s3.files)
            && (if ok then
                  Has(s3.files, p.newReport, p.report, p.oldReport,
                      At(s.files, p.newReport), At(s.files, p.report), At(s.files, p.oldReport))
                else
                  Recoverable(s.files, s3.files, p.newReport, p.report, p.oldReport)
                  || ReportStays(p, s.files, s3.files))
  {
    var s3 := TakeBack(s2, p.newReport, p.report, backup, fails).0;
    forall q | q in s2.files
      ensures Somewhere(s3.files, s2.files[q])
    {
      var t := if q == p.report && p.newReport in s3.files then p.newReport
               else if q == p.oldReport && q !in s3.files then p.report else q;
      assert t in s3.files && s3.files[t] == s2.files[q];
    }
  }

  /** The first rename of the database happens: the report has been published and there is a database to move. */
  predicate MovesDatabase(s: State, p: Paths, fails: Failures) {
    && Publish(s, p.newReport, p.report, p.oldReport, fails).1.Published?
    && p.database in s.files && !fails(s.tries + Renames(s.files, p.report))
  }

  /**
   Under any one pattern of failures, what is found only at one of the two backup paths survives if and only if nothing
   is moved there.
   */
  lemma TakenBackupsAreLost(s: State, p: Paths, fails: Failures)
    requires AllApart(p)
    ensures var s' := PublishBoth(s, p, fails).0;
            && (OnlyAt(s.files, p.oldReport) ==>
                  (Somewhere(s'.files, s.files[p.oldReport]) <==> !(p.report in s.files && !fails(s.tries))))
            && (OnlyAt(s.files, p.oldDatabase) ==>
                  (Somewhere(s'.files, s.files[p.oldDatabase]) <==> !MovesDatabase(s, p, fails)))
  {
    if OnlyAt(s.files, p.oldReport) {
      TakenReportBackup(s, p, fails);
    }
    if OnlyAt(s.files, p.oldDatabase) {
      TakenDatabaseBackup(s, p, fails);
    }
  }

  predicate Among(files: Files, a: Path, b: Path, c: Path, content: Content) {
    At(files, a) == Some(content) || At(files, b) == Some(content) || At(files, c) == Some(content)
  }

  /** What is at the three places afterwards was at one of them before, and every other file is left alone. */
  ghost predicate Rearranged(before: Files, after: Files, a: Path, b: Path, c: Path) {
    SameExcept(before, after, {a, b, c}) && forall p | p in {a, b, c} && p in after :: Among(before, a, b, c, after[p])
  }

  lemma PublishRearranges(s: State, temporary: Path, target: Path, backup: Path, fails: Failures)
    requires Apart(temporary, target, backup)
    ensures Rearranged(s.files, Publish(s, temporary, target, backup, fails).0.files, temporary, target, backup)
  {
  }

  lemma TakeBackRearranges(s: State, temporary: Path, report: Path, backup: Path, had: bool, fails: Failures)
    requires Apart(temporary, report, backup)
    ensures var kept := if had then Some(backup) else None;
            var s' := TakeBack(s, temporary, report, kept, fails).0;
            && Rearranged(s.files, s'.files, temporary, report, backup)
            && (!had ==> At(s'.files, backup) == At(s.files, backup))
  {
  }

  lemma StaysGone(before: Files, after: Files, a: Path, b: Path, c: Path, content: Content)
    requires Rearranged(before, after, a, b, c) && !Somewhere(before, content)
    ensures !Somewhere(after, content)
  {
    forall p | p in after
      ensures after[p] != content
    {
      assert p in {a, b, c} || (p in before && before[p] == after[p]);
      assert Among(before, a, b, c, after[p]) ==> Somewhere(before, after[p]);
    }
  }

  /** The files after the three stages; without a failure at a stage the next one changes nothing. */
  lemma Stages(s: State, p: Paths, fails: Failures) returns (s1: State, s2: State, s3: State)
    requires AllApart(p)
    ensures s1 == Publish(s, p.newReport, p.report, p.oldReport, fails).0
    ensures s2 == if Publish(s, p.newReport, p.report, p.oldReport, fails).1.Published?
                  then Publish(s1, p.newDatabase, p.database, p.oldDatabase, fails).0 else s1
    ensures s3 == PublishBoth(s, p, fails).0
    ensures Rearranged(s.files, s1.files, p.newReport, p.report, p.oldReport)
    ensures Rearranged(s1.files, s2.files, p.newDatabase, p.database, p.oldDatabase)
    ensures Rearranged(s2.files, s3.files, p.newReport, p.report, p.oldReport)
    ensures p.report !in s.files ==> At(s3.files, p.oldReport) == At(s2.files, p.oldReport)
  {
    PathsApart(p);
    PublishRearranges(s, p.newReport, p.report, p.oldReport, fails);
    s1 := Publish(s, p.newReport, p.report, p.oldReport, fails).0;
    s2 := s1;
    Unchanged(s1.files);
    if Publish(s, p.newReport, p.report, p.oldReport, fails).1.Published? {
      PublishRearranges(s1, p.newDatabase, p.database, p.oldDatabase, fails);
      s2 := Publish(s1, p.newDatabase, p.database, p.oldDatabase, fails).0;
    }
    Unchanged(s2.files);
    TakeBackRearranges(s2, p.newReport, p.report, p.oldReport, p.report in s.files, fails);
    s3 := PublishBoth(s, p, fails).0;
    PublishedBackup(s, p.newReport, p.report, p.oldReport, fails);
    hide Publish, TakeBack, Rearranged;
  }

  lemma Unchanged(files: Files)
    ensures forall a, b, c :: Rearranged(files, files, a, b, c)
  {
  }

  lemma PublishedBackup(s: State, temporary: Path, target: Path, backup: Path, fails: Failures)
    ensures var r := Publish(s, temporary, target, backup, fails).1;
            r.Published? ==> r.backup == if target in s.files then Some(backup) else None
  {
  }

  lemma TakenReportBackup(s: State, p: Paths, fails: Failures)
    requires AllApart(p) && OnlyAt(s.files, p.oldReport)
    ensures Somewhere(PublishBoth(s, p, fails).0.files, s.files[p.oldReport])
            <==> !(p.report in s.files && !fails(s.tries))
  {
    var content := s.files[p.oldReport];
    PathsApart(p);
    TakenBackupIsLost(s, p.newReport, p.report, p.oldReport, fails);
    var s1, s2, s3 := Stages(s, p, fails);
    if p.report in s.files && !fails(s.tries) {
      StaysGone(s1.files, s2.files, p.newDatabase, p.database, p.oldDatabase, content);
      StaysGone(s2.files, s3.files, p.newReport, p.report, p.oldReport, content);
    } else if p.report !in s.files {
      NotMoved(s, p.newReport, p.report, p.oldReport, fails);
      assert p.oldReport in s3.files && s3.files[p.oldReport] == content;
    }
  }

  lemma NotMoved(s: State, temporary: Path, target: Path, backup: Path, fails: Failures)
    requires Apart(temporary, target, backup) && !(target in s.files && !fails(s.tries))
    ensures At(Publish(s, temporary, target, backup, fails).0.files, backup) == At(s.files, backup)
  {
  }

  lemma TriesOfReport(s: State, p: Paths, fails: Failures)
    requires Publish(s, p.newReport, p.report, p.oldReport, fails).1.Published?
    ensures Publish(s, p.newReport, p.report, p.oldReport, fails).0.tries == s.tries + Renames(s.files, p.report)
  {
  }

  lemma TakenDatabaseBackup(s: State, p: Paths, fails: Failures)
    requires AllApart(p) && OnlyAt(s.files, p.oldDatabase)
    ensures Somewhere(PublishBoth(s, p, fails).0.files, s.files[p.oldDatabase]) <==> !MovesDatabase(s, p, fails)
  {
    hide Publish, PublishBoth, TakeBack, Rearranged, Safe, Overwrites;
    var content := s.files[p.oldDatabase];
    PathsApart(p);
    var s1, s2, s3 := Stages(s, p, fails);
    StillOnlyThere(s.files, s1.files, p);
    Elsewhere(s2.files, s3.files, p.newReport, p.report, p.oldReport, p.oldDatabase);
    if Publish(s, p.newReport, p.report, p.oldReport, fails).1.Published? {
      TriesOfReport(s, p, fails);
      TakenBackupIsLost(s1, p.newDatabase, p.database, p.oldDatabase, fails);
      if MovesDatabase(s, p, fails) {
        StaysGone(s2.files, s3.files, p.newReport, p.report, p.oldReport, content);
      } else {
        NotMoved(s1, p.newDatabase, p.database, p.oldDatabase, fails);
        assert p.oldDatabase in s3.files && s3.files[p.oldDatabase] == content;
      }
    } else {
      assert p.oldDatabase in s3.files && s3.files[p.oldDatabase] == content;
    }
  }

  lemma Elsewhere(before: Files, after: Files, a: Path, b: Path, c: Path, p: Path)
    requires Rearranged(before, after, a, b, c) && p !in {a, b, c}
    ensures At(after, p) == At(before, p)
  {
  }

  /** The stage of the report leaves the database where it is. */
  lemma StillOnlyThere(before: Files, after: Files, p: Paths)
    requires AllApart(p) && OnlyAt(before, p.oldDatabase)
    requires Rearranged(before, after, p.newReport, p.report, p.oldReport)
    ensures OnlyAt(after, p.oldDatabase) && after[p.oldDatabase] == before[p.oldDatabase]
    ensures p.database in after <==> p.database in before
  {
    PathsApart(p);
    assert p.oldDatabase !in {p.newReport, p.report, p.oldReport};
    assert p.database !in {p.newReport, p.report, p.oldReport};
    forall q | q in after && q != p.oldDatabase
      ensures after[q] != before[p.oldDatabase]
    {
      assert q !in {p.newReport, p.report, p.oldReport} ==> q in before && after[q] == before[q];
    }
  }

  /** The promise for both files holds under every pattern of failures if and only if the caller made room. */
  lemma RoomForBothIsNeeded(s: State, p: Paths)
    requires AllApart(p)
    ensures BothHaveRoom(p, s.files) <==> forall fails :: SafelyPublishesBoth(s, p, fails)
  {
    PathsApart(p);
    if BothHaveRoom(p, s.files) {
      forall fails
        ensures SafelyPublishesBoth(s, p, fails)
      {
        PublishIsSafe(s, p, fails);
      }
    } else if !HasRoom(s.files, p.report, p.oldReport) {
      PlainErrorThatLoses(s, p.newReport, p.report, p.oldReport);
      assert !SafelyPublishesBoth(s, p, SecondFails(s.tries));
    } else {
      DatabaseErrorThatLoses(s, p);
      assert !SafelyPublishesBoth(s, p, SecondFails(s.tries + Renames(s.files, p.report)));
    }
  }

  /** The report is published and taken back, and in between the database's backup was overwritten. */
  lemma DatabaseErrorThatLoses(s: State, p: Paths)
    requires AllApart(p) && p.newReport in s.files
    requires HasRoom(s.files, p.report, p.oldReport) && !HasRoom(s.files, p.database, p.oldDatabase)
    ensures var (s', r) := PublishBoth(s, p, SecondFails(s.tries + Renames(s.files, p.report)));
            s'.files == s.files - {p.oldDatabase} && r == PlainError
  {
    hide Publish, TakeBack;
    PathsApart(p);
    var k := s.tries + Renames(s.files, p.report);
    var fails := SecondFails(k);
    var (s1, report) := Publish(s, p.newReport, p.report, p.oldReport, fails);
    ReportComesFirst(s, p, k);
    PublishOne(s, p.newReport, p.report, p.oldReport, fails);
    PlainErrorThatLoses(s1, p.newDatabase, p.database, p.oldDatabase);
    var s2 := Publish(s1, p.newDatabase, p.database, p.oldDatabase, fails).0;
    TakeBackReport(s, s2, p, report.backup, fails);
    TakeBackWorks(s2, p, report.backup, fails);
    hide Has, SameExcept, ReportStays;
    AllBackButOne(s.files, s1.files, s2.files, TakeBack(s2, p.newReport, p.report, report.backup, fails).0.files, p);
  }

  lemma AllBackButOne(before: Files, f1: Files, f2: Files, after: Files, p: Paths)
    requires AllApart(p) && f2 == f1 - {p.oldDatabase}
    requires SameExcept(before, f1, {p.newReport, p.report, p.oldReport})
    requires SameExcept(f2, after, {p.newReport, p.report, p.oldReport})
    requires Has(after, p.newReport, p.report, p.oldReport,
                 At(before, p.newReport), At(before, p.report), At(before, p.oldReport))
    ensures after == before - {p.oldDatabase}
  {
  }

  lemma ReportComesFirst(s: State, p: Paths, k: nat)
    requires Apart(p.newReport, p.report, p.oldReport) && p.newReport in s.files
    requires k == s.tries + Renames(s.files, p.report)
    ensures var (s1, r) := Publish(s, p.newReport, p.report, p.oldReport, SecondFails(k));
            r.Published? && s1.tries == k
  {
  }

  lemma TakeBackWorks(s: State, p: Paths, backup: Option<Path>, fails: Failures)
    requires Apart(p.newReport, p.report, p.oldReport)
    requires p.report in s.files && (backup.Some? ==> backup.value == p.oldReport && p.oldReport in s.files)
    requires forall k | k >= s.tries :: !fails(k)
    ensures TakeBack(s, p.newReport, p.report, backup, fails).1
  {
  }

  // ---------- When publishing succeeds ----------

  /** None of the next `n` renames fails. */
  predicate NoneFails(s: State, n: nat, fails: Failures) {
    forall k | s.tries <= k < s.tries + n :: !fails(k)
  }

  /**
   Publishing one file succeeds exactly when there is a new file and no rename fails. Otherwise the error is an
   aggregate exactly when the old file was moved away and could not be moved back.
   */
  lemma PublishOutcome(s: State, temporary: Path, target: Path, backup: Path, fails: Failures)
    requires Apart(temporary, target, backup)
    ensures var r := Publish(s, temporary, target, backup, fails).1;
            && (r.Published? <==> temporary in s.files && NoneFails(s, Renames(s.files, target), fails))
            && (r.AggregateError? <==>
                  && target in s.files && !fails(s.tries) && fails(s.tries + 2)
                  && (temporary !in s.files || fails(s.tries + 1)))
  {
  }

  /** With room for the backup, an error is plain exactly when nothing has changed. */
  lemma PlainIsUnchanged(s: State, temporary: Path, target: Path, backup: Path, fails: Failures)
    requires Apart(temporary, target, backup) && HasRoom(s.files, target, backup)
    ensures var (s', r) := Publish(s, temporary, target, backup, fails);
            r.PlainError? <==> s'.files == s.files
  {
    PublishOne(s, temporary, target, backup, fails);
    hide Publish, Keeps;
  }

  /** Publishing both succeeds exactly when there are a new report and a new database and no rename fails. */
  lemma PublishBothSucceeds(s: State, p: Paths, fails: Failures)
    requires AllApart(p)
    ensures PublishBoth(s, p, fails).1.Published? <==>
            && p.newReport in s.files && p.newDatabase in s.files
            && NoneFails(s, Renames(s.files, p.report) + Renames(s.files, p.database), fails)
  {
    hide Publish, TakeBack;
    PathsApart(p);
    PublishOutcome(s, p.newReport, p.report, p.oldReport, fails);
    var (s1, report) := Publish(s, p.newReport, p.report, p.oldReport, fails);
    if report.Published? {
      ReportLeavesDatabase(s, p, fails);
      PublishOutcome(s1, p.newDatabase, p.database, p.oldDatabase, fails);
      assert NoneFails(s, Renames(s.files, p.report) + Renames(s.files, p.database), fails) <==>
             NoneFails(s1, Renames(s1.files, p.database), fails);
    } else {
      assert NoneFails(s, Renames(s.files, p.report) + Renames(s.files, p.database), fails) ==>
          NoneFails(s, Renames(s.files, p.report), fails);
    }
  }

  lemma ReportLeavesDatabase(s: State, p: Paths, fails: Failures)
    requires AllApart(p)
    ensures var (s1, r) := Publish(s, p.newReport, p.report, p.oldReport, fails);
            && (p.newDatabase in s1.files <==> p.newDatabase in s.files)
            && (p.database in s1.files <==> p.database in s.files)
            && (r.Published? ==> s1.tries == s.tries + Renames(s.files, p.report))
  {
    PathsApart(p);
    PublishRearranges(s, p.newReport, p.report, p.oldReport, fails);
    DatabaseIsElsewhere(p);
  }

  lemma DatabaseIsElsewhere(p: Paths)
    requires AllApart(p)
    ensures p.newDatabase !in {p.newReport, p.report, p.oldReport}
    ensures p.database !in {p.newReport, p.report, p.oldReport}
  {
  }

  /** With room for both backups, an error is plain exactly when nothing has changed. */
  lemma BothPlainIsUnchanged(s: State, p: Paths, fails: Failures)
    requires AllApart(p) && BothHaveRoom(p, s.files)
    ensures var (s', r) := PublishBoth(s, p, fails);
            r.PlainError? <==> s'.files == s.files
  {
    hide Publish, TakeBack, Keeps;
    PathsApart(p);
    PublishIsSafe(s, p, fails);
    PublishOne(s, p.newReport, p.report, p.oldReport, fails);
    var (s1, report) := Publish(s, p.newReport, p.report, p.oldReport, fails);
    if report.Published? {
      ReportLeavesDatabase(s, p, fails);
      PublishOne(s1, p.newDatabase, p.database, p.oldDatabase, fails);
      var (s2, database) := Publish(s1, p.newDatabase, p.database, p.oldDatabase, fails);
      if !database.Published? {
        TakeBackShows(s2, p, p.report in s.files, fails);
        hide BothSafe;
      }
    }
  }

  /** Taking the report back leaves the database alone, and a failure leaves the new report or the old one missing. */
  lemma TakeBackShows(s: State, p: Paths, had: bool, fails: Failures)
    requires AllApart(p) && p.newReport !in s.files
    ensures var (s', ok) := TakeBack(s, p.newReport, p.report, if had then Some(p.oldReport) else None, fails);
            && (!ok ==> p.newReport !in s'.files || (had && p.report !in s'.files))
            && (p.database in s'.files <==> p.database in s.files)
  {
    PathsApart(p);
    DatabaseIsElsewhere(p);
  }
}
