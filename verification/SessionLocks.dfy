/**
 The promise-chain locks of the cache session coordinator and the fence an invalidation puts up around a file. Every
 call is a job that runs from one await to the next; between two such steps any other job may move.
 */
module SessionLocks {
  import opened Common

  type FileId = string
  type JobId = nat

  // ---------- Keys ----------

  function Spool(file: FileId): string {
    "spool:" + file
  }

  function SessionKey(file: FileId, version: Option<string>): string {
    if version.None? then "file:" + file else "file:" + file + ":v" + version.value
  }

  /** The first position of ":v", or the end. */
  function FirstVersionMark(s: string): (k: nat)
    ensures k <= |s|
  {
    if |s| < 2 then |s| else if s[0] == ':' && s[1] == 'v' then 0 else 1 + FirstVersionMark(s[1..])
  }

  /** fileIdForSessionLockKey */
  function FileOf(key: string): Option<FileId> {
    if "spool:" <= key then Some(key[6..])
    else if "file:" <= key then Some(key[5..][..FirstVersionMark(key[5..])])
    else None
  }

  predicate HasVersionMark(s: string) {
    FirstVersionMark(s) < |s| - 1
  }

  lemma {:induction false} MarkOfPlain(s: string)
    ensures FirstVersionMark(s) == |s| || (|s| >= 2 && FirstVersionMark(s) <= |s| - 2)
  {
    if |s| >= 2 && !(s[0] == ':' && s[1] == 'v') {
      MarkOfPlain(s[1..]);
    }
  }

  lemma {:induction false} MarkOfVersioned(s: string, version: string)
    ensures FirstVersionMark(s + ":v" + version) == if HasVersionMark(s) then FirstVersionMark(s) else |s|
  {
    var t := s + ":v" + version;
    if s == "" {
      assert t == ":v" + version;
    } else {
      assert t[1..] == s[1..] + ":v" + version;
      MarkOfVersioned(s[1..], version);
      if |s| == 1 {
        assert t[1] == ':';
      } else {
        assert t[0] == s[0] && t[1] == s[1];
      }
    }
  }

  /** The key of a spool gives its file back; the key of a build does exactly when the file id contains no ":v". */
  lemma KeysNameTheirFile(file: FileId, version: Option<string>)
    ensures FileOf(Spool(file)) == Some(file)
    ensures FileOf(SessionKey(file, version)) == Some(file) <==> !HasVersionMark(file)
  {
    assert Spool(file)[6..] == file;
    var key := SessionKey(file, version);
    assert key[0] == 'f' && "spool:"[0] == 's';
    MarkOfPlain(file);
    if version.None? {
      assert key[5..] == file;
      assert file[..|file|] == file;
    } else {
      assert "file:" + file + ":v" + version.value == "file:" + (file + ":v" + version.value);
      assert key[5..] == file + ":v" + version.value;
      MarkOfVersioned(file, version.value);
      assert key[5..][..|file|] == file;
    }
  }

  // ---------- Jobs ----------

  /** What a job queues for: the session lock of a key, or the invalidation of a file. */
  datatype LockKey = Session(key: string) | Invalidation(file: FileId)

  /** `Clearing` is an invalidation that tears down sessions, `Draining` one that waits for the holders it found. */
  datatype Phase =
    | Waiting(previous: Option<JobId>)
    | Running
    | Clearing
    | Draining(tails: set<JobId>)
    | Deleting
    | Done

  datatype Job = Job(key: LockKey, phase: Phase)

  /** The jobs in the order of their arrival, the tail of every queue, and the files that are being invalidated. */
  datatype State = State(jobs: seq<Job>, tails: map<LockKey, JobId>, fence: set<FileId>)

  /** The fence as withSessionLock tests it: an empty file id does not count. */
  predicate Fenced(s: State, key: string) {
    var file := FileOf(key);
    file.Some? && file.value != "" && file.value in s.fence
  }

  datatype Event =
    | Arrive(key: LockKey)
    | Resume(j: JobId)
    | Cleared(j: JobId, ok: bool)
    | Drained(j: JobId)
    | Leave(j: JobId)

  predicate IsDone(s: State, j: JobId) {
    j < |s.jobs| && s.jobs[j].phase.Done?
  }

  /** An await ends only when what it waits for has settled. */
  predicate Enabled(s: State, e: Event) {
    match e
    case Arrive(_) => true
    case Resume(j) =>
      && j < |s.jobs| && s.jobs[j].phase.Waiting?
      && (s.jobs[j].phase.previous.Some? ==> IsDone(s, s.jobs[j].phase.previous.value))
    case Cleared(j, _) => j < |s.jobs| && s.jobs[j].phase.Clearing? && s.jobs[j].key.Invalidation?
    case Drained(j) =>
      && j < |s.jobs| && s.jobs[j].phase.Draining? && s.jobs[j].key.Invalidation?
      && forall t | t in s.jobs[j].phase.tails :: IsDone(s, t)
    case Leave(j) => j < |s.jobs| && (s.jobs[j].phase.Running? || s.jobs[j].phase.Deleting?)
  }

  function Moved(s: State, j: JobId, phase: Phase): State
    requires j < |s.jobs|
  {
    s.(jobs := s.jobs[j := s.jobs[j].(phase := phase)])
  }

  /** The end of a job: an invalidation takes its fence down, and a queue nobody joined meanwhile is forgotten. */
  function Finished(s: State, j: JobId): State
    requires j < |s.jobs|
  {
    var key := s.jobs[j].key;
    Moved(s, j, Done).(
      tails := if key in s.tails && s.tails[key] == j then s.tails - {key} else s.tails,
      fence := if key.Invalidation? then s.fence - {key.file} else s.fence)
  }

  /** The ends of the queues for session locks of the file. */
  function SessionTails(s: State, file: FileId): set<JobId> {
    set k | k in s.tails && k.Session? && FileOf(k.key) == Some(file) :: s.tails[k]
  }

  function Next(s: State, e: Event): State
    requires Enabled(s, e)
  {
    match e
    case Arrive(key) =>
      if key.Session? && Fenced(s, key.key) then s else
      var previous := if key in s.tails then Some(s.tails[key]) else None;
      s.(jobs := s.jobs + [Job(key, Waiting(previous))], tails := s.tails[key := |s.jobs|])
    case Resume(j) =>
      var key := s.jobs[j].key;
      if key.Invalidation? then Moved(s, j, Clearing).(fence := s.fence + {key.file})
      else if Fenced(s, key.key) then Finished(s, j)
      else Moved(s, j, Running)
    case Cleared(j, ok) =>
      if !ok then Finished(s, j) else Moved(s, j, Draining(SessionTails(s, s.jobs[j].key.file)))
    case Drained(j) => Moved(s, j, Deleting)
    case Leave(j) => Finished(s, j)
  }

  // ---------- The invariant ----------

  /** Job `j` has got hold of the lock it queued for, now or before. */
  predicate Started(job: Job) {
    !job.phase.Waiting?
  }

  predicate Active(job: Job) {
    job.key.Invalidation? && (job.phase.Clearing? || job.phase.Draining? || job.phase.Deleting?)
  }

  /** A job waits for one ahead of it, and a drain for session jobs. */
  predicate PhaseFits(jobs: seq<Job>, j: JobId, phase: Phase)
    requires j < |jobs|
  {
    match phase
    case Waiting(previous) => previous.Some? ==> Ahead(jobs, previous.value, j)
    case Running => jobs[j].key.Session?
    case Clearing => jobs[j].key.Invalidation?
    case Draining(tails) =>
      jobs[j].key.Invalidation? && forall t | t in tails :: t < |jobs| && jobs[t].key.Session?
    case Deleting => jobs[j].key.Invalidation?
    case Done => true
  }

  /** `i` came before `j` for the same lock. */
  predicate Ahead(jobs: seq<Job>, i: int, j: int) {
    0 <= i < j < |jobs| && jobs[i].key == jobs[j].key
  }

  /** Whoever has started found everybody ahead done; whoever waits, waits for the one right ahead. */
  ghost predicate Chained(jobs: seq<Job>) {
    && (forall j | 0 <= j < |jobs| :: PhaseFits(jobs, j, jobs[j].phase))
    && (forall i, j | Ahead(jobs, i, j) && Started(jobs[j]) :: jobs[i].phase.Done?)
    && (forall i, j | Ahead(jobs, i, j) && jobs[j].phase.Waiting? ::
          match jobs[j].phase.previous
          case None => jobs[i].phase.Done?
          case Some(p) => Ahead(jobs, p, j) && i <= p)
  }

  /** The tail of a queue is its last job, and not done; of a lock without a queue every job is done. */
  ghost predicate Tailed(jobs: seq<Job>, tails: map<LockKey, JobId>) {
    && (forall k | k in tails :: tails[k] < |jobs| && jobs[tails[k]].key == k && !jobs[tails[k]].phase.Done?)
    && (forall j | 0 <= j < |jobs| ::
          if jobs[j].key in tails then j <= tails[jobs[j].key] else jobs[j].phase.Done?)
  }

  /** The fence stands for exactly the files with an invalidation in progress. */
  ghost predicate Guarded(jobs: seq<Job>, fence: set<FileId>) {
    && (forall j | 0 <= j < |jobs| && Active(jobs[j]) :: jobs[j].key.file in fence)
    && (forall f | f in fence :: exists j :: 0 <= j < |jobs| && Active(jobs[j]) && jobs[j].key.file == f)
  }

  predicate ForFile(job: Job, file: FileId) {
    job.key.Session? && FileOf(job.key.key) == Some(file)
  }

  /** Session job `i` is done, or is covered by one of the jobs waited for. */
  ghost predicate Covered(jobs: seq<Job>, i: JobId, tails: set<JobId>)
    requires i < |jobs|
  {
    jobs[i].phase.Done? || exists t :: t in tails && t < |jobs| && i <= t && jobs[t].key == jobs[i].key
  }

  /** An invalidation that drains waits for every session job of its file that is left; one that deletes has none. */
  ghost predicate Drains(jobs: seq<Job>) {
    forall i, j | 0 <= i < |jobs| && 0 <= j < |jobs| && jobs[j].key.Invalidation? && jobs[j].key.file != ""
                  && ForFile(jobs[i], jobs[j].key.file) ::
      && (jobs[j].phase.Draining? ==> Covered(jobs, i, jobs[j].phase.tails))
      && (jobs[j].phase.Deleting? ==> jobs[i].phase.Done?)
  }

  ghost predicate Inv(s: State) {
    Chained(s.jobs) && Tailed(s.jobs, s.tails) && Guarded(s.jobs, s.fence) && Drains(s.jobs)
  }

  // ---------- Every step keeps it ----------

  lemma ArriveChained(s: State, key: LockKey)
    requires Chained(s.jobs) && Tailed(s.jobs, s.tails)
    ensures Chained(s.jobs + [Job(key, Waiting(if key in s.tails then Some(s.tails[key]) else None))])
  {
    var n := |s.jobs|;
    var jobs' := s.jobs + [Job(key, Waiting(if key in s.tails then Some(s.tails[key]) else None))];
    forall j | 0 <= j <= n
      ensures PhaseFits(jobs', j, jobs'[j].phase)
    {
      assert j < n ==> PhaseFits(s.jobs, j, s.jobs[j].phase);
    }
    forall i, j | Ahead(jobs', i, j) && Started(jobs'[j])
      ensures jobs'[i].phase.Done?
    {
      assert Ahead(s.jobs, i, j);
    }
    forall i, j | Ahead(jobs', i, j) && jobs'[j].phase.Waiting?
      ensures match jobs'[j].phase.previous
              case None => jobs'[i].phase.Done?
              case Some(p) => Ahead(jobs', p, j) && i <= p
    {
      if j < n {
        assert Ahead(s.jobs, i, j);
      }
    }
  }

  lemma ArriveTailed(s: State, key: LockKey, phase: Phase)
    requires Tailed(s.jobs, s.tails) && phase.Waiting?
    ensures Tailed(s.jobs + [Job(key, phase)], s.tails[key := |s.jobs|])
  {
  }

  lemma ArriveGuarded(s: State, job: Job)
    requires Guarded(s.jobs, s.fence) && job.phase.Waiting?
    ensures Guarded(s.jobs + [job], s.fence)
  {
    var jobs' := s.jobs + [job];
    forall f | f in s.fence
      ensures exists j :: 0 <= j < |jobs'| && Active(jobs'[j]) && jobs'[j].key.file == f
    {
      var j :| 0 <= j < |s.jobs| && Active(s.jobs[j]) && s.jobs[j].key.file == f;
      assert Active(jobs'[j]);
    }
  }

  lemma ArriveKeeps(s: State, key: LockKey)
    requires Inv(s)
    ensures Inv(Next(s, Arrive(key)))
  {
    hide Chained, Tailed, Guarded, Drains;
    if !(key.Session? && Fenced(s, key.key)) {
      var job := Job(key, Waiting(if key in s.tails then Some(s.tails[key]) else None));
      ArriveChained(s, key);
      ArriveTailed(s, key, job.phase);
      ArriveGuarded(s, job);
      DrainsNew(s, job);
    }
  }

  /** No session job joins while its file is fenced. */
  lemma DrainsNew(s: State, job: Job)
    requires Guarded(s.jobs, s.fence) && Drains(s.jobs) && job.phase.Waiting?
    requires job.key.Session? ==> !Fenced(s, job.key.key)
    ensures Drains(s.jobs + [job])
  {
    var jobs, jobs', n := s.jobs, s.jobs + [job], |s.jobs|;
    forall i, j | 0 <= i < |jobs'| && 0 <= j < |jobs'| && jobs'[j].key.Invalidation? && jobs'[j].key.file != ""
                  && ForFile(jobs'[i], jobs'[j].key.file)
      ensures jobs'[j].phase.Draining? ==> Covered(jobs', i, jobs'[j].phase.tails)
      ensures jobs'[j].phase.Deleting? ==> jobs'[i].phase.Done?
    {
      if Active(jobs'[j]) {
        assert i != n && j != n;
        if jobs[j].phase.Draining? {
          assert Covered(jobs, i, jobs[j].phase.tails);
        }
      }
    }
  }

  /** A job takes its next step; it keeps its place in the queue. */
  lemma MoveFits(s: State, j: JobId, phase: Phase, i: JobId)
    requires Chained(s.jobs) && j < |s.jobs| && PhaseFits(s.jobs, j, phase) && i < |s.jobs|
    ensures var jobs' := Moved(s, j, phase).jobs; PhaseFits(jobs', i, jobs'[i].phase)
  {
    assert PhaseFits(s.jobs, i, s.jobs[i].phase);
  }

  lemma MoveChained(s: State, j: JobId, phase: Phase)
    requires Chained(s.jobs) && j < |s.jobs| && PhaseFits(s.jobs, j, phase)
    requires !phase.Waiting? && forall i | Ahead(s.jobs, i, j) :: s.jobs[i].phase.Done?
    requires !s.jobs[j].phase.Done?
    ensures Chained(Moved(s, j, phase).jobs)
  {
    var jobs' := Moved(s, j, phase).jobs;
    forall i | 0 <= i < |jobs'|
      ensures PhaseFits(jobs', i, jobs'[i].phase)
    {
      MoveFits(s, j, phase, i);
    }
    forall a, b | Ahead(jobs', a, b) && Started(jobs'[b])
      ensures jobs'[a].phase.Done?
    {
      assert Ahead(s.jobs, a, b);
    }
    forall a, b | Ahead(jobs', a, b) && jobs'[b].phase.Waiting?
      ensures match jobs'[b].phase.previous
              case None => jobs'[a].phase.Done?
              case Some(p) => Ahead(jobs', p, b) && a <= p
    {
      assert Ahead(s.jobs, a, b);
    }
  }

  /** Everybody ahead of a job that may resume is done. */
  lemma AllAheadDone(s: State, j: JobId)
    requires Chained(s.jobs) && j < |s.jobs|
    requires Enabled(s, Resume(j)) || Started(s.jobs[j])
    ensures forall i | Ahead(s.jobs, i, j) :: s.jobs[i].phase.Done?
  {
    forall i | Ahead(s.jobs, i, j)
      ensures s.jobs[i].phase.Done?
    {
      if s.jobs[j].phase.Waiting? && s.jobs[j].phase.previous.Some? {
        var p := s.jobs[j].phase.previous.value;
        assert i < p ==> Ahead(s.jobs, i, p);
      }
    }
  }

  lemma MoveTailed(s: State, j: JobId, phase: Phase)
    requires Tailed(s.jobs, s.tails) && j < |s.jobs| && !phase.Done? && !s.jobs[j].phase.Done?
    ensures Tailed(Moved(s, j, phase).jobs, s.tails)
  {
  }

  lemma FinishTailed(s: State, j: JobId)
    requires Tailed(s.jobs, s.tails) && Chained(s.jobs) && j < |s.jobs|
    requires forall i | Ahead(s.jobs, i, j) :: s.jobs[i].phase.Done?
    ensures Tailed(Finished(s, j).jobs, Finished(s, j).tails)
  {
    var s', key := Finished(s, j), s.jobs[j].key;
    forall i | 0 <= i < |s'.jobs|
      ensures if s'.jobs[i].key in s'.tails then i <= s'.tails[s'.jobs[i].key] else s'.jobs[i].phase.Done?
    {
      if s.jobs[i].key == key && key in s.tails && s.tails[key] == j && i < j {
        assert Ahead(s.jobs, i, j);
      }
    }
  }

  /** Two invalidations of one file are never in progress at once. */
  lemma OneInvalidation(jobs: seq<Job>, i: JobId, j: JobId)
    requires Chained(jobs) && i < |jobs| && j < |jobs| && Active(jobs[i]) && Active(jobs[j])
    requires jobs[i].key.file == jobs[j].key.file
    ensures i == j
  {
    assert jobs[i].key == jobs[j].key;
    assert i < j ==> Ahead(jobs, i, j);
    assert j < i ==> Ahead(jobs, j, i);
  }

  lemma FinishGuarded(s: State, j: JobId)
    requires Guarded(s.jobs, s.fence) && Chained(s.jobs) && j < |s.jobs|
    requires s.jobs[j].key.Invalidation? ==> Active(s.jobs[j])
    ensures Guarded(Finished(s, j).jobs, Finished(s, j).fence)
  {
    var s' := Finished(s, j);
    forall i | 0 <= i < |s'.jobs| && Active(s'.jobs[i])
      ensures s'.jobs[i].key.file in s'.fence
    {
      if s.jobs[j].key.Invalidation? && s.jobs[i].key.file == s.jobs[j].key.file {
        OneInvalidation(s.jobs, i, j);
      }
    }
    forall f | f in s'.fence
      ensures exists i :: 0 <= i < |s'.jobs| && Active(s'.jobs[i]) && s'.jobs[i].key.file == f
    {
      var i :| 0 <= i < |s.jobs| && Active(s.jobs[i]) && s.jobs[i].key.file == f;
      assert Active(s'.jobs[i]);
    }
  }

  /** Jobs only get further: what was covered stays covered, and what was done stays done. */
  lemma MoveDrains(s: State, j: JobId, phase: Phase)
    requires Drains(s.jobs) && j < |s.jobs| && !phase.Draining? && !phase.Deleting?
    requires s.jobs[j].phase.Done? ==> phase.Done?
    ensures Drains(Moved(s, j, phase).jobs)
  {
    var jobs' := Moved(s, j, phase).jobs;
    forall a, b | 0 <= a < |jobs'| && 0 <= b < |jobs'| && jobs'[b].key.Invalidation? && jobs'[b].key.file != ""
                  && ForFile(jobs'[a], jobs'[b].key.file)
      ensures jobs'[b].phase.Draining? ==> Covered(jobs', a, jobs'[b].phase.tails)
      ensures jobs'[b].phase.Deleting? ==> jobs'[a].phase.Done?
    {
      assert ForFile(s.jobs[a], s.jobs[b].key.file);
      if b != j && s.jobs[b].phase.Draining? {
        assert Covered(s.jobs, a, s.jobs[b].phase.tails);
      }
    }
  }

  lemma FinishKeeps(s: State, j: JobId)
    requires Inv(s) && j < |s.jobs| && !s.jobs[j].phase.Done?
    requires forall i | Ahead(s.jobs, i, j) :: s.jobs[i].phase.Done?
    requires s.jobs[j].key.Invalidation? ==> Active(s.jobs[j])
    ensures Inv(Finished(s, j))
  {
    hide Chained, Tailed, Guarded, Drains;
    MoveChained(s, j, Done);
    FinishTailed(s, j);
    FinishGuarded(s, j);
    MoveDrains(s, j, Done);
  }

  /** The fence goes up for the file of job `j`. */
  lemma RaisedGuard(s: State, j: JobId)
    requires Guarded(s.jobs, s.fence) && j < |s.jobs| && s.jobs[j].key.Invalidation?
    ensures Guarded(Moved(s, j, Clearing).jobs, s.fence + {s.jobs[j].key.file})
  {
    var jobs', fence' := Moved(s, j, Clearing).jobs, s.fence + {s.jobs[j].key.file};
    forall f | f in fence'
      ensures exists i :: 0 <= i < |jobs'| && Active(jobs'[i]) && jobs'[i].key.file == f
    {
      if f == s.jobs[j].key.file {
        assert Active(jobs'[j]);
      } else {
        var i :| 0 <= i < |s.jobs| && Active(s.jobs[i]) && s.jobs[i].key.file == f;
        assert Active(jobs'[i]);
      }
    }
  }

  lemma ResumeKeeps(s: State, j: JobId)
    requires Inv(s) && Enabled(s, Resume(j))
    ensures Inv(Next(s, Resume(j)))
  {
    AllAheadDone(s, j);
    hide Chained, Tailed, Guarded, Drains;
    var key := s.jobs[j].key;
    if key.Invalidation? {
      MoveChained(s, j, Clearing);
      MoveTailed(s, j, Clearing);
      MoveDrains(s, j, Clearing);
      RaisedGuard(s, j);
    } else if Fenced(s, key.key) {
      FinishKeeps(s, j);
    } else {
      MoveChained(s, j, Running);
      MoveTailed(s, j, Running);
      MoveDrains(s, j, Running);
      SameGuard(s, j, Running);
    }
  }

  lemma SameGuard(s: State, j: JobId, phase: Phase)
    requires Guarded(s.jobs, s.fence) && j < |s.jobs|
    requires Active(s.jobs[j]) <==> Active(Job(s.jobs[j].key, phase))
    ensures Guarded(Moved(s, j, phase).jobs, s.fence)
  {
    var jobs' := Moved(s, j, phase).jobs;
    forall f | f in s.fence
      ensures exists i :: 0 <= i < |jobs'| && Active(jobs'[i]) && jobs'[i].key.file == f
    {
      var i :| 0 <= i < |s.jobs| && Active(s.jobs[i]) && s.jobs[i].key.file == f;
      assert Active(jobs'[i]);
    }
  }

  /** The tails found once the fence is up cover every session job of the file. */
  lemma ClearedDrains(s: State, j: JobId)
    requires Drains(s.jobs) && Tailed(s.jobs, s.tails) && Enabled(s, Cleared(j, true))
    ensures Drains(Next(s, Cleared(j, true)).jobs)
  {
    var file := s.jobs[j].key.file;
    var tails := SessionTails(s, file);
    var jobs' := Moved(s, j, Draining(tails)).jobs;
    forall a, b | 0 <= a < |jobs'| && 0 <= b < |jobs'| && jobs'[b].key.Invalidation? && jobs'[b].key.file != ""
                  && ForFile(jobs'[a], jobs'[b].key.file)
      ensures jobs'[b].phase.Draining? ==> Covered(jobs', a, jobs'[b].phase.tails)
      ensures jobs'[b].phase.Deleting? ==> jobs'[a].phase.Done?
    {
      assert ForFile(s.jobs[a], s.jobs[b].key.file);
      if b == j {
        if !s.jobs[a].phase.Done? {
          assert s.tails[s.jobs[a].key] in tails;
        }
      } else if s.jobs[b].phase.Draining? {
        assert Covered(s.jobs, a, s.jobs[b].phase.tails);
      }
    }
  }

  /** When all of them are done, so is everybody they cover. */
  lemma DrainedDrains(s: State, j: JobId)
    requires Drains(s.jobs) && Chained(s.jobs) && Enabled(s, Drained(j))
    ensures Drains(Next(s, Drained(j)).jobs)
  {
    var jobs' := Moved(s, j, Deleting).jobs;
    forall a, b | 0 <= a < |jobs'| && 0 <= b < |jobs'| && jobs'[b].key.Invalidation? && jobs'[b].key.file != ""
                  && ForFile(jobs'[a], jobs'[b].key.file)
      ensures jobs'[b].phase.Draining? ==> Covered(jobs', a, jobs'[b].phase.tails)
      ensures jobs'[b].phase.Deleting? ==> jobs'[a].phase.Done?
    {
      assert ForFile(s.jobs[a], s.jobs[b].key.file);
      if s.jobs[b].phase.Draining? {
        assert Covered(s.jobs, a, s.jobs[b].phase.tails);
        if b == j && !s.jobs[a].phase.Done? {
          var t :| t in s.jobs[b].phase.tails && t < |s.jobs| && a <= t && s.jobs[t].key == s.jobs[a].key;
          assert IsDone(s, t);
          assert a < t ==> Ahead(s.jobs, a, t);
        }
      }
    }
  }

  lemma NextKeeps(s: State, e: Event)
    requires Inv(s) && Enabled(s, e)
    ensures Inv(Next(s, e))
  {
    match e
    case Arrive(key) => ArriveKeeps(s, key);
    case Resume(j) => ResumeKeeps(s, j);
    case Cleared(j, ok) =>
      AllAheadDone(s, j);
      if ok {
        ClearedDrains(s, j);
        var phase := Draining(SessionTails(s, s.jobs[j].key.file));
        assert PhaseFits(s.jobs, j, phase);
        MoveChained(s, j, phase);
        MoveTailed(s, j, phase);
        SameGuard(s, j, phase);
      } else {
        FinishKeeps(s, j);
      }
    case Drained(j) =>
      AllAheadDone(s, j);
      DrainedDrains(s, j);
      MoveChained(s, j, Deleting);
      MoveTailed(s, j, Deleting);
      SameGuard(s, j, Deleting);
    case Leave(j) =>
      AllAheadDone(s, j);
      FinishKeeps(s, j);
  }

  // ---------- Runs ----------

  predicate EnabledRun(s: State, events: seq<Event>)
    decreases |events|
  {
    events == [] || (Enabled(s, events[0]) && EnabledRun(Next(s, events[0]), events[1..]))
  }

  function Run(s: State, events: seq<Event>): State
    requires EnabledRun(s, events)
    decreases |events|
  {
    if events == [] then s else Run(Next(s, events[0]), events[1..])
  }

  const START := State([], map[], {})

  lemma {:induction false} RunKeeps(s: State, events: seq<Event>)
    requires Inv(s) && EnabledRun(s, events)
    ensures Inv(Run(s, events))
    decreases |events|
  {
    if events != [] {
      hide Inv;
      NextKeeps(s, events[0]);
      RunKeeps(Next(s, events[0]), events[1..]);
    }
  }

  lemma Reached(events: seq<Event>)
    requires EnabledRun(START, events)
    ensures Inv(Run(START, events))
  {
    RunKeeps(START, events);
  }

  /** Mutual exclusion and arrival order: a job enters only when everybody who came before it for its lock is done. */
  lemma InOrderOfArrival(events: seq<Event>, i: JobId, j: JobId)
    requires EnabledRun(START, events)
    requires Ahead(Run(START, events).jobs, i, j) && Started(Run(START, events).jobs[j])
    ensures Run(START, events).jobs[i].phase.Done?
  {
    Reached(events);
  }

  /** The keys under which sessions of the file queue: of its builds, of any version, and of its spool. */
  ghost predicate OwnKey(key: string, file: FileId) {
    key == Spool(file) || exists version :: key == SessionKey(file, version)
  }

  /** What a caller can check of a file id. */
  predicate Recognised(file: FileId) {
    file != "" && !HasVersionMark(file)
  }

  /** Job `j` invalidates the file and job `i` is a session of it. */
  ghost predicate Meet(jobs: seq<Job>, i: JobId, j: JobId, file: FileId) {
    && i < |jobs| && j < |jobs| && Active(jobs[j]) && jobs[j].key.file == file
    && jobs[i].key.Session? && OwnKey(jobs[i].key.key, file)
  }

  /** While the file is deleted, no session lock of it is held and nobody is queued for one. */
  ghost predicate Alone(jobs: seq<Job>, file: FileId) {
    forall i: JobId, j: JobId | Meet(jobs, i, j, file) && jobs[j].phase.Deleting? :: jobs[i].phase.Done?
  }

  ghost predicate AloneAfter(events: seq<Event>, file: FileId) {
    EnabledRun(START, events) ==> Alone(Run(START, events).jobs, file)
  }

  /** While the file is invalidated, nobody enters a session lock of it, and whoever comes is refused. */
  ghost predicate Closed(s: State, file: FileId) {
    forall e, i: JobId, j: JobId | Enabled(s, e) && Meet(s.jobs, i, j, file) :: Shut(s, e, i)
  }

  predicate Shut(s: State, e: Event, i: JobId)
    requires Enabled(s, e) && i < |s.jobs|
  {
    i < |Next(s, e).jobs| && (Next(s, e).jobs[i].phase.Running? ==> s.jobs[i].phase.Running?)
  }

  ghost predicate Refuses(s: State, file: FileId) {
    forall key, j | OwnKey(key, file) && 0 <= j < |s.jobs| && Active(s.jobs[j]) && s.jobs[j].key.file == file ::
      Next(s, Arrive(Session(key))) == s
  }

  ghost predicate ClosedAfter(events: seq<Event>, file: FileId) {
    EnabledRun(START, events) ==> Closed(Run(START, events), file) && Refuses(Run(START, events), file)
  }

  lemma OwnKeysAreRecognised(key: string, file: FileId)
    requires OwnKey(key, file) && Recognised(file)
    ensures FileOf(key) == Some(file)
  {
    KeysNameTheirFile(file, None);
    if key != Spool(file) {
      var version :| key == SessionKey(file, version);
      KeysNameTheirFile(file, version);
    }
  }

  /**
   In every run the deletion of a file is alone with it, whatever sessions of whatever versions there are, if and only
   if the file id is recognised in its own keys.
   */
  lemma DeletionIsAlone(file: FileId)
    ensures Recognised(file) <==> forall events :: AloneAfter(events, file)
  {
    if Recognised(file) {
      forall events
        ensures AloneAfter(events, file)
      {
        if EnabledRun(START, events) {
          Reached(events);
          InvIsAlone(Run(START, events), file);
        }
      }
    } else if file == "" {
      EmptyIdIsNotFenced();
      assert !AloneAfter(EmptyIdRun(), file);
    } else {
      MarkedIdIsNotDrained(file);
      assert !AloneAfter(MarkedIdRun(file), file);
    }
  }

  lemma InvIsAlone(s: State, file: FileId)
    requires Inv(s) && Recognised(file)
    ensures Alone(s.jobs, file)
  {
    hide Chained, Tailed, Guarded;
    forall i: JobId, j: JobId | Meet(s.jobs, i, j, file) && s.jobs[j].phase.Deleting?
      ensures s.jobs[i].phase.Done?
    {
      OwnKeysAreRecognised(s.jobs[i].key.key, file);
      assert ForFile(s.jobs[i], file);
    }
  }

  /**
   In every run, from the start of an invalidation to its end nobody enters a session lock of the file and newcomers are
   refused, if and only if the file id is recognised in its own keys.
   */
  lemma NobodyEntersBehindTheFence(file: FileId)
    ensures Recognised(file) <==> forall events :: ClosedAfter(events, file)
  {
    if Recognised(file) {
      forall events
        ensures ClosedAfter(events, file)
      {
        if EnabledRun(START, events) {
          Reached(events);
          InvIsClosed(Run(START, events), file);
        }
      }
    } else {
      UnrecognisedEnters(file);
      assert !ClosedAfter([Arrive(Invalidation(file)), Resume(0)], file);
    }
  }

  lemma InvIsClosed(s: State, file: FileId)
    requires Inv(s) && Recognised(file)
    ensures Closed(s, file) && Refuses(s, file)
  {
    hide Chained, Tailed, Drains;
    forall e, i: JobId, j: JobId | Enabled(s, e) && Meet(s.jobs, i, j, file)
      ensures Shut(s, e, i)
    {
      OwnKeysAreRecognised(s.jobs[i].key.key, file);
    }
    forall key, j | OwnKey(key, file) && 0 <= j < |s.jobs| && Active(s.jobs[j]) && s.jobs[j].key.file == file
      ensures Next(s, Arrive(Session(key))) == s
    {
      OwnKeysAreRecognised(key, file);
    }
  }

  // ---------- File ids that are not recognised ----------

  lemma RunFirst(s: State, e: Event, rest: seq<Event>)
    requires Enabled(s, e) && EnabledRun(Next(s, e), rest)
    ensures EnabledRun(s, [e] + rest) && Run(s, [e] + rest) == Run(Next(s, e), rest)
  {
    hide Enabled, Next;
    assert ([e] + rest)[1..] == rest;
  }

  /** A build of the file runs when its invalidation begins. */
  function MarkedIdRun(file: FileId): seq<Event> {
    [Arrive(Session(SessionKey(file, None))), Resume(0), Arrive(Invalidation(file)), Resume(1), Cleared(1, true),
     Drained(1)]
  }

  /** An id that contains ":v" is not found in the key of its build, so its deletion does not wait for the build. */
  lemma MarkedIdIsNotDrained(file: FileId)
    requires HasVersionMark(file)
    ensures EnabledRun(START, MarkedIdRun(file))
    ensures var jobs := Run(START, MarkedIdRun(file)).jobs;
            && Meet(jobs, 0, 1, file) && jobs[0].phase.Running? && jobs[1].phase.Deleting?
  {
    KeysNameTheirFile(file, None);
    var key, mine := Session(SessionKey(file, None)), Invalidation(file);
    var s1 := Next(START, Arrive(key));
    assert s1 == State([Job(key, Waiting(None))], map[key := 0], {});
    var s2 := Next(s1, Resume(0));
    assert s2 == State([Job(key, Running)], map[key := 0], {});
    var s3 := Next(s2, Arrive(mine));
    assert s3 == State([Job(key, Running), Job(mine, Waiting(None))], map[key := 0, mine := 1], {});
    var s4 := Next(s3, Resume(1));
    assert s4 == State([Job(key, Running), Job(mine, Clearing)], map[key := 0, mine := 1], {file});
    assert SessionTails(s4, file) == {};
    var s5 := Next(s4, Cleared(1, true));
    assert s5.jobs == [Job(key, Running), Job(mine, Draining({}))];
    var s6 := Next(s5, Drained(1));
    assert s6.jobs == [Job(key, Running), Job(mine, Deleting)];
    SixSteps(s1, s2, s3, s4, s5, s6, Arrive(key), Resume(0), Arrive(mine), Resume(1), Cleared(1, true), Drained(1));
    assert OwnKey(SessionKey(file, None), file);
  }

  lemma SixSteps(s1: State, s2: State, s3: State, s4: State, s5: State, s6: State,
                 e1: Event, e2: Event, e3: Event, e4: Event, e5: Event, e6: Event)
    requires Enabled(START, e1) && s1 == Next(START, e1) && Enabled(s1, e2) && s2 == Next(s1, e2)
    requires Enabled(s2, e3) && s3 == Next(s2, e3) && Enabled(s3, e4) && s4 == Next(s3, e4)
    requires Enabled(s4, e5) && s5 == Next(s4, e5) && Enabled(s5, e6) && s6 == Next(s5, e6)
    ensures EnabledRun(START, [e1, e2, e3, e4, e5, e6]) && Run(START, [e1, e2, e3, e4, e5, e6]) == s6
  {
    hide Enabled, Next;
    assert EnabledRun(s6, []) && Run(s6, []) == s6;
    RunFirst(s5, e6, []);
    RunFirst(s4, e5, [e6]);
    RunFirst(s3, e4, [e5, e6]);
    RunFirst(s2, e3, [e4, e5, e6]);
    RunFirst(s1, e2, [e3, e4, e5, e6]);
    RunFirst(START, e1, [e2, e3, e4, e5, e6]);
    assert [e6] + [] == [e6] && [e5] + [e6] == [e5, e6] && [e4] + [e5, e6] == [e4, e5, e6];
    assert [e3] + [e4, e5, e6] == [e3, e4, e5, e6] && [e2] + [e3, e4, e5, e6] == [e2, e3, e4, e5, e6];
    assert [e1] + [e2, e3, e4, e5, e6] == [e1, e2, e3, e4, e5, e6];
  }

  /** A session of the file with the empty id arrives while that file is deleted. */
  function EmptyIdRun(): seq<Event> {
    [Arrive(Invalidation("")), Resume(0), Cleared(0, true), Drained(0), Arrive(Session(SessionKey("", None))),
     Resume(1)]
  }

  /** The empty id is put behind the fence but not looked for there, so its session enters during the deletion. */
  lemma EmptyIdIsNotFenced()
    ensures EnabledRun(START, EmptyIdRun())
    ensures var jobs := Run(START, EmptyIdRun()).jobs;
            && Meet(jobs, 1, 0, "") && jobs[1].phase.Running? && jobs[0].phase.Deleting?
  {
    var key, mine := Session(SessionKey("", None)), Invalidation("");
    KeysNameTheirFile("", None);
    var s1 := Next(START, Arrive(mine));
    assert s1 == State([Job(mine, Waiting(None))], map[mine := 0], {});
    var s2 := Next(s1, Resume(0));
    assert s2 == State([Job(mine, Clearing)], map[mine := 0], {""});
    assert SessionTails(s2, "") == {};
    var s3 := Next(s2, Cleared(0, true));
    assert s3 == State([Job(mine, Draining({}))], map[mine := 0], {""});
    var s4 := Next(s3, Drained(0));
    assert s4 == State([Job(mine, Deleting)], map[mine := 0], {""});
    var s5 := Next(s4, Arrive(key));
    assert s5 == State([Job(mine, Deleting), Job(key, Waiting(None))], map[mine := 0, key := 1], {""});
    var s6 := Next(s5, Resume(1));
    assert s6.jobs == [Job(mine, Deleting), Job(key, Running)];
    SixSteps(s1, s2, s3, s4, s5, s6, Arrive(mine), Resume(0), Cleared(0, true), Drained(0), Arrive(key), Resume(1));
    assert OwnKey(SessionKey("", None), "");
  }

  /** Such an id: a build of "a:vb" runs beside the deletion of that file. */
  lemma MarkedIdExample()
    ensures !Recognised("a:vb") && !Recognised("")
    ensures !AloneAfter(MarkedIdRun("a:vb"), "a:vb") && !AloneAfter(EmptyIdRun(), "")
  {
    assert "a:vb"[1..] == ":vb";
    MarkedIdIsNotDrained("a:vb");
    EmptyIdIsNotFenced();
  }

  lemma UnrecognisedEnters(file: FileId)
    requires !Recognised(file)
    ensures var events := [Arrive(Invalidation(file)), Resume(0)];
            EnabledRun(START, events) && !Refuses(Run(START, events), file)
  {
    var key, mine := Session(SessionKey(file, None)), Invalidation(file);
    KeysNameTheirFile(file, None);
    var s1 := Next(START, Arrive(mine));
    assert s1 == State([Job(mine, Waiting(None))], map[mine := 0], {});
    var s2 := Next(s1, Resume(0));
    assert s2 == State([Job(mine, Clearing)], map[mine := 0], {file});
    assert EnabledRun(s2, []) && Run(s2, []) == s2;
    RunFirst(s1, Resume(0), []);
    RunFirst(START, Arrive(mine), [Resume(0)]);
    assert [Resume(0)] + [] == [Resume(0)] && [Arrive(mine)] + [Resume(0)] == [Arrive(mine), Resume(0)];
    assert OwnKey(SessionKey(file, None), file) && Active(s2.jobs[0]);
    assert |Next(s2, Arrive(key)).jobs| == 2;
  }

  /** As long as a job is left, some job can go on: the locks and the fence never wait for each other in a circle. */
  lemma NeverStuck(events: seq<Event>, j: JobId)
    requires EnabledRun(START, events)
    requires j < |Run(START, events).jobs| && !Run(START, events).jobs[j].phase.Done?
    ensures exists e: Event :: !e.Arrive? && Enabled(Run(START, events), e)
  {
    Reached(events);
    Unstuck(Run(START, events), j);
  }

  lemma Unstuck(s: State, j: JobId)
    requires Inv(s) && j < |s.jobs| && !s.jobs[j].phase.Done?
    ensures exists e: Event :: !e.Arrive? && Enabled(s, e)
  {
    hide Inv;
    assert IsLeft(s.jobs, j, true) || IsLeft(s.jobs, j, false);
    if i: JobId :| IsLeft(s.jobs, i, true) {
      var first := FirstLeft(s.jobs, true, 0, i);
      SessionCanMove(s, first);
    } else {
      assert IsLeft(s.jobs, j, false);
      var first := FirstLeft(s.jobs, false, 0, j);
      if s.jobs[first].phase.Draining? {
        DrainCanEnd(s, first);
      } else {
        FirstCanMove(s, first);
      }
    }
  }

  lemma SessionCanMove(s: State, i: JobId)
    requires Inv(s) && IsLeft(s.jobs, i, true) && forall j | 0 <= j < i :: !IsLeft(s.jobs, j, true)
    ensures exists e: Event :: !e.Arrive? && Enabled(s, e)
  {
    hide Guarded, Drains, Tailed;
    assert PhaseFits(s.jobs, i, s.jobs[i].phase);
    FirstCanMove(s, i);
  }

  predicate IsLeft(jobs: seq<Job>, i: JobId, session: bool) {
    i < |jobs| && jobs[i].key.Session? == session && !jobs[i].phase.Done?
  }

  lemma FirstLeft(jobs: seq<Job>, session: bool, k: nat, known: JobId) returns (i: JobId)
    requires k <= known && IsLeft(jobs, known, session)
    requires forall j | 0 <= j < k :: !IsLeft(jobs, j, session)
    ensures IsLeft(jobs, i, session) && forall j | 0 <= j < i :: !IsLeft(jobs, j, session)
    decreases known - k
  {
    if IsLeft(jobs, k, session) {
      i := k;
    } else {
      i := FirstLeft(jobs, session, k + 1, known);
    }
  }

  lemma FirstCanMove(s: State, i: JobId)
    requires Inv(s) && i < |s.jobs| && !s.jobs[i].phase.Done? && !s.jobs[i].phase.Draining?
    requires forall j | 0 <= j < i :: !IsLeft(s.jobs, j, s.jobs[i].key.Session?)
    ensures exists e: Event :: !e.Arrive? && Enabled(s, e)
  {
    assert PhaseFits(s.jobs, i, s.jobs[i].phase);
    if s.jobs[i].phase.Waiting? {
      if s.jobs[i].phase.previous.Some? {
        EarlierIsDone(s, i);
      }
      assert Enabled(s, Resume(i));
    } else if s.jobs[i].phase.Clearing? {
      assert Enabled(s, Cleared(i, true));
    } else {
      assert Enabled(s, Leave(i));
    }
  }

  /** A job waits for an earlier one of its own lock, and of those none is left. */
  lemma EarlierIsDone(s: State, i: JobId)
    requires Inv(s) && i < |s.jobs| && s.jobs[i].phase.Waiting? && s.jobs[i].phase.previous.Some?
    requires forall j | 0 <= j < i :: !IsLeft(s.jobs, j, s.jobs[i].key.Session?)
    ensures IsDone(s, s.jobs[i].phase.previous.value)
  {
    hide Guarded, Drains, Tailed;
    assert PhaseFits(s.jobs, i, s.jobs[i].phase);
    assert !IsLeft(s.jobs, s.jobs[i].phase.previous.value, s.jobs[i].key.Session?);
  }

  lemma DrainCanEnd(s: State, j: JobId)
    requires Inv(s) && j < |s.jobs| && s.jobs[j].phase.Draining?
    requires forall i | 0 <= i < |s.jobs| :: !IsLeft(s.jobs, i, true)
    ensures exists e: Event :: !e.Arrive? && Enabled(s, e)
  {
    assert PhaseFits(s.jobs, j, s.jobs[j].phase);
    forall t | t in s.jobs[j].phase.tails
      ensures IsDone(s, t)
    {
      assert !IsLeft(s.jobs, t, true);
    }
    assert Enabled(s, Drained(j));
  }

  // ---------- The coordinator's fields ----------

  /**
   The two maps of queue tails, kept in one by the kind of lock, and the set of files that are being invalidated. A
   promise is the job that will settle it.
   */
  class CacheSessionLocks {
    var jobs: seq<Job>
    var locks: map<LockKey, JobId>
    var invalidatingFileIds: set<FileId>

    ghost function Abs(): State
      reads this
    {
      State(jobs, locks, invalidatingFileIds)
    }

    constructor ()
      ensures Abs() == START && Inv(Abs())
    {
      jobs, locks, invalidatingFileIds := [], map[], {};
    }

    method IsInvalidating(key: string) returns (yes: bool)
      ensures yes <==> Fenced(Abs(), key)
    {
      var file := FileOf(key);
      yes := file.Some? && file.value != "" && file.value in invalidatingFileIds;
    }

    method Enqueue(key: LockKey) returns (job: JobId)
      modifies this`jobs, this`locks
      ensures job == old(|jobs|) && locks == old(locks)[key := job]
      ensures jobs == old(jobs) + [Job(key, Waiting(if key in old(locks) then Some(old(locks)[key]) else None))]
    {
      job := |jobs|;
      var previous := if key in locks then Some(locks[key]) else None;
      jobs := jobs + [Job(key, Waiting(previous))];
      locks := locks[key := job];
    }

    /** withSessionLock up to its first await: None is the error a caller may retry after. */
    method WithSessionLock(key: string) returns (job: Option<JobId>)
      requires Inv(Abs())
      modifies this
      ensures Inv(Abs()) && Abs() == Next(old(Abs()), Arrive(Session(key)))
      ensures job == if Fenced(old(Abs()), key) then None else Some(old(|jobs|))
    {
      NextKeeps(Abs(), Arrive(Session(key)));
      hide Inv;
      var rejected := IsInvalidating(key);
      if rejected {
        return None;
      }
      var j := Enqueue(Session(key));
      return Some(j);
    }

    /** withFileInvalidation up to its first await. */
    method WithFileInvalidation(file: FileId) returns (job: JobId)
      requires Inv(Abs())
      modifies this
      ensures Inv(Abs()) && Abs() == Next(old(Abs()), Arrive(Invalidation(file))) && job == old(|jobs|)
    {
      NextKeeps(Abs(), Arrive(Invalidation(file)));
      hide Inv;
      job := Enqueue(Invalidation(file));
    }

    method Settle(j: JobId)
      requires j < |jobs|
      modifies this
      ensures Abs() == Finished(old(Abs()), j)
    {
      var key := jobs[j].key;
      if key.Invalidation? {
        invalidatingFileIds := invalidatingFileIds - {key.file};
      }
      jobs := jobs[j := jobs[j].(phase := Done)];
      if key in locks && locks[key] == j {
        locks := locks - {key};
      }
    }

    /** After `await previous`: the section is entered, unless an invalidation began meanwhile. */
    method EnterSession(j: JobId) returns (entered: bool)
      requires Inv(Abs()) && Enabled(Abs(), Resume(j)) && jobs[j].key.Session?
      modifies this
      ensures Inv(Abs()) && Abs() == Next(old(Abs()), Resume(j))
      ensures entered <==> !Fenced(old(Abs()), old(jobs)[j].key.key)
    {
      NextKeeps(Abs(), Resume(j));
      hide Inv, Finished;
      var rejected := IsInvalidating(jobs[j].key.key);
      if rejected {
        Settle(j);
        return false;
      }
      jobs := jobs[j := jobs[j].(phase := Running)];
      return true;
    }

    /** After `await previous`: the fence goes up. */
    method RaiseFence(j: JobId)
      requires Inv(Abs()) && Enabled(Abs(), Resume(j)) && jobs[j].key.Invalidation?
      modifies this
      ensures Inv(Abs()) && Abs() == Next(old(Abs()), Resume(j))
    {
      NextKeeps(Abs(), Resume(j));
      hide Inv;
      invalidatingFileIds := invalidatingFileIds + {jobs[j].key.file};
      jobs := jobs[j := jobs[j].(phase := Clearing)];
    }

    /** After `await beforeDrain()`: the tails of the file's queues are what is awaited next. */
    method CollectTails(j: JobId, ok: bool)
      requires Inv(Abs()) && Enabled(Abs(), Cleared(j, ok))
      modifies this
      ensures Inv(Abs()) && Abs() == Next(old(Abs()), Cleared(j, ok))
    {
      NextKeeps(Abs(), Cleared(j, ok));
      hide Inv, Finished;
      if !ok {
        Settle(j);
        return;
      }
      var file := jobs[j].key.file;
      var tails := set k | k in locks && k.Session? && FileOf(k.key) == Some(file) :: locks[k];
      jobs := jobs[j := jobs[j].(phase := Draining(tails))];
    }

    /** After `await Promise.all(tails)`: the files are deleted. */
    method BeginDeletion(j: JobId)
      requires Inv(Abs()) && Enabled(Abs(), Drained(j))
      modifies this
      ensures Inv(Abs()) && Abs() == Next(old(Abs()), Drained(j))
      ensures jobs[j].key.file != "" ==>
                forall i | 0 <= i < |jobs| && ForFile(jobs[i], jobs[j].key.file) :: jobs[i].phase.Done?
    {
      NextKeeps(Abs(), Drained(j));
      jobs := jobs[j := jobs[j].(phase := Deleting)];
    }

    /** The finally block of either function. */
    method Exit(j: JobId)
      requires Inv(Abs()) && Enabled(Abs(), Leave(j))
      modifies this
      ensures Inv(Abs()) && Abs() == Next(old(Abs()), Leave(j))
    {
      NextKeeps(Abs(), Leave(j));
      hide Inv;
      Settle(j);
    }
  }
}
