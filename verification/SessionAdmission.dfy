/** Who gets in: which sessions the fence lets through, who a waiting job and a draining invalidation wait for. */
module SessionAdmission {
  import opened Common
  import opened SessionLocks

  // ---------- Keys once more ----------

  /** The key of a build names what comes before the first ":v" of the file id. */
  lemma BuildKeyNames(file: FileId, version: Option<string>)
    ensures FileOf(SessionKey(file, version)) == Some(file[..FirstVersionMark(file)])
  {
    var key := SessionKey(file, version);
    assert key[0] == 'f' && "spool:"[0] == 's';
    MarkOfPlain(file);
    if version.None? {
      assert key[5..] == file;
    } else {
      assert "file:" + file + ":v" + version.value == "file:" + (file + ":v" + version.value);
      assert key[5..] == file + ":v" + version.value;
      MarkOfVersioned(file, version.value);
      assert key[5..][..FirstVersionMark(file)] == file[..FirstVersionMark(file)];
    }
  }

  lemma {:induction false} MarkIsThere(s: string)
    ensures HasVersionMark(s) ==> s[FirstVersionMark(s)..][..2] == ":v"
    ensures FirstVersionMark(s) == |s| || HasVersionMark(s)
  {
    if |s| >= 2 && !(s[0] == ':' && s[1] == 'v') {
      MarkIsThere(s[1..]);
      if HasVersionMark(s) {
        assert s[FirstVersionMark(s)..] == s[1..][FirstVersionMark(s[1..])..];
      }
    }
  }

  /** Only keys of a file name it. */
  lemma NamedByOwnKey(key: string, file: FileId)
    requires FileOf(key) == Some(file)
    ensures OwnKey(key, file)
  {
    hide FirstVersionMark;
    if "spool:" <= key {
      assert key == Spool(file);
    } else {
      var s := key[5..];
      MarkIsThere(s);
      assert key == "file:" + s;
      if HasVersionMark(s) {
        var version := VersionIn(s, FirstVersionMark(s));
        assert key == SessionKey(file, Some(version));
      } else {
        assert s[..|s|] == s;
        assert key == SessionKey(file, None);
      }
    }
  }

  lemma VersionIn(s: string, k: nat) returns (version: string)
    requires k + 2 <= |s| && s[k..][..2] == ":v"
    ensures "file:" + s == SessionKey(s[..k], Some(version))
  {
    version := s[k + 2..];
    assert s == s[..k] + s[k..][..2] + version;
    assert "file:" + s == "file:" + s[..k] + s[k..][..2] + version;
  }

  // ---------- Who gets in ----------

  ghost predicate IsInvalidated(jobs: seq<Job>, file: FileId) {
    exists j :: 0 <= j < |jobs| && Active(jobs[j]) && jobs[j].key.file == file
  }

  /** A session of the file that comes is queued, and one whose turn it is goes on. */
  ghost predicate LetsIn(s: State, file: FileId) {
    && (forall key | OwnKey(key, file) :: Queues(s, key))
    && (forall i | 0 <= i < |s.jobs| && s.jobs[i].key.Session? && OwnKey(s.jobs[i].key.key, file)
                   && Enabled(s, Resume(i)) :: Next(s, Resume(i)).jobs == s.jobs[i := Job(s.jobs[i].key, Running)])
  }

  predicate Queues(s: State, key: string) {
    var s' := Next(s, Arrive(Session(key)));
    && |s'.jobs| == |s.jobs| + 1 && s'.jobs[..|s.jobs|] == s.jobs && s'.fence == s.fence
    && s'.jobs[|s.jobs|].key == Session(key) && s'.jobs[|s.jobs|].phase.Waiting?
  }

  ghost predicate LetsInAfter(events: seq<Event>, file: FileId) {
    EnabledRun(START, events) && !IsInvalidated(Run(START, events).jobs, file) ==> LetsIn(Run(START, events), file)
  }

  /** What a caller can check of a file id: it does not contain ":v", or begins with it. */
  predicate Unmistakable(file: FileId) {
    !HasVersionMark(file) || FirstVersionMark(file) == 0
  }

  /**
   In every run, as long as the file itself is not being invalidated, its sessions are let in, whatever other files are
   being invalidated, if and only if its id cannot be mistaken for a version of another one.
   */
  lemma LetsInOthers(file: FileId)
    ensures Unmistakable(file) <==> forall events :: LetsInAfter(events, file)
  {
    if Unmistakable(file) {
      forall events
        ensures LetsInAfter(events, file)
      {
        if EnabledRun(START, events) && !IsInvalidated(Run(START, events).jobs, file) {
          Reached(events);
          NotFenced(Run(START, events), file);
        }
      }
    } else {
      MistakenFor(file);
      assert !LetsInAfter([Arrive(Invalidation(file[..FirstVersionMark(file)])), Resume(0)], file);
    }
  }

  lemma NotFenced(s: State, file: FileId)
    requires Inv(s) && Unmistakable(file) && !IsInvalidated(s.jobs, file)
    ensures LetsIn(s, file)
  {
    hide Chained, Tailed, Drains;
    assert file !in s.fence;
    forall key | OwnKey(key, file)
      ensures !Fenced(s, key)
    {
      OwnKeyNames(key, file);
    }
    hide OwnKey, Fenced, Inv;
    forall key | OwnKey(key, file)
      ensures Queues(s, key)
    {
      assert Next(s, Arrive(Session(key))).jobs[..|s.jobs|] == s.jobs;
    }
  }

  lemma OwnKeyNames(key: string, file: FileId)
    requires OwnKey(key, file) && Unmistakable(file)
    ensures FileOf(key) == Some(file) || FileOf(key) == Some("")
  {
    MarkIsThere(file);
    if key == Spool(file) {
      assert key[6..] == file;
    } else {
      var version :| key == SessionKey(file, version);
      BuildKeyNames(file, version);
      assert file[..|file|] == file;
    }
  }

  /** A build of "a:vb" is refused while the file "a" is invalidated. */
  lemma MistakenFor(file: FileId)
    requires !Unmistakable(file)
    ensures var other := file[..FirstVersionMark(file)];
            var events := [Arrive(Invalidation(other)), Resume(0)];
            && EnabledRun(START, events) && !IsInvalidated(Run(START, events).jobs, file)
            && !LetsIn(Run(START, events), file)
  {
    var other, key := file[..FirstVersionMark(file)], SessionKey(file, None);
    BuildKeyNames(file, None);
    var mine := Invalidation(other);
    var s1 := Next(START, Arrive(mine));
    assert s1 == State([Job(mine, Waiting(None))], map[mine := 0], {});
    var s2 := Next(s1, Resume(0));
    assert s2 == State([Job(mine, Clearing)], map[mine := 0], {other});
    assert EnabledRun(s2, []) && Run(s2, []) == s2;
    assert [Resume(0)][1..] == [] && [Arrive(mine), Resume(0)][1..] == [Resume(0)];
    assert EnabledRun(s1, [Resume(0)]) && Run(s1, [Resume(0)]) == s2;
    assert other != file && OwnKey(key, file) && !Queues(s2, key);
  }

  /**
   Both directions for a file id that is recognised in its keys: whoever comes for it is refused, and whoever has waited
   for it leaves without entering, exactly while the file is being invalidated.
   */
  lemma RefusedExactlyWhileInvalidated(events: seq<Event>, file: FileId, key: string)
    requires EnabledRun(START, events) && Recognised(file) && OwnKey(key, file)
    ensures var s := Run(START, events);
            && (Next(s, Arrive(Session(key))) == s <==> IsInvalidated(s.jobs, file))
            && forall i | 0 <= i < |s.jobs| && s.jobs[i].key == Session(key) && Enabled(s, Resume(i)) ::
                 Next(s, Resume(i)).jobs
                 == s.jobs[i := Job(Session(key), if IsInvalidated(s.jobs, file) then Done else Running)]
  {
    Reached(events);
    OwnKeysAreRecognised(key, file);
    hide Chained, Tailed, Drains, OwnKey;
    var s := Run(START, events);
    assert Fenced(s, key) <==> IsInvalidated(s.jobs, file);
    if !Fenced(s, key) {
      assert |Next(s, Arrive(Session(key))).jobs| == |s.jobs| + 1;
    }
  }

  // ---------- Who waits for whom ----------

  /** A job goes on exactly when everybody who came before it for its lock is done: for nobody else does it wait. */
  lemma WaitsForItsLockOnly(events: seq<Event>, j: JobId)
    requires EnabledRun(START, events) && j < |Run(START, events).jobs| && Run(START, events).jobs[j].phase.Waiting?
    ensures var s := Run(START, events);
            Enabled(s, Resume(j)) <==> forall i | 0 <= i < j && s.jobs[i].key == s.jobs[j].key :: s.jobs[i].phase.Done?
  {
    Reached(events);
    var s := Run(START, events);
    hide Tailed, Guarded, Drains;
    assert PhaseFits(s.jobs, j, s.jobs[j].phase);
    if Enabled(s, Resume(j)) {
      AllAheadDone(s, j);
      assert forall i | 0 <= i < j && s.jobs[i].key == s.jobs[j].key :: Ahead(s.jobs, i, j);
    }
  }

  /** An invalidation is never refused: it is queued, clears when its turn comes, and deletes when its drain is over. */
  lemma InvalidationsGoOn(events: seq<Event>, file: FileId)
    requires EnabledRun(START, events)
    ensures var s := Run(START, events);
            var s' := Next(s, Arrive(Invalidation(file)));
            && |s'.jobs| == |s.jobs| + 1 && s'.jobs[..|s.jobs|] == s.jobs && s'.fence == s.fence
            && s'.jobs[|s.jobs|].key == Invalidation(file) && s'.jobs[|s.jobs|].phase.Waiting?
            && (forall j | 0 <= j < |s.jobs| && s.jobs[j].key == Invalidation(file) ::
                  && (Enabled(s, Resume(j)) ==> Next(s, Resume(j)).jobs == s.jobs[j := Job(s.jobs[j].key, Clearing)])
                  && (Enabled(s, Drained(j)) ==> Next(s, Drained(j)).jobs == s.jobs[j := Job(s.jobs[j].key, Deleting)])
                  && (Enabled(s, Leave(j)) ==> Next(s, Leave(j)).jobs == s.jobs[j := Job(s.jobs[j].key, Done)]))
  {
  }

  /** The job that whoever comes next for the lock would wait for. */
  ghost predicate LastOfLock(jobs: seq<Job>, t: JobId) {
    t < |jobs| && !jobs[t].phase.Done? && forall u | t < u < |jobs| :: jobs[u].key != jobs[t].key
  }

  /**
   Once its sessions have been torn down, an invalidation waits for the last job of every session lock of its file and
   for nothing else. If the tearing down fails it is over, and nothing is deleted.
   */
  lemma DrainsItsOwn(events: seq<Event>, j: JobId, ok: bool)
    requires EnabledRun(START, events) && Enabled(Run(START, events), Cleared(j, ok))
    requires Recognised(Run(START, events).jobs[j].key.file)
    ensures var s := Run(START, events);
            var after := Next(s, Cleared(j, ok)).jobs[j].phase;
            if !ok then after == Done else
            && after.Draining?
            && forall t: JobId :: t in after.tails <==>
                             LastOfLock(s.jobs, t) && s.jobs[t].key.Session?
                             && OwnKey(s.jobs[t].key.key, s.jobs[j].key.file)
  {
    Reached(events);
    var s := Run(START, events);
    var file := s.jobs[j].key.file;
    if ok {
      hide Chained, Guarded, Drains;
      forall t: JobId
        ensures t in SessionTails(s, file) <==>
                LastOfLock(s.jobs, t) && s.jobs[t].key.Session? && OwnKey(s.jobs[t].key.key, file)
      {
        TailIsLast(s, file, t);
      }
    }
  }

  lemma TailIsLast(s: State, file: FileId, t: JobId)
    requires Tailed(s.jobs, s.tails) && Recognised(file)
    ensures t in SessionTails(s, file) <==>
            LastOfLock(s.jobs, t) && s.jobs[t].key.Session? && OwnKey(s.jobs[t].key.key, file)
  {
    hide FileOf;
    if t in SessionTails(s, file) {
      var k :| k in s.tails && k.Session? && FileOf(k.key) == Some(file) && s.tails[k] == t;
      NamedByOwnKey(k.key, file);
    }
    if LastOfLock(s.jobs, t) && s.jobs[t].key.Session? && OwnKey(s.jobs[t].key.key, file) {
      OwnKeysAreRecognised(s.jobs[t].key.key, file);
      assert s.jobs[t].key in s.tails && s.tails[s.jobs[t].key] == t;
    }
  }

  lemma {:induction false} RunLast(s: State, events: seq<Event>)
    requires events != [] && EnabledRun(s, events)
    ensures var n := |events| - 1;
            && EnabledRun(s, events[..n]) && Enabled(Run(s, events[..n]), events[n])
            && Run(s, events) == Next(Run(s, events[..n]), events[n])
    decreases |events|
  {
    hide Enabled, Next;
    var n := |events| - 1;
    if n == 0 {
      assert events[..0] == [] && events[1..] == [];
    } else {
      RunLast(Next(s, events[0]), events[1..]);
      assert events[1..][..n - 1] == events[..n][1..];
    }
  }

  /** Nothing is deleted unless the sessions of the file have been torn down before. */
  lemma {:induction false} DeletesAfterClearing(events: seq<Event>, j: JobId)
    requires EnabledRun(START, events) && j < |Run(START, events).jobs|
    requires Run(START, events).jobs[j].phase.Draining? || Run(START, events).jobs[j].phase.Deleting?
    ensures Cleared(j, true) in events
    decreases |events|
  {
    if events != [] {
      var n := |events| - 1;
      RunLast(START, events);
      var before := Run(START, events[..n]);
      if j < |before.jobs| && (before.jobs[j].phase.Draining? || before.jobs[j].phase.Deleting?) {
        DeletesAfterClearing(events[..n], j);
        assert Cleared(j, true) in events[..n];
      } else {
        assert events[n] == Cleared(j, true);
      }
    }
  }
}
