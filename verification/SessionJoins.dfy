/** Which session a request is served by: its file, its size and its content version decide, over every run. */
module SessionJoins {
  import opened Common
  import opened SessionLeases

  // ---------- The invariant ----------

  /** The session serves the request: neither content version is known to differ from the other. */
  predicate Serves(x: Session, r: Request) {
    && x.mode == r.mode && x.file == r.file && x.expected == r.size
    && (x.version == r.version || x.version == None || r.version == None)
  }

  predicate IsActive(x: Session) {
    x.mode.Build? && x.running && !x.error
  }

  /** The maps point to sessions of their kind and file, and an active build is the one the map has for its file. */
  ghost predicate Mapped(s: State) {
    && (forall f | f in s.build ::
          s.build[f] < |s.sessions| && s.sessions[s.build[f]].mode.Build? && s.sessions[s.build[f]].file == f)
    && (forall f | f in s.spool ::
          s.spool[f] < |s.sessions| && s.sessions[s.spool[f]].mode.Spool? && s.sessions[s.spool[f]].file == f)
    && (forall i | 0 <= i < |s.sessions| && IsActive(s.sessions[i]) ::
          s.sessions[i].file in s.build && s.build[s.sessions[i].file] == i)
    && (forall i | 0 <= i < |s.sessions| && s.sessions[i].completed :: !s.sessions[i].running)
    && (forall q | 0 <= q < |s.requests| && s.requests[q].phase.Replacing? :: s.requests[q].mode.Spool?)
  }

  ghost predicate Served(s: State) {
    forall q | 0 <= q < |s.requests| && s.requests[q].phase.Joined? ::
      s.requests[q].phase.session < |s.sessions| && Serves(s.sessions[s.requests[q].phase.session], s.requests[q])
  }

  predicate SameIdentity(x: Session, y: Session) {
    x.mode == y.mode && x.file == y.file && x.expected == y.expected && x.version == y.version
  }

  /** Sessions keep what they are, and one may be new. */
  predicate Grown(s: State, s': State) {
    && |s.sessions| <= |s'.sessions|
    && forall i | 0 <= i < |s.sessions| :: SameIdentity(s.sessions[i], s'.sessions[i])
  }

  /** Requests keep what they asked; those that are new or have moved on to a session are served by it. */
  predicate Moves(s: State, s': State) {
    && |s.requests| <= |s'.requests|
    && (forall q | 0 <= q < |s.requests| ::
          s'.requests[q] == s.requests[q].(phase := s'.requests[q].phase))
    && forall q | 0 <= q < |s'.requests| && s'.requests[q].phase.Joined? ::
         || (q < |s.requests| && s'.requests[q] == s.requests[q])
         || (s'.requests[q].phase.session < |s'.sessions|
             && Serves(s'.sessions[s'.requests[q].phase.session], s'.requests[q]))
  }

  lemma StillServed(s: State, s': State)
    requires Served(s) && Grown(s, s') && Moves(s, s')
    ensures Served(s')
  {
  }

  // ---------- Deciding ----------

  /** The request has a lease and is about to decide what becomes of it. */
  predicate Deciding(s: State, q: RequestId, mode: Mode) {
    Fits(s) && Enabled(s, Decide(q)) && s.requests[q].mode == mode
  }

  /** What a request starts when there is nothing to join. */
  predicate Starts(s: State, s': State, q: RequestId)
    requires q < |s.requests|
  {
    var r := s.requests[q];
    var l := if r.phase.Leased? || r.phase.Replacing? then r.phase.lease else 0;
    if s.shuttingDown || r.file in s.fence then
      s'.requests == s.requests[q := r.(phase := Failed)] && |s'.sessions| == |s.sessions|
    else
      && s'.requests == s.requests[q := r.(phase := Joined(|s.sessions|))] && |s'.sessions| == |s.sessions| + 1
      && s'.sessions[|s.sessions|] == Session(r.mode, r.file, r.size, r.version, 0, false, false, l, true)
      && (if r.mode.Build? then r.file in s'.build && s'.build[r.file] == |s.sessions|
          else r.file in s'.spool && s'.spool[r.file] == |s.sessions|)
  }

  /** Giving a lease back is nothing but that. */
  predicate OnlyTokens(s: State, s': State) {
    s' == s.(tokens := s'.tokens, leases := s'.leases)
  }

  lemma ReleaseOnlyTokens(s: State, l: LeaseId)
    requires LeaseFits(s, l)
    ensures OnlyTokens(s, Release(s, l)) && LeaseFits(Release(s, l), l)
  {
  }

  lemma CreateStarts(s: State, q: RequestId, l: LeaseId)
    requires q < |s.requests| && LeaseFits(s, l) && HoldsLease(s.requests[q], l)
    ensures Starts(s, Create(s, q, l), q) && Starts(s, CreateSpool(s, q, l), q)
    ensures var s' := Create(s, q, l); s.sessions <= s'.sessions && OnlyMap(s, s', s.requests[q])
    ensures var s' := CreateSpool(s, q, l); s.sessions <= s'.sessions && OnlyMap(s, s', s.requests[q])
  {
    hide Release;
    ReleaseOnlyTokens(s, l);
    var s1 := Release(s, l);
    ReleaseOnlyTokens(SetPhase(s1, q, Failed), l);
  }

  /** Of the maps only the entry for the new session may differ, and it is the map of its kind. */
  predicate OnlyMap(s: State, s': State, r: Request) {
    && s'.fence == s.fence && s'.shuttingDown == s.shuttingDown
    && s'.build == (if r.mode.Build? && |s'.sessions| > |s.sessions| then s.build[r.file := |s.sessions|] else s.build)
    && s'.spool == (if r.mode.Spool? && |s'.sessions| > |s.sessions| then s.spool[r.file := |s.sessions|] else s.spool)
  }

  /**
   What becomes of a request for a build. A build in the map with a version that is not known to differ is joined, or
   is the wrong one if its size differs. One whose version differs is aborted, unless it has ended, and makes room. With
   nothing to join a new build is started, except during shutdown and behind the fence.
   */
  lemma BuildDecision(s: State, q: RequestId)
    requires Deciding(s, q, Build)
    ensures var s', r := Next(s, Decide(q)), s.requests[q];
            if r.file !in s.build then Starts(s, s', q) else
            var e := s.build[r.file];
            var x := s.sessions[e];
            if x.version == r.version || x.version == None || r.version == None then
              && s'.sessions == s.sessions && s'.build == s.build
              && s'.requests == s.requests[q := r.(phase := if x.expected == r.size then Joined(e) else Failed)]
            else
              && Starts(s, s', q) && s'.sessions[e] == x.(error := x.error || !x.completed)
              && (r.file in s'.build ==> s'.build[r.file] != e)
  {
    hide Release, Create;
    var r := s.requests[q];
    var l := r.phase.lease;
    ReleaseOnlyTokens(s, l);
    CreateStarts(s, q, l);
    if r.file in s.build {
      CreateStarts(Aborted(s, s.build[r.file]).(build := s.build - {r.file}), q, l);
    }
  }

  /**
   What becomes of a request for a spool. Behind the fence it fails. A spool in the map of the same size and of a
   version that is not known to differ is joined; any other one is torn down first and the request waits for that.
   */
  lemma SpoolDecision(s: State, q: RequestId)
    requires Deciding(s, q, Spool)
    ensures var s', r := Next(s, Decide(q)), s.requests[q];
            if r.file in s.fence then
              s'.sessions == s.sessions && s'.requests == s.requests[q := r.(phase := Failed)]
            else if r.file !in s.spool then Starts(s, s', q) else
            var e := s.spool[r.file];
            var x := s.sessions[e];
            if x.expected == r.size && (x.version == r.version || x.version == None || r.version == None) then
              s'.sessions == s.sessions && s'.requests == s.requests[q := r.(phase := Joined(e))]
            else
              && s'.sessions == s.sessions[e := x.(error := true)]
              && s'.requests == s.requests[q := r.(phase := Replacing(r.phase.lease))]
              && (x.file == r.file ==> r.file !in s'.spool)
  {
    hide Release, Create, CreateSpool;
    var l := s.requests[q].phase.lease;
    ReleaseOnlyTokens(s, l);
    CreateStarts(s, q, l);
  }

  /** After the tearing down the request starts its own spool. */
  lemma ReplacedStarts(s: State, q: RequestId)
    requires Fits(s) && Enabled(s, Replaced(q))
    ensures Starts(s, Next(s, Replaced(q)), q)
  {
    hide CreateSpool;
    CreateStarts(s, q, s.requests[q].phase.lease);
  }

  /** A request is turned away at once exactly behind the fence. */
  lemma AskedOutsideTheFence(s: State, mode: Mode, file: FileId, size: nat, version: Version)
    requires Fits(s)
    ensures var s' := Next(s, Ask(mode, file, size, version));
            && |s'.requests| == |s.requests| + 1 && s'.requests[..|s.requests|] == s.requests
            && s'.requests[|s.requests|] == Request(mode, file, size, version,
                                                    if file in s.fence then Failed else Reserving)
  {
  }

  /** A file is behind the fence from the step that raises it to the one that takes it down, and shutdown lasts. */
  lemma FenceFollows(s: State, e: Event, file: FileId)
    requires Fits(s) && Enabled(s, e)
    ensures file in Next(s, e).fence <==> e == FenceUp(file) || (file in s.fence && e != FenceDown(file))
    ensures Next(s, e).shuttingDown <==> s.shuttingDown || e == Shutdown
  {
    hide Create, CreateSpool, Release, Fits;
    if e.Decide? || e.Replaced? {
      DecisionKeepsFence(s, e);
    } else if e.Finish? {
      FinishKeepsFence(s, e.i, e.how);
    }
  }

  lemma FinishKeepsFence(s: State, i: SessionId, how: End)
    requires Fits(s) && Enabled(s, Finish(i, how))
    ensures EndSession(s, i, how).fence == s.fence && EndSession(s, i, how).shuttingDown == s.shuttingDown
  {
    hide Release;
    ReleaseOnlyTokens(Stopped(s, i, how), s.sessions[i].lease);
  }

  lemma DecisionKeepsFence(s: State, e: Event)
    requires Fits(s) && Enabled(s, e) && (e.Decide? || e.Replaced?)
    ensures Next(s, e).fence == s.fence && Next(s, e).shuttingDown == s.shuttingDown
  {
    hide Create, CreateSpool, Release;
    var r := s.requests[e.q];
    var l := r.phase.lease;
    CreateStarts(s, e.q, l);
    ReleaseOnlyTokens(s, l);
    if r.file in s.build {
      CreateStarts(Aborted(s, s.build[r.file]).(build := s.build - {r.file}), e.q, l);
    }
  }

  // ---------- Every step keeps it ----------

  lemma StartsMoves(s: State, s0: State, s': State, q: RequestId)
    requires q < |s.requests| && s0.requests == s.requests && Starts(s0, s', q) && Grown(s, s0)
    requires s0.sessions <= s'.sessions
    ensures Moves(s, s') && Grown(s, s')
  {
  }

  lemma StepServes(s: State, e: Event)
    requires Fits(s) && Mapped(s) && Served(s) && Enabled(s, e)
    ensures Served(Next(s, e))
  {
    hide Fits, Mapped, Served;
    if e.Decide? {
      DecideMoves(s, e.q);
    } else if e.Replaced? {
      ReplacedMoves(s, e.q);
    } else {
      OthersMove(s, e);
    }
    StillServed(s, Next(s, e));
  }

  lemma DecideMoves(s: State, q: RequestId)
    requires Fits(s) && Mapped(s) && Enabled(s, Decide(q))
    ensures Grown(s, Next(s, Decide(q))) && Moves(s, Next(s, Decide(q)))
  {
    hide Next, Fits, Mapped, Grown, Moves;
    if s.requests[q].mode.Build? {
      BuildMoves(s, q);
    } else {
      SpoolMoves(s, q);
    }
  }

  lemma BuildMoves(s: State, q: RequestId)
    requires Mapped(s) && Deciding(s, q, Build)
    ensures Grown(s, Next(s, Decide(q))) && Moves(s, Next(s, Decide(q)))
  {
    hide Create, Release, Starts, OnlyMap, Mapped, Grown, Moves, OnlyTokens;
    var r := s.requests[q];
    var l := r.phase.lease;
    ReleaseOnlyTokens(s, l);
    EntryFits(s, r.file);
    SameGrown(s);
    if r.file !in s.build {
      CreateStarts(s, q, l);
      StartsMoves(s, s, Next(s, Decide(q)), q);
    } else {
      var s0 := Aborted(s, s.build[r.file]).(build := s.build - {r.file});
      AbortedGrown(s, s.build[r.file], s0);
      CreateStarts(s0, q, l);
      if !SameVersion(s.sessions[s.build[r.file]].version, r.version) {
        StartsMoves(s, s0, Next(s, Decide(q)), q);
      } else {
        JoinedMoves(s, q, Next(s, Decide(q)).requests[q].phase, Release(s, l));
      }
    }
  }

  lemma EntryFits(s: State, file: FileId)
    requires Mapped(s)
    ensures file in s.build ==>
              s.build[file] < |s.sessions| && s.sessions[s.build[file]].mode.Build?
              && s.sessions[s.build[file]].file == file
    ensures file in s.spool ==>
              s.spool[file] < |s.sessions| && s.sessions[s.spool[file]].mode.Spool?
              && s.sessions[s.spool[file]].file == file
  {
  }

  lemma SameGrown(s: State)
    ensures Grown(s, s)
  {
  }

  lemma AbortedGrown(s: State, i: SessionId, s0: State)
    requires i < |s.sessions| && s0.sessions == Aborted(s, i).sessions
    ensures Grown(s, s0)
  {
  }

  lemma JoinedMoves(s: State, q: RequestId, phase: Phase, s1: State)
    requires q < |s.requests| && OnlyTokens(s, s1)
    requires phase.Joined? ==>
               phase.session < |s.sessions| && Serves(s.sessions[phase.session], s.requests[q].(phase := phase))
    ensures Grown(s, SetPhase(s1, q, phase)) && Moves(s, SetPhase(s1, q, phase))
  {
  }

  lemma TornMoves(s: State, q: RequestId, i: SessionId, l: LeaseId)
    requires q < |s.requests| && i < |s.sessions|
    ensures Grown(s, SetPhase(TearDown(s, i), q, Replacing(l))) && Moves(s, SetPhase(TearDown(s, i), q, Replacing(l)))
  {
  }

  lemma SpoolMoves(s: State, q: RequestId)
    requires Mapped(s) && Deciding(s, q, Spool)
    ensures Grown(s, Next(s, Decide(q))) && Moves(s, Next(s, Decide(q)))
  {
    hide CreateSpool, Release, Starts, OnlyMap, Mapped, Grown, Moves, OnlyTokens, TearDown;
    var r := s.requests[q];
    var l := r.phase.lease;
    ReleaseOnlyTokens(s, l);
    EntryFits(s, r.file);
    SameGrown(s);
    CreateStarts(s, q, l);
    JoinedMoves(s, q, Failed, Release(s, l));
    if r.file !in s.spool {
      StartsMoves(s, s, Next(s, Decide(q)), q);
    } else {
      var x := s.sessions[s.spool[r.file]];
      TornMoves(s, q, s.spool[r.file], l);
      if x.expected == r.size && SameVersion(x.version, r.version) {
        JoinedMoves(s, q, Joined(s.spool[r.file]), Release(s, l));
      }
    }
  }

  lemma ReplacedMoves(s: State, q: RequestId)
    requires Fits(s) && Enabled(s, Replaced(q))
    ensures Grown(s, Next(s, Replaced(q))) && Moves(s, Next(s, Replaced(q)))
  {
    hide CreateSpool, Starts, OnlyMap;
    CreateStarts(s, q, s.requests[q].phase.lease);
    StartsMoves(s, s, Next(s, Replaced(q)), q);
  }

  lemma OthersMove(s: State, e: Event)
    requires Fits(s) && Enabled(s, e) && !e.Decide? && !e.Replaced?
    ensures Grown(s, Next(s, e)) && Moves(s, Next(s, e))
  {
    hide Release, Return, OnlyTokens, Grown, Moves;
    SameGrown(s);
    if e.Finish? {
      FinishedMoves(s, e.i, e.how);
    } else if e.Ask? || e.ReserveSettled? || e.SlotSettled? {
      AskedMoves(s, e);
    } else {
      SessionsMove(s, Next(s, e));
    }
  }

  lemma AskedMoves(s: State, e: Event)
    requires Fits(s) && Enabled(s, e) && (e.Ask? || e.ReserveSettled? || e.SlotSettled?)
    ensures Grown(s, Next(s, e)) && Moves(s, Next(s, e))
  {
  }

  lemma SessionsMove(s: State, s': State)
    requires s'.requests == s.requests && |s'.sessions| == |s.sessions|
    requires forall i | 0 <= i < |s.sessions| :: SameIdentity(s.sessions[i], s'.sessions[i])
    ensures Grown(s, s') && Moves(s, s')
  {
  }

  lemma FinishedMoves(s: State, i: SessionId, how: End)
    requires Fits(s) && Enabled(s, Finish(i, how))
    ensures Grown(s, EndSession(s, i, how)) && Moves(s, EndSession(s, i, how))
  {
    hide Release;
    ReleaseOnlyTokens(Stopped(s, i, how), s.sessions[i].lease);
  }

  lemma StepMaps(s: State, e: Event)
    requires Fits(s) && Mapped(s) && Enabled(s, e)
    ensures Mapped(Next(s, e))
  {
    hide Fits, Mapped, Next;
    if e.Decide? {
      if s.requests[e.q].mode.Build? {
        BuildMaps(s, e.q);
      } else {
        SpoolMaps(s, e.q);
      }
    } else if e.Replaced? {
      ReplacedMaps(s, e.q);
    } else {
      OthersMap(s, e);
    }
  }

  /** A session that is started gets the entry of its file; if it is a build, no other one is active. */
  lemma StartedMaps(s: State, s': State, q: RequestId)
    requires Mapped(s) && q < |s.requests| && Starts(s, s', q)
    requires s.sessions <= s'.sessions && OnlyMap(s, s', s.requests[q])
    requires s.requests[q].mode.Build? ==> s.requests[q].file !in s.build
    ensures Mapped(s')
  {
    hide Mapped;
    var r := s.requests[q];
    if |s'.sessions| == |s.sessions| {
      RefusedMaps(s, s');
    } else {
      AddedMaps(s, s', r);
    }
  }

  lemma RefusedMaps(s: State, s': State)
    requires Mapped(s) && s'.sessions == s.sessions && s'.build == s.build && s'.spool == s.spool
    requires |s'.requests| == |s.requests|
    requires forall q | 0 <= q < |s.requests| :: s'.requests[q] == s.requests[q] || !s'.requests[q].phase.Replacing?
    ensures Mapped(s')
  {
  }

  lemma AddedMaps(s: State, s': State, r: Request)
    requires Mapped(s) && |s'.sessions| == |s.sessions| + 1 && s.sessions <= s'.sessions && OnlyMap(s, s', r)
    requires r.mode.Build? ==> r.file !in s.build
    requires var x := s'.sessions[|s.sessions|]; x.mode == r.mode && x.file == r.file && !x.completed
    requires |s'.requests| == |s.requests|
    requires forall q | 0 <= q < |s.requests| :: s'.requests[q] == s.requests[q] || !s'.requests[q].phase.Replacing?
    ensures Mapped(s')
  {
  }

  lemma ReplacedMaps(s: State, q: RequestId)
    requires Fits(s) && Mapped(s) && Enabled(s, Replaced(q))
    ensures Mapped(Next(s, Replaced(q)))
  {
    assert s.requests[q].mode.Spool?;
    hide CreateSpool, Mapped, Starts, OnlyMap;
    CreateStarts(s, q, s.requests[q].phase.lease);
    StartedMaps(s, Next(s, Replaced(q)), q);
  }

  lemma BuildMaps(s: State, q: RequestId)
    requires Fits(s) && Mapped(s) && Deciding(s, q, Build)
    ensures Mapped(Next(s, Decide(q)))
  {
    hide Create, Release, Starts, OnlyMap, Mapped, OnlyTokens;
    var r := s.requests[q];
    var l := r.phase.lease;
    ReleaseOnlyTokens(s, l);
    EntryFits(s, r.file);
    if r.file !in s.build {
      CreateStarts(s, q, l);
      StartedMaps(s, Next(s, Decide(q)), q);
    } else {
      var s0 := Aborted(s, s.build[r.file]).(build := s.build - {r.file});
      AbortedMaps(s, r.file);
      CreateStarts(s0, q, l);
      if !SameVersion(s.sessions[s.build[r.file]].version, r.version) {
        StartedMaps(s0, Next(s, Decide(q)), q);
      } else {
        JoinedMaps(s, q, Next(s, Decide(q)).requests[q].phase, Release(s, l));
      }
    }
  }

  /** An aborted build leaves the map. */
  lemma AbortedMaps(s: State, file: FileId)
    requires Mapped(s) && file in s.build
    ensures Mapped(Aborted(s, s.build[file]).(build := s.build - {file}))
  {
  }

  lemma JoinedMaps(s: State, q: RequestId, phase: Phase, s1: State)
    requires Mapped(s) && q < |s.requests| && OnlyTokens(s, s1) && !phase.Replacing?
    ensures Mapped(SetPhase(s1, q, phase))
  {
  }

  lemma SpoolMaps(s: State, q: RequestId)
    requires Fits(s) && Mapped(s) && Deciding(s, q, Spool)
    ensures Mapped(Next(s, Decide(q)))
  {
    hide CreateSpool, Release, Starts, OnlyMap;
    var r := s.requests[q];
    var l := r.phase.lease;
    ReleaseOnlyTokens(s, l);
    CreateStarts(s, q, l);
    if r.file !in s.spool && r.file !in s.fence {
      StartedMaps(s, Next(s, Decide(q)), q);
    } else {
      TornMaps(s, q, l);
      JoinedMaps(s, q, Failed, Release(s, l));
      if r.file in s.spool {
        JoinedMaps(s, q, Joined(s.spool[r.file]), Release(s, l));
      }
    }
  }

  lemma TornMaps(s: State, q: RequestId, l: LeaseId)
    requires Mapped(s) && q < |s.requests| && s.requests[q].mode.Spool?
    ensures s.requests[q].file in s.spool ==>
              Mapped(SetPhase(TearDown(s, s.spool[s.requests[q].file]), q, Replacing(l)))
  {
  }

  lemma OthersMap(s: State, e: Event)
    requires Fits(s) && Mapped(s) && Enabled(s, e) && !e.Decide? && !e.Replaced?
    ensures Mapped(Next(s, e))
  {
    hide Mapped;
    match e
    case Finish(i, how) => FinishedMaps(s, i, how);
    case Ask(_, _, _, _) => RequestMaps(s, e);
    case ReserveSettled(_, _) => RequestMaps(s, e);
    case SlotSettled(_, _) => RequestMaps(s, e);
    case Write(_, _) => SessionMaps(s, e);
    case Abort(_) => SessionMaps(s, e);
    case _ => ForgottenMaps(s, e);
  }

  lemma RequestMaps(s: State, e: Event)
    requires Fits(s) && Mapped(s) && Enabled(s, e) && (e.Ask? || e.ReserveSettled? || e.SlotSettled?)
    ensures Mapped(Next(s, e))
  {
    hide Mapped;
    SameMaps(s, Next(s, e));
  }

  lemma SessionMaps(s: State, e: Event)
    requires Fits(s) && Mapped(s) && Enabled(s, e) && (e.Write? || e.Abort?)
    ensures Mapped(Next(s, e))
  {
    hide Mapped;
    SameMaps(s, Next(s, e));
  }

  /** The maps are the same, no session has become active or running, and no request has begun to wait for a spool. */
  lemma SameMaps(s: State, s': State)
    requires Mapped(s) && s'.build == s.build && s'.spool == s.spool && |s'.sessions| == |s.sessions|
    requires forall i | 0 <= i < |s.sessions| :: StaysOrFails(s.sessions[i], s'.sessions[i])
    requires |s.requests| <= |s'.requests|
    requires forall q | 0 <= q < |s'.requests| ::
               (q < |s.requests| && s'.requests[q] == s.requests[q]) || !s'.requests[q].phase.Replacing?
    ensures Mapped(s')
  {
  }

  predicate StaysOrFails(x: Session, y: Session) {
    SameIdentity(x, y) && y.running == x.running && y.completed == x.completed && (x.error ==> y.error)
  }

  lemma ForgottenMaps(s: State, e: Event)
    requires Fits(s) && Mapped(s) && Enabled(s, e)
    requires e.Forget? || e.CloseSpool? || e.FenceUp? || e.FenceDown? || e.Shutdown?
    ensures Mapped(Next(s, e))
  {
    hide Mapped;
    if e.Forget? {
      LessMaps(s, Next(s, e), e.i);
    } else {
      SpoolLessMaps(s, Next(s, e));
    }
  }

  /** A build that is not running may leave the map. */
  lemma LessMaps(s: State, s': State, i: SessionId)
    requires Mapped(s) && i < |s.sessions| && !s.sessions[i].running
    requires var file := s.sessions[i].file;
             s' == s || s' == s.(build := if file in s.build && s.build[file] == i then s.build - {file} else s.build)
    ensures Mapped(s')
  {
  }

  /** Any spool may, and may fail. */
  lemma SpoolLessMaps(s: State, s': State)
    requires Mapped(s) && s'.build == s.build && s'.requests == s.requests && |s'.sessions| == |s.sessions|
    requires forall f | f in s'.spool :: f in s.spool && s'.spool[f] == s.spool[f]
    requires forall i | 0 <= i < |s.sessions| :: StaysOrFails(s.sessions[i], s'.sessions[i])
    ensures Mapped(s')
  {
  }

  lemma FinishedMaps(s: State, i: SessionId, how: End)
    requires Mapped(s) && Enabled(s, Finish(i, how)) && LeaseFits(s, s.sessions[i].lease)
    ensures Mapped(EndSession(s, i, how))
  {
    hide Release;
    ReleaseOnlyTokens(Stopped(s, i, how), s.sessions[i].lease);
  }

  lemma {:induction false} RunServes(s: State, events: seq<Event>)
    requires Mapped(s) && Served(s) && EnabledRun(s, events)
    ensures Mapped(Run(s, events)) && Served(Run(s, events))
    decreases |events|
  {
    hide Mapped, Served, Fits, Next, Enabled;
    if events != [] {
      StepMaps(s, events[0]);
      StepServes(s, events[0]);
      RunServes(Next(s, events[0]), events[1..]);
    }
  }

  lemma ReachedServes(events: seq<Event>)
    requires EnabledRun(START, events)
    ensures Mapped(Run(START, events)) && Served(Run(START, events))
  {
    RunServes(START, events);
  }

  // ---------- How sessions leave ----------

  /** The map has no entry for the session any more, and every other entry is as it was. */
  ghost predicate Leaves(m: map<FileId, SessionId>, m': map<FileId, SessionId>, i: SessionId) {
    forall f :: (f in m' <==> f in m && m[f] != i) && (f in m' ==> m'[f] == m[f])
  }

  /** A build that has ended is forgotten. */
  lemma EndedBuildLeaves(s: State, i: SessionId)
    requires Fits(s) && Mapped(s) && Enabled(s, Forget(i)) && s.sessions[i].mode.Build?
    ensures Leaves(s.build, Next(s, Forget(i)).build, i)
  {
    EntriesOf(s, i);
    hide Mapped, Fits;
  }

  /** A spool that is torn down leaves the map and fails. */
  lemma TornSpoolLeaves(s: State, i: SessionId)
    requires Fits(s) && Mapped(s) && Enabled(s, CloseSpool(i)) && s.sessions[i].mode.Spool?
    ensures Leaves(s.spool, Next(s, CloseSpool(i)).spool, i) && Next(s, CloseSpool(i)).sessions[i].error
  {
    EntriesOf(s, i);
    hide Mapped, Fits;
  }

  /** An abort marks a session that has not ended as failed and changes nothing else; shutdown forgets every spool. */
  lemma AbortMarks(s: State, i: SessionId)
    requires Fits(s) && Enabled(s, Abort(i))
    ensures Next(s, Abort(i)) == s.(sessions := Next(s, Abort(i)).sessions)
    ensures var x := s.sessions[i];
            Next(s, Abort(i)).sessions == s.sessions[i := x.(error := x.error || !x.completed)]
    ensures Next(s, Shutdown) == s.(spool := map[], shuttingDown := true)
  {
    hide Fits;
  }

  lemma EntriesOf(s: State, i: SessionId)
    requires Mapped(s) && i < |s.sessions|
    ensures forall f | f in s.build && s.build[f] == i :: f == s.sessions[i].file && s.sessions[i].mode.Build?
    ensures forall f | f in s.spool && s.spool[f] == i :: f == s.sessions[i].file && s.sessions[i].mode.Spool?
  {
  }

  /** A session that is running ends with what is said of it, and no other session is touched; a failed spool leaves. */
  lemma SessionEnds(s: State, i: SessionId, how: End)
    requires Fits(s) && Mapped(s) && Enabled(s, Finish(i, how))
    ensures s.sessions[i].mode.Spool? && how == Failure ==> Leaves(s.spool, Next(s, Finish(i, how)).spool, i)
    ensures var x := s.sessions[i];
            Next(s, Finish(i, how)).sessions
            == s.sessions[i := x.(running := false, completed := x.completed || how == Success,
                                  error := x.error || how == Failure)]
  {
    EntriesOf(s, i);
    hide Release, Mapped;
    ReleaseOnlyTokens(Stopped(s, i, how), s.sessions[i].lease);
  }

  // ---------- What a request can rely on ----------

  /**
   In every run, a request is served by a session of its kind, its file and its size, and never by one whose content
   version is known to differ from the one it asked for.
   */
  lemma JoinsWhatItAskedFor(events: seq<Event>, q: RequestId)
    requires EnabledRun(START, events)
    requires q < |Run(START, events).requests| && Run(START, events).requests[q].phase.Joined?
    ensures var s := Run(START, events);
            var r := s.requests[q];
            && r.phase.session < |s.sessions|
            && var x := s.sessions[r.phase.session];
               && x.mode == r.mode && x.file == r.file && x.expected == r.size
               && (x.version.Some? && r.version.Some? ==> x.version == r.version)
  {
    ReachedServes(events);
  }

  /** There is never more than one active build of a file. */
  lemma OneActiveBuild(events: seq<Event>, i: SessionId, j: SessionId)
    requires EnabledRun(START, events)
    requires i < |Run(START, events).sessions| && j < |Run(START, events).sessions|
    requires IsActive(Run(START, events).sessions[i]) && IsActive(Run(START, events).sessions[j])
    requires Run(START, events).sessions[i].file == Run(START, events).sessions[j].file
    ensures i == j
  {
    ReachedServes(events);
  }

  /**
   In every run, a request for a build of a file that is being built is decided by that build: of the same size and no
   version known to differ it is joined; of a version known to differ it is aborted and not joined.
   */
  lemma ActiveBuildDecides(events: seq<Event>, s: State, q: RequestId, i: SessionId)
    requires EnabledRun(START, events) && s == Run(START, events) && Deciding(s, q, Build)
    requires i < |s.sessions| && IsActive(s.sessions[i]) && s.sessions[i].file == s.requests[q].file
    ensures var x, r, s' := s.sessions[i], s.requests[q], Next(s, Decide(q));
            i < |s'.sessions| && q < |s'.requests| &&
            if x.version.Some? && r.version.Some? && x.version != r.version then
              s'.sessions[i].error && s'.requests[q].phase != Joined(i)
            else
              && s'.sessions == s.sessions
              && s'.requests[q].phase == if x.expected == r.size then Joined(i) else Failed
  {
    ReachedServes(events);
    hide Next, Served;
    BuildDecision(s, q);
  }
}
