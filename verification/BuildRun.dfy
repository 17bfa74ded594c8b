/**
 A cache build from one await to the next. It may be aborted at any moment, and followers read the growing file and are
 woken by what the build announces.
 */
module BuildRun {
  import opened Common
  import opened CacheBuild
  import F = Follower

  // ---------- The build ----------

  /** What the build waits for. */
  datatype Stage =
    Creating | Fetching | Pumping | Writing(chunk: Bytes) | Closing | Measuring | Renaming | CleaningUp | Done

  /** `received` are the chunks whose writes were acknowledged; `told` says whether listeners know of the error. */
  datatype Building = Building(
    expected: nat, stage: Stage, received: seq<Bytes>, temporary: Option<Bytes>, written: nat, consumed: nat,
    completed: bool, error: bool, told: bool, published: Option<Bytes>, releases: nat)

  function Start(expected: nat): Building {
    Building(expected, Creating, [], None, 0, 0, false, false, false, None, 0)
  }

  /** How the awaited operation ends, or an abort. */
  datatype Event =
    | Created(ok: bool)
    | Fetched(size: Option<nat>)
    | ChunkArrives(chunk: Bytes)
    | ChunkWritten(ok: bool)
    | PumpFails
    | UpstreamEnds
    | Closed(ok: bool)
    | Measured(size: Option<nat>)
    | Renamed(ok: bool)
    | Unlinked
    | Abort

  predicate Enabled(b: Building, e: Event) {
    match e
    case Created(_) => b.stage.Creating?
    case Fetched(_) => b.stage.Fetching?
    case ChunkArrives(_) => b.stage.Pumping?
    case ChunkWritten(_) => b.stage.Writing?
    case PumpFails => b.stage.Pumping?
    case UpstreamEnds => b.stage.Pumping?
    case Closed(_) => b.stage.Closing?
    case Measured(size) => b.stage.Measuring? && (size.Some? ==> size.value == |FileOf(b)|)
    case Renamed(_) => b.stage.Renaming?
    case Unlinked => b.stage.CleaningUp?
    case Abort => true
  }

  function FileOf(b: Building): Bytes {
    if b.temporary.Some? then b.temporary.value else []
  }

  /** The error is recorded at once; listeners hear of it when the temporary file has been removed. */
  function Failing(b: Building): Building {
    b.(stage := CleaningUp, error := true)
  }

  function Acknowledged(b: Building, chunk: Bytes): Building {
    b.(stage := Pumping, received := b.received + [chunk], temporary := Some(FileOf(b) + chunk),
       written := b.written + |chunk|,
       consumed := if b.consumed < b.expected then b.consumed + Min(|chunk|, b.expected - b.consumed) else b.consumed)
  }

  function Next(b: Building, e: Event): Building
    requires Enabled(b, e)
  {
    match e
    case Created(ok) => if ok then b.(stage := Fetching, temporary := Some([])) else Failing(b)
    case Fetched(size) => if size == Some(b.expected) then b.(stage := Pumping) else Failing(b)
    case ChunkArrives(chunk) =>
      if b.error || b.written + |chunk| > b.expected then Failing(b) else b.(stage := Writing(chunk))
    case ChunkWritten(ok) => if ok then Acknowledged(b, b.stage.chunk) else Failing(b)
    case PumpFails => Failing(b)
    case UpstreamEnds => b.(stage := Closing)
    case Closed(ok) => if ok && !b.error then b.(stage := Measuring) else Failing(b)
    case Measured(size) =>
      if size == Some(b.expected) && b.written == b.expected then b.(stage := Renaming) else Failing(b)
    case Renamed(ok) =>
      if !ok then Failing(b)
      else b.(stage := Done, published := b.temporary, temporary := None, completed := true, releases := b.releases + 1)
    case Unlinked => b.(stage := Done, temporary := None, told := true, releases := b.releases + 1)
    case Abort =>
      if b.error || b.completed then b
      else b.(error := true, told := true)
  }

  // ---------- The invariant ----------

  predicate HasFile(stage: Stage) {
    !stage.Creating? && !stage.CleaningUp? && !stage.Done?
  }

  predicate Inv(b: Building) {
    && b.consumed == b.written == |Concat(b.received)| <= b.expected
    && (b.temporary.Some? ==> b.temporary.value == Concat(b.received))
    && (HasFile(b.stage) ==> b.temporary.Some?) && (b.stage.Creating? ==> b.received == [])
    && (b.stage.Writing? ==> b.written + |b.stage.chunk| <= b.expected)
    && (b.stage.Renaming? ==> b.written == b.expected)
    && (b.completed <==> b.published.Some?)
    && (b.completed ==> b.stage.Done? && b.published == Some(Concat(b.received)) && b.written == b.expected)
    && (b.stage.Done? ==> b.temporary.None? && (b.completed || (b.error && b.told)))
    && (b.stage.CleaningUp? ==> b.error)
    && (b.error && !b.stage.CleaningUp? ==> b.told) && (b.told ==> b.error)
    && b.releases == if b.stage.Done? then 1 else 0
  }

  lemma ConcatOne(received: seq<Bytes>, chunk: Bytes)
    ensures Concat(received + [chunk]) == Concat(received) + chunk
  {
    assert (received + [chunk])[..|received|] == received;
  }

  lemma NextKeeps(b: Building, e: Event)
    requires Inv(b) && Enabled(b, e)
    ensures Inv(Next(b, e)) && Concat(b.received) <= Concat(Next(b, e).received)
    ensures Next(b, e).expected == b.expected
  {
    hide Concat;
    NothingReceived();
    if e.ChunkWritten? {
      ConcatOne(b.received, b.stage.chunk);
    }
  }

  lemma NothingReceived()
    ensures Concat([]) == []
  {
  }

  predicate EnabledRun(b: Building, events: seq<Event>)
    decreases |events|
  {
    events == [] || (Enabled(b, events[0]) && EnabledRun(Next(b, events[0]), events[1..]))
  }

  function Run(b: Building, events: seq<Event>): Building
    requires EnabledRun(b, events)
    decreases |events|
  {
    if events == [] then b else Run(Next(b, events[0]), events[1..])
  }

  lemma {:induction false} RunKeeps(b: Building, events: seq<Event>)
    requires Inv(b) && EnabledRun(b, events)
    ensures Inv(Run(b, events)) && Run(b, events).expected == b.expected
    decreases |events|
  {
    hide Inv, Next, Enabled, Concat;
    if events != [] {
      NextKeeps(b, events[0]);
      RunKeeps(Next(b, events[0]), events[1..]);
    }
  }

  // ---------- What a build promises ----------

  /**
   Whenever the build is aborted and whatever fails: a file is published exactly when the build completes, it is what
   the upstream sent, of the announced length, and as much as was consumed of the reservation. The lease is given back
   once, at the end, when no temporary file is left; a build that did not complete has failed and its listeners know.
   */
  lemma PublishesWhatCame(expected: nat, events: seq<Event>)
    requires EnabledRun(Start(expected), events)
    ensures var b := Run(Start(expected), events);
            && b.consumed == |Concat(b.received)| <= expected
            && (b.published.Some? <==> b.completed)
            && (b.completed ==> b.stage.Done? && b.published == Some(Concat(b.received)) && b.consumed == expected)
            && b.releases == (if b.stage.Done? then 1 else 0)
            && (b.stage.Done? ==> b.temporary.None? && (b.completed || (b.error && b.told)))
  {
    assert Inv(Start(expected));
    RunKeeps(Start(expected), events);
    hide Concat;
  }

  /** The build has looked at its error for the last time. */
  predicate PastTheLastLook(stage: Stage) {
    stage.Measuring? || stage.Renaming?
  }

  /** An abort before that settles it: in no continuation does the build complete. */
  lemma {:induction false} AbortedInTime(b: Building, events: seq<Event>)
    requires Inv(b) && EnabledRun(b, events)
    requires b.error && !b.completed && !PastTheLastLook(b.stage)
    ensures !Run(b, events).completed && Run(b, events).published.None?
    decreases |events|
  {
    hide Concat;
    if events != [] {
      NextKeeps(b, events[0]);
      AbortedInTime(Next(b, events[0]), events[1..]);
    }
  }

  /** After an error nothing more is received, apart from a chunk whose write is under way. */
  lemma {:induction false} ReceivesNothingMore(b: Building, events: seq<Event>)
    requires EnabledRun(b, events) && b.error && !b.stage.Writing?
    ensures Run(b, events).received == b.received && Run(b, events).consumed == b.consumed
    decreases |events|
  {
    if events != [] {
      ReceivesNothingMore(Next(b, events[0]), events[1..]);
    }
  }

  predicate AbortsLate(b: Building, events: seq<Event>)
    requires EnabledRun(b, events)
    decreases |events|
  {
    events != [] &&
    ((events[0].Abort? && PastTheLastLook(b.stage)) || AbortsLate(Next(b, events[0]), events[1..]))
  }

  /** What the build waited for went well. */
  predicate WentWell(e: Event, expected: nat) {
    match e
    case Created(ok) => ok
    case Fetched(size) => size == Some(expected)
    case ChunkWritten(ok) => ok
    case PumpFails => false
    case Closed(ok) => ok
    case Measured(size) => size == Some(expected)
    case Renamed(ok) => ok
    case _ => true
  }

  predicate AllWentWell(events: seq<Event>, expected: nat)
    decreases |events|
  {
    events == [] || (WentWell(events[0], expected) && AllWentWell(events[1..], expected))
  }

  /** How much the upstream sent. */
  function Sent(events: seq<Event>): nat
    decreases |events|
  {
    if events == [] then 0 else (if events[0].ChunkArrives? then |events[0].chunk| else 0) + Sent(events[1..])
  }

  /** The build is aborted before it has looked at its error for the last time. */
  predicate AbortsInTime(b: Building, events: seq<Event>)
    requires EnabledRun(b, events)
    decreases |events|
  {
    events != [] &&
    ((events[0].Abort? && !PastTheLastLook(b.stage) && !b.stage.Done?) || AbortsInTime(Next(b, events[0]), events[1..]))
  }

  /** Nothing has gone wrong so far. */
  predicate OnTheWay(b: Building) {
    !b.stage.CleaningUp? && (b.stage.Done? ==> b.completed) && (b.error ==> PastTheLastLook(b.stage) || b.completed)
  }

  function Underway(b: Building): nat {
    b.written + if b.stage.Writing? then |b.stage.chunk| else 0
  }

  predicate NoMoreChunks(stage: Stage) {
    stage.Closing? || stage.Measuring? || stage.Renaming? || stage.Done? || stage.CleaningUp?
  }

  lemma {:induction false} NothingMoreSent(b: Building, events: seq<Event>)
    requires EnabledRun(b, events) && NoMoreChunks(b.stage)
    ensures Sent(events) == 0
    decreases |events|
  {
    if events != [] {
      NothingMoreSent(Next(b, events[0]), events[1..]);
    }
  }

  /**
   A build that has ended is complete if and only if everything it waited for went well, the upstream sent exactly what
   was expected, and it was not aborted in time.
   */
  lemma CompletesExactly(expected: nat, events: seq<Event>)
    requires EnabledRun(Start(expected), events) && Run(Start(expected), events).stage.Done?
    ensures Run(Start(expected), events).completed <==>
            AllWentWell(events, expected) && Sent(events) == expected && !AbortsInTime(Start(expected), events)
  {
    assert Inv(Start(expected));
    CompletesFrom(Start(expected), events);
  }

  lemma {:induction false} CompletesFrom(b: Building, events: seq<Event>)
    requires Inv(b) && OnTheWay(b) && EnabledRun(b, events) && Run(b, events).stage.Done?
    ensures Run(b, events).completed <==>
            AllWentWell(events, b.expected) && Underway(b) + Sent(events) == b.expected && !AbortsInTime(b, events)
    decreases |events|
  {
    hide Concat;
    if events != [] {
      var b1 := Next(b, events[0]);
      NextKeeps(b, events[0]);
      if OnTheWay(b1) {
        CompletesFrom(b1, events[1..]);
      } else {
        AbortedInTime(b1, events[1..]);
        if events[0].Measured? {
          NothingMoreSent(b1, events[1..]);
        }
      }
    }
  }

  /** A build that completes has failed as well if and only if it was aborted after that look. */
  lemma {:induction false} CompletedAndFailed(b: Building, events: seq<Event>)
    requires Inv(b) && EnabledRun(b, events) && Run(b, events).completed
    ensures Run(b, events).error <==> b.error || AbortsLate(b, events)
    decreases |events|
  {
    hide Concat;
    if events != [] {
      var b1 := Next(b, events[0]);
      NextKeeps(b, events[0]);
      CompletedAndFailed(b1, events[1..]);
      if b1.error && !b1.completed && !PastTheLastLook(b1.stage) {
        AbortedInTime(b1, events[1..]);
      }
    }
  }

  /** Such a run: the build is aborted while its file is being renamed, and the file is published nevertheless. */
  lemma AbortedWhileRenaming()
    ensures var events := [Created(true), Fetched(Some(0)), UpstreamEnds, Closed(true), Measured(Some(0)), Abort,
                           Renamed(true)];
            && EnabledRun(Start(0), events)
            && Run(Start(0), events).completed && Run(Start(0), events).error
            && Run(Start(0), events).published == Some([])
  {
    hide Next, Enabled;
    EmptyBuild();
    var b1 := Next(Next(Start(0), Created(true)), Fetched(Some(0)));
    var b2 := Next(Next(b1, UpstreamEnds), Closed(true));
    var b3 := Next(Next(b2, Measured(Some(0))), Abort);
    var b4 := Next(b3, Renamed(true));
    var last := [Renamed(true)];
    assert last[1..] == [];
    assert EnabledRun(b4, []) && Run(b4, []) == b4;
    assert EnabledRun(b3, last) && Run(b3, last) == b4;
    TwoSteps(b2, Measured(Some(0)), Abort, last);
    TwoSteps(b1, UpstreamEnds, Closed(true), [Measured(Some(0)), Abort] + last);
    TwoSteps(Start(0), Created(true), Fetched(Some(0)),
             [UpstreamEnds, Closed(true)] + ([Measured(Some(0)), Abort] + last));
    assert [Created(true), Fetched(Some(0)), UpstreamEnds, Closed(true), Measured(Some(0)), Abort, Renamed(true)]
           == [Created(true), Fetched(Some(0))] + ([UpstreamEnds, Closed(true)] + ([Measured(Some(0)), Abort] + last));
  }

  lemma EmptyBuild()
    ensures Enabled(Start(0), Created(true)) && Enabled(Next(Start(0), Created(true)), Fetched(Some(0)))
    ensures var b1 := Next(Next(Start(0), Created(true)), Fetched(Some(0)));
            && Enabled(b1, UpstreamEnds) && Enabled(Next(b1, UpstreamEnds), Closed(true))
            && var b2 := Next(Next(b1, UpstreamEnds), Closed(true));
               && Enabled(b2, Measured(Some(0))) && Enabled(Next(b2, Measured(Some(0))), Abort)
               && var b3 := Next(Next(b2, Measured(Some(0))), Abort);
                  && Enabled(b3, Renamed(true))
                  && Next(b3, Renamed(true)).completed && Next(b3, Renamed(true)).error
                  && Next(b3, Renamed(true)).published == Some([])
  {
  }

  lemma TwoSteps(b: Building, d: Event, e: Event, rest: seq<Event>)
    requires Enabled(b, d) && Enabled(Next(b, d), e) && EnabledRun(Next(Next(b, d), e), rest)
    ensures EnabledRun(b, [d, e] + rest) && Run(b, [d, e] + rest) == Run(Next(Next(b, d), e), rest)
  {
    hide Next, Enabled;
    assert ([d, e] + rest)[1..] == [e] + rest && ([e] + rest)[1..] == rest;
    assert EnabledRun(Next(b, d), [e] + rest) && Run(Next(b, d), [e] + rest) == Run(Next(Next(b, d), e), rest);
  }

  // ---------- Followers of the build ----------

  /** What a follower sees of the build. */
  function Shown(b: Building): F.Session {
    F.Session(F.Build, b.expected, Concat(b.received), b.completed, b.error, b.told)
  }

  /** What a follower hears of a step; nothing when it is none of the listeners' business. */
  function Heard(b: Building, e: Event): Option<F.Event>
    requires Enabled(b, e)
  {
    match e
    case ChunkWritten(true) => Some(F.Write(b.stage.chunk))
    case Renamed(true) => Some(F.Complete)
    case Unlinked => Some(F.TellFailure)
    case Abort => Some(F.Abort)
    case _ => if Next(b, e).stage.CleaningUp? then Some(F.FailQuietly) else None
  }

  /** Every step of the build is a step of the session its followers were proved against, or none. */
  lemma BuildIsASession(b: Building, e: Event, y: F.Stream)
    requires Inv(b) && Enabled(b, e) && F.Fits(F.State(Shown(b), y))
    ensures var s, h := F.State(Shown(b), y), Heard(b, e);
            if h.None? then Shown(Next(b, e)) == Shown(b)
            else F.Enabled(s, h.value) && F.Next(s, h.value).session == Shown(Next(b, e))
  {
    hide Concat, F.OneTurn, F.NothingRead;
    if e.ChunkWritten? {
      ConcatOne(b.received, b.stage.chunk);
    }
  }

  datatype System = System(build: Building, stream: F.Stream)

  datatype Move = Builds(step: Event) | Follows(own: F.Event)

  function Seen(s: System): F.State {
    F.State(Shown(s.build), s.stream)
  }

  /** What a follower does by itself. */
  predicate Own(e: F.Event) {
    e.ReadMore? || e.Turn? || e.ReadSettled? || e.ReadFailed? || e.Destroy?
  }

  predicate Possible(s: System, m: Move) {
    match m
    case Builds(e) => Enabled(s.build, e)
    case Follows(e) => Own(e) && F.Enabled(Seen(s), e)
  }

  predicate SystemInv(s: System) {
    Inv(s.build) && F.Inv(Seen(s))
  }

  /** The listeners of a step move with it. */
  function After(s: System, m: Move): (s': System)
    requires SystemInv(s) && Possible(s, m)
    ensures SystemInv(s')
  {
    match m
    case Builds(e) =>
      NextKeeps(s.build, e);
      BuildIsASession(s.build, e, s.stream);
      var h := Heard(s.build, e);
      if h.None? then s.(build := Next(s.build, e)) else
      F.NextKeeps(Seen(s), h.value);
      System(Next(s.build, e), F.Next(Seen(s), h.value).stream)
    case Follows(e) =>
      F.NextKeeps(Seen(s), e);
      s.(stream := F.Next(Seen(s), e).stream)
  }

  lemma AfterKeeps(s: System, m: Move)
    requires SystemInv(s) && Possible(s, m)
    ensures Concat(s.build.received) <= Concat(After(s, m).build.received)
    ensures After(s, m).stream.start == s.stream.start && After(s, m).stream.end == s.stream.end
    ensures After(s, m).build.expected == s.build.expected
  {
    hide Inv, Next, Enabled, Concat;
    if m.Builds? {
      NextKeeps(s.build, m.step);
      BuildIsASession(s.build, m.step, s.stream);
    }
  }

  predicate PossibleRun(s: System, moves: seq<Move>)
    requires SystemInv(s)
    decreases |moves|
  {
    moves == [] || (Possible(s, moves[0]) && PossibleRun(After(s, moves[0]), moves[1..]))
  }

  function Together(s: System, moves: seq<Move>): (s': System)
    requires SystemInv(s) && PossibleRun(s, moves)
    ensures SystemInv(s')
    decreases |moves|
  {
    if moves == [] then s else Together(After(s, moves[0]), moves[1..])
  }

  lemma {:induction false} TogetherKeeps(s: System, moves: seq<Move>)
    requires SystemInv(s) && PossibleRun(s, moves)
    ensures var s' := Together(s, moves);
            && Concat(s.build.received) <= Concat(s'.build.received)
            && s'.stream.start == s.stream.start && s'.stream.end == s.stream.end
            && s'.build.expected == s.build.expected
    decreases |moves|
  {
    hide SystemInv, After, Possible, Concat;
    if moves != [] {
      AfterKeeps(s, moves[0]);
      TogetherKeeps(After(s, moves[0]), moves[1..]);
    }
  }

  /** A follower may join at any time, for any range of the file. */
  function Joined(b: Building, start: nat, end: int): (s: System)
    requires Inv(b) && F.GoodRange(b.expected, start, end)
    ensures SystemInv(s)
  {
    System(b, F.Stream(start, end, start, F.Idle, []))
  }

  /**
   What a follower has received at some moment is the part of the file that is published later, if one is: aborts,
   failures and reads in any order make no follower differ from the cache. One whose stream has ended had all of its
   range, whatever becomes of the build.
   */
  lemma FollowersGetWhatIsPublished(b: Building, start: nat, end: int, moves: seq<Move>, more: seq<Move>)
    requires Inv(b) && F.GoodRange(b.expected, start, end)
    requires PossibleRun(Joined(b, start, end), moves)
    requires PossibleRun(Together(Joined(b, start, end), moves), more)
    ensures var s := Together(Joined(b, start, end), moves);
            var later := Together(s, more);
            && start <= s.stream.offset <= end + 1
            && s.stream.pushed == F.Slice(Concat(s.build.received), start, s.stream.offset)
            && (s.stream.phase.Ended? ==> s.stream.offset == end + 1 && |s.stream.pushed| == end + 1 - start)
            && (later.build.completed ==>
                  && later.build.published.Some? && |later.build.published.value| == b.expected
                  && s.stream.pushed == F.Slice(later.build.published.value, start, s.stream.offset))
  {
    hide Concat, After, Possible;
    TogetherKeeps(Joined(b, start, end), moves);
    var s := Together(Joined(b, start, end), moves);
    TogetherKeeps(s, more);
    var later := Together(s, more);
    var file, file' := Concat(s.build.received), Concat(later.build.received);
    F.SliceOfLonger(file, file'[|file|..], start, s.stream.offset);
    assert file' == file + file'[|file|..];
  }
}
