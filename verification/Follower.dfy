/**
 A follower reads a growing file behind its writer and pushes what it reads to a consumer. The pump runs from one await
 to the next; the writer, the session's end and the consumer may move in between.
 */
module Follower {
  import opened Common

  const CHUNK: nat := 262144

  // ---------- Entities ----------

  datatype Kind = Build | Spool

  /**
   The session: what the writer has written, of which `written` bytes are announced, how it ended, and whether listeners
   have been told of the error.
   */
  datatype Session = Session(kind: Kind, expected: nat, file: Bytes, completed: bool, error: bool, told: bool)

  /**
   Where the pump is: not running until the consumer asks for more; at the top of its loop; awaiting a read; awaiting an
   event of the session; or through. `Resumed` is a wait that has been settled but not yet continued.
   */
  datatype Phase = Idle | Looping | Reading(bytes: nat) | Parked | Resumed | Ended | Failed | Destroyed

  datatype Stream = Stream(start: nat, end: int, offset: nat, phase: Phase, pushed: Bytes)

  datatype State = State(session: Session, stream: Stream)

  /** A range of the file; one that ends right before it starts is empty, as the whole of an empty file is. */
  predicate GoodRange(expected: nat, start: nat, end: int) {
    start <= end + 1 <= expected
  }

  function Start(kind: Kind, expected: nat, start: nat, end: int): State {
    State(Session(kind, expected, [], false, false, false), Stream(start, end, start, Idle, []))
  }

  // ---------- Steps ----------

  datatype Event =
    | Write(chunk: Bytes)
    | Complete
    | Abort
    | FailQuietly
    | TellFailure
    | ReadMore
    | Turn
    | ReadSettled(bytes: nat, wantsMore: bool)
    | ReadFailed
    | Destroy

  /** Listeners that wait are woken: by progress they go on, by a failure they fail with it. */
  function Woken(s: State, phase: Phase): State {
    if s.stream.phase.Parked? then s.(stream := s.stream.(phase := phase)) else s
  }

  predicate IsTerminal(s: State) {
    s.session.completed && (s.session.kind.Spool? || s.stream.offset >= s.session.expected)
  }

  predicate IsReady(s: State) {
    s.stream.offset < |s.session.file| || s.session.completed || s.session.error
  }

  /** The end of a turn in which nothing was read. */
  function NothingRead(s: State): State {
    if s.session.error then s.(stream := s.stream.(phase := Failed))
    else if IsTerminal(s) then s.(stream := s.stream.(phase := Ended))
    else if IsReady(s) then s.(stream := s.stream.(phase := Resumed))
    else s.(stream := s.stream.(phase := Parked))
  }

  /** How much is read next: at most a chunk, what has been written, and what was asked for. */
  function Available(s: State): int {
    Min(CHUNK, Min(|s.session.file| - s.stream.offset, s.stream.end - s.stream.offset + 1))
  }

  /** From the top of the loop to its first await or its end. */
  function OneTurn(s: State): State {
    if s.session.error then s.(stream := s.stream.(phase := Failed))
    else if s.stream.offset > s.stream.end then s.(stream := s.stream.(phase := Ended))
    else if s.stream.offset < |s.session.file| then s.(stream := s.stream.(phase := Reading(Available(s))))
    else NothingRead(s)
  }

  predicate Enabled(s: State, e: Event) {
    match e
    case Write(chunk) => !s.session.completed && |s.session.file| + |chunk| <= s.session.expected
    case Complete => !s.session.completed && |s.session.file| == s.session.expected
    case Abort => true
    case FailQuietly => true
    case TellFailure => s.session.error
    case ReadMore => true
    case Turn => s.stream.phase.Looping? || s.stream.phase.Resumed?
    case ReadSettled(bytes, _) => s.stream.phase.Reading? && bytes <= s.stream.phase.bytes
    case ReadFailed => s.stream.phase.Reading?
    case Destroy => true
  }

  function Next(s: State, e: Event): State
    requires Enabled(s, e) && Fits(s)
  {
    var x, y := s.session, s.stream;
    match e
    case Write(chunk) => Woken(s.(session := x.(file := x.file + chunk)), Resumed)
    case Complete => Woken(s.(session := x.(completed := true)), Resumed)
    case Abort => if x.error || x.completed then s else Woken(s.(session := x.(error := true, told := true)), Failed)
    case FailQuietly => s.(session := x.(error := true, told := x.told && x.error))
    case TellFailure => Woken(s.(session := x.(told := true)), Failed)
    case ReadMore => if y.phase.Idle? then s.(stream := y.(phase := Looping)) else s
    case Turn => OneTurn(s)
    case ReadSettled(bytes, wantsMore) =>
      if bytes == 0 then NothingRead(s)
      else
        s.(stream := y.(offset := y.offset + bytes, pushed := y.pushed + x.file[y.offset..y.offset + bytes],
                        phase := if wantsMore then Looping else Idle))
    case ReadFailed => s.(stream := y.(phase := Failed))
    case Destroy => if y.phase.Ended? || y.phase.Failed? then s else s.(stream := y.(phase := Destroyed))
  }

  /** A read that is under way stays within what was written when it began. */
  predicate Fits(s: State) {
    s.stream.phase.Reading? ==> s.stream.offset + s.stream.phase.bytes <= |s.session.file|
  }

  // ---------- The invariant ----------

  /** The part of the file the consumer asked for, up to `k`. */
  function Slice(file: Bytes, start: nat, k: nat): Bytes {
    if start <= k <= |file| then file[start..k] else []
  }

  predicate Inv(s: State) {
    var x, y := s.session, s.stream;
    && GoodRange(x.expected, y.start, y.end)
    && |x.file| <= x.expected && (x.completed ==> |x.file| == x.expected)
    && y.start <= y.offset <= y.end + 1
    && y.pushed == Slice(x.file, y.start, y.offset) && (y.offset > y.start ==> y.offset <= |x.file|)
    && (y.phase.Reading? ==>
          0 < y.phase.bytes <= CHUNK && y.offset + y.phase.bytes <= |x.file| && y.offset + y.phase.bytes <= y.end + 1)
    && (y.phase.Parked? ==> y.offset >= |x.file| && !x.completed && (x.error ==> !x.told))
    && (y.phase.Ended? ==> y.offset == y.end + 1 || (x.kind.Spool? && x.completed))
    && (x.told ==> x.error)
  }

  lemma SliceOfLonger(file: Bytes, chunk: Bytes, start: nat, k: nat)
    requires k == start || k <= |file|
    ensures Slice(file + chunk, start, k) == Slice(file, start, k)
  {
    if start <= k <= |file| {
      assert (file + chunk)[start..k] == file[start..k];
    }
  }

  lemma SliceAndMore(file: Bytes, start: nat, k: nat, n: nat)
    requires start <= k && k + n <= |file|
    ensures Slice(file, start, k) + file[k..k + n] == Slice(file, start, k + n)
  {
  }

  lemma NextKeeps(s: State, e: Event)
    requires Inv(s) && Enabled(s, e)
    ensures Fits(s) && Inv(Next(s, e))
  {
    hide Slice;
    var y := s.stream;
    match e
    case Write(chunk) => SliceOfLonger(s.session.file, chunk, y.start, y.offset);
    case ReadSettled(bytes, _) => SliceAndMore(s.session.file, y.start, y.offset, bytes);
    case _ =>
  }

  predicate EnabledRun(s: State, events: seq<Event>)
    decreases |events|
  {
    events == [] || (Fits(s) && Enabled(s, events[0]) && EnabledRun(Next(s, events[0]), events[1..]))
  }

  function Run(s: State, events: seq<Event>): State
    requires EnabledRun(s, events)
    decreases |events|
  {
    if events == [] then s else Run(Next(s, events[0]), events[1..])
  }

  lemma {:induction false} RunKeeps(s: State, events: seq<Event>)
    requires Inv(s) && EnabledRun(s, events)
    ensures Inv(Run(s, events))
    decreases |events|
  {
    hide Inv, Next, Enabled;
    if events != [] {
      NextKeeps(s, events[0]);
      RunKeeps(Next(s, events[0]), events[1..]);
    }
  }

  // ---------- What a follower promises ----------

  ghost predicate Reached(s: State, kind: Kind, expected: nat, start: nat, end: int, events: seq<Event>) {
    && GoodRange(expected, start, end) && EnabledRun(Start(kind, expected, start, end), events)
    && s == Run(Start(kind, expected, start, end), events)
  }

  lemma ReachedHolds(s: State, kind: Kind, expected: nat, start: nat, end: int, events: seq<Event>)
    requires Reached(s, kind, expected, start, end, events)
    ensures Inv(s) && s.stream.start == start && s.stream.end == end && s.session.kind == kind
  {
    RunKeeps(Start(kind, expected, start, end), events);
    SameRange(Start(kind, expected, start, end), events);
  }

  lemma {:induction false} SameRange(s: State, events: seq<Event>)
    requires EnabledRun(s, events)
    ensures var s' := Run(s, events);
            s'.stream.start == s.stream.start && s'.stream.end == s.stream.end && s'.session.kind == s.session.kind
    decreases |events|
  {
    if events != [] {
      SameRange(Next(s, events[0]), events[1..]);
    }
  }

  /**
   At any time the consumer has received exactly the bytes of the file from the start of its range on, in order, and a
   read never reaches past what has been written. A build follower that ends has delivered the whole range.
   */
  lemma PushesTheRange(s: State, kind: Kind, expected: nat, start: nat, end: int, events: seq<Event>)
    requires Reached(s, kind, expected, start, end, events)
    ensures start <= s.stream.offset <= end + 1
    ensures s.stream.pushed == Slice(s.session.file, start, s.stream.offset)
    ensures s.stream.offset > start ==> s.stream.offset <= |s.session.file|
    ensures s.stream.phase.Reading? ==> s.stream.offset + s.stream.phase.bytes <= |s.session.file|
    ensures s.stream.phase.Ended? && (kind.Build? || s.stream.offset > end) ==>
              && s.stream.pushed == Slice(s.session.file, start, end + 1)
              && |s.stream.pushed| == end + 1 - start
  {
    ReachedHolds(s, kind, expected, start, end, events);
  }

  /**
   A follower that waits has read all there is, and its session has not ended, except while a failure that has been
   recorded has not been announced yet.
   */
  lemma ParkedOnlyWithoutWork(s: State, kind: Kind, expected: nat, start: nat, end: int, events: seq<Event>)
    requires Reached(s, kind, expected, start, end, events) && s.stream.phase.Parked?
    ensures s.stream.offset >= |s.session.file| && !s.session.completed
    ensures s.session.error ==> !s.session.told && Next(s, TellFailure).stream.phase.Failed?
  {
    ReachedHolds(s, kind, expected, start, end, events);
  }

  /** The window is real: until a failing writer has cleaned up, the follower waits on a session that has ended. */
  lemma ParkedWhileFailing()
    ensures var s := Start(Build, 1, 0, 0);
            var events := [ReadMore, Turn, FailQuietly];
            && EnabledRun(s, events)
            && Run(s, events).stream.phase.Parked? && Run(s, events).session.error
  {
    var s := Start(Build, 1, 0, 0);
    var s1 := Next(s, ReadMore);
    var s2 := Next(s1, Turn);
    assert s2.stream.phase.Parked?;
    var s3 := Next(s2, FailQuietly);
    assert [ReadMore, Turn, FailQuietly][1..] == [Turn, FailQuietly];
    assert [Turn, FailQuietly][1..] == [FailQuietly];
    assert [FailQuietly][1..] == [];
    assert EnabledRun(s3, []) && Run(s3, []) == s3;
    assert EnabledRun(s2, [FailQuietly]) && Run(s2, [FailQuietly]) == s3;
    assert EnabledRun(s1, [Turn, FailQuietly]) && Run(s1, [Turn, FailQuietly]) == s3;
  }

  /**
   A step ends a follower before its range is through exactly when it follows a completed spool, and a read of bytes
   that are there returned none.
   */
  lemma EndsEarly(s: State, e: Event)
    requires Inv(s) && Enabled(s, e) && !s.stream.phase.Ended?
    ensures Next(s, e).stream.phase.Ended? && Next(s, e).stream.offset <= s.stream.end <==>
            && e.ReadSettled? && e.bytes == 0
            && s.session.kind.Spool? && s.session.completed && !s.session.error
  {
  }

  /** It can be reached: a read of the one byte of a completed spool returns nothing, and nothing is delivered. */
  lemma EndsEarlyAfterAll(b: bv8, wantsMore: bool)
    ensures var s := Start(Spool, 1, 0, 0);
            var events := [Write([b]), Complete, ReadMore, Turn, ReadSettled(0, wantsMore)];
            && EnabledRun(s, events)
            && Run(s, events).stream.phase.Ended? && Run(s, events).stream.pushed == []
            && Run(s, events).session.file == [b] && !Run(s, events).session.error
  {
    var s := Start(Spool, 1, 0, 0);
    var s1 := Next(s, Write([b]));
    assert s1.session.file == [b];
    var s2 := Next(Next(s1, Complete), ReadMore);
    var read := ReadSettled(0, wantsMore);
    var s4 := Next(Next(s2, Turn), read);
    assert s4.stream.phase.Ended?;
    hide Next, Enabled;
    assert [read] + [] == [read] && [Turn, read] + [] == [Turn, read];
    assert EnabledRun(s4, []) && Run(s4, []) == s4;
    TwoSteps(s2, Turn, read, []);
    TwoSteps(s1, Complete, ReadMore, [Turn, read]);
    assert [Complete, ReadMore] + [Turn, read] == [Complete, ReadMore, Turn, read];
    assert [Write([b]), Complete, ReadMore, Turn, read][1..] == [Complete, ReadMore, Turn, read];
  }

  /** A turn reads all there is of the range, up to a chunk; it ends or waits only when there is nothing to read. */
  lemma TurnReadsWhatIsThere(s: State)
    requires Inv(s) && Enabled(s, Turn)
    ensures var s', ready := Next(s, Turn), |s.session.file| - s.stream.offset;
            var wanted := s.stream.end + 1 - s.stream.offset;
            && s'.session == s.session && s'.stream == s.stream.(phase := s'.stream.phase)
            && if s.session.error then s'.stream.phase == Failed
               else if wanted == 0 then s'.stream.phase == Ended
               else if ready > 0
               then s'.stream.phase == Reading(if ready < wanted then Min(ready, 262_144) else Min(wanted, 262_144))
               else s'.stream.phase == Parked
  {
  }

  /** What was read is pushed, and the pump goes on exactly as long as the consumer takes more. */
  lemma PushesWhatWasRead(s: State, bytes: nat, wantsMore: bool)
    requires Inv(s) && Enabled(s, ReadSettled(bytes, wantsMore)) && bytes > 0
    ensures var s' := Next(s, ReadSettled(bytes, wantsMore));
            && s'.stream.pushed == s.stream.pushed + s.session.file[s.stream.offset..s.stream.offset + bytes]
            && s'.stream.offset == s.stream.offset + bytes && s'.session == s.session
            && s'.stream.phase == (if wantsMore then Looping else Idle)
  {
  }

  /** Until the consumer asks again nothing is read or pushed, whatever the session does. */
  lemma {:induction false} WaitsToBeAsked(s: State, events: seq<Event>)
    requires EnabledRun(s, events) && s.stream.phase.Idle?
    requires forall e | e in events :: !e.ReadMore? && !e.Destroy?
    ensures Run(s, events).stream == s.stream
    decreases |events|
  {
    if events != [] {
      assert events[0] in events;
      WaitsToBeAsked(Next(s, events[0]), events[1..]);
    }
  }

  // ---------- Delivery ----------

  /** Nothing goes wrong: no failure, no destruction, and a read returns at least a byte. */
  predicate GoesWell(e: Event) {
    !e.FailQuietly? && !e.ReadFailed? && !e.Destroy? && (e.ReadSettled? ==> e.bytes > 0)
  }

  function Reads(events: seq<Event>): nat
    decreases |events|
  {
    if events == [] then 0 else Reads(events[1..]) + if events[0].ReadSettled? then 1 else 0
  }

  /** The turns and the reads of the pump. */
  function PumpSteps(events: seq<Event>): nat
    decreases |events|
  {
    if events == [] then 0 else PumpSteps(events[1..]) + if events[0].ReadSettled? || events[0].Turn? then 1 else 0
  }

  /** A follower of a complete session that has not gone wrong. */
  predicate Following(s: State) {
    && Inv(s) && s.session.completed && !s.session.error
    && (s.stream.phase.Idle? || s.stream.phase.Looping? || s.stream.phase.Resumed? || s.stream.phase.Reading?
        || (s.stream.phase.Ended? && s.stream.offset == s.stream.end + 1))
  }

  /** The most the pump can still have to do. */
  function Work(s: State): int {
    3 * (s.stream.end + 1 - s.stream.offset)
    + match s.stream.phase
      case Idle => 3
      case Looping => 2
      case Resumed => 2
      case Reading(_) => 1
      case _ => 0
  }

  lemma FollowsOn(s: State, e: Event)
    requires Following(s) && Enabled(s, e) && GoesWell(e)
    ensures Fits(s) && Following(Next(s, e)) && 0 <= Work(Next(s, e))
    ensures Next(s, e).session == s.session
    ensures Next(s, e).stream.start == s.stream.start && Next(s, e).stream.end == s.stream.end
    ensures Work(Next(s, e)) <= Work(s) - if e.ReadSettled? || e.Turn? then 1 else 0
    ensures Next(s, e).stream.offset >= s.stream.offset + if e.ReadSettled? then 1 else 0
  {
    NextKeeps(s, e);
    hide Slice;
  }

  /**
   Behind a complete session every run in which nothing goes wrong delivers. Each read brings the follower on, so there
   are no more reads than bytes left, and turns and reads together are bounded. Until the range is through, a turn or a
   read is possible or the consumer has to ask for more, and the stream ends only with the whole range delivered.
   */
  lemma {:induction false} EveryRunDelivers(s: State, events: seq<Event>)
    requires Following(s) && EnabledRun(s, events) && forall e | e in events :: GoesWell(e)
    ensures var s' := Run(s, events);
            && Reads(events) <= s'.stream.offset - s.stream.offset <= s.stream.end + 1 - s.stream.offset
            && PumpSteps(events) <= Work(s)
            && s'.stream.pushed == Slice(s.session.file, s.stream.start, s'.stream.offset)
            && (Reads(events) == s.stream.end + 1 - s.stream.offset || s'.stream.phase.Ended? ==>
                  s'.stream.pushed == Slice(s.session.file, s.stream.start, s.stream.end + 1)
                  && |s'.stream.pushed| == s.stream.end + 1 - s.stream.start)
            && (s'.stream.phase.Ended? || s'.stream.phase.Idle? || Enabled(s', Turn)
                || Enabled(s', ReadSettled(1, true)))
    decreases |events|
  {
    DeliversOn(s, events);
    var s' := Run(s, events);
    assert Following(s') && s'.stream.offset <= s'.stream.end + 1 <= |s'.session.file|;
  }

  lemma {:induction false} DeliversOn(s: State, events: seq<Event>)
    requires Following(s) && EnabledRun(s, events) && forall e | e in events :: GoesWell(e)
    ensures var s' := Run(s, events);
            && Following(s') && s'.session == s.session
            && s'.stream.start == s.stream.start && s'.stream.end == s.stream.end
            && 0 <= Work(s') <= Work(s) - PumpSteps(events)
            && s'.stream.offset >= s.stream.offset + Reads(events)
    decreases |events|
  {
    hide Next, Enabled, GoesWell;
    if events == [] {
      WorkIsLeft(s);
    } else {
      assert events[0] in events;
      FollowsOn(s, events[0]);
      DeliversOn(Next(s, events[0]), events[1..]);
    }
  }

  lemma WorkIsLeft(s: State)
    requires Inv(s)
    ensures 0 <= Work(s)
  {
  }

  /** Once the session is complete, turn after turn delivers the rest of the range, and then the stream ends. */
  lemma {:induction false} DeliversTheRest(s: State) returns (events: seq<Event>)
    requires Inv(s) && s.session.completed && !s.session.error && (s.stream.phase.Looping? || s.stream.phase.Resumed?)
    ensures EnabledRun(s, events) && Run(s, events).stream.phase.Ended?
    ensures Run(s, events).stream.pushed == Slice(s.session.file, s.stream.start, s.stream.end + 1)
    ensures |Run(s, events).stream.pushed| == s.stream.end + 1 - s.stream.start
    decreases s.stream.end + 1 - s.stream.offset
  {
    var s1 := Next(s, Turn);
    NextKeeps(s, Turn);
    if s.stream.offset > s.stream.end {
      events := [Turn];
      assert events[1..] == [];
      assert EnabledRun(s1, []) && Run(s1, []) == s1;
    } else {
      var read := ReadSettled(Available(s), true);
      NextKeeps(s1, read);
      var s2 := Next(s1, read);
      var rest := DeliversTheRest(s2);
      TwoSteps(s, Turn, read, rest);
      events := [Turn, read] + rest;
    }
  }

  lemma TwoSteps(s: State, a: Event, b: Event, rest: seq<Event>)
    requires Fits(s) && Enabled(s, a) && Fits(Next(s, a)) && Enabled(Next(s, a), b)
    requires EnabledRun(Next(Next(s, a), b), rest)
    ensures EnabledRun(s, [a, b] + rest) && Run(s, [a, b] + rest) == Run(Next(Next(s, a), b), rest)
  {
    var events := [a, b] + rest;
    assert events[1..] == [b] + rest && ([b] + rest)[1..] == rest;
    var s1 := Next(s, a);
    hide Next, Enabled;
    assert EnabledRun(s1, [b] + rest) && Run(s1, [b] + rest) == Run(Next(s1, b), rest);
  }
}
