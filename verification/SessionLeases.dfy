/**
 Who holds the disk reservations and the upstream slots: requests that acquire them, leases they become, and sessions
 that spend them. Every await is the end of a step, and any other request or session may move between two steps.
 */
module SessionLeases {
  import opened Common

  type FileId = string
  type Version = Option<string>
  type TokenId = nat
  type LeaseId = nat
  type SessionId = nat
  type RequestId = nat

  // ---------- Entities ----------

  /** Something borrowed from the resource coordinator; `returned` counts how often it was given back. */
  datatype Token = Token(bytes: nat, consumed: nat, returned: nat)

  /** A reservation and a slot that are released together, once. */
  datatype Lease = Lease(reservation: TokenId, slot: TokenId, released: bool)

  datatype Mode = Build | Spool

  /** A request is waiting for its reservation, for its slot, has both, has joined a session, or has failed. */
  datatype Phase =
    | Reserving
    | Reserved(reservation: TokenId)
    | Leased(lease: LeaseId)
    | Replacing(lease: LeaseId)
    | Joined(session: SessionId)
    | Failed

  datatype Request = Request(mode: Mode, file: FileId, size: nat, version: Version, phase: Phase)

  datatype Session = Session(
    mode: Mode, file: FileId, expected: nat, version: Version, written: nat, completed: bool, error: bool,
    lease: LeaseId, running: bool)

  datatype State = State(
    tokens: seq<Token>,
    leases: seq<Lease>,
    requests: seq<Request>,
    sessions: seq<Session>,
    build: map<FileId, SessionId>,
    spool: map<FileId, SessionId>,
    fence: set<FileId>,
    shuttingDown: bool)

  /** Who has to give a token back. */
  datatype Owner = OfRequest(q: RequestId) | OfLease(l: LeaseId) | Nobody

  const START := State([], [], [], [], map[], map[], {}, false)

  // ---------- Steps ----------

  function SetPhase(s: State, q: RequestId, phase: Phase): State
    requires q < |s.requests|
  {
    s.(requests := s.requests[q := s.requests[q].(phase := phase)])
  }

  function Return(s: State, t: TokenId): State
    requires t < |s.tokens|
  {
    s.(tokens := s.tokens[t := s.tokens[t].(returned := s.tokens[t].returned + 1)])
  }

  predicate LeaseFits(s: State, l: LeaseId) {
    l < |s.leases| && s.leases[l].reservation < |s.tokens| && s.leases[l].slot < |s.tokens|
  }

  /** release(): only the first call gives anything back. */
  function Release(s: State, l: LeaseId): State
    requires LeaseFits(s, l)
  {
    if s.leases[l].released then s else
    Return(Return(s, s.leases[l].reservation), s.leases[l].slot).(
      leases := s.leases[l := s.leases[l].(released := true)])
  }

  function SameVersion(a: Version, b: Version): bool {
    a.None? || b.None? || a == b
  }

  /** session.abort: an error is recorded unless the session has ended. */
  function Aborted(s: State, i: SessionId): State
    requires i < |s.sessions|
  {
    if s.sessions[i].error || s.sessions[i].completed then s
    else s.(sessions := s.sessions[i := s.sessions[i].(error := true)])
  }

  function NewSession(s: State, q: RequestId, l: LeaseId): State
    requires q < |s.requests|
  {
    var r := s.requests[q];
    var id := |s.sessions|;
    var s1 := SetPhase(s, q, Joined(id)).(
              sessions := s.sessions + [Session(r.mode, r.file, r.size, r.version, 0, false, false, l, true)]);
    if r.mode.Build? then s1.(build := s.build[r.file := id]) else s1.(spool := s.spool[r.file := id])
  }

  /** The end of getOrCreate...: no new session during shutdown or behind the fence. */
  function Create(s: State, q: RequestId, l: LeaseId): State
    requires q < |s.requests| && LeaseFits(s, l)
  {
    if s.shuttingDown || s.requests[q].file in s.fence then SetPhase(Release(s, l), q, Failed)
    else NewSession(s, q, l)
  }

  /** getOrCreateBuildSession */
  function DecideBuild(s: State, q: RequestId, l: LeaseId): State
    requires q < |s.requests| && LeaseFits(s, l)
    requires forall f | f in s.build :: s.build[f] < |s.sessions|
  {
    var r := s.requests[q];
    if r.file !in s.build then Create(s, q, l) else
    var e := s.build[r.file];
    if !SameVersion(s.sessions[e].version, r.version) then
      Create(Aborted(s, e).(build := s.build - {r.file}), q, l)
    else if s.sessions[e].expected != r.size then SetPhase(Release(s, l), q, Failed)
    else SetPhase(Release(s, l), q, Joined(e))
  }

  /** getOrCreateSpoolSession up to the await in which it tears an outdated session down. */
  function DecideSpool(s: State, q: RequestId, l: LeaseId): State
    requires q < |s.requests| && LeaseFits(s, l)
    requires forall f | f in s.spool :: s.spool[f] < |s.sessions|
  {
    var r := s.requests[q];
    if r.file in s.fence then Caught(s, q, l)
    else if r.file !in s.spool then CreateSpool(s, q, l)
    else
      var e := s.spool[r.file];
      if s.sessions[e].expected == r.size && SameVersion(s.sessions[e].version, r.version)
      then SetPhase(Release(s, l), q, Joined(e))
      else SetPhase(TearDown(s, e), q, Replacing(l))
  }

  /** The caller's catch releases the lease once more. */
  function Caught(s: State, q: RequestId, l: LeaseId): State
    requires q < |s.requests| && LeaseFits(s, l)
  {
    SetPhase(Release(s, l), q, Failed)
  }

  function CreateSpool(s: State, q: RequestId, l: LeaseId): State
    requires q < |s.requests| && LeaseFits(s, l)
  {
    var s1 := Create(s, q, l);
    if s1.requests[q].phase.Failed? then Caught(s1, q, l) else s1
  }

  function TearDown(s: State, i: SessionId): State
    requires i < |s.sessions|
  {
    var file := s.sessions[i].file;
    s.(spool := if file in s.spool && s.spool[file] == i then s.spool - {file} else s.spool,
       sessions := s.sessions[i := s.sessions[i].(error := true)])
  }

  /** How a running session ends. `Quit` is a spool that was replaced while it waited for its upstream. */
  datatype End = Success | Failure | Quit

  function EndSession(s: State, i: SessionId, how: End): State
    requires i < |s.sessions| && LeaseFits(s, s.sessions[i].lease)
  {
    Release(Stopped(s, i, how), s.sessions[i].lease)
  }

  function Stopped(s: State, i: SessionId, how: End): State
    requires i < |s.sessions|
  {
    var x := s.sessions[i];
    s.(sessions := s.sessions[i := x.(running := false, completed := x.completed || how.Success?,
                                      error := x.error || how.Failure?)],
       spool := if how.Failure? && x.file in s.spool && s.spool[x.file] == i then s.spool - {x.file} else s.spool)
  }

  datatype Event =
    | Ask(mode: Mode, file: FileId, size: nat, version: Version)
    | ReserveSettled(q: RequestId, ok: bool)
    | SlotSettled(q: RequestId, ok: bool)
    | Decide(q: RequestId)
    | Replaced(q: RequestId)
    | Write(i: SessionId, n: nat)
    | Abort(i: SessionId)
    | Finish(i: SessionId, how: End)
    | Forget(i: SessionId)
    | CloseSpool(i: SessionId)
    | FenceUp(file: FileId)
    | FenceDown(file: FileId)
    | Shutdown

  predicate Enabled(s: State, e: Event) {
    match e
    case ReserveSettled(q, _) => q < |s.requests| && s.requests[q].phase.Reserving?
    case SlotSettled(q, _) => q < |s.requests| && s.requests[q].phase.Reserved?
    case Decide(q) => q < |s.requests| && s.requests[q].phase.Leased?
    case Replaced(q) => q < |s.requests| && s.requests[q].phase.Replacing?
    case Write(i, n) =>
      i < |s.sessions| && s.sessions[i].running && s.sessions[i].written + n <= s.sessions[i].expected
    case Abort(i) => i < |s.sessions|
    case Finish(i, how) =>
      && i < |s.sessions| && s.sessions[i].running
      && (how.Success? ==> s.sessions[i].written == s.sessions[i].expected)
      && (how.Quit? ==> s.sessions[i].mode.Spool?)
    case Forget(i) => i < |s.sessions| && !s.sessions[i].running
    case CloseSpool(i) => i < |s.sessions|
    case _ => true
  }

  /** What the fields may refer to. */
  predicate Fits(s: State) {
    && (forall q | 0 <= q < |s.requests| ::
          match s.requests[q].phase
          case Reserved(t) => t < |s.tokens|
          case Leased(l) => LeaseFits(s, l)
          case Replacing(l) => LeaseFits(s, l)
          case Joined(i) => i < |s.sessions|
          case _ => true)
    && (forall l | 0 <= l < |s.leases| :: LeaseFits(s, l))
    && (forall i | 0 <= i < |s.sessions| :: LeaseFits(s, s.sessions[i].lease))
    && (forall f | f in s.build :: s.build[f] < |s.sessions|)
    && (forall f | f in s.spool :: s.spool[f] < |s.sessions|)
  }

  /** consume: never more than is left of the reservation. */
  function Consume(s: State, t: TokenId, n: nat): State
    requires t < |s.tokens|
  {
    var left := s.tokens[t].bytes - s.tokens[t].consumed;
    s.(tokens := s.tokens[t := s.tokens[t].(consumed := s.tokens[t].consumed + Max(0, Min(n, left)))])
  }

  function Next(s: State, e: Event): State
    requires Fits(s) && Enabled(s, e)
  {
    match e
    case Ask(mode, file, size, version) =>
      s.(requests := s.requests + [Request(mode, file, size, version, if file in s.fence then Failed else Reserving)])
    case ReserveSettled(q, ok) =>
      if !ok then SetPhase(s, q, Failed)
      else SetPhase(s.(tokens := s.tokens + [Token(s.requests[q].size, 0, 0)]), q, Reserved(|s.tokens|))
    case SlotSettled(q, ok) =>
      var t := s.requests[q].phase.reservation;
      if !ok then SetPhase(Return(s, t), q, Failed)
      else SetPhase(s.(tokens := s.tokens + [Token(0, 0, 0)], leases := s.leases + [Lease(t, |s.tokens|, false)]),
                    q, Leased(|s.leases|))
    case Decide(q) =>
      var l := s.requests[q].phase.lease;
      if s.requests[q].mode.Build? then DecideBuild(s, q, l) else DecideSpool(s, q, l)
    case Replaced(q) => CreateSpool(s, q, s.requests[q].phase.lease)
    case Write(i, n) =>
      Consume(s.(sessions := s.sessions[i := s.sessions[i].(written := s.sessions[i].written + n)]),
              s.leases[s.sessions[i].lease].reservation, n)
    case Abort(i) => Aborted(s, i)
    case Finish(i, how) => EndSession(s, i, how)
    case Forget(i) =>
      var file := s.sessions[i].file;
      s.(build := if file in s.build && s.build[file] == i then s.build - {file} else s.build)
    case CloseSpool(i) => TearDown(s, i)
    case FenceUp(file) => s.(fence := s.fence + {file})
    case FenceDown(file) => s.(fence := s.fence - {file})
    case Shutdown => s.(shuttingDown := true, spool := map[])
  }

  // ---------- The invariant ----------

  /** The lease of a request that has not yet been handed on. */
  predicate HoldsLease(r: Request, l: LeaseId) {
    (r.phase.Leased? || r.phase.Replacing?) && r.phase.lease == l
  }

  /** Whoever has to release a lease: a request that has it in hand, or a session that runs on it. */
  datatype Holder = InHand(q: RequestId) | Spending(i: SessionId) | Spent

  /** `owners` and `holders` say for every token and every lease who answers for it. */
  datatype Book = Book(owners: seq<Owner>, holders: seq<Holder>)

  predicate TokenOk(s: State, b: Book, t: TokenId)
    requires t < |s.tokens| == |b.owners|
  {
    match b.owners[t]
    case OfRequest(q) => q < |s.requests| && s.requests[q].phase == Reserved(t) && s.tokens[t].returned == 0
    case OfLease(l) =>
      && l < |s.leases| && (s.leases[l].reservation == t || s.leases[l].slot == t)
      && s.tokens[t].returned == if s.leases[l].released then 1 else 0
    case Nobody => s.tokens[t].returned == 1
  }

  predicate LeaseOk(s: State, b: Book, l: LeaseId)
    requires l < |s.leases| == |b.holders| && |s.tokens| == |b.owners|
  {
    && LeaseFits(s, l) && s.leases[l].reservation != s.leases[l].slot
    && b.owners[s.leases[l].reservation] == OfLease(l) && b.owners[s.leases[l].slot] == OfLease(l)
    && (match b.holders[l]
        case InHand(q) => q < |s.requests| && HoldsLease(s.requests[q], l) && !s.leases[l].released
        case Spending(i) =>
          i < |s.sessions| && s.sessions[i].lease == l && s.leases[l].released == !s.sessions[i].running
        case Spent => s.leases[l].released)
  }

  predicate RequestOk(s: State, b: Book, q: RequestId)
    requires q < |s.requests| && |s.tokens| == |b.owners| && |s.leases| == |b.holders|
  {
    match s.requests[q].phase
    case Reserved(t) =>
      && t < |s.tokens| && b.owners[t] == OfRequest(q)
      && s.tokens[t].bytes == s.requests[q].size && s.tokens[t].consumed == 0
    case Leased(l) => l < |s.leases| && b.holders[l] == InHand(q) && Unspent(s, l, s.requests[q].size)
    case Replacing(l) => l < |s.leases| && b.holders[l] == InHand(q) && Unspent(s, l, s.requests[q].size)
    case Joined(i) => i < |s.sessions|
    case _ => true
  }

  predicate Unspent(s: State, l: LeaseId, size: nat) {
    && LeaseFits(s, l)
    && s.tokens[s.leases[l].reservation].bytes == size && s.tokens[s.leases[l].reservation].consumed == 0
  }

  /** What a session has written is what it has consumed of a reservation for its whole size. */
  predicate SessionOk(s: State, b: Book, i: SessionId)
    requires i < |s.sessions| && |s.leases| == |b.holders|
  {
    var x := s.sessions[i];
    && LeaseFits(s, x.lease) && b.holders[x.lease] == Spending(i)
    && s.tokens[s.leases[x.lease].reservation].bytes == x.expected
    && s.tokens[s.leases[x.lease].reservation].consumed == x.written <= x.expected
    && (x.completed ==> x.written == x.expected && !x.running)
  }

  predicate Booked(s: State, b: Book) {
    && |b.owners| == |s.tokens| && |b.holders| == |s.leases|
    && (forall t | 0 <= t < |s.tokens| :: TokenOk(s, b, t))
    && (forall l | 0 <= l < |s.leases| :: LeaseOk(s, b, l))
    && (forall q | 0 <= q < |s.requests| :: RequestOk(s, b, q))
    && (forall i | 0 <= i < |s.sessions| :: SessionOk(s, b, i))
    && (forall f | f in s.build :: s.build[f] < |s.sessions|)
    && (forall f | f in s.spool :: s.spool[f] < |s.sessions|)
  }

  lemma BookedFits(s: State, b: Book)
    requires Booked(s, b)
    ensures Fits(s)
  {
    forall q | 0 <= q < |s.requests|
      ensures match s.requests[q].phase
              case Reserved(t) => t < |s.tokens|
              case Leased(l) => LeaseFits(s, l)
              case Replacing(l) => LeaseFits(s, l)
              case Joined(i) => i < |s.sessions|
              case _ => true
    {
      assert RequestOk(s, b, q);
    }
    forall l | 0 <= l < |s.leases|
      ensures LeaseFits(s, l)
    {
      assert LeaseOk(s, b, l);
    }
    forall i | 0 <= i < |s.sessions|
      ensures LeaseFits(s, s.sessions[i].lease)
    {
      assert SessionOk(s, b, i);
    }
  }

  // ---------- Every step keeps it ----------

  /** Sessions may be marked as failed and maps may change without anything changing hands. */
  predicate SameHands(s: State, s': State) {
    && s'.tokens == s.tokens && s'.leases == s.leases && s'.requests == s.requests && |s'.sessions| == |s.sessions|
    && (forall i | 0 <= i < |s.sessions| :: s'.sessions[i] == s.sessions[i].(error := s'.sessions[i].error))
    && (forall f | f in s'.build :: s'.build[f] < |s.sessions|)
    && (forall f | f in s'.spool :: s'.spool[f] < |s.sessions|)
  }

  lemma SameHandsKeep(s: State, s': State, b: Book)
    requires Booked(s, b) && SameHands(s, s')
    ensures Booked(s', b)
  {
    forall t | 0 <= t < |s'.tokens|
      ensures TokenOk(s', b, t)
    {
      assert TokenOk(s, b, t);
    }
    forall l | 0 <= l < |s'.leases|
      ensures LeaseOk(s', b, l)
    {
      assert LeaseOk(s, b, l);
    }
    forall q | 0 <= q < |s'.requests|
      ensures RequestOk(s', b, q)
    {
      assert RequestOk(s, b, q);
    }
    forall i | 0 <= i < |s'.sessions|
      ensures SessionOk(s', b, i)
    {
      assert SessionOk(s, b, i);
    }
  }

  lemma HandBackTokens(s: State, b: Book, q: RequestId, l: LeaseId, phase: Phase)
    requires Booked(s, b) && q < |s.requests| && HoldsLease(s.requests[q], l) && LeaseFits(s, l)
    requires phase.Failed? || phase.Joined?
    ensures var s', b' := SetPhase(Release(s, l), q, phase), b.(holders := b.holders[l := Spent]);
            && !s.leases[l].released && b.holders[l] == InHand(q)
            && (forall t | 0 <= t < |s'.tokens| :: TokenOk(s', b', t))
            && (forall k | 0 <= k < |s'.leases| :: LeaseOk(s', b', k))
  {
    var s', b' := SetPhase(Release(s, l), q, phase), b.(holders := b.holders[l := Spent]);
    assert RequestOk(s, b, q) && LeaseOk(s, b, l);
    forall t | 0 <= t < |s'.tokens|
      ensures TokenOk(s', b', t)
    {
      assert TokenOk(s, b, t);
    }
    forall k | 0 <= k < |s'.leases|
      ensures LeaseOk(s', b', k)
    {
      assert LeaseOk(s, b, k);
    }
  }

  /** What leases consist of and what was consumed stays; only what was given back may change. */
  ghost predicate SameAmounts(s: State, s': State) {
    && |s'.tokens| == |s.tokens| && |s'.leases| == |s.leases|
    && (forall t | 0 <= t < |s.tokens| :: s'.tokens[t] == s.tokens[t].(returned := s'.tokens[t].returned))
    && (forall l | 0 <= l < |s.leases| :: s'.leases[l] == s.leases[l].(released := s'.leases[l].released))
  }

  lemma ReleaseSameAmounts(s: State, l: LeaseId)
    requires LeaseFits(s, l)
    ensures SameAmounts(s, Release(s, l))
    ensures Release(s, l) == s.(tokens := Release(s, l).tokens, leases := Release(s, l).leases)
  {
  }

  lemma RequestKept(s: State, b: Book, s': State, b': Book, q: RequestId)
    requires SameAmounts(s, s') && |s.tokens| == |b.owners| && |s.leases| == |b.holders| == |b'.holders|
    requires b'.owners == b.owners && q < |s.requests| && q < |s'.requests| && s'.requests[q] == s.requests[q]
    requires RequestOk(s, b, q) && |s.sessions| <= |s'.sessions|
    requires forall l | 0 <= l < |b.holders| && b.holders[l] == InHand(q) :: b'.holders[l] == InHand(q)
    ensures RequestOk(s', b', q)
  {
  }

  lemma SessionKept(s: State, b: Book, s': State, b': Book, i: SessionId)
    requires SameAmounts(s, s') && |s.leases| == |b.holders| == |b'.holders|
    requires i < |s.sessions| && i < |s'.sessions| && s'.sessions[i] == s.sessions[i]
    requires SessionOk(s, b, i)
    requires forall l | 0 <= l < |b.holders| && b.holders[l] == Spending(i) :: b'.holders[l] == Spending(i)
    ensures SessionOk(s', b', i)
  {
  }

  lemma HandBackUsers(s: State, b: Book, q: RequestId, l: LeaseId, phase: Phase)
    requires Booked(s, b) && q < |s.requests| && HoldsLease(s.requests[q], l) && LeaseFits(s, l)
    requires b.holders[l] == InHand(q)
    requires phase.Failed? || (phase.Joined? && phase.session < |s.sessions|)
    ensures var s', b' := SetPhase(Release(s, l), q, phase), b.(holders := b.holders[l := Spent]);
            && (forall r | 0 <= r < |s'.requests| :: RequestOk(s', b', r))
            && (forall i | 0 <= i < |s'.sessions| :: SessionOk(s', b', i))
  {
    hide TokenOk, LeaseOk, SessionOk, Release;
    ReleaseSameAmounts(s, l);
    var s', b' := SetPhase(Release(s, l), q, phase), b.(holders := b.holders[l := Spent]);
    forall r | 0 <= r < |s'.requests|
      ensures RequestOk(s', b', r)
    {
      if r != q {
        RequestKept(s, b, s', b', r);
      }
    }
    forall i | 0 <= i < |s'.sessions|
      ensures SessionOk(s', b', i)
    {
      SessionKept(s, b, s', b', i);
    }
  }

  /** A request gives its lease back and is done with it. */
  lemma HandBack(s: State, b: Book, q: RequestId, l: LeaseId, phase: Phase)
    requires Booked(s, b) && q < |s.requests| && HoldsLease(s.requests[q], l) && LeaseFits(s, l)
    requires phase.Failed? || (phase.Joined? && phase.session < |s.sessions|)
    ensures l < |b.holders| && Booked(SetPhase(Release(s, l), q, phase), b.(holders := b.holders[l := Spent]))
  {
    hide TokenOk, LeaseOk, RequestOk, SessionOk;
    HandBackTokens(s, b, q, l, phase);
    HandBackUsers(s, b, q, l, phase);
  }

  lemma HandOverTokens(s: State, b: Book, q: RequestId, l: LeaseId)
    requires Booked(s, b) && q < |s.requests| && HoldsLease(s.requests[q], l) && l < |b.holders|
    ensures var s', b' := NewSession(s, q, l), b.(holders := b.holders[l := Spending(|s.sessions|)]);
            && (forall t | 0 <= t < |s'.tokens| :: TokenOk(s', b', t))
            && (forall k | 0 <= k < |s'.leases| :: LeaseOk(s', b', k))
  {
    assert RequestOk(s, b, q);
    var s', b' := NewSession(s, q, l), b.(holders := b.holders[l := Spending(|s.sessions|)]);
    forall t | 0 <= t < |s'.tokens|
      ensures TokenOk(s', b', t)
    {
      assert TokenOk(s, b, t);
    }
    forall k | 0 <= k < |s'.leases|
      ensures LeaseOk(s', b', k)
    {
      assert LeaseOk(s, b, k);
    }
  }

  lemma HandOverUsers(s: State, b: Book, q: RequestId, l: LeaseId)
    requires Booked(s, b) && q < |s.requests| && HoldsLease(s.requests[q], l) && l < |b.holders|
    ensures var s', b' := NewSession(s, q, l), b.(holders := b.holders[l := Spending(|s.sessions|)]);
            && (forall r | 0 <= r < |s'.requests| :: RequestOk(s', b', r))
            && (forall i | 0 <= i < |s'.sessions| :: SessionOk(s', b', i))
  {
    assert RequestOk(s, b, q);
    hide TokenOk, LeaseOk;
    var s', b' := NewSession(s, q, l), b.(holders := b.holders[l := Spending(|s.sessions|)]);
    forall r | 0 <= r < |s'.requests|
      ensures RequestOk(s', b', r)
    {
      assert RequestOk(s, b, r);
    }
    forall i | 0 <= i < |s'.sessions|
      ensures SessionOk(s', b', i)
    {
      assert i < |s.sessions| ==> SessionOk(s, b, i);
    }
  }

  /** A request hands its lease to the session it starts. */
  lemma HandOver(s: State, b: Book, q: RequestId, l: LeaseId)
    requires Booked(s, b) && q < |s.requests| && HoldsLease(s.requests[q], l)
    ensures l < |b.holders|
    ensures Booked(NewSession(s, q, l), b.(holders := b.holders[l := Spending(|s.sessions|)]))
  {
    assert RequestOk(s, b, q);
    hide TokenOk, LeaseOk, RequestOk, SessionOk;
    HandOverTokens(s, b, q, l);
    HandOverUsers(s, b, q, l);
  }

  /** The holder of lease `l` after its request was decided. */
  function Handed(s': State, q: RequestId, l: LeaseId, sessions: nat): Holder
    requires q < |s'.requests|
  {
    match s'.requests[q].phase
    case Joined(i) => if i == sessions then Spending(i) else Spent
    case Replacing(_) => InHand(q)
    case _ => Spent
  }

  lemma CreateKeeps(s: State, b: Book, q: RequestId, l: LeaseId)
    requires Booked(s, b) && q < |s.requests| && HoldsLease(s.requests[q], l) && LeaseFits(s, l)
    ensures var s' := Create(s, q, l);
            l < |b.holders| && Booked(s', b.(holders := b.holders[l := Handed(s', q, l, |s.sessions|)]))
  {
    hide Booked;
    if s.shuttingDown || s.requests[q].file in s.fence {
      HandBack(s, b, q, l, Failed);
    } else {
      HandOver(s, b, q, l);
    }
  }

  lemma DecideBuildKeeps(s: State, b: Book, q: RequestId, l: LeaseId)
    requires Booked(s, b) && q < |s.requests| && HoldsLease(s.requests[q], l) && LeaseFits(s, l)
    ensures var s' := DecideBuild(s, q, l);
            l < |b.holders| && Booked(s', b.(holders := b.holders[l := Handed(s', q, l, |s.sessions|)]))
  {
    var r := s.requests[q];
    if r.file !in s.build {
      CreateKeeps(s, b, q, l);
    } else {
      var e := s.build[r.file];
      if !SameVersion(s.sessions[e].version, r.version) {
        var s1 := Aborted(s, e).(build := s.build - {r.file});
        SameHandsKeep(s, s1, b);
        CreateKeeps(s1, b, q, l);
      } else if s.sessions[e].expected != r.size {
        HandBack(s, b, q, l, Failed);
      } else {
        HandBack(s, b, q, l, Joined(e));
      }
    }
  }

  /** Releasing once more changes nothing. */
  lemma CaughtAgain(s: State, b: Book, q: RequestId, l: LeaseId)
    requires Booked(s, b) && q < |s.requests| && HoldsLease(s.requests[q], l) && LeaseFits(s, l)
    ensures CreateSpool(s, q, l) == Create(s, q, l)
  {
    if s.shuttingDown || s.requests[q].file in s.fence {
      var s1 := Create(s, q, l);
      assert s1.leases[l].released;
      assert Caught(s1, q, l).requests == s1.requests;
    }
  }

  lemma DecideSpoolKeeps(s: State, b: Book, q: RequestId, l: LeaseId)
    requires Booked(s, b) && q < |s.requests| && s.requests[q].phase == Leased(l) && LeaseFits(s, l)
    ensures var s' := DecideSpool(s, q, l);
            l < |b.holders| && Booked(s', b.(holders := b.holders[l := Handed(s', q, l, |s.sessions|)]))
  {
    var r := s.requests[q];
    if r.file in s.fence {
      HandBack(s, b, q, l, Failed);
    } else if r.file !in s.spool {
      CaughtAgain(s, b, q, l);
      CreateKeeps(s, b, q, l);
    } else {
      var e := s.spool[r.file];
      if s.sessions[e].expected == r.size && SameVersion(s.sessions[e].version, r.version) {
        HandBack(s, b, q, l, Joined(e));
      } else {
        SameHandsKeep(s, TearDown(s, e), b);
        StillInHand(TearDown(s, e), b, q, l);
      }
    }
  }

  lemma StillInHand(s: State, b: Book, q: RequestId, l: LeaseId)
    requires Booked(s, b) && q < |s.requests| && s.requests[q].phase == Leased(l)
    ensures l < |b.holders| && Booked(SetPhase(s, q, Replacing(l)), b.(holders := b.holders[l := InHand(q)]))
  {
    assert RequestOk(s, b, q);
    var s' := SetPhase(s, q, Replacing(l));
    assert b.holders[l := InHand(q)] == b.holders;
    forall t | 0 <= t < |s'.tokens|
      ensures TokenOk(s', b, t)
    {
      assert TokenOk(s, b, t);
    }
    forall k | 0 <= k < |s'.leases|
      ensures LeaseOk(s', b, k)
    {
      assert LeaseOk(s, b, k);
    }
    forall r | 0 <= r < |s'.requests|
      ensures RequestOk(s', b, r)
    {
      assert RequestOk(s, b, r);
    }
    forall i | 0 <= i < |s'.sessions|
      ensures SessionOk(s', b, i)
    {
      assert SessionOk(s, b, i);
    }
  }

  lemma FinishKeeps(s: State, b: Book, i: SessionId, how: End)
    requires Booked(s, b) && Fits(s) && Enabled(s, Finish(i, how))
    ensures Booked(EndSession(s, i, how), b)
  {
    hide TokenOk, LeaseOk, RequestOk, SessionOk;
    FinishTokens(s, b, i, how);
    FinishUsers(s, b, i, how);
  }

  lemma FinishTokens(s: State, b: Book, i: SessionId, how: End)
    requires Booked(s, b) && Fits(s) && Enabled(s, Finish(i, how))
    ensures var s' := EndSession(s, i, how);
            && (forall t | 0 <= t < |s'.tokens| :: TokenOk(s', b, t))
            && (forall k | 0 <= k < |s'.leases| :: LeaseOk(s', b, k))
  {
    hide RequestOk;
    var s' := EndSession(s, i, how);
    assert SessionOk(s, b, i);
    var l := s.sessions[i].lease;
    assert LeaseOk(s, b, l);
    forall t | 0 <= t < |s'.tokens|
      ensures TokenOk(s', b, t)
    {
      assert TokenOk(s, b, t);
    }
    forall k | 0 <= k < |s'.leases|
      ensures LeaseOk(s', b, k)
    {
      assert LeaseOk(s, b, k);
    }
  }

  lemma FinishUsers(s: State, b: Book, i: SessionId, how: End)
    requires Booked(s, b) && Fits(s) && Enabled(s, Finish(i, how))
    ensures var s' := EndSession(s, i, how);
            && (forall r | 0 <= r < |s'.requests| :: RequestOk(s', b, r))
            && (forall j | 0 <= j < |s'.sessions| :: SessionOk(s', b, j))
  {
    hide TokenOk, LeaseOk, RequestOk, Release;
    ReleaseSameAmounts(Stopped(s, i, how), s.sessions[i].lease);
    var s' := EndSession(s, i, how);
    forall r | 0 <= r < |s'.requests|
      ensures RequestOk(s', b, r)
    {
      RequestKept(s, b, s', b, r);
    }
    forall j | 0 <= j < |s'.sessions|
      ensures SessionOk(s', b, j)
    {
      if j != i {
        SessionKept(s, b, s', b, j);
      } else {
        assert SessionOk(s, b, i);
      }
    }
  }

  lemma WriteKeeps(s: State, b: Book, i: SessionId, n: nat)
    requires Booked(s, b) && Fits(s) && Enabled(s, Write(i, n))
    ensures Booked(Next(s, Write(i, n)), b)
  {
    var s' := Next(s, Write(i, n));
    assert SessionOk(s, b, i);
    var l := s.sessions[i].lease;
    assert LeaseOk(s, b, l);
    forall t | 0 <= t < |s'.tokens|
      ensures TokenOk(s', b, t)
    {
      assert TokenOk(s, b, t);
    }
    forall k | 0 <= k < |s'.leases|
      ensures LeaseOk(s', b, k)
    {
      assert LeaseOk(s, b, k);
    }
    forall r | 0 <= r < |s'.requests|
      ensures RequestOk(s', b, r)
    {
      assert RequestOk(s, b, r);
      RequestKeepsToken(s, b, r, l);
    }
    forall j | 0 <= j < |s'.sessions|
      ensures SessionOk(s', b, j)
    {
      assert SessionOk(s, b, j);
      assert LeaseOk(s, b, s.sessions[j].lease);
    }
  }

  /** A request in progress does not hold the lease of a session. */
  lemma RequestKeepsToken(s: State, b: Book, r: RequestId, l: LeaseId)
    requires Booked(s, b) && r < |s.requests| && l < |s.leases| && b.holders[l].Spending?
    ensures s.requests[r].phase.Reserved? ==> s.requests[r].phase.reservation != s.leases[l].reservation
    ensures s.requests[r].phase.Leased? || s.requests[r].phase.Replacing? ==>
              s.requests[r].phase.lease < |s.leases|
              && s.leases[s.requests[r].phase.lease].reservation != s.leases[l].reservation
  {
    assert RequestOk(s, b, r) && LeaseOk(s, b, l);
    if s.requests[r].phase.Leased? || s.requests[r].phase.Replacing? {
      assert LeaseOk(s, b, s.requests[r].phase.lease);
    }
  }

  lemma ReservedKeeps(s: State, b: Book, q: RequestId)
    requires Booked(s, b) && Fits(s) && Enabled(s, ReserveSettled(q, true))
    ensures Booked(Next(s, ReserveSettled(q, true)), b.(owners := b.owners + [OfRequest(q)]))
  {
    var s', b' := Next(s, ReserveSettled(q, true)), b.(owners := b.owners + [OfRequest(q)]);
    forall t | 0 <= t < |s'.tokens|
      ensures TokenOk(s', b', t)
    {
      assert t < |s.tokens| ==> TokenOk(s, b, t);
    }
    forall k | 0 <= k < |s'.leases|
      ensures LeaseOk(s', b', k)
    {
      assert LeaseOk(s, b, k);
    }
    forall r | 0 <= r < |s'.requests|
      ensures RequestOk(s', b', r)
    {
      assert RequestOk(s, b, r);
    }
    forall j | 0 <= j < |s'.sessions|
      ensures SessionOk(s', b', j)
    {
      assert SessionOk(s, b, j);
    }
  }

  /** Nothing stays held when the slot cannot be had. */
  lemma SlotDeniedKeeps(s: State, b: Book, q: RequestId)
    requires Booked(s, b) && Fits(s) && Enabled(s, SlotSettled(q, false))
    ensures s.requests[q].phase.reservation < |b.owners|
    ensures Booked(Next(s, SlotSettled(q, false)),
                   b.(owners := b.owners[s.requests[q].phase.reservation := Nobody]))
  {
    assert RequestOk(s, b, q);
    var s' := Next(s, SlotSettled(q, false));
    var b' := b.(owners := b.owners[s.requests[q].phase.reservation := Nobody]);
    forall t | 0 <= t < |s'.tokens|
      ensures TokenOk(s', b', t)
    {
      assert TokenOk(s, b, t);
    }
    forall k | 0 <= k < |s'.leases|
      ensures LeaseOk(s', b', k)
    {
      assert LeaseOk(s, b, k);
    }
    forall r | 0 <= r < |s'.requests|
      ensures RequestOk(s', b', r)
    {
      assert RequestOk(s, b, r);
    }
    forall j | 0 <= j < |s'.sessions|
      ensures SessionOk(s', b', j)
    {
      assert SessionOk(s, b, j);
    }
  }

  function LeasedBook(s: State, b: Book, t: TokenId, q: RequestId): Book
    requires t < |b.owners|
  {
    var l := OfLease(|s.leases|);
    Book(b.owners[t := l] + [l], b.holders + [InHand(q)])
  }

  lemma SlotGrantedKeeps(s: State, b: Book, q: RequestId)
    requires Booked(s, b) && Fits(s) && Enabled(s, SlotSettled(q, true))
    ensures s.requests[q].phase.reservation < |b.owners|
    ensures Booked(Next(s, SlotSettled(q, true)), LeasedBook(s, b, s.requests[q].phase.reservation, q))
  {
    assert RequestOk(s, b, q);
    hide TokenOk, LeaseOk, RequestOk, SessionOk;
    SlotGrantedTokens(s, b, q);
    SlotGrantedUsers(s, b, q);
  }

  lemma SlotGrantedTokens(s: State, b: Book, q: RequestId)
    requires Booked(s, b) && Fits(s) && Enabled(s, SlotSettled(q, true))
    requires s.requests[q].phase.reservation < |b.owners|
    ensures var s', b' := Next(s, SlotSettled(q, true)), LeasedBook(s, b, s.requests[q].phase.reservation, q);
            && |b'.owners| == |s'.tokens| && |b'.holders| == |s'.leases|
            && (forall t | 0 <= t < |s'.tokens| :: TokenOk(s', b', t))
            && (forall k | 0 <= k < |s'.leases| :: LeaseOk(s', b', k))
  {
    assert RequestOk(s, b, q);
    hide RequestOk, SessionOk;
    var t0 := s.requests[q].phase.reservation;
    var s', b' := Next(s, SlotSettled(q, true)), LeasedBook(s, b, t0, q);
    forall t | 0 <= t < |s'.tokens|
      ensures TokenOk(s', b', t)
    {
      assert t < |s.tokens| ==> TokenOk(s, b, t);
      assert TokenOk(s, b, t0);
    }
    forall k | 0 <= k < |s'.leases|
      ensures LeaseOk(s', b', k)
    {
      assert k < |s.leases| ==> LeaseOk(s, b, k);
    }
  }

  lemma SlotGrantedUsers(s: State, b: Book, q: RequestId)
    requires Booked(s, b) && Fits(s) && Enabled(s, SlotSettled(q, true))
    requires s.requests[q].phase.reservation < |b.owners|
    ensures var s', b' := Next(s, SlotSettled(q, true)), LeasedBook(s, b, s.requests[q].phase.reservation, q);
            && |b'.owners| == |s'.tokens| && |b'.holders| == |s'.leases|
            && (forall r | 0 <= r < |s'.requests| :: RequestOk(s', b', r))
            && (forall j | 0 <= j < |s'.sessions| :: SessionOk(s', b', j))
  {
    assert RequestOk(s, b, q);
    hide TokenOk;
    var s', b' := Next(s, SlotSettled(q, true)), LeasedBook(s, b, s.requests[q].phase.reservation, q);
    forall r | 0 <= r < |s'.requests|
      ensures RequestOk(s', b', r)
    {
      assert RequestOk(s, b, r);
    }
    forall j | 0 <= j < |s'.sessions|
      ensures SessionOk(s', b', j)
    {
      assert SessionOk(s, b, j);
      assert LeaseOk(s, b, s.sessions[j].lease);
    }
  }

  /** A request that holds nothing arrives or gives up. */
  lemma NothingHeldKeeps(s: State, s': State, b: Book)
    requires Booked(s, b) && s' == s.(requests := s'.requests) && |s.requests| <= |s'.requests|
    requires forall q | 0 <= q < |s'.requests| ::
               (q < |s.requests| && s'.requests[q] == s.requests[q])
               || (s'.requests[q].phase.Failed? && (q < |s.requests| ==> s.requests[q].phase.Reserving?))
               || (s'.requests[q].phase.Reserving? && q >= |s.requests|)
    ensures Booked(s', b)
  {
    forall t | 0 <= t < |s'.tokens|
      ensures TokenOk(s', b, t)
    {
      assert TokenOk(s, b, t);
    }
    forall k | 0 <= k < |s'.leases|
      ensures LeaseOk(s', b, k)
    {
      assert LeaseOk(s, b, k);
    }
    forall r | 0 <= r < |s'.requests|
      ensures RequestOk(s', b, r)
    {
      assert r < |s.requests| ==> RequestOk(s, b, r);
    }
    forall j | 0 <= j < |s'.sessions|
      ensures SessionOk(s', b, j)
    {
      assert SessionOk(s, b, j);
    }
  }

  ghost predicate Accounted(s: State) {
    exists b :: Booked(s, b)
  }

  lemma DecideKeeps(s: State, b: Book, e: Event)
    requires Booked(s, b) && Fits(s) && Enabled(s, e) && (e.Decide? || e.Replaced?)
    ensures Accounted(Next(s, e))
  {
    MapsFit(s, b);
    hide Booked, DecideBuild, DecideSpool, CreateSpool, Create;
    var l := s.requests[e.q].phase.lease;
    if e.Replaced? {
      CaughtAgain(s, b, e.q, l);
      CreateKeeps(s, b, e.q, l);
    } else if s.requests[e.q].mode.Build? {
      DecideBuildKeeps(s, b, e.q, l);
    } else {
      DecideSpoolKeeps(s, b, e.q, l);
    }
  }

  /** Aborts, teardowns, the fence and the shutdown move nothing from hand to hand. */
  lemma QuietKeeps(s: State, b: Book, e: Event)
    requires Booked(s, b) && Fits(s) && Enabled(s, e)
    requires e.Abort? || e.Forget? || e.CloseSpool? || e.FenceUp? || e.FenceDown? || e.Shutdown?
    ensures Accounted(Next(s, e))
  {
    MapsFit(s, b);
    hide Booked, LeaseFits;
    SameHandsKeep(s, Next(s, e), b);
  }

  lemma MapsFit(s: State, b: Book)
    requires Booked(s, b)
    ensures forall f | f in s.build :: s.build[f] < |s.sessions|
    ensures forall f | f in s.spool :: s.spool[f] < |s.sessions|
  {
  }

  lemma NextKeeps(s: State, b: Book, e: Event)
    requires Booked(s, b) && Fits(s) && Enabled(s, e)
    ensures Accounted(Next(s, e))
  {
    MapsFit(s, b);
    hide Booked, DecideBuild, DecideSpool, CreateSpool, Create, EndSession, Consume, LeaseFits, RequestOk;
    match e
    case Ask(_, _, _, _) => NothingHeldKeeps(s, Next(s, e), b);
    case ReserveSettled(q, ok) =>
      if ok {
        ReservedKeeps(s, b, q);
      } else {
        NothingHeldKeeps(s, Next(s, e), b);
      }
    case SlotSettled(q, ok) =>
      if ok {
        SlotGrantedKeeps(s, b, q);
      } else {
        SlotDeniedKeeps(s, b, q);
      }
    case Decide(_) => DecideKeeps(s, b, e);
    case Replaced(_) => DecideKeeps(s, b, e);
    case Write(i, n) => WriteKeeps(s, b, i, n);
    case Finish(i, how) => FinishKeeps(s, b, i, how);
    case _ => QuietKeeps(s, b, e);
  }

  // ---------- Runs ----------

  ghost predicate EnabledRun(s: State, events: seq<Event>)
    decreases |events|
  {
    events == [] || (Fits(s) && Enabled(s, events[0]) && EnabledRun(Next(s, events[0]), events[1..]))
  }

  ghost function Run(s: State, events: seq<Event>): State
    requires EnabledRun(s, events)
    decreases |events|
  {
    if events == [] then s else Run(Next(s, events[0]), events[1..])
  }

  lemma {:induction false} RunKeeps(s: State, events: seq<Event>)
    requires Accounted(s) && EnabledRun(s, events)
    ensures Accounted(Run(s, events)) && Fits(Run(s, events))
    decreases |events|
  {
    hide Booked, Fits, Next;
    var b :| Booked(s, b);
    if events == [] {
      BookedFits(s, b);
    } else {
      NextKeeps(s, b, events[0]);
      RunKeeps(Next(s, events[0]), events[1..]);
    }
  }

  lemma Reached(events: seq<Event>)
    requires EnabledRun(START, events)
    ensures Accounted(Run(START, events))
  {
    assert Booked(START, Book([], []));
    RunKeeps(START, events);
  }

  /** Somebody still has to give the token back. */
  ghost predicate Held(s: State, t: TokenId) {
    || (exists q :: HeldByRequest(s, t, q))
    || (exists i :: HeldBySession(s, t, i))
  }

  predicate OfThisLease(s: State, t: TokenId, l: LeaseId) {
    LeaseFits(s, l) && (s.leases[l].reservation == t || s.leases[l].slot == t)
  }

  predicate HeldByRequest(s: State, t: TokenId, q: RequestId) {
    q < |s.requests| &&
    match s.requests[q].phase
    case Reserved(r) => r == t
    case Leased(l) => OfThisLease(s, t, l)
    case Replacing(l) => OfThisLease(s, t, l)
    case _ => false
  }

  predicate HeldBySession(s: State, t: TokenId, i: SessionId) {
    i < |s.sessions| && s.sessions[i].running && OfThisLease(s, t, s.sessions[i].lease)
  }

  /**
   In every state a run reaches, every reservation and slot has been given back at most once, and it is still out
   exactly when a request that has not been decided or a session that still runs holds it.
   */
  lemma ReturnedExactlyOnce(events: seq<Event>, t: TokenId)
    requires EnabledRun(START, events) && t < |Run(START, events).tokens|
    ensures Run(START, events).tokens[t].returned <= 1
    ensures Run(START, events).tokens[t].returned == 0 <==> Held(Run(START, events), t)
  {
    Reached(events);
    var b :| Booked(Run(START, events), b);
    Balance(Run(START, events), b, t);
  }

  lemma Balance(s: State, b: Book, t: TokenId)
    requires Booked(s, b) && t < |s.tokens|
    ensures s.tokens[t].returned <= 1 && (s.tokens[t].returned == 0 <==> Held(s, t))
  {
    assert TokenOk(s, b, t);
    if s.tokens[t].returned == 0 {
      OutIsHeld(s, b, t);
    } else {
      forall q: RequestId | HeldByRequest(s, t, q)
        ensures false
      {
        HolderHasIt(s, b, t, q, 0);
      }
      forall i: SessionId | HeldBySession(s, t, i)
        ensures false
      {
        HolderHasIt(s, b, t, 0, i);
      }
    }
  }

  /** What a request or a session holds has not been given back. */
  lemma HolderHasIt(s: State, b: Book, t: TokenId, q: RequestId, i: SessionId)
    requires Booked(s, b) && t < |s.tokens| && (HeldByRequest(s, t, q) || HeldBySession(s, t, i))
    ensures s.tokens[t].returned == 0
  {
    assert TokenOk(s, b, t);
    if HeldByRequest(s, t, q) {
      assert RequestOk(s, b, q);
      if !s.requests[q].phase.Reserved? {
        assert LeaseOk(s, b, s.requests[q].phase.lease);
      }
    } else {
      assert SessionOk(s, b, i) && LeaseOk(s, b, s.sessions[i].lease);
    }
  }

  lemma OutIsHeld(s: State, b: Book, t: TokenId)
    requires Booked(s, b) && t < |s.tokens| && s.tokens[t].returned == 0
    ensures Held(s, t)
  {
    assert TokenOk(s, b, t);
    match b.owners[t]
    case OfRequest(q) => assert HeldByRequest(s, t, q);
    case OfLease(l) =>
      assert LeaseOk(s, b, l);
      match b.holders[l] {
        case InHand(q) => assert HeldByRequest(s, t, q);
        case Spending(i) => assert HeldBySession(s, t, i);
        case Spent => assert false;
      }
    case Nobody => assert false;
  }

  /** When no request is in progress and no session runs, everything that was ever borrowed has been given back once. */
  lemma NothingLeaks(events: seq<Event>, t: TokenId)
    requires EnabledRun(START, events) && t < |Run(START, events).tokens|
    requires forall q | 0 <= q < |Run(START, events).requests| ::
               Run(START, events).requests[q].phase.Joined? || Run(START, events).requests[q].phase.Failed?
    requires forall i | 0 <= i < |Run(START, events).sessions| :: !Run(START, events).sessions[i].running
    ensures Run(START, events).tokens[t].returned == 1
  {
    ReturnedExactlyOnce(events, t);
  }

  /** What a session has consumed of its reservation is what it has written, and never more than the file's size. */
  lemma ConsumedIsWritten(events: seq<Event>, i: SessionId)
    requires EnabledRun(START, events) && i < |Run(START, events).sessions|
    ensures var s := Run(START, events);
            && LeaseFits(s, s.sessions[i].lease)
            && var t := s.leases[s.sessions[i].lease].reservation;
               && s.tokens[t].consumed == s.sessions[i].written <= s.sessions[i].expected == s.tokens[t].bytes
               && (s.sessions[i].completed ==> s.tokens[t].consumed == s.tokens[t].bytes)
  {
    Reached(events);
    var b :| Booked(Run(START, events), b);
    assert SessionOk(Run(START, events), b, i);
  }
}
