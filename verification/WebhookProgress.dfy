/** How far the scheduler gets: the connections it opens, what one pass does, and that everything can be delivered. */
module WebhookProgress {
  import opened Common
  import opened WebhookSpec
  import opened WebhookSafety
  import opened WebhookDelivery
  import opened WebhookLoss
  import opened WebhookAnswers
  import opened WebhookLoading

  // ---------- Connections ----------

  /** Every attempt opens a connection. */
  predicate AllConnect(attempts: seq<Attempt>) {
    forall i | 0 <= i < |attempts| :: attempts[i] == Connected
  }

  /**
   When attempts succeed, there are as many connections as loaded queues, within the limit; one until the webhook has
   been verified, at most one while no update has been accepted for ten seconds and else at least one. Connections that
   are there already stay, and sockets that are not needed are closed.
   */
  lemma ConnectsAsNeeded(a: Actor, now: Time, attempts: seq<Attempt>)
    requires Limits(a) && AllConnect(attempts) && |attempts| >= a.maxConnections
    ensures var a' := CreateConnections(a, now, true, attempts, Always);
            var queues := if |a.queueUpdates| < a.maxConnections then |a.queueUpdates| else a.maxConnections;
            var wanted := if a.wasChecked then queues else 1;
            var need := if a.lastSuccess + 10_000_000_000 < now then (if wanted > 1 then 1 else wanted)
                        else if wanted == 0 then 1 else wanted;
            var had := |a.connections| + |a.pendingSockets|;
            && |a'.connections| + |a'.pendingSockets| == (if had < need then need else had)
            && a'.pendingSockets == a.pendingSockets && a'.readySockets == 0 && Opens(a, a')
  {
    hide OpenNew, UseReady, Limits, Numbered, Opens;
    var need := NeedConnections(a, now);
    NeedWithin(a, now);
    OpensNeeded(a, need, attempts);
    var a1 := OpenNew(a, need, attempts).0;
    UsesNeeded(a1, need, 0);
    OpensOn(a, a1, UseReady(a1, need, Always, 0));
    OpensClosed(a, UseReady(a1, need, Always, 0));
  }

  /** Connections that were there stay as they are; new ones are idle, ready, and belong to the present address. */
  ghost predicate Opens(a: Actor, a': Actor) {
    && a'.ipGeneration == a.ipGeneration && a.ready <= a'.ready
    && (forall c | c in a.connections :: c in a'.connections && a'.connections[c] == a.connections[c])
    && (forall c | c in a'.connections && c !in a.connections ::
          a'.connections[c] == Connection(None, a.ipGeneration) && c in a'.ready)
  }

  lemma OpensOn(a: Actor, a1: Actor, a2: Actor)
    requires Opens(a, a1) && Opens(a1, a2)
    ensures Opens(a, a2)
  {
    forall c | c in a2.connections && c !in a.connections
      ensures a2.connections[c] == Connection(None, a.ipGeneration) && c in a2.ready
    {
      assert c in a1.connections ==> c in a1.ready;
    }
  }

  lemma OpensClosed(a: Actor, a': Actor)
    requires Opens(a, a')
    ensures Opens(a, a'.(readySockets := 0))
  {
  }

  lemma NeedWithin(a: Actor, now: Time)
    requires Limits(a)
    ensures NeedConnections(a, now) <= a.maxConnections && Numbered(a)
  {
  }

  /** The numbers of connections are fresh. */
  predicate Numbered(a: Actor) {
    forall c | c in a.connections :: c < a.nextConnection
  }

  lemma ConnectsOne(a: Actor)
    requires Numbered(a)
    ensures Numbered(Connect(a)) && |Connect(a).connections| == |a.connections| + 1 && Opens(a, Connect(a))
    ensures Opens(a, a)
  {
    assert Connect(a).connections.Keys == a.connections.Keys + {a.nextConnection};
    hide Opens;
    OpensOne(a);
  }

  lemma OpensOne(a: Actor)
    requires Numbered(a)
    ensures Opens(a, Connect(a)) && Opens(a, a)
  {
    assert Connect(a).ready[|a.ready|] == a.nextConnection;
  }

  lemma {:induction false} OpensNeeded(a: Actor, need: nat, attempts: seq<Attempt>)
    requires Numbered(a) && AllConnect(attempts) && Total(a) + |attempts| >= need
    ensures var (a', goesOn) := OpenNew(a, need, attempts);
            && goesOn && Numbered(a') && a'.pendingSockets == a.pendingSockets && a'.readySockets == a.readySockets
            && Total(a') == (if Total(a) < need then need else Total(a)) && Opens(a, a')
    decreases |attempts|
  {
    hide Numbered, Opens;
    ConnectsOne(a);
    if Total(a) < need {
      OpensNeeded(Connect(a), need, attempts[1..]);
      OpensOn(a, Connect(a), OpenNew(a, need, attempts).0);
    }
  }

  lemma {:induction false} UsesNeeded(a: Actor, need: nat, k: nat)
    requires Numbered(a) && Total(a) >= need
    ensures var a', had := UseReady(a, need, Always, k), |a.connections| + |a.pendingSockets|;
            && a'.pendingSockets == a.pendingSockets
            && |a'.connections| + |a'.pendingSockets| == (if had < need then need else had) && Opens(a, a')
    decreases a.readySockets
  {
    hide Opens, Numbered;
    ConnectsOne(a);
    if a.readySockets > 0 && |a.connections| + |a.pendingSockets| < need {
      var a1 := a.(readySockets := a.readySockets - 1);
      OneLessReady(a, a1);
      ConnectsOne(a1);
      UsesNeeded(Connect(a1), need, k + 1);
      OpensOn(a1, Connect(a1), UseReady(a, need, Always, k));
      OpensOn(a, a1, UseReady(a, need, Always, k));
    }
  }

  lemma OneLessReady(a: Actor, a1: Actor)
    requires Numbered(a) && a.readySockets > 0 && a1 == a.(readySockets := a.readySockets - 1)
    ensures Numbered(a1) && Opens(a, a1)
  {
  }

  /**
   The attempts are made one by one while there are too few: flood control opens nothing, a failure opens nothing, and a
   proxy socket is pending until it reports, with which the webhook counts as verified.
   */
  lemma AttemptOutcomes(a: Actor, now: Time, attempts: seq<Attempt>, succeeds: nat -> bool)
    requires Total(a) == 0 && a.lastSuccess + 10_000_000_000 >= now && attempts != [] && attempts[0] != Connected
    ensures var a' := CreateConnections(a, now, true, attempts, succeeds);
            match attempts[0]
            case FloodLimit => a' == a
            case Failed => a' == a.(stopFlag := a.stopFlag || !a.wasChecked)
            case ProxyPending =>
              a' == a.(pendingSockets := {a.nextSocket}, nextSocket := a.nextSocket + 1, wasChecked := true)
  {
    assert a.connections == map[] && a.pendingSockets == {} && a.readySockets == 0;
  }

  /**
   A new actor counts as verified only if it was restored from the database, has read nothing, and opens at most one
   connection at a time before an update has been accepted.
   */
  lemma StartsCarefully(maxConnections: nat, fromDb: bool, now: Time, tq: TQueue, attempts: seq<Attempt>, later: Time)
    requires 0 < maxConnections && now <= later && AllConnect(attempts) && |attempts| >= maxConnections
    ensures var a := Start(maxConnections, fromDb, now, tq).a;
            && a.wasChecked == fromDb && !a.tqueueEmpty && a.tqueueOffset == None
            && var a' := CreateConnections(a, later, true, attempts, Always);
               |a'.connections| == if fromDb then 0 else 1
  {
    var a := Start(maxConnections, fromDb, now, tq).a;
    assert Limits(a);
    ConnectsAsNeeded(a, later, attempts);
  }

  /** A webhook that was verified once is never given up because a connection cannot be opened. */
  lemma {:induction false} VerifiedIsKept(w: World, inputs: seq<Input>)
    requires Inv(w) && AdmissibleRun(w, inputs) && w.a.wasChecked
    ensures Run(w, inputs).Next?
    ensures Run(w, inputs).w.a.wasChecked && Run(w, inputs).w.a.stopFlag == w.a.stopFlag
    decreases |inputs|
  {
    hide Inv, Step, Admissible;
    if inputs != [] {
      StepKeeps(w, inputs[0]);
      StepKeepsVerified(w, inputs[0]);
      VerifiedIsKept(Step(w, inputs[0]).w, inputs[1..]);
    }
  }

  predicate StaysVerified(a: Actor, a': Actor) {
    a.wasChecked ==> a'.wasChecked && a'.stopFlag == a.stopFlag
  }

  lemma {:induction false} OpeningStaysVerified(a: Actor, need: nat, attempts: seq<Attempt>)
    ensures StaysVerified(a, OpenNew(a, need, attempts).0)
    decreases |attempts|
  {
    if attempts != [] {
      hide Total;
      OpeningStaysVerified(Connect(a), need, attempts[1..]);
    }
  }

  lemma {:induction false} UsingStaysVerified(a: Actor, need: nat, succeeds: nat -> bool, k: nat)
    ensures StaysVerified(a, UseReady(a, need, succeeds, k))
    decreases a.readySockets
  {
    if a.readySockets > 0 {
      UsingStaysVerified(Connect(a.(readySockets := a.readySockets - 1)), need, succeeds, k + 1);
    }
  }

  lemma StepKeepsVerified(w: World, input: Input)
    requires Step(w, input).Next?
    ensures StaysVerified(w.a, Step(w, input).w.a)
  {
    match input
    case OnHandle(_, _, _, _, _) => HandleStaysVerified(w, input);
    case NewConnections(now, _, attempts, succeeds) =>
      var need := NeedConnections(w.a, now);
      OpeningStaysVerified(w.a, need, attempts);
      hide OpenNew;
      UsingStaysVerified(OpenNew(w.a, need, attempts).0, need, succeeds, 0);
    case LoadUpdates(_, _, _, _) => LoadStaysVerified(w, input);
    case _ =>
  }

  lemma HandleStaysVerified(w: World, input: Input)
    requires input.OnHandle? && Step(w, input).Next?
    ensures StaysVerified(w.a, Step(w, input).w.a)
  {
    hide Settle, ClosesConnection, GivesUp;
    forall w': World, e {
      SettleStaysVerified(w', e, input.response, input.now, input.unixNow, input.backoff);
    }
  }

  lemma SettleStaysVerified(w: World, e: EventId, answer: Option<Response>, now: Time, unixNow: int, backoff: int)
    ensures var r := Settle(w, e, answer, now, unixNow, backoff); r.Next? ==> StaysVerified(w.a, r.w.a)
  {
    hide DropEvent, Delays, IsError, RetryAfter;
    forall w': World, why {
      DropForgets(w', e, why);
    }
  }

  lemma LoadStaysVerified(w: World, input: Input)
    requires input.LoadUpdates? && Step(w, input).Next?
    ensures StaysVerified(w.a, Step(w, input).w.a)
  {
    hide LoadAll, Positioned, Batch;
    PositionedAt(w, input.getFails, input.head);
    forall w': World, batch {
      LoadingStaysVerified(w', batch, input.now);
    }
  }

  lemma {:induction false} LoadingStaysVerified(w: World, batch: seq<Event>, now: Time)
    ensures StaysVerified(w.a, LoadAll(w, batch, now).a)
    decreases |batch|
  {
    if batch != [] {
      LoadingStaysVerified(LoadOne(w, batch[0], now), batch[1..], now);
    }
  }

  /** The first failure before that gives it up, whether a connection or a proxy socket fails. */
  lemma FirstFailureStops(a: Actor, now: Time, attempts: seq<Attempt>, succeeds: nat -> bool, id: SocketId)
    requires !a.wasChecked && attempts != [] && attempts[0] == Failed
    ensures Total(a) == 0 ==> CreateConnections(a, now, true, attempts, succeeds).stopFlag
    ensures SocketReady(a, id, false).stopFlag
  {
  }

  /** A proxy socket that reports is no longer pending, and is ready if and only if it was opened. */
  lemma SocketReports(a: Actor, id: SocketId, ok: bool)
    ensures var a' := SocketReady(a, id, ok);
            && a'.pendingSockets == a.pendingSockets - {id}
            && a'.readySockets == a.readySockets + (if ok then 1 else 0) && a'.connections == a.connections
  {
  }

  // ---------- One pass ----------

  lemma LoadingKeepsLost(w: World, w1: World, w2: World, env: Surroundings, q: QueueId)
    requires Inv(w) && HeadOk(w.tq, env.head) && Fresh(w, env.unixNow, env.getFails, env.head) && IsLost(w, q)
    requires w1 == w || Load(w, env.now, env.unixNow, env.getFails, env.head) == Next(w1)
    requires w2.h == w1.h
    ensures IsLost(w2, q)
  {
    hide Inv, Load;
    if w1 != w {
      StepStillLost(w, Input.LoadUpdates(env.now, env.unixNow, env.getFails, env.head), q);
    }
  }

  /**
   A pass of loop that is not stopped leaves no due queue beside an idle connection, unless a queue got lost in it.
   */
  lemma PassServes(w: World, env: Surroundings)
    requires Inv(w) && HeadOk(w.tq, env.head) && Fresh(w, env.unixNow, env.getFails, env.head)
    ensures var r := Loop(w, env);
            && r.Next? && Inv(r.w)
            && (!r.w.a.stopFlag ==>
                  || (exists n: nat :: NothingDue(r.w, env.clock(n)))
                  || (env.badHeaders != {} && exists q :: IsLost(r.w, q) && !IsLost(w, q)))
  {
    hide Inv, Load, CreateConnections, SendUpdates, NothingDue, IsLost, HeadOk, Fresh;
    if !w.a.stopFlag {
      LoadKeeps(w, env.now, env.unixNow, env.getFails, env.head);
    }
    var w1 := if w.a.stopFlag then w else Load(w, env.now, env.unixNow, env.getFails, env.head).w;
    if !w1.a.stopFlag {
      CreateConnectionsKeeps(w1, env.now, env.usable, env.attempts, env.succeeds);
      var w2 := w1.(a := CreateConnections(w1.a, env.now, env.usable, env.attempts, env.succeeds));
      if !w2.a.stopFlag {
        NoDueQueueWaits(w2, env.clock, 0, env.badHeaders);
        forall q | IsLost(w, q)
          ensures IsLost(w2, q)
        {
          LoadingKeepsLost(w, w1, w2, env, q);
        }
      }
    }
  }

  /** `n` attempts to send, each with its own reading of the clock. */
  function Tries(clock: nat -> Time, k: nat, n: nat, badHeaders: set<EventId>): (inputs: seq<Input>)
    ensures |inputs| == n && forall i | 0 <= i < n :: inputs[i] == TrySend(clock(k + i), badHeaders)
    decreases n
  {
    if n == 0 then [] else [TrySend(clock(k), badHeaders)] + Tries(clock, k + 1, n - 1, badHeaders)
  }

  /** send_updates makes one attempt more than it sends requests. */
  lemma {:induction false} SendingIsARun(w: World, clock: nat -> Time, k: nat, badHeaders: set<EventId>)
    returns (n: nat)
    requires Inv(w)
    ensures var r := SendUpdates(w, clock, k, badHeaders);
            && r.Next? && |r.w.h.trace| == |w.h.trace| + n
            && AdmissibleRun(w, Tries(clock, k, n + 1, badHeaders)) && Run(w, Tries(clock, k, n + 1, badHeaders)) == r
    decreases |w.a.ready|
  {
    hide Inv, SendUpdate;
    SendUpdateKeeps(w, clock(k), badHeaders);
    var r := SendUpdate(w, clock(k), badHeaders);
    OneStep(w, TrySend(clock(k), badHeaders));
    if Sends(w, clock(k), badHeaders) {
      AttemptThatSends(w, clock(k), badHeaders);
      var m := SendingIsARun(r.w, clock, k + 1, badHeaders);
      n := m + 1;
      RunOn(w, [TrySend(clock(k), badHeaders)], Tries(clock, k + 1, n, badHeaders));
    } else {
      AttemptThatDoesNot(w, clock(k), badHeaders);
      n := 0;
      assert Tries(clock, k, 1, badHeaders) == [TrySend(clock(k), badHeaders)];
    }
  }

  function LoadOf(env: Surroundings): Input {
    Input.LoadUpdates(env.now, env.unixNow, env.getFails, env.head)
  }

  function ConnectOf(env: Surroundings): Input {
    NewConnections(env.now, env.usable, env.attempts, env.succeeds)
  }

  /**
   A pass of an actor that is not stopped is a run of its callbacks: it loads, it connects, and unless that stopped it,
   it tries to send once more than it sends requests.
   */
  lemma PassIsARun(w: World, env: Surroundings) returns (w2: World, n: nat)
    requires Inv(w) && HeadOk(w.tq, env.head) && Fresh(w, env.unixNow, env.getFails, env.head) && !w.a.stopFlag
    ensures AdmissibleRun(w, [LoadOf(env), ConnectOf(env)]) && Run(w, [LoadOf(env), ConnectOf(env)]) == Next(w2)
    ensures var tries := if w2.a.stopFlag then [] else Tries(env.clock, 0, n + 1, env.badHeaders);
            && AdmissibleRun(w, [LoadOf(env), ConnectOf(env)] + tries)
            && Run(w, [LoadOf(env), ConnectOf(env)] + tries) == Loop(w, env)
  {
    hide Inv, Load, CreateConnections, SendUpdates, HeadOk, Fresh, Step;
    LoadStep(w, env);
    var w1 := Step(w, LoadOf(env)).w;
    OneStep(w, LoadOf(env));
    ConnectStep(w1, env);
    OneStep(w1, ConnectOf(env));
    RunOn(w, [LoadOf(env)], [ConnectOf(env)]);
    assert [LoadOf(env)] + [ConnectOf(env)] == [LoadOf(env), ConnectOf(env)];
    w2 := Step(w1, ConnectOf(env)).w;
    n := SendingIsARun(w2, env.clock, 0, env.badHeaders);
    RunOn(w, [LoadOf(env), ConnectOf(env)], Tries(env.clock, 0, n + 1, env.badHeaders));
    assert [LoadOf(env), ConnectOf(env)] + [] == [LoadOf(env), ConnectOf(env)];
    LoadNeverStops(w, env);
  }

  lemma LoadStep(w: World, env: Surroundings)
    requires Inv(w) && HeadOk(w.tq, env.head) && Fresh(w, env.unixNow, env.getFails, env.head)
    ensures Admissible(w, LoadOf(env)) && Step(w, LoadOf(env)).Next? && Inv(Step(w, LoadOf(env)).w)
    ensures Step(w, LoadOf(env)) == Load(w, env.now, env.unixNow, env.getFails, env.head)
  {
    hide Inv, Load;
    StepKeeps(w, LoadOf(env));
  }

  lemma ConnectStep(w: World, env: Surroundings)
    requires Inv(w)
    ensures Admissible(w, ConnectOf(env)) && Step(w, ConnectOf(env)).Next? && Inv(Step(w, ConnectOf(env)).w)
    ensures Step(w, ConnectOf(env)).w
            == w.(a := CreateConnections(w.a, env.now, env.usable, env.attempts, env.succeeds))
  {
    hide Inv, CreateConnections;
    StepKeeps(w, ConnectOf(env));
  }

  lemma LoadNeverStops(w: World, env: Surroundings)
    requires Load(w, env.now, env.unixNow, env.getFails, env.head).Next?
    ensures Load(w, env.now, env.unixNow, env.getFails, env.head).w.a.stopFlag == w.a.stopFlag
  {
    hide LoadAll, Positioned, Batch;
    PositionedAt(w, env.getFails, env.head);
    forall w': World, batch {
      LoadingNeverStops(w', batch, env.now);
    }
  }

  lemma {:induction false} LoadingNeverStops(w: World, batch: seq<Event>, now: Time)
    ensures LoadAll(w, batch, now).a.stopFlag == w.a.stopFlag
    decreases |batch|
  {
    if batch != [] {
      LoadingNeverStops(LoadOne(w, batch[0], now), batch[1..], now);
    }
  }

  // ---------- Everything can be delivered ----------

  /** No queue is lost, and connection `c` was opened for the address the webhook has now. */
  ghost predicate Working(w: World, c: ConnectionId) {
    && Inv(w) && NothingLost(w)
    && c in w.a.connections && w.a.connections[c].ipGeneration == w.a.ipGeneration
  }

  /** Only loads, requests and successes were added to the history. */
  predicate AllGood(t: seq<Label>, t': seq<Label>) {
    t <= t' && forall i | |t| <= i < |t'| :: t'[i].Loaded? || t'[i].Sent? || t'[i].Answered?
  }

  /** TQueue has no new events, and those it no longer has were forgotten. */
  ghost predicate Advances(w: World, w': World, c: ConnectionId) {
    && Working(w', c) && AllGood(w.h.trace, w'.h.trace) && w'.tq.tail == w.tq.tail
    && (forall x | x in w'.tq.events :: x in w.tq.events)
    && (forall x | x in w.tq.events && x !in w'.tq.events :: x.id in ForgottenIds(w'.h.trace))
  }

  lemma AdvancesOn(w: World, w1: World, w2: World, c: ConnectionId)
    requires Advances(w, w1, c) && Advances(w1, w2, c)
    ensures Advances(w, w2, c)
  {
    var t1, t2 := w1.h.trace, w2.h.trace;
    hide Working, ForgottenIds;
    assert t2[..|t1|] == t1;
    LoadedIdsGrow(t2, |t1|);
    forall i | |w.h.trace| <= i < |t2|
      ensures t2[i].Loaded? || t2[i].Sent? || t2[i].Answered?
    {
      assert i < |t1| ==> t1[i] == t2[i];
    }
  }

  /** The events that have not been loaded. */
  function Left(w: World): nat {
    Unloaded(w.tq.events, w.a.updates.Keys, w.tq.tail)
  }

  function Accepted(c: ConnectionId): Input {
    OnHandle(c, Some(Response(true, 200, true, 0)), 0, 0, 0)
  }

  /** A success of any connection: its event is done, and no connection of the present address is closed. */
  lemma AnswerAdvances(w: World, c: ConnectionId, d: ConnectionId)
    requires Working(w, c) && d in w.a.connections && w.a.connections[d].eventId.Some?
    ensures Admissible(w, Accepted(d)) && Step(w, Accepted(d)).Next?
    ensures var w' := Step(w, Accepted(d)).w;
            Advances(w, w', c) && |w'.a.updates| < |w.a.updates| && Left(w') <= Left(w)
  {
    hide Inv, Handle, Keep, NothingLost, Advances, KeepsReading, Left;
    var answer := Response(true, 200, true, 0);
    var e := w.a.connections[d].eventId.value;
    StepKeeps(w, Accepted(d));
    SuccessForgets(w, d, e, answer, 0, 0, 0);
    AnswerFreesConnection(w, d, Some(answer), 0, 0, 0);
    StepLosesNothing(w, Accepted(d));
    var w' := Step(w, Accepted(d)).w;
    HandleKeepsReading(w, d, Some(answer), 0, 0, 0);
    DropsOne(w, w', e);
    hide Working;
    OneForgotten(w, w', c, e);
  }

  lemma OneForgotten(w: World, w': World, c: ConnectionId, e: EventId)
    requires Working(w', c) && e in w.a.updates && w'.tq.tail == w.tq.tail
    requires w'.h.trace == w.h.trace + [Answered(e, w.a.updates[e].queueId)]
    requires forall x :: x in w'.tq.events <==> x in w.tq.events && x.id != e
    ensures Advances(w, w', c)
  {
    hide Working, ForgottenIds;
    Snoc(w.h.trace, Answered(e, w.a.updates[e].queueId));
  }

  lemma DropsOne(w: World, w': World, e: EventId)
    requires e in w.a.updates && w'.a.updates == w.a.updates - {e} && KeepsReading(w, w')
    requires w'.tq.tail == w.tq.tail
    ensures |w'.a.updates| < |w.a.updates| && Left(w') <= Left(w)
  {
    var gone :| Forgotten(w, w', gone);
    ForgettingKeeps(w.tq.events, w.a.updates.Keys, gone, gone, w.tq.tail);
    assert w.a.updates.Keys == w'.a.updates.Keys + {e};
    assert |w.a.updates| == |w.a.updates.Keys| && |w'.a.updates| == |w'.a.updates.Keys|;
  }

  /** While an event is loaded and no connection carries one, an idle connection can take the first scheduled one. */
  lemma SendAdvances(w: World, c: ConnectionId, q: QueueId) returns (input: Input, d: ConnectionId)
    requires Working(w, c) && q in w.a.queueUpdates
    requires forall b | b in w.a.connections :: w.a.connections[b].eventId.None?
    ensures Admissible(w, input) && Step(w, input).Next?
    ensures var w' := Step(w, input).w;
            && Advances(w, w', c) && d in w'.a.connections && w'.a.connections[d].eventId.Some?
            && w'.a.updates.Keys == w.a.updates.Keys && w'.tq == w.tq
  {
    hide Inv, Advances, First;
    SomethingToSend(w, c, q);
    var now := First(w.a.queues).wakeupAt;
    input := TrySend(now, {});
    StepKeeps(w, input);
    d := w.a.ready[0];
    StepLosesNothing(w, input);
    FirstIsScheduled(w);
    SendFields(w, now);
    hide NothingLost, SendUpdate;
    OnlySent(w, Step(w, input).w, c);
  }

  lemma SomethingToSend(w: World, c: ConnectionId, q: QueueId)
    requires Working(w, c) && q in w.a.queueUpdates
    requires forall b | b in w.a.connections :: w.a.connections[b].eventId.None?
    ensures w.a.ready != [] && w.a.queues != {}
  {
    hide Partition, Limits, Source, Accounts, Requests, Front, WakeupAt;
    assert c in w.a.ready;
    assert !IsLost(w, q);
    assert w.h.place[q] == Scheduled;
  }

  lemma FirstIsScheduled(w: World)
    requires Inv(w) && w.a.queues != {}
    ensures var x := First(w.a.queues);
            x.id != 0 && x.id in w.a.queueUpdates && w.a.queueUpdates[x.id] != []
            && w.a.queueUpdates[x.id][0] in w.a.updates
  {
    hide Inv;
    ScheduledFacts(w, First(w.a.queues));
  }

  lemma SendFields(w: World, now: Time)
    requires w.a.ready != [] && w.a.queues != {} && First(w.a.queues).wakeupAt <= now
    requires SendUpdate(w, now, {}).Next?
    ensures var w' := SendUpdate(w, now, {}).w;
            && w'.tq == w.tq && w'.a.updates.Keys == w.a.updates.Keys && w'.a.ipGeneration == w.a.ipGeneration
            && w.a.ready[0] in w.a.connections && w'.a.connections.Keys == w.a.connections.Keys
            && w'.a.connections[w.a.ready[0]].eventId.Some?
            && (forall b | b in w.a.connections ::
                  w'.a.connections[b].ipGeneration == w.a.connections[b].ipGeneration)
            && |w'.h.trace| == |w.h.trace| + 1 && w.h.trace <= w'.h.trace && w'.h.trace[|w.h.trace|].Sent?
  {
    hide First;
  }

  lemma OnlySent(w: World, w': World, c: ConnectionId)
    requires Working(w', c) && w'.tq == w.tq && w.h.trace <= w'.h.trace
    requires |w'.h.trace| == |w.h.trace| + 1 && w'.h.trace[|w.h.trace|].Sent?
    ensures Advances(w, w', c)
  {
    hide Working;
  }

  /** With nothing loaded, TQueue is looked into again and its first events are loaded. */
  lemma LoadAdvances(w: World, c: ConnectionId) returns (inputs: seq<Input>)
    requires Working(w, c) && w.a.updates == map[] && w.tq.events != []
    ensures AdmissibleRun(w, inputs) && Run(w, inputs).Next?
    ensures Advances(w, Run(w, inputs).w, c) && Left(Run(w, inputs).w) < Left(w)
  {
    hide Inv, Advances, Left, NothingLost, Load, HeadOk, Fresh;
    var w1 := Step(w, NewUpdates).w;
    StepKeeps(w, NewUpdates);
    StepLosesNothing(w, NewUpdates);
    var head, unixNow := Some(w.tq.events[0].id), Earliest(w.tq.events);
    var load := Input.LoadUpdates(0, unixNow, false, head);
    HeadIsThere(w);
    AllFresh(w1, unixNow, head);
    NothingInTheWay(w1);
    BringsOn(w1, load, c);
    inputs := [NewUpdates, load];
    assert inputs[1..] == [load] && [load][1..] == [];
    var w2 := Step(w1, load).w;
    assert Run(w2, []) == Next(w2) && AdmissibleRun(w2, []);
    assert Run(w1, [load]) == Next(w2) && AdmissibleRun(w1, [load]);
    AfterLoad(w, w1, w2, c);
  }

  lemma AfterLoad(w: World, w1: World, w2: World, c: ConnectionId)
    requires w1 == w.(a := w.a.(tqueueEmpty := false)) && Working(w2, c) && w2.tq == w1.tq && Left(w2) < Left(w1)
    requires AllGood(w1.h.trace, w2.h.trace)
    ensures Advances(w, w2, c) && Left(w2) < Left(w)
  {
    hide Working, Unloaded;
  }

  /** No event expires before then. */
  function Earliest(events: seq<Event>): (t: int)
    ensures forall x | x in events :: t <= x.expiresAt
  {
    if events == [] then 0 else Min(events[0].expiresAt, Earliest(events[1..]))
  }

  lemma HeadIsThere(w: World)
    requires Inv(w) && w.tq.events != []
    ensures HeadOk(w.tq, Some(w.tq.events[0].id))
  {
    hide Partition, Schedule, Flights, Idle, Limits, Accounts, Requests;
    assert w.tq.events[0] in w.tq.events;
    forall x | x in w.tq.events
      ensures w.tq.events[0].id <= x.id
    {
      var i :| 0 <= i < |w.tq.events| && w.tq.events[i] == x;
      assert i > 0 ==> Earlier(w.tq.events, 0, i);
    }
  }

  lemma AllFresh(w: World, unixNow: int, head: Option<EventId>)
    requires forall x | x in w.tq.events :: unixNow <= x.expiresAt
    ensures Fresh(w, unixNow, false, head)
  {
    hide Positioned;
  }

  lemma FrontIsLoaded(us: Updates, qs: Queues, q: QueueId)
    requires Partition(us, qs) && q in qs
    ensures Front(qs, q) in us
  {
    assert Front(qs, q) in qs[q];
  }

  lemma NoQueues(us: Updates, qs: Queues)
    requires Partition(us, qs) && us == map[]
    ensures |qs| == 0
  {
    var keys := qs.Keys;
    assert |qs| == |keys|;
    if keys != {} {
      var q := SomeElement(keys);
      FrontIsLoaded(us, qs, q);
    }
  }

  lemma NothingInTheWay(w: World)
    requires Inv(w) && w.a.updates == map[]
    ensures |w.a.queueUpdates| < w.a.maxLoaded && InStep(w.a)
  {
    hide Schedule, Flights, Idle, Source, Accounts, Requests;
    hide Partition;
    NoQueues(w.a.updates, w.a.queueUpdates);
  }

  lemma BringsOn(w: World, load: Input, c: ConnectionId)
    requires Working(w, c) && Admissible(w, load) && load.LoadUpdates? && !load.getFails
    requires w.a.updates == map[] && w.tq.events != [] && !w.a.tqueueEmpty
    requires |w.a.queueUpdates| < w.a.maxLoaded && InStep(w.a)
    ensures Step(w, load).Next?
    ensures var w' := Step(w, load).w;
            Working(w', c) && w'.tq == w.tq && Left(w') < Left(w) && AllGood(w.h.trace, w'.h.trace)
  {
    hide Inv, NothingLost, Load, HeadOk, Fresh, InStep, AllNew, Takes, Ascending, Unloaded;
    StepKeeps(w, load);
    StepLosesNothing(w, load);
    OnlyHandleForgets(w, load);
    LoadKeepsLinks(w, load);
    EventsAscend(w);
    var x, w' := w.tq.events[0], Step(w, load).w;
    NotYetLoaded(w, x, load.head);
    var k, n := LoadTakes(w, load.now, load.unixNow, false, load.head);
    FirstIsTaken(w, w', LoadStart(w.a, false, load.head), k, n, x);
    BelowTail(w, w.tq.events[k]);
    LoadingLessens(w.tq.events, w.a.updates.Keys, w'.a.updates.Keys, w.tq.tail, w.tq.events[k]);
  }

  lemma LoadKeepsLinks(w: World, input: Input)
    requires input.LoadUpdates? && Step(w, input).Next?
    ensures Step(w, input).w.a.connections == w.a.connections
    ensures Step(w, input).w.a.ipGeneration == w.a.ipGeneration
  {
    hide LoadAll, Positioned, Batch;
    PositionedAt(w, input.getFails, input.head);
    forall w': World, batch {
      LoadingKeepsLinks(w', batch, input.now);
    }
  }

  lemma {:induction false} LoadingKeepsLinks(w: World, batch: seq<Event>, now: Time)
    ensures var a' := LoadAll(w, batch, now).a;
            a'.connections == w.a.connections && a'.ipGeneration == w.a.ipGeneration
    decreases |batch|
  {
    if batch != [] {
      LoadingKeepsLinks(LoadOne(w, batch[0], now), batch[1..], now);
    }
  }

  // ---------- To the end ----------

  lemma {:induction false} RunOn(w: World, first: seq<Input>, then_: seq<Input>)
    requires AdmissibleRun(w, first) && Run(w, first).Next? && AdmissibleRun(Run(w, first).w, then_)
    ensures AdmissibleRun(w, first + then_) && Run(w, first + then_) == Run(Run(w, first).w, then_)
    decreases |first|
  {
    hide Step, Admissible;
    if first == [] {
      assert first + then_ == then_;
    } else {
      RunOn(Step(w, first[0]).w, first[1..], then_);
      assert (first + then_)[1..] == first[1..] + then_ && (first + then_)[0] == first[0];
    }
  }

  lemma OneStep(w: World, input: Input)
    requires Admissible(w, input) && Step(w, input).Next?
    ensures AdmissibleRun(w, [input]) && Run(w, [input]) == Step(w, input)
  {
    hide Step, Admissible;
    var w' := Step(w, input).w;
    assert [input][1..] == [] && AdmissibleRun(w', []) && Run(w', []) == Next(w');
  }

  /** One more event is done, or TQueue has been read further. */
  lemma AdvanceOnce(w: World, c: ConnectionId) returns (inputs: seq<Input>)
    requires Working(w, c) && (w.a.updates != map[] || w.tq.events != [])
    ensures AdmissibleRun(w, inputs) && Run(w, inputs).Next? && Advances(w, Run(w, inputs).w, c)
    ensures var w' := Run(w, inputs).w; Left(w') < Left(w) || (Left(w') == Left(w) && |w'.a.updates| < |w.a.updates|)
  {
    hide Advances, Left, Step, Admissible;
    if w.a.updates == map[] {
      inputs := LoadAdvances(w, c);
    } else if d :| d in w.a.connections && w.a.connections[d].eventId.Some? {
      AnswerAdvances(w, c, d);
      OneStep(w, Accepted(d));
      inputs := [Accepted(d)];
    } else {
      var q := SomeQueue(w);
      var input, d := SendAdvances(w, c, q);
      var w1 := Step(w, input).w;
      ItWorks(w, w1, c);
      AnswerAdvances(w1, c, d);
      OneStep(w, input);
      OneStep(w1, Accepted(d));
      RunOn(w, [input], [Accepted(d)]);
      inputs := [input] + [Accepted(d)];
      AdvancesOn(w, w1, Step(w1, Accepted(d)).w, c);
      SameLeft(w, w1);
    }
  }

  lemma ItWorks(w: World, w': World, c: ConnectionId)
    requires Advances(w, w', c)
    ensures Working(w', c)
  {
  }

  lemma SameLeft(w: World, w1: World)
    requires w1.a.updates.Keys == w.a.updates.Keys && w1.tq == w.tq
    ensures Left(w1) == Left(w) && |w1.a.updates| == |w.a.updates|
  {
    assert |w.a.updates| == |w.a.updates.Keys| && |w1.a.updates| == |w1.a.updates.Keys|;
  }

  lemma SomeQueue(w: World) returns (q: QueueId)
    requires Inv(w) && w.a.updates != map[]
    ensures q in w.a.queueUpdates
  {
    hide Schedule, Flights, Idle, Limits, Source, Accounts, Requests;
    var e :| e in w.a.updates;
    assert InItsQueue(w.a.updates, w.a.queueUpdates, e);
    q := w.a.updates[e].queueId;
  }

  /**
   Everything can be delivered: while no queue is lost and a connection of the present address is open, there is a
   continuation of loads, requests and successes after which nothing is loaded, TQueue is empty, and every event it held
   has been forgotten; and nothing else happened on the way.
   */
  lemma EverythingCanBeDelivered(w: World, c: ConnectionId) returns (inputs: seq<Input>)
    requires Working(w, c)
    ensures AdmissibleRun(w, inputs) && Run(w, inputs).Next?
    ensures var w' := Run(w, inputs).w;
            && w'.a.updates == map[] && w'.tq.events == [] && AllGood(w.h.trace, w'.h.trace)
            && forall x | x in w.tq.events :: x.id in ForgottenIds(w'.h.trace)
  {
    inputs := Deliver(w, c);
    hide Working;
  }

  lemma {:induction false} Deliver(w: World, c: ConnectionId) returns (inputs: seq<Input>)
    requires Working(w, c)
    ensures AdmissibleRun(w, inputs) && Run(w, inputs).Next? && Advances(w, Run(w, inputs).w, c)
    ensures Run(w, inputs).w.a.updates == map[] && Run(w, inputs).w.tq.events == []
    decreases Left(w), |w.a.updates|
  {
    if w.a.updates == map[] && w.tq.events == [] {
      inputs := [];
    } else {
      hide Working, Advances, Left;
      var first := AdvanceOnce(w, c);
      var w1 := Run(w, first).w;
      ItWorks(w, w1, c);
      var rest := Deliver(w1, c);
      RunOn(w, first, rest);
      inputs := first + rest;
      AdvancesOn(w, w1, Run(w1, rest).w, c);
    }
  }
}
