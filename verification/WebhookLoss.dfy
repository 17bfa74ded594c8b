/** How a queue of the webhook scheduler gets lost, and what becomes of it. */
module WebhookLoss {
  import opened Common
  import opened WebhookSpec
  import opened WebhookSafety
  import opened WebhookDelivery

  /** A loaded queue that is neither in queues_ nor on a connection. */
  ghost predicate Stranded(a: Actor, q: QueueId) {
    q in a.queueUpdates && a.queueUpdates[q] != [] && !IsScheduled(a, q) && !InFlight(a, q)
  }

  lemma StrandedIsLost(w: World, q: QueueId)
    requires Inv(w)
    ensures Stranded(w.a, q) <==> IsLost(w, q)
  {
    hide Partition, Schedule, Flights, Idle, Limits, Source, Accounts, Requests, IsScheduled, InFlight;
    PlaceOfQueue(w, q);
  }

  // ---------- When a queue gets lost ----------

  /** The queue is the first that is due, a connection is idle, and the headers of its front event are too long. */
  ghost predicate Strands(w: World, input: Input, q: QueueId) {
    && input.TrySend? && w.a.ready != [] && w.a.queues != {}
    && First(w.a.queues).id == q && First(w.a.queues).wakeupAt <= input.now
    && q in w.a.queueUpdates && w.a.queueUpdates[q] != [] && w.a.queueUpdates[q][0] in input.badHeaders
  }

  lemma SendLoses(w: World, input: Input, q: QueueId)
    requires Inv(w) && input.TrySend? && Step(w, input).Next? && !IsLost(w, q)
    ensures IsLost(Step(w, input).w, q) <==> Strands(w, input, q)
  {
    hide Inv, First;
    if w.a.queues != {} {
      ScheduledFacts(w, First(w.a.queues));
    }
  }

  /**
   A step puts a queue that was in its place into neither place if and only if it tries to send the queue's front event
   and the headers of that request are too long.
   */
  lemma LosesExactly(w: World, input: Input, q: QueueId)
    requires Inv(w) && Admissible(w, input) && !Stranded(w.a, q)
    ensures Step(w, input).Next?
    ensures Stranded(Step(w, input).w.a, q) <==> Strands(w, input, q)
  {
    StepKeeps(w, input);
    hide Inv, Stranded, Step, Admissible;
    StrandedIsLost(w, q);
    StrandedIsLost(Step(w, input).w, q);
    if input.TrySend? {
      SendLoses(w, input, q);
    } else {
      StepLoses(w, input, q);
    }
  }

  /** Some step of the run loses a queue. */
  ghost predicate RunStrands(w: World, inputs: seq<Input>)
    decreases |inputs|
  {
    inputs != [] &&
    ((exists q :: !Stranded(w.a, q) && Strands(w, inputs[0], q))
     || (Step(w, inputs[0]).Next? && RunStrands(Step(w, inputs[0]).w, inputs[1..])))
  }

  // ---------- A lost queue stays lost ----------

  /** The queue is lost before and after; it has only grown, and nothing was done about its events. */
  ghost predicate StillLost(w: World, w': World, q: QueueId) {
    && IsLost(w, q) && IsLost(w', q) && q in w.a.queueUpdates && q in w'.a.queueUpdates
    && w.a.queueUpdates[q] != [] && w.a.queueUpdates[q] <= w'.a.queueUpdates[q]
    && w.h.trace <= w'.h.trace
    && forall i | |w.h.trace| <= i < |w'.h.trace| && w'.h.trace[i].q == q :: w'.h.trace[i].Loaded?
  }

  lemma StillLostOn(w: World, w1: World, w2: World, q: QueueId)
    requires StillLost(w, w1, q) && StillLost(w1, w2, q)
    ensures StillLost(w, w2, q)
  {
    forall i | |w.h.trace| <= i < |w2.h.trace| && w2.h.trace[i].q == q
      ensures w2.h.trace[i].Loaded?
    {
      assert i < |w1.h.trace| ==> w1.h.trace[i] == w2.h.trace[i];
    }
  }

  lemma LoadOneStillLost(w: World, e: Event, now: Time, q: QueueId)
    requires StillLost(w, w, q)
    ensures StillLost(w, LoadOne(w, e, now), q)
  {
  }

  lemma {:induction false} LoadAllStillLost(w: World, batch: seq<Event>, now: Time, q: QueueId)
    requires StillLost(w, w, q)
    ensures StillLost(w, LoadAll(w, batch, now), q)
    decreases |batch|
  {
    if batch != [] {
      LoadOneStillLost(w, batch[0], now, q);
      hide LoadOne;
      LoadAllStillLost(LoadOne(w, batch[0], now), batch[1..], now, q);
      StillLostOn(w, LoadOne(w, batch[0], now), LoadAll(w, batch, now), q);
    }
  }

  lemma LoadStillLost(w: World, input: Input, q: QueueId)
    requires StillLost(w, w, q) && input.LoadUpdates? && Step(w, input).Next?
    ensures StillLost(w, Step(w, input).w, q)
  {
    var w1 := Positioned(w, input.getFails, input.head);
    var limit := Min(EVENT_BUFFER_SIZE, w.a.maxLoaded - |w.a.queueUpdates|);
    if limit > 0 {
      var batch := if w1.a.tqueueOffset.None? then [] else Batch(w1.tq, w1.a.tqueueOffset.value, limit);
      var w2 := w1.(a := w1.a.(tqueueEmpty := batch == []));
      assert StillLost(w, w2, q) && StillLost(w2, w2, q);
      LoadAllStillLost(w2, batch, input.now, q);
      StillLostOn(w, w2, LoadAll(w2, batch, input.now), q);
    }
  }

  lemma SendStillLost(w: World, input: Input, q: QueueId)
    requires Inv(w) && StillLost(w, w, q) && input.TrySend? && Step(w, input).Next?
    ensures StillLost(w, Step(w, input).w, q)
  {
    hide Inv, First;
    if w.a.queues != {} {
      ScheduledFacts(w, First(w.a.queues));
    }
  }

  /** Settling a request touches the queue of that request only. */
  lemma SettleStillLost(w: World, e: EventId, response: Option<Response>, now: Time, unixNow: int, backoff: int,
                        q: QueueId)
    requires StillLost(w, w, q) && e in w.a.updates && w.a.updates[e].queueId != q
    ensures var r := Settle(w, e, response, now, unixNow, backoff); r.Next? ==> StillLost(w, r.w, q)
  {
    hide Keep;
  }

  lemma HandleStillLost(w: World, input: Input, q: QueueId)
    requires Inv(w) && StillLost(w, w, q) && input.OnHandle? && Step(w, input).Next?
    ensures StillLost(w, Step(w, input).w, q)
  {
    hide Inv, Settle;
    if input.c in w.a.connections && w.a.connections[input.c].eventId.Some? {
      BusyFacts(w, input.c);
      var w1 := w.(a := w.a.(first410 := First410(w.a, input.response, input.now)));
      SettleStillLost(w1, w.a.connections[input.c].eventId.value, input.response, input.now, input.unixNow,
                      input.backoff, q);
    }
  }

  lemma StepStillLost(w: World, input: Input, q: QueueId)
    requires Inv(w) && Admissible(w, input) && IsLost(w, q)
    ensures Step(w, input).Next? && StillLost(w, Step(w, input).w, q)
  {
    StepKeeps(w, input);
    LostIsLoaded(w, q);
    hide Inv;
    match input
    case LoadUpdates(_, _, _, _) => LoadStillLost(w, input, q);
    case TrySend(_, _) => SendStillLost(w, input, q);
    case OnHandle(_, _, _, _, _) => HandleStillLost(w, input, q);
    case NewConnections(now, usable, attempts, succeeds) => ConnectionsKeepQueues(w.a, now, usable, attempts, succeeds);
    case _ =>
  }

  lemma LostIsLoaded(w: World, q: QueueId)
    requires Inv(w) && IsLost(w, q)
    ensures StillLost(w, w, q)
  {
    hide Schedule, Flights, Idle, Limits, Source, Accounts, Requests;
  }

  lemma {:induction false} OpenKeepsQueues(a: Actor, need: nat, attempts: seq<Attempt>)
    ensures OpenNew(a, need, attempts).0.queueUpdates == a.queueUpdates
    decreases |attempts|
  {
    if attempts != [] {
      OpenKeepsQueues(Connect(a), need, attempts[1..]);
    }
  }

  lemma {:induction false} UseReadyKeepsQueues(a: Actor, need: nat, succeeds: nat -> bool, k: nat)
    ensures UseReady(a, need, succeeds, k).queueUpdates == a.queueUpdates
    decreases a.readySockets
  {
    if a.readySockets > 0 {
      UseReadyKeepsQueues(Connect(a.(readySockets := a.readySockets - 1)), need, succeeds, k + 1);
    }
  }

  lemma ConnectionsKeepQueues(a: Actor, now: Time, usable: bool, attempts: seq<Attempt>, succeeds: nat -> bool)
    ensures CreateConnections(a, now, usable, attempts, succeeds).queueUpdates == a.queueUpdates
  {
    hide OpenNew, UseReady;
    var need := NeedConnections(a, now);
    OpenKeepsQueues(a, need, attempts);
    UseReadyKeepsQueues(OpenNew(a, need, attempts).0, need, succeeds, 0);
  }

  lemma {:induction false} RunStillLost(w: World, inputs: seq<Input>, q: QueueId)
    requires Inv(w) && AdmissibleRun(w, inputs) && IsLost(w, q)
    ensures Run(w, inputs).Next? && StillLost(w, Run(w, inputs).w, q)
    decreases |inputs|
  {
    LostIsLoaded(w, q);
    hide Inv, Step, StillLost;
    if inputs != [] {
      StepKeeps(w, inputs[0]);
      StepStillLost(w, inputs[0], q);
      LostAfter(w, Step(w, inputs[0]).w, q);
      RunStillLost(Step(w, inputs[0]).w, inputs[1..], q);
      StillLostOn(w, Step(w, inputs[0]).w, Run(w, inputs).w, q);
    }
  }

  lemma LostAfter(w: World, w': World, q: QueueId)
    requires StillLost(w, w', q)
    ensures IsLost(w', q)
  {
  }

  /**
   A queue in neither place stays in neither in every continuation, whatever is loaded, sent or answered. It keeps one
   of the loaded queues and all its events, later ones only pile up behind them, and none of them is ever sent again.
   */
  lemma LostForGood(w: World, inputs: seq<Input>, q: QueueId)
    requires Inv(w) && AdmissibleRun(w, inputs) && Stranded(w.a, q)
    ensures Run(w, inputs).Next?
    ensures var w' := Run(w, inputs).w;
            && Stranded(w'.a, q) && w.a.queueUpdates[q] <= w'.a.queueUpdates[q]
            && w.h.trace <= w'.h.trace
            && forall i | |w.h.trace| <= i < |w'.h.trace| && w'.h.trace[i].q == q :: w'.h.trace[i].Loaded?
  {
    hide Inv, Stranded;
    StrandedIsLost(w, q);
    RunKeeps(w, inputs);
    RunStillLost(w, inputs, q);
    StrandedIsLost(Run(w, inputs).w, q);
  }

  /** A run ends with some queue in neither place if and only if one of its steps put one there. */
  lemma {:induction false} RunLosesExactly(w: World, inputs: seq<Input>)
    requires Inv(w) && AdmissibleRun(w, inputs) && forall q :: !Stranded(w.a, q)
    ensures Run(w, inputs).Next?
    ensures (exists q :: Stranded(Run(w, inputs).w.a, q)) <==> RunStrands(w, inputs)
    decreases |inputs|
  {
    hide Inv, Step, Stranded, Strands;
    if inputs != [] {
      StepKeeps(w, inputs[0]);
      var w1 := Step(w, inputs[0]).w;
      forall q
        ensures Stranded(w1.a, q) <==> Strands(w, inputs[0], q)
      {
        LosesExactly(w, inputs[0], q);
      }
      if q :| Stranded(w1.a, q) {
        LostForGood(w1, inputs[1..], q);
      } else {
        RunLosesExactly(w1, inputs[1..]);
      }
    }
  }

  // ---------- A run that loses a queue ----------

  predicate Always(k: nat) {
    true
  }

  /** One event is loaded, a connection is opened, and the request turns out too long. */
  function LosingRun(e: Event): seq<Input> {
    [Input.LoadUpdates(0, 0, false, Some(e.id)), NewConnections(0, true, [Connected], Always), TrySend(0, {e.id})]
  }

  lemma QueueGetsLost(e: Event)
    requires 0 <= e.expiresAt && e.extra != 0
    ensures var w := Start(1, false, 0, TQueue([e], e.id + 1));
            && AdmissibleRun(w, LosingRun(e))
            && Run(w, LosingRun(e)).Next? && Stranded(Run(w, LosingRun(e)).w.a, e.extra)
            && Run(w, LosingRun(e)).w.h.trace == [Loaded(e.id, e.extra)]
  {
    var tq := TQueue([e], e.id + 1);
    var w := Start(1, false, 0, tq);
    var inputs := LosingRun(e);
    hide Inv, Stranded, Step, Admissible, Start;
    StartHolds(1, false, 0, tq);
    LoadsTheEvent(e);
    StepKeeps(w, inputs[0]);
    var w1 := Step(w, inputs[0]).w;
    OpensAConnection(w1);
    StepKeeps(w1, inputs[1]);
    var w2 := Step(w1, inputs[1]).w;
    LosesTheQueue(w2, e);
    ThreeSteps(w, w1, w2, Step(w2, inputs[2]).w, inputs[0], inputs[1], inputs[2]);
  }

  lemma LosesTheQueue(w: World, e: Event)
    requires Inv(w) && w.a.queues == {Entry(0, e.extra)} && w.a.queueUpdates == map[e.extra := [e.id]]
    requires w.a.ready != [] && !IsLost(w, e.extra)
    ensures var w' := Step(w, TrySend(0, {e.id}));
            && Admissible(w, TrySend(0, {e.id})) && w'.Next? && Stranded(w'.w.a, e.extra)
            && w'.w.h.trace == w.h.trace
  {
    hide Inv, First, Stranded, Strands, Step, Admissible;
    var input := TrySend(0, {e.id});
    TooLong(w, e);
    NothingIsSent(w, input, e.extra);
    StepKeeps(w, input);
    SendLoses(w, input, e.extra);
    StrandedIsLost(Step(w, input).w, e.extra);
  }

  lemma TooLong(w: World, e: Event)
    requires w.a.queues == {Entry(0, e.extra)} && w.a.queueUpdates == map[e.extra := [e.id]] && w.a.ready != []
    ensures Strands(w, TrySend(0, {e.id}), e.extra)
  {
    hide First;
    OnlyEntry(Entry(0, e.extra));
  }

  lemma NothingIsSent(w: World, input: Input, q: QueueId)
    requires Strands(w, input, q)
    ensures Admissible(w, input)
    ensures Step(w, input).Next? ==> Step(w, input).w.h.trace == w.h.trace
  {
    hide First;
  }

  lemma OnlyEntry(x: Entry)
    ensures First({x}) == x
  {
    assert IsFirst({x}, x);
    FirstUnique({x}, x);
  }

  lemma ThreeSteps(w: World, w1: World, w2: World, w3: World, a: Input, b: Input, c: Input)
    requires Admissible(w, a) && Step(w, a) == Next(w1) && Admissible(w1, b) && Step(w1, b) == Next(w2)
    requires Admissible(w2, c) && Step(w2, c) == Next(w3)
    ensures AdmissibleRun(w, [a, b, c]) && Run(w, [a, b, c]) == Next(w3)
  {
    hide Step, Admissible;
    assert [a, b, c][1..] == [b, c] && [b, c][1..] == [c] && [c][1..] == [];
    assert AdmissibleRun(w3, []) && Run(w3, []) == Next(w3);
    assert AdmissibleRun(w2, [c]) && Run(w2, [c]) == Next(w3);
    assert AdmissibleRun(w1, [b, c]) && Run(w1, [b, c]) == Next(w3);
  }

  lemma LoadsTheEvent(e: Event)
    requires 0 <= e.expiresAt && e.extra != 0
    ensures var w, input := Start(1, false, 0, TQueue([e], e.id + 1)), LosingRun(e)[0];
            && Admissible(w, input) && Step(w, input).Next?
            && var w1 := Step(w, input).w;
               && w1.a.queues == {Entry(0, e.extra)} && w1.a.queueUpdates == map[e.extra := [e.id]]
               && w1.a.connections == map[] && w1.a.ready == [] && w1.a.pendingSockets == {} && w1.a.readySockets == 0
               && w1.a.maxConnections == 1 && w1.h.place == map[e.extra := Scheduled]
               && w1.h.trace == [Loaded(e.id, e.extra)]
  {
    var w := Start(1, false, 0, TQueue([e], e.id + 1));
    var w0 := Positioned(w, false, Some(e.id));
    assert w0.a.tqueueOffset == Some(e.id);
    assert Batch(w0.tq, e.id, 2) == [e];
    var w1 := w0.(a := w0.a.(tqueueEmpty := false));
    assert [e][1..] == [];
    assert LoadAll(w1, [e], 0) == LoadOne(w1, e, 0);
    assert |w.a.queueUpdates| == 0 && w.a.maxLoaded == 2;
    assert Load(w, 0, 0, false, Some(e.id)) == Next(LoadOne(w1, e, 0));
    assert [] + [e.id] == [e.id] && [] + [Loaded(e.id, e.extra)] == [Loaded(e.id, e.extra)];
  }

  lemma OpensAConnection(w: World)
    requires w.a.connections == map[] && w.a.ready == [] && w.a.pendingSockets == {} && w.a.readySockets == 0
    requires w.a.maxConnections == 1 && |w.a.queueUpdates| == 1
    ensures var input := NewConnections(0, true, [Connected], Always);
            && Admissible(w, input) && Step(w, input).Next?
            && var w' := Step(w, input).w;
               && w'.a.queues == w.a.queues && w'.a.queueUpdates == w.a.queueUpdates && w'.h == w.h
               && w'.a.ready == [w.a.nextConnection]
  {
    assert NeedConnections(w.a, 0) == 1;
    var a1 := Connect(w.a);
    assert a1.connections.Keys == {w.a.nextConnection} && Total(a1) == 1;
    assert a1.ready == [w.a.nextConnection];
    assert OpenNew(a1, 1, []) == (a1, true);
    assert [Connected][1..] == [];
    assert OpenNew(w.a, 1, [Connected]) == (a1, true);
    assert UseReady(a1, 1, Always, 0) == a1;
    assert CreateConnections(w.a, 0, true, [Connected], Always) == a1.(readySockets := 0);
  }
}
