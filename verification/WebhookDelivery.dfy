/** What the invariant of the webhook scheduler means for whoever posts events and for whoever receives them. */
module WebhookDelivery {
  import opened Common
  import opened WebhookSpec
  import opened WebhookSafety

  // ---------- Reading a legal trace ----------

  lemma {:induction false} LegalAt(t: seq<Label>, i: nat)
    requires LegalTrace(t) && i < |t|
    ensures Legal(t[..i], t[i]) && LegalTrace(t[..i])
  {
    if i < |t| - 1 {
      LegalAt(t[..|t| - 1], i);
      assert t[..|t| - 1][..i] == t[..i];
    }
  }

  lemma {:induction false} LoadedIsRecorded(t: seq<Label>, i: nat, q: QueueId)
    requires i < |t| && t[i].Loaded? && t[i].q == q
    ensures t[i].e in Loads(t, q)
  {
    if i < |t| - 1 {
      LoadedIsRecorded(t[..|t| - 1], i, q);
    }
  }

  lemma {:induction false} LoadsAreLoaded(t: seq<Label>, q: QueueId)
    ensures forall e | e in Loads(t, q) :: e in LoadedIds(t)
  {
    if t != [] {
      LoadsAreLoaded(t[..|t| - 1], q);
    }
  }

  /** The events of a queue are loaded with growing ids, which is TQueue's order. */
  lemma {:induction false} LoadsGrow(t: seq<Label>, q: QueueId)
    requires LegalTrace(t)
    ensures Growing(Loads(t, q))
  {
    if t != [] {
      LoadsGrow(t[..|t| - 1], q);
      LoadsAreLoaded(t[..|t| - 1], q);
      var before := Loads(t[..|t| - 1], q);
      if t[|t| - 1].Loaded? && t[|t| - 1].q == q {
        GrowingSnoc(before, t[|t| - 1].e);
      } else {
        assert Loads(t, q) == before;
      }
    }
  }

  lemma {:induction false} ForgottenHasLabel(t: seq<Label>, q: QueueId, e: EventId) returns (k: nat)
    requires e in Forgets(t, q)
    ensures k < |t| && IsForget(t[k]) && t[k].e == e && t[k].q == q
  {
    var l := t[|t| - 1];
    if IsForget(l) && l.q == q && l.e == e {
      k := |t| - 1;
    } else {
      k := ForgottenHasLabel(t[..|t| - 1], q, e);
    }
  }

  /** Two events of one queue, one posted before the other. The later one was sent at `j`. */
  ghost predicate InTurn(t: seq<Label>, i: nat, j: nat) {
    && i < |t| && j < |t| && t[i].Loaded? && t[j].Sent? && t[i].q == t[j].q && t[i].e < t[j].e
  }

  lemma EarlierIsForgotten(loads: seq<EventId>, forgotten: seq<EventId>, e: EventId, later: EventId)
    requires Growing(loads) && forgotten + [later] <= loads && e in loads && e < later
    ensures e in forgotten
  {
    var i :| 0 <= i < |loads| && loads[i] == e;
    assert loads[|forgotten|] == (forgotten + [later])[|forgotten|];
    assert |forgotten| < i ==> Less(loads, |forgotten|, i);
    assert loads[i] == (forgotten + [later])[i];
  }

  /**
   Order of delivery: when an event is sent, every event of its queue that TQueue holds before it has already been
   answered with success or dropped as expired.
   */
  lemma DeliveryOrder(t: seq<Label>, i: nat, j: nat) returns (k: nat)
    requires LegalTrace(t) && InTurn(t, i, j)
    ensures i < j && k < j && IsForget(t[k]) && t[k].e == t[i].e && t[k].q == t[j].q
  {
    var q := t[j].q;
    LegalAt(t, j);
    LegalAt(t, i);
    if j < i {
      LoadedBefore(t, i, j);
    }
    LoadedIsRecorded(t[..j], i, q);
    LoadsGrow(t[..j], q);
    EarlierIsForgotten(Loads(t[..j], q), Forgets(t[..j], q), t[i].e, t[j].e);
    k := ForgottenHasLabel(t[..j], q, t[i].e);
  }

  /** What was sent at `j` had been loaded by then, so nothing loaded later has a smaller id. */
  lemma LoadedBefore(t: seq<Label>, i: nat, j: nat)
    requires LegalTrace(t) && j < i < |t| && t[j].Sent? && t[i].Loaded?
    ensures t[j].e < t[i].e
  {
    LegalAt(t, j);
    LegalAt(t, i);
    var q := t[j].q;
    assert (Forgets(t[..j], q) + [t[j].e])[|Forgets(t[..j], q)|] == t[j].e;
    assert t[j].e in Loads(t[..j], q);
    LoadsAreLoaded(t[..j], q);
    LoadedIdsGrow(t[..i], j);
    assert t[..i][..j] == t[..j];
  }

  lemma {:induction false} LoadedIdsGrow(t: seq<Label>, j: nat)
    requires j <= |t|
    ensures LoadedIds(t[..j]) <= LoadedIds(t) && ForgottenIds(t[..j]) <= ForgottenIds(t)
  {
    if j < |t| {
      LoadedIdsGrow(t[..|t| - 1], j);
      assert t[..|t| - 1][..j] == t[..j];
    } else {
      assert t[..j] == t;
    }
  }

  lemma {:induction false} LabelsAreCollected(t: seq<Label>, i: nat)
    requires i < |t|
    ensures t[i].Loaded? ==> t[i].e in LoadedIds(t)
    ensures IsForget(t[i]) ==> t[i].e in ForgottenIds(t)
  {
    if i < |t| - 1 {
      LabelsAreCollected(t[..|t| - 1], i);
    }
  }

  /** No event is loaded twice and no event is forgotten twice. */
  lemma NothingTwice(t: seq<Label>, i: nat, j: nat)
    requires LegalTrace(t) && i < j < |t|
    requires (t[i].Loaded? && t[j].Loaded?) || (IsForget(t[i]) && IsForget(t[j]))
    ensures t[i].e != t[j].e
  {
    LegalAt(t, j);
    LabelsAreCollected(t[..j], i);
  }

  lemma {:induction false} LastActionHasLabel(t: seq<Label>, q: QueueId) returns (k: nat)
    requires LastAction(t, q).Some?
    ensures k < |t| && t[k] == LastAction(t, q).value && t[k].q == q && !t[k].Loaded?
    ensures forall m | k < m < |t| && t[m].q == q :: t[m].Loaded?
  {
    var l := t[|t| - 1];
    if !l.Loaded? && l.q == q {
      k := |t| - 1;
    } else {
      k := LastActionHasLabel(t[..|t| - 1], q);
      assert forall m | k < m < |t| - 1 :: t[m] == t[..|t| - 1][m];
    }
  }

  /**
   An event is answered, retried or dropped only as the outcome of the request that carried it: between the request
   and its outcome nothing else was done about the queue, so a queue never has two requests outstanding.
   */
  lemma OutcomeFollowsRequest(t: seq<Label>, j: nat) returns (k: nat)
    requires LegalTrace(t) && j < |t| && (IsForget(t[j]) || t[j].Retried?)
    ensures k < j && t[k].Sent? && t[k].e == t[j].e && t[k].q == t[j].q
    ensures forall m | k < m < j && t[m].q == t[j].q :: t[m].Loaded?
  {
    LegalAt(t, j);
    k := LastActionHasLabel(t[..j], t[j].q);
    assert forall m | k < m < j :: t[m] == t[..j][m];
  }

  /** A queue's requests alternate with their outcomes. */
  lemma RequestsAlternate(t: seq<Label>, i: nat, j: nat) returns (k: nat)
    requires LegalTrace(t) && i < j < |t| && t[i].Sent? && t[j].Sent? && t[i].q == t[j].q
    ensures i < k < j && t[k].q == t[i].q && (IsForget(t[k]) || t[k].Retried?)
  {
    LegalAt(t, j);
    ActionExists(t[..j], i);
    k := LastActionHasLabel(t[..j], t[j].q);
    assert t[..j][k] == t[k] && t[..j][i] == t[i];
    assert !t[k].Sent? && !t[k].Loaded?;
  }

  lemma {:induction false} ActionExists(t: seq<Label>, i: nat)
    requires i < |t| && !t[i].Loaded?
    ensures LastAction(t, t[i].q).Some?
  {
    if i < |t| - 1 {
      ActionExists(t[..|t| - 1], i);
    }
  }

  // ---------- Where a queue is ----------

  /** queues_ has an entry for `q`, and it is the one of the front event. */
  predicate IsScheduled(a: Actor, q: QueueId) {
    Entry(WakeupAt(a.updates, a.queueUpdates, q), q) in a.queues
  }

  predicate IsOn(a: Actor, q: QueueId, c: ConnectionId) {
    c in a.connections && a.connections[c].eventId == Some(Front(a.queueUpdates, q))
  }

  ghost predicate InFlight(a: Actor, q: QueueId) {
    exists c :: IsOn(a, q, c)
  }

  /** A loaded queue is scheduled or in flight, never both; it is neither exactly when its headers were too long. */
  ghost predicate OnePlace(w: World, q: QueueId) {
    && !(IsScheduled(w.a, q) && InFlight(w.a, q))
    && (IsScheduled(w.a, q) || InFlight(w.a, q) || (q in w.h.place && w.h.place[q] == Lost))
    && (forall x | x in w.a.queues && x.id == q :: x.wakeupAt == WakeupAt(w.a.updates, w.a.queueUpdates, q))
    && (forall c, d | IsOn(w.a, q, c) && IsOn(w.a, q, d) :: c == d)
  }

  /** Of a queue that is not loaded no trace is left in queues_. */
  lemma PlaceOfQueue(w: World, q: QueueId)
    requires Inv(w)
    ensures q in w.a.queueUpdates ==> w.a.queueUpdates[q] != [] && OnePlace(w, q)
    ensures q !in w.a.queueUpdates ==> forall x | x in w.a.queues :: x.id != q
    ensures q in w.h.place && w.h.place[q] == Lost ==> !IsScheduled(w.a, q) && !InFlight(w.a, q)
  {
    hide Idle, Limits, Source, Accounts, Requests;
    if q in w.a.queueUpdates {
      var e := Front(w.a.queueUpdates, q);
      assert e in w.a.queueUpdates[q];
      forall c | IsOn(w.a, q, c)
        ensures w.h.place[q] == OnConnection(c)
      {
        assert Carries(w.a.updates, w.a.queueUpdates, w.h.place, c, e);
      }
      if w.h.place[q].OnConnection? {
        assert IsOn(w.a, q, w.h.place[q].c);
      }
    }
  }

  /** No header came out too long. */
  predicate HeadersFit(inputs: seq<Input>) {
    forall i | 0 <= i < |inputs| && inputs[i].TrySend? :: inputs[i].badHeaders == {}
  }

  predicate IsLost(w: World, q: QueueId) {
    q in w.h.place && w.h.place[q] == Lost
  }

  predicate NothingLost(w: World) {
    forall q | q in w.h.place :: !IsLost(w, q)
  }

  /** Loading schedules queues and does nothing else to their places. */
  lemma {:induction false} LoadOnlySchedules(w: World, batch: seq<Event>, now: Time, q: QueueId)
    ensures IsLost(LoadAll(w, batch, now), q) ==> IsLost(w, q)
    decreases |batch|
  {
    if batch != [] {
      LoadOnlySchedules(LoadOne(w, batch[0], now), batch[1..], now, q);
    }
  }

  lemma LoadLoses(w: World, input: Input, q: QueueId)
    requires input.LoadUpdates? && Step(w, input).Next?
    ensures IsLost(Step(w, input).w, q) ==> IsLost(w, q)
  {
    var w1 := Positioned(w, input.getFails, input.head);
    var limit := Min(EVENT_BUFFER_SIZE, w.a.maxLoaded - |w.a.queueUpdates|);
    if limit > 0 {
      var batch := if w1.a.tqueueOffset.None? then [] else Batch(w1.tq, w1.a.tqueueOffset.value, limit);
      LoadOnlySchedules(w1.(a := w1.a.(tqueueEmpty := batch == [])), batch, input.now, q);
    }
  }

  lemma SettleLoses(w: World, e: EventId, response: Option<Response>, now: Time, unixNow: int, backoff: int, q: QueueId)
    ensures var r := Settle(w, e, response, now, unixNow, backoff);
            r.Next? && IsLost(r.w, q) ==> IsLost(w, q)
  {
    hide Keep;
  }

  lemma HandleLoses(w: World, input: Input, q: QueueId)
    requires input.OnHandle? && Step(w, input).Next?
    ensures IsLost(Step(w, input).w, q) ==> IsLost(w, q)
  {
    hide Settle;
    if input.c in w.a.connections && w.a.connections[input.c].eventId.Some? {
      SettleLoses(w.(a := w.a.(first410 := First410(w.a, input.response, input.now))),
                  w.a.connections[input.c].eventId.value, input.response, input.now, input.unixNow, input.backoff, q);
    }
  }

  /** Every other step leaves the places alone. */
  lemma StepLoses(w: World, input: Input, q: QueueId)
    requires Step(w, input).Next? && !input.TrySend?
    ensures IsLost(Step(w, input).w, q) ==> IsLost(w, q)
  {
    match input
    case LoadUpdates(_, _, _, _) => LoadLoses(w, input, q);
    case OnHandle(_, _, _, _, _) => HandleLoses(w, input, q);
    case _ =>
  }

  lemma StepLosesNothing(w: World, input: Input)
    requires NothingLost(w) && (input.TrySend? ==> input.badHeaders == {})
    ensures Step(w, input).Next? ==> NothingLost(Step(w, input).w)
  {
    if !input.TrySend? && Step(w, input).Next? {
      hide Step;
      forall q | q in Step(w, input).w.h.place
        ensures !IsLost(Step(w, input).w, q)
      {
        StepLoses(w, input, q);
      }
    }
  }

  lemma {:induction false} RunLosesNothing(w: World, inputs: seq<Input>)
    requires NothingLost(w) && HeadersFit(inputs)
    ensures Run(w, inputs).Next? ==> NothingLost(Run(w, inputs).w)
    decreases |inputs|
  {
    hide Step;
    if inputs != [] {
      StepLosesNothing(w, inputs[0]);
      if Step(w, inputs[0]).Next? {
        RunLosesNothing(Step(w, inputs[0]).w, inputs[1..]);
      }
    }
  }

  // ---------- What send_updates leaves ----------

  /** No connection is idle, or no queue is due. */
  ghost predicate NothingDue(w: World, now: Time) {
    w.a.ready == [] || forall x | x in w.a.queues :: now < x.wakeupAt
  }

  lemma AttemptThatSends(w: World, now: Time, badHeaders: set<EventId>)
    requires Inv(w) && Sends(w, now, badHeaders)
    ensures var r := SendUpdate(w, now, badHeaders);
            && r.Next? && |r.w.h.trace| == |w.h.trace| + 1 && |r.w.a.ready| == |w.a.ready| - 1
            && forall q :: IsLost(w, q) <==> IsLost(r.w, q)
  {
    hide Inv, First, DistinctQueues;
    SendUpdateKeeps(w, now, badHeaders);
    ScheduledFacts(w, First(w.a.queues));
    assert forall q :: IsLost(w, q) <==> IsLost(SendUpdate(w, now, badHeaders).w, q);
  }

  lemma AttemptThatDoesNot(w: World, now: Time, badHeaders: set<EventId>)
    requires Inv(w) && !Sends(w, now, badHeaders)
    ensures var r := SendUpdate(w, now, badHeaders);
            && r.Next? && |r.w.h.trace| == |w.h.trace| && |r.w.a.ready| == |w.a.ready|
            && (NothingDue(r.w, now) || (badHeaders != {} && exists q :: IsLost(r.w, q) && !IsLost(w, q)))
  {
    hide Inv, First;
    SendUpdateKeeps(w, now, badHeaders);
    if w.a.ready != [] && w.a.queues != {} {
      var x := First(w.a.queues);
      assert IsFirst(w.a.queues, x);
      ScheduledFacts(w, x);
      if x.wakeupAt <= now {
        assert IsLost(SendUpdate(w, now, badHeaders).w, x.id) && !IsLost(w, x.id);
      }
    }
  }

  /**
   send_updates sends requests until no connection is idle or no queue is due at the last reading of the clock; the one
   thing that can stop it before is a queue whose headers are too long and which gets lost.
   */
  lemma {:induction false} NoDueQueueWaits(w: World, clock: nat -> Time, k: nat, badHeaders: set<EventId>)
    requires Inv(w)
    ensures var r := SendUpdates(w, clock, k, badHeaders);
            && r.Next? && Inv(r.w)
            && var sent := |r.w.h.trace| - |w.h.trace|;
               && 0 <= sent && |r.w.a.ready| == |w.a.ready| - sent
               && (NothingDue(r.w, clock(k + sent))
                   || (badHeaders != {} && exists q :: IsLost(r.w, q) && !IsLost(w, q)))
    decreases |w.a.ready|
  {
    hide Inv, SendUpdate, NothingDue, IsLost;
    SendUpdateKeeps(w, clock(k), badHeaders);
    if Sends(w, clock(k), badHeaders) {
      AttemptThatSends(w, clock(k), badHeaders);
      NoDueQueueWaits(SendUpdate(w, clock(k), badHeaders).w, clock, k + 1, badHeaders);
    } else {
      AttemptThatDoesNot(w, clock(k), badHeaders);
    }
  }

  // ---------- Every run from the start ----------

  /** What TQueue holds when the webhook is set. */
  predicate GoodStart(maxConnections: nat, tq: TQueue) {
    0 < maxConnections && Ascending(tq.events) && forall x | x in tq.events :: x.id < tq.tail
  }

  /** No CHECK fires in any run, and in every state a run reaches each loaded queue is in exactly one place. */
  lemma EveryQueueInOnePlace(maxConnections: nat, fromDb: bool, now: Time, tq: TQueue, inputs: seq<Input>, q: QueueId)
    requires GoodStart(maxConnections, tq) && AdmissibleRun(Start(maxConnections, fromDb, now, tq), inputs)
    ensures Run(Start(maxConnections, fromDb, now, tq), inputs).Next?
    ensures var w := Run(Start(maxConnections, fromDb, now, tq), inputs).w;
            && (q in w.a.queueUpdates ==> w.a.queueUpdates[q] != [] && OnePlace(w, q))
            && (q in w.a.queueUpdates && HeadersFit(inputs) ==> IsScheduled(w.a, q) || InFlight(w.a, q))
            && (q !in w.a.queueUpdates ==> forall x | x in w.a.queues :: x.id != q)
  {
    hide Inv;
    StartHolds(maxConnections, fromDb, now, tq);
    RunKeeps(Start(maxConnections, fromDb, now, tq), inputs);
    PlaceOfQueue(Run(Start(maxConnections, fromDb, now, tq), inputs).w, q);
    if HeadersFit(inputs) {
      RunLosesNothing(Start(maxConnections, fromDb, now, tq), inputs);
    }
  }

  /** update_map_ is the disjoint union of the queues. */
  lemma UpdatesAreTheQueues(w: World, e: EventId, q: QueueId)
    requires Inv(w)
    ensures e in w.a.updates <==> exists p :: p in w.a.queueUpdates && e in w.a.queueUpdates[p]
    ensures q in w.a.queueUpdates && e in w.a.queueUpdates[q] ==> e in w.a.updates && w.a.updates[e].queueId == q
  {
    hide Schedule, Flights, Idle, Limits, Source, Accounts, Requests;
    if e in w.a.updates {
      assert InItsQueue(w.a.updates, w.a.queueUpdates, e);
    }
  }

  /**
   Conservation: in every state a run reaches, what was loaded is what is still in update_map_ together with what
   was forgotten, and nothing is in both. The trace is legal, so the lemmas about legal traces apply.
   */
  lemma EveryRunConserves(maxConnections: nat, fromDb: bool, now: Time, tq: TQueue, inputs: seq<Input>)
    requires GoodStart(maxConnections, tq) && AdmissibleRun(Start(maxConnections, fromDb, now, tq), inputs)
    ensures var r := Run(Start(maxConnections, fromDb, now, tq), inputs);
            && r.Next? && LegalTrace(r.w.h.trace)
            && LoadedIds(r.w.h.trace) == r.w.a.updates.Keys + ForgottenIds(r.w.h.trace)
            && r.w.a.updates.Keys !! ForgottenIds(r.w.h.trace)
  {
    hide Partition, Schedule, Flights, Idle, Limits, Source, LegalTrace, Run, Start;
    StartHolds(maxConnections, fromDb, now, tq);
    RunKeeps(Start(maxConnections, fromDb, now, tq), inputs);
  }

  /** Limits: the loaded queues and the connections of any kind stay within their bounds, idle means no event. */
  lemma EveryRunIsBounded(maxConnections: nat, fromDb: bool, now: Time, tq: TQueue, inputs: seq<Input>)
    requires GoodStart(maxConnections, tq) && AdmissibleRun(Start(maxConnections, fromDb, now, tq), inputs)
    ensures var r := Run(Start(maxConnections, fromDb, now, tq), inputs);
            && r.Next? && |r.w.a.queueUpdates| <= r.w.a.maxLoaded == 2 * r.w.a.maxConnections
            && |r.w.a.connections| + |r.w.a.pendingSockets| + r.w.a.readySockets <= r.w.a.maxConnections
            && (forall c | c in r.w.a.connections :: c in r.w.a.ready <==> r.w.a.connections[c].eventId.None?)
  {
    hide Partition, Schedule, Flights, Source, Accounts, Requests, Run, Start;
    StartHolds(maxConnections, fromDb, now, tq);
    RunKeeps(Start(maxConnections, fromDb, now, tq), inputs);
  }

  // ---------- Why an event is forgotten ----------

  /**
   A step records that an event was answered exactly when a 2xx response arrived for it, and that it was dropped
   exactly when an error arrived and the next attempt would come after its expiry. Otherwise an error retries it.
   */
  lemma CauseOfForgetting(w: World, input: Input)
    requires Inv(w) && Admissible(w, input)
    requires input.OnHandle? && input.c in w.a.connections && w.a.connections[input.c].eventId.Some?
    ensures Step(w, input).Next?
    ensures var e := w.a.connections[input.c].eventId.value;
            && e in w.a.updates
            && var u := w.a.updates[e];
               var effective := Delays(u, RetryAfter(input.response), input.backoff).1;
               Step(w, input).w.h.trace == w.h.trace + [
                 if !IsError(input.response) then Answered(e, u.queueId)
                 else if input.unixNow + effective > u.expiresAt
                 then Expired(e, u.queueId, input.unixNow + effective, u.expiresAt)
                 else Retried(e, u.queueId)]
  {
    hide Inv;
    StepKeeps(w, input);
    BusyFacts(w, input.c);
    var e := w.a.connections[input.c].eventId.value;
    var w1 := w.(a := w.a.(first410 := First410(w.a, input.response, input.now)));
    assert Settle(w1, e, input.response, input.now, input.unixNow, input.backoff).Next?;
  }

  /** No other step forgets, retries or answers anything: it loads events, sends one request or leaves the trace. */
  lemma OnlyHandleForgets(w: World, input: Input)
    requires Step(w, input).Next?
    requires !(input.OnHandle? && input.c in w.a.connections && w.a.connections[input.c].eventId.Some?)
    ensures var t, t' := w.h.trace, Step(w, input).w.h.trace;
            t <= t' && forall i | |t| <= i < |t'| :: t'[i].Loaded? || t'[i].Sent?
  {
    if input.LoadUpdates? {
      var w1 := Positioned(w, input.getFails, input.head);
      var limit := Min(EVENT_BUFFER_SIZE, w.a.maxLoaded - |w.a.queueUpdates|);
      if limit > 0 && w1.a.tqueueOffset.Some? {
        var batch := Batch(w1.tq, w1.a.tqueueOffset.value, limit);
        LoadOnlyLoads(w1.(a := w1.a.(tqueueEmpty := batch == [])), batch, input.now);
      }
    }
  }

  lemma {:induction false} LoadOnlyLoads(w: World, batch: seq<Event>, now: Time)
    ensures var t, t' := w.h.trace, LoadAll(w, batch, now).h.trace;
            t <= t' && forall i | |t| <= i < |t'| :: t'[i].Loaded?
    decreases |batch|
  {
    if batch != [] {
      LoadOnlyLoads(LoadOne(w, batch[0], now), batch[1..], now);
    }
  }

  // ---------- An answer nobody asked for ----------

  /**
   A connection reads only once a request has been written to it, so an idle one never brings an answer. The scheduler
   relies on that: of all answers on an idle connection it would survive exactly the errors that close the connection; a
   success would fire a CHECK, and another error would put the connection into the ready list a second time.
   */
  lemma UnsolicitedAnswer(w: World, c: ConnectionId, response: Response, now: Time, unixNow: int, backoff: int)
    requires Inv(w) && c in w.a.connections && w.a.connections[c].eventId.None?
    ensures var r := Handle(w, c, Some(response), now, unixNow, backoff);
            r.Next? && Inv(r.w) <==>
            IsError(Some(response))
            && (ClosesConnection(Some(response), w.a.ipGeneration, w.a.connections[c].ipGeneration)
                || GivesUp(w.a, Some(response), now))
  {
    hide Partition, Schedule, Flights, Limits, Source, Accounts, Requests;
    var closes := ClosesConnection(Some(response), w.a.ipGeneration, w.a.connections[c].ipGeneration)
                  || GivesUp(w.a, Some(response), now);
    if IsError(Some(response)) {
      var w1 := w.(a := w.a.(first410 := First410(w.a, Some(response), now)));
      First410Keeps(w, First410(w.a, Some(response), now));
      if closes {
        IdleReleaseKeeps(w1, c);
      } else {
        ReadyTwice(w.a.ready, c);
      }
    }
  }

  lemma ReadyTwice(ready: seq<ConnectionId>, c: ConnectionId)
    requires c in ready
    ensures !Distinct(ready + [c])
  {
    var i :| 0 <= i < |ready| && ready[i] == c;
    assert !Differ(ready + [c], i, |ready|);
  }
}