/**
 What an answer of the webhook does, in terms of the answer itself: which event is forgotten, when one is tried again,
 what becomes of the connection; and that no event is sent before its time.
 */
module WebhookAnswers {
  import opened Common
  import opened WebhookSpec
  import opened WebhookSafety
  import opened WebhookDelivery

  // ---------- What becomes of the event ----------

  /** A status from 200 to 299 forgets the event, here and in TQueue, and nothing else. */
  lemma SuccessForgets(w: World, c: ConnectionId, e: EventId, answer: Response, now: Time, unixNow: int, backoff: int)
    requires Inv(w) && c in w.a.connections && w.a.connections[c].eventId == Some(e)
    requires answer.isResponse && 200 <= answer.code <= 299
    ensures var r := Handle(w, c, Some(answer), now, unixNow, backoff);
            && r.Next? && e in w.a.updates
            && r.w.h.trace == w.h.trace + [Answered(e, w.a.updates[e].queueId)]
            && r.w.a.updates == w.a.updates - {e} && r.w.a.lastSuccess == now && r.w.tq.tail == w.tq.tail
            && forall x :: x in r.w.tq.events <==> x in w.tq.events && x.id != e
  {
    hide Inv, Keep, Release, First410, GivesUp, ClosesConnection;
    HandleKeeps(w, c, Some(answer), now, unixNow, backoff);
    BusyFacts(w, c);
    ReleaseOnlyFrees(c);
  }

  /**
   Anything else, and a hangup, is an error. The event is tried again after the seconds a Retry-After of the response
   asks for, up to an hour; without one, at once after the first failure, and later after twice the delay of the time
   before or the backoff, whichever is less. It is dropped if and only if that is after it expires.
   */
  lemma ErrorPostpones(w: World, c: ConnectionId, e: EventId, answer: Option<Response>, now: Time, unixNow: int,
                       backoff: int)
    requires Inv(w) && c in w.a.connections && w.a.connections[c].eventId == Some(e)
    requires answer.Some? && answer.value.isResponse ==> answer.value.code < 200 || answer.value.code > 299
    ensures var r := Handle(w, c, answer, now, unixNow, backoff);
            && r.Next? && e in w.a.updates
            && var u := w.a.updates[e];
               var asked := if answer.Some? && answer.value.isResponse then answer.value.retryAfter else 0;
               var wait := if asked >= 1 then (if asked < 3600 then asked else 3600)
                           else if u.failCount == 0 then 0
                           else if backoff < 2 * u.delay then backoff else 2 * u.delay;
               var at := now + wait * 1_000_000_000;
               if unixNow + wait > u.expiresAt then
                 && r.w.h.trace == w.h.trace + [Expired(e, u.queueId, unixNow + wait, u.expiresAt)]
                 && r.w.a.updates == w.a.updates - {e}
                 && (forall x :: x in r.w.tq.events <==> x in w.tq.events && x.id != e)
               else
                 && r.w.h.trace == w.h.trace + [Retried(e, u.queueId)]
                 && r.w.a.updates == w.a.updates[
                      e := u.(wakeupAt := at, failCount := u.failCount + 1,
                              delay := if asked >= 1 || u.failCount == 0 then u.delay else wait)]
                 && r.w.a.queues == w.a.queues + {Entry(at, u.queueId)} && r.w.tq == w.tq
  {
    hide Inv, Keep, Release, First410, GivesUp, ClosesConnection, Settle, Delays;
    HandleKeeps(w, c, answer, now, unixNow, backoff);
    BusyFacts(w, c);
    ReleaseOnlyFrees(c);
    var w1 := w.(a := w.a.(first410 := First410(w.a, answer, now)));
    Postponed(w1, e, answer, now, unixNow, backoff);
  }

  lemma DropForgets(w: World, e: EventId, why: Label)
    ensures var r := DropEvent(w, e, why);
            r.Next? ==>
              && r.w.h.trace == w.h.trace + [why] && r.w.a.updates == w.a.updates - {e}
              && r.w.tq == w.tq.(events := Keep(w.tq.events, {e}))
              && r.w.a == w.a.(updates := r.w.a.updates, queueUpdates := r.w.a.queueUpdates, queues := r.w.a.queues)
  {
    hide Keep;
  }

  /** The same for the function that settles the request. */
  lemma Postponed(w: World, e: EventId, answer: Option<Response>, now: Time, unixNow: int, backoff: int)
    requires e in w.a.updates && IsError(answer)
    ensures var u, r := w.a.updates[e], Settle(w, e, answer, now, unixNow, backoff);
            var asked := if answer.Some? && answer.value.isResponse then answer.value.retryAfter else 0;
            var wait := if asked >= 1 then (if asked < 3600 then asked else 3600)
                        else if u.failCount == 0 then 0
                        else if backoff < 2 * u.delay then backoff else 2 * u.delay;
            var at := now + wait * 1_000_000_000;
            r.Next? ==>
              if unixNow + wait > u.expiresAt then
                && r.w.h.trace == w.h.trace + [Expired(e, u.queueId, unixNow + wait, u.expiresAt)]
                && r.w.a.updates == w.a.updates - {e} && r.w.tq == w.tq.(events := Keep(w.tq.events, {e}))
              else
                && r.w.h.trace == w.h.trace + [Retried(e, u.queueId)]
                && r.w.a.updates == w.a.updates[
                     e := u.(wakeupAt := at, failCount := u.failCount + 1,
                             delay := if asked >= 1 || u.failCount == 0 then u.delay else wait)]
                && r.w.a.queues == w.a.queues + {Entry(at, u.queueId)} && r.w.tq == w.tq
  {
    hide DropEvent;
    forall why {
      DropForgets(w, e, why);
    }
  }

  lemma ReleaseOnlyFrees(c: ConnectionId)
    ensures forall w': World, closes: bool | c in w'.a.connections ::
              var w2 := Release(w', c, closes);
              w2.a == w'.a.(connections := w2.a.connections, ready := w2.a.ready) && w2.tq == w'.tq && w2.h == w'.h
  {
  }

  // ---------- What becomes of the connection ----------

  /**
   The connection can be used again if and only if the answer is a response that keeps it alive, the address is still
   the one it was opened for, and the webhook has not been answering 410 for more than 23 hours. Since when it has been
   answering so is forgotten with any other response.
   */
  lemma AnswerFreesConnection(w: World, c: ConnectionId, answer: Option<Response>, now: Time, unixNow: int,
                              backoff: int)
    requires Inv(w) && c in w.a.connections && w.a.connections[c].eventId.Some?
    ensures var r := Handle(w, c, answer, now, unixNow, backoff);
            && r.Next?
            && var http := answer.Some? && answer.value.isResponse;
               var since := w.a.first410;
               var reused := http && answer.value.keepAlive && w.a.connections[c].ipGeneration == w.a.ipGeneration
                             && !(answer.value.code == 410 && since != 0 && since + 82_800_000_000_000 < now);
               && (if reused then
                     && c in r.w.a.connections && r.w.a.connections[c] == w.a.connections[c].(eventId := None)
                     && r.w.a.ready == w.a.ready + [c]
                   else
                     c !in r.w.a.connections && c !in r.w.a.ready)
               && (forall d | d != c :: d in r.w.a.connections <==> d in w.a.connections)
               && (forall d | d != c && d in w.a.connections :: r.w.a.connections[d] == w.a.connections[d])
               && r.w.a.ipGeneration == w.a.ipGeneration
               && r.w.a.first410 == (if !http then since else if answer.value.code != 410 then 0
                                     else if since == 0 then now else since)
  {
    hide Inv, Settle;
    HandleKeeps(w, c, answer, now, unixNow, backoff);
    var w1 := w.(a := w.a.(first410 := First410(w.a, answer, now)));
    SettleKeepsConnections(w1, w.a.connections[c].eventId.value, answer, now, unixNow, backoff);
  }

  /** Once the address has changed, an answer on a connection that was there before ends that connection. */
  lemma OldConnectionsClose(w: World, c: ConnectionId, answer: Option<Response>, now: Time, unixNow: int, backoff: int)
    requires Inv(w) && c in w.a.connections && w.a.connections[c].eventId.Some?
    requires w.a.connections[c].ipGeneration <= w.a.ipGeneration
    ensures Step(w, NewAddress).Next?
    ensures var r := Handle(Step(w, NewAddress).w, c, answer, now, unixNow, backoff);
            r.Next? && c !in r.w.a.connections
  {
    hide Inv, Handle, Step;
    StepKeeps(w, NewAddress);
    AddressChanges(w);
    AnswerFreesConnection(Step(w, NewAddress).w, c, answer, now, unixNow, backoff);
  }

  lemma AddressChanges(w: World)
    ensures Step(w, NewAddress) == Next(w.(a := w.a.(ipGeneration := w.a.ipGeneration + 1)))
  {
  }

  lemma SettleKeepsConnections(w: World, e: EventId, answer: Option<Response>, now: Time, unixNow: int, backoff: int)
    ensures var r := Settle(w, e, answer, now, unixNow, backoff);
            r.Next? ==> && r.w.a.connections == w.a.connections && r.w.a.ready == w.a.ready
                        && r.w.a.first410 == w.a.first410 && r.w.a.ipGeneration == w.a.ipGeneration
  {
    hide DropEvent, Delays, IsError, RetryAfter;
    forall w': World, why {
      DropForgets(w', e, why);
    }
  }

  // ---------- When an event is sent ----------

  /**
   An attempt sends the front event of a scheduled queue over the idle connection that waits longest. The time of that
   event has come, and no scheduled queue has an earlier one.
   */
  lemma SentWhenDue(w: World, now: Time, badHeaders: set<EventId>)
    requires Inv(w) && Sends(w, now, badHeaders)
    ensures var r := SendUpdate(w, now, badHeaders);
            && r.Next? && |r.w.h.trace| == |w.h.trace| + 1 && r.w.h.trace[..|w.h.trace|] == w.h.trace
            && var l := r.w.h.trace[|w.h.trace|];
               && l.Sent? && w.a.ready != [] && l.c == w.a.ready[0] && r.w.a.ready == w.a.ready[1..]
               && l.c in r.w.a.connections && r.w.a.connections[l.c].eventId == Some(l.e)
               && l.q in w.a.queueUpdates && w.a.queueUpdates[l.q] != [] && l.e == w.a.queueUpdates[l.q][0]
               && l.e in w.a.updates && w.a.updates[l.e].wakeupAt <= now
               && (forall x | x in w.a.queues :: w.a.updates[l.e].wakeupAt <= x.wakeupAt)
               && l.e in r.w.a.updates && r.w.a.updates[l.e] == w.a.updates[l.e].(lastSendTime := now)
  {
    hide Inv, First, DistinctQueues;
    SendUpdateKeeps(w, now, badHeaders);
    ScheduledFacts(w, First(w.a.queues));
    assert IsFirst(w.a.queues, First(w.a.queues));
  }

  ghost predicate Carried(a: Actor, e: EventId) {
    exists c :: c in a.connections && a.connections[c].eventId == Some(e)
  }

  /** The event waits with the same time as before, and was not sent in between. */
  ghost predicate StillWaits(w: World, w': World, e: EventId) {
    && e in w.a.updates && e in w'.a.updates && w'.a.updates[e].wakeupAt == w.a.updates[e].wakeupAt
    && !Carried(w.a, e) && !Carried(w'.a, e) && w.h.trace <= w'.h.trace
    && forall i | |w.h.trace| <= i < |w'.h.trace| && w'.h.trace[i].Sent? :: w'.h.trace[i].e != e
  }

  lemma StillWaitsOn(w: World, w1: World, w2: World, e: EventId)
    requires StillWaits(w, w1, e) && StillWaits(w1, w2, e)
    ensures StillWaits(w, w2, e)
  {
    forall i | |w.h.trace| <= i < |w2.h.trace| && w2.h.trace[i].Sent?
      ensures w2.h.trace[i].e != e
    {
      assert i < |w1.h.trace| ==> w1.h.trace[i] == w2.h.trace[i];
    }
  }

  lemma {:induction false} LoadingWaits(w: World, batch: seq<Event>, now: Time, e: EventId)
    requires StillWaits(w, w, e)
    ensures StillWaits(w, LoadAll(w, batch, now), e)
    decreases |batch|
  {
    if batch != [] {
      LoadingOneWaits(w, batch[0], now, e);
      hide LoadOne, StillWaits;
      SameWaits(w, LoadOne(w, batch[0], now), e);
      LoadingWaits(LoadOne(w, batch[0], now), batch[1..], now, e);
      StillWaitsOn(w, LoadOne(w, batch[0], now), LoadAll(w, batch, now), e);
    }
  }

  lemma LoadingOneWaits(w: World, x: Event, now: Time, e: EventId)
    requires StillWaits(w, w, e)
    ensures StillWaits(w, LoadOne(w, x, now), e)
  {
  }

  lemma SameWaits(w: World, w': World, e: EventId)
    requires StillWaits(w, w', e)
    ensures StillWaits(w', w', e)
  {
  }

  lemma LoadWaits(w: World, input: Input, e: EventId)
    requires StillWaits(w, w, e) && input.LoadUpdates? && Step(w, input).Next?
    ensures StillWaits(w, Step(w, input).w, e)
  {
    var w1 := Positioned(w, input.getFails, input.head);
    var limit := Min(EVENT_BUFFER_SIZE, w.a.maxLoaded - |w.a.queueUpdates|);
    if limit > 0 {
      var batch := if w1.a.tqueueOffset.None? then [] else Batch(w1.tq, w1.a.tqueueOffset.value, limit);
      var w2 := w1.(a := w1.a.(tqueueEmpty := batch == []));
      assert StillWaits(w, w2, e) && StillWaits(w2, w2, e);
      LoadingWaits(w2, batch, input.now, e);
      StillWaitsOn(w, w2, LoadAll(w2, batch, input.now), e);
    }
  }

  lemma SendWaits(w: World, input: Input, e: EventId)
    requires Inv(w) && StillWaits(w, w, e) && input.TrySend? && input.now < w.a.updates[e].wakeupAt
    requires Step(w, input).Next?
    ensures StillWaits(w, Step(w, input).w, e)
  {
    hide Inv, First;
    if w.a.queues != {} {
      ScheduledFacts(w, First(w.a.queues));
    }
  }

  lemma HandleWaits(w: World, input: Input, e: EventId)
    requires Inv(w) && Admissible(w, input) && StillWaits(w, w, e) && input.OnHandle? && Step(w, input).Next?
    ensures StillWaits(w, Step(w, input).w, e)
  {
    hide Inv, Settle, IsError, ClosesConnection, GivesUp;
    if input.c in w.a.connections && w.a.connections[input.c].eventId.Some? {
      BusyFacts(w, input.c);
      var w1 := w.(a := w.a.(first410 := First410(w.a, input.response, input.now)));
      var f := w.a.connections[input.c].eventId.value;
      SettleKeepsConnections(w1, f, input.response, input.now, input.unixNow, input.backoff);
      SettleWaits(w1, f, input.response, input.now, input.unixNow, input.backoff, e);
    }
  }

  /** Settling a request says nothing about another event. */
  lemma SettleWaits(w: World, f: EventId, answer: Option<Response>, now: Time, unixNow: int, backoff: int, e: EventId)
    requires StillWaits(w, w, e) && f != e && f in w.a.updates
    ensures var r := Settle(w, f, answer, now, unixNow, backoff); r.Next? ==> StillWaits(w, r.w, e)
  {
    hide DropEvent, Delays, IsError, RetryAfter;
    forall w': World, why {
      DropForgets(w', f, why);
    }
  }

  lemma ConnectionsWait(w: World, input: Input, e: EventId)
    requires StillWaits(w, w, e) && input.NewConnections?
    ensures StillWaits(w, Step(w, input).w, e)
  {
    hide OpenNew, UseReady;
    var need := NeedConnections(w.a, input.now);
    OpensIdle(w.a, need, input.attempts);
    UsesIdle(OpenNew(w.a, need, input.attempts).0, need, input.succeeds, 0);
    var a' := CreateConnections(w.a, input.now, input.usable, input.attempts, input.succeeds);
    assert AddsIdle(w.a, a');
  }

  /** Only idle connections are added, and what is delivered is left alone. */
  ghost predicate AddsIdle(a: Actor, a': Actor) {
    && a'.updates == a.updates
    && forall c | c in a'.connections && a'.connections[c].eventId.Some? ::
         c in a.connections && a.connections[c] == a'.connections[c]
  }

  lemma {:induction false} OpensIdle(a: Actor, need: nat, attempts: seq<Attempt>)
    ensures AddsIdle(a, OpenNew(a, need, attempts).0)
    decreases |attempts|
  {
    if attempts != [] {
      hide Total, OnError;
      OpensIdle(Connect(a), need, attempts[1..]);
    }
  }

  lemma {:induction false} UsesIdle(a: Actor, need: nat, succeeds: nat -> bool, k: nat)
    ensures AddsIdle(a, UseReady(a, need, succeeds, k))
    decreases a.readySockets
  {
    if a.readySockets > 0 {
      UsesIdle(Connect(a.(readySockets := a.readySockets - 1)), need, succeeds, k + 1);
    }
  }

  lemma StepWaits(w: World, input: Input, e: EventId)
    requires Inv(w) && Admissible(w, input) && StillWaits(w, w, e)
    requires input.TrySend? ==> input.now < w.a.updates[e].wakeupAt
    ensures Step(w, input).Next? && StillWaits(w, Step(w, input).w, e)
  {
    hide Inv, Step, StillWaits, Admissible;
    StepKeeps(w, input);
    match input
    case LoadUpdates(_, _, _, _) => LoadWaits(w, input, e);
    case TrySend(_, _) => SendWaits(w, input, e);
    case OnHandle(_, _, _, _, _) => HandleWaits(w, input, e);
    case NewConnections(_, _, _, _) => ConnectionsWait(w, input, e);
    case _ => OthersWait(w, input, e);
  }

  lemma OthersWait(w: World, input: Input, e: EventId)
    requires StillWaits(w, w, e) && Step(w, input).Next?
    requires input.Push? || input.Vanish? || input.NewUpdates? || input.OnSocketReady? || input.NewAddress?
    ensures StillWaits(w, Step(w, input).w, e)
  {
  }

  lemma WaitsNow(w: World, e: EventId)
    requires e in w.a.updates && !Carried(w.a, e)
    ensures StillWaits(w, w, e)
  {
  }

  lemma WaitsAfter(w: World, w': World, e: EventId)
    requires StillWaits(w, w', e)
    ensures e in w'.a.updates && !Carried(w'.a, e) && w'.a.updates[e].wakeupAt == w.a.updates[e].wakeupAt
  {
  }

  lemma LaterBefore(inputs: seq<Input>, at: Time)
    requires AllBefore(inputs, at) && inputs != []
    ensures AllBefore(inputs[1..], at) && (inputs[0].TrySend? ==> inputs[0].now < at)
  {
    assert forall i | 0 <= i < |inputs| - 1 :: inputs[1..][i] == inputs[i + 1];
  }

  /** No attempt of the run comes at or after the time. */
  predicate AllBefore(inputs: seq<Input>, at: Time) {
    forall i | 0 <= i < |inputs| && inputs[i].TrySend? :: inputs[i].now < at
  }

  /**
   An event that waits for its next attempt is not sent before that time, nor is the time changed, whatever is loaded,
   answered, connected and sent in the meantime.
   */
  lemma {:induction false} NotSentBeforeItsTime(w: World, inputs: seq<Input>, e: EventId)
    requires Inv(w) && AdmissibleRun(w, inputs) && e in w.a.updates && !Carried(w.a, e)
    requires AllBefore(inputs, w.a.updates[e].wakeupAt)
    ensures Run(w, inputs).Next? && StillWaits(w, Run(w, inputs).w, e)
    decreases |inputs|
  {
    hide Inv, Step, StillWaits, Carried, Admissible, AllBefore;
    WaitsNow(w, e);
    if inputs != [] {
      StepKeeps(w, inputs[0]);
      LaterBefore(inputs, w.a.updates[e].wakeupAt);
      StepWaits(w, inputs[0], e);
      WaitsAfter(w, Step(w, inputs[0]).w, e);
      NotSentBeforeItsTime(Step(w, inputs[0]).w, inputs[1..], e);
      StillWaitsOn(w, Step(w, inputs[0]).w, Run(w, inputs).w, e);
    }
  }
}
