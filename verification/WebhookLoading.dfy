/**
 Which events load_updates loads and into which queues, when the scheduler may stop looking into TQueue, and that
 looking often enough loads every event.
 */
module WebhookLoading {
  import opened Common
  import opened WebhookSpec
  import opened WebhookSafety
  import opened WebhookDelivery
  import opened WebhookAnswers

  // ---------- One load ----------

  /** Where a load starts: at the head the first time and after a refused offset. */
  function LoadStart(a: Actor, getFails: bool, head: Option<EventId>): Option<EventId> {
    if a.tqueueOffset.None? || getFails then head else a.tqueueOffset
  }

  lemma PositionedAt(w: World, getFails: bool, head: Option<EventId>)
    ensures var w1 := Positioned(w, getFails, head);
            w1.tq == w.tq && w1.h.trace == w.h.trace
            && w1.a == w.a.(tqueueOffset := LoadStart(w.a, getFails, head))
  {
  }

  function IdsOf(events: seq<Event>): set<EventId> {
    set x | x in events :: x.id
  }

  /** What loading events one after the other comes to. */
  lemma {:induction false} LoadAllTakes(w: World, batch: seq<Event>, now: Time)
    ensures var w' := LoadAll(w, batch, now);
            && w'.tq == w.tq && w'.a.tqueueEmpty == w.a.tqueueEmpty && (batch == [] ==> w' == w)
            && w'.a.updates.Keys == w.a.updates.Keys + IdsOf(batch)
            && (forall e | e in w.a.updates :: w'.a.updates[e] == w.a.updates[e])
    decreases |batch|
  {
    if batch != [] {
      var w1 := LoadOne(w, batch[0], now);
      assert w1.a.updates.Keys == w.a.updates.Keys + {batch[0].id};
      LoadAllTakes(w1, batch[1..], now);
      assert batch == [batch[0]] + batch[1..];
      assert IdsOf(batch) == {batch[0].id} + IdsOf(batch[1..]);
    } else {
      assert w.a.updates.Keys + IdsOf(batch) == w.a.updates.Keys;
    }
  }

  /** None of these events has been loaded, and they come in their order. */
  predicate AllNew(us: Updates, batch: seq<Event>) {
    Ascending(batch) && forall x | x in batch :: x.id !in us
  }

  lemma {:induction false} LoadAllMovesOffset(w: World, batch: seq<Event>, now: Time)
    requires AllNew(w.a.updates, batch)
    ensures LoadAll(w, batch, now).a.tqueueOffset
            == if batch == [] then w.a.tqueueOffset else Some(batch[|batch| - 1].id + 1)
    decreases |batch|
  {
    if batch != [] {
      AscendingRest(batch);
      hide Ascending;
      LoadAllMovesOffset(LoadOne(w, batch[0], now), batch[1..], now);
    }
  }

  /** Every event that was ever loaded and is not answered yet lies before the offset. */
  predicate InStep(a: Actor) {
    forall e | e in a.updates :: a.tqueueOffset.Some? && e < a.tqueueOffset.value
  }

  /** As many of the waiting events as the buffer has room for and the actor may have queues. */
  function Room(a: Actor): int {
    if a.maxLoaded - |a.queueUpdates| < 1000 then a.maxLoaded - |a.queueUpdates| else 1000
  }

  /** Events `k` to `k + n` of TQueue are loaded: the first ones from the start on. */
  ghost predicate Takes(w: World, w': World, start: Option<EventId>, k: nat, n: nat) {
    var events := w.tq.events;
    && k + n <= |events| && w'.tq == w.tq
    && (start.None? ==> events == [])
    && (start.Some? ==> forall i | 0 <= i < |events| :: i < k <==> events[i].id < start.value)
    && n == (if |events| - k < Room(w.a) then |events| - k else Room(w.a))
    && w'.a.updates.Keys == w.a.updates.Keys + IdsOf(events[k..k + n])
    && (w'.a.tqueueEmpty <==> n == 0)
    && (n == 0 ==> w'.a.tqueueOffset == start)
  }

  /**
   A load takes the first events from its start on, as many as there is room for, and it finds TQueue empty if and only
   if there are none. As long as offsets are not refused, all of them are new and the offset moves right behind them.
   */
  lemma LoadTakes(w: World, now: Time, unixNow: int, getFails: bool, head: Option<EventId>) returns (k: nat, n: nat)
    requires Inv(w) && HeadOk(w.tq, head) && Fresh(w, unixNow, getFails, head)
    requires !w.a.tqueueEmpty && |w.a.queueUpdates| < w.a.maxLoaded
    ensures var r := Load(w, now, unixNow, getFails, head);
            && r.Next? && Takes(w, r.w, LoadStart(w.a, getFails, head), k, n)
            && (InStep(w.a) && !getFails ==>
                  && AllNew(w.a.updates, w.tq.events[k..k + n]) && InStep(r.w.a)
                  && (n > 0 ==> r.w.a.tqueueOffset == Some(w.tq.events[k + n - 1].id + 1)))
  {
    hide Inv, HeadOk, Fresh, Positioned, Takes, LoadAll, InStep, AllNew, Batch, Load;
    LoadKeeps(w, now, unixNow, getFails, head);
    PositionedAt(w, getFails, head);
    var start := LoadStart(w.a, getFails, head);
    EventsAscend(w);
    k, n := BatchAt(w, start, Room(w.a), getFails, head);
    var batch := w.tq.events[k..k + n];
    LoadIsBatch(w, now, unixNow, getFails, head);
    var w2 := Looked(w, getFails, head, batch);
    LoadAllTakes(w2, batch, now);
    TakesAll(w, w2, LoadAll(w2, batch, now), start, k, n);
    if InStep(w.a) && !getFails {
      NewFromStart(w, head, k, n);
      LoadAllMovesOffset(w2, batch, now);
      MovesInStep(w, LoadAll(w2, batch, now), start, k, n);
    }
  }

  lemma MovesInStep(w: World, w': World, start: Option<EventId>, k: nat, n: nat)
    requires Takes(w, w', start, k, n) && InStep(w.a) && AllNew(w.a.updates, w.tq.events[k..k + n])
    requires n > 0 ==> w'.a.tqueueOffset == Some(w.tq.events[k + n - 1].id + 1)
    requires w.a.tqueueOffset.Some? ==> start == w.a.tqueueOffset
    ensures InStep(w'.a)
  {
    hide InStep, AllNew;
    StaysInStep(w, w', k, n);
  }

  /** TQueue has been asked and has answered with the batch. */
  function Looked(w: World, getFails: bool, head: Option<EventId>, batch: seq<Event>): World {
    var w1 := Positioned(w, getFails, head);
    w1.(a := w1.a.(tqueueEmpty := batch == []))
  }

  lemma LoadIsBatch(w: World, now: Time, unixNow: int, getFails: bool, head: Option<EventId>)
    requires !w.a.tqueueEmpty && |w.a.queueUpdates| < w.a.maxLoaded
    requires Load(w, now, unixNow, getFails, head).Next?
    ensures var start := LoadStart(w.a, getFails, head);
            var batch := if start.None? then [] else Batch(w.tq, start.value, Room(w.a));
            Load(w, now, unixNow, getFails, head).w == LoadAll(Looked(w, getFails, head, batch), batch, now)
  {
    hide Positioned, Batch, LoadAll;
    PositionedAt(w, getFails, head);
  }

  lemma EventsAscend(w: World)
    requires Inv(w)
    ensures Ascending(w.tq.events)
  {
    hide Partition, Schedule, Flights, Idle, Limits, Accounts, Requests, Ascending;
  }

  lemma BatchAt(w: World, start: Option<EventId>, limit: nat, getFails: bool, head: Option<EventId>)
    returns (k: nat, n: nat)
    requires Ascending(w.tq.events) && HeadOk(w.tq, head) && start == LoadStart(w.a, getFails, head)
    ensures k + n <= |w.tq.events| && (start.None? ==> w.tq.events == [])
    ensures start.Some? ==> forall i | 0 <= i < |w.tq.events| :: i < k <==> w.tq.events[i].id < start.value
    ensures n == (if |w.tq.events| - k < limit then |w.tq.events| - k else limit)
    ensures (if start.None? then [] else Batch(w.tq, start.value, limit)) == w.tq.events[k..k + n]
  {
    var events := w.tq.events;
    if start.None? {
      k, n := 0, 0;
    } else {
      k := From(events, start.value);
      n := if |events| - k < limit then |events| - k else limit;
      forall i | k <= i < |events|
        ensures start.value <= events[i].id
      {
        assert i > k ==> Earlier(events, k, i);
      }
    }
  }

  lemma TakesAll(w: World, w2: World, w': World, start: Option<EventId>, k: nat, n: nat)
    requires k + n <= |w.tq.events| && (start.None? ==> w.tq.events == [])
    requires start.Some? ==> forall i | 0 <= i < |w.tq.events| :: i < k <==> w.tq.events[i].id < start.value
    requires n == (if |w.tq.events| - k < Room(w.a) then |w.tq.events| - k else Room(w.a))
    requires w2.a == w.a.(tqueueOffset := start, tqueueEmpty := w.tq.events[k..k + n] == []) && w'.tq == w.tq
    requires w'.a.tqueueEmpty == w2.a.tqueueEmpty
    requires w'.a.updates.Keys == w2.a.updates.Keys + IdsOf(w.tq.events[k..k + n])
    requires n == 0 ==> w' == w2
    ensures Takes(w, w', start, k, n)
  {
  }

  /** Events at the offset or behind it have never been loaded. */
  lemma NewFromStart(w: World, head: Option<EventId>, k: nat, n: nat)
    requires Inv(w) && InStep(w.a) && HeadOk(w.tq, head) && k + n <= |w.tq.events|
    requires var start := LoadStart(w.a, false, head);
             && (start.None? ==> w.tq.events == [])
             && (start.Some? ==> forall i | k <= i < |w.tq.events| :: start.value <= w.tq.events[i].id)
    ensures AllNew(w.a.updates, w.tq.events[k..k + n])
  {
    var events, batch := w.tq.events, w.tq.events[k..k + n];
    EventsAscend(w);
    hide Inv, HeadOk;
    forall i, j | 0 <= i < j < |batch|
      ensures Earlier(batch, i, j)
    {
      assert Earlier(events, k + i, k + j);
    }
    forall x | x in batch
      ensures x.id !in w.a.updates
    {
      var i :| 0 <= i < |batch| && batch[i] == x;
      assert events[k + i] == x;
    }
  }

  lemma StaysInStep(w: World, w': World, k: nat, n: nat)
    requires k + n <= |w.tq.events| && InStep(w.a) && AllNew(w.a.updates, w.tq.events[k..k + n])
    requires w'.a.updates.Keys == w.a.updates.Keys + IdsOf(w.tq.events[k..k + n])
    requires n > 0 ==> w'.a.tqueueOffset == Some(w.tq.events[k + n - 1].id + 1)
    requires n > 0 && w.a.tqueueOffset.Some? ==> w.a.tqueueOffset.value <= w.tq.events[k].id
    requires n == 0 && w.a.tqueueOffset.Some? ==> w'.a.tqueueOffset == w.a.tqueueOffset
    ensures InStep(w'.a)
  {
    var batch := w.tq.events[k..k + n];
    forall e | e in w'.a.updates
      ensures w'.a.tqueueOffset.Some? && e < w'.a.tqueueOffset.value
    {
      if e in w.a.updates {
        assert n > 1 ==> Earlier(batch, 0, n - 1);
      } else {
        var x :| x in batch && x.id == e;
        var i :| 0 <= i < |batch| && batch[i] == x;
        assert i < n - 1 ==> Earlier(batch, i, n - 1);
      }
    }
  }

  // ---------- Into which queues ----------

  /** A new event is due at once; it asks for its queue, or gets one of the numbers from `first` to `next`. */
  predicate Queued(u: Update, x: Event, now: Time, first: QueueId, next: QueueId) {
    && u == Update(u.queueId, x.expiresAt, 1, 0, now, 0)
    && (if x.extra != 0 then u.queueId == x.extra else first <= u.queueId < next)
  }

  lemma {:induction false} LoadAllQueues(w: World, batch: seq<Event>, now: Time)
    requires Ascending(batch)
    ensures var a' := LoadAll(w, batch, now).a;
            && w.a.uniqueQueueId <= a'.uniqueQueueId
            && (forall x | x in batch && x.id !in w.a.updates ::
                  x.id in a'.updates && Queued(a'.updates[x.id], x, now, w.a.uniqueQueueId, a'.uniqueQueueId))
            && (forall x, y | x in batch && y in batch && x.id !in w.a.updates && y.id !in w.a.updates
                              && x.extra == y.extra == 0 && x.id < y.id ::
                  a'.updates[x.id].queueId < a'.updates[y.id].queueId)
    decreases |batch|
  {
    if batch != [] {
      var w1, rest := LoadOne(w, batch[0], now), batch[1..];
      AscendingRest(batch);
      LoadAllQueues(w1, rest, now);
      LoadAllTakes(w1, rest, now);
      var a' := LoadAll(w, batch, now).a;
      assert forall x | x in batch :: x == batch[0] || x in rest;
      hide Ascending, LoadAll, LoadOne;
      FirstQueued(w, batch[0], now);
    }
  }

  lemma FirstQueued(w: World, x: Event, now: Time)
    ensures var a' := LoadOne(w, x, now).a;
            && w.a.uniqueQueueId <= a'.uniqueQueueId
            && a'.updates.Keys == w.a.updates.Keys + {x.id}
            && (x.id !in w.a.updates ==>
                  && Queued(a'.updates[x.id], x, now, w.a.uniqueQueueId, a'.uniqueQueueId))
  {
  }

  /**
   Every event a load brings joins the queue it names; one that names none gets a queue number of its own, larger than
   any given before. It is due at once, with its own expiry, the shortest delay and no failure.
   */
  lemma LoadedIntoQueues(w: World, now: Time, unixNow: int, getFails: bool, head: Option<EventId>)
    requires Inv(w) && HeadOk(w.tq, head) && Fresh(w, unixNow, getFails, head)
    ensures var r := Load(w, now, unixNow, getFails, head);
            && r.Next? && w.a.uniqueQueueId <= r.w.a.uniqueQueueId
            && (forall x | x in w.tq.events && x.id in r.w.a.updates && x.id !in w.a.updates ::
                  Queued(r.w.a.updates[x.id], x, now, w.a.uniqueQueueId, r.w.a.uniqueQueueId))
            && (forall x, y | x in w.tq.events && y in w.tq.events && x.id in r.w.a.updates && y.id in r.w.a.updates
                              && x.id !in w.a.updates && y.id !in w.a.updates
                              && x.extra == y.extra == 0 && x.id < y.id ::
                  r.w.a.updates[x.id].queueId < r.w.a.updates[y.id].queueId)
  {
    hide Inv, HeadOk, Fresh, LoadAll, Positioned, Batch, Takes, Load;
    LoadKeeps(w, now, unixNow, getFails, head);
    if !w.a.tqueueEmpty && |w.a.queueUpdates| < w.a.maxLoaded {
      PositionedAt(w, getFails, head);
      EventsAscend(w);
      var k, n := BatchAt(w, LoadStart(w.a, getFails, head), Room(w.a), getFails, head);
      var batch := w.tq.events[k..k + n];
      LoadIsBatch(w, now, unixNow, getFails, head);
      SliceAscends(w.tq.events, k, n);
      LoadAllQueues(Looked(w, getFails, head, batch), batch, now);
      LoadAllTakes(Looked(w, getFails, head, batch), batch, now);
      hide Queued;
      SameIds(w, batch);
    } else {
      NothingLoaded(w, now, unixNow, getFails, head);
    }
  }

  lemma NothingLoaded(w: World, now: Time, unixNow: int, getFails: bool, head: Option<EventId>)
    requires w.a.tqueueEmpty || |w.a.queueUpdates| >= w.a.maxLoaded
    ensures var r := Load(w, now, unixNow, getFails, head); r.Next? ==> r.w == w
  {
  }

  lemma SliceAscends(events: seq<Event>, k: nat, n: nat)
    requires Ascending(events) && k + n <= |events|
    ensures Ascending(events[k..k + n])
  {
    var batch := events[k..k + n];
    forall i, j | 0 <= i < j < |batch|
      ensures Earlier(batch, i, j)
    {
      assert Earlier(events, k + i, k + j);
    }
  }

  /** An event of TQueue whose id is among those of a batch is in the batch. */
  lemma SameIds(w: World, batch: seq<Event>)
    requires Ascending(w.tq.events) && forall x | x in batch :: x in w.tq.events
    ensures forall x | x in w.tq.events && x.id in IdsOf(batch) :: x in batch
  {
    hide Ascending;
    forall x | x in w.tq.events && x.id in IdsOf(batch)
      ensures x in batch
    {
      var y :| y in batch && y.id == x.id;
      IdsDiffer(w.tq.events, x, y);
    }
  }

  lemma IdsDiffer(events: seq<Event>, x: Event, y: Event)
    requires Ascending(events) && x in events && y in events
    ensures x != y ==> x.id != y.id
  {
    var i :| 0 <= i < |events| && events[i] == x;
    var j :| 0 <= j < |events| && events[j] == y;
    var low, high := Min(i, j), Max(i, j);
    assert low < high ==> Earlier(events, low, high);
  }

  // ---------- When TQueue is taken to be empty ----------

  predicate IsPast(a: Actor, x: Event) {
    a.tqueueOffset.None? || a.tqueueOffset.value <= x.id
  }

  /** Only a load turns the flag on, and only when TQueue holds nothing at its offset or behind it. */
  lemma FlagTurnsOn(w: World, input: Input)
    requires Inv(w) && Admissible(w, input) && !w.a.tqueueEmpty
    ensures Step(w, input).Next?
    ensures Step(w, input).w.a.tqueueEmpty ==>
              input.LoadUpdates? && forall x | x in Step(w, input).w.tq.events :: !IsPast(Step(w, input).w.a, x)
  {
    hide Inv, IsPast, Takes, Load, InStep, AllNew;
    StepKeeps(w, input);
    if input.LoadUpdates? && |w.a.queueUpdates| < w.a.maxLoaded {
      var k, n := LoadTakes(w, input.now, input.unixNow, input.getFails, input.head);
      NothingPast(w, Step(w, input).w, LoadStart(w.a, input.getFails, input.head), k, n);
    } else {
      hide Step;
      FlagStaysOff(w, input);
    }
  }

  lemma NothingPast(w: World, w': World, start: Option<EventId>, k: nat, n: nat)
    requires Takes(w, w', start, k, n) && 0 < Room(w.a)
    ensures w'.a.tqueueEmpty ==> forall x | x in w'.tq.events :: !IsPast(w'.a, x)
  {
  }

  lemma FlagStaysOff(w: World, input: Input)
    requires !w.a.tqueueEmpty && Step(w, input).Next?
    requires input.LoadUpdates? ==> |w.a.queueUpdates| >= w.a.maxLoaded
    ensures !Step(w, input).w.a.tqueueEmpty
  {
    match input
    case OnHandle(c, response, now, unixNow, backoff) => HandleKeepsReading(w, c, response, now, unixNow, backoff);
    case NewConnections(now, usable, attempts, succeeds) =>
      ConnectionsKeepReading(w.a, now, usable, attempts, succeeds);
    case _ =>
  }

  /** While the flag is on TQueue is not read, and an announcement of new updates turns it off. */
  lemma WhileFlagged(w: World, input: Input)
    requires w.a.tqueueEmpty && Step(w, input).Next? && Step(w, input).w.a.tqueueEmpty
    ensures input != NewUpdates && Step(w, input).w.a.tqueueOffset == w.a.tqueueOffset
    ensures forall x | x in Step(w, input).w.tq.events :: x in w.tq.events || input == Push(x)
  {
    match input
    case OnHandle(c, response, now, unixNow, backoff) => HandleKeepsReading(w, c, response, now, unixNow, backoff);
    case NewConnections(now, usable, attempts, succeeds) =>
      ConnectionsKeepReading(w.a, now, usable, attempts, succeeds);
    case _ =>
  }

  /** The position in TQueue is the same, and events were forgotten here and there, or nowhere. */
  ghost predicate KeepsReading(w: World, w': World) {
    && w'.a.tqueueEmpty == w.a.tqueueEmpty && w'.a.tqueueOffset == w.a.tqueueOffset
    && exists gone: set<EventId> :: Forgotten(w, w', gone)
  }

  predicate Forgotten(w: World, w': World, gone: set<EventId>) {
    && gone <= w.a.updates.Keys
    && w'.a.updates.Keys == w.a.updates.Keys - gone && w'.tq.events == Keep(w.tq.events, gone)
  }

  lemma {:induction false} KeepAll(events: seq<Event>)
    ensures Keep(events, {}) == events
  {
    if events != [] {
      KeepAll(events[1..]);
    }
  }

  lemma HandleKeepsReading(w: World, c: ConnectionId, response: Option<Response>, now: Time, unixNow: int, backoff: int)
    ensures var r := Handle(w, c, response, now, unixNow, backoff); r.Next? ==> KeepsReading(w, r.w)
  {
    hide Keep, Settle;
    KeepAll(w.tq.events);
    assert Forgotten(w, w, {});
    if c in w.a.connections && w.a.connections[c].eventId.Some? {
      var w1 := w.(a := w.a.(first410 := First410(w.a, response, now)));
      var e := w.a.connections[c].eventId.value;
      SettleKeepsReading(w1, e, response, now, unixNow, backoff);
      var r, r' := Settle(w1, e, response, now, unixNow, backoff), Handle(w, c, response, now, unixNow, backoff);
      if r'.Next? {
        var gone :| Forgotten(w1, r.w, gone);
        assert Forgotten(w, r'.w, gone);
      }
    } else {
      assert Handle(w, c, response, now, unixNow, backoff).Next? ==>
          Forgotten(w, Handle(w, c, response, now, unixNow, backoff).w, {});
    }
  }

  lemma SettleKeepsReading(w: World, e: EventId, answer: Option<Response>, now: Time, unixNow: int, backoff: int)
    ensures var r := Settle(w, e, answer, now, unixNow, backoff); r.Next? ==> KeepsReading(w, r.w)
  {
    hide DropEvent, Delays, IsError, RetryAfter, Keep;
    var r := Settle(w, e, answer, now, unixNow, backoff);
    KeepAll(w.tq.events);
    forall w': World, why {
      DropForgets(w', e, why);
    }
    if r.Next? {
      assert Forgotten(w, r.w, {}) || Forgotten(w, r.w, {e});
    }
  }

  predicate SameReading(a: Actor, a': Actor) {
    a'.updates == a.updates && a'.tqueueEmpty == a.tqueueEmpty && a'.tqueueOffset == a.tqueueOffset
  }

  lemma {:induction false} OpenKeepsReading(a: Actor, need: nat, attempts: seq<Attempt>)
    ensures SameReading(a, OpenNew(a, need, attempts).0)
    decreases |attempts|
  {
    hide Connect, Total;
    ConnectKeepsReading(a);
    if attempts != [] {
      OpenKeepsReading(Connect(a), need, attempts[1..]);
    }
  }

  lemma ConnectKeepsReading(a: Actor)
    ensures SameReading(a, Connect(a)) && Connect(a).readySockets == a.readySockets
  {
  }

  lemma {:induction false} UseKeepsReading(a: Actor, need: nat, succeeds: nat -> bool, k: nat)
    ensures SameReading(a, UseReady(a, need, succeeds, k))
    decreases a.readySockets
  {
    hide Connect;
    if a.readySockets > 0 {
      var a1 := a.(readySockets := a.readySockets - 1);
      ConnectKeepsReading(a1);
      UseKeepsReading(Connect(a1), need, succeeds, k + 1);
    }
  }

  lemma ConnectionsKeepReading(a: Actor, now: Time, usable: bool, attempts: seq<Attempt>, succeeds: nat -> bool)
    ensures SameReading(a, CreateConnections(a, now, usable, attempts, succeeds))
  {
    hide OpenNew, UseReady;
    var need := NeedConnections(a, now);
    OpenKeepsReading(a, need, attempts);
    UseKeepsReading(OpenNew(a, need, attempts).0, need, succeeds, 0);
  }

  // ---------- Runs ----------

  lemma {:induction false} RunLast(w: World, inputs: seq<Input>)
    requires inputs != [] && AdmissibleRun(w, inputs) && Run(w, inputs).Next?
    ensures var n := |inputs| - 1;
            && AdmissibleRun(w, inputs[..n]) && Run(w, inputs[..n]).Next?
            && Admissible(Run(w, inputs[..n]).w, inputs[n])
            && Run(w, inputs) == Step(Run(w, inputs[..n]).w, inputs[n])
    decreases |inputs|
  {
    var n := |inputs| - 1;
    hide Step, Admissible;
    if n == 0 {
      assert inputs[..0] == [] && inputs[1..] == [];
    } else {
      RunLast(Step(w, inputs[0]).w, inputs[1..]);
      assert inputs[1..][..n - 1] == inputs[..n][1..];
    }
  }

  /**
   Whenever the scheduler takes TQueue to be empty, it has not been told of new updates since the load that found it so,
   and every event that lies at its offset or behind it was pushed after that load.
   */
  lemma {:induction false} FlagMeansCaughtUp(w: World, inputs: seq<Input>) returns (k: nat)
    requires Inv(w) && AdmissibleRun(w, inputs) && !w.a.tqueueEmpty
    requires Run(w, inputs).Next? && Run(w, inputs).w.a.tqueueEmpty
    ensures k < |inputs| && inputs[k].LoadUpdates?
    ensures forall j | k < j < |inputs| :: inputs[j] != NewUpdates
    ensures forall x | x in Run(w, inputs).w.tq.events && IsPast(Run(w, inputs).w.a, x) ::
              exists j :: k < j < |inputs| && inputs[j] == Push(x)
    decreases |inputs|
  {
    hide Inv, Step, Admissible, IsPast;
    var n := |inputs| - 1;
    RunLast(w, inputs);
    RunKeeps(w, inputs[..n]);
    var before, after := Run(w, inputs[..n]).w, Run(w, inputs).w;
    if before.a.tqueueEmpty {
      k := FlagMeansCaughtUp(w, inputs[..n]);
      WhileFlagged(before, inputs[n]);
      forall x | x in after.tq.events && IsPast(after.a, x)
        ensures exists j :: k < j < |inputs| && inputs[j] == Push(x)
      {
        if x in before.tq.events {
          SamePast(before.a, after.a, x);
          var j :| k < j < n && inputs[..n][j] == Push(x);
          assert inputs[j] == Push(x);
        }
      }
      assert forall j | k < j < n :: inputs[..n][j] == inputs[j];
    } else {
      FlagTurnsOn(before, inputs[n]);
      k := n;
    }
  }

  lemma SamePast(a: Actor, a': Actor, x: Event)
    requires a'.tqueueOffset == a.tqueueOffset
    ensures IsPast(a', x) == IsPast(a, x)
  {
  }

  // ---------- Every event is loaded ----------

  /** How many events up to `last` have not been loaded. */
  function Unloaded(events: seq<Event>, loaded: set<EventId>, last: EventId): nat {
    if events == [] then 0 else
    Unloaded(events[1..], loaded, last) + if events[0].id <= last && events[0].id !in loaded then 1 else 0
  }

  lemma {:induction false} LoadingLessens(events: seq<Event>, loaded: set<EventId>, loaded': set<EventId>,
                                          last: EventId, x: Event)
    requires loaded <= loaded'
    ensures Unloaded(events, loaded', last) <= Unloaded(events, loaded, last)
    ensures x in events && x.id in loaded' && x.id !in loaded && x.id <= last ==>
              Unloaded(events, loaded', last) < Unloaded(events, loaded, last)
  {
    if events != [] {
      LoadingLessens(events[1..], loaded, loaded', last, x);
      assert x in events ==> x == events[0] || x in events[1..];
    }
  }

  lemma {:induction false} ForgettingKeeps(events: seq<Event>, loaded: set<EventId>, gone: set<EventId>,
                                           dropped: set<EventId>, last: EventId)
    requires dropped <= gone
    ensures Unloaded(Keep(events, gone), loaded - dropped, last) <= Unloaded(events, loaded, last)
  {
    if events != [] {
      ForgettingKeeps(events[1..], loaded, gone, dropped, last);
      var rest := Keep(events[1..], gone);
      if events[0].id in gone {
        assert [] + rest == rest;
      } else {
        assert ([events[0]] + rest)[1..] == rest;
      }
    }
  }

  lemma {:induction false} PushingKeeps(events: seq<Event>, loaded: set<EventId>, x: Event, last: EventId)
    requires last < x.id
    ensures Unloaded(events + [x], loaded, last) == Unloaded(events, loaded, last)
  {
    if events != [] {
      PushingKeeps(events[1..], loaded, x, last);
      assert (events + [x])[1..] == events[1..] + [x];
    } else {
      assert [] + [x] == [x] && [x][1..] == [];
    }
  }

  /** The event is in TQueue, has not been loaded, and the scheduler goes on looking for it. */
  predicate Awaited(w: World, x: Event) {
    InStep(w.a) && !w.a.tqueueEmpty && x in w.tq.events && x.id !in w.a.updates
  }

  function Ahead(w: World, x: Event): nat {
    Unloaded(w.tq.events, w.a.updates.Keys, x.id)
  }

  /** A load for which there is room. */
  predicate Roomy(w: World, input: Input) {
    input.LoadUpdates? && |w.a.queueUpdates| < w.a.maxLoaded
  }

  lemma NotYetLoaded(w: World, x: Event, head: Option<EventId>)
    requires Inv(w) && Awaited(w, x) && HeadOk(w.tq, head)
    ensures var start := LoadStart(w.a, false, head); start.Some? && start.value <= x.id
  {
    hide Partition, Schedule, Flights, Idle, Limits, Accounts, Requests;
  }

  lemma LoadBringsOn(w: World, input: Input, x: Event)
    requires Inv(w) && Admissible(w, input) && Awaited(w, x) && Roomy(w, input) && !input.getFails
    ensures Step(w, input).Next?
    ensures var w' := Step(w, input).w; x.id in w'.a.updates || (Awaited(w', x) && Ahead(w', x) < Ahead(w, x))
  {
    StepKeeps(w, input);
    EventsAscend(w);
    NotYetLoaded(w, x, input.head);
    hide Inv;
    hide Ascending, Takes, Load, InStep, AllNew, HeadOk, Fresh;
    var k, n := LoadTakes(w, input.now, input.unixNow, input.getFails, input.head);
    var w' := Step(w, input).w;
    FirstIsTaken(w, w', LoadStart(w.a, false, input.head), k, n, x);
    NewInBatch(w.a.updates, w.tq.events[k..k + n], w.tq.events[k]);
    LoadingLessens(w.tq.events, w.a.updates.Keys, w'.a.updates.Keys, x.id, w.tq.events[k]);
  }

  lemma FirstIsTaken(w: World, w': World, start: Option<EventId>, k: nat, n: nat, x: Event)
    requires Takes(w, w', start, k, n) && Ascending(w.tq.events) && 0 < Room(w.a)
    requires x in w.tq.events && start.Some? && start.value <= x.id
    ensures k < |w.tq.events| && n > 0 && !w'.a.tqueueEmpty && w'.tq == w.tq && w.a.updates.Keys <= w'.a.updates.Keys
    ensures w.tq.events[k].id in w'.a.updates && w.tq.events[k].id <= x.id
    ensures w.tq.events[k] in w.tq.events[k..k + n]
  {
    var events := w.tq.events;
    var j :| 0 <= j < |events| && events[j] == x;
    assert k <= j && n > 0;
    assert events[k..k + n][0] == events[k] && events[k].id in IdsOf(events[k..k + n]);
    assert k < j ==> Earlier(events, k, j);
  }

  lemma NewInBatch(us: Updates, batch: seq<Event>, x: Event)
    requires AllNew(us, batch) && x in batch
    ensures x.id !in us
  {
  }

  /** Everything else leaves an awaited event awaited. */
  lemma OthersKeepAwaiting(w: World, input: Input, x: Event)
    requires Inv(w) && Admissible(w, input) && Awaited(w, x) && !Roomy(w, input)
    requires input.Vanish? ==> x.id !in input.gone
    ensures Step(w, input).Next? && Awaited(Step(w, input).w, x) && Ahead(Step(w, input).w, x) <= Ahead(w, x)
  {
    StepKeeps(w, input);
    BelowTail(w, x);
    hide Inv, Step, Awaited, Ahead;
    match input
    case OnHandle(_, _, _, _, _) => HandleKeepsAwaiting(w, input, x);
    case Push(_) => TQueueKeepsAwaiting(w, input, x);
    case Vanish(_) => TQueueKeepsAwaiting(w, input, x);
    case _ => RestKeepsAwaiting(w, input, x);
  }

  lemma TQueueKeepsAwaiting(w: World, input: Input, x: Event)
    requires Admissible(w, input) && Awaited(w, x) && x.id < w.tq.tail
    requires input.Push? || (input.Vanish? && x.id !in input.gone)
    ensures Awaited(Step(w, input).w, x) && Ahead(Step(w, input).w, x) <= Ahead(w, x)
  {
    if input.Push? {
      PushingKeeps(w.tq.events, w.a.updates.Keys, input.event, x.id);
    } else {
      ForgettingKeeps(w.tq.events, w.a.updates.Keys, input.gone, {}, x.id);
      assert w.a.updates.Keys - {} == w.a.updates.Keys;
    }
  }

  lemma RestKeepsAwaiting(w: World, input: Input, x: Event)
    requires Awaited(w, x) && Step(w, input).Next? && !Roomy(w, input)
    requires !input.Push? && !input.Vanish? && !input.OnHandle?
    ensures Awaited(Step(w, input).w, x) && Ahead(Step(w, input).w, x) <= Ahead(w, x)
  {
    hide First, Unloaded;
    if input.NewConnections? {
      ConnectionsKeepReading(w.a, input.now, input.usable, input.attempts, input.succeeds);
      hide CreateConnections;
    }
    assert Step(w, input).w.tq == w.tq && Step(w, input).w.a.updates.Keys == w.a.updates.Keys;
  }

  lemma BelowTail(w: World, x: Event)
    requires Inv(w) && x in w.tq.events
    ensures x.id < w.tq.tail
  {
    hide Partition, Schedule, Flights, Idle, Limits, Accounts, Requests;
  }

  lemma HandleKeepsAwaiting(w: World, input: Input, x: Event)
    requires Awaited(w, x) && input.OnHandle? && Step(w, input).Next?
    ensures Awaited(Step(w, input).w, x) && Ahead(Step(w, input).w, x) <= Ahead(w, x)
  {
    hide Handle;
    HandleKeepsReading(w, input.c, input.response, input.now, input.unixNow, input.backoff);
    var w' := Step(w, input).w;
    var gone :| Forgotten(w, w', gone);
    ForgettingKeeps(w.tq.events, w.a.updates.Keys, gone, gone, x.id);
  }

  /** TQueue refuses no offset and does not let the event expire. */
  predicate Calm(inputs: seq<Input>, x: Event) {
    forall i | 0 <= i < |inputs| :: IsCalm(inputs[i], x)
  }

  predicate IsCalm(input: Input, x: Event) {
    (input.LoadUpdates? ==> !input.getFails) && (input.Vanish? ==> x.id !in input.gone)
  }

  ghost function RoomyLoads(w: World, inputs: seq<Input>): nat
    decreases |inputs|
  {
    if inputs == [] then 0 else
    (if Roomy(w, inputs[0]) then 1 else 0)
    + if Step(w, inputs[0]).Next? then RoomyLoads(Step(w, inputs[0]).w, inputs[1..]) else 0
  }

  /**
   Looking often enough loads every event: in every run, whatever is pushed, sent and answered in between, an event has
   been loaded after as many loads with room as there are events up to it that have not been.
   */
  lemma {:induction false} EveryEventIsLoaded(w: World, inputs: seq<Input>, x: Event)
    requires Inv(w) && AdmissibleRun(w, inputs) && Awaited(w, x) && Calm(inputs, x)
    ensures Run(w, inputs).Next?
    ensures RoomyLoads(w, inputs) >= Ahead(w, x) ==> x.id in LoadedIds(Run(w, inputs).w.h.trace)
    decreases |inputs|
  {
    hide Inv, Step, Admissible, Awaited, Roomy, Ahead, IsCalm;
    if inputs == [] {
      SomeAhead(w, x);
    } else {
      StepKeeps(w, inputs[0]);
      var w1 := Step(w, inputs[0]).w;
      assert Calm(inputs[1..], x) by {
        assert forall i | 0 <= i < |inputs| - 1 :: inputs[1..][i] == inputs[i + 1];
      }
      StepBringsOn(w, inputs[0], x);
      if x.id in w1.a.updates {
        StaysLoaded(w1, inputs[1..], x.id);
      } else {
        EveryEventIsLoaded(w1, inputs[1..], x);
      }
    }
  }

  /**
   A refused offset can hold that up: the load starts again at the head, and brings nothing new if and only if as many
   of TQueue's first events as there is room for are loaded already.
   */
  lemma RefusedLoadRepeats(w: World, now: Time, unixNow: int, head: EventId)
    requires Inv(w) && HeadOk(w.tq, Some(head)) && Fresh(w, unixNow, true, Some(head)) && w.tq.events != []
    requires !w.a.tqueueEmpty && |w.a.queueUpdates| < w.a.maxLoaded
    ensures var r := Load(w, now, unixNow, true, Some(head));
            && r.Next? && !r.w.a.tqueueEmpty
            && (r.w.a.updates.Keys == w.a.updates.Keys <==>
                  forall i | 0 <= i < |w.tq.events| && i < Room(w.a) :: w.tq.events[i].id in w.a.updates)
  {
    hide Inv, Load, Fresh, InStep, AllNew, HeadOk, Takes;
    var k, n := LoadTakes(w, now, unixNow, true, Some(head));
    NothingNew(w, Load(w, now, unixNow, true, Some(head)).w, head, k, n);
  }

  lemma NothingNew(w: World, w': World, head: EventId, k: nat, n: nat)
    requires Takes(w, w', Some(head), k, n) && HeadOk(w.tq, Some(head)) && w.tq.events != [] && 0 < Room(w.a)
    ensures !w'.a.tqueueEmpty
    ensures w'.a.updates.Keys == w.a.updates.Keys <==>
            forall i | 0 <= i < |w.tq.events| && i < Room(w.a) :: w.tq.events[i].id in w.a.updates
  {
    FromHead(w.tq, head, k);
    hide HeadOk, Room;
    var batch := w.tq.events[k..k + n];
    assert forall i | 0 <= i < n :: batch[i] == w.tq.events[i];
    NoNewIds(batch, w.a.updates.Keys);
  }

  lemma NoNewIds(batch: seq<Event>, keys: set<EventId>)
    ensures keys + IdsOf(batch) == keys <==> forall i | 0 <= i < |batch| :: batch[i].id in keys
  {
    if keys + IdsOf(batch) == keys {
      forall i | 0 <= i < |batch|
        ensures batch[i].id in keys
      {
        assert batch[i] in batch && batch[i].id in IdsOf(batch);
      }
    }
  }

  lemma FromHead(tq: TQueue, head: EventId, k: nat)
    requires HeadOk(tq, Some(head)) && tq.events != [] && k <= |tq.events|
    requires forall i | 0 <= i < |tq.events| :: i < k <==> tq.events[i].id < head
    ensures k == 0
  {
    assert tq.events[0] in tq.events;
  }

  lemma StepBringsOn(w: World, input: Input, x: Event)
    requires Inv(w) && Admissible(w, input) && Awaited(w, x) && IsCalm(input, x)
    ensures Step(w, input).Next?
    ensures var w' := Step(w, input).w;
            || x.id in w'.a.updates
            || (Awaited(w', x) && Ahead(w', x) + (if Roomy(w, input) then 1 else 0) <= Ahead(w, x))
  {
    hide Inv, Step, Awaited, Ahead, Admissible;
    if Roomy(w, input) {
      LoadBringsOn(w, input, x);
    } else {
      OthersKeepAwaiting(w, input, x);
    }
  }

  lemma SomeAhead(w: World, x: Event)
    requires Awaited(w, x)
    ensures Ahead(w, x) > 0
  {
    LoadingLessens(w.tq.events, w.a.updates.Keys, w.a.updates.Keys + {x.id}, x.id, x);
  }

  /** What was loaded stays recorded. */
  lemma {:induction false} StaysLoaded(w: World, inputs: seq<Input>, e: EventId)
    requires Inv(w) && AdmissibleRun(w, inputs) && (e in w.a.updates || e in LoadedIds(w.h.trace))
    ensures Run(w, inputs).Next? && e in LoadedIds(Run(w, inputs).w.h.trace)
    decreases |inputs|
  {
    hide Inv, Step, LoadedIds;
    LoadedIsKnown(w);
    if inputs != [] {
      StepKeeps(w, inputs[0]);
      TraceGrows(w, inputs[0]);
      LoadedIdsGrow(Step(w, inputs[0]).w.h.trace, |w.h.trace|);
      assert Step(w, inputs[0]).w.h.trace[..|w.h.trace|] == w.h.trace;
      StaysLoaded(Step(w, inputs[0]).w, inputs[1..], e);
    }
  }

  lemma LoadedIsKnown(w: World)
    requires Inv(w)
    ensures forall e | e in w.a.updates :: e in LoadedIds(w.h.trace)
  {
    hide Partition, Schedule, Flights, Idle, Limits, Source, Requests;
  }

  lemma TraceGrows(w: World, input: Input)
    requires Inv(w) && Admissible(w, input) && Step(w, input).Next?
    ensures w.h.trace <= Step(w, input).w.h.trace
  {
    hide Inv, Step, Admissible;
    if input.OnHandle? && input.c in w.a.connections && w.a.connections[input.c].eventId.Some? {
      CauseOfForgetting(w, input);
    } else {
      OnlyHandleForgets(w, input);
    }
  }
}
