/**
 The webhook scheduler as the object it is: callbacks that update its fields in place, with the loops of the source.
 Each callback is proved to do what the state machine says, and the source's CHECKs are assertions here.
 */
module WebhookActor {
  import opened Common
  import opened WebhookSpec
  import opened WebhookSafety

  /** The queue of events the actor reads from; it belongs to somebody else, who may change it between callbacks. */
  class EventSource {
    var events: seq<Event>
    var tail: EventId

    constructor (events: seq<Event>, tail: EventId)
      ensures this.events == events && this.tail == tail
    {
      this.events, this.tail := events, tail;
    }

    /** The events from `offset` on, at most `limit` of them. */
    method Get(offset: EventId, limit: nat) returns (batch: seq<Event>)
      ensures batch == Batch(TQueue(events, tail), offset, limit)
    {
      var k := From(events, offset);
      batch := if k + limit <= |events| then events[k..k + limit] else events[k..];
    }

    method Forget(id: EventId)
      modifies this
      ensures events == Keep(old(events), {id}) && tail == old(tail)
    {
      events := Keep(events, {id});
    }
  }

  lemma OpenConnected(a: Actor)
    ensures Open(a, Connected) == Connect(a)
  {
  }

  class WebhookActor {
    const maxConnections: nat
    const maxLoaded: nat
    const tqueue: EventSource

    var tqueueOffset: Option<EventId>
    var tqueueEmpty: bool
    var updates: map<EventId, Update>
    var queueUpdates: map<QueueId, seq<EventId>>
    var queues: set<Entry>
    var uniqueQueueId: QueueId
    var connections: map<ConnectionId, Connection>
    var ready: seq<ConnectionId>
    var pendingSockets: set<SocketId>
    var readySockets: nat
    var nextConnection: ConnectionId
    var nextSocket: SocketId
    var ipGeneration: int
    var wasChecked: bool
    var stopFlag: bool
    var first410: Time
    var lastSuccess: Time

    ghost var history: History

    /** The fields as one value. */
    ghost function Fields(): Actor
      reads this
    {
      Actor(maxConnections, maxLoaded, tqueueOffset, tqueueEmpty, updates, queueUpdates, queues, uniqueQueueId,
            connections, ready, pendingSockets, readySockets, nextConnection, nextSocket, ipGeneration, wasChecked,
            stopFlag, first410, lastSuccess)
    }

    ghost function Abs(): World
      reads this, tqueue
    {
      World(Fields(), TQueue(tqueue.events, tqueue.tail), history)
    }

    ghost predicate Valid()
      reads this, tqueue
    {
      Inv(Abs())
    }

    constructor (maxConnections: nat, fromDb: bool, now: Time, tqueue: EventSource)
      requires 0 < maxConnections && Ascending(tqueue.events) && forall x | x in tqueue.events :: x.id < tqueue.tail
      ensures Valid() && this.tqueue == tqueue
      ensures Abs() == Start(maxConnections, fromDb, now, TQueue(tqueue.events, tqueue.tail))
    {
      this.maxConnections, this.maxLoaded, this.tqueue := maxConnections, 2 * maxConnections, tqueue;
      tqueueOffset, tqueueEmpty := None, false;
      updates, queueUpdates, queues, uniqueQueueId := map[], map[], {}, FIRST_UNIQUE_QUEUE_ID;
      connections, ready, pendingSockets, readySockets := map[], [], {}, 0;
      nextConnection, nextSocket, ipGeneration := 0, 0, 0;
      wasChecked, stopFlag, first410, lastSuccess := fromDb, false, 0, now - 3600 * SECOND;
      history := History([], map[], 0);
      new;
      StartHolds(maxConnections, fromDb, now, TQueue(tqueue.events, tqueue.tail));
    }

    // ---------- load_updates ----------

    /** The body of the loading loop. */
    method LoadEvent(event: Event, now: Time)
      modifies this
      ensures Abs() == LoadOne(old(Abs()), event, now)
    {
      if event.id in updates {
        return;
      }
      hide LoadOne;
      LoadNew(event, now);
    }

    method LoadNew(event: Event, now: Time)
      requires event.id !in updates
      modifies this
      ensures Abs() == LoadOne(old(Abs()), event, now)
    {
      assert event.id !in Fields().updates;
      hide Fields, QueueOf, NextUnique, WithFirst, Pending;
      history := LoadOne(Abs(), event, now).h;
      var queueId := NewQueueId(event);
      AddToQueue(event, queueId, now);
    }

    method NewQueueId(event: Event) returns (queueId: QueueId)
      modifies this`uniqueQueueId
      ensures queueId == QueueOf(old(Fields()), event)
      ensures Fields() == old(Fields()).(uniqueQueueId := NextUnique(old(Fields()), event))
    {
      queueId := event.extra;
      if queueId == 0 {
        queueId := uniqueQueueId;
        uniqueQueueId := uniqueQueueId + 1;
      }
    }

    method AddToQueue(event: Event, queueId: QueueId, now: Time)
      modifies this`updates, this`tqueueOffset, this`queues, this`queueUpdates
      ensures var a := old(Fields());
              Fields() == a.(updates := a.updates[event.id := Update(queueId, event.expiresAt, 1, 0, now, 0)],
                             tqueueOffset := Some(event.id + 1),
                             queueUpdates := a.queueUpdates[queueId := Pending(a.queueUpdates, queueId) + [event.id]],
                             queues := WithFirst(a.queues, Pending(a.queueUpdates, queueId), Entry(now, queueId)))
    {
      updates := updates[event.id := Update(queueId, event.expiresAt, 1, 0, now, 0)];
      tqueueOffset := Some(event.id + 1);
      var pending := if queueId in queueUpdates then queueUpdates[queueId] else [];
      if pending == [] {
        queues := queues + {Entry(now, queueId)};
      }
      queueUpdates := queueUpdates[queueId := pending + [event.id]];
    }

    method LoadBatch(batch: seq<Event>, now: Time)
      modifies this
      ensures Abs() == LoadAll(old(Abs()), batch, now)
    {
      hide LoadOne;
      var i := 0;
      while i < |batch|
        invariant 0 <= i <= |batch|
        invariant LoadAll(Abs(), batch[i..], now) == LoadAll(old(Abs()), batch, now)
      {
        assert batch[i..][0] == batch[i] && batch[i..][1..] == batch[i + 1..];
        LoadEvent(batch[i], now);
        i := i + 1;
      }
      assert batch[i..] == [];
    }

    /** Starts over from the first event TQueue names. */
    method SetOffset(head: Option<EventId>)
      modifies this`tqueueOffset, this`history
      ensures Abs() == WithOffset(old(Abs()), head)
    {
      tqueueOffset := head;
      history := history.(high := if head.Some? then Max(history.high, head.value) else history.high);
    }

    /** Loading starts at the head of TQueue the first time and when TQueue refuses the offset. */
    method Position(getFails: bool, head: Option<EventId>)
      modifies this`tqueueOffset, this`history
      ensures Abs() == Positioned(old(Abs()), getFails, head)
    {
      hide WithOffset;
      WithOffsetFields(Abs(), head);
      if tqueueOffset.None? {
        SetOffset(head);
        WithOffsetFields(Abs(), head);
      }
      if tqueueOffset.Some? && getFails {
        SetOffset(head);
      }
    }

    /** `getFails` tells whether TQueue refuses the offset, `head` is what it names as its first event. */
    method LoadUpdates(now: Time, unixNow: int, getFails: bool, head: Option<EventId>)
      requires Valid() && Admissible(Abs(), Input.LoadUpdates(now, unixNow, getFails, head))
      modifies this
      ensures Valid() && Next(Abs()) == Load(old(Abs()), now, unixNow, getFails, head)
    {
      hide Inv, Positioned, Batch, LoadAll;
      LoadKeeps(Abs(), now, unixNow, getFails, head);
      if tqueueEmpty {
        return;
      }
      if |queueUpdates| >= maxLoaded {
        assert |queueUpdates| == maxLoaded;
        return;
      }
      PositionedFields(Abs(), getFails, head);
      Position(getFails, head);
      var limit := Min(EVENT_BUFFER_SIZE, maxLoaded - |queueUpdates|);
      var batch := [];
      if tqueueOffset.Some? {
        batch := tqueue.Get(tqueueOffset.value, limit);
      }
      assert forall e | e in batch :: e.id in updates || unixNow <= e.expiresAt;
      tqueueEmpty := batch == [];
      LoadBatch(batch, now);
    }

    // ---------- drop_event, on_update_ok, on_update_error ----------

    /** The CHECKs of drop_event are what the caller must ensure. */
    method DropEvent(e: EventId, ghost why: Label)
      requires e in updates
      requires WebhookSpec.DropEvent(Abs(), e, why).Next?
      modifies this, tqueue
      ensures Next(Abs()) == WebhookSpec.DropEvent(old(Abs()), e, why)
    {
      history := WebhookSpec.DropEvent(Abs(), e, why).w.h;
      var queueId := updates[e].queueId;
      updates := updates - {e};
      assert queueId in queueUpdates && queueUpdates[queueId] != [];
      assert e == queueUpdates[queueId][0];
      var rest := queueUpdates[queueId][1..];
      if rest == [] {
        queueUpdates := queueUpdates - {queueId};
      } else {
        queueUpdates := queueUpdates[queueId := rest];
        var update := updates[rest[0]];
        queues := queues + {Entry(update.wakeupAt, update.queueId)};
      }
      tqueue.Forget(e);
    }

    method OnUpdateOk(e: EventId, now: Time)
      requires WebhookSpec.OnUpdateOk(Abs(), e, now).Next?
      modifies this, tqueue
      ensures Next(Abs()) == WebhookSpec.OnUpdateOk(old(Abs()), e, now)
    {
      lastSuccess := now;
      assert e in updates;
      DropEvent(e, Answered(e, updates[e].queueId));
    }

    method OnUpdateError(e: EventId, retryAfter: int, now: Time, unixNow: int, backoff: int)
      requires WebhookSpec.OnUpdateError(Abs(), e, retryAfter, now, unixNow, backoff).Next?
      modifies this, tqueue
      ensures Next(Abs()) == WebhookSpec.OnUpdateError(old(Abs()), e, retryAfter, now, unixNow, backoff)
    {
      assert e in updates;
      var update := updates[e];
      var after := Clamp(retryAfter, 0, MAX_RETRY_AFTER);
      var nextDelay := update.delay;
      var nextEffectiveDelay := after;
      if after == 0 && update.failCount > 0 {
        nextDelay := Min(backoff, nextDelay * 2);
        nextEffectiveDelay := nextDelay;
      }
      if unixNow + nextEffectiveDelay > update.expiresAt {
        DropEvent(e, Expired(e, update.queueId, unixNow + nextEffectiveDelay, update.expiresAt));
        return;
      }
      update := update.(delay := nextDelay, wakeupAt := now + nextEffectiveDelay * SECOND,
                        failCount := update.failCount + 1);
      updates := updates[e := update];
      queues := queues + {Entry(update.wakeupAt, update.queueId)};
      history := history.(trace := history.trace + [Retried(e, update.queueId)],
                          place := history.place[update.queueId := Scheduled]);
    }

    // ---------- send_update ----------

    /** queues_.begin() */
    method FirstQueue() returns (first: Entry)
      requires queues != {} && DistinctQueues(queues)
      ensures first == First(queues)
    {
      var rest := queues;
      first :| first in rest;
      rest := rest - {first};
      while rest != {}
        invariant first in queues && rest <= queues
        invariant forall y | y in queues && y !in rest :: !y.Before(first)
        decreases |rest|
      {
        var x :| x in rest;
        if x.Before(first) {
          first := x;
        }
        rest := rest - {x};
      }
      FirstUnique(queues, first);
    }

    /** The status: true for OK. */
    method SendUpdate(now: Time, badHeaders: set<EventId>) returns (ok: bool)
      requires Valid()
      modifies this
      ensures Valid() && Next(Abs()) == WebhookSpec.SendUpdate(old(Abs()), now, badHeaders)
      ensures ok <==> Sends(old(Abs()), now, badHeaders)
      ensures ok ==> |ready| < old(|ready|)
    {
      hide Inv;
      SendUpdateKeeps(Abs(), now, badHeaders);
      EntriesAreDistinct(Abs());
      hide First;
      if ready == [] || queues == {} {
        return false;
      }
      var first := FirstQueue();
      ScheduledFacts(Abs(), first);
      if first.wakeupAt > now {
        return false;
      }
      assert first.id != 0;
      var e := TakeFirst(first, now);
      if e in badHeaders {
        history := history.(place := history.place[first.id := Lost]);
        return false;
      }
      var c := Transmit(e);
      history := history.(trace := history.trace + [Sent(e, first.id, c)],
                          place := history.place[first.id := OnConnection(c)]);
      return true;
    }

    /** The queue leaves queues_ before the request of its front event is built. */
    method TakeFirst(first: Entry, now: Time) returns (e: EventId)
      requires first in queues && first.id in queueUpdates && queueUpdates[first.id] != []
      requires queueUpdates[first.id][0] in updates
      modifies this`queues, this`updates
      ensures e == old(queueUpdates)[first.id][0] && e in old(updates)
      ensures var a := old(Fields());
              Fields() == a.(queues := a.queues - {first},
                             updates := a.updates[e := a.updates[e].(lastSendTime := now)])
    {
      queues := queues - {first};
      e := queueUpdates[first.id][0];
      updates := updates[e := updates[e].(lastSendTime := now)];
    }

    method Transmit(e: EventId) returns (c: ConnectionId)
      requires ready != [] && ready[0] in connections
      modifies this`ready, this`connections
      ensures c == old(ready[0])
      ensures var a := old(Fields());
              Fields() == a.(ready := a.ready[1..],
                             connections := a.connections[c := a.connections[c].(eventId := Some(e))])
    {
      c := ready[0];
      ready := ready[1..];
      connections := connections[c := connections[c].(eventId := Some(e))];
    }

    /** `clock(k)` is the time the k-th attempt reads. */
    method SendUpdates(clock: nat -> Time, badHeaders: set<EventId>)
      requires Valid()
      modifies this
      ensures Valid() && Next(Abs()) == WebhookSpec.SendUpdates(old(Abs()), clock, 0, badHeaders)
    {
      var k := 0;
      var ok := true;
      while ok
        invariant Valid()
        invariant ok ==> WebhookSpec.SendUpdates(Abs(), clock, k, badHeaders)
                         == WebhookSpec.SendUpdates(old(Abs()), clock, 0, badHeaders)
        invariant !ok ==> Next(Abs()) == WebhookSpec.SendUpdates(old(Abs()), clock, 0, badHeaders)
        decreases |ready|, ok
      {
        ok := SendUpdate(clock(k), badHeaders);
        k := k + 1;
      }
    }

    // ---------- handle ----------

    /** What an answer, or a hangup, says about the request and about the connection. */
    method ReadAnswer(c: ConnectionId, response: Option<Response>, now: Time)
      returns (queryError: bool, retryAfter: int, closes: bool)
      requires c in connections
      modifies this`first410
      ensures first410 == First410(old(Fields()), response, now)
      ensures queryError == IsError(response) && retryAfter == RetryAfter(response)
      ensures closes == (ClosesConnection(response, ipGeneration, connections[c].ipGeneration)
                         || GivesUp(old(Fields()), response, now))
    {
      queryError, retryAfter, closes := false, 0, false;
      if response.None? {
        return true, 0, true;
      }
      var r := response.value;
      if !r.isResponse || !r.keepAlive || ipGeneration != connections[c].ipGeneration {
        closes := true;
      }
      if r.isResponse {
        if 200 <= r.code <= 299 {
          first410 := 0;
        } else {
          queryError := true;
          if r.code == 410 {
            if first410 == 0 {
              first410 := now;
            } else if now > first410 + DROP_TIMEOUT {
              closes := true;
            }
          } else {
            first410 := 0;
          }
          retryAfter := r.retryAfter;
        }
      } else {
        queryError := true;
      }
    }

    method ReleaseConnection(c: ConnectionId, closes: bool)
      requires c in connections
      modifies this`connections, this`ready
      ensures Abs() == Release(old(Abs()), c, closes)
    {
      if closes {
        connections := connections - {c};
        ready := Remove(ready, c);
      } else {
        connections := connections[c := connections[c].(eventId := None)];
        ready := ready + [c];
      }
    }

    method Handle(c: ConnectionId, response: Option<Response>, now: Time, unixNow: int, backoff: int)
      requires Valid() && Admissible(Abs(), OnHandle(c, response, now, unixNow, backoff))
      modifies this, tqueue
      ensures Valid() && Next(Abs()) == WebhookSpec.Handle(old(Abs()), c, response, now, unixNow, backoff)
    {
      hide Inv, Release, First410, RetryAfter, GivesUp, WebhookSpec.OnUpdateOk, WebhookSpec.OnUpdateError;
      HandleKeeps(Abs(), c, response, now, unixNow, backoff);
      if c !in connections {
        return;
      }
      var eventId := connections[c].eventId;
      var queryError, retryAfter, closes := ReadAnswer(c, response, now);
      if eventId.Some? {
        if !queryError {
          OnUpdateOk(eventId.value, now);
        } else {
          OnUpdateError(eventId.value, retryAfter, now, unixNow, backoff);
        }
      } else {
        assert queryError;
      }
      ReleaseConnection(c, closes);
    }

    // ---------- create_new_connections ----------

    method OnError()
      modifies this`stopFlag
      ensures Fields() == WebhookSpec.OnError(old(Fields()))
    {
      if !wasChecked && !stopFlag {
        stopFlag := true;
      }
    }

    /** create_connection with a socket that is ready. */
    method CreateConnection()
      modifies this`connections, this`ready, this`nextConnection, this`wasChecked
      ensures Fields() == Connect(old(Fields()))
    {
      connections := connections[nextConnection := Connection(None, ipGeneration)];
      ready := ready + [nextConnection];
      nextConnection := nextConnection + 1;
      wasChecked := true;
    }

    /** create_connection: whether it yields a connection at once. */
    method TryConnect(attempt: Attempt) returns (connected: bool)
      modifies this
      ensures connected == (attempt == Connected)
      ensures Fields() == Open(old(Fields()), attempt) && history == old(history)
    {
      if attempt == ProxyPending {
        wasChecked := true;
        pendingSockets := pendingSockets + {nextSocket};
        nextSocket := nextSocket + 1;
      } else if attempt == Failed {
        OnError();
      } else if attempt == Connected {
        CreateConnection();
      }
      return attempt == Connected;
    }

    /** The first loop; it ends the function when an attempt does not yield a connection at once. */
    method OpenConnections(need: nat, attempts: seq<Attempt>) returns (goesOn: bool)
      modifies this
      ensures (Fields(), goesOn) == OpenNew(old(Fields()), need, attempts) && history == old(history)
    {
      var i := 0;
      while |connections| + |pendingSockets| + readySockets < need && i < |attempts| && attempts[i] != FloodLimit
        invariant i <= |attempts|
        invariant OpenNew(Fields(), need, attempts[i..]) == OpenNew(old(Fields()), need, attempts)
        invariant history == old(history)
        decreases |attempts| - i
      {
        assert attempts[i..][0] == attempts[i] && attempts[i..][1..] == attempts[i + 1..];
        hide Connect, Open;
        OpenConnected(Fields());
        var connected := TryConnect(attempts[i]);
        if !connected {
          return false;
        }
        i := i + 1;
      }
      return true;
    }

    /** The second loop: sockets that became ready turn into connections. */
    method UseReadySockets(need: nat, succeeds: nat -> bool)
      modifies this
      ensures Fields() == UseReady(old(Fields()), need, succeeds, 0) && history == old(history)
    {
      hide Connect;
      var k := 0;
      while readySockets > 0 && |connections| + |pendingSockets| < need
        invariant UseReady(Fields(), need, succeeds, k) == UseReady(old(Fields()), need, succeeds, 0)
        invariant history == old(history)
        decreases readySockets
      {
        readySockets := readySockets - 1;
        if !succeeds(k) {
          OnError();
          return;
        }
        ghost var left := readySockets;
        CreateConnection();
        assert readySockets == left;
        k := k + 1;
      }
    }

    method CreateNewConnections(now: Time, usable: bool, attempts: seq<Attempt>, succeeds: nat -> bool)
      requires Valid()
      modifies this
      ensures Valid() && Abs() == old(Abs()).(a := CreateConnections(old(Fields()), now, usable, attempts, succeeds))
    {
      hide Inv, OpenNew, UseReady;
      CreateConnectionsKeeps(Abs(), now, usable, attempts, succeeds);
      if !usable {
        return;
      }
      var need := |queueUpdates|;
      if need > maxConnections {
        need := maxConnections;
      }
      if !wasChecked {
        need := 1;
      }
      if lastSuccess + 10 * SECOND < now {
        if need > 1 {
          need := 1;
        }
      } else if need == 0 {
        need := 1;
      }
      var goesOn := OpenConnections(need, attempts);
      if goesOn {
        UseReadySockets(need, succeeds);
        readySockets := 0;
      }
    }

    method OnSocketReadyAsync(id: SocketId, ok: bool)
      requires Valid() && id in pendingSockets
      modifies this
      ensures Valid() && Abs() == old(Abs()).(a := SocketReady(old(Fields()), id, ok))
    {
      hide Inv;
      SocketReadyKeeps(Abs(), id, ok);
      pendingSockets := pendingSockets - {id};
      if ok {
        readySockets := readySockets + 1;
      } else {
        OnError();
      }
    }

    // ---------- loop ----------

    method Loop(env: Surroundings)
      requires Valid() && HeadOk(Abs().tq, env.head) && Fresh(Abs(), env.unixNow, env.getFails, env.head)
      modifies this
      ensures Valid() && Next(Abs()) == WebhookSpec.Loop(old(Abs()), env)
    {
      hide Inv, Load, CreateConnections, WebhookSpec.SendUpdates;
      if !stopFlag {
        LoadUpdates(env.now, env.unixNow, env.getFails, env.head);
      }
      if !stopFlag {
        CreateNewConnections(env.now, env.usable, env.attempts, env.succeeds);
      }
      if !stopFlag {
        SendUpdates(env.clock, env.badHeaders);
      }
    }

    method OnNewUpdates(env: Surroundings)
      requires Valid() && HeadOk(Abs().tq, env.head) && Fresh(Abs(), env.unixNow, env.getFails, env.head)
      modifies this
      ensures Valid()
      ensures Next(Abs()) == WebhookSpec.Loop(old(Abs()).(a := old(Fields()).(tqueueEmpty := false)), env)
    {
      hide Inv;
      StepKeeps(Abs(), NewUpdates);
      tqueueEmpty := false;
      Loop(env);
    }
  }
}
