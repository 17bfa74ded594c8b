/**
 The webhook delivery scheduler as a state machine: what each callback of the actor does to the four
 structures it keeps (update_map_, queue_updates_, queues_ and the event held by each connection), to the
 TQueue it reads, and to a history of what was loaded, sent and forgotten.

 Every CHECK of the source is a guard here: a step whose CHECK would fire yields `CheckFailed`.
 */
module WebhookSpec {
  import opened Common

  type EventId = nat
  type QueueId = int
  type ConnectionId = nat
  type SocketId = nat

  /** A reading of the clock, in nanoseconds. */
  type Time = int

  const SECOND: Time := 1_000_000_000
  const EVENT_BUFFER_SIZE: nat := 1000
  const MAX_RETRY_AFTER := 3600
  const DROP_TIMEOUT := 82800 * SECOND
  const FIRST_UNIQUE_QUEUE_ID := 0x1000_0000_0000_0000

  // ---------- Entities ----------

  /** An event as TQueue hands it out; `extra` is the queue id, 0 for an event that needs no ordering. */
  datatype Event = Event(id: EventId, extra: QueueId, expiresAt: int)

  /** TQueue keeps its events in order of growing id; `tail` is the id the next event will get, or more. */
  datatype TQueue = TQueue(events: seq<Event>, tail: EventId)

  datatype Update = Update(
    queueId: QueueId, expiresAt: int, delay: int, failCount: nat, wakeupAt: Time, lastSendTime: Time)

  /** An element of queues_: a queue and the time of its next attempt, ordered by time and then by queue. */
  datatype Entry = Entry(wakeupAt: Time, id: QueueId) {
    predicate Before(other: Entry) {
      wakeupAt < other.wakeupAt || (wakeupAt == other.wakeupAt && id < other.id)
    }
  }

  datatype Connection = Connection(eventId: Option<EventId>, ipGeneration: int)

  datatype Actor = Actor(
    maxConnections: nat,
    maxLoaded: nat,
    tqueueOffset: Option<EventId>,
    tqueueEmpty: bool,
    updates: map<EventId, Update>,
    queueUpdates: map<QueueId, seq<EventId>>,
    queues: set<Entry>,
    uniqueQueueId: QueueId,
    connections: map<ConnectionId, Connection>,
    ready: seq<ConnectionId>,
    pendingSockets: set<SocketId>,
    readySockets: nat,
    nextConnection: ConnectionId,
    nextSocket: SocketId,
    ipGeneration: int,
    wasChecked: bool,
    stopFlag: bool,
    first410: Time,
    lastSuccess: Time)

  /** Where the front event of a loaded queue is. `Lost` is a queue whose request headers could not be built. */
  datatype Place = Scheduled | OnConnection(c: ConnectionId) | Lost

  datatype Label =
    | Loaded(e: EventId, q: QueueId)
    | Sent(e: EventId, q: QueueId, c: ConnectionId)
    | Answered(e: EventId, q: QueueId)
    | Expired(e: EventId, q: QueueId, retryAt: int, expiresAt: int)
    | Retried(e: EventId, q: QueueId)

  /** What has happened so far. `high` bounds every id that was ever loaded or skipped. */
  datatype History = History(trace: seq<Label>, place: map<QueueId, Place>, high: EventId)

  datatype World = World(a: Actor, tq: TQueue, h: History)

  datatype Outcome = Next(w: World) | CheckFailed

  /** An answer of the webhook: not necessarily an HTTP response, since the peer may send anything. */
  datatype Response = Response(isResponse: bool, code: int, keepAlive: bool, retryAfter: int)

  /** How one attempt to open a connection ends. */
  datatype Attempt = FloodLimit | Failed | ProxyPending | Connected

  /** A webhook restored from the database counts as verified from the start. */
  function Init(maxConnections: nat, fromDb: bool, now: Time): Actor {
    Actor(maxConnections, 2 * maxConnections, None, false, map[], map[], {}, FIRST_UNIQUE_QUEUE_ID, map[], [], {}, 0,
          0, 0, 0, fromDb, false, 0, now - 3600 * SECOND)
  }

  // ---------- load_updates ----------

  /** The events a queue still has to deliver, oldest first; a queue that is not loaded has none. */
  function Pending(queueUpdates: map<QueueId, seq<EventId>>, q: QueueId): seq<EventId> {
    if q in queueUpdates then queueUpdates[q] else []
  }

  /** Position of the first event whose id is at least `offset`. */
  function From(events: seq<Event>, offset: EventId): (k: nat)
    ensures k <= |events|
    ensures forall i | 0 <= i < k :: events[i].id < offset
    ensures k < |events| ==> offset <= events[k].id
  {
    if events == [] || offset <= events[0].id then 0 else 1 + From(events[1..], offset)
  }

  /** The queue an event joins: one of its own unless it asks for one. */
  function QueueOf(a: Actor, e: Event): QueueId {
    if e.extra == 0 then a.uniqueQueueId else e.extra
  }

  function NextUnique(a: Actor, e: Event): QueueId {
    if e.extra == 0 then a.uniqueQueueId + 1 else a.uniqueQueueId
  }

  /** A queue is scheduled when it gets its first event. */
  function WithFirst(queues: set<Entry>, pending: seq<EventId>, entry: Entry): set<Entry> {
    if pending == [] then queues + {entry} else queues
  }

  function LoadOne(w: World, e: Event, now: Time): World {
    if e.id in w.a.updates then
      w
    else
      var q := QueueOf(w.a, e);
      var pending := Pending(w.a.queueUpdates, q);
      var a := w.a.(
               updates := w.a.updates[e.id := Update(q, e.expiresAt, 1, 0, now, 0)],
               tqueueOffset := Some(e.id + 1),
               uniqueQueueId := NextUnique(w.a, e),
               queues := WithFirst(w.a.queues, pending, Entry(now, q)),
               queueUpdates := w.a.queueUpdates[q := pending + [e.id]]);
      var place := if pending == [] then w.h.place[q := Scheduled] else w.h.place;
      World(a, w.tq, History(w.h.trace + [Loaded(e.id, q)], place, Max(w.h.high, e.id + 1)))
  }

  function LoadAll(w: World, batch: seq<Event>, now: Time): World
    decreases |batch|
  {
    if batch == [] then w else LoadAll(LoadOne(w, batch[0], now), batch[1..], now)
  }

  /** The first `limit` events TQueue holds from `offset` on. */
  function Batch(tq: TQueue, offset: EventId, limit: nat): seq<Event> {
    var k := From(tq.events, offset);
    if k + limit <= |tq.events| then tq.events[k..k + limit] else tq.events[k..]
  }

  function WithOffset(w: World, offset: Option<EventId>): World {
    w.(a := w.a.(tqueueOffset := offset),
       h := w.h.(high := if offset.Some? then Max(w.h.high, offset.value) else w.h.high))
  }

  /** Where loading starts: at the head of TQueue the first time and when TQueue refuses the offset. */
  function Positioned(w: World, getFails: bool, head: Option<EventId>): World {
    var w1 := if w.a.tqueueOffset.None? then WithOffset(w, head) else w;
    if w1.a.tqueueOffset.Some? && getFails then WithOffset(w1, head) else w1
  }

  function Load(w: World, now: Time, unixNow: int, getFails: bool, head: Option<EventId>): Outcome {
    if w.a.tqueueEmpty then
      Next(w)
    else if |w.a.queueUpdates| >= w.a.maxLoaded then
      if |w.a.queueUpdates| == w.a.maxLoaded then Next(w) else CheckFailed
    else
      var limit := Min(EVENT_BUFFER_SIZE, w.a.maxLoaded - |w.a.queueUpdates|);
      var w1 := Positioned(w, getFails, head);
      var batch := if w1.a.tqueueOffset.None? then [] else Batch(w1.tq, w1.a.tqueueOffset.value, limit);
      if exists e | e in batch :: e.id !in w.a.updates && e.expiresAt < unixNow then
        CheckFailed
      else
        Next(LoadAll(w1.(a := w1.a.(tqueueEmpty := batch == [])), batch, now))
  }

  // ---------- drop_event, on_update_ok, on_update_error ----------

  /** The events whose ids are not in `gone`. */
  function Keep(events: seq<Event>, gone: set<EventId>): (r: seq<Event>)
    ensures forall x :: x in r <==> x in events && x.id !in gone
  {
    if events == [] then [] else (if events[0].id in gone then [] else [events[0]]) + Keep(events[1..], gone)
  }

  function DropEvent(w: World, e: EventId, why: Label): Outcome {
    if e !in w.a.updates then CheckFailed else
    var q := w.a.updates[e].queueId;
    var updates := w.a.updates - {e};
    if q !in w.a.queueUpdates || w.a.queueUpdates[q] == [] || w.a.queueUpdates[q][0] != e then CheckFailed else
    var rest := w.a.queueUpdates[q][1..];
    var tq := w.tq.(events := Keep(w.tq.events, {e}));
    if rest == [] then
      Next(World(w.a.(updates := updates, queueUpdates := w.a.queueUpdates - {q}), tq,
                 w.h.(trace := w.h.trace + [why], place := w.h.place - {q})))
    else if rest[0] !in updates then
      CheckFailed
    else
      var entry := Entry(updates[rest[0]].wakeupAt, updates[rest[0]].queueId);
      Next(World(w.a.(updates := updates, queueUpdates := w.a.queueUpdates[q := rest],
                      queues := w.a.queues + {entry}),
                 tq, w.h.(trace := w.h.trace + [why], place := w.h.place[q := Scheduled])))
  }

  function OnUpdateOk(w: World, e: EventId, now: Time): Outcome {
    if e !in w.a.updates then CheckFailed else
    DropEvent(w.(a := w.a.(lastSuccess := now)), e, Answered(e, w.a.updates[e].queueId))
  }

  function Clamp(x: int, lo: int, hi: int): int {
    if x < lo then lo else if x > hi then hi else x
  }

  /** The delay that is remembered and the delay that is applied; `backoff` is the random resend timeout. */
  function Delays(u: Update, retryAfter: int, backoff: int): (int, int) {
    var after := Clamp(retryAfter, 0, MAX_RETRY_AFTER);
    if after == 0 && u.failCount > 0 then
      var next := Min(backoff, u.delay * 2);
      (next, next)
    else
      (u.delay, after)
  }

  function OnUpdateError(w: World, e: EventId, retryAfter: int, now: Time, unixNow: int, backoff: int): Outcome {
    if e !in w.a.updates then CheckFailed else
    var u := w.a.updates[e];
    var (delay, effective) := Delays(u, retryAfter, backoff);
    if unixNow + effective > u.expiresAt then
      DropEvent(w, e, Expired(e, u.queueId, unixNow + effective, u.expiresAt))
    else
      var u' := u.(delay := delay, wakeupAt := now + effective * SECOND, failCount := u.failCount + 1);
      Next(World(w.a.(updates := w.a.updates[e := u'], queues := w.a.queues + {Entry(u'.wakeupAt, u.queueId)}),
                 w.tq,
                 w.h.(trace := w.h.trace + [Retried(e, u.queueId)], place := w.h.place[u.queueId := Scheduled])))
  }

  // ---------- send_update ----------

  /** No two entries are for the same queue. */
  predicate DistinctQueues(queues: set<Entry>) {
    forall x, y | x in queues && y in queues && x.id == y.id :: x == y
  }

  predicate IsFirst(queues: set<Entry>, x: Entry) {
    x in queues && forall y | y in queues :: !y.Before(x)
  }

  /** A non-empty set of entries has a first one. */
  lemma FirstExists(queues: set<Entry>)
    requires queues != {}
    ensures exists x :: IsFirst(queues, x)
  {
    var x :| x in queues;
    if queues == {x} {
      assert IsFirst(queues, x);
    } else {
      var rest := queues - {x};
      FirstExists(rest);
      var y :| IsFirst(rest, y);
      assert forall z | z in queues :: z == x || z in rest;
      if x.Before(y) {
        assert IsFirst(queues, x);
      } else {
        assert IsFirst(queues, y);
      }
    }
  }

  /** queues_.begin() */
  ghost function First(queues: set<Entry>): (x: Entry)
    requires queues != {}
    ensures IsFirst(queues, x)
  {
    FirstExists(queues);
    var x :| IsFirst(queues, x);
    x
  }

  lemma FirstUnique(queues: set<Entry>, x: Entry)
    requires IsFirst(queues, x) && DistinctQueues(queues)
    ensures x == First(queues)
  {
    assert !First(queues).Before(x) && !x.Before(First(queues));
  }

  /** send_update reports OK: a request goes out and the caller tries again. */
  ghost predicate Sends(w: World, now: Time, badHeaders: set<EventId>) {
    && w.a.ready != [] && w.a.queues != {}
    && var it := First(w.a.queues);
       var pending := Pending(w.a.queueUpdates, it.id);
       it.wakeupAt <= now && pending != [] && pending[0] !in badHeaders
  }

  /** `badHeaders` are the events whose request headers come out too long. */
  ghost function SendUpdate(w: World, now: Time, badHeaders: set<EventId>): Outcome {
    if w.a.ready == [] || w.a.queues == {} then Next(w) else
    var it := First(w.a.queues);
    if it.wakeupAt > now then Next(w) else
    var q := it.id;
    if q == 0 || Pending(w.a.queueUpdates, q) == [] then CheckFailed else
    var e := Pending(w.a.queueUpdates, q)[0];
    if e !in w.a.updates then CheckFailed else
    var a := w.a.(queues := w.a.queues - {it}, updates := w.a.updates[e := w.a.updates[e].(lastSendTime := now)]);
    if e in badHeaders then Next(World(a, w.tq, w.h.(place := w.h.place[q := Lost]))) else
    var c := a.ready[0];
    if c !in a.connections then CheckFailed else
    Next(World(a.(connections := a.connections[c := a.connections[c].(eventId := Some(e))], ready := a.ready[1..]),
               w.tq,
               w.h.(trace := w.h.trace + [Sent(e, q, c)], place := w.h.place[q := OnConnection(c)])))
  }

  /** send_updates: the k-th attempt reads the clock as `clock(k)`. */
  ghost function SendUpdates(w: World, clock: nat -> Time, k: nat, badHeaders: set<EventId>): Outcome
    decreases |w.a.ready|
  {
    var r := SendUpdate(w, clock(k), badHeaders);
    if r.Next? && Sends(w, clock(k), badHeaders) then SendUpdates(r.w, clock, k + 1, badHeaders) else r
  }

  // ---------- handle ----------

  predicate IsError(response: Option<Response>) {
    response.None? || !response.value.isResponse || !(200 <= response.value.code <= 299)
  }

  predicate ClosesConnection(response: Option<Response>, current: int, generation: int) {
    response.None? || !response.value.isResponse || !response.value.keepAlive || current != generation
  }

  /** The webhook has been answering 410 for so long that it is given up. */
  predicate GivesUp(a: Actor, response: Option<Response>, now: Time) {
    && response.Some? && response.value.isResponse && response.value.code == 410
    && a.first410 != 0 && now > a.first410 + DROP_TIMEOUT
  }

  function First410(a: Actor, response: Option<Response>, now: Time): Time {
    if response.None? || !response.value.isResponse then a.first410
    else if response.value.code != 410 then 0
    else if a.first410 == 0 then now else a.first410
  }

  function RetryAfter(response: Option<Response>): int {
    if response.Some? && response.value.isResponse && IsError(response) then response.value.retryAfter else 0
  }

  /** The elements of `s` other than `c`. */
  function Remove(s: seq<ConnectionId>, c: ConnectionId): (r: seq<ConnectionId>)
    ensures forall x :: x in r <==> x in s && x != c
  {
    if s == [] then [] else (if s[0] == c then [] else [s[0]]) + Remove(s[1..], c)
  }

  /** What becomes of the event a connection carried. */
  function Settle(w: World, e: EventId, response: Option<Response>, now: Time, unixNow: int, backoff: int): Outcome {
    if IsError(response)
    then OnUpdateError(w, e, RetryAfter(response), now, unixNow, backoff)
    else OnUpdateOk(w, e, now)
  }

  function Release(w: World, c: ConnectionId, closes: bool): World
    requires c in w.a.connections
  {
    if closes then
      w.(a := w.a.(connections := w.a.connections - {c}, ready := Remove(w.a.ready, c)))
    else
      w.(a := w.a.(connections := w.a.connections[c := w.a.connections[c].(eventId := None)],
                   ready := w.a.ready + [c]))
  }

  /** handle: an answer, or with no answer a hangup, on connection `c`. */
  function Handle(w: World, c: ConnectionId, response: Option<Response>, now: Time, unixNow: int, backoff: int): Outcome
  {
    if c !in w.a.connections then Next(w) else
    var connection := w.a.connections[c];
    var closes := ClosesConnection(response, w.a.ipGeneration, connection.ipGeneration) || GivesUp(w.a, response, now);
    var w1 := w.(a := w.a.(first410 := First410(w.a, response, now)));
    if connection.eventId.None? then
      if IsError(response) then Next(Release(w1, c, closes)) else CheckFailed
    else
      var r := Settle(w1, connection.eventId.value, response, now, unixNow, backoff);
      if r.CheckFailed? || c !in r.w.a.connections then CheckFailed else Next(Release(r.w, c, closes))
  }

  // ---------- create_new_connections ----------

  function Total(a: Actor): nat {
    |a.connections| + |a.pendingSockets| + a.readySockets
  }

  function NeedConnections(a: Actor, now: Time): nat {
    var need := if !a.wasChecked then 1 else Min(|a.queueUpdates|, a.maxConnections);
    if a.lastSuccess + 10 * SECOND < now then Min(need, 1) else if need == 0 then 1 else need
  }

  /** on_error: an error before the webhook was verified stops the actor. */
  function OnError(a: Actor): Actor {
    if a.wasChecked then a else a.(stopFlag := true)
  }

  function Connect(a: Actor): Actor {
    a.(connections := a.connections[a.nextConnection := Connection(None, a.ipGeneration)],
       ready := a.ready + [a.nextConnection], nextConnection := a.nextConnection + 1, wasChecked := true)
  }

  /** One attempt of create_connection(). */
  function Open(a: Actor, attempt: Attempt): Actor {
    match attempt
    case FloodLimit => a
    case Failed => OnError(a)
    case ProxyPending =>
      a.(pendingSockets := a.pendingSockets + {a.nextSocket}, nextSocket := a.nextSocket + 1, wasChecked := true)
    case Connected => Connect(a)
  }

  /** The first loop; the flag tells whether the function goes on to the sockets that became ready. */
  function OpenNew(a: Actor, need: nat, attempts: seq<Attempt>): (Actor, bool)
    decreases |attempts|
  {
    if Total(a) >= need || attempts == [] || attempts[0] == FloodLimit then (a, true)
    else if attempts[0] == Connected then OpenNew(Connect(a), need, attempts[1..])
    else (Open(a, attempts[0]), false)
  }

  /** The second loop: `succeeds(k)` tells whether the k-th ready socket could be turned into a connection. */
  function UseReady(a: Actor, need: nat, succeeds: nat -> bool, k: nat): Actor
    decreases a.readySockets
  {
    if a.readySockets == 0 || |a.connections| + |a.pendingSockets| >= need then a else
    var a1 := a.(readySockets := a.readySockets - 1);
    if succeeds(k) then UseReady(Connect(a1), need, succeeds, k + 1) else OnError(a1)
  }

  function CreateConnections(
    a: Actor, now: Time, usable: bool, attempts: seq<Attempt>, succeeds: nat -> bool): Actor
  {
    if !usable then a else
    var need := NeedConnections(a, now);
    var (a1, goesOn) := OpenNew(a, need, attempts);
    if !goesOn then a1 else UseReady(a1, need, succeeds, 0).(readySockets := 0)
  }

  function SocketReady(a: Actor, id: SocketId, ok: bool): Actor {
    var a1 := a.(pendingSockets := a.pendingSockets - {id});
    if ok then a1.(readySockets := a1.readySockets + 1) else OnError(a1)
  }

  // ---------- loop ----------

  /** What the calls of one pass through loop() find: the clock, TQueue, the sockets and the lengths of headers. */
  datatype Surroundings = Surroundings(
    now: Time, unixNow: int, getFails: bool, head: Option<EventId>,
    usable: bool, attempts: seq<Attempt>, succeeds: nat -> bool,
    clock: nat -> Time, badHeaders: set<EventId>)

  ghost function Loop(w: World, env: Surroundings): Outcome {
    var r := if w.a.stopFlag then Next(w) else Load(w, env.now, env.unixNow, env.getFails, env.head);
    if r.CheckFailed? || r.w.a.stopFlag then r else
    var w2 := r.w.(a := CreateConnections(r.w.a, env.now, env.usable, env.attempts, env.succeeds));
    if w2.a.stopFlag then Next(w2) else SendUpdates(w2, env.clock, 0, env.badHeaders)
  }

  // ---------- Runs ----------

  /** Everything that can happen, in any order. The first two are TQueue's own. */
  datatype Input =
    | Push(event: Event)
    | Vanish(gone: set<EventId>)
    | NewUpdates
    | LoadUpdates(now: Time, unixNow: int, getFails: bool, head: Option<EventId>)
    | NewConnections(now: Time, usable: bool, attempts: seq<Attempt>, succeeds: nat -> bool)
    | OnSocketReady(id: SocketId, ok: bool)
    | TrySend(now: Time, badHeaders: set<EventId>)
    | OnHandle(c: ConnectionId, response: Option<Response>, now: Time, unixNow: int, backoff: int)
    | NewAddress

  ghost function Step(w: World, input: Input): Outcome {
    match input
    case Push(event) => Next(w.(tq := TQueue(w.tq.events + [event], event.id + 1)))
    case Vanish(gone) => Next(w.(tq := w.tq.(events := Keep(w.tq.events, gone))))
    case NewUpdates => Next(w.(a := w.a.(tqueueEmpty := false)))
    case LoadUpdates(now, unixNow, getFails, head) => Load(w, now, unixNow, getFails, head)
    case NewConnections(now, usable, attempts, succeeds) =>
      Next(w.(a := CreateConnections(w.a, now, usable, attempts, succeeds)))
    case OnSocketReady(id, ok) => Next(w.(a := SocketReady(w.a, id, ok)))
    case TrySend(now, badHeaders) => SendUpdate(w, now, badHeaders)
    case OnHandle(c, response, now, unixNow, backoff) => Handle(w, c, response, now, unixNow, backoff)
    case NewAddress => Next(w.(a := w.a.(ipGeneration := w.a.ipGeneration + 1)))
  }

  /**
   What the surroundings guarantee: TQueue gives growing ids, hands out no expired event and names a head no later
   than any event it holds; a proxy socket reports once; an answer arrives only on a connection that has a request.
   */
  predicate Admissible(w: World, input: Input) {
    match input
    case Push(event) => w.tq.tail <= event.id
    case LoadUpdates(now, unixNow, getFails, head) => HeadOk(w.tq, head) && Fresh(w, unixNow, getFails, head)
    case OnSocketReady(id, ok) => id in w.a.pendingSockets
    case OnHandle(c, response, _, _, _) =>
      response.Some? && c in w.a.connections ==> w.a.connections[c].eventId.Some?
    case _ => true
  }

  predicate HeadOk(tq: TQueue, head: Option<EventId>) {
    if head.None? then tq.events == [] else
    head.value <= tq.tail && forall e | e in tq.events :: head.value <= e.id
  }

  /** TQueue removes expired events before it hands events out. */
  predicate Fresh(w: World, unixNow: int, getFails: bool, head: Option<EventId>) {
    var offset := Positioned(w, getFails, head).a.tqueueOffset;
    offset.Some? ==> forall e | e in w.tq.events && offset.value <= e.id :: unixNow <= e.expiresAt
  }

  ghost function Run(w: World, inputs: seq<Input>): Outcome
    decreases |inputs|
  {
    if inputs == [] then Next(w) else
    var r := Step(w, inputs[0]);
    if r.CheckFailed? then CheckFailed else Run(r.w, inputs[1..])
  }

  ghost predicate AdmissibleRun(w: World, inputs: seq<Input>)
    decreases |inputs|
  {
    inputs == [] ||
    (Admissible(w, inputs[0])
     && (Step(w, inputs[0]).Next? ==> AdmissibleRun(Step(w, inputs[0]).w, inputs[1..])))
  }
}
