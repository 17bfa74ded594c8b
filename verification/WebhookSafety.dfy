/**
 What every run of the webhook scheduler keeps: the four structures agree, no CHECK fires, events of a queue are
 delivered in order, nothing is lost or forgotten twice, and the limits hold.
 */
module WebhookSafety {
  import opened Common
  import opened WebhookSpec

  // ---------- Reading a trace ----------

  /** The events of queue `q` in the order they were loaded. */
  function Loads(t: seq<Label>, q: QueueId): seq<EventId> {
    if t == [] then [] else
    var l := t[|t| - 1];
    Loads(t[..|t| - 1], q) + if l.Loaded? && l.q == q then [l.e] else []
  }

  predicate IsForget(l: Label) {
    l.Answered? || l.Expired?
  }

  /** The events of queue `q` in the order they were forgotten. */
  function Forgets(t: seq<Label>, q: QueueId): seq<EventId> {
    if t == [] then [] else
    var l := t[|t| - 1];
    Forgets(t[..|t| - 1], q) + if IsForget(l) && l.q == q then [l.e] else []
  }

  /** The last thing that was done about queue `q`, other than loading. */
  function LastAction(t: seq<Label>, q: QueueId): Option<Label> {
    if t == [] then None else
    var l := t[|t| - 1];
    if !l.Loaded? && l.q == q then Some(l) else LastAction(t[..|t| - 1], q)
  }

  function LoadedIds(t: seq<Label>): set<EventId> {
    if t == [] then {} else
    var l := t[|t| - 1];
    LoadedIds(t[..|t| - 1]) + if l.Loaded? then {l.e} else {}
  }

  function ForgottenIds(t: seq<Label>): set<EventId> {
    if t == [] then {} else
    var l := t[|t| - 1];
    ForgottenIds(t[..|t| - 1]) + if IsForget(l) then {l.e} else {}
  }

  /** The request for `e` is the last thing that was done about `q`. */
  predicate Outstanding(t: seq<Label>, q: QueueId, e: EventId) {
    var last := LastAction(t, q);
    last.Some? && last.value.Sent? && last.value.e == e
  }

  predicate NothingOutstanding(t: seq<Label>, q: QueueId) {
    var last := LastAction(t, q);
    last.Some? ==> !last.value.Sent?
  }

  /**
   What makes a label legal after `t`. Events are loaded with growing ids. A request is sent only while the queue has
   none outstanding, for the first event that was not forgotten. An answer, an expiry or a retry settles the
   outstanding request, and an event expires only when its next attempt would come after its expiry.
   */
  predicate Legal(t: seq<Label>, l: Label) {
    match l
    case Loaded(e, q) => forall x | x in LoadedIds(t) :: x < e
    case Sent(e, q, _) => Forgets(t, q) + [e] <= Loads(t, q) && NothingOutstanding(t, q)
    case Answered(e, q) => Outstanding(t, q, e) && e !in ForgottenIds(t)
    case Expired(e, q, retryAt, expiresAt) => Outstanding(t, q, e) && e !in ForgottenIds(t) && expiresAt < retryAt
    case Retried(e, q) => Outstanding(t, q, e)
  }

  predicate LegalTrace(t: seq<Label>) {
    t == [] || (LegalTrace(t[..|t| - 1]) && Legal(t[..|t| - 1], t[|t| - 1]))
  }

  lemma Snoc(t: seq<Label>, l: Label)
    ensures forall q :: Loads(t + [l], q) == Loads(t, q) + if l.Loaded? && l.q == q then [l.e] else []
    ensures forall q :: Forgets(t + [l], q) == Forgets(t, q) + if IsForget(l) && l.q == q then [l.e] else []
    ensures forall q :: LastAction(t + [l], q) == if !l.Loaded? && l.q == q then Some(l) else LastAction(t, q)
    ensures LoadedIds(t + [l]) == LoadedIds(t) + if l.Loaded? then {l.e} else {}
    ensures ForgottenIds(t + [l]) == ForgottenIds(t) + if IsForget(l) then {l.e} else {}
    ensures LegalTrace(t + [l]) <==> LegalTrace(t) && Legal(t, l)
  {
    assert (t + [l])[..|t|] == t;
  }

  // ---------- The invariant ----------

  type Updates = map<EventId, Update>
  type Queues = map<QueueId, seq<EventId>>
  type Places = map<QueueId, Place>

  /** Every loaded event is in exactly one queue; queues are not empty and their ids grow. */
  ghost predicate Partition(us: Updates, qs: Queues) {
    && (forall q | q in qs :: q != 0 && qs[q] != [])
    && (forall q, e | q in qs && e in qs[q] :: e in us && us[e].queueId == q)
    && (forall e {:trigger InItsQueue(us, qs, e)} | e in us :: InItsQueue(us, qs, e))
    && (forall q | q in qs :: Growing(qs[q]))
  }

  ghost predicate InItsQueue(us: Updates, qs: Queues, e: EventId)
    requires e in us
  {
    us[e].queueId in qs && e in qs[us[e].queueId]
  }

  predicate Growing(s: seq<EventId>) {
    forall i, j {:trigger Less(s, i, j)} | 0 <= i < j < |s| :: Less(s, i, j)
  }

  predicate Less(s: seq<EventId>, i: nat, j: nat)
    requires i < |s| && j < |s|
  {
    s[i] < s[j]
  }

  /** The event queue `q` delivers next. */
  function Front(qs: Queues, q: QueueId): EventId {
    if q in qs && qs[q] != [] then qs[q][0] else 0
  }

  /** When the front event of `q` is to be sent. */
  function WakeupAt(us: Updates, qs: Queues, q: QueueId): Time {
    var e := Front(qs, q);
    if e in us then us[e].wakeupAt else 0
  }

  /** queues_ holds exactly the entries of the scheduled queues, each with the wakeup time of its front event. */
  ghost predicate Schedule(us: Updates, qs: Queues, entries: set<Entry>, place: Places) {
    && (forall x | x in entries :: x.id in place && place[x.id] == Scheduled && x.wakeupAt == WakeupAt(us, qs, x.id))
    && (forall q | q in place && place[q] == Scheduled :: Entry(WakeupAt(us, qs, q), q) in entries)
  }

  /** A connection carries an event exactly when it carries the front event of a queue placed on it. */
  ghost predicate Flights(us: Updates, qs: Queues, cs: map<ConnectionId, Connection>, place: Places) {
    && (forall c | c in cs && cs[c].eventId.Some? :: Carries(us, qs, place, c, cs[c].eventId.value))
    && (forall q | q in place && place[q].OnConnection? ::
          place[q].c in cs && cs[place[q].c].eventId == Some(Front(qs, q)))
  }

  ghost predicate Carries(us: Updates, qs: Queues, place: Places, c: ConnectionId, e: EventId) {
    && e in us && us[e].queueId in place
    && place[us[e].queueId] == OnConnection(c) && e == Front(qs, us[e].queueId)
  }

  /** The idle connections are exactly those in the ready list, each once. */
  ghost predicate Idle(cs: map<ConnectionId, Connection>, ready: seq<ConnectionId>) {
    && Distinct(ready)
    && (forall c | c in ready :: c in cs && cs[c].eventId.None?)
    && (forall c | c in cs && cs[c].eventId.None? :: c in ready)
  }

  ghost predicate Limits(a: Actor) {
    && |a.queueUpdates| <= a.maxLoaded == 2 * a.maxConnections
    && 0 < a.uniqueQueueId
    && (forall c | c in a.connections :: c < a.nextConnection)
    && (forall id | id in a.pendingSockets :: id < a.nextSocket)
    && 0 < a.maxConnections && Total(a) <= a.maxConnections
  }

  predicate Ascending(events: seq<Event>) {
    forall i, j {:trigger Earlier(events, i, j)} | 0 <= i < j < |events| :: Earlier(events, i, j)
  }

  predicate Earlier(events: seq<Event>, i: nat, j: nat)
    requires i < |events| && j < |events|
  {
    events[i].id < events[j].id
  }

  /** Every event TQueue still holds is loaded or yet to come, and the yet-to-come ones have larger ids. */
  ghost predicate Source(us: Updates, offset: Option<EventId>, tq: TQueue, high: EventId) {
    && Ascending(tq.events)
    && (forall x | x in tq.events :: x.id < tq.tail && (x.id < high ==> x.id in us))
    && (forall e | e in us :: e < high)
    && (offset.Some? ==> offset.value <= high)
    && high <= tq.tail
  }

  /** Per queue, what was loaded is what was forgotten followed by what is pending. */
  ghost predicate Accounts(us: Updates, qs: Queues, t: seq<Label>, high: EventId) {
    && (forall q :: Loads(t, q) == Forgets(t, q) + Pending(qs, q))
    && LoadedIds(t) == us.Keys + ForgottenIds(t)
    && us.Keys !! ForgottenIds(t)
    && (forall e | e in LoadedIds(t) :: e < high)
  }

  ghost predicate Requests(qs: Queues, t: seq<Label>, place: Places) {
    && LegalTrace(t)
    && (forall q | q in place && place[q].OnConnection? :: Outstanding(t, q, Front(qs, q)))
    && (forall q | q !in place || !place[q].OnConnection? :: NothingOutstanding(t, q))
  }

  ghost predicate Inv(w: World) {
    && w.h.place.Keys == w.a.queueUpdates.Keys
    && Partition(w.a.updates, w.a.queueUpdates)
    && Schedule(w.a.updates, w.a.queueUpdates, w.a.queues, w.h.place)
    && Flights(w.a.updates, w.a.queueUpdates, w.a.connections, w.h.place)
    && Idle(w.a.connections, w.a.ready)
    && Limits(w.a)
    && Source(w.a.updates, w.a.tqueueOffset, w.tq, w.h.high)
    && Accounts(w.a.updates, w.a.queueUpdates, w.h.trace, w.h.high)
    && Requests(w.a.queueUpdates, w.h.trace, w.h.place)
  }

  // ---------- Loading ----------

  lemma GrowingSnoc(s: seq<EventId>, e: EventId)
    requires Growing(s) && forall x | x in s :: x < e
    ensures Growing(s + [e])
  {
    forall i, j | 0 <= i < j < |s + [e]|
      ensures Less(s + [e], i, j)
    {
      assert j < |s| ==> Less(s, i, j);
      assert s[i] in s;
    }
  }

  lemma PushPartition(us: Updates, qs: Queues, e: EventId, u: Update)
    requires Partition(us, qs) && u.queueId != 0
    requires forall x | x in us :: x < e
    ensures Partition(us[e := u], qs[u.queueId := Pending(qs, u.queueId) + [e]])
  {
    var q := u.queueId;
    var rest := Pending(qs, q);
    var us', qs' := us[e := u], qs[q := rest + [e]];
    assert (rest + [e])[|rest|] == e;
    forall x | x in us'
      ensures InItsQueue(us', qs', x)
    {
      assert x in us ==> InItsQueue(us, qs, x);
    }
    forall p, x | p in qs' && x in qs'[p]
      ensures x in us' && us'[x].queueId == p
    {
      if p == q && x != e {
        assert x in rest && q in qs && x in qs[q];
        assert us[x].queueId == p;
      } else if p != q {
        assert p in qs && x in qs[p];
        assert us[x].queueId == p;
        assert x < e;
      } else {
        assert us'[x] == u;
      }
    }
    assert forall x | x in rest :: q in qs && x in qs[q] && x in us;
    GrowingSnoc(rest, e);
  }

  lemma PushSchedule(us: Updates, qs: Queues, entries: set<Entry>, place: Places, e: EventId, u: Update)
    requires Partition(us, qs) && place.Keys == qs.Keys && Schedule(us, qs, entries, place) && e !in us
    ensures var qs' := qs[u.queueId := Pending(qs, u.queueId) + [e]];
            if u.queueId in qs then Schedule(us[e := u], qs', entries, place)
            else Schedule(us[e := u], qs', entries + {Entry(u.wakeupAt, u.queueId)}, place[u.queueId := Scheduled])
  {
    var q := u.queueId;
    var us', qs' := us[e := u], qs[q := Pending(qs, q) + [e]];
    hide Partition, WakeupAt, Front, Pending;
    forall p | p in qs
      ensures WakeupAt(us', qs', p) == WakeupAt(us, qs, p)
    {
      PushWakeup(us, qs, e, u, p);
    }
    NewWakeup(us, qs, e, u);
  }

  /** A queue that is loaded keeps its front event, whatever is pushed. */
  lemma PushWakeup(us: Updates, qs: Queues, e: EventId, u: Update, p: QueueId)
    requires Partition(us, qs) && e !in us && p in qs
    ensures var qs' := qs[u.queueId := Pending(qs, u.queueId) + [e]];
            WakeupAt(us[e := u], qs', p) == WakeupAt(us, qs, p)
  {
    assert Front(qs, p) in qs[p];
  }

  lemma NewWakeup(us: Updates, qs: Queues, e: EventId, u: Update)
    ensures u.queueId !in qs ==>
              WakeupAt(us[e := u], qs[u.queueId := Pending(qs, u.queueId) + [e]], u.queueId) == u.wakeupAt
  {
  }

  lemma PushFlights(
    us: Updates, qs: Queues, cs: map<ConnectionId, Connection>, place: Places, e: EventId, u: Update)
    requires Partition(us, qs) && place.Keys == qs.Keys && Flights(us, qs, cs, place) && e !in us
    ensures var qs' := qs[u.queueId := Pending(qs, u.queueId) + [e]];
            Flights(us[e := u], qs', cs, if u.queueId in qs then place else place[u.queueId := Scheduled])
  {
    var q := u.queueId;
    var us', qs' := us[e := u], qs[q := Pending(qs, q) + [e]];
    assert forall p | p in qs :: Front(qs', p) == Front(qs, p);
  }

  lemma PushAccounts(us: Updates, qs: Queues, t: seq<Label>, high: EventId, e: EventId, u: Update)
    requires Accounts(us, qs, t, high) && high <= e
    ensures Accounts(us[e := u], qs[u.queueId := Pending(qs, u.queueId) + [e]], t + [Loaded(e, u.queueId)], e + 1)
  {
    Snoc(t, Loaded(e, u.queueId));
  }

  lemma PushRequests(qs: Queues, t: seq<Label>, place: Places, e: EventId, q: QueueId)
    requires place.Keys == qs.Keys && Requests(qs, t, place)
    requires forall x | x in LoadedIds(t) :: x < e
    requires q in qs ==> qs[q] != []
    ensures Requests(qs[q := Pending(qs, q) + [e]], t + [Loaded(e, q)],
                     if q in qs then place else place[q := Scheduled])
  {
    Snoc(t, Loaded(e, q));
    var qs' := qs[q := Pending(qs, q) + [e]];
    assert forall p | p in qs :: Front(qs', p) == Front(qs, p);
  }

  lemma PushSource(us: Updates, offset: Option<EventId>, tq: TQueue, high: EventId, e: Event, u: Update)
    requires Source(us, offset, tq, high) && e in tq.events && high <= e.id
    requires forall x | x in tq.events && x.id < e.id :: x.id in us
    ensures Source(us[e.id := u], Some(e.id + 1), tq, e.id + 1)
  {
  }

  /** An event that is not loaded is newer than everything that was. */
  lemma NewEventFacts(w: World, e: Event)
    requires Inv(w) && e in w.tq.events && e.id !in w.a.updates
    ensures w.h.high <= e.id && QueueOf(w.a, e) != 0
    ensures forall x | x in w.a.updates :: x < e.id
    ensures forall x | x in LoadedIds(w.h.trace) :: x < e.id
    ensures QueueOf(w.a, e) in w.a.queueUpdates ==> w.a.queueUpdates[QueueOf(w.a, e)] != []
  {
    hide Schedule, Flights, Idle, Requests;
  }

  lemma LoadOneStructure(w: World, e: Event, now: Time)
    requires Inv(w) && e in w.tq.events && e.id !in w.a.updates
    ensures var w' := LoadOne(w, e, now);
            && w'.h.place.Keys == w'.a.queueUpdates.Keys
            && Partition(w'.a.updates, w'.a.queueUpdates)
            && Schedule(w'.a.updates, w'.a.queueUpdates, w'.a.queues, w'.h.place)
            && Flights(w'.a.updates, w'.a.queueUpdates, w'.a.connections, w'.h.place)
            && Accounts(w'.a.updates, w'.a.queueUpdates, w'.h.trace, w'.h.high)
            && Requests(w'.a.queueUpdates, w'.h.trace, w'.h.place)
  {
    hide Partition, Schedule, Flights, Idle, Limits, Source, Accounts, Requests;
    NewEventFacts(w, e);
    var us, qs, q := w.a.updates, w.a.queueUpdates, QueueOf(w.a, e);
    var u := Update(q, e.expiresAt, 1, 0, now, 0);
    PushPartition(us, qs, e.id, u);
    PushSchedule(us, qs, w.a.queues, w.h.place, e.id, u);
    PushFlights(us, qs, w.a.connections, w.h.place, e.id, u);
    PushAccounts(us, qs, w.h.trace, w.h.high, e.id, u);
    PushRequests(qs, w.h.trace, w.h.place, e.id, q);
  }

  /** Loading an event leaves the connections alone. */
  predicate SameSockets(a: Actor, a': Actor) {
    && a'.connections == a.connections && a'.ready == a.ready && a'.pendingSockets == a.pendingSockets
    && a'.readySockets == a.readySockets && a'.nextConnection == a.nextConnection && a'.nextSocket == a.nextSocket
    && a'.maxConnections == a.maxConnections && a'.maxLoaded == a.maxLoaded
  }

  lemma LoadOneFields(w: World, e: Event, now: Time)
    requires e.id !in w.a.updates
    ensures var w', q := LoadOne(w, e, now), QueueOf(w.a, e);
            && SameSockets(w.a, w'.a) && w'.tq == w.tq && w'.h.high == Max(w.h.high, e.id + 1)
            && w'.a.updates == w.a.updates[e.id := Update(q, e.expiresAt, 1, 0, now, 0)]
            && w'.a.tqueueOffset == Some(e.id + 1) && w.a.uniqueQueueId <= w'.a.uniqueQueueId
            && w'.a.queueUpdates == w.a.queueUpdates[q := Pending(w.a.queueUpdates, q) + [e.id]]
  {
  }

  lemma PushLimits(a: Actor, a': Actor, q: QueueId, pending: seq<EventId>)
    requires Limits(a) && |a.queueUpdates| < a.maxLoaded && SameSockets(a, a')
    requires a'.queueUpdates == a.queueUpdates[q := pending] && a.uniqueQueueId <= a'.uniqueQueueId
    ensures Limits(a') && |a'.queueUpdates| <= |a.queueUpdates| + 1
  {
    assert a'.queueUpdates.Keys == a.queueUpdates.Keys + {q};
  }

  lemma LoadOneLimits(w: World, e: Event, now: Time)
    requires Inv(w) && e in w.tq.events && |w.a.queueUpdates| < w.a.maxLoaded && e.id !in w.a.updates
    requires forall x | x in w.tq.events && x.id < e.id :: x.id in w.a.updates
    ensures var w' := LoadOne(w, e, now);
            && Limits(w'.a) && Idle(w'.a.connections, w'.a.ready)
            && Source(w'.a.updates, w'.a.tqueueOffset, w'.tq, w'.h.high)
            && |w'.a.queueUpdates| <= |w.a.queueUpdates| + 1
  {
    hide Partition, Schedule, Flights, Idle, Limits, Source, Accounts, Requests, LoadOne;
    var q := QueueOf(w.a, e);
    LoadOneFields(w, e, now);
    NewEventFacts(w, e);
    PushSource(w.a.updates, w.a.tqueueOffset, w.tq, w.h.high, e, Update(q, e.expiresAt, 1, 0, now, 0));
    PushLimits(w.a, LoadOne(w, e, now).a, q, Pending(w.a.queueUpdates, q) + [e.id]);
  }

  /** Loading the next event TQueue holds keeps the invariant while there is room for one more queue. */
  lemma LoadOneKeeps(w: World, e: Event, now: Time)
    requires Inv(w) && e in w.tq.events && |w.a.queueUpdates| < w.a.maxLoaded
    requires forall x | x in w.tq.events && x.id < e.id :: x.id in w.a.updates
    ensures Inv(LoadOne(w, e, now))
    ensures var w' := LoadOne(w, e, now);
            && w'.tq == w.tq && w'.a.maxLoaded == w.a.maxLoaded
            && w'.a.updates.Keys == w.a.updates.Keys + {e.id}
            && |w'.a.queueUpdates| <= |w.a.queueUpdates| + 1
  {
    hide Partition, Schedule, Flights, Idle, Limits, Source, Accounts, Requests, LoadOne;
    if e.id in w.a.updates {
      AlreadyLoaded(w, e, now);
    } else {
      LoadOneLimits(w, e, now);
      LoadOneStructure(w, e, now);
      LoadOneFields(w, e, now);
    }
  }

  lemma AlreadyLoaded(w: World, e: Event, now: Time)
    requires e.id in w.a.updates
    ensures LoadOne(w, e, now) == w && w.a.updates.Keys == w.a.updates.Keys + {e.id}
  {
  }

  lemma EarlierIds(w: World, k: nat)
    requires Inv(w) && k < |w.tq.events|
    ensures forall x | x in w.tq.events && x.id < w.tq.events[k].id :: x in w.tq.events[..k]
  {
    hide Partition, Schedule, Flights, Idle, Limits, Accounts, Requests;
    forall x | x in w.tq.events && x.id < w.tq.events[k].id
      ensures x in w.tq.events[..k]
    {
      var i :| 0 <= i < |w.tq.events| && w.tq.events[i] == x;
      assert k < i ==> Earlier(w.tq.events, k, i);
      assert w.tq.events[..k][i] == x;
    }
  }

  /** Loading a stretch of TQueue's events whose predecessors are all loaded. */
  lemma {:induction false} LoadAllKeeps(w: World, k: nat, batch: seq<Event>, now: Time)
    requires Inv(w) && |w.a.queueUpdates| + |batch| <= w.a.maxLoaded
    requires k + |batch| <= |w.tq.events| && batch == w.tq.events[k..k + |batch|]
    requires forall i | 0 <= i < k :: w.tq.events[i].id in w.a.updates
    ensures Inv(LoadAll(w, batch, now))
    decreases |batch|
  {
    hide Inv;
    if batch != [] {
      assert batch[0] == w.tq.events[k];
      EarlierIds(w, k);
      LoadOneKeeps(w, batch[0], now);
      LoadAllKeeps(LoadOne(w, batch[0], now), k + 1, batch[1..], now);
    }
  }

  // ---------- Sending ----------

  /** `u` stands for the same event of the same queue as `v`. */
  predicate SameQueue(u: Update, v: Update) {
    u.queueId == v.queueId
  }

  lemma UpdatePartition(us: Updates, qs: Queues, e: EventId, u: Update)
    requires Partition(us, qs) && e in us && SameQueue(u, us[e])
    ensures Partition(us[e := u], qs)
  {
    var us' := us[e := u];
    forall x | x in us'
      ensures InItsQueue(us', qs, x)
    {
      assert InItsQueue(us, qs, x);
    }
  }

  /** The entry of a queue is taken out: its front event goes elsewhere. */
  lemma TakeSchedule(us: Updates, qs: Queues, entries: set<Entry>, place: Places, x: Entry, u: Update, p: Place)
    requires Partition(us, qs) && place.Keys == qs.Keys && Schedule(us, qs, entries, place)
    requires x in entries && p != Scheduled
    requires u.wakeupAt == us[Front(qs, x.id)].wakeupAt
    ensures Schedule(us[Front(qs, x.id) := u], qs, entries - {x}, place[x.id := p])
  {
    var us' := us[Front(qs, x.id) := u];
    assert forall q | q in qs :: WakeupAt(us', qs, q) == WakeupAt(us, qs, q);
    assert forall y | y in entries && y.id == x.id :: y == x;
  }

  lemma TakeFlights(us: Updates, qs: Queues, cs: map<ConnectionId, Connection>, place: Places, q: QueueId, u: Update,
                    c: ConnectionId, connection: Connection)
    requires Partition(us, qs) && place.Keys == qs.Keys && Flights(us, qs, cs, place)
    requires q in place && place[q] == Scheduled && SameQueue(u, us[Front(qs, q)])
    requires c in cs && cs[c].eventId.None? && connection.eventId == Some(Front(qs, q))
    ensures Flights(us[Front(qs, q) := u], qs, cs[c := connection], place[q := OnConnection(c)])
  {
    assert Front(qs, q) in qs[q];
    assert forall x | x in us :: us[Front(qs, q) := u][x].queueId == us[x].queueId;
  }

  lemma LoseFlights(us: Updates, qs: Queues, cs: map<ConnectionId, Connection>, place: Places, q: QueueId, u: Update)
    requires Partition(us, qs) && place.Keys == qs.Keys && Flights(us, qs, cs, place)
    requires q in place && place[q] == Scheduled && SameQueue(u, us[Front(qs, q)])
    ensures Flights(us[Front(qs, q) := u], qs, cs, place[q := Lost])
  {
    assert Front(qs, q) in qs[q];
    assert forall x | x in us :: us[Front(qs, q) := u][x].queueId == us[x].queueId;
  }

  lemma TakeIdle(cs: map<ConnectionId, Connection>, ready: seq<ConnectionId>, connection: Connection)
    requires Idle(cs, ready) && ready != [] && connection.eventId.Some?
    ensures Idle(cs[ready[0] := connection], ready[1..])
  {
    forall i, j | 0 <= i < j < |ready[1..]|
      ensures Differ(ready[1..], i, j)
    {
      assert Differ(ready, i + 1, j + 1);
    }
    forall c | c in ready[1..]
      ensures c != ready[0]
    {
      var i :| 0 <= i < |ready[1..]| && ready[1..][i] == c;
      assert Differ(ready, 0, i + 1);
    }
  }

  lemma SentRequests(us: Updates, qs: Queues, t: seq<Label>, high: EventId, place: Places, q: QueueId, c: ConnectionId)
    requires Partition(us, qs) && place.Keys == qs.Keys && Accounts(us, qs, t, high) && Requests(qs, t, place)
    requires q in place && !place[q].OnConnection?
    ensures Requests(qs, t + [Sent(Front(qs, q), q, c)], place[q := OnConnection(c)])
  {
    Snoc(t, Sent(Front(qs, q), q, c));
    assert Loads(t, q) == Forgets(t, q) + qs[q];
    assert [Front(qs, q)] <= qs[q];
  }

  lemma LostRequests(qs: Queues, t: seq<Label>, place: Places, q: QueueId)
    requires place.Keys == qs.Keys && Requests(qs, t, place) && q in place && !place[q].OnConnection?
    ensures Requests(qs, t, place[q := Lost])
  {
  }

  /** Which events are loaded is all that TQueue's side and the accounts know about the updates. */
  lemma SameKeys(w: World, us: Updates)
    requires Inv(w) && us.Keys == w.a.updates.Keys
    ensures Source(us, w.a.tqueueOffset, w.tq, w.h.high)
    ensures Accounts(us, w.a.queueUpdates, w.h.trace, w.h.high)
  {
    assert forall e :: e in us <==> e in us.Keys;
    assert forall e :: e in w.a.updates <==> e in w.a.updates.Keys;
  }

  lemma SentAccounts(us: Updates, us': Updates, qs: Queues, t: seq<Label>, high: EventId, l: Label)
    requires Accounts(us, qs, t, high) && us'.Keys == us.Keys && !l.Loaded? && !IsForget(l)
    ensures Accounts(us', qs, t + [l], high)
  {
    Snoc(t, l);
  }

  /** What the invariant says about an entry of queues_ and about the queue it is for. */
  lemma ScheduledFacts(w: World, x: Entry)
    requires Inv(w) && x in w.a.queues
    ensures x.id != 0 && x.id in w.a.queueUpdates && w.a.queueUpdates[x.id] != []
    ensures x.id in w.h.place && w.h.place[x.id] == Scheduled
    ensures var e := Front(w.a.queueUpdates, x.id);
            e in w.a.updates && w.a.updates[e].queueId == x.id && w.a.updates[e].wakeupAt == x.wakeupAt
  {
    hide Flights, Idle, Limits, Source, Accounts, Requests;
    assert Front(w.a.queueUpdates, x.id) in w.a.queueUpdates[x.id];
  }

  lemma EntriesAreDistinct(w: World)
    requires Inv(w)
    ensures DistinctQueues(w.a.queues)
  {
    hide Partition, Flights, Idle, Limits, Source, Accounts, Requests;
  }

  lemma RequestGoesOut(w: World, now: Time, badHeaders: set<EventId>)
    requires Inv(w) && Sends(w, now, badHeaders)
    ensures SendUpdate(w, now, badHeaders).Next? && Inv(SendUpdate(w, now, badHeaders).w)
  {
    hide Partition, Schedule, Flights, Source, Accounts, Requests;
    var x := First(w.a.queues);
    ScheduledFacts(w, x);
    var us, qs, place := w.a.updates, w.a.queueUpdates, w.h.place;
    var e, c := Front(qs, x.id), w.a.ready[0];
    var u := us[e].(lastSendTime := now);
    var connection := w.a.connections[c].(eventId := Some(e));
    UpdatePartition(us, qs, e, u);
    TakeSchedule(us, qs, w.a.queues, place, x, u, OnConnection(c));
    TakeFlights(us, qs, w.a.connections, place, x.id, u, c, connection);
    TakeIdle(w.a.connections, w.a.ready, connection);
    SentRequests(us, qs, w.h.trace, w.h.high, place, x.id, c);
    SentAccounts(us, us[e := u], qs, w.h.trace, w.h.high, Sent(e, x.id, c));
    SameKeys(w, us[e := u]);
  }

  lemma QueueIsLost(w: World, now: Time, badHeaders: set<EventId>)
    requires Inv(w) && w.a.ready != [] && w.a.queues != {} && First(w.a.queues).wakeupAt <= now
    requires !Sends(w, now, badHeaders)
    ensures SendUpdate(w, now, badHeaders).Next? && Inv(SendUpdate(w, now, badHeaders).w)
  {
    hide Partition, Schedule, Flights, Idle, Source, Accounts, Requests;
    var x := First(w.a.queues);
    ScheduledFacts(w, x);
    var us, qs, place := w.a.updates, w.a.queueUpdates, w.h.place;
    var e := Front(qs, x.id);
    var u := us[e].(lastSendTime := now);
    UpdatePartition(us, qs, e, u);
    TakeSchedule(us, qs, w.a.queues, place, x, u, Lost);
    LoseFlights(us, qs, w.a.connections, place, x.id, u);
    SameKeys(w, us[e := u]);
    LostRequests(qs, w.h.trace, place, x.id);
  }

  /** The source's CHECKs in send_update never fire, and sending keeps the invariant. */
  lemma SendUpdateKeeps(w: World, now: Time, badHeaders: set<EventId>)
    requires Inv(w)
    ensures SendUpdate(w, now, badHeaders).Next? && Inv(SendUpdate(w, now, badHeaders).w)
  {
    hide Inv;
    if w.a.ready != [] && w.a.queues != {} && First(w.a.queues).wakeupAt <= now {
      if Sends(w, now, badHeaders) {
        RequestGoesOut(w, now, badHeaders);
      } else {
        QueueIsLost(w, now, badHeaders);
      }
    }
  }

  lemma WithOffsetFields(w: World, head: Option<EventId>)
    ensures var w' := WithOffset(w, head);
            w'.tq == w.tq && w'.a == w.a.(tqueueOffset := head)
  {
  }

  lemma PositionedFields(w: World, getFails: bool, head: Option<EventId>)
    ensures var w' := Positioned(w, getFails, head);
            w'.tq == w.tq && w'.a == w.a.(tqueueOffset := w'.a.tqueueOffset)
  {
  }

  lemma WithOffsetKeeps(w: World, head: Option<EventId>)
    requires Inv(w) && HeadOk(w.tq, head)
    ensures Inv(WithOffset(w, head)) && HeadOk(WithOffset(w, head).tq, head)
  {
    hide Partition, Schedule, Flights, Idle, Source, Requests;
    OffsetSource(w.a.updates, w.a.tqueueOffset, w.tq, w.h.high, head);
  }

  lemma OffsetSource(us: Updates, offset: Option<EventId>, tq: TQueue, high: EventId, head: Option<EventId>)
    requires Source(us, offset, tq, high) && HeadOk(tq, head)
    ensures Source(us, head, tq, if head.Some? then Max(high, head.value) else high)
  {
    hide Ascending;
  }

  lemma PositionedKeeps(w: World, getFails: bool, head: Option<EventId>)
    requires Inv(w) && HeadOk(w.tq, head)
    ensures Inv(Positioned(w, getFails, head))
    ensures var w' := Positioned(w, getFails, head);
            w'.tq == w.tq && w'.a.queueUpdates == w.a.queueUpdates && w'.a.maxLoaded == w.a.maxLoaded
  {
    hide Inv, HeadOk;
    WithOffsetKeeps(w, head);
    WithOffsetKeeps(WithOffset(w, head), head);
  }

  lemma BatchKeeps(w: World, now: Time, unixNow: int, getFails: bool, head: Option<EventId>, batch: seq<Event>)
    requires Inv(w) && HeadOk(w.tq, head) && |w.a.queueUpdates| < w.a.maxLoaded
    requires var w1 := Positioned(w, getFails, head);
             w1.a.tqueueOffset.Some?
             && batch == Batch(w1.tq, w1.a.tqueueOffset.value,
                               Min(EVENT_BUFFER_SIZE, w.a.maxLoaded - |w.a.queueUpdates|))
    ensures var w1 := Positioned(w, getFails, head);
            Inv(LoadAll(w1.(a := w1.a.(tqueueEmpty := batch == [])), batch, now))
  {
    hide Partition, Schedule, Flights, Idle, Limits, Source, Accounts, Requests;
    PositionedKeeps(w, getFails, head);
    var w1 := Positioned(w, getFails, head);
    var w2 := w1.(a := w1.a.(tqueueEmpty := batch == []));
    var k := From(w1.tq.events, w1.a.tqueueOffset.value);
    SkippedAreLoaded(w1, k);
    assert Limits(w2.a) by { LimitsIgnoreEmpty(w1.a, batch == []); }
    LoadAllKeeps(w2, k, batch, now);
  }

  lemma LimitsIgnoreEmpty(a: Actor, b: bool)
    ensures Limits(a) ==> Limits(a.(tqueueEmpty := b))
  {
  }

  lemma LoadedWithinLimit(w: World)
    requires Inv(w)
    ensures |w.a.queueUpdates| <= w.a.maxLoaded
  {
    hide Partition, Schedule, Flights, Idle, Source, Accounts, Requests;
  }

  lemma EmptyKeeps(w: World)
    requires Inv(w)
    ensures var w1 := w.(a := w.a.(tqueueEmpty := true)); Inv(w1) && LoadAll(w1, [], 0) == w1
    ensures forall now :: LoadAll(w.(a := w.a.(tqueueEmpty := true)), [], now) == w.(a := w.a.(tqueueEmpty := true))
  {
    hide Partition, Schedule, Flights, Idle, Limits, Source, Accounts, Requests;
    LimitsIgnoreEmpty(w.a, true);
  }

  /** load_updates never loads more queues than allowed, so its CHECK holds, and it keeps the invariant. */
  lemma LoadKeeps(w: World, now: Time, unixNow: int, getFails: bool, head: Option<EventId>)
    requires Inv(w) && HeadOk(w.tq, head) && Fresh(w, unixNow, getFails, head)
    ensures Load(w, now, unixNow, getFails, head).Next? && Inv(Load(w, now, unixNow, getFails, head).w)
  {
    hide Inv, Positioned, Batch, LoadAll, HeadOk;
    LoadedWithinLimit(w);
    if !w.a.tqueueEmpty && |w.a.queueUpdates| < w.a.maxLoaded {
      PositionedKeeps(w, getFails, head);
      var w1 := Positioned(w, getFails, head);
      EmptyKeeps(w1);
      var limit := Min(EVENT_BUFFER_SIZE, w.a.maxLoaded - |w.a.queueUpdates|);
      if w1.a.tqueueOffset.Some? {
        var batch := Batch(w1.tq, w1.a.tqueueOffset.value, limit);
        BatchIsFresh(w1, w1.a.tqueueOffset.value, limit);
        BatchKeeps(w, now, unixNow, getFails, head, batch);
      }
    }
  }

  /** The events before the offset are loaded already. */
  lemma SkippedAreLoaded(w: World, k: nat)
    requires Inv(w) && w.a.tqueueOffset.Some? && k == From(w.tq.events, w.a.tqueueOffset.value)
    ensures forall i | 0 <= i < k :: w.tq.events[i].id in w.a.updates
  {
    hide Partition, Schedule, Flights, Idle, Limits, Accounts, Requests;
    assert forall i | 0 <= i < k :: w.tq.events[i] in w.tq.events;
  }

  lemma BatchIsEarliest(w: World, offset: EventId, limit: nat)
    requires Inv(w)
    ensures forall x | x in w.tq.events && offset <= x.id && x !in Batch(w.tq, offset, limit) ::
              |Batch(w.tq, offset, limit)| == limit && forall e | e in Batch(w.tq, offset, limit) :: e.id < x.id
  {
    hide Partition, Schedule, Flights, Idle, Limits, Accounts, Requests, Ascending, Batch;
    var events, batch := w.tq.events, Batch(w.tq, offset, limit);
    forall x | x in events && offset <= x.id && x !in batch
      ensures |batch| == limit && forall e | e in batch :: e.id < x.id
    {
      var j :| 0 <= j < |events| && events[j] == x;
      BehindTheBatch(w.tq, offset, limit, j);
    }
  }

  lemma BehindTheBatch(tq: TQueue, offset: EventId, limit: nat, j: nat)
    requires Ascending(tq.events) && j < |tq.events| && offset <= tq.events[j].id
    requires tq.events[j] !in Batch(tq, offset, limit)
    ensures |Batch(tq, offset, limit)| == limit
    ensures forall e | e in Batch(tq, offset, limit) :: e.id < tq.events[j].id
  {
    var k, batch := From(tq.events, offset), Batch(tq, offset, limit);
    assert forall i | k <= i < k + |batch| :: tq.events[i] == batch[i - k] && batch[i - k] in batch;
    assert k + |batch| <= j;
    forall e | e in batch
      ensures e.id < tq.events[j].id
    {
      var i :| 0 <= i < |batch| && batch[i] == e;
      assert Earlier(tq.events, k + i, j);
    }
  }

  lemma BatchIsFresh(w: World, offset: EventId, limit: nat)
    requires Inv(w)
    ensures forall e | e in Batch(w.tq, offset, limit) :: e in w.tq.events && offset <= e.id
    ensures |Batch(w.tq, offset, limit)| <= limit
    ensures forall x | x in w.tq.events && offset <= x.id && x !in Batch(w.tq, offset, limit) ::
              |Batch(w.tq, offset, limit)| == limit && forall e | e in Batch(w.tq, offset, limit) :: e.id < x.id
  {
    hide Inv, Batch;
    BatchIsEarliest(w, offset, limit);
    BatchIsBehind(w, offset, limit);
  }

  lemma BatchIsBehind(w: World, offset: EventId, limit: nat)
    requires Inv(w)
    ensures forall e | e in Batch(w.tq, offset, limit) :: e in w.tq.events && offset <= e.id
    ensures |Batch(w.tq, offset, limit)| <= limit
  {
    hide Partition, Schedule, Flights, Idle, Limits, Accounts, Requests;
    var k := From(w.tq.events, offset);
    forall e | e in Batch(w.tq, offset, limit)
      ensures e in w.tq.events && offset <= e.id
    {
      var i :| 0 <= i < |Batch(w.tq, offset, limit)| && Batch(w.tq, offset, limit)[i] == e;
      assert e == w.tq.events[k + i];
      assert i > 0 ==> Earlier(w.tq.events, k, k + i);
    }
  }

  // ---------- Answers ----------

  /** The request on `c` is settled: `c` is idle or gone, the other connections are as before. */
  ghost predicate Released(cs: map<ConnectionId, Connection>, cs': map<ConnectionId, Connection>, c: ConnectionId) {
    && (forall d | d in cs' :: d in cs && (if d == c then cs'[d].eventId.None? else cs'[d] == cs[d]))
    && (forall d | d in cs && d != c :: d in cs')
  }

  lemma RetrySchedule(us: Updates, qs: Queues, entries: set<Entry>, place: Places, q: QueueId, u: Update)
    requires Partition(us, qs) && place.Keys == qs.Keys && Schedule(us, qs, entries, place)
    requires q in place && place[q] != Scheduled
    ensures Schedule(us[Front(qs, q) := u], qs, entries + {Entry(u.wakeupAt, q)}, place[q := Scheduled])
  {
    var us' := us[Front(qs, q) := u];
    assert Front(qs, q) in qs[q];
    forall p | p in qs && p != q
      ensures WakeupAt(us', qs, p) == WakeupAt(us, qs, p)
    {
      assert Front(qs, p) in qs[p];
    }
  }

  lemma RetryFlights(us: Updates, qs: Queues, cs: map<ConnectionId, Connection>, place: Places, q: QueueId, u: Update,
                     c: ConnectionId, cs': map<ConnectionId, Connection>)
    requires Partition(us, qs) && place.Keys == qs.Keys && Flights(us, qs, cs, place)
    requires q in place && place[q] == OnConnection(c) && Front(qs, q) in us && SameQueue(u, us[Front(qs, q)])
    requires Released(cs, cs', c)
    ensures Flights(us[Front(qs, q) := u], qs, cs', place[q := Scheduled])
  {
    assert Front(qs, q) in qs[q];
    assert forall x | x in us :: us[Front(qs, q) := u][x].queueId == us[x].queueId;
  }

  lemma RetryRequests(qs: Queues, t: seq<Label>, place: Places, q: QueueId, e: EventId)
    requires Requests(qs, t, place) && q in place && place[q].OnConnection? && e == Front(qs, q)
    ensures Requests(qs, t + [Retried(e, q)], place[q := Scheduled])
  {
    Snoc(t, Retried(e, q));
  }

  /** What is left when the front event of `q` is forgotten. */
  function RestOf(qs: Queues, q: QueueId): Queues
    requires q in qs && qs[q] != []
  {
    if |qs[q]| == 1 then qs - {q} else qs[q := qs[q][1..]]
  }

  function RestPlace(qs: Queues, place: Places, q: QueueId): Places
    requires q in qs && qs[q] != []
  {
    if |qs[q]| == 1 then place - {q} else place[q := Scheduled]
  }

  function RestEntries(us: Updates, qs: Queues, entries: set<Entry>, q: QueueId): set<Entry>
    requires q in qs && qs[q] != []
  {
    if |qs[q]| == 1 then entries else entries + {Entry(WakeupAt(us, RestOf(qs, q), q), q)}
  }

  lemma DropPartition(us: Updates, qs: Queues, q: QueueId)
    requires Partition(us, qs) && q in qs
    ensures Partition(us - {Front(qs, q)}, RestOf(qs, q))
  {
    var e := Front(qs, q);
    var us', qs' := us - {e}, RestOf(qs, q);
    FrontIsFirst(qs[q]);
    forall x | x in us'
      ensures InItsQueue(us', qs', x)
    {
      assert InItsQueue(us, qs, x);
      assert x in qs[us[x].queueId];
    }
    forall p, x | p in qs' && x in qs'[p]
      ensures x in us' && us'[x].queueId == p
    {
      assert p in qs && x in qs[p];
      assert p != q ==> us[e].queueId == q by { assert e in qs[q]; }
    }
    if |qs[q]| > 1 {
      forall i, j | 0 <= i < j < |qs[q][1..]|
        ensures Less(qs[q][1..], i, j)
      {
        assert Less(qs[q], i + 1, j + 1);
      }
    }
  }

  lemma FrontIsFirst(s: seq<EventId>)
    requires Growing(s) && s != []
    ensures forall x :: x in s <==> x == s[0] || x in s[1..]
    ensures s[0] !in s[1..]
  {
    assert s == [s[0]] + s[1..];
    forall i | 0 <= i < |s[1..]|
      ensures s[1..][i] != s[0]
    {
      assert Less(s, 0, i + 1);
    }
  }

  lemma DropSchedule(us: Updates, qs: Queues, entries: set<Entry>, place: Places, q: QueueId)
    requires Partition(us, qs) && place.Keys == qs.Keys && Schedule(us, qs, entries, place)
    requires q in place && place[q] != Scheduled
    ensures Schedule(us - {Front(qs, q)}, RestOf(qs, q), RestEntries(us, qs, entries, q), RestPlace(qs, place, q))
  {
    var e := Front(qs, q);
    var us', qs' := us - {e}, RestOf(qs, q);
    FrontIsFirst(qs[q]);
    assert e in qs[q];
    forall p | p in qs && p != q
      ensures WakeupAt(us', qs', p) == WakeupAt(us, qs, p)
    {
      assert Front(qs, p) in qs[p];
    }
    if |qs[q]| > 1 {
      assert Front(qs', q) in qs[q][1..];
    }
  }

  lemma DropFlights(us: Updates, qs: Queues, cs: map<ConnectionId, Connection>, place: Places, q: QueueId,
                    c: ConnectionId, cs': map<ConnectionId, Connection>)
    requires Partition(us, qs) && place.Keys == qs.Keys && Flights(us, qs, cs, place)
    requires q in place && place[q] == OnConnection(c) && Released(cs, cs', c)
    ensures Flights(us - {Front(qs, q)}, RestOf(qs, q), cs', RestPlace(qs, place, q))
  {
    assert Front(qs, q) in qs[q];
  }

  lemma DropAccounts(us: Updates, qs: Queues, t: seq<Label>, high: EventId, q: QueueId, l: Label)
    requires Accounts(us, qs, t, high) && q in qs && qs[q] != [] && qs[q][0] in us
    requires IsForget(l) && l.e == Front(qs, q) && l.q == q
    ensures Accounts(us - {Front(qs, q)}, RestOf(qs, q), t + [l], high)
  {
    hide Loads, Forgets, LoadedIds, ForgottenIds, Pending, RestOf, LegalTrace, Legal, LastAction;
    Snoc(t, l);
    forall p
      ensures Loads(t + [l], p) == Forgets(t + [l], p) + Pending(RestOf(qs, q), p)
    {
      assert Loads(t, p) == Forgets(t, p) + Pending(qs, p);
      DropPending(qs, q, p);
    }
  }

  lemma DropPending(qs: Queues, q: QueueId, p: QueueId)
    requires q in qs && qs[q] != []
    ensures Pending(qs, p) == (if p == q then [Front(qs, q)] else []) + Pending(RestOf(qs, q), p)
  {
    assert qs[q] == [qs[q][0]] + qs[q][1..];
  }

  lemma DropRequests(us: Updates, qs: Queues, t: seq<Label>, place: Places, q: QueueId, l: Label)
    requires Partition(us, qs) && place.Keys == qs.Keys && Requests(qs, t, place)
    requires q in place && place[q].OnConnection? && Legal(t, l)
    requires IsForget(l) && l.e == Front(qs, q) && l.q == q
    ensures Requests(RestOf(qs, q), t + [l], RestPlace(qs, place, q))
  {
    Snoc(t, l);
  }

  lemma {:induction false} KeepAscending(events: seq<Event>, gone: set<EventId>)
    requires Ascending(events)
    ensures Ascending(Keep(events, gone))
  {
    hide Ascending;
    if events != [] {
      AscendingRest(events);
      KeepAscending(events[1..], gone);
      AscendingCons(events[0], Keep(events[1..], gone));
      assert [] + Keep(events[1..], gone) == Keep(events[1..], gone);
    }
  }

  lemma AscendingRest(events: seq<Event>)
    requires Ascending(events) && events != []
    ensures Ascending(events[1..]) && forall x | x in events[1..] :: events[0].id < x.id
  {
    var rest := events[1..];
    forall i, j | 0 <= i < j < |rest|
      ensures Earlier(rest, i, j)
    {
      assert Earlier(events, i + 1, j + 1);
    }
    forall x | x in rest
      ensures events[0].id < x.id
    {
      var i :| 0 <= i < |rest| && rest[i] == x;
      assert Earlier(events, 0, i + 1);
    }
  }

  lemma AscendingCons(first: Event, rest: seq<Event>)
    requires Ascending(rest) && forall x | x in rest :: first.id < x.id
    ensures Ascending([first] + rest)
  {
    forall i, j | 0 <= i < j < |[first] + rest|
      ensures Earlier([first] + rest, i, j)
    {
      if i > 0 {
        assert Earlier(rest, i - 1, j - 1);
      } else {
        assert rest[j - 1] in rest;
      }
    }
  }

  lemma DropSource(us: Updates, offset: Option<EventId>, tq: TQueue, high: EventId, e: EventId)
    requires Source(us, offset, tq, high)
    ensures Source(us - {e}, offset, tq.(events := Keep(tq.events, {e})), high)
  {
    KeepAscending(tq.events, {e});
  }

  lemma LandIdle(cs: map<ConnectionId, Connection>, ready: seq<ConnectionId>, c: ConnectionId, connection: Connection)
    requires Idle(cs, ready) && c in cs && cs[c].eventId.Some? && connection.eventId.None?
    ensures Idle(cs[c := connection], ready + [c])
  {
    forall i, j | 0 <= i < j < |ready + [c]|
      ensures Differ(ready + [c], i, j)
    {
      assert ready[i] in ready;
      assert j < |ready| ==> Differ(ready, i, j);
    }
    assert (ready + [c])[|ready|] == c;
  }

  lemma {:induction false} RemoveDistinct(ready: seq<ConnectionId>, c: ConnectionId)
    requires Distinct(ready)
    ensures Distinct(Remove(ready, c))
  {
    if ready != [] {
      var rest := ready[1..];
      forall i, j | 0 <= i < j < |rest|
        ensures Differ(rest, i, j)
      {
        assert Differ(ready, i + 1, j + 1);
      }
      RemoveDistinct(rest, c);
      var r, r' := Remove(ready, c), Remove(rest, c);
      forall i | 0 <= i < |rest|
        ensures rest[i] != ready[0]
      {
        assert Differ(ready, 0, i + 1);
      }
      forall i, j | 0 <= i < j < |r|
        ensures Differ(r, i, j)
      {
        if ready[0] == c {
          assert Differ(r', i, j);
        } else if i > 0 {
          assert Differ(r', i - 1, j - 1);
        } else {
          assert r'[j - 1] in r';
        }
      }
    }
  }

  lemma CloseIdle(cs: map<ConnectionId, Connection>, ready: seq<ConnectionId>, c: ConnectionId)
    requires Idle(cs, ready)
    ensures Idle(cs - {c}, Remove(ready, c))
  {
    RemoveDistinct(ready, c);
  }

  /** What the invariant says about a connection that carries an event. */
  lemma BusyFacts(w: World, c: ConnectionId)
    requires Inv(w) && c in w.a.connections && w.a.connections[c].eventId.Some?
    ensures var e := w.a.connections[c].eventId.value;
            && e in w.a.updates && e !in ForgottenIds(w.h.trace)
            && var q := w.a.updates[e].queueId;
               && q in w.a.queueUpdates && q in w.h.place && w.a.queueUpdates[q] != []
               && w.h.place[q] == OnConnection(c) && e == Front(w.a.queueUpdates, q)
               && Outstanding(w.h.trace, q, e)
  {
    hide Schedule, Idle, Limits, Source;
    assert Carries(w.a.updates, w.a.queueUpdates, w.h.place, c, w.a.connections[c].eventId.value);
  }

  lemma ReleaseKeeps(w: World, c: ConnectionId, closes: bool)
    requires Idle(w.a.connections, w.a.ready) && Limits(w.a) && c in w.a.connections
    requires closes || w.a.connections[c].eventId.Some?
    ensures var a := Release(w, c, closes).a;
            Idle(a.connections, a.ready) && Limits(a) && Released(w.a.connections, a.connections, c)
  {
    var connection := w.a.connections[c].(eventId := None);
    if closes {
      CloseIdle(w.a.connections, w.a.ready, c);
      assert (w.a.connections - {c}).Keys == w.a.connections.Keys - {c};
    } else {
      LandIdle(w.a.connections, w.a.ready, c, connection);
      assert w.a.connections[c := connection].Keys == w.a.connections.Keys;
    }
  }

  lemma IdleReleaseKeeps(w: World, c: ConnectionId)
    requires Inv(w) && c in w.a.connections && w.a.connections[c].eventId.None?
    ensures Inv(Release(w, c, true))
  {
    hide Partition, Schedule, Source, Accounts, Requests;
    ReleaseKeeps(w, c, true);
    hide Idle, Limits;
  }

  /** The state after the update of the event on `c` became `u` and was scheduled again. */
  function Rescheduled(w: World, e: EventId, u: Update): World {
    World(w.a.(updates := w.a.updates[e := u], queues := w.a.queues + {Entry(u.wakeupAt, u.queueId)}), w.tq,
          w.h.(trace := w.h.trace + [Retried(e, u.queueId)], place := w.h.place[u.queueId := Scheduled]))
  }

  lemma LimitsIgnoreUpdates(a: Actor, a': Actor)
    requires Limits(a) && SameSockets(a, a') && a'.queueUpdates == a.queueUpdates && a'.uniqueQueueId == a.uniqueQueueId
    ensures Limits(a')
  {
  }

  lemma RescheduledKeeps(w: World, c: ConnectionId, e: EventId, u: Update, closes: bool)
    requires Inv(w) && c in w.a.connections && w.a.connections[c].eventId == Some(e)
    requires e in w.a.updates && SameQueue(u, w.a.updates[e])
    ensures Inv(Release(Rescheduled(w, e, u), c, closes))
  {
    hide Partition, Schedule, Flights, Idle, Limits, Source, Accounts, Requests;
    BusyFacts(w, c);
    var us, qs, place, q := w.a.updates, w.a.queueUpdates, w.h.place, u.queueId;
    LimitsIgnoreUpdates(w.a, Rescheduled(w, e, u).a);
    ReleaseKeeps(Rescheduled(w, e, u), c, closes);
    UpdatePartition(us, qs, e, u);
    RetrySchedule(us, qs, w.a.queues, place, q, u);
    RetryFlights(us, qs, w.a.connections, place, q, u, c, Release(Rescheduled(w, e, u), c, closes).a.connections);
    RetryRequests(qs, w.h.trace, place, q, e);
    SameKeys(w, us[e := u]);
    SentAccounts(us[e := u], us[e := u], qs, w.h.trace, w.h.high, Retried(e, q));
  }

  lemma DropEventIsRest(w: World, e: EventId, why: Label)
    requires e in w.a.updates
    requires var q := w.a.updates[e].queueId;
             && q in w.a.queueUpdates && w.a.queueUpdates[q] != [] && w.a.queueUpdates[q][0] == e
             && (|w.a.queueUpdates[q]| > 1 ==>
                   w.a.queueUpdates[q][1] in w.a.updates && w.a.queueUpdates[q][1] != e
                   && w.a.updates[w.a.queueUpdates[q][1]].queueId == q)
    ensures var r := DropEvent(w, e, why);
            var q := w.a.updates[e].queueId;
            && r.Next?
            && r.w.a == w.a.(updates := w.a.updates - {e}, queueUpdates := RestOf(w.a.queueUpdates, q),
                             queues := RestEntries(w.a.updates, w.a.queueUpdates, w.a.queues, q))
            && r.w.tq == w.tq.(events := Keep(w.tq.events, {e}))
            && r.w.h == w.h.(trace := w.h.trace + [why], place := RestPlace(w.a.queueUpdates, w.h.place, q))
  {
  }

  lemma SecondFacts(w: World, q: QueueId)
    requires Inv(w) && q in w.a.queueUpdates && |w.a.queueUpdates[q]| > 1
    ensures var e := w.a.queueUpdates[q][1];
            e in w.a.updates && w.a.updates[e].queueId == q && w.a.queueUpdates[q][0] != e
  {
    hide Schedule, Flights, Idle, Limits, Source, Accounts, Requests;
    assert w.a.queueUpdates[q][1] in w.a.queueUpdates[q];
    assert Less(w.a.queueUpdates[q], 0, 1);
  }

  lemma DropLimits(a: Actor, us: Updates, entries: set<Entry>, q: QueueId)
    requires Limits(a) && q in a.queueUpdates && a.queueUpdates[q] != []
    ensures Limits(a.(updates := us, queueUpdates := RestOf(a.queueUpdates, q), queues := entries))
    ensures RestOf(a.queueUpdates, q).Keys
            == if |a.queueUpdates[q]| == 1 then a.queueUpdates.Keys - {q} else a.queueUpdates.Keys
  {
    assert |a.queueUpdates| == |a.queueUpdates.Keys|;
    if |a.queueUpdates[q]| == 1 {
      assert (a.queueUpdates - {q}).Keys == a.queueUpdates.Keys - {q};
    } else {
      assert RestOf(a.queueUpdates, q).Keys == a.queueUpdates.Keys;
    }
  }

  /** drop_event's CHECKs hold for the event of a connection, and forgetting it keeps the invariant. */
  lemma ForgottenKeeps(w: World, c: ConnectionId, why: Label, closes: bool)
    requires Inv(w) && c in w.a.connections && w.a.connections[c].eventId == Some(why.e) && IsForget(why)
    requires why.e in w.a.updates && why.q == w.a.updates[why.e].queueId
    requires why.Expired? ==> why.expiresAt < why.retryAt
    ensures var r := DropEvent(w, why.e, why);
            r.Next? && c in r.w.a.connections && Inv(Release(r.w, c, closes))
  {
    hide Partition, Schedule, Flights, Idle, Limits, Source, Accounts, Requests;
    hide DropEvent, RestOf, RestPlace, RestEntries, Released, Keep;
    BusyFacts(w, c);
    var us, qs, q := w.a.updates, w.a.queueUpdates, why.q;
    if |qs[q]| > 1 {
      SecondFacts(w, q);
    }
    DropEventIsRest(w, why.e, why);
    var w1 := DropEvent(w, why.e, why).w;
    DropLimits(w.a, us - {why.e}, RestEntries(us, qs, w.a.queues, q), q);
    ReleaseKeeps(w1, c, closes);
    ForgottenParts(w, c, why, Release(w1, c, closes).a.connections);
  }

  /** Everything that is said about the event is gone from the structures delivery goes by. */
  lemma ForgottenParts(w: World, c: ConnectionId, why: Label, cs': map<ConnectionId, Connection>)
    requires Inv(w) && c in w.a.connections && w.a.connections[c].eventId == Some(why.e) && IsForget(why)
    requires why.e in w.a.updates && why.q == w.a.updates[why.e].queueId
    requires why.Expired? ==> why.expiresAt < why.retryAt
    requires Released(w.a.connections, cs', c) && why.q in w.a.queueUpdates && w.a.queueUpdates[why.q] != []
    ensures var us, qs, place, q := w.a.updates, w.a.queueUpdates, w.h.place, why.q;
            && RestPlace(qs, place, q).Keys == RestOf(qs, q).Keys
            && Partition(us - {why.e}, RestOf(qs, q))
            && Schedule(us - {why.e}, RestOf(qs, q), RestEntries(us, qs, w.a.queues, q), RestPlace(qs, place, q))
            && Flights(us - {why.e}, RestOf(qs, q), cs', RestPlace(qs, place, q))
            && Source(us - {why.e}, w.a.tqueueOffset, w.tq.(events := Keep(w.tq.events, {why.e})), w.h.high)
            && Accounts(us - {why.e}, RestOf(qs, q), w.h.trace + [why], w.h.high)
            && Requests(RestOf(qs, q), w.h.trace + [why], RestPlace(qs, place, q))
  {
    hide Partition, Schedule, Flights, Idle, Limits, Source, Accounts, Requests, RestEntries, Released, Keep;
    BusyFacts(w, c);
    var us, qs, place, q := w.a.updates, w.a.queueUpdates, w.h.place, why.q;
    DropPartition(us, qs, q);
    DropSchedule(us, qs, w.a.queues, place, q);
    DropFlights(us, qs, w.a.connections, place, q, c, cs');
    DropAccounts(us, qs, w.h.trace, w.h.high, q, why);
    DropRequests(us, qs, w.h.trace, place, q, why);
    DropSource(us, w.a.tqueueOffset, w.tq, w.h.high, why.e);
  }

  lemma SettledOk(w: World, c: ConnectionId, e: EventId, now: Time, closes: bool)
    requires Inv(w) && c in w.a.connections && w.a.connections[c].eventId == Some(e)
    ensures var r := OnUpdateOk(w, e, now);
            r.Next? && c in r.w.a.connections && Inv(Release(r.w, c, closes))
  {
    hide Partition, Schedule, Flights, Idle, Limits, Source, Accounts, Requests;
    BusyFacts(w, c);
    LimitsIgnoreSuccess(w.a, now);
    ForgottenKeeps(w.(a := w.a.(lastSuccess := now)), c, Answered(e, w.a.updates[e].queueId), closes);
  }

  lemma SettledError(w: World, c: ConnectionId, e: EventId, retryAfter: int, now: Time, unixNow: int, backoff: int,
                     closes: bool)
    requires Inv(w) && c in w.a.connections && w.a.connections[c].eventId == Some(e)
    ensures var r := OnUpdateError(w, e, retryAfter, now, unixNow, backoff);
            r.Next? && c in r.w.a.connections && Inv(Release(r.w, c, closes))
  {
    hide Inv, Release, DropEvent;
    BusyFacts(w, c);
    var u := w.a.updates[e];
    var (delay, effective) := Delays(u, retryAfter, backoff);
    if unixNow + effective > u.expiresAt {
      ForgottenKeeps(w, c, Expired(e, u.queueId, unixNow + effective, u.expiresAt), closes);
    } else {
      var u' := u.(delay := delay, wakeupAt := now + effective * SECOND, failCount := u.failCount + 1);
      RescheduledKeeps(w, c, e, u', closes);
    }
  }

  lemma First410Keeps(w: World, since: Time)
    requires Inv(w)
    ensures Inv(w.(a := w.a.(first410 := since)))
  {
    hide Partition, Schedule, Flights, Idle, Source, Accounts, Requests;
  }

  /**
   handle: no CHECK fires and the invariant is kept, when an answer arrives only on a connection that has a request.
   */
  lemma HandleKeeps(w: World, c: ConnectionId, response: Option<Response>, now: Time, unixNow: int, backoff: int)
    requires Inv(w)
    requires response.Some? && c in w.a.connections ==> w.a.connections[c].eventId.Some?
    ensures var r := Handle(w, c, response, now, unixNow, backoff); r.Next? && Inv(r.w)
  {
    hide Inv, Release, OnUpdateOk, OnUpdateError, First410, GivesUp;
    if c in w.a.connections {
      var w1 := w.(a := w.a.(first410 := First410(w.a, response, now)));
      First410Keeps(w, First410(w.a, response, now));
      var closes := ClosesConnection(response, w.a.ipGeneration, w.a.connections[c].ipGeneration)
                    || GivesUp(w.a, response, now);
      if w.a.connections[c].eventId.None? {
        IdleReleaseKeeps(w1, c);
      } else if IsError(response) {
        SettledError(w1, c, w.a.connections[c].eventId.value, RetryAfter(response), now, unixNow, backoff, closes);
      } else {
        SettledOk(w1, c, w.a.connections[c].eventId.value, now, closes);
      }
    }
  }

  lemma LimitsIgnoreSuccess(a: Actor, now: Time)
    ensures Limits(a) ==> Limits(a.(lastSuccess := now))
  {
  }

  // ---------- Connections ----------

  /** The fields that delivery is about are the same. */
  predicate SameDelivery(a: Actor, a': Actor) {
    && a'.updates == a.updates && a'.queueUpdates == a.queueUpdates && a'.queues == a.queues
    && a'.tqueueOffset == a.tqueueOffset
    && a'.maxConnections == a.maxConnections && a'.maxLoaded == a.maxLoaded
  }

  /** The part of the invariant that opening connections can touch. */
  ghost predicate Wired(a: Actor, place: Places) {
    && Idle(a.connections, a.ready) && Limits(a)
    && Flights(a.updates, a.queueUpdates, a.connections, place)
  }

  lemma ConnectIdle(
    cs: map<ConnectionId, Connection>, ready: seq<ConnectionId>, c: ConnectionId, connection: Connection)
    requires Idle(cs, ready) && c !in cs && connection.eventId.None?
    ensures Idle(cs[c := connection], ready + [c])
  {
    forall i, j | 0 <= i < j < |ready + [c]|
      ensures Differ(ready + [c], i, j)
    {
      assert ready[i] in ready;
      assert j < |ready| ==> Differ(ready, i, j);
    }
    assert (ready + [c])[|ready|] == c;
  }

  lemma ConnectKeeps(a: Actor, place: Places)
    requires Wired(a, place) && Total(a) < a.maxConnections
    ensures Wired(Connect(a), place) && SameDelivery(a, Connect(a)) && Total(Connect(a)) == Total(a) + 1
    ensures Connect(a).readySockets == a.readySockets
  {
    var connection := Connection(None, a.ipGeneration);
    assert a.nextConnection !in a.connections;
    ConnectLimits(a);
    hide Idle, Flights, Limits;
    ConnectIdle(a.connections, a.ready, a.nextConnection, connection);
    ConnectFlights(a.updates, a.queueUpdates, a.connections, place, a.nextConnection, connection);
  }

  lemma ConnectLimits(a: Actor)
    requires Limits(a) && Total(a) < a.maxConnections
    ensures Limits(Connect(a)) && Total(Connect(a)) == Total(a) + 1
  {
    assert Connect(a).connections.Keys == a.connections.Keys + {a.nextConnection};
  }

  lemma ConnectFlights(us: Updates, qs: Queues, cs: map<ConnectionId, Connection>, place: Places, c: ConnectionId,
                       connection: Connection)
    requires Flights(us, qs, cs, place) && c !in cs && connection.eventId.None?
    ensures Flights(us, qs, cs[c := connection], place)
  {
  }

  lemma OpenKeeps(a: Actor, place: Places, attempt: Attempt)
    requires Wired(a, place) && attempt != Connected
    ensures SameDelivery(a, Open(a, attempt))
    ensures Total(a) < a.maxConnections ==> Wired(Open(a, attempt), place)
  {
    hide Idle, Flights, Limits;
    if Total(a) < a.maxConnections {
      OpenLimits(a, attempt);
    }
  }

  lemma OpenLimits(a: Actor, attempt: Attempt)
    requires Limits(a) && Total(a) < a.maxConnections && attempt != Connected
    ensures Limits(Open(a, attempt))
  {
    assert a.nextSocket !in a.pendingSockets;
  }

  lemma {:induction false} OpenNewKeeps(a: Actor, place: Places, need: nat, attempts: seq<Attempt>)
    requires Wired(a, place) && need <= a.maxConnections
    ensures var (a', _) := OpenNew(a, need, attempts); Wired(a', place) && SameDelivery(a, a')
    decreases |attempts|
  {
    hide Idle, Flights, Limits, Connect;
    if attempts != [] && attempts[0] != Connected {
      OpenKeeps(a, place, attempts[0]);
    }
    if Total(a) < need && attempts != [] && attempts[0] == Connected {
      ConnectKeeps(a, place);
      OpenNewKeeps(Connect(a), place, need, attempts[1..]);
    }
  }

  lemma {:induction false} UseReadyKeeps(a: Actor, place: Places, need: nat, succeeds: nat -> bool, k: nat)
    requires Wired(a, place)
    ensures var a' := UseReady(a, need, succeeds, k); Wired(a', place) && SameDelivery(a, a')
    decreases a.readySockets
  {
    hide Wired, Connect, OnError;
    if a.readySockets > 0 {
      OneReadyLess(a, place);
      var a1 := a.(readySockets := a.readySockets - 1);
      if succeeds(k) {
        ConnectKeeps(a1, place);
        UseReadyKeeps(Connect(a1), place, need, succeeds, k + 1);
      }
    }
  }

  lemma OneReadyLess(a: Actor, place: Places)
    requires Wired(a, place) && a.readySockets > 0
    ensures var a1 := a.(readySockets := a.readySockets - 1);
            && Wired(a1, place) && SameDelivery(a, a1) && Total(a1) < a1.maxConnections
            && Wired(OnError(a1), place) && SameDelivery(a, OnError(a1))
  {
    hide Idle, Flights;
  }

  /** create_new_connections never opens more than max_connections_ and leaves what is delivered alone. */
  lemma CreateConnectionsKeeps(
    w: World, now: Time, usable: bool, attempts: seq<Attempt>, succeeds: nat -> bool)
    requires Inv(w)
    ensures Inv(w.(a := CreateConnections(w.a, now, usable, attempts, succeeds)))
  {
    hide Partition, Schedule, Flights, Idle, Source, Accounts, Requests;
    var need := NeedConnections(w.a, now);
    OpenNewKeeps(w.a, w.h.place, need, attempts);
    var (a1, goesOn) := OpenNew(w.a, need, attempts);
    if usable && goesOn {
      hide OpenNew;
      UseReadyKeeps(a1, w.h.place, need, succeeds, 0);
    }
  }

  lemma SocketReadyKeeps(w: World, id: SocketId, ok: bool)
    requires Inv(w) && id in w.a.pendingSockets
    ensures Inv(w.(a := SocketReady(w.a, id, ok)))
  {
    hide Partition, Schedule, Flights, Idle, Source, Accounts, Requests;
  }

  // ---------- TQueue ----------

  lemma PushKeeps(w: World, event: Event)
    requires Inv(w) && w.tq.tail <= event.id
    ensures Inv(w.(tq := TQueue(w.tq.events + [event], event.id + 1)))
  {
    hide Partition, Schedule, Flights, Idle, Limits, Accounts, Requests;
    var events := w.tq.events + [event];
    forall i, j | 0 <= i < j < |events|
      ensures Earlier(events, i, j)
    {
      assert w.tq.events[i] in w.tq.events;
      assert j < |w.tq.events| ==> Earlier(w.tq.events, i, j);
    }
  }

  lemma VanishKeeps(w: World, gone: set<EventId>)
    requires Inv(w)
    ensures Inv(w.(tq := w.tq.(events := Keep(w.tq.events, gone))))
  {
    hide Partition, Schedule, Flights, Idle, Limits, Accounts, Requests;
    KeepAscending(w.tq.events, gone);
  }

  // ---------- Runs ----------

  /** Every callback, in every admissible situation, fires no CHECK and keeps the invariant. */
  lemma StepKeeps(w: World, input: Input)
    requires Inv(w) && Admissible(w, input)
    ensures Step(w, input).Next? && Inv(Step(w, input).w)
  {
    match input
    case Push(event) => PushKeeps(w, event);
    case Vanish(gone) => VanishKeeps(w, gone);
    case NewUpdates => hide Partition, Schedule, Flights, Idle, Source, Accounts, Requests;
    case LoadUpdates(now, unixNow, getFails, head) => LoadKeeps(w, now, unixNow, getFails, head);
    case NewConnections(now, usable, attempts, succeeds) =>
      CreateConnectionsKeeps(w, now, usable, attempts, succeeds);
    case OnSocketReady(id, ok) => SocketReadyKeeps(w, id, ok);
    case TrySend(now, badHeaders) => SendUpdateKeeps(w, now, badHeaders);
    case OnHandle(c, response, now, unixNow, backoff) => HandleKeeps(w, c, response, now, unixNow, backoff);
    case NewAddress => hide Partition, Schedule, Flights, Idle, Source, Accounts, Requests;
  }

  /** The world before the first callback: nothing was read from TQueue yet. */
  function Start(maxConnections: nat, fromDb: bool, now: Time, tq: TQueue): World {
    World(Init(maxConnections, fromDb, now), tq, History([], map[], 0))
  }

  lemma StartHolds(maxConnections: nat, fromDb: bool, now: Time, tq: TQueue)
    requires 0 < maxConnections && Ascending(tq.events) && forall x | x in tq.events :: x.id < tq.tail
    ensures Inv(Start(maxConnections, fromDb, now, tq))
  {
  }

  /** Whatever callbacks come in whatever order, no CHECK fires and the invariant holds afterwards. */
  lemma {:induction false} RunKeeps(w: World, inputs: seq<Input>)
    requires Inv(w) && AdmissibleRun(w, inputs)
    ensures Run(w, inputs).Next? && Inv(Run(w, inputs).w)
    decreases |inputs|
  {
    hide Inv, Step;
    if inputs != [] {
      StepKeeps(w, inputs[0]);
      RunKeeps(Step(w, inputs[0]).w, inputs[1..]);
    }
  }
}