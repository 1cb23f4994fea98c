/** Every run of the webhook actor: its invariant, and what follows from it. */
module WebhookRuns {
  import opened Common
  import opened WebhookQueues
  import opened WebhookFeed
  import opened WebhookLog
  import opened WebhookSpec

  // --- the invariant ---

  /** Everything before the read offset is loaded or expired, and nothing after it is loaded. */
  ghost predicate FeedOk(feed: Feed, offset: int, horizon: int, clock: int, loaded: set<int>) {
    && feed.Valid() && 0 <= horizon <= offset <= feed.tail
    && forall e | e in feed.events && e.id < offset :: e.id in loaded || e.expiresAt < clock
  }

  ghost predicate HeldOk(q: Queues) {
    forall k | k in q.fifos && k in q.place && q.place[k] == Held :: q.HasFront(k) && !q.updates[q.Front(k)].headerFits
  }

  ghost predicate CapacityOk(s: State) {
    && 0 < s.maxConnections && s.Size() <= s.maxConnections && |s.queues.fifos| <= s.MaxLoaded()
    && s.FreshConnections() && (forall p | p in s.pending :: p < s.nextSocket)
    && FIRST_UNIQUE_QUEUE <= s.uniqueQueueId
  }

  ghost predicate Inv(s: State) {
    && s.queues.Consistent() && HeldOk(s.queues)
    && Matches(s.log, s.queues, s.horizon, s.clock)
    && FeedOk(s.feed, s.offset, s.horizon, s.clock, s.queues.updates.Keys)
    && CapacityOk(s)
  }

  /** The invariant still holds, and the clock and the limit are the same. */
  ghost predicate Goes(s: State, t: State) {
    Inv(t) && t.clock == s.clock && t.maxConnections == s.maxConnections
  }

  // --- loading ---

  /** What is loaded next: the first event from the offset that is not expired. */
  ghost predicate IsNext(s: State, e: Event) {
    && e in s.feed.events && s.offset <= e.id
    && forall x | x in s.feed.events && s.offset <= x.id < e.id :: x.expiresAt < s.clock
  }

  lemma NotLoadedYet(s: State, id: int)
    requires Matches(s.log, s.queues, s.horizon, s.clock) && s.horizon <= id
    ensures forall x | x in s.queues.updates :: x < id
  {
  }

  lemma LoadHeld(q: Queues, id: int, u: Update)
    requires q.Consistent() && HeldOk(q) && id !in q.updates
    ensures HeldOk(q.Load(id, u))
  {
  }

  function Fresh(s: State, e: Event): Update {
    Update(e.expiresAt, 0, s.clock, 1, 0, if e.extra == 0 then s.uniqueQueueId else e.extra, e.headerFits)
  }

  lemma LoadOneMatches(log: Log, q: Queues, horizon: int, clock: int, id: int, u: Update)
    requires Matches(log, q, horizon, clock) && q.Consistent() && horizon <= id && id !in q.updates
    requires u.delay == 1 && u.failCount == 0
    ensures Matches(Then(log, Load(id, u.queueId, u.expiresAt)), q.Load(id, u), id + 1, clock)
  {
    LoadNotFlying(q, id, u);
    forall x | x in q.updates ensures InFlight(q.Load(id, u), x) <==> InFlight(q, x) {
      LoadFlights(q, id, u, x);
    }
    LoadMatches(log, q, q.Load(id, u), horizon, clock, id, u, clock);
  }

  lemma LoadOneCapacity(s: State, e: Event)
    requires CapacityOk(s) && |s.queues.fifos| < s.MaxLoaded()
    ensures CapacityOk(s.LoadOne(e, s.clock))
    ensures |s.LoadOne(e, s.clock).queues.fifos| <= |s.queues.fifos| + 1
  {
  }

  lemma LoadOneQueues(s: State, e: Event)
    requires s.queues.Consistent() && HeldOk(s.queues) && 0 < e.id && FIRST_UNIQUE_QUEUE <= s.uniqueQueueId
    requires forall x | x in s.queues.updates :: x < e.id
    ensures var n := s.LoadOne(e, s.clock).queues; n.Consistent() && HeldOk(n)
  {
    var u := Fresh(s, e);
    LoadKeeps(s.queues, e.id, u);
    LoadHeld(s.queues, e.id, u);
  }

  lemma LoadOneLog(s: State, e: Event)
    requires Matches(s.log, s.queues, s.horizon, s.clock) && s.queues.Consistent() && s.horizon <= e.id
    requires e.id !in s.queues.updates
    ensures var n := s.LoadOne(e, s.clock); Matches(n.log, n.queues, n.horizon, n.clock)
  {
    LoadOneMatches(s.log, s.queues, s.horizon, s.clock, e.id, Fresh(s, e));
  }

  lemma LoadOneFeed(s: State, e: Event)
    requires FeedOk(s.feed, s.offset, s.horizon, s.clock, s.queues.updates.Keys) && IsNext(s, e)
    requires e.id !in s.queues.updates
    ensures var n := s.LoadOne(e, s.clock); FeedOk(n.feed, n.offset, n.horizon, n.clock, n.queues.updates.Keys)
    ensures 0 < e.id && s.horizon <= e.id
  {
  }

  /** An event that is read is never one that is loaded already. */
  lemma LoadOneKeeps(s: State, e: Event)
    requires Inv(s) && IsNext(s, e) && |s.queues.fifos| < s.MaxLoaded()
    ensures e.id !in s.queues.updates && Inv(s.LoadOne(e, s.clock))
    ensures |s.LoadOne(e, s.clock).queues.fifos| <= |s.queues.fifos| + 1
  {
    NotLoadedYet(s, e.id);
    LoadOneFeed(s, e);
    LoadOneLog(s, e);
    LoadOneQueues(s, e);
    LoadOneCapacity(s, e);
  }

  /** State t is s after the first n events of a read were loaded. */
  ghost predicate LoadedTo(s: State, t: State, got: seq<Event>, n: nat)
    requires n <= |got|
  {
    && Inv(t) && t.feed == s.feed && t.clock == s.clock && t.maxConnections == s.maxConnections
    && |t.queues.fifos| <= |s.queues.fifos| + n
    && t.offset == OffsetAfter(s, got, n)
  }

  function OffsetAfter(s: State, got: seq<Event>, n: nat): int
    requires n <= |got|
  {
    if n == 0 then s.offset else got[n - 1].id + 1
  }

  /** Once the first n events of a read are loaded, the next one is the one to load. */
  ghost predicate Follows(s: State, got: seq<Event>, n: nat) {
    && n < |got| && got[n] in s.feed.events && OffsetAfter(s, got, n) <= got[n].id
    && forall x | x in s.feed.events && OffsetAfter(s, got, n) <= x.id < got[n].id :: x.expiresAt < s.clock
  }

  lemma ReadFollows(s: State, got: seq<Event>, n: nat)
    requires IsRead(s.feed.events, s.offset, s.clock, got) && n < |got|
    ensures Follows(s, got, n)
  {
  }

  lemma LoadOneFrame(t: State, e: Event)
    requires e.id !in t.queues.updates
    ensures var n := t.LoadOne(e, t.clock);
      n.feed == t.feed && n.clock == t.clock && n.maxConnections == t.maxConnections && n.offset == e.id + 1
  {
  }

  lemma LoadStep(s: State, t: State, u: State, got: seq<Event>, n: nat)
    requires n < |got| && LoadedTo(s, t, got, n) && Follows(s, got, n) && |s.queues.fifos| + |got| <= s.MaxLoaded()
    requires u == t.LoadOne(got[n], s.clock)
    ensures LoadedTo(s, u, got, n + 1)
  {
    assert IsNext(t, got[n]);
    LoadOneKeeps(t, got[n]);
    LoadOneFrame(t, got[n]);
  }

  lemma {:induction false} LoadFromKeeps(s: State, t: State, got: seq<Event>, n: nat)
    requires n <= |got| && LoadedTo(s, t, got, n) && |s.queues.fifos| + |got| <= s.MaxLoaded()
    requires forall i: nat | i < |got| :: Follows(s, got, i)
    ensures Goes(s, t.LoadFrom(got, n, s.clock))
    decreases |got| - n
  {
    if n < |got| {
      var u := t.LoadOne(got[n], s.clock);
      LoadStep(s, t, u, got, n);
      LoadFromKeeps(s, u, got, n + 1);
    }
  }

  lemma ReadFromOk(s: State)
    requires FeedOk(s.feed, s.offset, s.horizon, s.clock, s.queues.updates.Keys)
    ensures var from := s.ReadFrom(); FeedOk(s.feed, from, s.horizon, s.clock, s.queues.updates.Keys)
    ensures !s.feed.Refuses(s.ReadFrom())
  {
  }

  lemma KeptOk(feed: Feed, offset: int, horizon: int, clock: int, loaded: set<int>, limit: nat)
    requires FeedOk(feed, offset, horizon, clock, loaded)
    ensures var left := Kept(feed.events, offset, clock, limit);
      && FeedOk(feed.(events := left), offset, horizon, clock, loaded)
      && IsRead(left, offset, clock, Taken(feed.events, offset, clock, limit))
  {
    KeptIs(feed.events, offset, clock, limit);
    TakenIs(feed.events, offset, clock, limit);
  }

  lemma ReadFeedKeeps(s: State)
    requires Inv(s) && !s.feedEmpty && |s.queues.fifos| < s.MaxLoaded()
    ensures Inv(s.ReadFeed(s.clock)) && |s.queues.fifos| + |s.Got(s.clock)| <= s.MaxLoaded()
    ensures IsRead(s.ReadFeed(s.clock).feed.events, s.ReadFeed(s.clock).offset, s.clock, s.Got(s.clock))
  {
    var t := s.ReadFeed(s.clock);
    ReadFromOk(s);
    KeptOk(s.feed, s.ReadFrom(), s.horizon, s.clock, s.queues.updates.Keys, s.Limit());
    TakenIs(s.feed.events, s.ReadFrom(), s.clock, s.Limit());
    assert CapacityOk(t);
  }

  lemma LoadUpdatesKeeps(s: State)
    requires Inv(s)
    ensures Inv(s.LoadUpdates(s.clock)) && s.LoadUpdates(s.clock).clock == s.clock
  {
    if !s.feedEmpty && |s.queues.fifos| < s.MaxLoaded() {
      ReadFeedKeeps(s);
      var t, got := s.ReadFeed(s.clock), s.Got(s.clock);
      forall i: nat | i < |got| ensures Follows(t, got, i) {
        ReadFollows(t, got, i);
      }
      LoadFromKeeps(t, t, got, 0);
    }
  }

  // --- sending ---

  /** The queue that is sent next: it waits, and its front is due at the time of the wake-up. */
  lemma ChosenQueue(q: Queues, w: (int, int), now: int)
    requires q.Consistent() && w in q.wakeups && q.ready != []
    ensures q.HasFront(w.1) && w.1 in q.fifos && w.1 in q.place && q.place[w.1] == Waiting && q.Due(w.1) == w.0
    ensures q.Hold(w.1, now).Consistent() && q.Hold(w.1, now).HasFront(w.1)
    ensures q.ready[0] in q.connections && q.Hold(w.1, now).Assign(w.1).Consistent()
  {
    assert q.WakeupOk(w);
    HoldKeeps(q, w.1, now);
    AssignKeeps(q.Hold(w.1, now), w.1);
  }

  lemma HoldHeld(q: Queues, k: int, now: int)
    requires q.Consistent() && HeldOk(q) && q.HasFront(k) && !q.updates[q.Front(k)].headerFits
    ensures HeldOk(q.Hold(k, now))
  {
  }

  lemma SendHeld(q: Queues, k: int, now: int)
    requires q.Consistent() && HeldOk(q) && q.HasFront(k) && q.ready != [] && q.ready[0] in q.connections
    ensures HeldOk(q.Hold(k, now).Assign(k))
  {
  }

  /** What a wake-up taken from the set leads to. */
  lemma SendFrontKeeps(s: State, w: (int, int))
    requires Inv(s) && w in s.queues.wakeups && w.0 <= s.clock && s.queues.ready != []
    ensures s.queues.HasFront(w.1) && s.queues.ready[0] in s.queues.connections
    ensures s.queues.updates[s.queues.Front(w.1)].headerFits ==> Inv(s.SendFront(w.1, s.clock))
    ensures !s.queues.updates[s.queues.Front(w.1)].headerFits ==> Inv(s.HoldFront(w.1, s.clock))
  {
    ChosenQueue(s.queues, w, s.clock);
    if s.queues.updates[s.queues.Front(w.1)].headerFits {
      SendHeld(s.queues, w.1, s.clock);
      SendFrontLog(s, w.1);
      SendFrontRest(s, w.1);
    } else {
      HoldHeld(s.queues, w.1, s.clock);
      HoldMatches(s.log, s.queues, s.queues.Hold(w.1, s.clock), s.horizon, s.clock, w.1, s.clock);
      HoldFrontRest(s, w.1);
    }
  }

  lemma SendFrontLog(s: State, k: int)
    requires s.queues.Consistent() && Matches(s.log, s.queues, s.horizon, s.clock)
    requires k in s.queues.fifos && k in s.queues.place && s.queues.place[k] == Waiting && s.queues.HasFront(k)
    requires s.queues.Due(k) <= s.clock && s.queues.ready != [] && s.queues.ready[0] in s.queues.connections
    ensures var n := s.SendFront(k, s.clock); Matches(n.log, n.queues, n.horizon, n.clock)
  {
    var q := s.queues;
    var n := q.Hold(k, s.clock).Assign(k);
    assert n.place == q.place[k := n.place[k]];
    SendMatches(s.log, q, n, s.horizon, s.clock, k, s.clock);
  }

  lemma SendFrontRest(s: State, k: int)
    requires CapacityOk(s) && FeedOk(s.feed, s.offset, s.horizon, s.clock, s.queues.updates.Keys)
    requires s.queues.HasFront(k) && s.queues.ready != [] && s.queues.ready[0] in s.queues.connections
    ensures var n := s.SendFront(k, s.clock);
      CapacityOk(n) && FeedOk(n.feed, n.offset, n.horizon, n.clock, n.queues.updates.Keys)
  {
  }

  lemma HoldFrontRest(s: State, k: int)
    requires CapacityOk(s) && FeedOk(s.feed, s.offset, s.horizon, s.clock, s.queues.updates.Keys)
    requires s.queues.HasFront(k)
    ensures var n := s.HoldFront(k, s.clock);
      CapacityOk(n) && FeedOk(n.feed, n.offset, n.horizon, n.clock, n.queues.updates.Keys)
  {
  }

  lemma RelaxKeeps(s: State, at: int)
    requires Inv(s)
    ensures Goes(s, s.Relax(at))
  {
  }

  lemma SendOneIs(s: State, now: int, w: (int, int))
    requires s.Sendable() && s.queues.ready != [] && s.queues.wakeups != {} && w == First(s.queues.wakeups)
    ensures w in s.queues.wakeups && s.queues.HasFront(w.1) && s.queues.ready[0] in s.queues.connections
    ensures now < w.0 ==> s.SendOne(now) == s.Relax(w.0)
    ensures w.0 <= now && s.queues.updates[s.queues.Front(w.1)].headerFits ==> s.SendOne(now) == s.SendFront(w.1, now)
    ensures w.0 <= now && !s.queues.updates[s.queues.Front(w.1)].headerFits ==> s.SendOne(now) == s.HoldFront(w.1, now)
  {
  }

  lemma SendOneKeeps(s: State)
    requires Inv(s) && s.Sendable()
    ensures Inv(s.SendOne(s.clock)) && s.SendOne(s.clock).clock == s.clock
  {
    if s.queues.ready != [] && s.queues.wakeups != {} {
      var w := First(s.queues.wakeups);
      SendOneIs(s, s.clock, w);
      if w.0 <= s.clock {
        SendFrontKeeps(s, w);
      } else {
        RelaxKeeps(s, w.0);
      }
    }
  }

  lemma {:induction false} SendAllKeeps(s: State)
    requires Inv(s) && s.Sendable()
    ensures Inv(s.SendAll(s.clock)) && s.SendAll(s.clock).clock == s.clock
    decreases |s.queues.ready|
  {
    SendOneKeeps(s);
    if s.Outcome(s.clock) == Sent {
      StillSendable(s, First(s.queues.wakeups).1, s.clock);
      SendAllKeeps(s.SendOne(s.clock));
    }
  }

  // --- answers ---

  /** Queues n after the front of k left q for good. */
  ghost predicate Left(q: Queues, n: Queues, k: int, id: int) {
    && q.HasFront(k) && q.Front(k) == id && n.updates == q.updates - {id}
    && n.fifos.Keys <= q.fifos.Keys && |n.fifos| <= |q.fifos|
    && (k in n.place ==> n.place[k] == Waiting)
    && (forall j | j != k :: (j in n.fifos <==> j in q.fifos) && (j in n.place <==> j in q.place))
    && (forall j | j != k && j in q.fifos :: n.fifos[j] == q.fifos[j])
    && (forall j | j != k && j in q.place :: n.place[j] == q.place[j])
  }

  lemma DropLeaves(q: Queues, c: int, close: bool, k: int, id: int)
    requires q.Consistent() && c in q.connections && q.connections[c].eventId == id != 0
    requires id in q.updates && k == q.updates[id].queueId
    requires q.Release(c, close).HasFront(k)
    requires |q.fifos[k]| > 1 ==> q.fifos[k][1] in q.updates
    ensures Left(q, q.Release(c, close).Drop(k), k, id)
  {
    AboutConnection(q, c);
    var r := q.Release(c, close);
    var n := r.Drop(k);
    assert n.fifos.Keys == if |q.fifos[k]| == 1 then q.fifos.Keys - {k} else q.fifos.Keys;
  }

  lemma LeftFlights(q: Queues, n: Queues, k: int, id: int, x: int)
    requires q.Consistent() && Left(q, n, k, id) && x in n.updates
    ensures InFlight(n, x) <==> InFlight(q, x)
  {
  }

  lemma LeftHeld(q: Queues, n: Queues, k: int, id: int)
    requires q.Consistent() && n.Consistent() && Left(q, n, k, id) && HeldOk(q)
    ensures HeldOk(n)
  {
  }

  lemma LeftMatches(log: Log, q: Queues, n: Queues, horizon: int, clock: int, k: int, id: int, e: Entry)
    requires Matches(log, q, horizon, clock) && q.Consistent() && Left(q, n, k, id) && InFlight(q, id)
    requires e.Answer? && e.id == id && e.queueId == q.updates[id].queueId && e.expiresAt == q.updates[id].expiresAt
    requires e.ok || e.due > e.expiresAt
    ensures Matches(Then(Then(log, e), Forget(id)), n, horizon, clock)
  {
    forall x | x in n.updates ensures InFlight(n, x) <==> InFlight(q, x) {
      LeftFlights(q, n, k, id, x);
    }
    DoneMatches(log, q, n, horizon, clock, id, clock, e);
  }

  lemma ForgottenFeed(feed: Feed, offset: int, horizon: int, clock: int, loaded: set<int>, id: int)
    requires FeedOk(feed, offset, horizon, clock, loaded)
    ensures FeedOk(feed.Remove({id}), offset, horizon, clock, loaded - {id})
  {
    RemovedIs(feed.events, {id});
  }

  lemma ReleasedKeys(q: Queues, c: int, close: bool)
    requires c in q.connections
    ensures q.Release(c, close).connections.Keys <= q.connections.Keys
    ensures |q.Release(c, close).connections| <= |q.connections|
  {
  }

  lemma InFlightAnswer(q: Queues, c: int)
    requires q.Consistent() && c in q.connections && q.connections[c].eventId != 0
    ensures InFlight(q, q.connections[c].eventId) && q.connections[c].eventId > 0
    ensures forall s: State | s.queues == q :: s.Answerable(c)
  {
    AboutConnection(q, c);
    AboutQueue(q, q.updates[q.connections[c].eventId].queueId);
  }

  /** Once its connection is done with it, the queue is held. */
  lemma ReleasedHeld(q: Queues, r: Queues, c: int, close: bool, k: int)
    requires q.Consistent() && c in q.connections && q.connections[c].eventId != 0 && r == q.Release(c, close)
    requires q.connections[c].eventId in q.updates && k == q.updates[q.connections[c].eventId].queueId
    ensures r.Consistent() && k in r.fifos && k in r.place && r.place[k] == Held
  {
    AboutConnection(q, c);
    ReleaseKeeps(q, c, close);
  }

  lemma DropThere(r: Queues, n: Queues, k: int)
    requires r.Consistent() && k in r.fifos && k in r.place && r.place[k] == Held
    requires r.HasFront(k) && (|r.fifos[k]| > 1 ==> r.fifos[k][1] in r.updates) && n == r.Drop(k)
    ensures n.Consistent()
  {
    DropKeeps(r, k);
  }

  lemma RequeueThere(r: Queues, n: Queues, k: int, at: int, delay: int)
    requires r.Consistent() && k in r.fifos && k in r.place && r.place[k] == Held
    requires r.HasFront(k) && n == r.Requeue(k, at, delay)
    ensures n.Consistent()
  {
    RequeueKeeps(r, k, at, delay);
  }

  lemma FinishQueues(s: State, c: int, close: bool, e: Entry)
    requires s.queues.Consistent() && HeldOk(s.queues) && s.Answerable(c) && s.queues.connections[c].eventId != 0
    ensures var n := s.Finish(c, close, e).queues; var id := s.queues.connections[c].eventId;
      n.Consistent() && HeldOk(n) && Left(s.queues, n, s.queues.updates[id].queueId, id)
  {
    var q, n := s.queues, s.Finish(c, close, e).queues;
    var id := q.connections[c].eventId;
    var k, r := q.updates[id].queueId, q.Release(c, close);
    ReleasedHeld(q, r, c, close, k);
    DropThere(r, n, k);
    DropLeaves(q, c, close, k, id);
    LeftHeld(q, n, k, id);
  }

  lemma FinishCapacity(s: State, c: int, close: bool, e: Entry, k: int, id: int)
    requires CapacityOk(s) && s.Answerable(c) && Left(s.queues, s.Finish(c, close, e).queues, k, id)
    ensures CapacityOk(s.Finish(c, close, e))
  {
  }

  lemma FinishKeeps(s: State, c: int, close: bool, e: Entry)
    requires Inv(s) && s.Answerable(c) && s.queues.connections[c].eventId != 0
    requires var id := s.queues.connections[c].eventId;
      && e.Answer? && e.id == id && (e.ok || e.due > e.expiresAt)
      && e.queueId == s.queues.updates[id].queueId && e.expiresAt == s.queues.updates[id].expiresAt
    ensures Inv(s.Finish(c, close, e))
  {
    var id := s.queues.connections[c].eventId;
    var k, n := s.queues.updates[id].queueId, s.Finish(c, close, e);
    InFlightAnswer(s.queues, c);
    FinishQueues(s, c, close, e);
    LeftMatches(s.log, s.queues, n.queues, s.horizon, s.clock, k, id, e);
    ForgottenFeed(s.feed, s.offset, s.horizon, s.clock, s.queues.updates.Keys, id);
    assert n.queues.updates.Keys == s.queues.updates.Keys - {id};
    FinishCapacity(s, c, close, e, k, id);
  }

  lemma RetryQueues(s: State, c: int, close: bool, now: int, retryAfter: int, random: int)
    requires s.queues.Consistent() && HeldOk(s.queues) && s.Answerable(c) && s.queues.connections[c].eventId != 0
    ensures var n := s.Retry(c, close, now, retryAfter, random).queues; n.Consistent() && HeldOk(n)
  {
    var q, n := s.queues, s.Retry(c, close, now, retryAfter, random).queues;
    var u := q.updates[q.connections[c].eventId];
    var r := q.Release(c, close);
    var (delay, wait) := Backoff(u, retryAfter, random);
    ReleasedHeld(q, r, c, close, u.queueId);
    RequeueThere(r, n, u.queueId, now + wait, delay);
    RequeueHeld(q, c, close, u.queueId, now + wait, delay);
  }

  lemma RequeueHeld(q: Queues, c: int, close: bool, k: int, at: int, delay: int)
    requires q.Consistent() && HeldOk(q) && c in q.connections && q.Release(c, close).HasFront(k)
    requires q.connections[c].eventId in q.updates && k == q.updates[q.connections[c].eventId].queueId
    ensures HeldOk(q.Release(c, close).Requeue(k, at, delay))
  {
  }

  lemma RetryLog(s: State, c: int, close: bool, retryAfter: int, random: int)
    requires s.queues.Consistent() && Matches(s.log, s.queues, s.horizon, s.clock)
    requires s.Answerable(c) && s.queues.connections[c].eventId != 0
    requires RESEND_TIMEOUT <= random <= 2 * RESEND_TIMEOUT
    requires var u := s.queues.updates[s.queues.connections[c].eventId];
      s.clock + Backoff(u, retryAfter, random).1 <= u.expiresAt
    ensures var n := s.Retry(c, close, s.clock, retryAfter, random); Matches(n.log, n.queues, n.horizon, n.clock)
  {
    var q, id := s.queues, s.queues.connections[c].eventId;
    InFlightAnswer(q, c);
    var u, n := q.updates[id], s.Retry(c, close, s.clock, retryAfter, random);
    assert n.queues.place == q.place[u.queueId := Waiting];
    assert n.queues.updates == q.updates[id := Retried(u, s.clock, retryAfter, random)];
    RetryMatches(s.log, q, n.queues, s.horizon, s.clock, id, s.clock, retryAfter, random,
                 AnswerTo(id, u, false, s.clock, retryAfter, Backoff(u, retryAfter, random).1));
  }

  lemma RetryRest(s: State, c: int, close: bool, retryAfter: int, random: int)
    requires CapacityOk(s) && FeedOk(s.feed, s.offset, s.horizon, s.clock, s.queues.updates.Keys) && s.Answerable(c)
    ensures var n := s.Retry(c, close, s.clock, retryAfter, random);
      CapacityOk(n) && FeedOk(n.feed, n.offset, n.horizon, n.clock, n.queues.updates.Keys)
  {
  }

  lemma RetryKeeps(s: State, c: int, close: bool, retryAfter: int, random: int)
    requires Inv(s) && s.Answerable(c) && s.queues.connections[c].eventId != 0
    requires RESEND_TIMEOUT <= random <= 2 * RESEND_TIMEOUT
    requires var u := s.queues.updates[s.queues.connections[c].eventId];
      s.clock + Backoff(u, retryAfter, random).1 <= u.expiresAt
    ensures Inv(s.Retry(c, close, s.clock, retryAfter, random))
  {
    RetryQueues(s, c, close, s.clock, retryAfter, random);
    RetryLog(s, c, close, retryAfter, random);
    RetryRest(s, c, close, retryAfter, random);
  }

  lemma IdleClosed(q: Queues, c: int)
    requires q.Consistent() && HeldOk(q) && c in q.connections && q.connections[c].eventId == 0
    ensures var n := q.Release(c, true);
      && n.Consistent() && HeldOk(n) && n.updates == q.updates && n.fifos == q.fifos && n.place == q.place
  {
    ReleaseKeeps(q, c, true);
    assert 0 in q.updates ==> q.UpdateOk(0);
  }

  lemma IdleKeeps(s: State, c: int)
    requires Inv(s) && c in s.queues.connections && s.queues.connections[c].eventId == 0
    ensures Inv(s.(queues := s.queues.Release(c, true)))
  {
    IdleClosed(s.queues, c);
    IdleMatches(s.log, s.queues, s.queues.Release(c, true), s.horizon, s.clock, s.clock);
    ReleasedKeys(s.queues, c, true);
    assert CapacityOk(s.(queues := s.queues.Release(c, true)));
  }

  /** The invariant does not depend on the rest of the state. */
  ghost predicate SameCore(s: State, n: State) {
    && n.queues == s.queues && n.feed == s.feed && n.offset == s.offset && n.uniqueQueueId == s.uniqueQueueId
    && n.maxConnections == s.maxConnections && n.nextConnection == s.nextConnection && n.nextSocket == s.nextSocket
    && n.pending == s.pending && n.readySockets <= s.readySockets
    && n.clock == s.clock && n.horizon == s.horizon && n.log == s.log
  }

  lemma CoreKeeps(s: State, n: State)
    requires Inv(s) && SameCore(s, n)
    ensures Inv(n)
  {
  }

  lemma AcceptedKeeps(s: State, c: int, close: bool, e: Entry)
    requires Inv(s) && s.Answerable(c) && s.queues.connections[c].eventId != 0
    requires e == AnswerTo(s.queues.connections[c].eventId, s.queues.updates[s.queues.connections[c].eventId], true,
                           s.clock, 0, 0)
    ensures Inv(s.(lastSuccess := s.clock).Finish(c, close, e))
  {
    CoreKeeps(s, s.(lastSuccess := s.clock));
    FinishKeeps(s.(lastSuccess := s.clock), c, close, e);
  }

  lemma AnsweredKeeps(s: State, c: int, close: bool, ok: bool, retryAfter: int, random: int)
    requires Inv(s) && s.Answerable(c) && s.queues.connections[c].eventId != 0
    requires RESEND_TIMEOUT <= random <= 2 * RESEND_TIMEOUT
    ensures Inv(s.Answered(c, close, ok, s.clock, retryAfter, random))
    ensures s.Answered(c, close, ok, s.clock, retryAfter, random).clock == s.clock
  {
    var id := s.queues.connections[c].eventId;
    var u := s.queues.updates[id];
    var wait := Backoff(u, retryAfter, random).1;
    if ok {
      AcceptedKeeps(s, c, close, AnswerTo(id, u, true, s.clock, 0, 0));
    } else if s.clock + wait > u.expiresAt {
      FinishKeeps(s, c, close, AnswerTo(id, u, false, s.clock, retryAfter, wait));
    } else {
      RetryKeeps(s, c, close, retryAfter, random);
    }
  }

  lemma HandleKeeps(s: State, c: int, reply: Reply, random: int)
    requires Inv(s) && RESEND_TIMEOUT <= random <= 2 * RESEND_TIMEOUT
    requires c in s.queues.connections && s.queues.connections[c].eventId == 0 ==> reply.Hangup?
    ensures c in s.queues.connections && s.queues.connections[c].eventId != 0 ==> s.Answerable(c)
    ensures Inv(s.Handle(c, reply, s.clock, random)) && s.Handle(c, reply, s.clock, random).clock == s.clock
  {
    if c in s.queues.connections {
      var t := s.(firstError410 := s.First410(reply, s.clock));
      CoreKeeps(s, t);
      if s.queues.connections[c].eventId != 0 {
        InFlightAnswer(s.queues, c);
        AnsweredKeeps(t, c, s.MustClose(c, reply, s.clock), reply.Accepts(), reply.RetryAfter(), random);
      } else {
        IdleKeeps(t, c);
      }
    }
  }

  // --- connections ---

  lemma ConnectQueues(q: Queues, c: int, ipGeneration: int)
    requires q.Consistent() && HeldOk(q) && c !in q.connections
    ensures var n := q.Connect(c, ipGeneration);
      && n.Consistent() && HeldOk(n) && n.updates == q.updates && n.fifos == q.fifos && n.place == q.place
      && |n.connections| == |q.connections| + 1
  {
    ConnectKeeps(q, c, ipGeneration);
    var n := q.Connect(c, ipGeneration);
    forall j | j in n.fifos && j in n.place && n.place[j] == Held
      ensures n.HasFront(j) && !n.updates[n.Front(j)].headerFits
    {
      AboutQueue(q, j);
    }
  }

  lemma ConnectKeepsAll(s: State)
    requires Inv(s) && s.Size() < s.maxConnections
    ensures Inv(s.Connect()) && s.Connect().clock == s.clock
    ensures s.Connect().maxConnections == s.maxConnections && s.Connect().Size() == s.Size() + 1
  {
    ConnectQueues(s.queues, s.nextConnection, s.ipGeneration);
    IdleMatches(s.log, s.queues, s.Connect().queues, s.horizon, s.clock, s.clock);
    assert CapacityOk(s.Connect());
  }

  lemma ErrorKeeps(s: State, at: int)
    requires Inv(s)
    ensures Goes(s, s.OnError().Relax(at))
  {
  }

  lemma PendingKeeps(s: State, at: int)
    requires Inv(s) && s.Size() < s.maxConnections
    ensures Goes(s, s.AddPending().Relax(at))
  {
    var n := s.AddPending().Relax(at);
    assert |n.pending| == |s.pending| + 1;
    assert CapacityOk(n);
  }

  lemma OpenIs(s: State, need: int, now: int, o: Oracle, i: nat)
    requires s.FreshConnections()
    ensures s.Size() >= need ==> s.Open(need, now, o, i).0 == s
    ensures s.Size() < need && now < o.floods(i) ==> s.Open(need, now, o, i).0 == s.Relax(o.floods(i))
    ensures s.Size() < need && now >= o.floods(i) ==>
      match o.attempts(i)
      case Failed => s.Open(need, now, o, i).0 == s.OnError().Relax(now + 1)
      case Pending => s.Open(need, now, o, i).0 == s.AddPending().Relax(now + 1)
      case Connected =>
        && s.Connect().FreshConnections()
        && s.Open(need, now, o, i) == s.Connect().Open(need, now, o, i + 1)
  {
  }

  lemma {:induction false} OpenKeeps(s: State, need: int, o: Oracle, i: nat)
    requires Inv(s) && need <= s.maxConnections && s.FreshConnections()
    ensures Goes(s, s.Open(need, s.clock, o, i).0)
    decreases need - s.Size()
  {
    OpenIs(s, need, s.clock, o, i);
    if s.Size() < need {
      if s.clock < o.floods(i) {
        RelaxKeeps(s, o.floods(i));
      } else {
        match o.attempts(i)
        case Failed => ErrorKeeps(s, s.clock + 1);
        case Pending => PendingKeeps(s, s.clock + 1);
        case Connected =>
          ConnectKeepsAll(s);
          OpenKeeps(s.Connect(), need, o, i + 1);
      }
    }
  }

  lemma {:induction false} UseSocketsKeeps(s: State, need: int, o: Oracle, i: nat)
    requires Inv(s)
    ensures var t := s.UseSockets(need, s.clock, o, i); Inv(t) && t.clock == s.clock
    decreases s.readySockets
  {
    CoreKeeps(s, s.(readySockets := 0));
    if s.readySockets > 0 && |s.queues.connections| + |s.pending| < need {
      if !o.handshakes(i) {
        ErrorKeeps(s.(readySockets := 0), s.clock + 1);
      } else {
        var t := s.(readySockets := s.readySockets - 1);
        CoreKeeps(s, t);
        ConnectKeepsAll(t);
        UseSocketsKeeps(t.Connect(), need, o, i + 1);
      }
    }
  }

  lemma CreateConnectionsKeeps(s: State, o: Oracle)
    requires Inv(s)
    ensures s.FreshConnections()
    ensures var t := s.CreateConnections(s.clock, o); Inv(t) && t.clock == s.clock
  {
    var need := s.Needed(s.clock);
    assert CapacityOk(s);
    OpenKeeps(s, need, o, 0);
    if s.ipReady && s.sslReady && !s.Open(need, s.clock, o, 0).1 {
      UseSocketsKeeps(s.Open(need, s.clock, o, 0).0, need, o, 0);
    }
  }

  // --- the loop of the actor ---

  function Tick(s: State, now: int): State { s.(clock := now) }

  lemma TickKeeps(s: State, now: int)
    requires Inv(s) && s.clock <= now
    ensures Inv(Tick(s, now))
  {
  }

  /** Loads what fits, opens connections, then sends what is due. */
  ghost function Loop(s: State, o: Oracle): (r: State)
    requires Inv(s)
    ensures Inv(r) && r.clock == s.clock
  {
    var begun := s.(timer := 0);
    CoreKeeps(s, begun);
    if s.stopped then begun
    else
      LoadUpdatesKeeps(begun);
      var loaded := begun.LoadUpdates(s.clock);
      CoreKeeps(loaded, loaded.Resolve(o));
      CreateConnectionsKeeps(loaded.Resolve(o), o);
      var ready := loaded.Resolve(o).CreateConnections(s.clock, o);
      ConsistentSendable(ready);
      SendAllKeeps(ready);
      if ready.stopped then ready else ready.SendAll(s.clock)
  }

  /** The loop, stage by stage. */
  lemma LoopIs(s: State, o: Oracle)
    requires Inv(s)
    ensures var begun := s.(timer := 0); var loaded := begun.LoadUpdates(s.clock);
      && Inv(begun) && (s.stopped ==> Loop(s, o) == begun)
      && loaded.Resolve(o).FreshConnections() && loaded.clock == s.clock
      && (!s.stopped ==>
            var ready := loaded.Resolve(o).CreateConnections(s.clock, o);
            && Inv(ready) && ready.clock == s.clock && ready.Sendable()
            && Loop(s, o) == if ready.stopped then ready else ready.SendAll(s.clock))
  {
    var begun := s.(timer := 0);
    CoreKeeps(s, begun);
    LoadUpdatesKeeps(begun);
    var loaded := begun.LoadUpdates(s.clock);
    CoreKeeps(loaded, loaded.Resolve(o));
    CreateConnectionsKeeps(loaded.Resolve(o), o);
    ConsistentSendable(loaded.Resolve(o).CreateConnections(s.clock, o));
  }

  // --- steps and runs ---

  datatype Step =
    | Push(event: Event)
    | Lose(ids: set<int>)
    | Network(ipReady: bool, sslReady: bool, newAddress: bool, failed: bool)
    | NewUpdates(now: int, oracle: Oracle)
    | Wake(now: int, oracle: Oracle)
    | SocketReady(id: int, ok: bool, now: int, oracle: Oracle)
    | Receive(conn: int, reply: Reply, now: int, random: int, oracle: Oracle)

  /** What the surroundings may do: identifiers are assigned in ascending order, time does not go
      back, each pending socket is reported on once, and a connection without a request in flight
      can only hang up. */
  ghost predicate Enabled(s: State, step: Step) {
    match step
    case Push(e) => 0 < e.id && s.feed.tail <= e.id && e.id + 1 < MAX_ID
    case Lose(_) => true
    case Network(_, _, _, _) => true
    case NewUpdates(now, _) => s.clock <= now
    case Wake(now, _) => s.clock <= now
    case SocketReady(id, _, now, _) => s.clock <= now && id in s.pending
    case Receive(c, reply, now, random, _) =>
      && s.clock <= now && RESEND_TIMEOUT <= random <= 2 * RESEND_TIMEOUT
      && (c in s.queues.connections && s.queues.connections[c].eventId == 0 ==> reply.Hangup?)
  }

  function OnNetwork(s: State, ipReady: bool, sslReady: bool, newAddress: bool, failed: bool): State {
    var t := s.(ipReady := ipReady, sslReady := sslReady,
                ipGeneration := if newAddress then s.ipGeneration + 1 else s.ipGeneration);
    if failed then t.OnError() else t
  }

  function OnSocket(s: State, id: int, ok: bool): State {
    var t := s.(pending := s.pending - {id});
    if ok then t.(readySockets := t.readySockets + 1) else t.OnError()
  }

  lemma PushKeeps(s: State, e: Event)
    requires Inv(s) && Enabled(s, Push(e))
    ensures Inv(s.(feed := s.feed.Push(e)))
  {
  }

  lemma LoseKeeps(s: State, ids: set<int>)
    requires Inv(s)
    ensures Inv(s.(feed := s.feed.Remove(ids)))
  {
    RemovedIs(s.feed.events, ids);
    assert CapacityOk(s.(feed := s.feed.Remove(ids)));
  }

  lemma SocketKeeps(s: State, id: int, ok: bool, now: int)
    requires Inv(s) && id in s.pending && s.clock <= now
    ensures Inv(OnSocket(Tick(s, now), id, ok))
  {
  }

  function OnUpdates(s: State, now: int): State { s.(feedEmpty := false, clock := now) }

  lemma UpdatesKeep(s: State, now: int)
    requires Inv(s) && s.clock <= now
    ensures Inv(OnUpdates(s, now))
  {
  }

  lemma ReceiveKeeps(s: State, c: int, reply: Reply, now: int, random: int)
    requires Inv(s) && s.clock <= now && RESEND_TIMEOUT <= random <= 2 * RESEND_TIMEOUT
    requires c in s.queues.connections && s.queues.connections[c].eventId == 0 ==> reply.Hangup?
    ensures c in s.queues.connections && s.queues.connections[c].eventId != 0 ==> Tick(s, now).Answerable(c)
    ensures Inv(Tick(s, now).Handle(c, reply, now, random)) && Tick(s, now).Handle(c, reply, now, random).clock == now
  {
    TickKeeps(s, now);
    HandleKeeps(Tick(s, now), c, reply, random);
  }

  /** A hang-up also makes the actor loop a second time; that is a Wake step. */
  ghost function Apply(s: State, step: Step): (r: State)
    requires Inv(s) && Enabled(s, step)
    ensures Inv(r)
  {
    match step
    case Push(e) =>
      PushKeeps(s, e);
      s.(feed := s.feed.Push(e))
    case Lose(ids) =>
      LoseKeeps(s, ids);
      s.(feed := s.feed.Remove(ids))
    case Network(ipReady, sslReady, newAddress, failed) =>
      CoreKeeps(s, OnNetwork(s, ipReady, sslReady, newAddress, failed));
      OnNetwork(s, ipReady, sslReady, newAddress, failed)
    case NewUpdates(now, o) =>
      UpdatesKeep(s, now);
      Loop(OnUpdates(s, now), o)
    case Wake(now, o) =>
      TickKeeps(s, now);
      Loop(Tick(s, now), o)
    case SocketReady(id, ok, now, o) =>
      SocketKeeps(s, id, ok, now);
      Loop(OnSocket(Tick(s, now), id, ok), o)
    case Receive(c, reply, now, random, o) =>
      ReceiveKeeps(s, c, reply, now, random);
      var t := Tick(s, now).Handle(c, reply, now, random);
      if c in s.queues.connections && !s.GoneTooLong(reply, now) then Loop(t, o) else t
  }

  lemma ReceiveIs(s: State, c: int, reply: Reply, now: int, random: int, o: Oracle)
    requires Inv(s) && Enabled(s, Receive(c, reply, now, random, o))
    ensures c in s.queues.connections && s.queues.connections[c].eventId != 0 ==> Tick(s, now).Answerable(c)
    ensures var t := Tick(s, now).Handle(c, reply, now, random);
      && Inv(t) && t.clock == now
      && Apply(s, Receive(c, reply, now, random, o)) ==
        if c in s.queues.connections && !s.GoneTooLong(reply, now) then Loop(t, o) else t
  {
    ReceiveKeeps(s, c, reply, now, random);
  }

  ghost predicate Possible(s: State, steps: seq<Step>)
    requires Inv(s)
    decreases |steps|
  {
    steps == [] || (Enabled(s, steps[0]) && Possible(Apply(s, steps[0]), steps[1..]))
  }

  ghost function Run(s: State, steps: seq<Step>): (r: State)
    requires Inv(s) && Possible(s, steps)
    ensures Inv(r)
    decreases |steps|
  {
    if steps == [] then s else Run(Apply(s, steps[0]), steps[1..])
  }

  // --- what holds in every run ---

  const IP_ADDRESS_CACHE_TIME := 30 * 60

  /** The state after the start: a webhook restored from the database was verified before. */
  function Init(maxConnections: int, fromDb: bool, now: int): State {
    State(Queues(map[], map[], {}, map[], map[], []), Feed([], 0), 0, false, FIRST_UNIQUE_QUEUE,
          maxConnections, 1, {}, 1, 0, false, false, 0, fromDb, false, now - 2 * IP_ADDRESS_CACHE_TIME, 0, 0,
          now, 0, Empty)
  }

  lemma InitOk(maxConnections: int, fromDb: bool, now: int)
    requires 0 < maxConnections
    ensures Inv(Init(maxConnections, fromDb, now))
  {
  }

  /** The steps are possible and lead to t. */
  ghost predicate Leads(s: State, steps: seq<Step>, t: State)
    requires Inv(s)
  {
    Possible(s, steps) && Run(s, steps) == t
  }

  ghost predicate Reachable(maxConnections: int, t: State)
    requires 0 < maxConnections
  {
    exists fromDb: bool, now: int, steps: seq<Step> ::
      Inv(Init(maxConnections, fromDb, now)) && Leads(Init(maxConnections, fromDb, now), steps, t)
  }

  /** In every reachable state the loaded events are the disjoint contents of the FIFOs, every
      queue waits once for its front or has exactly its front in flight on one connection, unless
      the header of its front did not fit, and nothing exceeds its limit. */
  lemma SchedulerConsistent(maxConnections: int, t: State)
    requires 0 < maxConnections && Reachable(maxConnections, t)
    ensures forall id :: id in t.queues.updates <==> exists k :: k in t.queues.fifos && id in t.queues.fifos[k]
    ensures forall k, j, id | k in t.queues.fifos && j in t.queues.fifos && id in t.queues.fifos[k] &&
      id in t.queues.fifos[j] :: k == j
    ensures forall k | k in t.queues.fifos :: t.queues.fifos[k] != [] && Ascending(t.queues.fifos[k])
    ensures forall w | w in t.queues.wakeups :: t.queues.HasFront(w.1) && w.0 == t.queues.Due(w.1)
    ensures forall k | k in t.queues.fifos :: IsWaiting(t.queues, k) ==> !IsFlying(t.queues, k)
    ensures forall k | k in t.queues.fifos ::
      IsWaiting(t.queues, k) || IsFlying(t.queues, k) ||
        (t.queues.HasFront(k) && !t.queues.updates[t.queues.Front(k)].headerFits)
    ensures forall c | c in t.queues.connections && t.queues.connections[c].eventId != 0 ::
      exists k :: t.queues.HasFront(k) && t.queues.connections[c].eventId == t.queues.Front(k)
    ensures forall c, d | c in t.queues.connections && d in t.queues.connections
      && t.queues.connections[c].eventId == t.queues.connections[d].eventId != 0 :: c == d
    ensures |t.queues.connections| + |t.pending| + t.readySockets <= t.maxConnections &&
      |t.queues.fifos| <= 2 * t.maxConnections
  {
    LoadedIsQueued(t.queues);
    OncePerQueue(t.queues);
    forall k | k in t.queues.fifos
      ensures IsWaiting(t.queues, k) || IsFlying(t.queues, k) ||
        (t.queues.HasFront(k) && !t.queues.updates[t.queues.Front(k)].headerFits)
    {
      AboutQueue(t.queues, k);
    }
  }

  /** In every run the log is valid: SentInOrder, SendsAscend and ForgottenOnce say what that means. */
  lemma LogsValid(maxConnections: int, t: State)
    requires 0 < maxConnections && Reachable(maxConnections, t)
    ensures ValidLog(t.log)
    ensures forall e | t.log.Has(e) && e.Load? :: t.log.Has(Forget(e.id)) <==> e.id !in t.queues.updates
  {
  }

  lemma BoundOf(log: Log, q: Queues, horizon: int, clock: int, e: Entry)
    requires Matches(log, q, horizon, clock) && log.Has(e) && e.Load?
    ensures Failures(log, e.id) == 0 ==> Sends(log, e.id) <= 1
    ensures Failures(log, e.id) > 0 ==> Sends(log, e.id) <= Max(1, 2 + e.expiresAt - FirstFailure(log, e.id))
  {
  }

  /** In every run an update is sent at most max(1, 2 + expiry - first failure) times. */
  lemma SendsAreBounded(maxConnections: int, t: State, e: Entry)
    requires 0 < maxConnections && Reachable(maxConnections, t) && t.log.Has(e) && e.Load?
    ensures Failures(t.log, e.id) == 0 ==> Sends(t.log, e.id) <= 1
    ensures Failures(t.log, e.id) > 0 ==> Sends(t.log, e.id) <= Max(1, 2 + e.expiresAt - FirstFailure(t.log, e.id))
  {
    BoundOf(t.log, t.queues, t.horizon, t.clock, e);
  }

  /** In every run the stored delay of a loaded update is within 1..120 and, after k failures none
      of which asked for a delay, at least min(60, 2^(k-1)). */
  lemma DelaysAreBounded(maxConnections: int, t: State, id: int)
    requires 0 < maxConnections && Reachable(maxConnections, t) && id in t.queues.updates
    ensures 1 <= t.queues.updates[id].delay <= 120
    ensures Failures(t.log, id) > 0 && Plain(t.log, id) ==>
      t.queues.updates[id].delay >= Min(60, Pow2(Failures(t.log, id) - 1))
  {
  }

  /** An event that is available is loaded, expired, or still ahead of the read offset. */
  lemma NothingSkipped(maxConnections: int, t: State, e: Event)
    requires 0 < maxConnections && Reachable(maxConnections, t) && e in t.feed.events
    ensures e.id in t.queues.updates || e.expiresAt < t.clock || t.offset <= e.id
  {
  }

  /** Whether a queue taken out for sending stays scheduled depends only on its header. */
  lemma ScheduledIff(s: State, w: (int, int))
    requires Inv(s) && s.Sendable() && s.queues.ready != [] && s.queues.wakeups != {}
    requires w == First(s.queues.wakeups) && w.0 <= s.clock
    ensures s.queues.HasFront(w.1) && w.1 in s.SendOne(s.clock).queues.fifos
    ensures var n := s.SendOne(s.clock).queues;
      IsWaiting(n, w.1) || IsFlying(n, w.1) <==> s.queues.updates[s.queues.Front(w.1)].headerFits
  {
    SendOneIs(s, s.clock, w);
    ChosenQueue(s.queues, w, s.clock);
    var n := s.SendOne(s.clock).queues;
    FlyingIff(n, w.1);
  }
}
