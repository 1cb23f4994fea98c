/** Which queue an event is loaded into, how much a pass loads, and how many connections it opens. */
module WebhookLoads {
  import opened Common
  import opened WebhookQueues
  import opened WebhookFeed
  import opened WebhookLog
  import opened WebhookSpec
  import opened WebhookRuns
  import opened WebhookReplies

  // --- loaded events come from the persistent queue ---

  /** The entry records the load of this event, into the queue that the event names if it names one. */
  predicate LoadOf(l: Entry, e: Event, unique: int) {
    && l.Load? && l.id == e.id && l.expiresAt == e.expiresAt
    && if e.extra != 0 then l.queueId == e.extra else 1152921504606846976 <= l.queueId < unique
  }

  ghost predicate Known(l: Entry, pushed: set<Event>, unique: int) {
    exists e | e in pushed :: LoadOf(l, e, unique)
  }

  /** The event of this entry asked for its queue by name. */
  ghost predicate Named(l: Entry, pushed: set<Event>) {
    l.Load? && exists e | e in pushed :: e.id == l.id && e.extra == l.queueId != 0
  }

  /** Events that name no queue get one that only an event that names it can share. */
  ghost predicate OwnQueues(log: Log, pushed: set<Event>) {
    forall l, m | log.Has(l) && log.Has(m) && l.Load? && m.Load? && l.queueId == m.queueId && l.id != m.id ::
      Named(l, pushed) || Named(m, pushed)
  }

  /** Events pushed so far have identifiers of their own. */
  ghost predicate PushedOk(pushed: set<Event>, tail: int) {
    && (forall e | e in pushed :: e.id < tail)
    && forall e, f | e in pushed && f in pushed && e.id == f.id :: e == f
  }

  ghost predicate LoadsOk(s: State, pushed: set<Event>) {
    && PushedOk(pushed, s.feed.tail) && (forall e | e in s.feed.events :: e in pushed)
    && (forall l | s.log.Has(l) && l.Load? :: Known(l, pushed, s.uniqueQueueId))
    && OwnQueues(s.log, pushed)
    && 1152921504606846976 <= s.uniqueQueueId
  }

  ghost predicate SameLoads(s: State, t: State) {
    && (forall e | e in t.feed.events :: e in s.feed.events)
    && (forall l: Entry | l.Load? :: t.log.Has(l) <==> s.log.Has(l))
    && t.uniqueQueueId == s.uniqueQueueId && t.feed.tail == s.feed.tail
  }

  lemma SameLoadsOk(s: State, t: State, pushed: set<Event>)
    requires LoadsOk(s, pushed) && SameLoads(s, t)
    ensures LoadsOk(t, pushed)
  {
  }

  lemma KnownLonger(l: Entry, pushed: set<Event>, more: set<Event>, unique: int, later: int)
    requires Known(l, pushed, unique) && pushed <= more && unique <= later
    ensures Known(l, more, later)
  {
    var e :| e in pushed && LoadOf(l, e, unique);
    assert LoadOf(l, e, later);
  }

  lemma NewLoadOwn(log: Log, l: Entry, e: Event, pushed: set<Event>, unique: int)
    requires OwnQueues(log, pushed) && e in pushed && l.Load?
    requires forall m | log.Has(m) && m.Load? :: Known(m, pushed, unique)
    requires l.id == e.id && l.queueId == (if e.extra == 0 then unique else e.extra)
    ensures OwnQueues(Then(log, l), pushed)
  {
    forall m | log.Has(m) && m.Load? && m.queueId == l.queueId && m.id != l.id
      ensures Named(l, pushed) || Named(m, pushed)
    {
      var f :| f in pushed && LoadOf(m, f, unique);
      assert e.extra == 0 ==> f.extra == m.queueId != 0;
    }
  }

  lemma LoadOneOk(s: State, e: Event, now: int, pushed: set<Event>)
    requires LoadsOk(s, pushed) && e in pushed
    ensures LoadsOk(s.LoadOne(e, now), pushed)
  {
    var t := s.LoadOne(e, now);
    if e.id !in s.queues.updates {
      var l := t.log.last;
      NewLoadOwn(s.log, l, e, pushed, s.uniqueQueueId);
      assert LoadOf(l, e, t.uniqueQueueId);
      forall m | s.log.Has(m) && m.Load? ensures Known(m, pushed, t.uniqueQueueId) {
        KnownLonger(m, pushed, pushed, s.uniqueQueueId, t.uniqueQueueId);
      }
    }
  }

  lemma {:induction false} LoadFromOk(s: State, got: seq<Event>, i: nat, now: int, pushed: set<Event>)
    requires i <= |got| && LoadsOk(s, pushed) && forall e | e in got :: e in pushed
    ensures LoadsOk(s.LoadFrom(got, i, now), pushed)
    decreases |got| - i
  {
    if i < |got| {
      LoadOneOk(s, got[i], now, pushed);
      LoadFromOk(s.LoadOne(got[i], now), got, i + 1, now, pushed);
    }
  }

  lemma LoadUpdatesOk(s: State, now: int, pushed: set<Event>)
    requires LoadsOk(s, pushed) && Sorted(s.feed.events)
    ensures LoadsOk(s.LoadUpdates(now), pushed)
  {
    if !s.feedEmpty && |s.queues.fifos| < s.MaxLoaded() {
      TakenIs(s.feed.events, s.ReadFrom(), now, s.Limit());
      KeptIs(s.feed.events, s.ReadFrom(), now, s.Limit());
      SameLoadsOk(s, s.ReadFeed(now), pushed);
      LoadFromOk(s.ReadFeed(now), s.Got(now), 0, now, pushed);
    }
  }

  // --- no other step loads ---

  lemma SameBoth(s: State, t: State, u: State)
    requires SameLoads(s, t) && SameLoads(t, u)
    ensures SameLoads(s, u)
  {
  }

  lemma SendOneSame(s: State, now: int)
    requires s.Sendable()
    ensures SameLoads(s, s.SendOne(now))
  {
    if s.queues.ready != [] && s.queues.wakeups != {} {
      SendOneIs(s, now, First(s.queues.wakeups));
    }
  }

  lemma {:induction false} SendAllSame(s: State, now: int)
    requires s.Sendable()
    ensures SameLoads(s, s.SendAll(now))
    decreases |s.queues.ready|
  {
    SendOneSame(s, now);
    if s.Outcome(now) == Sent {
      StillSendable(s, First(s.queues.wakeups).1, now);
      SendAllSame(s.SendOne(now), now);
      SameBoth(s, s.SendOne(now), s.SendOne(now).SendAll(now));
    }
  }

  lemma CargoSame(s: State, t: State)
    requires SameCargo(s, t)
    ensures SameLoads(s, t)
  {
  }

  lemma LoopOk(s: State, o: Oracle, pushed: set<Event>)
    requires Inv(s) && LoadsOk(s, pushed)
    ensures LoadsOk(Loop(s, o), pushed)
  {
    LoopIs(s, o);
    var begun := s.(timer := 0);
    SameLoadsOk(s, begun, pushed);
    if !s.stopped {
      var loaded := begun.LoadUpdates(s.clock);
      LoadUpdatesOk(begun, s.clock, pushed);
      CreateCargo(loaded.Resolve(o), s.clock, o);
      var ready := loaded.Resolve(o).CreateConnections(s.clock, o);
      CargoSame(loaded, ready);
      SameLoadsOk(loaded, ready, pushed);
      SendAllSame(ready, s.clock);
      SameLoadsOk(ready, ready.SendAll(s.clock), pushed);
    }
  }

  lemma HandleSame(s: State, c: int, reply: Reply, now: int, random: int)
    requires Sorted(s.feed.events)
    requires c in s.queues.connections && s.queues.connections[c].eventId != 0 ==> s.Answerable(c)
    ensures SameLoads(s, s.Handle(c, reply, now, random))
  {
    if c in s.queues.connections && s.queues.connections[c].eventId != 0 {
      var t := s.(firstError410 := s.First410(reply, now));
      AnsweredSame(t, c, s.MustClose(c, reply, now), reply.Accepts(), now, reply.RetryAfter(), random);
    }
  }

  lemma AnsweredSame(s: State, c: int, close: bool, ok: bool, now: int, retryAfter: int, random: int)
    requires Sorted(s.feed.events) && s.Answerable(c)
    ensures SameLoads(s, s.Answered(c, close, ok, now, retryAfter, random))
  {
    var id := s.queues.connections[c].eventId;
    var u := s.queues.updates[id];
    var wait := Backoff(u, retryAfter, random).1;
    if ok {
      FinishSame(s.(lastSuccess := now), c, close, AnswerTo(id, u, true, now, 0, 0));
    } else if now + wait > u.expiresAt {
      FinishSame(s, c, close, AnswerTo(id, u, false, now, retryAfter, wait));
    }
  }

  lemma FinishSame(s: State, c: int, close: bool, e: Entry)
    requires Sorted(s.feed.events) && s.Answerable(c) && e.Answer?
    ensures SameLoads(s, s.Finish(c, close, e))
  {
    RemovedIs(s.feed.events, {s.queues.connections[c].eventId});
  }

  // --- every run ---

  function PushedBy(step: Step): set<Event> { if step.Push? then {step.event} else {} }

  /** The events that a run appends to the persistent queue. */
  function Pushed(steps: seq<Step>): set<Event> {
    if steps == [] then {} else PushedBy(steps[0]) + Pushed(steps[1..])
  }

  lemma PushOk(s: State, e: Event, pushed: set<Event>)
    requires LoadsOk(s, pushed) && s.feed.tail <= e.id
    ensures LoadsOk(s.(feed := s.feed.Push(e)), pushed + {e})
  {
    forall l | s.log.Has(l) && l.Load? ensures Known(l, pushed + {e}, s.uniqueQueueId) {
      KnownLonger(l, pushed, pushed + {e}, s.uniqueQueueId, s.uniqueQueueId);
    }
    forall l | Named(l, pushed) ensures Named(l, pushed + {e}) {
      var f :| f in pushed && f.id == l.id && f.extra == l.queueId != 0;
      assert f in pushed + {e};
    }
  }

  lemma QuietOk(s: State, step: Step, pushed: set<Event>)
    requires Inv(s) && Enabled(s, step) && LoadsOk(s, pushed) && (step.Lose? || step.Network?)
    ensures LoadsOk(Apply(s, step), pushed)
  {
    match step
    case Lose(ids) =>
      RemovedIs(s.feed.events, ids);
      SameLoadsOk(s, s.(feed := s.feed.Remove(ids)), pushed);
    case Network(ipReady, sslReady, newAddress, failed) =>
      SameLoadsOk(s, OnNetwork(s, ipReady, sslReady, newAddress, failed), pushed);
  }

  lemma WokenOk(s: State, step: Step, pushed: set<Event>)
    requires Inv(s) && Enabled(s, step) && LoadsOk(s, pushed) && (step.NewUpdates? || step.Wake? || step.SocketReady?)
    ensures LoadsOk(Apply(s, step), pushed)
  {
    match step
    case NewUpdates(now, o) =>
      UpdatesKeep(s, now);
      SameLoadsOk(s, OnUpdates(s, now), pushed);
      LoopOk(OnUpdates(s, now), o, pushed);
    case Wake(now, o) =>
      TickKeeps(s, now);
      SameLoadsOk(s, Tick(s, now), pushed);
      LoopOk(Tick(s, now), o, pushed);
    case SocketReady(id, ok, now, o) =>
      SocketKeeps(s, id, ok, now);
      SameLoadsOk(s, OnSocket(Tick(s, now), id, ok), pushed);
      LoopOk(OnSocket(Tick(s, now), id, ok), o, pushed);
  }

  lemma ReceiveOk(s: State, c: int, reply: Reply, now: int, random: int, o: Oracle, pushed: set<Event>)
    requires Inv(s) && Enabled(s, Receive(c, reply, now, random, o)) && LoadsOk(s, pushed)
    ensures LoadsOk(Apply(s, Receive(c, reply, now, random, o)), pushed)
  {
    ReceiveIs(s, c, reply, now, random, o);
    var h := Tick(s, now).Handle(c, reply, now, random);
    HandleSame(Tick(s, now), c, reply, now, random);
    SameLoadsOk(s, h, pushed);
    LoopOk(h, o, pushed);
  }

  lemma ApplyOk(s: State, step: Step, pushed: set<Event>)
    requires Inv(s) && Enabled(s, step) && LoadsOk(s, pushed)
    ensures LoadsOk(Apply(s, step), pushed + PushedBy(step))
  {
    assert !step.Push? ==> pushed + PushedBy(step) == pushed;
    match step
    case Push(e) => PushOk(s, e, pushed);
    case Receive(c, reply, now, random, o) => ReceiveOk(s, c, reply, now, random, o, pushed);
    case NewUpdates(_, _) => WokenOk(s, step, pushed);
    case Wake(_, _) => WokenOk(s, step, pushed);
    case SocketReady(_, _, _, _) => WokenOk(s, step, pushed);
    case _ => QuietOk(s, step, pushed);
  }

  lemma {:induction false} RunOk(s: State, steps: seq<Step>, pushed: set<Event>)
    requires Inv(s) && Possible(s, steps) && LoadsOk(s, pushed)
    ensures LoadsOk(Run(s, steps), pushed + Pushed(steps))
    decreases |steps|
  {
    if steps == [] {
      assert pushed + Pushed(steps) == pushed;
    } else {
      ApplyOk(s, steps[0], pushed);
      RunOk(Apply(s, steps[0]), steps[1..], pushed + PushedBy(steps[0]));
      assert pushed + PushedBy(steps[0]) + Pushed(steps[1..]) == pushed + Pushed(steps);
    }
  }

  lemma StartOk(maxConnections: int, fromDb: bool, now: int, steps: seq<Step>)
    requires Inv(Init(maxConnections, fromDb, now)) && Possible(Init(maxConnections, fromDb, now), steps)
    ensures LoadsOk(Run(Init(maxConnections, fromDb, now), steps), Pushed(steps))
  {
    RunOk(Init(maxConnections, fromDb, now), steps, {});
    assert {} + Pushed(steps) == Pushed(steps);
  }

  /** The entry loads this event, into the queue that it names, or else into one from 2^60 up. */
  predicate Loads(l: Entry, e: Event) {
    && l.Load? && l.id == e.id && l.expiresAt == e.expiresAt
    && (e.extra != 0 ==> l.queueId == e.extra) && (e.extra == 0 ==> 1152921504606846976 <= l.queueId)
  }

  lemma KnownLoads(l: Entry, pushed: set<Event>, unique: int)
    requires Known(l, pushed, unique)
    ensures exists e | e in pushed :: Loads(l, e)
  {
    var e :| e in pushed && LoadOf(l, e, unique);
    assert Loads(l, e);
  }

  /** In every run each load is of an event that was pushed, into the queue that it names; events
      that name none share a queue only with an event that names it. */
  lemma LoadsFollowEvents(maxConnections: int, fromDb: bool, now: int, steps: seq<Step>)
    requires 0 < maxConnections && Inv(Init(maxConnections, fromDb, now))
    requires Possible(Init(maxConnections, fromDb, now), steps)
    ensures var log := Run(Init(maxConnections, fromDb, now), steps).log;
      && (forall l | log.Has(l) && l.Load? :: exists e | e in Pushed(steps) :: Loads(l, e))
      && (forall l, m | log.Has(l) && log.Has(m) && l.Load? && m.Load? && l.queueId == m.queueId && l.id != m.id ::
            Named(l, Pushed(steps)) || Named(m, Pushed(steps)))
  {
    StartOk(maxConnections, fromDb, now, steps);
    var t := Run(Init(maxConnections, fromDb, now), steps);
    forall l | t.log.Has(l) && l.Load? ensures exists e | e in Pushed(steps) :: Loads(l, e) {
      KnownLoads(l, Pushed(steps), t.uniqueQueueId);
    }
  }

  lemma QueueOf(l: Entry, e: Event, pushed: set<Event>, unique: int, tail: int)
    requires l.Load? && Known(l, pushed, unique) && PushedOk(pushed, tail)
    requires e in pushed && e.id == l.id && e.extra != 0
    ensures l.queueId == e.extra
  {
  }

  /** Events that name the same queue are sent in order: when the later one is sent, the earlier one,
      if it was loaded before, is forgotten. */
  lemma SameNameInOrder(maxConnections: int, fromDb: bool, now: int, steps: seq<Step>, p: Log, a: Event, b: Event,
                        l: Entry)
    requires 0 < maxConnections && Inv(Init(maxConnections, fromDb, now))
    requires Possible(Init(maxConnections, fromDb, now), steps)
    requires Prefix(p, Run(Init(maxConnections, fromDb, now), steps).log) && p.Then? && p.last.Send?
    requires a in Pushed(steps) && b in Pushed(steps) && a.extra == b.extra != 0 && a.id < b.id
    requires p.last.id == b.id && p.past.Has(l) && l.Load? && l.id == a.id
    ensures p.past.Has(Forget(a.id))
  {
    var t := Run(Init(maxConnections, fromDb, now), steps);
    StartOk(maxConnections, fromDb, now, steps);
    PrefixHas(p, t.log, l);
    assert t.log.Has(l) && Known(l, Pushed(steps), t.uniqueQueueId);
    SentInOrder(t.log, p);
    var x :| p.past.Has(Load(p.last.id, p.last.queueId, x));
    var m := Load(p.last.id, p.last.queueId, x);
    PrefixHas(p, t.log, m);
    assert t.log.Has(m) && Known(m, Pushed(steps), t.uniqueQueueId);
    QueueOf(l, a, Pushed(steps), t.uniqueQueueId, t.feed.tail);
    QueueOf(m, b, Pushed(steps), t.uniqueQueueId, t.feed.tail);
  }
}
