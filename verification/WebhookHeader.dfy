/** A run in which a request header does not fit: what it blocks, and what it leaves unsent. */
module WebhookHeader {
  import opened WebhookQueues
  import opened WebhookFeed
  import opened WebhookSpec
  import opened WebhookRuns
  import opened WebhookSending
  import opened WebhookBlocked

  const TOO_LONG := Event(1, 100, 5, false)
  const OTHER := Event(2, 100, 6, true)

  /** Every attempt to connect succeeds at once. */
  const OPEN := Oracle(0, n => 0, n => Connected, n => true)

  /** Both events are in the persistent queue, and nothing else has happened. */
  function Pushed(): State {
    Init(1, false, 0).(ipReady := true, sslReady := true, feed := Feed([TOO_LONG, OTHER], 3))
  }

  /** The queues after both were loaded. */
  function Loaded(): Queues {
    Queues(map[1 := Update(100, 0, 0, 1, 0, 5, false), 2 := Update(100, 0, 0, 1, 0, 6, true)],
           map[5 := [1], 6 := [2]], {(0, 5), (0, 6)}, map[5 := Waiting, 6 := Waiting], map[], [])
  }

  function Steps(): seq<Step> {
    [Network(true, true, false, false), Push(TOO_LONG), Push(OTHER), Wake(0, OPEN)]
  }

  lemma PushedIs()
    ensures Inv(Init(1, false, 0)) && Inv(Pushed())
    ensures forall t | Apply(Pushed(), Wake(0, OPEN)) == t :: Leads(Init(1, false, 0), Steps(), t)
  {
    InitOk(1, false, 0);
    var s0, s1 := Init(1, false, 0), Init(1, false, 0).(ipReady := true, sslReady := true);
    var s2 := s1.(feed := Feed([TOO_LONG], 2));
    assert Apply(s0, Steps()[0]) == s1;
    assert Apply(s1, Steps()[1]) == s2;
    assert Apply(s2, Steps()[2]) == Pushed();
    FourSteps(s0, Steps(), s1, s2, Pushed());
  }

  lemma FourSteps(s0: State, steps: seq<Step>, s1: State, s2: State, s3: State)
    requires |steps| == 4 && Inv(s0) && Enabled(s0, steps[0]) && Apply(s0, steps[0]) == s1
    requires Inv(s1) && Enabled(s1, steps[1]) && Apply(s1, steps[1]) == s2
    requires Inv(s2) && Enabled(s2, steps[2]) && Apply(s2, steps[2]) == s3
    requires Inv(s3) && Enabled(s3, steps[3])
    ensures Leads(s0, steps, Apply(s3, steps[3]))
  {
    var t := Apply(s3, steps[3]);
    LeadsFrom(s3, steps[3..], t, t);
    assert steps[2..][1..] == steps[3..];
    LeadsFrom(s2, steps[2..], s3, t);
    assert steps[1..][1..] == steps[2..];
    LeadsFrom(s1, steps[1..], s2, t);
    LeadsFrom(s0, steps, s1, t);
  }

  lemma LeadsFrom(s: State, steps: seq<Step>, m: State, t: State)
    requires steps != [] && Inv(s) && Enabled(s, steps[0]) && Apply(s, steps[0]) == m
    requires (steps[1..] == [] && m == t) || Leads(m, steps[1..], t)
    ensures Leads(s, steps, t)
  {
  }

  // --- the loop, stage by stage ---

  lemma TakenBoth(events: seq<Event>)
    requires events == [TOO_LONG, OTHER]
    ensures Taken(events, 1, 0, 2) == [TOO_LONG, OTHER]
  {
    assert events[1..] == [OTHER] && events[1..][1..] == [];
    assert Taken([OTHER], 1, 0, 1) == [OTHER];
  }

  lemma LoadsBoth(s: State)
    requires s == Pushed().(timer := 0)
    ensures var t := s.LoadUpdates(0);
      && t.queues == Loaded() && t.timer == 0 && t.ipReady && t.sslReady && !t.stopped && !t.wasChecked
      && t.maxConnections == 1 && t.nextConnection == 1 && t.pending == {} && t.readySockets == 0
      && t.lastSuccess == -2 * IP_ADDRESS_CACHE_TIME && t.clock == 0
  {
    TakenBoth(s.feed.events);
    assert s.Start() == 1 && s.ReadFrom() == 1 && s.Limit() == 2;
    var got := s.Got(0);
    assert got == [TOO_LONG, OTHER];
    var r := s.ReadFeed(0);
    var one := r.LoadOne(got[0], 0);
    var two := one.LoadOne(got[1], 0);
    assert r.LoadFrom(got, 0, 0) == one.LoadFrom(got, 1, 0) == two.LoadFrom(got, 2, 0) == two;
    assert two.queues == Loaded();
  }

  lemma Opens(s: State)
    requires s.queues == Loaded() && s.ipReady && s.sslReady && !s.wasChecked && s.maxConnections == 1
    requires s.nextConnection == 1 && s.pending == {} && s.readySockets == 0
    requires s.lastSuccess == -2 * IP_ADDRESS_CACHE_TIME
    ensures s.FreshConnections()
    ensures var t := s.CreateConnections(0, OPEN);
      && t.queues == Loaded().Connect(1, t.ipGeneration) && t.timer == s.timer && t.stopped == s.stopped
      && t.clock == s.clock
  {
    assert |s.queues.fifos| == |{5, 6}| by { assert s.queues.fifos.Keys == {5, 6}; }
    assert s.Needed(0) == 1 && s.Size() == 0;
    var t := s.Connect();
    assert t.queues.connections.Keys == {1};
    assert t.Size() == 1;
    assert s.Open(1, 0, OPEN, 0) == t.Open(1, 0, OPEN, 1) == (t, false);
  }

  lemma Stops(s: State)
    requires Inv(s) && s.Sendable() && s.clock == 0 && s.queues == Loaded().Connect(1, s.ipGeneration)
    ensures StopsFirstAt(s, (0, 5)) && First(s.queues.wakeups) == (0, 5)
    ensures s.SendAll(0) == s.HoldFront(5, 0)
  {
    assert IsFirst(s.queues.wakeups, (0, 5));
    assert Before((0, 5), (0, 6));
    SendAllIs(s, 0, First(s.queues.wakeups));
    StopsHere(s, (0, 5));
  }

  /** The state in which the run ends: queue 5 can never be sent again, queue 6 is due and could be
      sent on the idle connection, and no timer is set. */
  ghost predicate StuckAndIdle(t: State) {
    && Blocked(t.queues, 5, 1) && DueLeft(t, (0, 6)) && t.timer == 0 && !t.stopped
  }

  lemma Sticks(n: State, ipGeneration: int)
    requires n.queues == Loaded().Connect(1, ipGeneration).Hold(5, 0) && n.timer == 0 && n.clock == 0 && !n.stopped
    ensures StuckAndIdle(n)
  {
  }

  lemma WakeIs(s: State, now: int, o: Oracle)
    requires Inv(s) && s.clock <= now && Inv(Tick(s, now))
    ensures Apply(s, Wake(now, o)) == Loop(Tick(s, now), o)
  {
  }

  lemma LoopSticks(s: State)
    requires s == Pushed() && Inv(s)
    ensures StuckAndIdle(Loop(s, OPEN))
  {
    LoopIs(s, OPEN);
    var begun := s.(timer := 0);
    LoadsBoth(begun);
    var loaded := begun.LoadUpdates(0);
    assert loaded.Resolve(OPEN) == loaded;
    Opens(loaded);
    var ready := loaded.CreateConnections(0, OPEN);
    Stops(ready);
    Sticks(ready.SendAll(0), ready.ipGeneration);
  }

  /** Such a state is reachable. */
  lemma HeaderSticks()
    ensures exists t :: Reachable(1, t) && StuckAndIdle(t)
  {
    PushedIs();
    var s := Pushed();
    assert Tick(s, 0) == s;
    WakeIs(s, 0, OPEN);
    LoopSticks(s);
    var t := Apply(s, Wake(0, OPEN));
    ReachedBy(1, false, 0, Steps(), t);
    assert Reachable(1, t) && StuckAndIdle(t);
  }

  lemma ReachedBy(maxConnections: int, fromDb: bool, now: int, steps: seq<Step>, t: State)
    requires 0 < maxConnections && Inv(Init(maxConnections, fromDb, now))
    requires Leads(Init(maxConnections, fromDb, now), steps, t)
    ensures Reachable(maxConnections, t)
  {
  }
}
