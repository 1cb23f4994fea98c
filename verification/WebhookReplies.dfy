/** What a reply to a request does: which replies make an update leave, what the others leave behind,
    and what the log says of them in every run. */
module WebhookReplies {
  import opened Common
  import opened WebhookQueues
  import opened WebhookFeed
  import opened WebhookLog
  import opened WebhookSpec
  import opened WebhookRuns

  // --- what a pass of the loop leaves alone ---

  /** Loaded updates stay as they are, but for the time of their last send, and fronts stay fronts;
      nothing is answered or forgotten. */
  ghost predicate Passes(s: State, t: State) {
    && (forall id | id in s.queues.updates :: SameUpdate(s.queues, t.queues, id))
    && (forall k | s.queues.HasFront(k) :: t.queues.HasFront(k) && t.queues.Front(k) == s.queues.Front(k))
    && SameAnswers(s.log, t.log) && t.lastSuccess == s.lastSuccess
  }

  ghost predicate SameUpdate(q: Queues, n: Queues, id: int) {
    id in q.updates && id in n.updates && n.updates[id] == q.updates[id].(lastSendTime := n.updates[id].lastSendTime)
  }

  ghost predicate SameAnswers(log: Log, n: Log) {
    forall e: Entry | e.Answer? || e.Forget? :: n.Has(e) <==> log.Has(e)
  }

  lemma PassesBoth(s: State, t: State, u: State)
    requires Passes(s, t) && Passes(t, u)
    ensures Passes(s, u)
  {
    forall id | id in s.queues.updates ensures SameUpdate(s.queues, u.queues, id) {
      assert SameUpdate(s.queues, t.queues, id);
    }
  }

  lemma LoadPasses(s: State, e: Event, now: int)
    ensures Passes(s, s.LoadOne(e, now))
  {
  }

  lemma {:induction false} LoadFromPasses(s: State, got: seq<Event>, i: nat, now: int)
    requires i <= |got|
    ensures Passes(s, s.LoadFrom(got, i, now))
    decreases |got| - i
  {
    if i < |got| {
      var t := s.LoadOne(got[i], now);
      LoadPasses(s, got[i], now);
      LoadFromPasses(t, got, i + 1, now);
      PassesBoth(s, t, t.LoadFrom(got, i + 1, now));
    }
  }

  lemma LoadUpdatesPasses(s: State, now: int)
    ensures Passes(s, s.LoadUpdates(now))
  {
    if !s.feedEmpty && |s.queues.fifos| < s.MaxLoaded() {
      LoadFromPasses(s.ReadFeed(now), s.Got(now), 0, now);
    }
  }

  lemma HoldPasses(s: State, k: int, now: int)
    requires s.queues.HasFront(k)
    ensures Passes(s, s.HoldFront(k, now))
  {
  }

  lemma SendFrontPasses(s: State, k: int, now: int)
    requires s.queues.HasFront(k) && s.queues.ready != [] && s.queues.ready[0] in s.queues.connections
    ensures Passes(s, s.SendFront(k, now))
  {
  }

  lemma RelaxPasses(s: State, at: int)
    ensures Passes(s, s.Relax(at)) && Passes(s, s)
  {
    CargoPasses(s, s.Relax(at));
    CargoPasses(s, s);
  }

  lemma SendOnePasses(s: State, now: int)
    requires s.Sendable()
    ensures Passes(s, s.SendOne(now))
  {
    if s.queues.ready != [] && s.queues.wakeups != {} {
      var w := First(s.queues.wakeups);
      SendOneIs(s, now, w);
      RelaxPasses(s, w.0);
      HoldPasses(s, w.1, now);
      SendFrontPasses(s, w.1, now);
    } else {
      RelaxPasses(s, 0);
    }
  }

  lemma {:induction false} SendAllPasses(s: State, now: int)
    requires s.Sendable()
    ensures Passes(s, s.SendAll(now))
    decreases |s.queues.ready|
  {
    SendOnePasses(s, now);
    if s.Outcome(now) == Sent {
      StillSendable(s, First(s.queues.wakeups).1, now);
      var t := s.SendOne(now);
      SendAllPasses(t, now);
      PassesBoth(s, t, t.SendAll(now));
    }
  }

  /** Connections and timers are not the business of updates. */
  ghost predicate SameCargo(s: State, t: State) {
    && t.queues.updates == s.queues.updates && t.queues.fifos == s.queues.fifos && t.log == s.log
    && t.lastSuccess == s.lastSuccess && t.feed == s.feed && t.uniqueQueueId == s.uniqueQueueId
  }

  lemma ConnectCargo(s: State)
    requires s.FreshConnections()
    ensures SameCargo(s, s.Connect()) && s.Connect().FreshConnections() && s.Connect().Size() == s.Size() + 1
  {
    assert |s.Connect().queues.connections| == |s.queues.connections| + 1;
  }

  lemma OpenStops(s: State, need: int, now: int, o: Oracle, i: nat)
    requires s.FreshConnections() && (s.Size() >= need || now < o.floods(i) || !o.attempts(i).Connected?)
    ensures SameCargo(s, s.Open(need, now, o, i).0)
  {
    OpenIs(s, need, now, o, i);
  }

  lemma OpenGoesOn(s: State, need: int, now: int, o: Oracle, i: nat)
    requires s.FreshConnections() && s.Size() < need && now >= o.floods(i) && o.attempts(i).Connected?
    ensures s.Connect().FreshConnections() && s.Open(need, now, o, i) == s.Connect().Open(need, now, o, i + 1)
  {
    OpenIs(s, need, now, o, i);
  }

  lemma {:induction false} OpenCargo(s: State, need: int, now: int, o: Oracle, i: nat)
    requires s.FreshConnections()
    ensures SameCargo(s, s.Open(need, now, o, i).0)
    decreases need - s.Size()
  {
    if s.Size() < need && now >= o.floods(i) && o.attempts(i).Connected? {
      ConnectCargo(s);
      OpenGoesOn(s, need, now, o, i);
      OpenCargo(s.Connect(), need, now, o, i + 1);
    } else {
      OpenStops(s, need, now, o, i);
    }
  }

  lemma {:induction false} UseSocketsCargo(s: State, need: int, now: int, o: Oracle, i: nat)
    ensures SameCargo(s, s.UseSockets(need, now, o, i))
    decreases s.readySockets
  {
    if s.readySockets > 0 && |s.queues.connections| + |s.pending| < need && o.handshakes(i) {
      UseSocketsCargo(s.(readySockets := s.readySockets - 1).Connect(), need, now, o, i + 1);
    }
  }

  lemma CreateCargo(s: State, now: int, o: Oracle)
    requires s.FreshConnections()
    ensures SameCargo(s, s.CreateConnections(now, o))
  {
    var need := s.Needed(now);
    OpenCargo(s, need, now, o, 0);
    UseSocketsCargo(s.Open(need, now, o, 0).0, need, now, o, 0);
  }

  lemma CargoPasses(s: State, t: State)
    requires SameCargo(s, t)
    ensures Passes(s, t)
  {
  }

  lemma LoopPasses(s: State, o: Oracle)
    requires Inv(s)
    ensures Passes(s, Loop(s, o))
  {
    LoopIs(s, o);
    var begun := s.(timer := 0);
    if !s.stopped {
      var loaded := begun.LoadUpdates(s.clock);
      LoadUpdatesPasses(begun, s.clock);
      CreateCargo(loaded.Resolve(o), s.clock, o);
      var ready := loaded.Resolve(o).CreateConnections(s.clock, o);
      CargoPasses(loaded, ready);
      PassesBoth(begun, loaded, ready);
      SendAllPasses(ready, s.clock);
      PassesBoth(begun, ready, ready.SendAll(s.clock));
    }
  }

  // --- what a reply says ---

  /** A success as HTTP means it: a response with a code from 200 to 299. */
  predicate Succeeds(reply: Reply) {
    reply.Response? && reply.isResponse && 200 <= reply.code <= 299
  }

  /** The delay that an unsuccessful response asks for, at most an hour. */
  function DelayAsked(reply: Reply): int {
    if !reply.Response? || !reply.isResponse || Succeeds(reply) || reply.retryAfter < 0 then 0
    else if reply.retryAfter > 3600 then 3600
    else reply.retryAfter
  }

  /** How long the next attempt waits: as asked for, else not at all after the first failure and
      then twice as long each time, up to a random number of seconds from 60 to 120. */
  function DelayBefore(u: Update, reply: Reply, random: int): int {
    if DelayAsked(reply) > 0 then DelayAsked(reply)
    else if u.failCount == 0 then 0
    else if 2 * u.delay < random then 2 * u.delay
    else random
  }

  /** What is stored for the attempt after that one. */
  function DelayStored(u: Update, reply: Reply, random: int): int {
    if DelayAsked(reply) > 0 || u.failCount == 0 then u.delay else DelayBefore(u, reply, random)
  }

  function AnswerEntry(id: int, u: Update, reply: Reply, now: int, random: int): Entry {
    if Succeeds(reply) then Answer(id, u.queueId, true, now, 0, now, u.expiresAt)
    else
      Answer(id, u.queueId, false, now, DelayAsked(reply), now + DelayBefore(u, reply, random), u.expiresAt)
  }

  /** Whether the update leaves on this reply. */
  predicate Leaves(u: Update, reply: Reply, now: int, random: int) {
    Succeeds(reply) || now + DelayBefore(u, reply, random) > u.expiresAt
  }

  /** The log after a reply. */
  function Answered(log: Log, id: int, u: Update, reply: Reply, now: int, random: int): Log {
    var l := Then(log, AnswerEntry(id, u, reply, now, random));
    if Leaves(u, reply, now, random) then Then(l, Forget(id)) else l
  }

  lemma BackoffIs(u: Update, reply: Reply, random: int)
    requires !Succeeds(reply)
    ensures Backoff(u, reply.RetryAfter(), random) == (DelayStored(u, reply, random), DelayBefore(u, reply, random))
  {
  }

  // --- what a reply does ---

  /** The update in flight on this connection. */
  ghost predicate OnConnection(s: State, c: int, id: int) {
    c in s.queues.connections && s.queues.connections[c].eventId == id != 0
  }

  /** State t is s after the update left. */
  ghost predicate Gone(q: Queues, n: Queues, id: int) {
    n.updates == q.updates - {id}
  }

  /** The update is still loaded and the front of its queue, one failure later. */
  ghost predicate PutBack(q: Queues, n: Queues, id: int, at: int, delay: int) {
    && id in q.updates && id in n.updates
    && n.updates[id] == q.updates[id].(delay := delay, wakeupAt := at, failCount := q.updates[id].failCount + 1,
                                        lastSendTime := n.updates[id].lastSendTime)
    && n.HasFront(q.updates[id].queueId) && n.Front(q.updates[id].queueId) == id
  }

  lemma FinishIs(s: State, c: int, close: bool, e: Entry)
    requires s.queues.Consistent() && s.Answerable(c) && s.queues.connections[c].eventId != 0
    ensures var n := s.Finish(c, close, e); var id := s.queues.connections[c].eventId;
      Gone(s.queues, n.queues, id) && n.log == Then(Then(s.log, e), Forget(id)) && n.lastSuccess == s.lastSuccess
  {
    DropLeaves(s.queues, c, close, s.queues.updates[s.queues.connections[c].eventId].queueId,
               s.queues.connections[c].eventId);
  }

  lemma RetryIs(s: State, c: int, close: bool, now: int, retryAfter: int, random: int)
    requires s.queues.Consistent() && s.Answerable(c) && s.queues.connections[c].eventId != 0
    ensures var n := s.Retry(c, close, now, retryAfter, random); var id := s.queues.connections[c].eventId;
      var u := s.queues.updates[id]; var (delay, wait) := Backoff(u, retryAfter, random);
      && PutBack(s.queues, n.queues, id, now + wait, delay)
      && n.queues.updates.Keys == s.queues.updates.Keys && n.lastSuccess == s.lastSuccess
      && (now + wait, u.queueId) in n.queues.wakeups
      && n.log == Then(s.log, AnswerTo(id, u, false, now, retryAfter, wait))
  {
    var id := s.queues.connections[c].eventId;
    var u, n := s.queues.updates[id], s.Retry(c, close, now, retryAfter, random);
    assert n.queues.updates == s.queues.updates[id := Retried(u, now, retryAfter, random)];
  }

  /** State n is what the reply makes of s. */
  ghost predicate Handled(s: State, n: State, reply: Reply, now: int, random: int, id: int) {
    && id in s.queues.updates && var u := s.queues.updates[id];
    && n.log == Answered(s.log, id, u, reply, now, random)
    && n.lastSuccess == (if Succeeds(reply) then now else s.lastSuccess)
    && if Leaves(u, reply, now, random) then Gone(s.queues, n.queues, id)
       else
         && PutBack(s.queues, n.queues, id, now + DelayBefore(u, reply, random), DelayStored(u, reply, random))
         && (now + DelayBefore(u, reply, random), u.queueId) in n.queues.wakeups
         && n.queues.updates.Keys == s.queues.updates.Keys
  }

  lemma AcceptedIs(s: State, c: int, close: bool, reply: Reply, now: int, random: int, id: int)
    requires s.queues.Consistent() && OnConnection(s, c, id) && s.Answerable(c) && Succeeds(reply)
    ensures id in s.queues.updates
    ensures Handled(s, s.(lastSuccess := now).Finish(c, close, AnswerTo(id, s.queues.updates[id], true, now, 0, 0)),
                    reply, now, random, id)
  {
    FinishIs(s.(lastSuccess := now), c, close, AnswerTo(id, s.queues.updates[id], true, now, 0, 0));
  }

  lemma RefusedIs(s: State, c: int, close: bool, reply: Reply, now: int, random: int, id: int)
    requires s.queues.Consistent() && OnConnection(s, c, id) && s.Answerable(c) && !Succeeds(reply)
    ensures id in s.queues.updates
    ensures var u := s.queues.updates[id]; var wait := DelayBefore(u, reply, random);
      if now + wait > u.expiresAt then
        Handled(s, s.Finish(c, close, AnswerTo(id, u, false, now, reply.RetryAfter(), wait)), reply, now, random, id)
      else Handled(s, s.Retry(c, close, now, reply.RetryAfter(), random), reply, now, random, id)
  {
    var u := s.queues.updates[id];
    var wait := DelayBefore(u, reply, random);
    BackoffIs(u, reply, random);
    EntryIs(id, u, reply, now, random);
    if now + wait > u.expiresAt {
      FinishIs(s, c, close, AnswerTo(id, u, false, now, reply.RetryAfter(), wait));
    } else {
      RetryIs(s, c, close, now, reply.RetryAfter(), random);
    }
  }

  lemma EntryIs(id: int, u: Update, reply: Reply, now: int, random: int)
    requires !Succeeds(reply)
    ensures AnswerTo(id, u, false, now, reply.RetryAfter(), DelayBefore(u, reply, random)) ==
      AnswerEntry(id, u, reply, now, random)
  {
  }

  lemma AnsweredIs(s: State, c: int, close: bool, reply: Reply, now: int, random: int, id: int)
    requires s.queues.Consistent() && OnConnection(s, c, id) && s.Answerable(c)
    ensures Handled(s, s.Answered(c, close, reply.Accepts(), now, reply.RetryAfter(), random), reply, now, random, id)
  {
    var u := s.queues.updates[id];
    if Succeeds(reply) {
      AcceptedIs(s, c, close, reply, now, random, id);
    } else {
      BackoffIs(u, reply, random);
      RefusedIs(s, c, close, reply, now, random, id);
    }
  }

  /** The handler of a reply, for an update in flight. */
  lemma HandledIs(s: State, c: int, reply: Reply, now: int, random: int, id: int)
    requires s.queues.Consistent() && OnConnection(s, c, id) && s.Answerable(c)
    ensures Handled(s, s.Handle(c, reply, now, random), reply, now, random, id)
  {
    AnsweredIs(s.(firstError410 := s.First410(reply, now)), c, s.MustClose(c, reply, now), reply, now, random, id);
  }

  // --- every run ---

  lemma StillBack(s: State, h: State, t: State, id: int, at: int, delay: int)
    requires PutBack(s.queues, h.queues, id, at, delay) && Passes(h, t)
    ensures PutBack(s.queues, t.queues, id, at, delay)
  {
    assert SameUpdate(h.queues, t.queues, id);
  }

  /** An update in flight leaves on a reply if and only if that reply is a success or the next
      attempt would come after the update has expired. Otherwise it stays the front of its queue,
      with one more failure, and is due when the reply or the back-off says. */
  lemma ReplyDecides(s: State, c: int, reply: Reply, now: int, random: int, o: Oracle, id: int)
    requires Inv(s) && Enabled(s, Receive(c, reply, now, random, o)) && OnConnection(s, c, id)
    ensures id in s.queues.updates
    ensures var t := Apply(s, Receive(c, reply, now, random, o)); var u := s.queues.updates[id];
      && (id !in t.queues.updates <==> Succeeds(reply) || now + DelayBefore(u, reply, random) > u.expiresAt)
      && (id in t.queues.updates ==>
            PutBack(s.queues, t.queues, id, now + DelayBefore(u, reply, random), DelayStored(u, reply, random)))
      && t.lastSuccess == if Succeeds(reply) then now else s.lastSuccess
  {
    var h, t := ReplyReaches(s, c, reply, now, random, o);
    HandledHere(s, c, reply, now, random, id);
    DecidedBy(s, h, t, reply, now, random, id);
  }

  lemma HandledHere(s: State, c: int, reply: Reply, now: int, random: int, id: int)
    requires s.queues.Consistent() && OnConnection(s, c, id) && Tick(s, now).Answerable(c)
    ensures Handled(s, Tick(s, now).Handle(c, reply, now, random), reply, now, random, id)
  {
    HandledIs(Tick(s, now), c, reply, now, random, id);
  }

  lemma ReplyReaches(s: State, c: int, reply: Reply, now: int, random: int, o: Oracle) returns (h: State, t: State)
    requires Inv(s) && Enabled(s, Receive(c, reply, now, random, o))
    ensures c in s.queues.connections && s.queues.connections[c].eventId != 0 ==> Tick(s, now).Answerable(c)
    ensures h == Tick(s, now).Handle(c, reply, now, random) && t == Apply(s, Receive(c, reply, now, random, o))
    ensures Passes(h, t) && forall id | t.log.Has(Forget(id)) :: id !in t.queues.updates
  {
    ReceiveIs(s, c, reply, now, random, o);
    h, t := Tick(s, now).Handle(c, reply, now, random), Apply(s, Receive(c, reply, now, random, o));
    AfterPass(s, h, t, o);
    forall id | t.log.Has(Forget(id)) ensures id !in t.queues.updates {
      ForgottenIsOut(t, id);
    }
  }

  lemma DecidedBy(s: State, h: State, t: State, reply: Reply, now: int, random: int, id: int)
    requires Handled(s, h, reply, now, random, id) && Passes(h, t)
    requires t.log.Has(Forget(id)) ==> id !in t.queues.updates
    ensures var u := s.queues.updates[id];
      && (id !in t.queues.updates <==> Succeeds(reply) || now + DelayBefore(u, reply, random) > u.expiresAt)
      && (id in t.queues.updates ==>
            PutBack(s.queues, t.queues, id, now + DelayBefore(u, reply, random), DelayStored(u, reply, random)))
      && t.lastSuccess == if Succeeds(reply) then now else s.lastSuccess
  {
    var u := s.queues.updates[id];
    if Leaves(u, reply, now, random) {
      assert h.log.Has(Forget(id));
    } else {
      StillBack(s, h, t, id, now + DelayBefore(u, reply, random), DelayStored(u, reply, random));
    }
  }

  lemma AfterPass(s: State, h: State, t: State, o: Oracle)
    requires Inv(h) && (t == h || t == Loop(h, o))
    ensures Passes(h, t)
  {
    RelaxPasses(h, 0);
    LoopPasses(h, o);
  }

  lemma ForgottenIsOut(t: State, id: int)
    requires Inv(t) && t.log.Has(Forget(id))
    ensures id !in t.queues.updates
  {
    if id in t.queues.updates {
      BelowHorizon(t.log, t.queues, t.horizon, t.clock, id);
    }
  }

  /** This step is a reply, and it is what the entry records. */
  ghost predicate Says(s: State, step: Step, e: Entry) {
    && step.Receive? && step.conn in s.queues.connections && s.queues.connections[step.conn].eventId != 0
    && var id := s.queues.connections[step.conn].eventId;
       && id in s.queues.updates
       && if e.Answer? then e == AnswerEntry(id, s.queues.updates[id], step.reply, step.now, step.random)
          else e == Forget(id) && Leaves(s.queues.updates[id], step.reply, step.now, step.random)
  }

  /** Some step of the run is such a reply. */
  ghost predicate SaidIn(s: State, steps: seq<Step>, e: Entry)
    requires Inv(s) && Possible(s, steps)
    decreases |steps|
  {
    steps != [] && (Says(s, steps[0], e) || SaidIn(Apply(s, steps[0]), steps[1..], e))
  }

  lemma ReceiveSays(s: State, step: Step, e: Entry)
    requires Inv(s) && Enabled(s, step) && step.Receive? && (e.Answer? || e.Forget?)
    ensures Apply(s, step).log.Has(e) <==> s.log.Has(e) || Says(s, step, e)
  {
    var c, reply, now, random := step.conn, step.reply, step.now, step.random;
    var h, t := ReplyReaches(s, c, reply, now, random, step.oracle);
    if c in s.queues.connections && s.queues.connections[c].eventId != 0 {
      HandledHere(s, c, reply, now, random, s.queues.connections[c].eventId);
      SaidBy(s, h, step, e);
    } else {
      assert h.log == s.log;
    }
  }

  lemma SaidBy(s: State, h: State, step: Step, e: Entry)
    requires step.Receive? && step.conn in s.queues.connections && s.queues.connections[step.conn].eventId != 0
    requires Handled(s, h, step.reply, step.now, step.random, s.queues.connections[step.conn].eventId)
    requires e.Answer? || e.Forget?
    ensures h.log.Has(e) <==> s.log.Has(e) || Says(s, step, e)
  {
    var id := s.queues.connections[step.conn].eventId;
    HasAnswered(s.log, id, s.queues.updates[id], step.reply, step.now, step.random, e);
  }

  lemma HasAnswered(log: Log, id: int, u: Update, reply: Reply, now: int, random: int, e: Entry)
    requires e.Answer? || e.Forget?
    ensures Answered(log, id, u, reply, now, random).Has(e) <==>
      || log.Has(e) || (e.Answer? && e == AnswerEntry(id, u, reply, now, random))
      || (e == Forget(id) && Leaves(u, reply, now, random))
  {
  }

  lemma LoopSays(s: State, t: State, o: Oracle, e: Entry)
    requires Inv(t) && t.log == s.log && (e.Answer? || e.Forget?)
    ensures Loop(t, o).log.Has(e) <==> s.log.Has(e)
  {
    LoopPasses(t, o);
  }

  lemma ApplySays(s: State, step: Step, e: Entry)
    requires Inv(s) && Enabled(s, step) && (e.Answer? || e.Forget?)
    ensures Apply(s, step).log.Has(e) <==> s.log.Has(e) || Says(s, step, e)
  {
    match step
    case Push(_) => QuietSays(s, step);
    case Lose(_) => QuietSays(s, step);
    case Network(_, _, _, _) => QuietSays(s, step);
    case NewUpdates(now, o) => WokenSays(s, step, e);
    case Wake(now, o) => WokenSays(s, step, e);
    case SocketReady(socket, ok, now, o) => SocketSays(s, step, e);
    case Receive(_, _, _, _, _) => ReceiveSays(s, step, e);
  }

  lemma QuietSays(s: State, step: Step)
    requires Inv(s) && Enabled(s, step) && (step.Push? || step.Lose? || step.Network?)
    ensures Apply(s, step).log == s.log
  {
  }

  lemma WokenSays(s: State, step: Step, e: Entry)
    requires Inv(s) && Enabled(s, step) && (e.Answer? || e.Forget?) && (step.NewUpdates? || step.Wake?)
    ensures Apply(s, step).log.Has(e) <==> s.log.Has(e)
  {
    if step.Wake? {
      TickKeeps(s, step.now);
      LoopSays(s, Tick(s, step.now), step.oracle, e);
    } else {
      UpdatesKeep(s, step.now);
      LoopSays(s, OnUpdates(s, step.now), step.oracle, e);
    }
  }

  lemma SocketSays(s: State, step: Step, e: Entry)
    requires Inv(s) && Enabled(s, step) && (e.Answer? || e.Forget?) && step.SocketReady?
    ensures Apply(s, step).log.Has(e) <==> s.log.Has(e)
  {
    SocketKeeps(s, step.id, step.ok, step.now);
    LoopSays(s, OnSocket(Tick(s, step.now), step.id, step.ok), step.oracle, e);
  }

  lemma {:induction false} RunSays(s: State, steps: seq<Step>, e: Entry)
    requires Inv(s) && Possible(s, steps) && (e.Answer? || e.Forget?)
    ensures Run(s, steps).log.Has(e) <==> s.log.Has(e) || SaidIn(s, steps, e)
    decreases |steps|
  {
    if steps != [] {
      ApplySays(s, steps[0], e);
      RunSays(Apply(s, steps[0]), steps[1..], e);
    }
  }

  /** In every run, what the log says of answers is what the replies said: an answer counts as a
      success exactly for a response with a code from 200 to 299, and an update is forgotten exactly
      on a reply that is a success or that leaves no time for the next attempt. */
  lemma AnswersAreReplies(maxConnections: int, fromDb: bool, now: int, steps: seq<Step>, e: Entry)
    requires 0 < maxConnections && Inv(Init(maxConnections, fromDb, now))
    requires Possible(Init(maxConnections, fromDb, now), steps) && (e.Answer? || e.Forget?)
    ensures Run(Init(maxConnections, fromDb, now), steps).log.Has(e) <==>
      SaidIn(Init(maxConnections, fromDb, now), steps, e)
  {
    RunSays(Init(maxConnections, fromDb, now), steps, e);
  }

  // --- the connection ---

  /** The endpoint has answered 410 for more than 23 hours. */
  predicate ClosedFor23Hours(s: State, reply: Reply, now: int) {
    reply.Response? && reply.isResponse && reply.code == 410 && s.firstError410 != 0 && now > s.firstError410 + 82800
  }

  lemma FinishConnections(s: State, c: int, close: bool, e: Entry)
    requires s.Answerable(c)
    ensures var n := s.Finish(c, close, e);
      (c in n.queues.connections <==> !close) && n.firstError410 == s.firstError410
  {
  }

  lemma RetryConnections(s: State, c: int, close: bool, now: int, retryAfter: int, random: int)
    requires s.Answerable(c)
    ensures var n := s.Retry(c, close, now, retryAfter, random);
      (c in n.queues.connections <==> !close) && n.firstError410 == s.firstError410
  {
  }

  lemma AnsweredConnections(s: State, c: int, close: bool, ok: bool, now: int, retryAfter: int, random: int)
    requires s.Answerable(c)
    ensures var n := s.Answered(c, close, ok, now, retryAfter, random);
      (c in n.queues.connections <==> !close) && n.firstError410 == s.firstError410
  {
    var id := s.queues.connections[c].eventId;
    var u := s.queues.updates[id];
    var wait := Backoff(u, retryAfter, random).1;
    if ok {
      FinishConnections(s.(lastSuccess := now), c, close, AnswerTo(id, u, true, now, 0, 0));
    } else if now + wait > u.expiresAt {
      FinishConnections(s, c, close, AnswerTo(id, u, false, now, retryAfter, wait));
    } else {
      RetryConnections(s, c, close, now, retryAfter, random);
    }
  }

  /** When the connection c is closed after a reply. */
  lemma HandleConnections(s: State, c: int, reply: Reply, now: int, random: int)
    requires c in s.queues.connections && (s.queues.connections[c].eventId != 0 ==> s.Answerable(c))
    ensures var h := s.Handle(c, reply, now, random);
      && (c in h.queues.connections <==>
            && reply.Response? && reply.isResponse && reply.keepAlive
            && s.queues.connections[c].ipGeneration == s.ipGeneration && !ClosedFor23Hours(s, reply, now))
      && h.firstError410 == (
           if reply.Hangup? || !reply.isResponse then s.firstError410
           else if reply.code != 410 then 0
           else if s.firstError410 == 0 then now
           else s.firstError410)
  {
    if s.queues.connections[c].eventId != 0 {
      var t := s.(firstError410 := s.First410(reply, now));
      AnsweredConnections(t, c, s.MustClose(c, reply, now), reply.Accepts(), now, reply.RetryAfter(), random);
    }
  }

  /** A connection is used again exactly after a complete response that keeps it alive, as long as
      the address is the same; after 23 hours of 410 the actor is done with the webhook. */
  lemma ConnectionAfter(s: State, c: int, reply: Reply, now: int, random: int, o: Oracle)
    requires Inv(s) && Enabled(s, Receive(c, reply, now, random, o)) && c in s.queues.connections
    ensures s.queues.connections[c].eventId != 0 ==> Tick(s, now).Answerable(c)
    ensures var h := Tick(s, now).Handle(c, reply, now, random);
      && (c in h.queues.connections <==>
            && reply.Response? && reply.isResponse && reply.keepAlive
            && s.queues.connections[c].ipGeneration == s.ipGeneration && !ClosedFor23Hours(s, reply, now))
      && Inv(h) && Apply(s, Receive(c, reply, now, random, o)) == (
           if ClosedFor23Hours(s, reply, now) then h else Loop(h, o))
      && h.firstError410 == (
           if reply.Hangup? || !reply.isResponse then s.firstError410
           else if reply.code != 410 then 0
           else if s.firstError410 == 0 then now
           else s.firstError410)
  {
    ReceiveIs(s, c, reply, now, random, o);
    HandleConnections(Tick(s, now), c, reply, now, random);
    assert Inv(Tick(s, now).Handle(c, reply, now, random));
  }
}
