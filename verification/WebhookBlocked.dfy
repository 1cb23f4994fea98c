/** What becomes of a queue whose front did not fit in a request header: the actor had already
    taken it out of the wake-up set, and nothing ever puts it back. */
module WebhookBlocked {
  import opened WebhookQueues
  import opened WebhookFeed
  import opened WebhookLog
  import opened WebhookSpec
  import opened WebhookRuns

  ghost predicate Blocked(q: Queues, k: int, id: int) {
    k in q.fifos && k in q.place && q.place[k] == Held && q.HasFront(k) && q.Front(k) == id
  }

  lemma LoadBlocked(s: State, e: Event, now: int, k: int, id: int)
    requires Blocked(s.queues, k, id)
    ensures Blocked(s.LoadOne(e, now).queues, k, id)
  {
  }

  lemma {:induction false} LoadFromBlocked(s: State, got: seq<Event>, i: nat, now: int, k: int, id: int)
    requires Blocked(s.queues, k, id) && i <= |got|
    ensures Blocked(s.LoadFrom(got, i, now).queues, k, id)
    decreases |got| - i
  {
    if i < |got| {
      LoadBlocked(s, got[i], now, k, id);
      LoadFromBlocked(s.LoadOne(got[i], now), got, i + 1, now, k, id);
    }
  }

  lemma LoadUpdatesBlocked(s: State, now: int, k: int, id: int)
    requires Blocked(s.queues, k, id)
    ensures Blocked(s.LoadUpdates(now).queues, k, id)
  {
    if !s.feedEmpty && |s.queues.fifos| < s.MaxLoaded() {
      LoadFromBlocked(s.ReadFeed(now), s.Got(now), 0, now, k, id);
    }
  }

  lemma SendOneBlocked(s: State, k: int, id: int)
    requires s.queues.Consistent() && s.Sendable() && Blocked(s.queues, k, id)
    ensures Blocked(s.SendOne(s.clock).queues, k, id)
  {
    if s.queues.ready != [] && s.queues.wakeups != {} {
      var w := First(s.queues.wakeups);
      SendOneIs(s, s.clock, w);
      assert s.queues.WakeupOk(w);
      OtherSent(s, w.1, s.clock, k, id);
    }
  }

  lemma OtherSent(s: State, j: int, now: int, k: int, id: int)
    requires Blocked(s.queues, k, id) && s.queues.HasFront(j) && j != k
    ensures Blocked(s.HoldFront(j, now).queues, k, id)
    ensures s.queues.ready != [] && s.queues.ready[0] in s.queues.connections ==>
      Blocked(s.SendFront(j, now).queues, k, id)
  {
  }

  lemma {:induction false} SendAllBlocked(s: State, k: int, id: int)
    requires Inv(s) && s.Sendable() && Blocked(s.queues, k, id)
    ensures Blocked(s.SendAll(s.clock).queues, k, id)
    decreases |s.queues.ready|
  {
    SendOneKeeps(s);
    SendOneBlocked(s, k, id);
    if s.Outcome(s.clock) == Sent {
      StillSendable(s, First(s.queues.wakeups).1, s.clock);
      SendAllBlocked(s.SendOne(s.clock), k, id);
    }
  }

  lemma {:induction false} OpenBlocked(s: State, need: int, now: int, o: Oracle, i: nat, k: int, id: int)
    requires s.FreshConnections() && Blocked(s.queues, k, id)
    ensures Blocked(s.Open(need, now, o, i).0.queues, k, id)
    decreases need - s.Size()
  {
    OpenIs(s, need, now, o, i);
    if s.Size() < need && now >= o.floods(i) && o.attempts(i).Connected? {
      assert s.Connect().Size() == s.Size() + 1;
      OpenBlocked(s.Connect(), need, now, o, i + 1, k, id);
    }
  }

  lemma {:induction false} UseSocketsBlocked(s: State, need: int, now: int, o: Oracle, i: nat, k: int, id: int)
    requires Blocked(s.queues, k, id)
    ensures Blocked(s.UseSockets(need, now, o, i).queues, k, id)
    decreases s.readySockets
  {
    if s.readySockets > 0 && |s.queues.connections| + |s.pending| < need && o.handshakes(i) {
      UseSocketsBlocked(s.(readySockets := s.readySockets - 1).Connect(), need, now, o, i + 1, k, id);
    }
  }

  lemma CreateBlocked(s: State, o: Oracle, k: int, id: int)
    requires s.FreshConnections() && Blocked(s.queues, k, id)
    ensures Blocked(s.CreateConnections(s.clock, o).queues, k, id)
  {
    var need := s.Needed(s.clock);
    OpenBlocked(s, need, s.clock, o, 0, k, id);
    UseSocketsBlocked(s.Open(need, s.clock, o, 0).0, need, s.clock, o, 0, k, id);
  }

  lemma LoopBlocked(s: State, o: Oracle, k: int, id: int)
    requires Inv(s) && Blocked(s.queues, k, id)
    ensures Blocked(Loop(s, o).queues, k, id)
  {
    LoopIs(s, o);
    var begun := s.(timer := 0);
    LoadUpdatesBlocked(begun, s.clock, k, id);
    var loaded := begun.LoadUpdates(s.clock).Resolve(o);
    CreateBlocked(loaded, o, k, id);
    if !s.stopped && !loaded.CreateConnections(s.clock, o).stopped {
      SendAllBlocked(loaded.CreateConnections(s.clock, o), k, id);
    }
  }

  lemma LeftBlocked(q: Queues, n: Queues, j: int, x: int, k: int, id: int)
    requires q.Consistent() && Left(q, n, j, x) && Blocked(q, k, id) && q.place[k] != q.place[j]
    requires j in q.place && j in q.fifos
    ensures Blocked(n, k, id)
  {
    AboutQueue(q, k);
    AboutQueue(q, j);
  }

  /** The answered update is in another queue. */
  lemma OtherAnswered(s: State, c: int, k: int, id: int)
    requires s.queues.Consistent() && c in s.queues.connections && s.queues.connections[c].eventId != 0
    requires Blocked(s.queues, k, id)
    ensures s.queues.connections[c].eventId in s.queues.updates
    ensures var j := s.queues.updates[s.queues.connections[c].eventId].queueId;
      j != k && j in s.queues.fifos && j in s.queues.place && s.queues.place[j].Flying?
  {
  }

  lemma DropBlocked(q: Queues, n: Queues, c: int, close: bool, j: int, x: int, k: int, id: int)
    requires q.Consistent() && Blocked(q, k, id) && c in q.connections && q.connections[c].eventId == x != 0
    requires x in q.updates && j == q.updates[x].queueId && j in q.fifos && j in q.place && q.place[j].Flying?
    requires q.Release(c, close).HasFront(j) && (|q.fifos[j]| > 1 ==> q.fifos[j][1] in q.updates)
    requires n == q.Release(c, close).Drop(j)
    ensures Blocked(n, k, id)
  {
    DropLeaves(q, c, close, j, x);
    LeftBlocked(q, n, j, x, k, id);
  }

  lemma FinishBlocked(s: State, c: int, close: bool, e: Entry, k: int, id: int)
    requires s.queues.Consistent() && s.Answerable(c) && s.queues.connections[c].eventId != 0 &&
      Blocked(s.queues, k, id)
    ensures Blocked(s.Finish(c, close, e).queues, k, id)
  {
    OtherAnswered(s, c, k, id);
    var x := s.queues.connections[c].eventId;
    DropBlocked(s.queues, s.Finish(c, close, e).queues, c, close, s.queues.updates[x].queueId, x, k, id);
  }

  lemma RetryBlocked(s: State, c: int, close: bool, now: int, retryAfter: int, random: int, k: int, id: int)
    requires s.queues.Consistent() && s.Answerable(c) && s.queues.connections[c].eventId != 0 &&
      Blocked(s.queues, k, id)
    ensures Blocked(s.Retry(c, close, now, retryAfter, random).queues, k, id)
  {
  }

  lemma AnsweredBlocked(s: State, c: int, close: bool, ok: bool, now: int, retryAfter: int, random: int, k: int,
                        id: int)
    requires s.queues.Consistent() && s.Answerable(c) && s.queues.connections[c].eventId != 0 &&
      Blocked(s.queues, k, id)
    ensures Blocked(s.Answered(c, close, ok, now, retryAfter, random).queues, k, id)
  {
    var x := s.queues.connections[c].eventId;
    var u := s.queues.updates[x];
    var wait := Backoff(u, retryAfter, random).1;
    FinishBlocked(s.(lastSuccess := now), c, close, AnswerTo(x, u, true, now, 0, 0), k, id);
    FinishBlocked(s, c, close, AnswerTo(x, u, false, now, retryAfter, wait), k, id);
    RetryBlocked(s, c, close, now, retryAfter, random, k, id);
  }

  lemma HandleBlocked(s: State, c: int, reply: Reply, now: int, random: int, k: int, id: int)
    requires s.queues.Consistent() && Blocked(s.queues, k, id)
    requires c in s.queues.connections && s.queues.connections[c].eventId != 0 ==> s.Answerable(c)
    ensures Blocked(s.Handle(c, reply, now, random).queues, k, id)
  {
    if c in s.queues.connections {
      if s.queues.connections[c].eventId != 0 {
        AnsweredBlocked(s.(firstError410 := s.First410(reply, now)), c, s.MustClose(c, reply, now),
                        reply.Accepts(), now, reply.RetryAfter(), random, k, id);
      } else {
        assert 0 in s.queues.updates ==> s.queues.UpdateOk(0);
      }
    }
  }

  lemma ReceiveBlocked(s: State, c: int, reply: Reply, now: int, random: int, o: Oracle, k: int, id: int)
    requires Inv(s) && Enabled(s, Receive(c, reply, now, random, o)) && Blocked(s.queues, k, id)
    ensures Blocked(Apply(s, Receive(c, reply, now, random, o)).queues, k, id)
  {
    ReceiveIs(s, c, reply, now, random, o);
    ReceivedBlocked(s, c, reply, now, random, k, id);
    LoopBlocked(Tick(s, now).Handle(c, reply, now, random), o, k, id);
  }

  lemma ReceivedBlocked(s: State, c: int, reply: Reply, now: int, random: int, k: int, id: int)
    requires s.queues.Consistent() && Blocked(s.queues, k, id)
    requires c in s.queues.connections && s.queues.connections[c].eventId != 0 ==> Tick(s, now).Answerable(c)
    ensures Blocked(Tick(s, now).Handle(c, reply, now, random).queues, k, id)
  {
    HandleBlocked(Tick(s, now), c, reply, now, random, k, id);
  }

  lemma QuietBlocked(s: State, step: Step, k: int, id: int)
    requires Inv(s) && Enabled(s, step) && Blocked(s.queues, k, id)
    requires step.Push? || step.Lose? || step.Network?
    ensures Blocked(Apply(s, step).queues, k, id)
  {
  }

  lemma SocketBlocked(s: State, socket: int, ok: bool, now: int, o: Oracle, k: int, id: int)
    requires Inv(s) && Enabled(s, SocketReady(socket, ok, now, o)) && Blocked(s.queues, k, id)
    ensures Blocked(Apply(s, SocketReady(socket, ok, now, o)).queues, k, id)
  {
    SocketKeeps(s, socket, ok, now);
    LoopBlocked(OnSocket(Tick(s, now), socket, ok), o, k, id);
  }

  lemma ApplyBlocked(s: State, step: Step, k: int, id: int)
    requires Inv(s) && Enabled(s, step) && Blocked(s.queues, k, id)
    ensures Blocked(Apply(s, step).queues, k, id)
  {
    match step
    case Push(_) => QuietBlocked(s, step, k, id);
    case Lose(_) => QuietBlocked(s, step, k, id);
    case Network(_, _, _, _) => QuietBlocked(s, step, k, id);
    case NewUpdates(now, o) =>
      UpdatesKeep(s, now);
      LoopBlocked(OnUpdates(s, now), o, k, id);
    case Wake(now, o) =>
      TickKeeps(s, now);
      LoopBlocked(Tick(s, now), o, k, id);
    case SocketReady(socket, ok, now, o) => SocketBlocked(s, socket, ok, now, o, k, id);
    case Receive(c, reply, now, random, o) => ReceiveBlocked(s, c, reply, now, random, o, k, id);
  }

  /** A queue that was taken out for sending when the header of its front did not fit stays out in
      every run: that update is not sent, not retried and not given up, even past its expiry. */
  lemma {:induction false} BlockedForever(s: State, steps: seq<Step>, k: int, id: int)
    requires Inv(s) && Possible(s, steps) && Blocked(s.queues, k, id)
    ensures Blocked(Run(s, steps).queues, k, id)
    ensures !IsWaiting(Run(s, steps).queues, k) && !IsFlying(Run(s, steps).queues, k)
    ensures !Run(s, steps).log.Has(Forget(id)) && id in Run(s, steps).queues.updates
    decreases |steps|
  {
    if steps == [] {
      FlyingIff(s.queues, k);
      BelowHorizon(s.log, s.queues, s.horizon, s.clock, id);
    } else {
      ApplyBlocked(s, steps[0], k, id);
      BlockedForever(Apply(s, steps[0]), steps[1..], k, id);
    }
  }
}
