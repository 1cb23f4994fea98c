/** The webhook actor itself. Its methods update the four structures in place; each is proved to
    do what the state machine says and to meet every check that the original makes on the way. */
module WebhookActorModel {
  import opened Common
  import opened WebhookQueues
  import opened WebhookFeed
  import opened WebhookLog
  import opened WebhookSpec
  import opened WebhookRuns

  // --- the order of effects in the actor and in the state machine ---

  function ConnectionsAfter(q: Queues, c: int, close: bool): map<int, Connection>
    requires c in q.connections
  {
    if close then q.connections - {c} else q.connections[c := q.connections[c].(eventId := 0)]
  }

  function ReadyAfter(q: Queues, c: int, close: bool): seq<int> {
    if close then Without(q.ready, c) else q.ready + [c]
  }

  /** The actor drops the event while the connection still names it. */
  lemma DropThenRelease(q: Queues, c: int, close: bool, k: int)
    requires c in q.connections && q.connections[c].eventId in q.updates &&
      q.updates[q.connections[c].eventId].queueId == k
    requires q.HasFront(k) && (|q.fifos[k]| > 1 ==> q.fifos[k][1] in q.updates)
    ensures q.Release(c, close).HasFront(k)
    ensures q.Release(c, close).Drop(k) ==
      q.Drop(k).(connections := ConnectionsAfter(q, c, close), ready := ReadyAfter(q, c, close))
  {
  }

  lemma RequeueThenRelease(q: Queues, c: int, close: bool, k: int, at: int, delay: int)
    requires c in q.connections && q.connections[c].eventId in q.updates &&
      q.updates[q.connections[c].eventId].queueId == k
    requires q.HasFront(k)
    ensures q.Release(c, close).HasFront(k)
    ensures q.Release(c, close).Requeue(k, at, delay) ==
      q.Requeue(k, at, delay).(connections := ConnectionsAfter(q, c, close), ready := ReadyAfter(q, c, close))
  {
  }

  function NewUpdate(e: Event, now: int, uniqueQueueId: int): Update {
    Update(e.expiresAt, 0, now, 1, 0, if e.extra == 0 then uniqueQueueId else e.extra, e.headerFits)
  }

  /** States are equal when they agree field by field. */
  lemma Same(s: State, t: State)
    requires s.queues == t.queues && s.feed == t.feed && s.offset == t.offset && s.feedEmpty == t.feedEmpty
    requires s.uniqueQueueId == t.uniqueQueueId && s.maxConnections == t.maxConnections
    requires s.nextConnection == t.nextConnection && s.pending == t.pending && s.nextSocket == t.nextSocket
    requires s.readySockets == t.readySockets && s.ipReady == t.ipReady && s.sslReady == t.sslReady
    requires s.ipGeneration == t.ipGeneration && s.wasChecked == t.wasChecked && s.stopped == t.stopped
    requires s.lastSuccess == t.lastSuccess && s.firstError410 == t.firstError410 && s.timer == t.timer
    requires s.clock == t.clock && s.horizon == t.horizon && s.log == t.log
    ensures s == t
  {
  }

  /** The event is loaded and is the front of its queue. */
  ghost predicate Droppable(q: Queues, id: int) {
    && id in q.updates
    && var k := q.updates[id].queueId;
    && q.HasFront(k) && q.Front(k) == id
    && (|q.fifos[k]| > 1 ==> q.fifos[k][1] in q.updates && q.fifos[k][1] != id && q.updates[q.fifos[k][1]].queueId == k)
  }

  /** What no answer changes. */
  ghost predicate RestSame(s: State, t: State) {
    && s.offset == t.offset && s.feedEmpty == t.feedEmpty
    && s.uniqueQueueId == t.uniqueQueueId && s.maxConnections == t.maxConnections
    && s.nextConnection == t.nextConnection && s.pending == t.pending && s.nextSocket == t.nextSocket
    && s.readySockets == t.readySockets && s.ipReady == t.ipReady && s.sslReady == t.sslReady
    && s.ipGeneration == t.ipGeneration && s.wasChecked == t.wasChecked && s.stopped == t.stopped
    && s.firstError410 == t.firstError410 && s.timer == t.timer && s.clock == t.clock && s.horizon == t.horizon
  }

  lemma AnsweredOkIs(s: State, t: State, c: int, close: bool, now: int)
    requires s.Answerable(c) && RestSame(s, t)
    requires var id := s.queues.connections[c].eventId;
      && t.queues == s.queues.Release(c, close).Drop(s.queues.updates[id].queueId)
      && t.feed == s.feed.Remove({id}) && t.lastSuccess == now
      && t.log == Then(Then(s.log, AnswerTo(id, s.queues.updates[id], true, now, 0, 0)), Forget(id))
    ensures t == s.Answered(c, close, true, now, 0, 0)
  {
  }

  lemma AnsweredErrorIs(s: State, t: State, c: int, close: bool, now: int, retryAfter: int, random: int)
    requires s.Answerable(c) && RestSame(s, t) && t.lastSuccess == s.lastSuccess
    requires var id := s.queues.connections[c].eventId; var u := s.queues.updates[id];
      var (delay, wait) := Backoff(u, retryAfter, random);
      if now + wait > u.expiresAt then
        && t.queues == s.queues.Release(c, close).Drop(u.queueId) && t.feed == s.feed.Remove({id})
        && t.log == Then(Then(s.log, AnswerTo(id, u, false, now, retryAfter, wait)), Forget(id))
      else
        && t.queues == s.queues.Release(c, close).Requeue(u.queueId, now + wait, delay) && t.feed == s.feed
        && t.log == Then(s.log, AnswerTo(id, u, false, now, retryAfter, wait))
    ensures t == s.Answered(c, close, false, now, retryAfter, random)
  {
  }

  lemma HandleIs(s: State, c: int, reply: Reply, now: int, random: int, close: bool)
    requires c in s.queues.connections && close == s.MustClose(c, reply, now)
    requires s.queues.connections[c].eventId != 0 ==> s.Answerable(c)
    ensures var t := s.(firstError410 := s.First410(reply, now));
      && (s.queues.connections[c].eventId != 0 ==> t.Answerable(c))
      && (s.queues.connections[c].eventId != 0 && reply.Accepts() ==>
            s.Handle(c, reply, now, random) == t.Answered(c, close, true, now, 0, 0))
      && (s.queues.connections[c].eventId != 0 && !reply.Accepts() ==>
            s.Handle(c, reply, now, random) == t.Answered(c, close, false, now, reply.RetryAfter(), random))
      && (s.queues.connections[c].eventId == 0 ==>
            s.Handle(c, reply, now, random) == t.(queues := s.queues.Release(c, close)))
  {
  }

  lemma OpenStep(s: State, need: int, now: int, o: Oracle, i: nat)
    requires s.FreshConnections() && s.Size() < need
    ensures now < o.floods(i) ==> s.Open(need, now, o, i) == (s.Relax(o.floods(i)), false)
    ensures now >= o.floods(i) ==>
      match o.attempts(i)
      case Failed => s.Open(need, now, o, i) == (s.OnError().Relax(now + 1), true)
      case Pending => s.Open(need, now, o, i) == (s.AddPending().Relax(now + 1), true)
      case Connected =>
        && s.Connect().FreshConnections() && |s.Connect().queues.connections| == |s.queues.connections| + 1
        && s.Open(need, now, o, i) == s.Connect().Open(need, now, o, i + 1)
  {
  }

  lemma UseStep(s: State, need: int, now: int, o: Oracle, i: nat)
    requires s.readySockets > 0 && |s.queues.connections| + |s.pending| < need
    ensures s.UseSockets(need, now, o, i) ==
      if !o.handshakes(i) then s.(readySockets := 0).OnError().Relax(now + 1)
      else s.(readySockets := s.readySockets - 1).Connect().UseSockets(need, now, o, i + 1)
  {
  }

  lemma UseEnd(s: State, need: int, now: int, o: Oracle, i: nat)
    requires s.readySockets == 0 || |s.queues.connections| + |s.pending| >= need
    ensures s.UseSockets(need, now, o, i) == s.(readySockets := 0)
  {
  }

  /** What the invariant says of the event on a connection. */
  lemma CanSettle(s: State, c: int)
    requires s.queues.Consistent()
    ensures 0 !in s.queues.updates
    ensures c in s.queues.connections && s.queues.connections[c].eventId != 0 ==>
      Droppable(s.queues, s.queues.connections[c].eventId)
  {
    assert 0 in s.queues.updates ==> s.queues.UpdateOk(0);
    if c in s.queues.connections && s.queues.connections[c].eventId != 0 {
      AboutConnection(s.queues, c);
      AboutQueue(s.queues, s.queues.updates[s.queues.connections[c].eventId].queueId);
    }
  }

  ghost predicate CanHandle(s: State, c: int, reply: Reply) {
    && (c in s.queues.connections && s.queues.connections[c].eventId != 0 ==>
          s.Answerable(c) && Droppable(s.queues, s.queues.connections[c].eventId))
    && (c in s.queues.connections && s.queues.connections[c].eventId == 0 ==> reply.Hangup? && 0 !in s.queues.updates)
  }

  lemma CanReceive(s: State, c: int, reply: Reply, now: int, random: int, o: Oracle)
    requires Inv(s) && Enabled(s, Receive(c, reply, now, random, o))
    ensures CanHandle(s, c, reply)
  {
    CanSettle(s, c);
    ReceiveKeeps(s, c, reply, now, random);
  }

  lemma ConnectIs(s: State, t: State)
    requires t == s.(queues := t.queues, nextConnection := t.nextConnection, wasChecked := true)
    requires t.queues == s.queues.Connect(s.nextConnection, s.ipGeneration) && t.nextConnection == s.nextConnection + 1
    ensures t == s.Connect()
  {
  }

  lemma ReadIs(s: State, t: State, got: seq<Event>, now: int, limit: nat)
    requires limit == s.Limit() && t == s.(offset := t.offset, feed := t.feed, feedEmpty := t.feedEmpty)
    requires t.offset == s.ReadFrom() && (t.feedEmpty <==> got == [])
    requires got == if s.Start() == 0 then [] else Taken(s.feed.events, s.ReadFrom(), now, limit)
    requires t.feed == if s.Start() == 0 then s.feed
                       else s.feed.(events := Kept(s.feed.events, s.ReadFrom(), now, limit))
    ensures t == s.ReadFeed(now) && got == s.Got(now)
  {
  }

  class WebhookActor {
    const maxConnections: int

    var updates: map<int, Update>
    var queueUpdates: map<int, seq<int>>
    var queues: set<(int, int)>
    var connections: map<int, Connection>
    var readyConnections: seq<int>

    var tqueue: Feed
    var tqueueOffset: int
    var tqueueEmpty: bool
    var uniqueQueueId: int

    var nextConnection: int
    var pendingSockets: set<int>
    var nextSocket: int
    var readySockets: nat
    var ipReady: bool
    var sslReady: bool
    var ipGeneration: int
    var wasChecked: bool
    var stopFlag: bool
    var lastSuccessTime: int
    var firstError410Time: int
    var wakeupAt: int

    ghost var place: map<int, Place>
    ghost var clock: int
    ghost var horizon: int
    ghost var log: Log

    ghost function Scheduler(): Queues
      reads `updates, `queueUpdates, `queues, `place, `connections, `readyConnections
    {
      Queues(updates, queueUpdates, queues, place, connections, readyConnections)
    }

    ghost function Snapshot(): State
      reads this
    {
      State(Scheduler(), tqueue, tqueueOffset, tqueueEmpty, uniqueQueueId,
            maxConnections, nextConnection, pendingSockets, nextSocket, readySockets,
            ipReady, sslReady, ipGeneration, wasChecked, stopFlag,
            lastSuccessTime, firstError410Time, wakeupAt, clock, horizon, log)
    }

    ghost predicate Valid()
      reads this
    {
      Inv(Snapshot())
    }

    /** Construction and start-up. */
    constructor (max: int, fromDb: bool, now: int)
      requires 0 < max
      ensures Valid() && Snapshot() == Init(max, fromDb, now)
    {
      maxConnections := max;
      updates, queueUpdates, queues, connections, readyConnections := map[], map[], {}, map[], [];
      tqueue, tqueueOffset, tqueueEmpty, uniqueQueueId := Feed([], 0), 0, false, FIRST_UNIQUE_QUEUE;
      nextConnection, pendingSockets, nextSocket, readySockets := 1, {}, 1, 0;
      ipReady, sslReady, ipGeneration, wasChecked, stopFlag := false, false, 0, fromDb, false;
      lastSuccessTime, firstError410Time, wakeupAt := now - 2 * IP_ADDRESS_CACHE_TIME, 0, 0;
      place, clock, horizon, log := map[], now, 0, Empty;
      new;
      InitOk(max, fromDb, now);
    }

    method RelaxWakeupAt(at: int)
      modifies `wakeupAt
      ensures Snapshot() == old(Snapshot()).Relax(at)
    {
      if wakeupAt == 0 || at < wakeupAt {
        wakeupAt := at;
      }
    }

    method OnError()
      modifies `stopFlag
      ensures Snapshot() == old(Snapshot()).OnError()
    {
      if !wasChecked && !stopFlag {
        stopFlag := true;
      }
    }

    // --- load_updates ---

    /** The actor still has a branch for an event that is loaded already; it is never taken. */
    method LoadUpdate(e: Event, now: int)
      requires 0 < e.id < MAX_ID - 1 && now <= e.expiresAt && e.id !in updates
      modifies `updates, `queueUpdates, `queues, `place, `tqueueOffset, `uniqueQueueId, `horizon, `log
      ensures Snapshot() == old(Snapshot()).LoadOne(e, now)
    {
      ghost var before := Snapshot();
      StoreUpdate(e, now);
      Same(Snapshot(), before.LoadOne(e, now));
    }

    method StoreUpdate(e: Event, now: int)
      requires 0 < e.id < MAX_ID - 1 && now <= e.expiresAt && e.id !in updates
      modifies `updates, `queueUpdates, `queues, `place, `tqueueOffset, `uniqueQueueId, `horizon, `log
      ensures Scheduler() == old(Scheduler()).Load(e.id, NewUpdate(e, now, old(uniqueQueueId)))
      ensures tqueueOffset == horizon == e.id + 1
      ensures uniqueQueueId == if e.extra == 0 then old(uniqueQueueId) + 1 else old(uniqueQueueId)
      ensures log == Then(old(log), Load(e.id, NewUpdate(e, now, old(uniqueQueueId)).queueId, e.expiresAt))
    {
      var queueId := NewQueueId(e.extra);
      var u := Update(e.expiresAt, 0, now, 1, 0, queueId, e.headerFits);
      InsertUpdate(e.id, u);
      tqueueOffset := e.id + 1;
      horizon := e.id + 1;
      log := Then(log, Load(e.id, queueId, e.expiresAt));
    }

    method NewQueueId(extra: int) returns (queueId: int)
      modifies `uniqueQueueId
      ensures queueId == if extra == 0 then old(uniqueQueueId) else extra
      ensures uniqueQueueId == if extra == 0 then old(uniqueQueueId) + 1 else old(uniqueQueueId)
    {
      queueId := extra;
      if queueId == 0 {
        queueId := uniqueQueueId;
        uniqueQueueId := uniqueQueueId + 1;
      }
    }

    method InsertUpdate(id: int, u: Update)
      modifies `updates, `queueUpdates, `queues, `place
      ensures Scheduler() == old(Scheduler()).Load(id, u)
    {
      var k := u.queueId;
      if k in queueUpdates {
        updates, queueUpdates := updates[id := u], queueUpdates[k := queueUpdates[k] + [id]];
      } else {
        updates, queueUpdates := updates[id := u], queueUpdates[k := [id]];
        queues, place := queues + {(u.wakeupAt, k)}, place[k := Waiting];
      }
    }

    method ReadTQueue(now: int) returns (got: seq<Event>)
      requires |queueUpdates| < maxConnections * 2
      modifies `tqueueOffset, `tqueue, `tqueueEmpty
      ensures Snapshot() == old(Snapshot()).ReadFeed(now) && got == old(Snapshot()).Got(now)
    {
      ghost var before := Snapshot();
      var limit: nat := Min(maxConnections * 2 - |queueUpdates|, EVENT_BUFFER_SIZE);
      got := Read(now, limit);
      ReadIs(before, Snapshot(), got, now, limit);
    }

    method Read(now: int, limit: nat) returns (got: seq<Event>)
      modifies `tqueueOffset, `tqueue, `tqueueEmpty
      ensures var start := if old(tqueueOffset) == 0 then old(tqueue).Head() else old(tqueueOffset);
        var at := if start != 0 && old(tqueue).Refuses(start) then old(tqueue).Head() else start;
        && tqueueOffset == at && (tqueueEmpty <==> got == [])
        && got == (if start == 0 then [] else Taken(old(tqueue).events, at, now, limit))
        && tqueue == if start == 0 then old(tqueue)
                     else old(tqueue).(events := Kept(old(tqueue).events, at, now, limit))
    {
      if tqueueOffset == 0 {
        tqueueOffset := tqueue.Head();
      }
      got := [];
      if tqueueOffset != 0 {
        got := Get(now, limit);
      }
      tqueueEmpty := got == [];
    }

    /** A read from the offset, or from the head if the offset is refused. */
    method Get(now: int, limit: nat) returns (got: seq<Event>)
      modifies `tqueue, `tqueueOffset
      ensures var at := if old(tqueue).Refuses(old(tqueueOffset)) then old(tqueue).Head() else old(tqueueOffset);
        && tqueueOffset == at && got == Taken(old(tqueue).events, at, now, limit)
        && tqueue == old(tqueue).(events := Kept(old(tqueue).events, at, now, limit))
    {
      if tqueue.Refuses(tqueueOffset) {
        tqueueOffset := tqueue.Head();
      }
      got := Taken(tqueue.events, tqueueOffset, now, limit);
      tqueue := tqueue.(events := Kept(tqueue.events, tqueueOffset, now, limit));
    }

    /** One round of the loading loop, with its checks. */
    method LoadNext(got: seq<Event>, i: nat, now: int, ghost read: State)
      requires i < |got| && LoadedTo(read, Snapshot(), got, i) && Follows(read, got, i)
      requires |read.queues.fifos| + |got| <= read.MaxLoaded() && now == read.clock <= got[i].expiresAt
      modifies `updates, `queueUpdates, `queues, `place, `tqueueOffset, `uniqueQueueId, `horizon, `log
      ensures LoadedTo(read, Snapshot(), got, i + 1)
      ensures Snapshot() == old(Snapshot()).LoadOne(got[i], now)
    {
      NextChecked(read, Snapshot(), got, i);
      LoadUpdate(got[i], now);
    }

    /** The queues are full when they cannot take more. */
    method LoadUpdates(now: int)
      requires Valid() && clock == now
      modifies this
      ensures Snapshot() == old(Snapshot()).LoadUpdates(now)
    {
      if tqueueEmpty {
        return;
      }
      if |queueUpdates| >= maxConnections * 2 {
        assert |queueUpdates| == maxConnections * 2;
        return;
      }
      ghost var start := Snapshot();
      var got := ReadTQueue(now);
      StartLoading(start);
      LoadAll(got, now);
    }

    method LoadAll(got: seq<Event>, now: int)
      requires LoadedTo(Snapshot(), Snapshot(), got, 0) && |queueUpdates| + |got| <= maxConnections * 2 && clock == now
      requires forall i: nat | i < |got| :: Follows(Snapshot(), got, i) && now <= got[i].expiresAt
      modifies `updates, `queueUpdates, `queues, `place, `tqueueOffset, `uniqueQueueId, `horizon, `log
      ensures Snapshot() == old(Snapshot()).LoadFrom(got, 0, now)
    {
      ghost var read := Snapshot();
      var i := 0;
      while i < |got|
        invariant 0 <= i <= |got|
        invariant LoadedTo(read, Snapshot(), got, i)
        invariant Snapshot().LoadFrom(got, i, now) == read.LoadFrom(got, 0, now)
      {
        LoadNext(got, i, now, read);
        i := i + 1;
      }
    }

    // --- send_updates ---

    /** The first element of the ordered set. */
    method FirstQueue() returns (w: (int, int))
      requires queues != {}
      ensures w == First(queues)
    {
      FirstExists(queues);
      w :| w in queues && IsFirst(queues, w);
      FirstUnique(queues, w);
    }

    method TakeQueue(w: (int, int), now: int)
      requires Scheduler().HasFront(w.1) && Scheduler().Due(w.1) == w.0
      modifies `queues, `updates, `place
      ensures Scheduler() == old(Scheduler()).Hold(w.1, now)
    {
      queues := queues - {w};
      var eventId := queueUpdates[w.1][0];
      updates := updates[eventId := updates[eventId].(lastSendTime := now)];
      place := place[w.1 := Held];
    }

    method AssignConnection(k: int)
      requires Scheduler().HasFront(k) && readyConnections != [] && readyConnections[0] in connections
      modifies `connections, `readyConnections, `place
      ensures Scheduler() == old(Scheduler()).Assign(k)
    {
      var c := readyConnections[0];
      readyConnections := readyConnections[1..];
      connections := connections[c := connections[c].(eventId := queueUpdates[k][0])];
      place := place[k := Flying(c)];
    }

    /** The checks: the queue and its front are valid, and the front is loaded. */
    method SendUpdate(now: int) returns (result: SendResult)
      requires SendReady(Snapshot())
      modifies `connections, `readyConnections, `place, `queues, `updates, `log, `wakeupAt
      ensures result == old(Snapshot()).Outcome(now) && Snapshot() == old(Snapshot()).SendOne(now)
    {
      if readyConnections == [] {
        return NoConnection;
      }
      if queues == {} {
        return NoPending;
      }
      var w := FirstQueue();
      if w.0 > now {
        RelaxWakeupAt(w.0);
        return NotYet;
      }
      assert w.1 != 0 && queueUpdates[w.1][0] > 0 && queueUpdates[w.1][0] in updates;
      ghost var before := Snapshot();
      var eventId := queueUpdates[w.1][0];
      SentInTwo(before, w.1, now);
      TakeFront(w, now);
      if !updates[eventId].headerFits {
        return HeaderTooLong;
      }
      Dispatch(w.1, now);
      result := Sent;
    }

    method TakeFront(w: (int, int), now: int)
      requires Scheduler().HasFront(w.1) && Scheduler().Due(w.1) == w.0
      modifies `queues, `updates, `place
      ensures Snapshot() == old(Snapshot()).HoldFront(w.1, now)
    {
      ghost var before := Snapshot();
      TakeQueue(w, now);
      Same(Snapshot(), before.HoldFront(w.1, now));
    }

    method Dispatch(k: int, now: int)
      requires Scheduler().HasFront(k) && readyConnections != [] && readyConnections[0] in connections
      modifies `connections, `readyConnections, `place, `log
      ensures Snapshot() == Dispatched(old(Snapshot()), k, now)
    {
      ghost var before := Snapshot();
      AssignConnection(k);
      log := Then(log, Send(queueUpdates[k][0], k, now));
      Same(Snapshot(), Dispatched(before, k, now));
    }

    method SendUpdates(now: int)
      requires Valid() && clock == now && Snapshot().Sendable()
      modifies `connections, `readyConnections, `place, `queues, `updates, `log, `wakeupAt
      ensures Snapshot() == old(Snapshot()).SendAll(now)
    {
      ghost var start := Snapshot();
      var result := Sent;
      while result == Sent
        invariant Valid() && clock == now && Snapshot().Sendable()
        invariant start.SendAll(now) == if result == Sent then Snapshot().SendAll(now) else Snapshot()
        decreases result == Sent, |readyConnections|
      {
        ReadyToSend(Snapshot());
        SendOneKeeps(Snapshot());
        SendAllStep(Snapshot(), now);
        result := SendUpdate(now);
        ConsistentSendable(Snapshot());
      }
    }

    // --- handle ---

    /** The checks: the event is loaded and is the front of its queue. */
    method DropEvent(eventId: int)
      requires Droppable(Scheduler(), eventId)
      modifies `updates, `queueUpdates, `queues, `place, `tqueue, `log
      ensures Scheduler() == old(Scheduler()).Drop(old(updates[eventId].queueId))
      ensures tqueue == old(tqueue).Remove({eventId}) && log == Then(old(log), Forget(eventId))
    {
      var queueId := updates[eventId].queueId;
      updates := updates - {eventId};
      var rest := queueUpdates[queueId][1..];
      if rest == [] {
        queueUpdates := queueUpdates - {queueId};
        place := place - {queueId};
      } else {
        queueUpdates := queueUpdates[queueId := rest];
        queues := queues + {(updates[rest[0]].wakeupAt, updates[rest[0]].queueId)};
        place := place[queueId := Waiting];
      }
      tqueue := tqueue.Remove({eventId});
      log := Then(log, Forget(eventId));
    }

    method OnUpdateOk(eventId: int, now: int)
      requires Droppable(Scheduler(), eventId)
      modifies `updates, `queueUpdates, `queues, `place, `tqueue, `log, `lastSuccessTime
      ensures Scheduler() == old(Scheduler()).Drop(old(updates[eventId].queueId))
      ensures tqueue == old(tqueue).Remove({eventId}) && lastSuccessTime == now
      ensures log == Then(Then(old(log), AnswerTo(eventId, old(updates[eventId]), true, now, 0, 0)), Forget(eventId))
    {
      lastSuccessTime := now;
      log := Then(log, AnswerTo(eventId, updates[eventId], true, now, 0, 0));
      DropEvent(eventId);
    }

    method OnUpdateError(eventId: int, retryAfter: int, now: int, random: int)
      requires Droppable(Scheduler(), eventId)
      modifies `updates, `queueUpdates, `queues, `place, `tqueue, `log
      ensures var u := old(updates[eventId]); var (delay, wait) := Backoff(u, retryAfter, random);
        if now + wait > u.expiresAt then
          && Scheduler() == old(Scheduler()).Drop(u.queueId) && tqueue == old(tqueue).Remove({eventId})
          && log == Then(Then(old(log), AnswerTo(eventId, u, false, now, retryAfter, wait)), Forget(eventId))
        else
          && Scheduler() == old(Scheduler()).Requeue(u.queueId, now + wait, delay) && tqueue == old(tqueue)
          && log == Then(old(log), AnswerTo(eventId, u, false, now, retryAfter, wait))
    {
      var u := updates[eventId];
      var asked := Max(0, Min(retryAfter, MAX_RETRY_AFTER));
      var nextDelay := u.delay;
      var nextEffectiveDelay := asked;
      if asked == 0 && u.failCount > 0 {
        nextDelay := Min(random, nextDelay * 2);
        nextEffectiveDelay := nextDelay;
      }
      log := Then(log, AnswerTo(eventId, u, false, now, retryAfter, nextEffectiveDelay));
      if now + nextEffectiveDelay > u.expiresAt {
        DropEvent(eventId);
        return;
      }
      updates := updates[eventId := u.(delay := nextDelay, wakeupAt := now + nextEffectiveDelay,
        failCount := u.failCount + 1)];
      queues := queues + {(now + nextEffectiveDelay, u.queueId)};
      place := place[u.queueId := Waiting];
    }

    method CloseOrReuse(c: int, close: bool)
      requires c in connections
      modifies `connections, `readyConnections
      ensures connections == ConnectionsAfter(old(Scheduler()), c, close)
      ensures readyConnections == ReadyAfter(old(Scheduler()), c, close)
    {
      if close {
        connections := connections - {c};
        readyConnections := Without(readyConnections, c);
      } else {
        connections := connections[c := connections[c].(eventId := 0)];
        readyConnections := readyConnections + [c];
      }
    }

    method FinishOk(c: int, close: bool, now: int)
      requires Snapshot().Answerable(c) && Droppable(Scheduler(), connections[c].eventId)
      modifies `updates, `queueUpdates, `queues, `place, `tqueue, `log, `lastSuccessTime, `connections,
        `readyConnections
      ensures Scheduler() == old(Scheduler().Release(c, close).Drop(updates[connections[c].eventId].queueId))
      ensures tqueue == old(tqueue.Remove({connections[c].eventId})) && lastSuccessTime == now
      ensures log ==
        old(Then(Then(log, AnswerTo(connections[c].eventId, updates[connections[c].eventId], true, now, 0, 0)),
                              Forget(connections[c].eventId)))
    {
      var eventId := connections[c].eventId;
      DropThenRelease(Scheduler(), c, close, updates[eventId].queueId);
      OnUpdateOk(eventId, now);
      CloseOrReuse(c, close);
    }

    method AnswerOk(c: int, close: bool, now: int)
      requires Snapshot().Answerable(c) && Droppable(Scheduler(), connections[c].eventId)
      modifies `updates, `queueUpdates, `queues, `place, `tqueue, `log, `lastSuccessTime, `connections,
        `readyConnections
      ensures Snapshot() == old(Snapshot()).Answered(c, close, true, now, 0, 0)
    {
      ghost var before := Snapshot();
      FinishOk(c, close, now);
      AnsweredOkIs(before, Snapshot(), c, close, now);
    }

    method FinishError(c: int, close: bool, now: int, retryAfter: int, random: int)
      requires Snapshot().Answerable(c) && Droppable(Scheduler(), connections[c].eventId)
      modifies `updates, `queueUpdates, `queues, `place, `tqueue, `log, `connections, `readyConnections
      ensures var id := old(connections[c].eventId); var u := old(updates[id]);
        var (delay, wait) := Backoff(u, retryAfter, random);
        if now + wait > u.expiresAt then
          && Scheduler() == old(Scheduler().Release(c, close).Drop(updates[connections[c].eventId].queueId))
          && tqueue == old(tqueue).Remove({id})
          && log == Then(Then(old(log), AnswerTo(id, u, false, now, retryAfter, wait)), Forget(id))
        else
          && old(Scheduler().Release(c, close).HasFront(updates[connections[c].eventId].queueId))
          && Scheduler() == old(Scheduler().Release(c, close)).Requeue(u.queueId, now + wait, delay)
          && tqueue == old(tqueue) && log == Then(old(log), AnswerTo(id, u, false, now, retryAfter, wait))
    {
      var eventId := connections[c].eventId;
      ghost var k, backoff := updates[eventId].queueId, Backoff(updates[eventId], retryAfter, random);
      DropThenRelease(Scheduler(), c, close, k);
      RequeueThenRelease(Scheduler(), c, close, k, now + backoff.1, backoff.0);
      OnUpdateError(eventId, retryAfter, now, random);
      CloseOrReuse(c, close);
    }

    method AnswerError(c: int, close: bool, now: int, retryAfter: int, random: int)
      requires Snapshot().Answerable(c) && Droppable(Scheduler(), connections[c].eventId)
      modifies `updates, `queueUpdates, `queues, `place, `tqueue, `log, `connections, `readyConnections
      ensures Snapshot() == old(Snapshot()).Answered(c, close, false, now, retryAfter, random)
    {
      ghost var before := Snapshot();
      FinishError(c, close, now, retryAfter, random);
      AnsweredErrorIs(before, Snapshot(), c, close, now, retryAfter, random);
    }

    method CloseIdle(c: int)
      requires c in connections && connections[c].eventId !in updates
      modifies `connections, `readyConnections
      ensures Snapshot() == old(Snapshot()).(queues := old(Scheduler()).Release(c, true))
    {
      ghost var before := Snapshot();
      CloseOrReuse(c, true);
      Same(Snapshot(), before.(queues := before.queues.Release(c, true)));
    }

    /** The checks: an answered event is loaded and at the front of its queue, and a connection
        without an event in flight only hangs up. */
    method Handle(c: int, reply: Reply, now: int, random: int)
      requires c in connections && connections[c].eventId != 0 ==>
        Snapshot().Answerable(c) && Droppable(Scheduler(), connections[c].eventId)
      requires c in connections && connections[c].eventId == 0 ==> reply.Hangup? && 0 !in updates
      modifies this
      ensures Snapshot() == old(Snapshot()).Handle(c, reply, now, random)
    {
      if c !in connections {
        return;
      }
      ghost var before := Snapshot();
      var close := reply.Closes() || ipGeneration != connections[c].ipGeneration || GoneTooLong(reply, now);
      HandleIs(before, c, reply, now, random, close);
      NoteReply(reply, now);
      Settle(c, reply, close, now, random);
    }

    method Settle(c: int, reply: Reply, close: bool, now: int, random: int)
      requires c in connections
      requires connections[c].eventId != 0 ==>
        Snapshot().Answerable(c) && Droppable(Scheduler(), connections[c].eventId)
      requires connections[c].eventId == 0 ==> reply.Hangup? && 0 !in updates && close
      modifies `updates, `queueUpdates, `queues, `place, `tqueue, `log, `lastSuccessTime, `connections,
        `readyConnections
      ensures old(connections[c].eventId) != 0 && reply.Accepts() ==>
        Snapshot() == old(Snapshot()).Answered(c, close, true, now, 0, 0)
      ensures old(connections[c].eventId) != 0 && !reply.Accepts() ==>
        Snapshot() == old(Snapshot()).Answered(c, close, false, now, reply.RetryAfter(), random)
      ensures old(connections[c].eventId) == 0 ==>
        Snapshot() == old(Snapshot()).(queues := old(Scheduler()).Release(c, true))
    {
      if connections[c].eventId != 0 {
        if reply.Accepts() {
          AnswerOk(c, close, now);
        } else {
          AnswerError(c, close, now, reply.RetryAfter(), random);
        }
      } else {
        assert !reply.Accepts();
        CloseIdle(c);
      }
    }

    predicate GoneTooLong(reply: Reply, now: int)
      reads this
    {
      reply.Gone() && firstError410Time != 0 && now > firstError410Time + DROP_TIMEOUT
    }

    method NoteReply(reply: Reply, now: int)
      modifies `firstError410Time
      ensures Snapshot() == old(Snapshot()).(firstError410 := old(Snapshot()).First410(reply, now))
    {
      if reply.Response? && reply.isResponse {
        if !reply.Gone() {
          firstError410Time := 0;
        } else if firstError410Time == 0 {
          firstError410Time := now;
        }
      }
    }

    // --- create_new_connections ---

    method CreateConnection()
      modifies `connections, `readyConnections, `nextConnection, `wasChecked
      ensures Snapshot() == old(Snapshot()).Connect()
    {
      ghost var before := Snapshot();
      connections := connections[nextConnection := Connection(0, ipGeneration)];
      readyConnections := readyConnections + [nextConnection];
      nextConnection := nextConnection + 1;
      wasChecked := true;
      ConnectIs(before, Snapshot());
    }

    method AddPendingSocket()
      modifies `pendingSockets, `nextSocket, `wasChecked
      ensures Snapshot() == old(Snapshot()).AddPending()
    {
      wasChecked := true;
      pendingSockets := pendingSockets + {nextSocket};
      nextSocket := nextSocket + 1;
    }

    method FailedAttempt(now: int)
      modifies `stopFlag, `wakeupAt
      ensures Snapshot() == old(Snapshot()).OnError().Relax(now + 1)
    {
      OnError();
      RelaxWakeupAt(now + 1);
    }

    method PendingAttempt(now: int)
      modifies `pendingSockets, `nextSocket, `wasChecked, `wakeupAt
      ensures Snapshot() == old(Snapshot()).AddPending().Relax(now + 1)
    {
      AddPendingSocket();
      RelaxWakeupAt(now + 1);
    }

    method OpenConnections(need: int, now: int, o: Oracle) returns (ended: bool)
      requires Snapshot().FreshConnections()
      modifies `connections, `readyConnections, `nextConnection, `wasChecked, `pendingSockets, `nextSocket,
        `wakeupAt, `stopFlag
      ensures (Snapshot(), ended) == old(Snapshot()).Open(need, now, o, 0)
    {
      ghost var start := Snapshot();
      var i: nat := 0;
      while |connections| + |pendingSockets| + readySockets < need
        invariant Snapshot().FreshConnections() && unchanged(`pendingSockets) && unchanged(`readySockets)
        invariant Snapshot().Open(need, now, o, i) == start.Open(need, now, o, 0)
        decreases need - |connections|
      {
        OpenStep(Snapshot(), need, now, o, i);
        if now < o.floods(i) {
          RelaxWakeupAt(o.floods(i));
          return false;
        }
        match o.attempts(i)
        case Failed =>
          FailedAttempt(now);
          return true;
        case Pending =>
          PendingAttempt(now);
          return true;
        case Connected =>
          CreateConnection();
        i := i + 1;
      }
      ended := false;
    }

    method KeepSockets(n: nat)
      modifies `readySockets
      ensures Snapshot() == old(Snapshot()).(readySockets := n)
    {
      readySockets := n;
    }

    method UseReadySockets(need: int, now: int, o: Oracle)
      modifies `connections, `readyConnections, `nextConnection, `wasChecked, `readySockets, `wakeupAt, `stopFlag
      ensures Snapshot() == old(Snapshot()).UseSockets(need, now, o, 0)
    {
      ghost var start := Snapshot();
      var i: nat := 0;
      while readySockets > 0 && |connections| + |pendingSockets| < need
        invariant Snapshot().UseSockets(need, now, o, i) == start.UseSockets(need, now, o, 0)
        decreases readySockets
      {
        UseStep(Snapshot(), need, now, o, i);
        if !o.handshakes(i) {
          KeepSockets(0);
          OnError();
          RelaxWakeupAt(now + 1);
          return;
        }
        KeepSockets(readySockets - 1);
        CreateConnection();
        i := i + 1;
      }
      UseEnd(Snapshot(), need, now, o, i);
      KeepSockets(0);
    }

    function Needed(now: int): int
      reads this
    {
      var n := Min(|queueUpdates|, maxConnections);
      var m := if !wasChecked then 1 else n;
      if lastSuccessTime + ACTIVE_TIME < now then Min(m, 1) else if m == 0 then 1 else m
    }

    method CreateNewConnections(now: int, o: Oracle)
      requires Snapshot().FreshConnections()
      modifies `connections, `readyConnections, `nextConnection, `wasChecked, `pendingSockets, `nextSocket,
        `readySockets, `wakeupAt, `stopFlag
      ensures Snapshot() == old(Snapshot()).CreateConnections(now, o)
    {
      if !ipReady || !sslReady {
        return;
      }
      var need := Needed(now);
      var ended := OpenConnections(need, now, o);
      if !ended {
        UseReadySockets(need, now, o);
      }
    }

    // --- loop ---

    /** Loads what fits, opens connections, then sends what is due. */
    method Run(o: Oracle, now: int)
      requires Valid() && clock == now
      modifies this
      ensures Snapshot() == Loop(old(Snapshot()), o)
    {
      ghost var start := Snapshot();
      Begin();
      LoopIs(start, o);
      if stopFlag {
        return;
      }
      LoadUpdates(now);
      if o.resolveAt != 0 {
        RelaxWakeupAt(o.resolveAt);
      }
      CreateNewConnections(now, o);
      if stopFlag {
        return;
      }
      SendUpdates(now);
    }

    method Begin()
      modifies `wakeupAt
      ensures Snapshot() == old(Snapshot()).(timer := 0)
    {
      wakeupAt := 0;
    }

    // --- what the surroundings call ---

    method SetClock(now: int)
      modifies `clock
      ensures Snapshot() == Tick(old(Snapshot()), now)
    {
      clock := now;
    }

    method HearUpdates(now: int)
      modifies `tqueueEmpty, `clock
      ensures Snapshot() == OnUpdates(old(Snapshot()), now)
    {
      tqueueEmpty := false;
      clock := now;
    }

    method TakeSocket(id: int, ok: bool)
      requires id in pendingSockets
      modifies `pendingSockets, `readySockets, `stopFlag
      ensures Snapshot() == OnSocket(old(Snapshot()), id, ok)
    {
      pendingSockets := pendingSockets - {id};
      if ok {
        readySockets := readySockets + 1;
      } else {
        OnError();
      }
    }

    method OnUpdate(now: int, o: Oracle)
      requires Valid() && Enabled(Snapshot(), NewUpdates(now, o))
      modifies this
      ensures Valid() && Snapshot() == Apply(old(Snapshot()), NewUpdates(now, o))
    {
      ghost var before := Snapshot();
      UpdatesKeep(before, now);
      HearUpdates(now);
      Run(o, now);
    }

    method OnTimeout(now: int, o: Oracle)
      requires Valid() && Enabled(Snapshot(), Wake(now, o))
      modifies this
      ensures Valid() && Snapshot() == Apply(old(Snapshot()), Wake(now, o))
    {
      ghost var before := Snapshot();
      TickKeeps(before, now);
      SetClock(now);
      Run(o, now);
    }

    method OnSocketReady(id: int, ok: bool, now: int, o: Oracle)
      requires Valid() && Enabled(Snapshot(), SocketReady(id, ok, now, o))
      modifies this
      ensures Valid() && Snapshot() == Apply(old(Snapshot()), SocketReady(id, ok, now, o))
    {
      ghost var before := Snapshot();
      SocketKeeps(before, id, ok, now);
      SetClock(now);
      TakeSocket(id, ok);
      Run(o, now);
    }

    method AcceptReply(c: int, reply: Reply, now: int, random: int)
      requires CanHandle(Snapshot(), c, reply)
      modifies this
      ensures CanHandle(old(Snapshot()), c, reply)
      ensures Snapshot() == Tick(old(Snapshot()), now).Handle(c, reply, now, random)
    {
      SetClock(now);
      Handle(c, reply, now, random);
    }

    method OnReply(c: int, reply: Reply, now: int, random: int, o: Oracle)
      requires Valid() && Enabled(Snapshot(), Receive(c, reply, now, random, o))
      modifies this
      ensures Valid() && Snapshot() == Apply(old(Snapshot()), Receive(c, reply, now, random, o))
    {
      ReceiveIs(Snapshot(), c, reply, now, random, o);
      CanReceive(Snapshot(), c, reply, now, random, o);
      var loops := c in connections && !GoneTooLong(reply, now);
      AcceptReply(c, reply, now, random);
      if loops {
        Run(o, now);
      }
    }
  }

  function Dispatched(s: State, k: int, now: int): State
    requires s.queues.HasFront(k) && s.queues.ready != [] && s.queues.ready[0] in s.queues.connections
  {
    s.(queues := s.queues.Assign(k), log := Then(s.log, Send(s.queues.Front(k), k, now)))
  }

  lemma SentInTwo(s: State, k: int, now: int)
    requires s.queues.HasFront(k) && s.queues.ready != [] && s.queues.ready[0] in s.queues.connections
    ensures s.HoldFront(k, now).queues.HasFront(k)
    ensures s.SendFront(k, now) == Dispatched(s.HoldFront(k, now), k, now)
  {
  }

  lemma FirstUnique(ws: set<(int, int)>, w: (int, int))
    requires IsFirst(ws, w)
    ensures w == First(ws)
  {
  }

  /** What sending relies on, in the detail that the actor checks. */
  ghost predicate SendReady(s: State) {
    && s.Sendable()
    && forall w | w in s.queues.wakeups :: s.queues.Due(w.1) == w.0 && w.1 != 0 && s.queues.Front(w.1) > 0
  }

  lemma ReadyToSend(s: State)
    requires s.queues.Consistent()
    ensures SendReady(s)
  {
    ConsistentSendable(s);
    forall w | w in s.queues.wakeups
      ensures s.queues.Due(w.1) == w.0 && w.1 != 0 && s.queues.Front(w.1) > 0
    {
      assert s.queues.WakeupOk(w);
      AboutQueue(s.queues, w.1);
    }
  }

  lemma SendAllStep(s: State, now: int)
    requires s.Sendable()
    ensures s.Outcome(now) == Sent ==>
      s.SendOne(now).Sendable() && s.SendAll(now) == s.SendOne(now).SendAll(now)
      && |s.SendOne(now).queues.ready| < |s.queues.ready|
    ensures s.Outcome(now) != Sent ==> s.SendAll(now) == s.SendOne(now)
  {
  }

  /** The read leaves events of which each in turn is the next one to load. */
  lemma StartLoading(s: State)
    requires Inv(s) && !s.feedEmpty && |s.queues.fifos| < s.MaxLoaded()
    ensures var t, got := s.ReadFeed(s.clock), s.Got(s.clock);
      && LoadedTo(t, t, got, 0) && |t.queues.fifos| + |got| <= t.MaxLoaded()
      && forall i: nat | i < |got| :: Follows(t, got, i) && s.clock <= got[i].expiresAt
  {
    ReadFeedKeeps(s);
    var t, got := s.ReadFeed(s.clock), s.Got(s.clock);
    forall i: nat | i < |got| ensures Follows(t, got, i) && s.clock <= got[i].expiresAt {
      ReadFollows(t, got, i);
      assert got[i] in got;
    }
  }

  lemma NextChecked(s: State, t: State, got: seq<Event>, n: nat)
    requires n < |got| && LoadedTo(s, t, got, n) && Follows(s, got, n) && |s.queues.fifos| + |got| <= s.MaxLoaded()
    ensures 0 < got[n].id < MAX_ID - 1 && got[n].id !in t.queues.updates
    ensures LoadedTo(s, t.LoadOne(got[n], s.clock), got, n + 1)
  {
    LoadStep(s, t, t.LoadOne(got[n], s.clock), got, n);
    assert IsNext(t, got[n]);
    LoadOneKeeps(t, got[n]);
    assert got[n] in t.feed.events;
  }
}
