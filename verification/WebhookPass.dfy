/** How much one pass of the webhook actor does: the events that it loads and the connections that
    it opens. */
module WebhookPass {
  import opened Common
  import opened WebhookQueues
  import opened WebhookFeed
  import opened WebhookLog
  import opened WebhookSpec
  import opened WebhookRuns
  import opened WebhookReplies

  // --- loading ---

  /** A read takes the first readable events: a thousand, or as many as fill the room for two queues
      a connection, or all. */
  lemma ReadsMost(s: State, now: int)
    requires Sorted(s.feed.events) && |s.queues.fifos| < 2 * s.maxConnections && s.Start() != 0
    ensures var got := s.Got(now);
      && IsRead(s.feed.events, s.ReadFrom(), now, got)
      && |got| <= 1000 && |s.queues.fifos| + |got| <= 2 * s.maxConnections
      && (|got| == 1000 || |s.queues.fifos| + |got| == 2 * s.maxConnections
          || forall e | e in s.feed.events && s.ReadFrom() <= e.id && now <= e.expiresAt :: e in got)
  {
    TakenIs(s.feed.events, s.ReadFrom(), now, s.Limit());
  }

  /** The update was loaded just now, or it was there before. */
  ghost predicate LoadedNow(s: State, t: State, now: int) {
    forall id | id in t.queues.updates && id !in s.queues.updates ::
      && t.queues.updates[id].wakeupAt == now && t.queues.updates[id].delay == 1
      && t.queues.updates[id].failCount == 0 && t.queues.updates[id].lastSendTime == 0
  }

  ghost predicate Grows(s: State, t: State, now: int) {
    && LoadedNow(s, t, now)
    && forall id | id in s.queues.updates :: id in t.queues.updates && t.queues.updates[id] == s.queues.updates[id]
  }

  lemma GrowsBoth(s: State, t: State, u: State, now: int)
    requires Grows(s, t, now) && Grows(t, u, now)
    ensures Grows(s, u, now)
  {
  }

  lemma OneGrows(s: State, e: Event, now: int)
    ensures Grows(s, s.LoadOne(e, now), now) && e.id in s.LoadOne(e, now).queues.updates
  {
  }

  lemma {:induction false} LoadGrows(s: State, got: seq<Event>, i: nat, now: int)
    requires i <= |got|
    ensures var t := s.LoadFrom(got, i, now);
      Grows(s, t, now) && forall j | i <= j < |got| :: got[j].id in t.queues.updates
    decreases |got| - i
  {
    if i < |got| {
      var u := s.LoadOne(got[i], now);
      OneGrows(s, got[i], now);
      LoadGrows(u, got, i + 1, now);
      GrowsBoth(s, u, u.LoadFrom(got, i + 1, now), now);
    }
  }

  /** Loading takes in all events that were read, each due at once, and changes no other update; it
      reads unless the queue of events was found empty or two queues a connection are loaded. */
  lemma LoadsAll(s: State, now: int)
    ensures var t := s.LoadUpdates(now);
      if s.feedEmpty || |s.queues.fifos| >= 2 * s.maxConnections then t == s
      else
        && Grows(s, t, now) && (t.feedEmpty <==> s.Got(now) == [])
        && forall e | e in s.Got(now) :: e.id in t.queues.updates
  {
    if !s.feedEmpty && |s.queues.fifos| < s.MaxLoaded() {
      LoadGrows(s.ReadFeed(now), s.Got(now), 0, now);
      SameEmpty(s.ReadFeed(now), s.Got(now), 0, now);
    }
  }

  lemma {:induction false} SameEmpty(s: State, got: seq<Event>, i: nat, now: int)
    requires i <= |got|
    ensures s.LoadFrom(got, i, now).feedEmpty == s.feedEmpty
    decreases |got| - i
  {
    if i < |got| {
      SameEmpty(s.LoadOne(got[i], now), got, i + 1, now);
    }
  }

  // --- connecting ---

  /** Nothing is in the way of connections. */
  ghost predicate Unhindered(now: int, o: Oracle) {
    && (forall i :: o.floods(i) <= now) && (forall i :: o.attempts(i).Connected?) && forall i :: o.handshakes(i)
  }

  /** Connections in use or being opened. */
  function InUse(s: State): nat { |s.queues.connections| + |s.pending| }

  /** One for each loaded queue up to the limit, one at most while there was no success for ten
      seconds, and one for a webhook that has still to be verified or that is in use. */
  function Wanted(s: State, now: int): int {
    if !s.wasChecked then 1
    else if now - s.lastSuccess > 10 then (if |s.queues.fifos| == 0 then 0 else 1)
    else if |s.queues.fifos| == 0 then 1
    else if |s.queues.fifos| < s.maxConnections then |s.queues.fifos|
    else s.maxConnections
  }

  lemma WantedIs(s: State, now: int)
    requires 0 < s.maxConnections
    ensures s.Needed(now) == Wanted(s, now)
  {
  }

  lemma ConnectSize(s: State)
    requires s.FreshConnections()
    ensures InUse(s.Connect()) == InUse(s) + 1 && s.Connect().readySockets == s.readySockets
    ensures s.Connect().FreshConnections()
  {
    ConnectCargo(s);
  }

  lemma {:induction false} OpensEnough(s: State, need: int, now: int, o: Oracle, i: nat)
    requires s.FreshConnections() && Unhindered(now, o)
    ensures var (t, ended) := s.Open(need, now, o, i);
      !ended && t.FreshConnections() && t.readySockets == s.readySockets && t.Size() == Max(s.Size(), need)
    decreases need - s.Size()
  {
    if s.Size() < need {
      assert o.floods(i) <= now && o.attempts(i).Connected?;
      ConnectSize(s);
      OpenGoesOn(s, need, now, o, i);
      OpensEnough(s.Connect(), need, now, o, i + 1);
    }
  }

  lemma {:induction false} UsesEnough(s: State, need: int, now: int, o: Oracle, i: nat)
    requires s.FreshConnections() && Unhindered(now, o)
    ensures var t := s.UseSockets(need, now, o, i);
      t.readySockets == 0 && InUse(t) == Max(InUse(s), Min(need, InUse(s) + s.readySockets))
    decreases s.readySockets
  {
    if s.readySockets > 0 && InUse(s) < need {
      assert o.handshakes(i);
      var t := s.(readySockets := s.readySockets - 1);
      ConnectSize(t);
      UsesEnough(t.Connect(), need, now, o, i + 1);
    }
  }

  /** When nothing is in the way, a pass leaves as many connections as are wanted, or those that
      there were if they are more. */
  lemma ConnectsEnough(s: State, now: int, o: Oracle)
    requires s.FreshConnections() && 0 < s.maxConnections && s.ipReady && s.sslReady && Unhindered(now, o)
    ensures InUse(s.CreateConnections(now, o)) == Max(InUse(s), Wanted(s, now))
    ensures s.CreateConnections(now, o).readySockets == 0
  {
    WantedIs(s, now);
    var need := s.Needed(now);
    OpensEnough(s, need, now, o, 0);
    UsesEnough(s.Open(need, now, o, 0).0, need, now, o, 0);
  }

  /** The timer is set, to the next second or to when flood control allows another attempt. */
  ghost predicate TimerSet(t: State, now: int, o: Oracle) {
    && t.timer != 0
    && (t.timer <= now + 1 || exists i :: now < o.floods(i) && t.timer <= o.floods(i))
  }

  lemma RelaxSets(s: State, at: int, now: int, o: Oracle)
    requires 0 < now && (at == now + 1 || (now < at && exists i :: at == o.floods(i)))
    ensures TimerSet(s.Relax(at), now, o)
  {
    if s.timer != 0 && s.timer <= at && at != now + 1 {
      var i :| at == o.floods(i);
      assert now < o.floods(i) && s.timer <= o.floods(i);
    }
  }

  lemma {:induction false} OpenSets(s: State, need: int, now: int, o: Oracle, i: nat)
    requires s.FreshConnections() && 0 < now
    ensures var (t, ended) := s.Open(need, now, o, i);
      && t.FreshConnections() && t.readySockets == s.readySockets
      && (ended || t.Size() < need ==> TimerSet(t, now, o))
    decreases need - s.Size()
  {
    if s.Size() < need {
      if now < o.floods(i) {
        RelaxSets(s, o.floods(i), now, o);
      } else {
        match o.attempts(i)
        case Failed => RelaxSets(s.OnError(), now + 1, now, o);
        case Pending => RelaxSets(s.AddPending(), now + 1, now, o);
        case Connected =>
          ConnectSize(s);
          OpenGoesOn(s, need, now, o, i);
          OpenSets(s.Connect(), need, now, o, i + 1);
      }
    }
  }

  lemma {:induction false} SocketsSet(s: State, need: int, now: int, o: Oracle, i: nat)
    requires s.FreshConnections() && 0 < now && (s.Size() < need ==> TimerSet(s, now, o))
    ensures var t := s.UseSockets(need, now, o, i); InUse(t) < need ==> TimerSet(t, now, o)
    decreases s.readySockets
  {
    if s.readySockets > 0 && InUse(s) < need {
      if o.handshakes(i) {
        var t := s.(readySockets := s.readySockets - 1);
        ConnectSize(t);
        SocketsSet(t.Connect(), need, now, o, i + 1);
      } else {
        RelaxSets(s.(readySockets := 0).OnError(), now + 1, now, o);
      }
    }
  }

  /** A pass that leaves fewer connections than wanted sets the timer for another one. */
  lemma TriesAgain(s: State, now: int, o: Oracle)
    requires s.FreshConnections() && 0 < s.maxConnections && s.ipReady && s.sslReady && 0 < now
    ensures var t := s.CreateConnections(now, o); InUse(t) < Wanted(s, now) ==> TimerSet(t, now, o)
  {
    WantedIs(s, now);
    var need := s.Needed(now);
    OpenSets(s, need, now, o, 0);
    var (t, ended) := s.Open(need, now, o, 0);
    if !ended {
      SocketsSet(t, need, now, o, 0);
    }
  }

  // --- where it reads ---

  /** A read goes on from the offset, unless that is more than a hundred thousand identifiers behind
      the head of the queue; then it begins at the head. */
  lemma ReadsFrom(s: State)
    requires FeedOk(s.feed, s.offset, s.horizon, s.clock, s.queues.updates.Keys)
    ensures var head := if s.feed.events == [] then s.feed.tail else s.feed.events[0].id;
      s.ReadFrom() == if s.offset == 0 || s.offset < head - 100000 then head else s.offset
  {
  }
}
