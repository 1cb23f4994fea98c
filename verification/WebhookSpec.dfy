/** The webhook actor as a state machine: what each of its handlers makes of the state. */
module WebhookSpec {
  import opened Common
  import opened WebhookQueues
  import opened WebhookFeed
  import opened WebhookLog

  const EVENT_BUFFER_SIZE := 1000
  const DROP_TIMEOUT := 60 * 60 * 23
  const ACTIVE_TIME := 10
  const FIRST_UNIQUE_QUEUE := 0x1000_0000_0000_0000

  datatype Reply = Hangup | Response(isResponse: bool, keepAlive: bool, code: int, retryAfter: int)
  {
    predicate Accepts() { Response? && isResponse && 200 <= code <= 299 }

    predicate Gone() { Response? && isResponse && code == 410 }

    /** The connection is of no use after this reply. */
    predicate Closes() { Hangup? || !isResponse || !keepAlive }

    function RetryAfter(): int { if Response? && isResponse && !Accepts() then retryAfter else 0 }
  }

  /** An attempt to open a connection fails, waits for the proxy, or succeeds. */
  datatype Attempt = Failed | Pending | Connected

  /** What the surroundings answer during one run of the actor's loop: when the address is to be
      resolved again (0 if that is not scheduled), the flood limit before each attempt to open a
      connection, the attempts' outcomes, and whether a socket that the proxy made ready becomes a
      connection. */
  datatype Oracle = Oracle(resolveAt: int, floods: nat -> int, attempts: nat -> Attempt, handshakes: nat -> bool)

  datatype SendResult = Sent | NoConnection | NoPending | NotYet | HeaderTooLong

  predicate Before(a: (int, int), b: (int, int)) {
    a.0 < b.0 || (a.0 == b.0 && a.1 <= b.1)
  }

  predicate IsFirst(ws: set<(int, int)>, w: (int, int)) {
    w in ws && forall v | v in ws :: Before(w, v)
  }

  lemma {:induction false} FirstExists(ws: set<(int, int)>)
    requires ws != {}
    ensures exists w :: IsFirst(ws, w)
  {
    var v :| v in ws;
    if ws == {v} {
      assert IsFirst(ws, v);
    } else {
      var rest := ws - {v};
      assert rest != {} by { assert ws == rest + {v}; }
      FirstExists(rest);
      var w :| IsFirst(rest, w);
      assert forall x | x in ws :: x == v || x in rest;
      if Before(v, w) {
        assert IsFirst(ws, v);
      } else {
        assert IsFirst(ws, w);
      }
    }
  }

  /** The first element of the ordered wake-up set. */
  ghost function First(ws: set<(int, int)>): (w: (int, int))
    requires ws != {}
    ensures IsFirst(ws, w)
  {
    FirstExists(ws);
    var w :| IsFirst(ws, w);
    w
  }

  /** The horizon, one more than the greatest identifier loaded, and the log are history. */
  datatype State = State(
    queues: Queues,
    feed: Feed, offset: int, feedEmpty: bool, uniqueQueueId: int,
    maxConnections: int, nextConnection: int, pending: set<int>, nextSocket: int, readySockets: nat,
    ipReady: bool, sslReady: bool, ipGeneration: int, wasChecked: bool, stopped: bool,
    lastSuccess: int, firstError410: int, timer: int,
    clock: int, horizon: int, log: Log)
  {
    function MaxLoaded(): int { maxConnections * 2 }

    function Relax(at: int): State {
      if timer == 0 || at < timer then this.(timer := at) else this
    }

    /** An error before the webhook was verified stops the actor. */
    function OnError(): State {
      if !wasChecked then this.(stopped := true) else this
    }

    // --- load_updates ---

    function LoadOne(e: Event, now: int): State {
      if e.id in queues.updates then this
      else
        var k := if e.extra == 0 then uniqueQueueId else e.extra;
        this.(queues := queues.Load(e.id, Update(e.expiresAt, 0, now, 1, 0, k, e.headerFits)),
              offset := e.id + 1,
              uniqueQueueId := if e.extra == 0 then uniqueQueueId + 1 else uniqueQueueId,
              horizon := e.id + 1, log := Then(log, Load(e.id, k, e.expiresAt)))
    }

    /** Loads the events of a read from the i-th on. */
    function LoadFrom(got: seq<Event>, i: nat, now: int): State
      requires i <= |got|
      decreases |got| - i
    {
      if i == |got| then this else LoadOne(got[i], now).LoadFrom(got, i + 1, now)
    }

    /** Where the next read would start; 0 when there is no queue of events yet. */
    function Start(): int {
      if offset == 0 then feed.Head() else offset
    }

    /** An offset that is refused is replaced by the head. */
    function ReadFrom(): int {
      if Start() != 0 && feed.Refuses(Start()) then feed.Head() else Start()
    }

    function Limit(): nat {
      if |queues.fifos| < MaxLoaded() then Min(MaxLoaded() - |queues.fifos|, EVENT_BUFFER_SIZE) else 0
    }

    function Got(now: int): seq<Event> {
      if Start() == 0 then [] else Taken(feed.events, ReadFrom(), now, Limit())
    }

    function ReadFeed(now: int): State {
      this.(offset := ReadFrom(), feedEmpty := Got(now) == [],
            feed := if Start() == 0 then feed else feed.(events := Kept(feed.events, ReadFrom(), now, Limit())))
    }

    function LoadUpdates(now: int): State {
      if feedEmpty || |queues.fifos| >= MaxLoaded() then this
      else ReadFeed(now).LoadFrom(Got(now), 0, now)
    }

    // --- send_updates ---

    /** What sending relies on: every queue to wake has a front, every idle connection exists. */
    ghost predicate Sendable() {
      && (forall w | w in queues.wakeups :: queues.HasFront(w.1))
      && (forall i | 0 <= i < |queues.ready| :: queues.ready[i] in queues.connections)
    }

    ghost function Outcome(now: int): SendResult
      requires Sendable()
    {
      if queues.ready == [] then NoConnection
      else if queues.wakeups == {} then NoPending
      else
        var w := First(queues.wakeups);
        if w.0 > now then NotYet
        else if queues.updates[queues.Front(w.1)].headerFits then Sent else HeaderTooLong
    }

    function HoldFront(k: int, now: int): State
      requires queues.HasFront(k)
    {
      this.(queues := queues.Hold(k, now))
    }

    function SendFront(k: int, now: int): State
      requires queues.HasFront(k) && queues.ready != [] && queues.ready[0] in queues.connections
    {
      this.(queues := queues.Hold(k, now).Assign(k), log := Then(log, Send(queues.Front(k), k, now)))
    }

    ghost function SendOne(now: int): State
      requires Sendable()
    {
      match Outcome(now)
      case NoConnection => this
      case NoPending => this
      case NotYet => Relax(First(queues.wakeups).0)
      case HeaderTooLong => HoldFront(First(queues.wakeups).1, now)
      case Sent =>
        SendFront(First(queues.wakeups).1, now)
    }

    ghost function SendAll(now: int): State
      requires Sendable()
      decreases |queues.ready|
    {
      if Outcome(now) == Sent then
        StillSendable(this, First(queues.wakeups).1, now);
        SendOne(now).SendAll(now)
      else SendOne(now)
    }

    // --- handle ---

    /** What an answer relies on: the connection's event is the front of a queue. */
    ghost predicate Answerable(c: int) {
      && c in queues.connections && queues.connections[c].eventId in queues.updates
      && var k := queues.updates[queues.connections[c].eventId].queueId;
      && queues.HasFront(k) && queues.Front(k) == queues.connections[c].eventId
      && (|queues.fifos[k]| > 1 ==> queues.fifos[k][1] in queues.updates)
    }

    /** The update on connection c is given up after this answer. */
    function Finish(c: int, close: bool, answer: Entry): State
      requires Answerable(c)
    {
      var id := queues.connections[c].eventId;
      this.(queues := queues.Release(c, close).Drop(queues.updates[id].queueId), feed := feed.Remove({id}),
            log := Then(Then(log, answer), Forget(id)))
    }

    /** The update on connection c is tried again after this answer. */
    function Retry(c: int, close: bool, now: int, retryAfter: int, random: int): State
      requires Answerable(c)
    {
      var id := queues.connections[c].eventId;
      var u := queues.updates[id];
      var (delay, wait) := Backoff(u, retryAfter, random);
      this.(queues := queues.Release(c, close).Requeue(u.queueId, now + wait, delay),
            log := Then(log, AnswerTo(id, u, false, now, retryAfter, wait)))
    }

    /** The effects of an answer for the event on connection c. */
    function Answered(c: int, close: bool, ok: bool, now: int, retryAfter: int, random: int): State
      requires Answerable(c)
    {
      var id := queues.connections[c].eventId;
      var u := queues.updates[id];
      var wait := Backoff(u, retryAfter, random).1;
      if ok then this.(lastSuccess := now).Finish(c, close, AnswerTo(id, u, true, now, 0, 0))
      else if now + wait > u.expiresAt then Finish(c, close, AnswerTo(id, u, false, now, retryAfter, wait))
      else Retry(c, close, now, retryAfter, random)
    }

    predicate GoneTooLong(reply: Reply, now: int) {
      reply.Gone() && firstError410 != 0 && now > firstError410 + DROP_TIMEOUT
    }

    function First410(reply: Reply, now: int): int {
      if reply.Hangup? || !reply.isResponse then firstError410
      else if !reply.Gone() then 0
      else if firstError410 == 0 then now else firstError410
    }

    predicate MustClose(c: int, reply: Reply, now: int)
      requires c in queues.connections
    {
      GoneTooLong(reply, now) || reply.Closes() || ipGeneration != queues.connections[c].ipGeneration
    }

    function Handle(c: int, reply: Reply, now: int, random: int): State
      requires c in queues.connections && queues.connections[c].eventId != 0 ==> Answerable(c)
    {
      if c !in queues.connections then this
      else
        var close := MustClose(c, reply, now);
        var s := this.(firstError410 := First410(reply, now));
        if queues.connections[c].eventId != 0 then
          s.Answered(c, close, reply.Accepts(), now, reply.RetryAfter(), random)
        else s.(queues := queues.Release(c, close))
    }

    // --- create_new_connections ---

    function Size(): nat { |queues.connections| + |pending| + readySockets }

    function Needed(now: int): int {
      var n := Min(|queues.fifos|, maxConnections);
      var m := if !wasChecked then 1 else n;
      if lastSuccess + ACTIVE_TIME < now then Min(m, 1) else if m == 0 then 1 else m
    }

    /** A new connection; the first one verifies the webhook. */
    function Connect(): State {
      this.(queues := queues.Connect(nextConnection, ipGeneration), nextConnection := nextConnection + 1,
            wasChecked := true)
    }

    /** A connection through the proxy was begun; the webhook counts as verified. */
    function AddPending(): State {
      this.(pending := pending + {nextSocket}, nextSocket := nextSocket + 1, wasChecked := true)
    }

    predicate FreshConnections() {
      forall c | c in queues.connections :: c < nextConnection
    }

    /** Opens connections until enough; the flag says that an attempt ended without one. */
    function Open(need: int, now: int, o: Oracle, i: nat): (State, bool)
      requires FreshConnections()
      decreases need - Size()
    {
      if Size() >= need then (this, false)
      else if now < o.floods(i) then (Relax(o.floods(i)), false)
      else match o.attempts(i)
        case Failed => (OnError().Relax(now + 1), true)
        case Pending => (AddPending().Relax(now + 1), true)
        case Connected =>
          assert |queues.connections[nextConnection := Connection(0, ipGeneration)]| == |queues.connections| + 1;
          Connect().Open(need, now, o, i + 1)
    }

    /** Turns sockets that the proxy made ready into connections; the rest are dropped. */
    function UseSockets(need: int, now: int, o: Oracle, i: nat): State
      decreases readySockets
    {
      if readySockets == 0 || |queues.connections| + |pending| >= need then this.(readySockets := 0)
      else if !o.handshakes(i) then this.(readySockets := 0).OnError().Relax(now + 1)
      else this.(readySockets := readySockets - 1).Connect().UseSockets(need, now, o, i + 1)
    }

    function CreateConnections(now: int, o: Oracle): State
      requires FreshConnections()
    {
      if !ipReady || !sslReady then this
      else
        var (s, ended) := Open(Needed(now), now, o, 0);
        if ended then s else s.UseSockets(Needed(now), now, o, 0)
    }

    // --- loop ---

    function Resolve(o: Oracle): State {
      if o.resolveAt == 0 then this else Relax(o.resolveAt)
    }
  }

  lemma StillSendable(s: State, k: int, now: int)
    requires s.Sendable() && s.queues.HasFront(k) && s.queues.ready != [] && s.queues.ready[0] in s.queues.connections
    ensures s.SendFront(k, now).Sendable()
  {
  }

  lemma ConsistentSendable(s: State)
    requires s.queues.Consistent()
    ensures s.Sendable()
  {
    forall w | w in s.queues.wakeups ensures s.queues.HasFront(w.1) {
      assert s.queues.WakeupOk(w);
    }
    forall i | 0 <= i < |s.queues.ready| ensures s.queues.ready[i] in s.queues.connections {
      assert s.queues.ConnectionOk(s.queues.ready[i]);
    }
  }
}
