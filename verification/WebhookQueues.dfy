/** The scheduler's four structures: the loaded updates, the FIFO of each queue, the ordered
    wake-up set and the connections. The operations here are the steps that the actor's methods
    are made of; each keeps the structures consistent. */
module WebhookQueues {

  /** A loaded update. Whether its request header fits in the header buffer depends only on the
      fixed URL and headers and on the size of the update's text, which is left out. */
  datatype Update = Update(expiresAt: int, lastSendTime: int, wakeupAt: int, delay: int, failCount: nat,
                           queueId: int, headerFits: bool)

  /** An event in flight, or 0 for an idle connection. */
  datatype Connection = Connection(eventId: int, ipGeneration: int)

  /** Where the front event of a queue is: in the wake-up set, on a connection, or neither. The
      actor keeps no such record; it is history kept for the proofs. */
  datatype Place = Waiting | Flying(conn: int) | Held

  ghost predicate Ascending(s: seq<int>) {
    forall i, j | 0 <= i < j < |s| :: s[i] < s[j]
  }

  predicate Distinct(s: seq<int>) {
    forall i, j | 0 <= i < j < |s| :: s[i] != s[j]
  }

  /** Unlinking a node from the list of idle connections. */
  function Without(s: seq<int>, c: int): seq<int> {
    if s == [] then [] else if s[0] == c then s[1..] else [s[0]] + Without(s[1..], c)
  }

  datatype Queues = Queues(
    updates: map<int, Update>,
    fifos: map<int, seq<int>>,
    wakeups: set<(int, int)>,
    place: map<int, Place>,
    connections: map<int, Connection>,
    ready: seq<int>)
  {
    ghost predicate HasFront(k: int) {
      k in fifos && fifos[k] != [] && fifos[k][0] in updates
    }

    function Front(k: int): int
      requires HasFront(k)
    {
      fifos[k][0]
    }

    function Due(k: int): int
      requires HasFront(k)
    {
      updates[fifos[k][0]].wakeupAt
    }

    // --- consistency ---

    ghost predicate Holds(k: int, id: int) {
      id in updates && updates[id].queueId == k
    }

    ghost predicate QueueOk(k: int) {
      && k != 0 && k in place && HasFront(k) && Ascending(fifos[k])
      && (forall id | id in fifos[k] :: Holds(k, id))
      && (place[k] == Waiting ==> (Due(k), k) in wakeups)
      && (place[k].Flying? ==> Carries(place[k].conn, fifos[k][0]))
    }

    ghost predicate Carries(c: int, id: int) {
      c in connections && connections[c].eventId == id
    }

    ghost predicate UpdateOk(id: int) {
      id in updates && id > 0 && updates[id].queueId in fifos && id in fifos[updates[id].queueId]
    }

    ghost predicate WakeupOk(w: (int, int)) {
      w.1 in place && place[w.1] == Waiting && HasFront(w.1) && w.0 == Due(w.1)
    }

    ghost predicate ConnectionOk(c: int) {
      && c in connections
      && (c in ready <==> connections[c].eventId == 0)
      && (connections[c].eventId != 0 ==>
            && connections[c].eventId in updates
            && updates[connections[c].eventId].queueId in place
            && place[updates[connections[c].eventId].queueId] == Flying(c))
    }

    ghost predicate Consistent() {
      && place.Keys == fifos.Keys
      && (forall k | k in fifos :: QueueOk(k))
      && (forall id | id in updates :: UpdateOk(id))
      && (forall w | w in wakeups :: WakeupOk(w))
      && (forall c | c in connections :: ConnectionOk(c))
      && (forall c | c in ready :: c in connections)
      && Distinct(ready)
    }

    // --- steps ---

    /** Appends a new update to its queue; a queue that was empty is woken at once. */
    function Load(id: int, u: Update): Queues {
      var k := u.queueId;
      if k in fifos then this.(updates := updates[id := u], fifos := fifos[k := fifos[k] + [id]])
      else this.(updates := updates[id := u], fifos := fifos[k := [id]],
                 wakeups := wakeups + {(u.wakeupAt, k)}, place := place[k := Waiting])
    }

    /** Takes queue k out of the wake-up set to send its front. */
    function Hold(k: int, now: int): Queues
      requires HasFront(k)
    {
      var id := Front(k);
      this.(updates := updates[id := updates[id].(lastSendTime := now)],
            wakeups := wakeups - {(Due(k), k)}, place := place[k := Held])
    }

    /** Gives the front of queue k to the connection that has been idle longest. */
    function Assign(k: int): Queues
      requires HasFront(k) && ready != [] && ready[0] in connections
    {
      var c := ready[0];
      this.(connections := connections[c := connections[c].(eventId := Front(k))], ready := ready[1..],
            place := place[k := Flying(c)])
    }

    /** Connection c is done with its event, if any, and is closed or idle again. */
    function Release(c: int, close: bool): Queues
      requires c in connections
    {
      var id := connections[c].eventId;
      var places := if id in updates then place[updates[id].queueId := Held] else place;
      if close then
        this.(connections := connections - {c}, ready := Without(ready, c), place := places)
      else
        this.(connections := connections[c := connections[c].(eventId := 0)], ready := ready + [c], place := places)
    }

    /** Removes the front of queue k; the next one is woken at the time stored for it. */
    function Drop(k: int): Queues
      requires HasFront(k) && (|fifos[k]| > 1 ==> fifos[k][1] in updates)
    {
      var id := Front(k);
      if |fifos[k]| == 1 then
        this.(updates := updates - {id}, fifos := fifos - {k}, place := place - {k})
      else
        this.(updates := updates - {id}, fifos := fifos[k := fifos[k][1..]],
              wakeups := wakeups + {(updates[fifos[k][1]].wakeupAt, k)}, place := place[k := Waiting])
    }

    /** Puts queue k back into the wake-up set after a failure of its front. */
    function Requeue(k: int, at: int, delay: int): Queues
      requires HasFront(k)
    {
      var id := Front(k);
      var u := updates[id];
      this.(updates := updates[id := u.(delay := delay, wakeupAt := at, failCount := u.failCount + 1)],
            wakeups := wakeups + {(at, k)}, place := place[k := Waiting])
    }

    /** A new idle connection. */
    function Connect(c: int, ipGeneration: int): Queues {
      this.(connections := connections[c := Connection(0, ipGeneration)], ready := ready + [c])
    }
  }

  // --- every step keeps consistency ---

  lemma {:induction false} WithoutIs(s: seq<int>, c: int)
    requires Distinct(s)
    ensures Distinct(Without(s, c))
    ensures forall x :: x in Without(s, c) <==> x in s && x != c
  {
    if s != [] {
      WithoutIs(s[1..], c);
      assert s[0] !in s[1..];
      assert forall x :: x in s <==> x == s[0] || x in s[1..];
      if s[0] != c {
        var t := Without(s[1..], c);
        assert forall x :: x in [s[0]] + t <==> x == s[0] || x in t;
        assert s[0] !in t;
      }
    }
  }

  /** What consistency says of queue k and its front. */
  lemma AboutQueue(q: Queues, k: int)
    requires q.Consistent() && k in q.fifos
    ensures q.QueueOk(k) && k in q.place && q.Holds(k, q.fifos[k][0]) && q.fifos[k][0] > 0
    ensures |q.fifos[k]| > 1 ==> q.Holds(k, q.fifos[k][1]) && q.fifos[k][0] < q.fifos[k][1]
  {
  }

  /** A queue that a step does not touch stays well formed. */
  lemma Untouched(q: Queues, n: Queues, j: int)
    requires q.Consistent() && j in q.fifos && j in n.fifos && j in n.place
    requires n.fifos[j] == q.fifos[j] && n.place[j] == q.place[j]
    requires forall x | q.Holds(j, x) :: x in n.updates && n.updates[x] == q.updates[x]
    requires forall at | (at, j) in q.wakeups :: (at, j) in n.wakeups
    requires forall c | q.place[j] == Flying(c) && c in q.connections ::
      c in n.connections && n.connections[c] == q.connections[c]
    ensures n.QueueOk(j)
  {
  }

  lemma AppendAscends(s: seq<int>, id: int)
    requires Ascending(s) && forall x | x in s :: x < id
    ensures Ascending(s + [id])
  {
    forall i | 0 <= i < |s| ensures s[i] < id {
      assert s[i] in s;
    }
  }

  lemma LoadedElsewhere(q: Queues, id: int, u: Update, j: int)
    requires q.Consistent() && id !in q.updates && j in q.fifos && j != u.queueId
    ensures q.Load(id, u).QueueOk(j)
  {
  }

  lemma LoadedConnection(q: Queues, id: int, u: Update, c: int)
    requires q.Consistent() && id !in q.updates && c in q.connections
    ensures q.Load(id, u).ConnectionOk(c)
  {
  }

  lemma LoadedQueue(q: Queues, id: int, u: Update)
    requires q.Consistent() && id > 0 && u.queueId != 0 && forall x | x in q.updates :: x < id
    ensures q.Load(id, u).QueueOk(u.queueId)
  {
    var k, n := u.queueId, q.Load(id, u);
    if k in q.fifos {
      AboutQueue(q, k);
      forall x | x in q.fifos[k] ensures n.Holds(k, x) && x < id {
        assert q.Holds(k, x);
      }
      AppendAscends(q.fifos[k], id);
      assert forall x | x in n.fifos[k] :: x in q.fifos[k] || x == id;
      assert n.fifos[k][0] == q.fifos[k][0] && n.place[k] == q.place[k];
    } else {
      assert n.fifos[k] == [id] && n.Holds(k, id) && n.place[k] == Waiting;
      assert (n.Due(k), k) in n.wakeups;
    }
  }

  lemma LoadedUpdate(q: Queues, id: int, u: Update, x: int)
    requires q.Consistent() && id > 0 && x in q.Load(id, u).updates && id !in q.updates
    ensures q.Load(id, u).UpdateOk(x)
  {
  }

  lemma LoadedWakeup(q: Queues, id: int, u: Update, w: (int, int))
    requires q.Consistent() && w in q.Load(id, u).wakeups && id !in q.updates
    ensures q.Load(id, u).WakeupOk(w)
  {
  }

  lemma LoadedRest(q: Queues, id: int, u: Update)
    requires q.Consistent() && id > 0 && id !in q.updates
    ensures var n := q.Load(id, u);
      && n.place.Keys == n.fifos.Keys && n.ready == q.ready && n.connections == q.connections
      && (forall x | x in n.updates :: n.UpdateOk(x))
      && (forall w | w in n.wakeups :: n.WakeupOk(w))
      && (forall c | c in n.connections :: n.ConnectionOk(c))
  {
    var n := q.Load(id, u);
    forall x | x in n.updates ensures n.UpdateOk(x) {
      LoadedUpdate(q, id, u, x);
    }
    forall w | w in n.wakeups ensures n.WakeupOk(w) {
      LoadedWakeup(q, id, u, w);
    }
    forall c | c in n.connections ensures n.ConnectionOk(c) {
      LoadedConnection(q, id, u, c);
    }
  }

  lemma LoadKeeps(q: Queues, id: int, u: Update)
    requires q.Consistent() && id > 0 && u.queueId != 0 && forall x | x in q.updates :: x < id
    ensures q.Load(id, u).Consistent()
  {
    var n := q.Load(id, u);
    forall j | j in n.fifos ensures n.QueueOk(j) {
      if j == u.queueId {
        LoadedQueue(q, id, u);
      } else {
        LoadedElsewhere(q, id, u, j);
      }
    }
    LoadedRest(q, id, u);
  }

  lemma HoldKeeps(q: Queues, k: int, now: int)
    requires q.Consistent() && k in q.fifos && q.place[k] == Waiting
    ensures q.QueueOk(k) && q.Hold(k, now).Consistent()
  {
    AboutQueue(q, k);
    var n := q.Hold(k, now);
    forall j | j in n.fifos ensures n.QueueOk(j) {
      AboutQueue(q, j);
      forall x | x in n.fifos[j] ensures n.Holds(j, x) {
        assert q.Holds(j, x);
      }
    }
    forall x | x in n.updates ensures n.UpdateOk(x) {
      assert q.UpdateOk(x);
    }
    forall w | w in n.wakeups ensures n.WakeupOk(w) {
      assert q.WakeupOk(w);
      AboutQueue(q, w.1);
    }
    forall c | c in n.connections ensures n.ConnectionOk(c) {
      assert q.ConnectionOk(c);
    }
  }

  lemma AssignKeeps(q: Queues, k: int)
    requires q.Consistent() && k in q.fifos && q.place[k] == Held && q.ready != []
    ensures q.QueueOk(k) && q.ready[0] in q.connections && q.Assign(k).Consistent()
  {
    AboutQueue(q, k);
    assert q.ConnectionOk(q.ready[0]);
    var n, c := q.Assign(k), q.ready[0];
    forall j | j in n.fifos ensures n.QueueOk(j) {
      AboutQueue(q, j);
      if j != k {
        Untouched(q, n, j);
      } else {
        forall x | x in n.fifos[j] ensures n.Holds(j, x) {
          assert q.Holds(j, x);
        }
      }
    }
    forall x | x in n.updates ensures n.UpdateOk(x) {
      assert q.UpdateOk(x);
    }
    forall w | w in n.wakeups ensures n.WakeupOk(w) {
      assert q.WakeupOk(w);
    }
    assert forall x :: x in q.ready <==> x == c || x in n.ready;
    forall d | d in n.connections ensures n.ConnectionOk(d) {
      assert q.ConnectionOk(d);
    }
  }

  /** The event on connection c is the front of its queue, and that queue is in flight there. */
  lemma AboutConnection(q: Queues, c: int)
    requires q.Consistent() && c in q.connections && q.connections[c].eventId != 0
    ensures q.connections[c].eventId in q.updates
    ensures var k := q.updates[q.connections[c].eventId].queueId;
      k in q.fifos && q.QueueOk(k) && q.place[k] == Flying(c) && q.fifos[k][0] == q.connections[c].eventId
  {
  }

  lemma ReleasedQueue(q: Queues, c: int, close: bool, j: int)
    requires q.Consistent() && c in q.connections && j in q.fifos
    ensures q.Release(c, close).QueueOk(j)
  {
    var n, id := q.Release(c, close), q.connections[c].eventId;
    AboutQueue(q, j);
    assert q.ConnectionOk(c);
    if id in q.updates && q.updates[id].queueId == j {
      forall x | x in n.fifos[j] ensures n.Holds(j, x) {
        assert q.Holds(j, x);
      }
    } else {
      Untouched(q, n, j);
    }
  }

  lemma ReleaseKeeps(q: Queues, c: int, close: bool)
    requires q.Consistent() && c in q.connections && (q.connections[c].eventId == 0 ==> close)
    ensures q.Release(c, close).Consistent()
  {
    var n, id := q.Release(c, close), q.connections[c].eventId;
    assert q.ConnectionOk(c);
    WithoutIs(q.ready, c);
    forall j | j in n.fifos ensures n.QueueOk(j) {
      ReleasedQueue(q, c, close, j);
    }
    forall x | x in n.updates ensures n.UpdateOk(x) {
      assert q.UpdateOk(x);
    }
    forall w | w in n.wakeups ensures n.WakeupOk(w) {
      assert q.WakeupOk(w);
    }
    forall d | d in n.connections ensures n.ConnectionOk(d) {
      assert q.ConnectionOk(d);
      if q.connections[d].eventId != 0 && d != c {
        AboutConnection(q, d);
      }
    }
    assert id == 0 ==> id !in q.updates by { assert 0 in q.updates ==> q.UpdateOk(0); }
  }

  lemma DroppedQueue(q: Queues, k: int)
    requires q.Consistent() && k in q.fifos && |q.fifos[k]| > 1 && q.Holds(k, q.fifos[k][1]) && q.HasFront(k)
    ensures q.Drop(k).QueueOk(k)
  {
    AboutQueue(q, k);
    var n := q.Drop(k);
    forall x | x in n.fifos[k] ensures n.Holds(k, x) {
      assert q.Holds(k, x);
    }
  }

  lemma DropKeeps(q: Queues, k: int)
    requires q.Consistent() && k in q.fifos && q.place[k] == Held
    ensures q.QueueOk(k) && (|q.fifos[k]| > 1 ==> q.Holds(k, q.fifos[k][1])) && q.Drop(k).Consistent()
  {
    AboutQueue(q, k);
    var n, id := q.Drop(k), q.fifos[k][0];
    forall j | j in n.fifos ensures n.QueueOk(j) {
      if j == k {
        DroppedQueue(q, k);
      } else {
        Untouched(q, n, j);
      }
    }
    forall x | x in n.updates ensures n.UpdateOk(x) {
      assert q.UpdateOk(x);
    }
    forall w | w in n.wakeups ensures n.WakeupOk(w) {
      if w in q.wakeups {
        assert q.WakeupOk(w);
        AboutQueue(q, w.1);
      }
    }
    forall c | c in n.connections ensures n.ConnectionOk(c) {
      assert q.ConnectionOk(c);
    }
  }

  lemma RequeueKeeps(q: Queues, k: int, at: int, delay: int)
    requires q.Consistent() && k in q.fifos && q.place[k] == Held
    ensures q.QueueOk(k) && q.Requeue(k, at, delay).Consistent()
  {
    AboutQueue(q, k);
    var n := q.Requeue(k, at, delay);
    forall j | j in n.fifos ensures n.QueueOk(j) {
      if j == k {
        forall x | x in n.fifos[j] ensures n.Holds(j, x) {
          assert q.Holds(j, x);
        }
      } else {
        Untouched(q, n, j);
      }
    }
    forall x | x in n.updates ensures n.UpdateOk(x) {
      assert q.UpdateOk(x);
    }
    forall w | w in n.wakeups ensures n.WakeupOk(w) {
      if w in q.wakeups {
        assert q.WakeupOk(w);
        AboutQueue(q, w.1);
      }
    }
    forall c | c in n.connections ensures n.ConnectionOk(c) {
      assert q.ConnectionOk(c);
    }
  }

  lemma ConnectKeeps(q: Queues, c: int, ipGeneration: int)
    requires q.Consistent() && c !in q.connections
    ensures q.Connect(c, ipGeneration).Consistent()
  {
  }

  // --- what consistency means ---

  ghost predicate IsWaiting(q: Queues, k: int) {
    exists at :: (at, k) in q.wakeups
  }

  ghost predicate IsFlying(q: Queues, k: int) {
    exists c :: c in q.connections && k in q.fifos && q.connections[c].eventId != 0 &&
      q.connections[c].eventId in q.fifos[k]
  }

  lemma FlyingIff(q: Queues, k: int)
    requires q.Consistent() && k in q.fifos
    ensures q.place[k] == Waiting <==> IsWaiting(q, k)
    ensures q.place[k].Flying? <==> IsFlying(q, k)
  {
  }

  /** The loaded events are exactly the contents of the FIFOs, each in one of them once. */
  lemma LoadedIsQueued(q: Queues)
    requires q.Consistent()
    ensures forall id :: id in q.updates <==> exists k :: k in q.fifos && id in q.fifos[k]
    ensures forall k, j, id | k in q.fifos && j in q.fifos && id in q.fifos[k] && id in q.fifos[j] :: k == j
    ensures forall k | k in q.fifos :: q.fifos[k] != [] && Ascending(q.fifos[k])
  {
  }

  /** A queue is in the wake-up set once, with the wake-up time of its front, or its front and
      nothing else of it is in flight, on one connection; only a held queue is in neither state. */
  lemma OncePerQueue(q: Queues)
    requires q.Consistent()
    ensures forall k | k in q.fifos :: IsWaiting(q, k) ==> !IsFlying(q, k)
    ensures forall k | k in q.fifos :: !IsWaiting(q, k) && !IsFlying(q, k) <==> q.place[k] == Held
    ensures forall w | w in q.wakeups :: q.HasFront(w.1) && w.0 == q.Due(w.1)
    ensures forall c | c in q.connections && q.connections[c].eventId != 0 ::
      exists k :: q.HasFront(k) && q.connections[c].eventId == q.Front(k)
    ensures forall c, d | c in q.connections && d in q.connections
      && q.connections[c].eventId == q.connections[d].eventId != 0 :: c == d
  {
  }
}
