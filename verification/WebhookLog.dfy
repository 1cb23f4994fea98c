/** What the webhook actor did, as a log of loads, sends, answers and forgets: the order of
    delivery, when an update is given up, and how often it is sent. */
module WebhookLog {
  import opened Common
  import opened WebhookQueues

  const RESEND_TIMEOUT := 60
  const MAX_RETRY_AFTER := 3600

  /** Times are in seconds. An answer says when the next attempt is due if it failed. */
  datatype Entry =
    | Load(id: int, queueId: int, expiresAt: int)
    | Send(id: int, queueId: int, at: int)
    | Answer(id: int, queueId: int, ok: bool, at: int, retryAfter: int, due: int, expiresAt: int)
    | Forget(id: int)

  /** The latest entry and everything before it. */
  datatype Log = Empty | Then(past: Log, last: Entry)
  {
    predicate Has(e: Entry) {
      Then? && (last == e || past.Has(e))
    }
  }

  // --- counting ---

  predicate IsSend(e: Entry, id: int) { e.Send? && e.id == id }

  predicate IsFailure(e: Entry, id: int) { e.Answer? && e.id == id && !e.ok }

  function Sends(log: Log, id: int): nat {
    if log.Empty? then 0 else Sends(log.past, id) + if IsSend(log.last, id) then 1 else 0
  }

  function Failures(log: Log, id: int): nat {
    if log.Empty? then 0 else Failures(log.past, id) + if IsFailure(log.last, id) then 1 else 0
  }

  /** The time of the first failure, 0 if there is none. */
  function FirstFailure(log: Log, id: int): int {
    if log.Empty? then 0
    else if Failures(log.past, id) > 0 then FirstFailure(log.past, id)
    else if IsFailure(log.last, id) then log.last.at
    else 0
  }

  /** No failure of the update asked for a delay. */
  predicate Plain(log: Log, id: int) {
    log.Empty? || (Plain(log.past, id) && (IsFailure(log.last, id) ==> log.last.retryAfter == 0))
  }

  /** Every retry of the update asked for so far was due by then. */
  predicate DueBy(log: Log, id: int, time: int) {
    log.Empty? || (DueBy(log.past, id, time) && (IsFailure(log.last, id) ==> log.last.due <= time))
  }

  lemma {:induction false} DueLater(log: Log, id: int, time: int, later: int)
    requires DueBy(log, id, time) && time <= later
    ensures DueBy(log, id, later)
  {
    if log.Then? { DueLater(log.past, id, time, later); }
  }

  // --- what a log must satisfy ---

  /** Whether e may follow this past: events are loaded in ascending order; an event is sent only
      when every event of its queue loaded before it is forgotten, its own retry is due, and it is
      not forgotten or accepted itself; an answer is to a send not answered yet; an event is forgotten once, right
      after its answer, which was a success or leaves no time for another attempt. */
  ghost predicate EntryOk(past: Log, e: Entry) {
    match e
    case Load(id, _, _) => forall p | past.Has(p) && p.Load? :: p.id < id
    case Send(id, k, at) =>
      && !past.Has(Forget(id)) && DueBy(past, id, at)
      && (exists x :: past.Has(Load(id, k, x)))
      && (forall p | past.Has(p) && p.Load? && p.queueId == k && p.id < id :: past.Has(Forget(p.id)))
      && (forall p | past.Has(p) && p.Answer? && p.id == id :: !p.ok)
    case Answer(id, k, _, _, _, _, x) =>
      past.Has(Load(id, k, x)) && !past.Has(Forget(id)) && Sends(past, id) == Failures(past, id) + 1
    case Forget(id) =>
      && !past.Has(Forget(id)) && past.Then? && past.last.Answer? && past.last.id == id
      && (past.last.ok || past.last.due > past.last.expiresAt)
  }

  ghost predicate ValidLog(log: Log) {
    log.Then? ==> ValidLog(log.past) && EntryOk(log.past, log.last)
  }

  /** Sent at most once without a failure, and then at most two times more than the seconds from
      the first failure to the expiry. */
  predicate SendsBounded(log: Log, id: int, expiresAt: int) {
    Sends(log, id) <= if Failures(log, id) == 0 then 1 else Max(1, 2 + expiresAt - FirstFailure(log, id))
  }

  // --- the log and the queues ---

  ghost predicate InFlight(q: Queues, id: int) {
    && id in q.updates && q.updates[id].queueId in q.place && q.place[q.updates[id].queueId].Flying?
    && q.HasFront(q.updates[id].queueId) && q.Front(q.updates[id].queueId) == id
  }

  predicate DelayOk(u: Update, plain: bool) {
    && 1 <= u.delay <= 2 * RESEND_TIMEOUT
    && (plain && u.failCount > 0 ==> Min(RESEND_TIMEOUT, Pow2(u.failCount - 1)) <= u.delay)
  }

  ghost predicate Counts(log: Log, id: int, u: Update, inFlight: bool, clock: int) {
    && Failures(log, id) == u.failCount
    && Sends(log, id) == u.failCount + (if inFlight then 1 else 0)
    && (u.failCount > 0 ==> FirstFailure(log, id) + u.failCount - 1 <= u.wakeupAt <= u.expiresAt)
    && (inFlight ==> u.wakeupAt <= clock) && DueBy(log, id, u.wakeupAt)
    && DelayOk(u, Plain(log, id))
  }

  ghost predicate Tracks(log: Log, q: Queues, clock: int, id: int) {
    && id in q.updates
    && log.Has(Load(id, q.updates[id].queueId, q.updates[id].expiresAt)) && !log.Has(Forget(id))
    && Counts(log, id, q.updates[id], InFlight(q, id), clock)
  }

  ghost predicate Recorded(log: Log, q: Queues, horizon: int, e: Entry) {
    && e.id < horizon
    && (e.Load? ==> SendsBounded(log, e.id, e.expiresAt))
    && (e.Load? ==> log.Has(Forget(e.id)) || (e.id in q.updates && q.updates[e.id].queueId == e.queueId))
    && (e.Answer? && e.ok ==> log.Has(Forget(e.id)))
  }

  /** The log is valid and agrees with the queues; every id in it is below the horizon. */
  ghost predicate Matches(log: Log, q: Queues, horizon: int, clock: int) {
    && ValidLog(log)
    && (forall id | id in q.updates :: Tracks(log, q, clock, id))
    && (forall e | log.Has(e) :: Recorded(log, q, horizon, e))
  }

  lemma {:induction false} NeverMentioned(log: Log, id: int, time: int)
    requires forall e | log.Has(e) :: e.id != id
    ensures Sends(log, id) == Failures(log, id) == 0 && !log.Has(Forget(id)) && Plain(log, id) && DueBy(log, id, time)
  {
    if log.Then? {
      assert log.Has(log.last);
      assert forall e | log.past.Has(e) :: log.Has(e);
      NeverMentioned(log.past, id, time);
    }
  }

  lemma BelowHorizon(log: Log, q: Queues, horizon: int, clock: int, id: int)
    requires Matches(log, q, horizon, clock) && id in q.updates
    ensures id < horizon && Tracks(log, q, clock, id)
  {
  }

  // --- the steps keep the agreement ---

  /** An update is tracked as before when an entry about another one is added. */
  lemma OthersTracked(log: Log, q: Queues, n: Queues, clock: int, now: int, e: Entry, id: int)
    requires Tracks(log, q, clock, id) && e.id != id && clock <= now
    requires id in n.updates && n.updates[id] == q.updates[id]
    requires InFlight(n, id) <==> InFlight(q, id)
    ensures Tracks(Then(log, e), n, now, id)
  {
  }

  lemma OthersRecorded(log: Log, q: Queues, n: Queues, horizon: int, far: int, e: Entry, p: Entry)
    requires Recorded(log, q, horizon, p) && horizon <= far
    requires p.Load? && p.id in q.updates ==>
      (p.id in n.updates && n.updates[p.id].queueId == q.updates[p.id].queueId) || e == Forget(p.id)
    requires p.Load? ==> SendsBounded(Then(log, e), p.id, p.expiresAt)
    ensures Recorded(Then(log, e), n, far, p)
  {
  }

  lemma BoundKept(log: Log, e: Entry, id: int, expiresAt: int)
    requires SendsBounded(log, id, expiresAt) && !IsSend(e, id)
    requires IsFailure(e, id) ==> Sends(log, id) <= 1 || Failures(log, id) > 0
    ensures SendsBounded(Then(log, e), id, expiresAt)
  {
  }

  lemma LoadFlights(q: Queues, id: int, u: Update, x: int)
    requires q.Consistent() && id !in q.updates && x in q.updates
    ensures InFlight(q.Load(id, u), x) <==> InFlight(q, x)
  {
  }

  lemma LoadNotFlying(q: Queues, id: int, u: Update)
    requires q.Consistent() && id !in q.updates
    ensures !InFlight(q.Load(id, u), id)
  {
  }

  lemma LoadMatches(log: Log, q: Queues, n: Queues, horizon: int, clock: int, id: int, u: Update, now: int)
    requires Matches(log, q, horizon, clock) && clock <= now
    requires horizon <= id && u.delay == 1 && u.failCount == 0
    requires n.updates == q.updates[id := u] && !InFlight(n, id)
    requires forall x | x in q.updates :: InFlight(n, x) <==> InFlight(q, x)
    ensures Matches(Then(log, Load(id, u.queueId, u.expiresAt)), n, id + 1, now)
  {
    var e := Load(id, u.queueId, u.expiresAt);
    assert forall p | log.Has(p) :: Recorded(log, q, horizon, p);
    NeverMentioned(log, id, u.wakeupAt);
    forall x | x in n.updates ensures Tracks(Then(log, e), n, now, x) {
      if x != id {
        BelowHorizon(log, q, horizon, clock, x);
        OthersTracked(log, q, n, clock, now, e, x);
      }
    }
    forall p | Then(log, e).Has(p) ensures Recorded(Then(log, e), n, id + 1, p) {
      if p != e {
        assert log.Has(p) && Recorded(log, q, horizon, p);
        if p.Load? { BoundKept(log, e, p.id, p.expiresAt); }
        OthersRecorded(log, q, n, horizon, id + 1, e, p);
      }
    }
  }

  /** The front of a queue may be sent. */
  lemma FrontMaySend(log: Log, q: Queues, horizon: int, clock: int, k: int, now: int)
    requires Matches(log, q, horizon, clock) && q.Consistent() && k in q.fifos && q.HasFront(k)
    requires k in q.place && !q.place[k].Flying? && q.Due(k) <= now
    ensures EntryOk(log, Send(q.Front(k), k, now))
  {
    var id := q.Front(k);
    AboutQueue(q, k);
    assert Tracks(log, q, clock, id);
    assert log.Has(Load(id, k, q.updates[id].expiresAt));
    DueLater(log, id, q.Due(k), now);
    forall p | log.Has(p) && p.Load? && p.queueId == k && p.id < id ensures log.Has(Forget(p.id)) {
      assert Recorded(log, q, horizon, p);
      assert p.id in q.updates ==> q.UpdateOk(p.id);
    }
    forall p | log.Has(p) && p.Answer? && p.id == id ensures !p.ok {
      assert Recorded(log, q, horizon, p);
    }
  }

  lemma {:induction false} LoadedOnce(log: Log, p: Entry, r: Entry)
    requires ValidLog(log) && log.Has(p) && log.Has(r) && p.Load? && r.Load? && p.id == r.id
    ensures p == r
  {
    assert EntryOk(log.past, log.last);
    if log.past.Has(p) && log.past.Has(r) {
      LoadedOnce(log.past, p, r);
    }
  }

  /** The bound on the number of sends survives one more send. */
  lemma SentBound(log: Log, id: int, u: Update, e: Entry, clock: int, expiresAt: int)
    requires Counts(log, id, u, false, clock) && e.Send? && e.id == id && u.expiresAt == expiresAt
    ensures SendsBounded(Then(log, e), id, expiresAt)
  {
  }

  lemma SendTracks(log: Log, id: int, u: Update, e: Entry, clock: int, now: int)
    requires Counts(log, id, u, false, clock) && e.Send? && e.id == id && u.wakeupAt <= now
    ensures Counts(Then(log, e), id, u.(lastSendTime := now), true, now)
  {
  }

  lemma SendRecorded(log: Log, q: Queues, n: Queues, horizon: int, clock: int, e: Entry, p: Entry)
    requires Matches(log, q, horizon, clock) && e.Send? && e.id in q.updates && !InFlight(q, e.id) && log.Has(p)
    requires forall x | x in q.updates :: x in n.updates && n.updates[x].queueId == q.updates[x].queueId
    ensures Recorded(Then(log, e), n, horizon, p)
  {
    assert Recorded(log, q, horizon, p);
    BelowHorizon(log, q, horizon, clock, e.id);
    if p.Load? {
      if p.id == e.id {
        LoadedOnce(log, p, Load(e.id, q.updates[e.id].queueId, q.updates[e.id].expiresAt));
        SentBound(log, e.id, q.updates[e.id], e, clock, p.expiresAt);
      } else {
        BoundKept(log, e, p.id, p.expiresAt);
      }
    }
    OthersRecorded(log, q, n, horizon, horizon, e, p);
  }

  lemma SendMatches(log: Log, q: Queues, n: Queues, horizon: int, clock: int, k: int, now: int)
    requires Matches(log, q, horizon, clock) && q.Consistent() && clock <= now
    requires k in q.fifos && k in q.place && q.place[k] == Waiting && q.HasFront(k) && q.Due(k) <= now
    requires n.updates == q.updates[q.Front(k) := q.updates[q.Front(k)].(lastSendTime := now)]
    requires n.fifos == q.fifos && k in n.place && n.place[k].Flying? && n.place == q.place[k := n.place[k]]
    ensures Matches(Then(log, Send(q.Front(k), k, now)), n, horizon, now)
  {
    var id := q.Front(k);
    var e := Send(id, k, now);
    FrontMaySend(log, q, horizon, clock, k, now);
    AboutQueue(q, k);
    BelowHorizon(log, q, horizon, clock, id);
    SendTracks(log, id, q.updates[id], e, clock, now);
    forall x | x in n.updates ensures Tracks(Then(log, e), n, now, x) {
      if x != id {
        OthersTracked(log, q, n, clock, now, e, x);
      }
    }
    forall p | Then(log, e).Has(p) ensures Recorded(Then(log, e), n, horizon, p) {
      if p != e {
        SendRecorded(log, q, n, horizon, clock, e, p);
      }
    }
  }

  /** Nothing is logged when an update is not sent after all. */
  lemma HoldMatches(log: Log, q: Queues, n: Queues, horizon: int, clock: int, k: int, now: int)
    requires Matches(log, q, horizon, clock) && q.Consistent() && clock <= now
    requires k in q.fifos && k in q.place && q.place[k] == Waiting && q.HasFront(k)
    requires n.updates == q.updates[q.Front(k) := q.updates[q.Front(k)].(lastSendTime := now)]
    requires n.fifos == q.fifos && n.place == q.place[k := Held]
    ensures Matches(log, n, horizon, now)
  {
    forall x | x in n.updates ensures Tracks(log, n, now, x) {
      AboutQueue(q, k);
      BelowHorizon(log, q, horizon, clock, x);
    }
    forall p | log.Has(p) ensures Recorded(log, n, horizon, p) {
      assert Recorded(log, q, horizon, p);
    }
  }

  /** Connections that come and go without an event do not matter. */
  lemma IdleMatches(log: Log, q: Queues, n: Queues, horizon: int, clock: int, now: int)
    requires Matches(log, q, horizon, clock) && clock <= now
    requires n.updates == q.updates && n.fifos == q.fifos && n.place == q.place
    ensures Matches(log, n, horizon, now)
  {
  }

  // --- answers ---

  /** The delay stored and the delay applied after a failure. */
  function Backoff(u: Update, retryAfter: int, random: int): (int, int) {
    var asked := Max(0, Min(retryAfter, MAX_RETRY_AFTER));
    if asked == 0 && u.failCount > 0 then
      var next := Min(random, u.delay * 2);
      (next, next)
    else (u.delay, asked)
  }

  /** The stored delay stays in its range, doubles up to a minute when nothing else is asked for,
      and only the first retry can be immediate. */
  lemma BackoffKeeps(u: Update, plain: bool, retryAfter: int, random: int)
    requires DelayOk(u, plain) && RESEND_TIMEOUT <= random <= 2 * RESEND_TIMEOUT
    ensures var (next, wait) := Backoff(u, retryAfter, random);
      && 0 <= wait <= MAX_RETRY_AFTER && (u.failCount > 0 ==> 1 <= wait)
      && DelayOk(u.(delay := next, failCount := u.failCount + 1), plain && retryAfter <= 0)
  {
  }

  function AnswerTo(id: int, u: Update, ok: bool, now: int, retryAfter: int, wait: int): Entry {
    Answer(id, u.queueId, ok, now, Max(0, Min(retryAfter, MAX_RETRY_AFTER)), now + wait, u.expiresAt)
  }

  function Retried(u: Update, now: int, retryAfter: int, random: int): Update {
    u.(delay := Backoff(u, retryAfter, random).0, wakeupAt := now + Backoff(u, retryAfter, random).1,
       failCount := u.failCount + 1)
  }

  /** An answer may come for an event in flight; it uses up its send. */
  lemma AnswerOk(log: Log, q: Queues, horizon: int, clock: int, id: int, e: Entry)
    requires Matches(log, q, horizon, clock) && InFlight(q, id)
    requires e.Answer? && e.id == id && e.queueId == q.updates[id].queueId && e.expiresAt == q.updates[id].expiresAt
    ensures EntryOk(log, e) && id < horizon
  {
  }

  lemma AnswerBound(log: Log, q: Queues, horizon: int, clock: int, id: int, e: Entry, p: Entry)
    requires Matches(log, q, horizon, clock) && InFlight(q, id) && log.Has(p) && p.Load?
    requires e.Answer? && e.id == id
    ensures SendsBounded(Then(log, e), p.id, p.expiresAt)
  {
  }

  lemma RetryCounts(log: Log, id: int, u: Update, clock: int, now: int, retryAfter: int, random: int)
    requires Counts(log, id, u, true, clock) && clock <= now && RESEND_TIMEOUT <= random <= 2 * RESEND_TIMEOUT
    requires now + Backoff(u, retryAfter, random).1 <= u.expiresAt
    ensures Counts(Then(log, AnswerTo(id, u, false, now, retryAfter, Backoff(u, retryAfter, random).1)), id,
                   Retried(u, now, retryAfter, random), false, now)
  {
    BackoffKeeps(u, Plain(log, id), retryAfter, random);
    DueLater(log, id, u.wakeupAt, now + Backoff(u, retryAfter, random).1);
  }

  lemma RetryMatches(log: Log, q: Queues, n: Queues, horizon: int, clock: int, id: int,
                     now: int, retryAfter: int, random: int, e: Entry)
    requires Matches(log, q, horizon, clock) && clock <= now && InFlight(q, id)
    requires RESEND_TIMEOUT <= random <= 2 * RESEND_TIMEOUT
    requires now + Backoff(q.updates[id], retryAfter, random).1 <= q.updates[id].expiresAt
    requires e == AnswerTo(id, q.updates[id], false, now, retryAfter, Backoff(q.updates[id], retryAfter, random).1)
    requires n.updates == q.updates[id := Retried(q.updates[id], now, retryAfter, random)]
    requires n.fifos == q.fifos && n.place == q.place[q.updates[id].queueId := Waiting]
    ensures Matches(Then(log, e), n, horizon, now)
  {
    BelowHorizon(log, q, horizon, clock, id);
    AnswerOk(log, q, horizon, clock, id, e);
    RetryCounts(log, id, q.updates[id], clock, now, retryAfter, random);
    forall x | x in n.updates ensures Tracks(Then(log, e), n, now, x) {
      if x != id {
        OthersTracked(log, q, n, clock, now, e, x);
      }
    }
    forall p | Then(log, e).Has(p) ensures Recorded(Then(log, e), n, horizon, p) {
      if p != e {
        if p.Load? { AnswerBound(log, q, horizon, clock, id, e, p); }
        OthersRecorded(log, q, n, horizon, horizon, e, p);
      }
    }
  }

  lemma DoneRecorded(log: Log, q: Queues, n: Queues, horizon: int, clock: int, id: int, e: Entry, p: Entry)
    requires Matches(log, q, horizon, clock) && InFlight(q, id) && log.Has(p)
    requires e.Answer? && e.id == id && n.updates == q.updates - {id}
    ensures Recorded(Then(Then(log, e), Forget(id)), n, horizon, p)
  {
  }

  /** An update leaves for good: its last answer, then Forget. */
  lemma DoneMatches(log: Log, q: Queues, n: Queues, horizon: int, clock: int, id: int, now: int, e: Entry)
    requires Matches(log, q, horizon, clock) && clock <= now && InFlight(q, id)
    requires e.Answer? && e.id == id && e.queueId == q.updates[id].queueId && e.expiresAt == q.updates[id].expiresAt
    requires e.ok || e.due > e.expiresAt
    requires n.updates == q.updates - {id}
    requires forall x | x in n.updates :: InFlight(n, x) <==> InFlight(q, x)
    ensures Matches(Then(Then(log, e), Forget(id)), n, horizon, now)
  {
    var f, mid := Forget(id), Then(log, e);
    AnswerOk(log, q, horizon, clock, id, e);
    assert ValidLog(Then(mid, f)) by {
      BelowHorizon(log, q, horizon, clock, id);
    }
    forall x | x in n.updates ensures Tracks(Then(mid, f), n, now, x) {
      BelowHorizon(log, q, horizon, clock, x);
      OthersTracked(log, q, q, clock, now, e, x);
      OthersTracked(mid, q, n, now, now, f, x);
    }
    forall p | Then(mid, f).Has(p) ensures Recorded(Then(mid, f), n, horizon, p) {
      if log.Has(p) {
        DoneRecorded(log, q, n, horizon, clock, id, e, p);
      } else {
        assert p == f || mid.Has(p);
        assert p == f || p == e;
      }
    }
  }

  // --- what a valid log says ---

  ghost predicate Prefix(p: Log, log: Log) {
    p == log || (log.Then? && Prefix(p, log.past))
  }

  lemma {:induction false} PrefixValid(p: Log, log: Log)
    requires ValidLog(log) && Prefix(p, log)
    ensures ValidLog(p)
  {
    if p != log { PrefixValid(p, log.past); }
  }

  lemma {:induction false} PrefixHas(p: Log, log: Log, e: Entry)
    requires Prefix(p, log) && p.Has(e)
    ensures log.Has(e)
  {
    if p != log { PrefixHas(p, log.past, e); }
  }

  /** At any moment of a run: whatever is sent was loaded, everything of its queue loaded before
      it is forgotten, its retry is due, and it is never sent again once it was accepted or forgotten. */
  lemma {:induction false} SentInOrder(log: Log, p: Log)
    requires ValidLog(log) && Prefix(p, log) && p.Then? && p.last.Send?
    ensures exists x :: p.past.Has(Load(p.last.id, p.last.queueId, x))
    ensures forall e | p.past.Has(e) && e.Load? && e.queueId == p.last.queueId && e.id < p.last.id ::
      p.past.Has(Forget(e.id))
    ensures forall e | p.past.Has(e) && e.Answer? && e.ok :: e.id != p.last.id
    ensures !p.past.Has(Forget(p.last.id)) && DueBy(p.past, p.last.id, p.last.at)
  {
    PrefixValid(p, log);
  }

  /** Two sends of one queue are in the order in which their events were loaded. */
  lemma {:induction false} SendsAscend(log: Log, e: Entry)
    requires ValidLog(log) && log.Then? && log.last.Send? && log.past.Has(e) && e.Send? && e.queueId == log.last.queueId
    ensures e.id <= log.last.id
  {
    assert EntryOk(log.past, log.last);
    var x :| log.past.Has(Load(log.last.id, log.last.queueId, x));
    FirstLoaded(log.past, e, Load(log.last.id, log.last.queueId, x));
  }

  /** While a loaded event is not forgotten, no later event of its queue has been sent. */
  lemma {:induction false} FirstLoaded(log: Log, e: Entry, l: Entry)
    requires ValidLog(log) && log.Has(e) && e.Send? && log.Has(l) && l.Load? && l.queueId == e.queueId
    requires !log.Has(Forget(l.id))
    ensures e.id <= l.id
  {
    assert EntryOk(log.past, log.last);
    if log.last == l {
      LoadedBelow(log.past, e);
    } else if log.last != e || log.past.Has(e) {
      FirstLoaded(log.past, e, l);
    }
  }

  lemma {:induction false} LoadedBelow(log: Log, e: Entry)
    requires ValidLog(log) && log.Has(e) && e.Send?
    ensures exists l :: log.Has(l) && l.Load? && l.id == e.id
  {
    if log.past.Has(e) {
      LoadedBelow(log.past, e);
      var l :| log.past.Has(l) && l.Load? && l.id == e.id;
      assert log.Has(l);
    } else {
      assert EntryOk(log.past, log.last);
      var x :| log.past.Has(Load(e.id, e.queueId, x));
      assert log.Has(Load(e.id, e.queueId, x));
    }
  }

  /** An event is forgotten at most once, right after an answer that was a success or after which
      the next retry would have passed the expiry. */
  lemma {:induction false} ForgottenOnce(log: Log, p: Log)
    requires ValidLog(log) && Prefix(p, log) && p.Then? && p.last.Forget?
    ensures !p.past.Has(p.last)
    ensures p.past.Then? && p.past.last.Answer? && p.past.last.id == p.last.id
    ensures p.past.last.ok || p.past.last.due > p.past.last.expiresAt
  {
    PrefixValid(p, log);
  }
}
