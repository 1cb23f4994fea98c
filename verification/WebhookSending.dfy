/** When the sending loop ends, and what it leaves behind. */
module WebhookSending {
  import opened WebhookSpec
  import opened WebhookRuns

  /** No update could be sent now, and the actor will wake up when one can. */
  ghost predicate NothingToSend(s: State, now: int) {
    s.queues.ready == [] || forall w | w in s.queues.wakeups :: now < w.0 && 0 < s.timer <= w.0
  }

  /** The result of the last attempt to send. */
  ghost function LastOutcome(s: State, now: int): (r: SendResult)
    requires s.Sendable()
    ensures r != Sent
    decreases |s.queues.ready|
  {
    if s.Outcome(now) == Sent then
      StillSendable(s, First(s.queues.wakeups).1, now);
      LastOutcome(s.SendOne(now), now)
    else s.Outcome(now)
  }

  lemma WaitsForFirst(s: State, now: int, w: (int, int))
    requires IsFirst(s.queues.wakeups, w) && 0 <= now < w.0 && 0 <= s.timer
    ensures NothingToSend(s.Relax(w.0), now)
  {
    forall v | v in s.queues.wakeups ensures w.0 <= v.0 {
      assert Before(w, v);
    }
  }

  ghost predicate Fits(s: State, k: int)
    requires s.queues.HasFront(k)
  {
    s.queues.updates[s.queues.Front(k)].headerFits
  }

  /** The three ways in which an attempt with an idle connection and a waiting queue goes. */
  lemma SendAllIs(s: State, now: int, w: (int, int))
    requires s.Sendable() && s.queues.ready != [] && s.queues.wakeups != {} && w == First(s.queues.wakeups)
    ensures s.queues.HasFront(w.1) && s.queues.ready[0] in s.queues.connections && IsFirst(s.queues.wakeups, w)
    ensures now < w.0 ==> LastOutcome(s, now) == NotYet && s.SendAll(now) == s.Relax(w.0)
    ensures w.0 <= now && !Fits(s, w.1) ==>
      LastOutcome(s, now) == HeaderTooLong && s.SendAll(now) == s.HoldFront(w.1, now)
    ensures w.0 <= now && Fits(s, w.1) ==>
      && s.SendFront(w.1, now).Sendable() && |s.SendFront(w.1, now).queues.ready| < |s.queues.ready|
      && LastOutcome(s, now) == LastOutcome(s.SendFront(w.1, now), now)
      && s.SendAll(now) == s.SendFront(w.1, now).SendAll(now)
  {
    SendOneIs(s, now, w);
    StillSendable(s, w.1, now);
  }

  /** After the sending loop no update is left that could be sent now, and if updates only wait
      for their time, the actor is set to wake up no later than the first of them; unless the loop
      ended because a header did not fit. */
  lemma {:induction false} NothingLeftToSend(s: State, now: int)
    requires s.Sendable() && 0 <= now && 0 <= s.timer
    ensures LastOutcome(s, now) != HeaderTooLong ==> NothingToSend(s.SendAll(now), now)
    decreases |s.queues.ready|
  {
    if s.queues.ready != [] && s.queues.wakeups != {} {
      var w := First(s.queues.wakeups);
      SendAllIs(s, now, w);
      if now < w.0 {
        WaitsForFirst(s, now, w);
      } else if Fits(s, w.1) {
        NothingLeftToSend(s.SendFront(w.1, now), now);
      }
    }
  }

  // --- when a header ends the loop ---

  /** The wake-ups before and after w. */
  ghost function Earlier(ws: set<(int, int)>, w: (int, int)): set<(int, int)> {
    set v | v in ws && v != w && Before(v, w)
  }

  ghost function Later(ws: set<(int, int)>, w: (int, int)): set<(int, int)> {
    set v | v in ws && v != w && Before(w, v)
  }

  /** Queue w.1 is due, the header of its front does not fit, and there are more idle connections
      than queues to be woken before it. */
  ghost predicate StopsAt(s: State, w: (int, int)) {
    && w in s.queues.wakeups && w.0 <= s.clock && s.queues.HasFront(w.1) && !Fits(s, w.1)
    && |Earlier(s.queues.wakeups, w)| < |s.queues.ready|
  }

  /** The first queue at which the loop stops. */
  ghost predicate StopsFirstAt(s: State, w: (int, int)) {
    StopsAt(s, w) && forall v | StopsAt(s, v) :: Before(w, v)
  }

  lemma NoneEarlier(ws: set<(int, int)>, w: (int, int))
    requires IsFirst(ws, w)
    ensures Earlier(ws, w) == {} && Later(ws, w) == ws - {w}
  {
  }

  lemma WithoutFirst(ws: set<(int, int)>, f: (int, int), w: (int, int))
    requires IsFirst(ws, f) && w in ws && w != f
    ensures |Earlier(ws - {f}, w)| + 1 == |Earlier(ws, w)| && Later(ws - {f}, w) == Later(ws, w)
  {
    assert Earlier(ws, w) == Earlier(ws - {f}, w) + {f};
  }

  /** State t after queue f.1, the first of s, was sent. */
  ghost predicate SentFirst(s: State, f: (int, int), t: State) {
    && t.queues.wakeups == s.queues.wakeups - {f} && |t.queues.ready| + 1 == |s.queues.ready|
    && t.clock == s.clock && t.timer == s.timer
    && (forall k :: t.queues.HasFront(k) <==> s.queues.HasFront(k))
    && forall k | s.queues.HasFront(k) :: Fits(t, k) == Fits(s, k)
  }

  lemma SendingFirst(s: State, f: (int, int))
    requires Inv(s) && f in s.queues.wakeups && f.0 <= s.clock && s.queues.ready != []
    requires s.queues.HasFront(f.1) && Fits(s, f.1) && s.queues.ready[0] in s.queues.connections
    ensures Inv(s.SendFront(f.1, s.clock)) && SentFirst(s, f, s.SendFront(f.1, s.clock))
  {
    SendFrontKeeps(s, f);
    assert s.queues.WakeupOk(f);
    SentIs(s, f);
  }

  lemma SentIs(s: State, f: (int, int))
    requires s.queues.HasFront(f.1) && s.queues.Due(f.1) == f.0 && s.queues.ready != []
    requires s.queues.ready[0] in s.queues.connections
    ensures SentFirst(s, f, s.SendFront(f.1, s.clock))
  {
  }

  /** Sending the first queue does not change where the loop stops. */
  lemma StopsLater(s: State, f: (int, int), t: State)
    requires SentFirst(s, f, t) && IsFirst(s.queues.wakeups, f) && s.queues.HasFront(f.1) && Fits(s, f.1)
    ensures forall w :: StopsAt(s, w) <==> StopsAt(t, w)
  {
    forall w ensures StopsAt(s, w) <==> StopsAt(t, w) {
      if w in s.queues.wakeups && w != f {
        WithoutFirst(s.queues.wakeups, f, w);
      }
    }
  }

  lemma NoneDue(s: State, f: (int, int))
    requires IsFirst(s.queues.wakeups, f) && s.clock < f.0
    ensures forall w :: !StopsAt(s, w)
  {
    forall w | w in s.queues.wakeups ensures s.clock < w.0 {
      assert Before(f, w);
    }
  }

  lemma StopsHere(s: State, f: (int, int))
    requires IsFirst(s.queues.wakeups, f) && f.0 <= s.clock && s.queues.HasFront(f.1) && !Fits(s, f.1)
    requires s.queues.ready != []
    ensures StopsAt(s, f)
  {
    NoneEarlier(s.queues.wakeups, f);
  }

  /** The loop ends because a header does not fit exactly when there is a queue that stops it. */
  lemma {:induction false} HeaderEndsIff(s: State)
    requires Inv(s) && s.Sendable()
    ensures LastOutcome(s, s.clock) == HeaderTooLong <==> exists w :: StopsAt(s, w)
    decreases |s.queues.ready|
  {
    if s.queues.ready != [] && s.queues.wakeups != {} {
      var f := First(s.queues.wakeups);
      SendAllIs(s, s.clock, f);
      if s.clock < f.0 {
        NoneDue(s, f);
      } else if Fits(s, f.1) {
        SendingFirst(s, f);
        StopsLater(s, f, s.SendFront(f.1, s.clock));
        HeaderEndsIff(s.SendFront(f.1, s.clock));
      } else {
        StopsHere(s, f);
      }
    }
  }

  lemma HoldingFirst(s: State, f: (int, int))
    requires s.queues.Consistent() && IsFirst(s.queues.wakeups, f) && s.queues.HasFront(f.1)
    ensures var n := s.HoldFront(f.1, s.clock);
      n.queues.wakeups == Later(s.queues.wakeups, f) && n.timer == s.timer && n.queues.ready == s.queues.ready
  {
    assert s.queues.WakeupOk(f);
    NoneEarlier(s.queues.wakeups, f);
  }

  /** What it leaves behind then: every later queue, due or not, an idle connection, and no timer
      of its own. */
  lemma {:induction false} LeftBehind(s: State, w: (int, int))
    requires Inv(s) && s.Sendable() && StopsFirstAt(s, w)
    ensures var n := s.SendAll(s.clock);
      n.queues.ready != [] && n.queues.wakeups == Later(s.queues.wakeups, w) && n.timer == s.timer
    decreases |s.queues.ready|
  {
    var f := First(s.queues.wakeups);
    SendAllIs(s, s.clock, f);
    assert Before(f, w);
    if Fits(s, f.1) {
      SendingFirst(s, f);
      StopsLater(s, f, s.SendFront(f.1, s.clock));
      WithoutFirst(s.queues.wakeups, f, w);
      LeftBehind(s.SendFront(f.1, s.clock), w);
    } else {
      StopsHere(s, f);
      HoldingFirst(s, f);
    }
  }

  lemma FirstStop(s: State, w: (int, int))
    requires StopsAt(s, w)
    ensures exists f :: StopsFirstAt(s, f)
  {
    var ws := set v | v in s.queues.wakeups && StopsAt(s, v);
    assert w in ws;
    FirstExists(ws);
    var f :| IsFirst(ws, f);
    assert StopsFirstAt(s, f);
  }

  /** A queue that is due when the loop ends although a connection is idle. */
  ghost predicate DueLeft(s: State, v: (int, int)) {
    s.queues.ready != [] && v in s.queues.wakeups && v.0 <= s.clock
  }

  lemma DueLeftThen(s: State, f: (int, int), n: State, v: (int, int))
    requires StopsFirstAt(s, f) && n.clock == s.clock
    requires n.queues.ready != [] && n.queues.wakeups == Later(s.queues.wakeups, f)
    ensures DueLeft(n, v) <==>
      v in s.queues.wakeups && v.0 <= s.clock && exists w :: StopsAt(s, w) && v != w && Before(w, v)
  {
  }

  lemma NoDueLeft(n: State, v: (int, int))
    requires NothingToSend(n, n.clock)
    ensures !DueLeft(n, v)
  {
  }

  lemma SendAllClock(s: State)
    requires Inv(s) && s.Sendable()
    ensures s.SendAll(s.clock).clock == s.clock
  {
    SendAllKeeps(s);
  }

  /** A due queue is left behind beside an idle connection exactly when it comes after one at which
      the loop stops. */
  lemma DueLeftIff(s: State, v: (int, int))
    requires Inv(s) && s.Sendable() && 0 <= s.clock && 0 <= s.timer
    ensures DueLeft(s.SendAll(s.clock), v) <==>
      v in s.queues.wakeups && v.0 <= s.clock && exists w :: StopsAt(s, w) && v != w && Before(w, v)
  {
    SendAllClock(s);
    HeaderEndsIff(s);
    if w :| StopsAt(s, w) {
      FirstStop(s, w);
      var f :| StopsFirstAt(s, f);
      LeftBehind(s, f);
      DueLeftThen(s, f, s.SendAll(s.clock), v);
    } else {
      NothingLeftToSend(s, s.clock);
      NoDueLeft(s.SendAll(s.clock), v);
    }
  }
}
