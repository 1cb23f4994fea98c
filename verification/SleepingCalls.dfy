/** What a finished call of the sleeping queue has done, whatever the other thread did meanwhile. */
module SleepingCalls {
  import opened Common
  import opened SpscRing
  import opened SleepingQueue

  // --- the reader ---

  /** The call has been made in s and t is a state before it returns. */
  ghost predicate ReaderInside(s: State, call: Action, t: State) {
    && t.h.released == s.h.released
    && match call
       case CallGet =>
         if t.r.RRelease? then TookOne(s, t) else t.h.gots == s.h.gots && GetsNext(t.r)
       case CallWait => t.h.gots == s.h.gots && WaitsNext(t.r)
       case CallGetUnsafe(flush) =>
         if t.r.RRelease? then flush && TookOne(s, t) else t.h.gots == s.h.gots && t.r == RLoad(flush)
       case CallFlushReader => t.h.gots == s.h.gots && t.r.RRelease?
       case _ => false
  }

  predicate GetsNext(r: ReaderPc) {
    r == RTest || r == RLoad(true) || (Sleeps(r) && r.op == Get)
  }

  predicate WaitsNext(r: ReaderPc) { Sleeps(r) && r.op == Wait }

  predicate Sleeps(r: ReaderPc) {
    r.RSpin? || r.RSetFlag? || r.RRecheck? || r.RBlock? || r.RClearFlag?
  }

  /** Exactly one value more was taken: the oldest one put that had not been taken before. */
  ghost predicate TookOne(s: State, t: State) {
    |s.h.gots| < t.h.published <= |t.h.puts| && t.h.gots == s.h.gots + [t.h.puts[|s.h.gots|]]
  }

  /** What the reader has when its call returns. */
  ghost predicate ReaderDone(s: State, call: Action, t: State) {
    match call
    case CallGet => TookOne(s, t) && t.h.released == |t.h.gots|
    case CallWait =>
      t.h.gots == s.h.gots && t.h.released == s.h.released && |t.h.gots| < t.h.published && !t.ring.ReaderEmpty()
    case CallGetUnsafe(flush) =>
      TookOne(s, t) && t.h.released == if flush then |t.h.gots| else s.h.released
    case CallFlushReader => t.h.gots == s.h.gots && t.h.released == |t.h.gots|
    case _ => false
  }

  lemma ReaderBegins(s: State, call: Action)
    requires Inv(s) && s.r.RIdle? && Next(s, call).Some? && !Next(s, call).value.r.RIdle?
    ensures ReaderInside(s, call, Next(s, call).value)
  {
  }

  lemma TakesNext(s: State, t: State, giveUp: bool)
    requires Inv(t) && t.r.RLoad? && t.h.gots == s.h.gots
    ensures StepReader(t, giveUp).Some? && TookOne(s, StepReader(t, giveUp).value)
    ensures StepReader(t, giveUp).value.h.released == t.h.released
    ensures StepReader(t, giveUp).value.r == if t.r.flush then RRelease else RIdle
  {
    GetKeeps(t.ring, t.h);
    TestsExact(t.ring, t.h);
  }

  /** A step of a reader that waits takes nothing; it goes on when there is something to take. */
  lemma WaitsOn(t: State, giveUp: bool)
    requires Inv(t) && (t.r.RTest? || Sleeps(t.r)) && StepReader(t, giveUp).Some?
    ensures var n := StepReader(t, giveUp).value;
      && n.h.gots == t.h.gots && n.h.released == t.h.released
      && if t.r.RTest? then n.r == RLoad(true) || n.r == RSpin(Get)
         else (Sleeps(n.r) && n.r.op == t.r.op) || n.r == if t.r.op == Get then RLoad(true) else RIdle
  {
  }

  lemma SeesMore(t: State, giveUp: bool)
    requires Inv(t) && Sleeps(t.r) && StepReader(t, giveUp).Some? && StepReader(t, giveUp).value.r.RIdle?
    ensures var n := StepReader(t, giveUp).value; |n.h.gots| < n.h.published && !n.ring.ReaderEmpty()
  {
    ReaderKeeps(t, giveUp);
    TestsExact(StepReader(t, giveUp).value.ring, StepReader(t, giveUp).value.h);
  }

  lemma ReleasesAll(t: State, giveUp: bool)
    requires |t.ring.slots| == SIZE && t.r.RRelease?
    ensures StepReader(t, giveUp).Some?
    ensures var n := StepReader(t, giveUp).value;
      n.r.RIdle? && n.h.gots == t.h.gots && n.h.released == |t.h.gots| && n.h.puts == t.h.puts &&
        n.h.published == t.h.published
  {
  }

  /** A step of the reader inside its call. */
  lemma ReaderMoves(s: State, call: Action, t: State, giveUp: bool)
    requires Inv(t) && ReaderInside(s, call, t) && StepReader(t, giveUp).Some?
    ensures var n := StepReader(t, giveUp).value;
      if n.r.RIdle? then ReaderDone(s, call, n) else ReaderInside(s, call, n)
  {
    if t.r.RLoad? {
      TakesNext(s, t, giveUp);
    } else if t.r.RRelease? {
      ReleasesAll(t, giveUp);
    } else {
      WaitsOn(t, giveUp);
      if StepReader(t, giveUp).value.r.RIdle? {
        SeesMore(t, giveUp);
      }
    }
  }

  /** A step of the writer is not seen by the reader's call. */
  lemma WriterAside(s: State, call: Action, t: State, a: Action)
    requires Inv(t) && ReaderInside(s, call, t) && Next(t, a).Some? && !a.ReaderStep?
    ensures ReaderInside(s, call, Next(t, a).value) && !t.r.RIdle?
  {
  }

  /** The reader's call has not returned before the end of the schedule. */
  ghost predicate ReaderBusy(u: State, schedule: seq<Action>)
    requires |u.ring.slots| == SIZE
  {
    forall n | 0 <= n < |schedule| :: !Run(u, schedule[..n]).r.RIdle?
  }

  lemma {:induction false} RunFrom(s: State, schedule: seq<Action>)
    requires Inv(s)
    ensures Inv(Run(s, schedule))
  {
    if schedule != [] {
      var before := schedule[..|schedule| - 1];
      RunFrom(s, before);
      var t, a := Run(s, before), schedule[|schedule| - 1];
      if Next(t, a).Some? {
        NextKeeps(t, a);
      }
    }
  }

  lemma {:induction false} ReaderCall(s: State, call: Action, u: State, schedule: seq<Action>)
    requires Inv(s) && s.r.RIdle? && Next(s, call) == Some(u) && !u.r.RIdle? && |u.ring.slots| == SIZE
    requires ReaderBusy(u, schedule)
    ensures var t := Run(u, schedule); if t.r.RIdle? then ReaderDone(s, call, t) else ReaderInside(s, call, t)
  {
    NextKeeps(s, call);
    if schedule == [] {
      ReaderBegins(s, call);
    } else {
      var n := |schedule| - 1;
      var before, a := schedule[..n], schedule[n];
      forall m | 0 <= m < n ensures !Run(u, before[..m]).r.RIdle? {
        assert before[..m] == schedule[..m];
      }
      ReaderCall(s, call, u, before);
      RunFrom(u, before);
      var t := Run(u, before);
      assert !t.r.RIdle?;
      if Next(t, a).Some? {
        if a.ReaderStep? {
          ReaderMoves(s, call, t, a.giveUp);
        } else {
          WriterAside(s, call, t, a);
        }
      }
    }
  }

  /** `get` takes and releases exactly one value, the oldest that was not taken before. */
  lemma GetTakesOne(s: State, u: State, schedule: seq<Action>)
    requires Inv(s) && Next(s, CallGet) == Some(u) && |u.ring.slots| == SIZE
    requires ReaderBusy(u, schedule) && Run(u, schedule).r.RIdle?
    ensures var t := Run(u, schedule);
      && |s.h.gots| < t.h.published <= |t.h.puts|
      && t.h.gots == s.h.gots + [t.h.puts[|s.h.gots|]] && t.h.released == |t.h.gots|
  {
    ReaderCall(s, CallGet, u, schedule);
  }

  /** `wait_reader` takes and releases nothing, and there is something to take when it returns. */
  lemma WaitTakesNone(s: State, u: State, schedule: seq<Action>)
    requires Inv(s) && Next(s, CallWait) == Some(u) && |u.ring.slots| == SIZE
    requires ReaderBusy(u, schedule) && Run(u, schedule).r.RIdle?
    ensures var t := Run(u, schedule);
      && t.h.gots == s.h.gots && t.h.released == s.h.released
      && |t.h.gots| < t.h.published && !t.ring.ReaderEmpty()
  {
    ReaderCall(s, CallWait, u, schedule);
  }

  /** `get_unsafe` takes one value, and releases all that were taken exactly when it is to flush. */
  lemma GetUnsafeTakesOne(s: State, flush: bool, u: State, schedule: seq<Action>)
    requires Inv(s) && Next(s, CallGetUnsafe(flush)) == Some(u) && |u.ring.slots| == SIZE
    requires ReaderBusy(u, schedule) && Run(u, schedule).r.RIdle?
    ensures var t := Run(u, schedule);
      && |s.h.gots| < t.h.published <= |t.h.puts| && t.h.gots == s.h.gots + [t.h.puts[|s.h.gots|]]
      && t.h.released == if flush then |t.h.gots| else s.h.released
  {
    ReaderCall(s, CallGetUnsafe(flush), u, schedule);
  }

  /** `flush_reader` releases all that was taken. */
  lemma FlushReleases(s: State, u: State, schedule: seq<Action>)
    requires Inv(s) && Next(s, CallFlushReader) == Some(u) && |u.ring.slots| == SIZE
    requires ReaderBusy(u, schedule) && Run(u, schedule).r.RIdle?
    ensures var t := Run(u, schedule); t.h.gots == s.h.gots && t.h.released == |t.h.gots|
  {
    ReaderCall(s, CallFlushReader, u, schedule);
  }

  // --- the writer ---

  /** The writer's call has been made in s and t is a state before it returns. */
  ghost predicate WriterInside(s: State, call: Action, t: State) {
    match call
    case CallPut(v, flush) =>
      if PutsNext(t.w, v, flush) || t.w.WFatal? then t.h.puts == s.h.puts && t.h.published == s.h.published
      else flush && t.h.puts == s.h.puts + [v] && Publishing(s, t)
    case CallFlushWriter => t.h.puts == s.h.puts && Publishing(s, t)
    case _ => false
  }

  predicate PutsNext(w: WriterPc, v: int, flush: bool) {
    w == WTest(v, flush) || w == WRefresh(v, flush) || w == WStore(v, flush)
  }

  /** First all values put are published, then the reader's flag is looked at. */
  ghost predicate Publishing(s: State, t: State) {
    || (t.w.WPublish? && t.h.published == s.h.published)
    || ((t.w.WTestFlag? || t.w.WSignal?) && t.h.published == |t.h.puts|)
  }

  ghost predicate WriterDone(s: State, call: Action, t: State) {
    match call
    case CallPut(v, flush) =>
      t.h.puts == s.h.puts + [v] && t.h.published == if flush then |t.h.puts| else s.h.published
    case CallFlushWriter => t.h.puts == s.h.puts && t.h.published == |t.h.puts|
    case _ => false
  }

  lemma WriterMoves(s: State, call: Action, t: State)
    requires Inv(t) && WriterInside(s, call, t) && StepWriter(t).Some?
    ensures var n := StepWriter(t).value;
      if n.w.WIdle? then WriterDone(s, call, n) else WriterInside(s, call, n)
  {
  }

  lemma ReaderAside(s: State, call: Action, t: State, a: Action)
    requires Inv(t) && WriterInside(s, call, t) && Next(t, a).Some? && !a.WriterStep?
    ensures WriterInside(s, call, Next(t, a).value) && !t.w.WIdle?
  {
  }

  ghost predicate WriterBusy(u: State, schedule: seq<Action>)
    requires |u.ring.slots| == SIZE
  {
    forall n | 0 <= n < |schedule| :: !Run(u, schedule[..n]).w.WIdle?
  }

  lemma {:induction false} WriterCall(s: State, call: Action, u: State, schedule: seq<Action>)
    requires Inv(s) && s.w.WIdle? && Next(s, call) == Some(u) && !u.w.WIdle? && |u.ring.slots| == SIZE
    requires WriterBusy(u, schedule)
    ensures var t := Run(u, schedule); if t.w.WIdle? then WriterDone(s, call, t) else WriterInside(s, call, t)
  {
    NextKeeps(s, call);
    if schedule != [] {
      var n := |schedule| - 1;
      var before, a := schedule[..n], schedule[n];
      forall m | 0 <= m < n ensures !Run(u, before[..m]).w.WIdle? {
        assert before[..m] == schedule[..m];
      }
      WriterCall(s, call, u, before);
      RunFrom(u, before);
      var t := Run(u, before);
      assert !t.w.WIdle?;
      if Next(t, a).Some? {
        if a.WriterStep? {
          WriterMoves(s, call, t);
        } else {
          ReaderAside(s, call, t, a);
        }
      }
    }
  }

  /** A put that returns has added its value, and published all values exactly when it is to flush. */
  lemma PutAddsOne(s: State, v: int, flush: bool, u: State, schedule: seq<Action>)
    requires Inv(s) && Next(s, CallPut(v, flush)) == Some(u) && |u.ring.slots| == SIZE
    requires WriterBusy(u, schedule) && Run(u, schedule).w.WIdle?
    ensures var t := Run(u, schedule);
      t.h.puts == s.h.puts + [v] && t.h.published == if flush then |t.h.puts| else s.h.published
  {
    WriterCall(s, CallPut(v, flush), u, schedule);
  }

  /** The eventfd is written to exactly when the reader stands between setting its flag and
      clearing it. */
  lemma SignalsIffWaited(s: State)
    requires Inv(s) && s.w.WTestFlag?
    ensures StepWriter(s).Some? && StepWriter(s).value.eventfd == s.eventfd
    ensures var n := StepWriter(s).value;
      if s.r.RRecheck? || s.r.RBlock? || s.r.RClearFlag? then
        n.w.WSignal? && StepWriter(n).Some? && StepWriter(n).value.eventfd == s.eventfd + 1
      else n.w.WIdle?
  {
  }

  /** `flush_writer` publishes all values. */
  lemma FlushPublishes(s: State, u: State, schedule: seq<Action>)
    requires Inv(s) && Next(s, CallFlushWriter) == Some(u) && |u.ring.slots| == SIZE
    requires WriterBusy(u, schedule) && Run(u, schedule).w.WIdle?
    ensures var t := Run(u, schedule); t.h.puts == s.h.puts && t.h.published == |t.h.puts|
  {
    WriterCall(s, CallFlushWriter, u, schedule);
  }
}
