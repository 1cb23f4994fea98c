/** `BufferedFdQueue`: the ring with a reader that goes to sleep on an eventfd.  Two threads
    take atomic steps in any order, under sequential consistency; a thread's position in its
    code is its program counter. */
module SleepingQueue {
  import opened Common
  import opened SpscRing

  datatype WriterPc =
    | WIdle
    | WTest(v: int, flush: bool)
    | WRefresh(v: int, flush: bool)
    | WStore(v: int, flush: bool)
    | WPublish
    | WTestFlag
    | WSignal
    | WFatal

  /** `get()` returns a value, `wait_reader()` only waits until there is one. */
  datatype Op = Get | Wait

  datatype ReaderPc =
    | RIdle
    | RTest
    | RSpin(op: Op)
    | RSetFlag(op: Op)
    | RRecheck(op: Op)
    | RBlock(op: Op)
    | RClearFlag(op: Op)
    | RLoad(flush: bool)
    | RRelease

  datatype State = State(ring: Ring, h: History, waitFlag: bool, eventfd: nat, w: WriterPc, r: ReaderPc)

  datatype Action =
    | CallPut(v: int, flush: bool)
    | CallFlushWriter
    | WriterStep
    | CallGet
    | CallWait
    | CallGetUnsafe(flush: bool)
    | CallFlushReader
    | ReaderStep(giveUp: bool)

  function WithReady(s: State, op: Op): State {
    s.(r := if op == Get then RLoad(true) else RIdle)
  }

  function StepWriter(s: State): Option<State>
    requires |s.ring.slots| == SIZE
  {
    match s.w
    case WIdle => None
    case WTest(v, flush) =>
      Some(s.(w := if s.ring.WriterEmpty() then WRefresh(v, flush) else WStore(v, flush)))
    case WRefresh(v, flush) =>
      var t := s.(ring := s.ring.UpdateWriter(), h := s.h.(seenReleased := s.h.released));
      Some(t.(w := if t.ring.WriterReady() == 0 then WFatal else WStore(v, flush)))
    case WStore(v, flush) =>
      Some(s.(ring := s.ring.PutUnsafe(v), h := s.h.(puts := s.h.puts + [v]), w := if flush then WPublish else WIdle))
    case WPublish =>
      Some(s.(ring := s.ring.FlushWriter(), h := s.h.(published := |s.h.puts|), w := WTestFlag))
    case WTestFlag => Some(s.(w := if s.waitFlag then WSignal else WIdle))
    case WSignal => Some(s.(eventfd := s.eventfd + 1, w := WIdle))
    case WFatal => None
  }

  function Refreshed(s: State): State {
    s.(ring := s.ring.UpdateReader(), h := s.h.(seenPublished := s.h.published))
  }

  /** The blocking read of the eventfd waits for a positive counter and resets it. */
  function StepReader(s: State, giveUp: bool): Option<State>
    requires |s.ring.slots| == SIZE
  {
    match s.r
    case RIdle => None
    case RTest => Some(if s.ring.ReaderEmpty() then s.(r := RSpin(Get)) else s.(r := RLoad(true)))
    case RSpin(op) =>
      if giveUp then Some(s.(r := RSetFlag(op)))
      else
        var t := Refreshed(s);
        Some(if t.ring.ReaderReady() != 0 then WithReady(t, op) else t)
    case RSetFlag(op) => Some(s.(waitFlag := true, r := RRecheck(op)))
    case RRecheck(op) =>
      var t := Refreshed(s);
      Some(t.(r := if t.ring.ReaderReady() != 0 then RClearFlag(op) else RBlock(op)))
    case RBlock(op) => if s.eventfd > 0 then Some(s.(eventfd := 0, r := RRecheck(op))) else None
    case RClearFlag(op) => Some(WithReady(s.(waitFlag := false), op))
    case RLoad(flush) =>
      var (ring, v) := s.ring.GetUnsafe();
      Some(s.(ring := ring, h := s.h.(gots := s.h.gots + [v]), r := if flush then RRelease else RIdle))
    case RRelease => Some(s.(ring := s.ring.FlushReader(), h := s.h.(released := |s.h.gots|), r := RIdle))
  }

  /** One atomic step; `None` when it is not possible.  `get_unsafe` may only be called on a
      ring the reader knows to be non-empty. */
  function Next(s: State, a: Action): Option<State>
    requires |s.ring.slots| == SIZE
  {
    match a
    case CallPut(v, flush) => if s.w.WIdle? then Some(s.(w := WTest(v, flush))) else None
    case CallFlushWriter => if s.w.WIdle? then Some(s.(w := WPublish)) else None
    case WriterStep => StepWriter(s)
    case CallGet => if s.r.RIdle? then Some(s.(r := RTest)) else None
    case CallWait => if s.r.RIdle? then Some(s.(r := RSpin(Wait))) else None
    case CallGetUnsafe(flush) => if s.r.RIdle? && !s.ring.ReaderEmpty() then Some(s.(r := RLoad(flush))) else None
    case CallFlushReader => if s.r.RIdle? then Some(s.(r := RRelease)) else None
    case ReaderStep(giveUp) => StepReader(s, giveUp)
  }

  ghost predicate Init(s: State) {
    && |s.ring.slots| == SIZE && s.ring == Ring(s.ring.slots, 0, 0, 0, 0, 0, 0)
    && s.h == History([], [], 0, 0, 0, 0)
    && !s.waitFlag && s.eventfd == 0 && s.w == WIdle && s.r == RIdle
  }

  ghost predicate Asleep(r: ReaderPc) { r.RRecheck? || r.RBlock? || r.RClearFlag? }

  ghost predicate Inv(s: State) {
    && RingInv(s.ring, s.h)
    && (s.w.WStore? ==> !s.ring.WriterEmpty())
    && (s.r.RLoad? || s.r.RClearFlag? ==> !s.ring.ReaderEmpty())
    && (s.waitFlag <==> Asleep(s.r))
    && (s.r.RBlock? ==> s.ring.ReaderEmpty())
    && (s.r.RBlock? && s.eventfd == 0 ==> s.h.seenPublished == s.h.published || s.w.WTestFlag? || s.w.WSignal?)
  }

  lemma WriterKeeps(s: State)
    requires Inv(s) && StepWriter(s).Some?
    ensures Inv(StepWriter(s).value)
  {
    var t := StepWriter(s).value;
    TestsExact(s.ring, s.h);
    match s.w
    case WTest(v, flush) =>
    case WRefresh(v, flush) =>
      UpdateWriterKeeps(s.ring, s.h);
      TestsExact(t.ring, t.h);
    case WStore(v, flush) =>
      PutKeeps(s.ring, s.h, v);
    case WPublish =>
      FlushWriterKeeps(s.ring, s.h);
    case WTestFlag =>
    case WSignal =>
  }

  lemma ReaderKeeps(s: State, giveUp: bool)
    requires Inv(s) && StepReader(s, giveUp).Some?
    ensures Inv(StepReader(s, giveUp).value)
  {
    TestsExact(s.ring, s.h);
    match s.r
    case RTest =>
    case RSpin(op) =>
      UpdateReaderKeeps(s.ring, s.h);
      TestsExact(Refreshed(s).ring, Refreshed(s).h);
    case RSetFlag(op) =>
    case RRecheck(op) =>
      UpdateReaderKeeps(s.ring, s.h);
      TestsExact(Refreshed(s).ring, Refreshed(s).h);
    case RBlock(op) =>
    case RClearFlag(op) =>
    case RLoad(flush) =>
      GetKeeps(s.ring, s.h);
    case RRelease =>
      FlushReaderKeeps(s.ring, s.h);
  }

  lemma NextKeeps(s: State, a: Action)
    requires Inv(s) && Next(s, a).Some?
    ensures Inv(Next(s, a).value)
  {
    match a
    case WriterStep => WriterKeeps(s);
    case ReaderStep(giveUp) => ReaderKeeps(s, giveUp);
    case _ =>
  }

  /** Executing a schedule; a step that is not possible leaves the state alone. */
  ghost function Run(s: State, schedule: seq<Action>): State
    requires |s.ring.slots| == SIZE
    ensures |Run(s, schedule).ring.slots| == SIZE
  {
    if schedule == [] then s
    else
      var t := Run(s, schedule[..|schedule| - 1]);
      var a := schedule[|schedule| - 1];
      if Next(t, a).Some? then
        assert |Next(t, a).value.ring.slots| == SIZE;
        Next(t, a).value
      else t
  }

  lemma {:induction false} RunKeeps(s: State, schedule: seq<Action>)
    requires Init(s)
    ensures Inv(Run(s, schedule))
  {
    if schedule != [] {
      var before := schedule[..|schedule| - 1];
      RunKeeps(s, before);
      var t, a := Run(s, before), schedule[|schedule| - 1];
      if Next(t, a).Some? {
        NextKeeps(t, a);
      }
    }
  }

  /** Under every interleaving, however often the indices wrap: the values got are a prefix of
      the values published, and every value not yet read is in its slot. */
  lemma GotsArePrefix(s: State, schedule: seq<Action>)
    requires Init(s)
    ensures var t := Run(s, schedule);
      && |t.h.gots| <= t.h.published <= |t.h.puts| <= |t.h.gots| + SIZE
      && t.h.gots == t.h.puts[..|t.h.gots|]
      && forall k | |t.h.gots| <= k < |t.h.puts| :: t.ring.slots[k % SIZE] == t.h.puts[k]
  {
    RunKeeps(s, schedule);
  }

  /** A read of a slot always reads the value put at that position, and it has been published. */
  lemma ReadsArePublished(s: State, schedule: seq<Action>, giveUp: bool)
    requires Init(s) && Run(s, schedule).r.RLoad?
    ensures var t := Run(s, schedule);
      && |t.h.gots| < t.h.published <= |t.h.puts|
      && StepReader(t, giveUp).Some?
      && StepReader(t, giveUp).value.h.gots == t.h.gots + [t.h.puts[|t.h.gots|]]
  {
    RunKeeps(s, schedule);
    GetKeeps(Run(s, schedule).ring, Run(s, schedule).h);
  }

  /** "Put strong failed" is reported exactly when 1024 values put are not yet released. */
  lemma FatalIffFull(s: State, schedule: seq<Action>)
    requires Init(s) && Run(s, schedule).w.WRefresh?
    ensures var t := Run(s, schedule);
      && StepWriter(t).Some?
      && (StepWriter(t).value.w.WFatal? <==> |t.h.puts| - t.h.released == 1024)
  {
    RunKeeps(s, schedule);
    var t := Run(s, schedule);
    UpdateWriterKeeps(t.ring, t.h);
    TestsExact(StepWriter(t).value.ring, StepWriter(t).value.h);
  }

  /** A reader that sleeps although a published value is unread: no wake-up is lost. */
  ghost predicate Oversleeping(s: State) {
    s.r.RBlock? && s.eventfd == 0 && |s.h.gots| < s.h.published
  }

  /** Whenever the reader oversleeps, the writer stands between publishing and signalling.  Its
      next two steps cannot be prevented and make the eventfd readable; the reader then returns
      from the read, sees the value and leaves the loop. */
  lemma NoLostWakeUp(s: State, schedule: seq<Action>)
    requires Init(s) && Oversleeping(Run(s, schedule))
    ensures var t := Run(s, schedule);
      && (t.w.WTestFlag? || t.w.WSignal?)
      && (forall giveUp :: StepReader(t, giveUp).None?)
      && StepWriter(t).Some?
      && var u := if t.w.WTestFlag? then StepWriter(t).value else t;
      && u.w.WSignal? && u.r == t.r && Oversleeping(u)
      && StepWriter(u).Some?
      && var x := StepWriter(u).value;
      && x.eventfd == 1 && x.r == t.r
      && StepReader(x, false).Some?
      && var y := StepReader(x, false).value;
      && y.r.RRecheck? && StepReader(y, false).Some?
      && StepReader(y, false).value.r.RClearFlag?
  {
    RunKeeps(s, schedule);
    var t := Run(s, schedule);
    TestsExact(t.ring, t.h);
    var u := if t.w.WTestFlag? then StepWriter(t).value else t;
    WriterKeeps(t);
    WriterKeeps(u);
    var x := StepWriter(u).value;
    ReaderKeeps(x, false);
    var y := StepReader(x, false).value;
    ReaderKeeps(y, false);
    TestsExact(Refreshed(y).ring, Refreshed(y).h);
  }

  /** The value a waiting reader sees stays unread until that reader takes it: between the
      recheck and the read of the slot nothing can make the ring look empty again. */
  lemma SeenStaysReadable(s: State, a: Action)
    requires Inv(s) && s.r.RClearFlag? && Next(s, a).Some?
    ensures var t := Next(s, a).value;
      if a.ReaderStep? then !t.waitFlag && !t.ring.ReaderEmpty() else t.r == s.r && !t.ring.ReaderEmpty()
  {
  }
}
