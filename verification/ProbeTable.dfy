/** The insert-only hash table of the memory profiler: linear probing, a compare-and-swap on
    an empty slot, a size counter that lags behind the slots, and a fallback to one shared
    "unknown" backtrace when the table is half full.  Any number of threads take atomic steps
    in any order, under sequential consistency. */
module ProbeTable {
  import opened Common

  type Hash = nat   // 64 bits in the source; 0 marks an empty slot

  /** Where a thread is inside `get_ht_pos`.  `Done` has returned `pos`. */
  datatype Pc =
    | Idle
    | LoadSlot
    | CheckSize
    | CheckForced
    | Swap
    | Count
    | Done
    | LoadAssertFailed
    | UnreachableAbort

  /** `asked` is the hash of the call, `hash` the one being probed for: the fallback replaces it. */
  datatype Thread = Thread(pc: Pc, asked: Hash, hash: Hash, force: bool, pos: nat, wasOverflow: bool)

  datatype State = State(slots: seq<Hash>, size: nat, threads: seq<Thread>, unknown: Hash)

  function Probe(asked: Hash, hash: Hash, force: bool, m: nat): Thread
    requires m > 0
  {
    Thread(LoadSlot, asked, hash, force, hash % m, false)
  }

  function Set(s: State, i: nat, t: Thread): State
    requires i < |s.threads|
  {
    s.(threads := s.threads[i := t])
  }

  predicate InRange(s: State) {
    |s.slots| > 0 && forall i | 0 <= i < |s.threads| :: s.threads[i].pos < |s.slots|
  }

  /** One atomic step of thread i inside its call. */
  function Step(s: State, i: nat): State
    requires InRange(s) && i < |s.threads|
  {
    var t := s.threads[i];
    var m := |s.slots|;
    match t.pc
    case LoadSlot =>
      if s.slots[t.pos] == 0 then Set(s, i, t.(pc := CheckSize))
      else if s.slots[t.pos] == t.hash then Set(s, i, t.(pc := Done))
      else if t.pos + 1 < m then Set(s, i, t.(pos := t.pos + 1))
      else if t.wasOverflow then Set(s, i, t.(pos := 0, pc := UnreachableAbort))
      else Set(s, i, t.(pos := 0, wasOverflow := true))
    case CheckSize =>
      if s.size <= m / 2 then Set(s, i, t.(pc := Swap))
      else if t.force then Set(s, i, t.(pc := CheckForced))
      else Set(s, i, Probe(t.asked, s.unknown, true, m))
    case CheckForced =>
      Set(s, i, t.(pc := if s.size * 10 < m * 7 then Swap else LoadAssertFailed))
    case Swap =>
      if s.slots[t.pos] == 0 then Set(s.(slots := s.slots[t.pos := t.hash]), i, t.(pc := Count))
      else Set(s, i, t.(pc := LoadSlot))
    case Count => Set(s.(size := s.size + 1), i, t.(pc := Done))
    case _ => s
  }

  /** A thread that is not inside a call starts one for a non-zero hash. */
  function Call(s: State, i: nat, hash: Hash): State
    requires InRange(s) && i < |s.threads|
  {
    if hash != 0 && (s.threads[i].pc.Idle? || s.threads[i].pc.Done?)
    then Set(s, i, Probe(hash, hash, false, |s.slots|)) else s
  }

  datatype Action = Start(i: nat, hash: Hash) | Advance(i: nat)

  function Next(s: State, a: Action): State
    requires InRange(s)
  {
    if a.i >= |s.threads| then s
    else match a
      case Start(i, hash) => Call(s, i, hash)
      case Advance(i) => Step(s, i)
  }

  ghost predicate Init(s: State) {
    && |s.slots| > 0 && (forall p | 0 <= p < |s.slots| :: s.slots[p] == 0) && s.size == 0 && s.unknown != 0
    && forall i | 0 <= i < |s.threads| :: s.threads[i].pc.Idle? && s.threads[i].pos == 0
  }

  // --- probe paths ---

  /** q is passed on the way from start to p, going round at the end of the table. */
  predicate Between(start: nat, q: nat, p: nat) {
    if start <= p then start <= q < p else start <= q || q < p
  }

  /** The slots a thread has looked at and passed. */
  predicate Passed(t: Thread, m: nat, q: nat)
    requires m > 0
  {
    if t.wasOverflow then t.hash % m <= q < m || q < t.pos else t.hash % m <= q < t.pos
  }

  /** The way to p from where its hash starts has no gap, and the hash is not on it. */
  ghost predicate PathFull(slots: seq<Hash>, p: nat)
    requires p < |slots|
  {
    forall q | 0 <= q < |slots| && Between(slots[p] % |slots|, q, p) :: slots[q] != 0 && slots[q] != slots[p]
  }

  ghost predicate NoGaps(slots: seq<Hash>) {
    forall p | 0 <= p < |slots| && slots[p] != 0 :: PathFull(slots, p)
  }

  predicate Probing(pc: Pc) { pc.LoadSlot? || pc.CheckSize? || pc.CheckForced? || pc.Swap? }

  ghost predicate ThreadOk(s: State, t: Thread)
    requires |s.slots| > 0
  {
    var m := |s.slots|;
    && t.pos < m
    && (Probing(t.pc) || t.pc.Count? || t.pc.Done? ==>
      t.hash != 0 && (if t.force then t.hash == s.unknown else t.hash == t.asked))
    && (Probing(t.pc) ==>
      && (!t.wasOverflow ==> t.hash % m <= t.pos)
      && forall q | 0 <= q < m && Passed(t, m, q) :: s.slots[q] != 0 && s.slots[q] != t.hash)
    && (t.pc.Count? || t.pc.Done? ==> s.slots[t.pos] == t.hash)
    && (t.pc.CheckForced? ==> t.force)
  }

  // --- counting ---

  ghost function Occupied(slots: seq<Hash>): set<nat> {
    set p: nat | p < |slots| && slots[p] != 0
  }

  ghost function Counting(threads: seq<Thread>): set<nat> {
    set i: nat | i < |threads| && threads[i].pc.Count?
  }

  /** Threads that passed the half-full test for a hash of their own. */
  ghost function Cleared(threads: seq<Thread>): set<nat> {
    set i: nat | i < |threads| && threads[i].pc.Swap? && !threads[i].force
  }

  function Present(slots: seq<Hash>, h: Hash): nat {
    if h in slots then 1 else 0
  }

  ghost predicate CountsOk(s: State) {
    && s.size + |Counting(s.threads)| == |Occupied(s.slots)|
    && |Occupied(s.slots)| + |Cleared(s.threads)| <= |s.slots| / 2 + |s.threads| + Present(s.slots, s.unknown)
  }

  ghost predicate Inv(s: State) {
    && |s.slots| > 0 && s.unknown != 0
    && NoGaps(s.slots)
    && (forall i | 0 <= i < |s.threads| :: ThreadOk(s, s.threads[i]))
    && CountsOk(s)
  }

  /** A hash has at most one slot: on the way to the later one the earlier would be passed. */
  lemma OneSlotPerHash(slots: seq<Hash>, p: nat, q: nat)
    requires NoGaps(slots) && p < |slots| && q < |slots| && slots[p] == slots[q] != 0
    ensures p == q
  {
  }

  /** When a thread finds its slot empty, its hash is nowhere in the table. */
  lemma AbsentAtEmpty(s: State, t: Thread)
    requires |s.slots| > 0 && NoGaps(s.slots) && ThreadOk(s, t) && Probing(t.pc) && s.slots[t.pos] == 0
    ensures t.hash !in s.slots
  {
  }

  lemma OccupiedBound(slots: seq<Hash>)
    ensures |Occupied(slots)| <= |slots|
    ensures (forall p | 0 <= p < |slots| :: slots[p] != 0) ==> |Occupied(slots)| == |slots|
  {
    var all := Below(|slots|);
    SubsetSize(Occupied(slots), all);
    if forall p | 0 <= p < |slots| :: slots[p] != 0 {
      assert Occupied(slots) == all;
    }
  }

  ghost function Below(n: nat): (s: set<nat>)
    ensures |s| == n && forall i: nat :: i in s <==> i < n
  {
    if n == 0 then {} else Below(n - 1) + {n - 1}
  }

  lemma BusyBound(threads: seq<Thread>, i: nat)
    requires i < |threads| && !threads[i].pc.Count? && i !in Cleared(threads)
    ensures |Counting(threads)| + |Cleared(threads)| + 1 <= |threads|
  {
    var busy := Counting(threads) + Cleared(threads) + {i};
    assert |busy| == |Counting(threads)| + |Cleared(threads)| + 1;
    SubsetSize(busy, Below(|threads|));
  }

  // --- every step keeps the invariant ---

  lemma SizeWithout(a: set<nat>, i: nat)
    ensures |a| == |a - {i}| + (if i in a then 1 else 0)
  {
  }

  lemma SetCounting(threads: seq<Thread>, i: nat, t: Thread)
    requires i < |threads|
    ensures |Counting(threads[i := t])|
      == |Counting(threads)| - (if threads[i].pc.Count? then 1 else 0) + (if t.pc.Count? then 1 else 0)
  {
    var u := threads[i := t];
    forall j ensures j in Counting(u) - {i} <==> j in Counting(threads) - {i} {
    }
    assert Counting(u) - {i} == Counting(threads) - {i};
    SizeWithout(Counting(u), i);
    SizeWithout(Counting(threads), i);
  }

  lemma SetCleared(threads: seq<Thread>, i: nat, t: Thread)
    requires i < |threads|
    ensures |Cleared(threads[i := t])|
      == |Cleared(threads)| - (if i in Cleared(threads) then 1 else 0) + (if t.pc.Swap? && !t.force then 1 else 0)
  {
    var u := threads[i := t];
    forall j ensures j in Cleared(u) - {i} <==> j in Cleared(threads) - {i} {
    }
    assert Cleared(u) - {i} == Cleared(threads) - {i};
    SizeWithout(Cleared(u), i);
    SizeWithout(Cleared(threads), i);
  }

  /** Changing one thread moves at most that thread in or out of the two counted groups. */
  lemma SetCounts(threads: seq<Thread>, i: nat, t: Thread)
    requires i < |threads|
    ensures |Counting(threads[i := t])|
      == |Counting(threads)| - (if threads[i].pc.Count? then 1 else 0) + (if t.pc.Count? then 1 else 0)
    ensures |Cleared(threads[i := t])|
      == |Cleared(threads)| - (if i in Cleared(threads) then 1 else 0) + (if t.pc.Swap? && !t.force then 1 else 0)
  {
    SetCounting(threads, i, t);
    SetCleared(threads, i, t);
  }

  /** A step that only moves the program counter or the position of one thread. */
  lemma MoveKeeps(s: State, i: nat, t: Thread)
    requires Inv(s) && i < |s.threads| && ThreadOk(s, t)
    requires !s.threads[i].pc.Count? && !t.pc.Count?
    requires t.pc.Swap? && !t.force ==> s.size <= |s.slots| / 2 && i !in Cleared(s.threads)
    ensures Inv(Set(s, i, t))
  {
    SetCounts(s.threads, i, t);
    if t.pc.Swap? && !t.force {
      BusyBound(s.threads, i);
    }
  }

  lemma SwapKeeps(s: State, i: nat)
    requires Inv(s) && i < |s.threads| && s.threads[i].pc.Swap? && s.slots[s.threads[i].pos] == 0
    ensures Inv(Step(s, i))
  {
    var t := s.threads[i];
    var u := t.(pc := Count);
    var s' := Step(s, i);
    AbsentAtEmpty(s, t);
    SwapNoGaps(s, t);
    forall j | 0 <= j < |s'.threads| ensures ThreadOk(s', s'.threads[j]) {
      if j != i {
        SwapOthersOk(s, t, s.threads[j], s');
      }
    }
    SetCounts(s.threads, i, u);
    assert Occupied(s'.slots) == Occupied(s.slots) + {t.pos};
    SwapPresent(s, t);
  }

  lemma SwapPresent(s: State, t: Thread)
    requires t.pos < |s.slots| && s.slots[t.pos] == 0 && t.hash !in s.slots && s.unknown != 0
    ensures var slots := s.slots[t.pos := t.hash];
      Present(slots, s.unknown) == if t.hash == s.unknown then 1 else Present(s.slots, s.unknown)
  {
    var slots := s.slots[t.pos := t.hash];
    assert slots[t.pos] == t.hash;
    if s.unknown in s.slots {
      var p :| 0 <= p < |s.slots| && s.slots[p] == s.unknown;
      assert slots[p] == s.unknown;
    }
  }

  lemma SwapNoGaps(s: State, t: Thread)
    requires |s.slots| > 0 && NoGaps(s.slots) && ThreadOk(s, t) && Probing(t.pc) && s.slots[t.pos] == 0
    ensures NoGaps(s.slots[t.pos := t.hash])
  {
  }

  lemma SwapOthersOk(s: State, t: Thread, o: Thread, s': State)
    requires |s.slots| > 0 && t.pos < |s.slots| && s.slots[t.pos] == 0
    requires ThreadOk(s, o) && s'.slots == s.slots[t.pos := t.hash] && s'.unknown == s.unknown
    ensures ThreadOk(s', o)
  {
  }

  lemma CountKeeps(s: State, i: nat)
    requires Inv(s) && i < |s.threads| && s.threads[i].pc.Count?
    ensures Inv(Step(s, i))
  {
    var t := s.threads[i].(pc := Done);
    SetCounts(s.threads, i, t);
    forall j | 0 <= j < |s.threads| ensures ThreadOk(Step(s, i), Step(s, i).threads[j]) {
      assert ThreadOk(s, s.threads[j]);
    }
  }

  lemma LoadKeeps(s: State, i: nat)
    requires Inv(s) && i < |s.threads| && s.threads[i].pc.LoadSlot?
    ensures Inv(Step(s, i))
  {
    var t, u, m := s.threads[i], Step(s, i).threads[i], |s.slots|;
    if Probing(u.pc) {
      forall q | 0 <= q < m && Passed(u, m, q) ensures s.slots[q] != 0 && s.slots[q] != u.hash {
        assert Passed(t, m, q) || q == t.pos;
      }
    }
    MoveKeeps(s, i, u);
  }

  lemma CheckKeeps(s: State, i: nat)
    requires Inv(s) && i < |s.threads| && (s.threads[i].pc.CheckSize? || s.threads[i].pc.CheckForced?)
    ensures Inv(Step(s, i))
  {
    var t := s.threads[i];
    assert ThreadOk(s, t);
    MoveKeeps(s, i, Step(s, i).threads[i]);
  }

  lemma StepKeeps(s: State, i: nat)
    requires Inv(s) && i < |s.threads|
    ensures Inv(Step(s, i))
  {
    var t := s.threads[i];
    match t.pc
    case LoadSlot => LoadKeeps(s, i);
    case CheckSize => CheckKeeps(s, i);
    case CheckForced => CheckKeeps(s, i);
    case Swap =>
      if s.slots[t.pos] == 0 {
        SwapKeeps(s, i);
      } else {
        assert ThreadOk(s, t.(pc := LoadSlot));
        MoveKeeps(s, i, t.(pc := LoadSlot));
      }
    case Count => CountKeeps(s, i);
    case _ =>
  }

  lemma NextKeeps(s: State, a: Action)
    requires Inv(s)
    ensures Inv(Next(s, a))
  {
    if a.i < |s.threads| {
      match a
      case Start(i, hash) =>
        if Call(s, i, hash) != s {
          MoveKeeps(s, i, Probe(hash, hash, false, |s.slots|));
        }
      case Advance(i) => StepKeeps(s, i);
    }
  }

  /** Slots are written once. */
  ghost predicate Grows(s: State, t: State) {
    && |t.slots| == |s.slots| && |t.threads| == |s.threads| && t.unknown == s.unknown
    && forall p | 0 <= p < |s.slots| && s.slots[p] != 0 :: t.slots[p] == s.slots[p]
  }

  lemma NextGrows(s: State, a: Action)
    requires Inv(s)
    ensures Grows(s, Next(s, a))
  {
  }

  // --- whole runs ---

  ghost function Run(s: State, schedule: seq<Action>): (t: State)
    requires Inv(s)
    ensures Inv(t)
    decreases |schedule|
  {
    if schedule == [] then s
    else
      var t := Run(s, schedule[..|schedule| - 1]);
      var a := schedule[|schedule| - 1];
      NextKeeps(t, a);
      Next(t, a)
  }

  lemma {:induction false} RunGrows(s: State, schedule: seq<Action>)
    requires Inv(s)
    ensures Grows(s, Run(s, schedule))
    decreases |schedule|
  {
    if schedule != [] {
      RunGrows(s, schedule[..|schedule| - 1]);
      NextGrows(Run(s, schedule[..|schedule| - 1]), schedule[|schedule| - 1]);
    }
  }

  lemma InitInv(s: State)
    requires Init(s)
    ensures Inv(s)
  {
  }

  /** In every reachable state each hash has at most one slot, and no empty slot lies between
      the slot a stored hash starts from and the slot it is in. */
  lemma TableSound(s: State, schedule: seq<Action>, p: nat, q: nat)
    requires Init(s) && p < |s.slots| && q < |s.slots|
    ensures Inv(s)
    ensures var slots := Run(s, schedule).slots;
      && |slots| == |s.slots|
      && (slots[p] == slots[q] != 0 ==> p == q)
      && (slots[p] != 0 && Between(slots[p] % |slots|, q, p) ==> slots[q] != 0)
  {
    InitInv(s);
    RunGrows(s, schedule);
    var slots := Run(s, schedule).slots;
    if slots[p] == slots[q] != 0 {
      OneSlotPerHash(slots, p, q);
    }
    if slots[p] != 0 {
      assert PathFull(slots, p);
    }
  }

  /** A lookup returns the slot of the hash asked for, or that of the shared fallback hash; two
      lookups that ended with the same of these return the same slot. */
  lemma LookupsAgree(s: State, schedule: seq<Action>, later: seq<Action>, i: nat, j: nat)
    requires Init(s) && i < |s.threads| && j < |s.threads|
    ensures Inv(s)
    ensures var t := Run(s, schedule); var u := Run(t, later);
      && |t.threads| == |u.threads| == |s.threads|
      && (t.threads[i].pc.Done? && u.threads[j].pc.Done? && t.threads[i].hash == u.threads[j].hash ==>
        && t.threads[i].pos == u.threads[j].pos
        && t.threads[i].hash in {t.threads[i].asked, t.unknown})
  {
    InitInv(s);
    var t := Run(s, schedule);
    var u := Run(t, later);
    RunGrows(s, schedule);
    RunGrows(t, later);
    if t.threads[i].pc.Done? && u.threads[j].pc.Done? && t.threads[i].hash == u.threads[j].hash {
      assert ThreadOk(t, t.threads[i]) && ThreadOk(u, u.threads[j]);
      OneSlotPerHash(u.slots, t.threads[i].pos, u.threads[j].pos);
    }
  }

  ghost predicate NotAborted(s: State) {
    forall i | 0 <= i < |s.threads| :: !s.threads[i].pc.LoadAssertFailed? && !s.threads[i].pc.UnreachableAbort?
  }

  /** With fewer threads than a fifth of the table, less one, neither the load assertion nor
      the abort marked unreachable is ever reached, and the table never fills up much beyond
      its half. */
  lemma {:induction false} NeverAborts(s: State, schedule: seq<Action>)
    requires Init(s) && 5 * (|s.threads| + 1) < |s.slots|
    ensures Inv(s) && NotAborted(Run(s, schedule))
    ensures |Occupied(Run(s, schedule).slots)| <= |s.slots| / 2 + |s.threads| + 1
    decreases |schedule|
  {
    InitInv(s);
    RunGrows(s, schedule);
    if schedule != [] {
      var before := schedule[..|schedule| - 1];
      NeverAborts(s, before);
      RunGrows(s, before);
      NextNeverAborts(Run(s, before), schedule[|schedule| - 1]);
    }
  }

  lemma NextNeverAborts(s: State, a: Action)
    requires Inv(s) && 5 * (|s.threads| + 1) < |s.slots| && NotAborted(s)
    ensures NotAborted(Next(s, a))
  {
    if a.Advance? && a.i < |s.threads| {
      StepNeverAborts(s, a.i);
    }
  }

  lemma StepNeverAborts(s: State, i: nat)
    requires Inv(s) && i < |s.threads| && 5 * (|s.threads| + 1) < |s.slots| && NotAborted(s)
    ensures var t := Step(s, i).threads[i]; !t.pc.LoadAssertFailed? && !t.pc.UnreachableAbort?
  {
    var t := s.threads[i];
    if t.pc.LoadSlot? && t.wasOverflow && t.pos + 1 == |s.slots| && s.slots[t.pos] != 0 {
      forall p | 0 <= p < |s.slots| ensures s.slots[p] != 0 {
        PassedAll(t, |s.slots|, p);
      }
      OccupiedBound(s.slots);
    }
  }

  /** The fallback is taken in a table more than half full, and the load assertion fails in one that
      is seven tenths full. */
  ghost predicate LoadsOk(s: State) {
    forall i | 0 <= i < |s.threads| :: LoadOk(s.size, |s.slots|, s.threads[i].pc)
  }

  ghost predicate LoadOk(size: nat, m: nat, pc: Pc) {
    (pc.CheckForced? ==> 2 * size > m) && (pc.LoadAssertFailed? ==> 10 * size >= 7 * m)
  }

  lemma StepDecides(s: State, i: nat)
    requires InRange(s) && i < |s.threads| && LoadOk(s.size, |s.slots|, s.threads[i].pc)
    ensures var n := Step(s, i);
      && |n.slots| == |s.slots| && s.size <= n.size && |n.threads| == |s.threads|
      && n.threads == s.threads[i := n.threads[i]] && LoadOk(n.size, |n.slots|, n.threads[i].pc)
      && (s.threads[i].pc.CheckForced? ==> (n.threads[i].pc.LoadAssertFailed? <==> 10 * s.size >= 7 * |s.slots|))
      && (n.threads[i].hash != s.threads[i].hash ==> 2 * s.size > |s.slots| && n.threads[i].hash == s.unknown)
  {
  }

  lemma NextLoadsOk(s: State, a: Action)
    requires InRange(s) && LoadsOk(s)
    ensures LoadsOk(Next(s, a))
  {
    if a.i < |s.threads| && a.Advance? {
      StepDecides(s, a.i);
    }
  }

  lemma {:induction false} RunLoadsOk(s: State, schedule: seq<Action>)
    requires Init(s)
    ensures Inv(s) && LoadsOk(Run(s, schedule))
    decreases |schedule|
  {
    InitInv(s);
    RunGrows(s, schedule);
    if schedule != [] {
      var before := schedule[..|schedule| - 1];
      RunLoadsOk(s, before);
      RunGrows(s, before);
      NextLoadsOk(Run(s, before), schedule[|schedule| - 1]);
    }
  }

  /** In every run the load assertion fails exactly when the fallback hash finds an empty slot in a
      table that is seven tenths full, and there is a fallback only in one that is over half full. */
  lemma AssertionFailsIff(s: State, schedule: seq<Action>, i: nat)
    requires Init(s) && i < |s.threads|
    ensures Inv(s) && var t := Run(s, schedule); InRange(t) && |t.threads| == |s.threads|
    ensures var t := Run(s, schedule); var n := Step(t, i).threads[i];
      && (t.threads[i].pc.LoadAssertFailed? ==> 10 * t.size >= 7 * |t.slots|)
      && (t.threads[i].pc.CheckForced? ==>
            2 * t.size > |t.slots| && (n.pc.LoadAssertFailed? <==> 10 * t.size >= 7 * |t.slots|))
      && (n.hash != t.threads[i].hash ==> 2 * t.size > |t.slots| && n.hash == t.unknown)
  {
    InitInv(s);
    RunGrows(s, schedule);
    RunLoadsOk(s, schedule);
    StepDecides(Run(s, schedule), i);
  }

  /** On its second way round a thread has passed every slot. */
  lemma PassedAll(t: Thread, m: nat, p: nat)
    requires m > 0 && t.wasOverflow && t.pos + 1 == m && p < m
    ensures Passed(t, m, p) || p == t.pos
  {
  }
}
