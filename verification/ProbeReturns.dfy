/** Every call of a lookup returns, after at most two rounds of the table for its own hash and two
    for the fallback, whatever the other threads do. */
module ProbeReturns {
  import opened ProbeTable
  import opened ProbeLookups
  import opened ProbeRuns

  predicate InCall(t: Thread, h: Hash) {
    t.asked == h && (Probing(t.pc) || t.pc.Count?)
  }

  /** How many slots a thread can still come to before it would abort. */
  function SlotsLeft(t: Thread, m: nat): nat
    requires t.pos < m
  {
    if t.wasOverflow then m - t.pos else 2 * m - t.pos
  }

  /** The steps still to be made at this slot. A failed swap meets a slot that stays full. */
  function Here(pc: Pc, empty: bool): nat {
    match pc
    case LoadSlot => if empty then 5 else 1
    case CheckSize => 4
    case CheckForced => 3
    case _ => 2
  }

  /** A bound on the steps that a thread still makes in its call: five for every slot it comes to,
      once for its own hash and once for the fallback. */
  function WorkOf(t: Thread, empty: bool, m: nat): nat
    requires t.pos < m
  {
    if t.pc.Count? then 1
    else if !Probing(t.pc) then 0
    else 5 * SlotsLeft(t, m) + Here(t.pc, empty) + if t.force then 0 else 10 * m + 6
  }

  function Work(s: State, i: nat): nat
    requires InRange(s) && i < |s.threads|
  {
    WorkOf(s.threads[i], s.slots[s.threads[i].pos] == 0, |s.slots|)
  }

  lemma WorkAtStart(s: State, i: nat, h: Hash)
    requires InRange(s) && Free(s, i) && h != 0
    ensures var t := Next(s, Start(i, h));
      InRange(t) && |t.threads| == |s.threads| && InCall(t.threads[i], h) && Work(t, i) <= 20 * |s.slots| + 11
  {
  }

  lemma LoadWork(t: Thread, u: Thread, m: nat, empty: bool)
    requires t.pos < m && u.pos < m && t.pc.LoadSlot? && u.force == t.force
    requires u == t.(pos := t.pos + 1) || (!t.wasOverflow && t.pos + 1 == m && u == t.(pos := 0, wasOverflow := true))
    ensures WorkOf(u, empty, m) < WorkOf(t, false, m)
  {
  }

  lemma LoadUses(s: State, i: nat, h: Hash)
    requires InRange(s) && i < |s.threads| && InCall(s.threads[i], h) && s.threads[i].pc.LoadSlot?
    ensures InRange(Step(s, i)) && Work(Step(s, i), i) < Work(s, i)
  {
    var t, u, m := s.threads[i], Step(s, i).threads[i], |s.slots|;
    if s.slots[t.pos] != 0 && u.pc.LoadSlot? {
      LoadWork(t, u, m, s.slots[u.pos] == 0);
    }
  }

  lemma CheckUses(s: State, i: nat, h: Hash)
    requires InRange(s) && i < |s.threads| && InCall(s.threads[i], h)
    requires s.threads[i].pc.CheckSize? || s.threads[i].pc.CheckForced?
    ensures InRange(Step(s, i)) && Work(Step(s, i), i) < Work(s, i)
  {
  }

  lemma SwapUses(s: State, i: nat, h: Hash)
    requires InRange(s) && i < |s.threads| && InCall(s.threads[i], h)
    requires s.threads[i].pc.Swap? || s.threads[i].pc.Count?
    ensures InRange(Step(s, i)) && Work(Step(s, i), i) < Work(s, i)
  {
  }

  /** A step of the thread's own uses up some of its work; the steps of others add none, and the
      thread makes no other call meanwhile. */
  lemma NextUses(s: State, i: nat, h: Hash, a: Action)
    requires InRange(s) && i < |s.threads| && InCall(s.threads[i], h)
    ensures InRange(Next(s, a)) && |Next(s, a).threads| == |s.threads|
    ensures Work(Next(s, a), i) + (if a == Advance(i) then 1 else 0) <= Work(s, i)
  {
    if a == Advance(i) {
      var pc := s.threads[i].pc;
      if pc.LoadSlot? {
        LoadUses(s, i, h);
      } else if pc.CheckSize? || pc.CheckForced? {
        CheckUses(s, i, h);
      } else {
        SwapUses(s, i, h);
      }
    } else {
      OthersUse(s, i, h, a);
    }
  }

  lemma OthersUse(s: State, i: nat, h: Hash, a: Action)
    requires InRange(s) && i < |s.threads| && InCall(s.threads[i], h) && a != Advance(i)
    ensures InRange(Next(s, a)) && |Next(s, a).threads| == |s.threads|
    ensures Next(s, a).threads[i] == s.threads[i] && Work(Next(s, a), i) <= Work(s, i)
  {
  }

  /** How many of these steps are the thread's own. */
  function Own(later: seq<Action>, i: nat): nat {
    if later == [] then 0
    else Own(later[..|later| - 1], i) + if later[|later| - 1] == Advance(i) then 1 else 0
  }

  /** Thread i is in its call for h after the first n of these steps. */
  predicate InCallAfter(s: State, i: nat, h: Hash, later: seq<Action>, n: nat)
    requires InRange(s) && n <= |later|
  {
    var t := Exec(s, later[..n]);
    i < |t.threads| && InCall(t.threads[i], h)
  }

  lemma InCallBefore(s: State, i: nat, h: Hash, later: seq<Action>, n: nat)
    requires InRange(s) && 0 < |later| && n < |later|
    ensures InCallAfter(s, i, h, later[..|later| - 1], n) <==> InCallAfter(s, i, h, later, n)
  {
    assert later[..|later| - 1][..n] == later[..n];
  }

  /** A thread that was in its call all the time has made no more steps than its work was. */
  lemma {:induction false} StillInCall(s: State, i: nat, h: Hash, later: seq<Action>)
    requires InRange(s) && i < |s.threads|
    requires forall n | 0 <= n < |later| :: InCallAfter(s, i, h, later, n)
    ensures var t := Exec(s, later); i < |t.threads| && Work(t, i) + Own(later, i) <= Work(s, i)
    decreases |later|
  {
    if later != [] {
      var before, a := later[..|later| - 1], later[|later| - 1];
      forall n | 0 <= n < |before| ensures InCallAfter(s, i, h, before, n) {
        InCallBefore(s, i, h, later, n);
      }
      StillInCall(s, i, h, before);
      assert InCallAfter(s, i, h, later, |before|);
      NextUses(Exec(s, before), i, h, a);
    }
  }

  /** When a thread leaves its call: it has returned, or the table is too full. */
  lemma Leaves(s: State, i: nat, h: Hash, a: Action)
    requires InRange(s) && i < |s.threads| && InCall(s.threads[i], h)
    ensures |Next(s, a).threads| == |s.threads|
    ensures var t := Next(s, a).threads[i];
      t.asked == h && (InCall(t, h) || t.pc.Done? || t.pc.LoadAssertFailed? || t.pc.UnreachableAbort?)
  {
  }

  lemma FirstFalse(marks: seq<bool>, some: nat) returns (n: nat)
    requires some < |marks| && marks[0] && !marks[some]
    ensures n + 1 < |marks| && marks[n] && !marks[n + 1]
  {
    n := 0;
    while marks[n + 1]
      invariant n < some && marks[n]
      decreases some - n
    {
      n := n + 1;
    }
  }

  /** The step with which the thread leaves its call. */
  lemma FirstLeft(s: State, i: nat, h: Hash, later: seq<Action>, some: nat) returns (n: nat)
    requires InRange(s) && some <= |later| && !InCallAfter(s, i, h, later, some) && InCallAfter(s, i, h, later, 0)
    ensures n < |later| && InCallAfter(s, i, h, later, n) && !InCallAfter(s, i, h, later, n + 1)
  {
    n := FirstFalse(seq(|later| + 1, k requires 0 <= k <= |later| => InCallAfter(s, i, h, later, k)), some);
  }

  lemma {:induction false} NeverAbortsFrom(s: State, later: seq<Action>)
    requires Inv(s) && 5 * (|s.threads| + 1) < |s.slots| && NotAborted(s)
    ensures NotAborted(Run(s, later))
    decreases |later|
  {
    if later != [] {
      var before := later[..|later| - 1];
      NeverAbortsFrom(s, before);
      RunGrows(s, before);
      NextNeverAborts(Run(s, before), later[|later| - 1]);
    }
  }

  predicate Returned(s: State, i: nat, h: Hash) {
    i < |s.threads| && s.threads[i].pc.Done? && s.threads[i].asked == h
  }

  lemma LeavesReturned(s: State, i: nat, h: Hash, later: seq<Action>, n: nat)
    requires Inv(s) && 5 * (|s.threads| + 1) < |s.slots| && NotAborted(s) && n < |later|
    requires InCallAfter(s, i, h, later, n) && !InCallAfter(s, i, h, later, n + 1)
    ensures Returned(Run(s, later[..n + 1]), i, h)
  {
    assert later[..n + 1] == later[..n] + [later[n]];
    ExecIs(s, later[..n], later[n]);
    Leaves(Exec(s, later[..n]), i, h, later[n]);
    ExecIsRun(s, later[..n + 1]);
    NeverAbortsFrom(s, later[..n + 1]);
  }

  lemma Within(s: State, i: nat, h: Hash, later: seq<Action>)
    requires Inv(s) && 5 * (|s.threads| + 1) < |s.slots| && NotAborted(s)
    requires i < |s.threads| && InCall(s.threads[i], h) && Work(s, i) < Own(later, i)
    ensures exists n: nat :: n <= |later| && Returned(Run(s, later[..n]), i, h)
  {
    assert later[..0] == [] && InCallAfter(s, i, h, later, 0);
    if forall n | 0 <= n < |later| :: InCallAfter(s, i, h, later, n) {
      StillInCall(s, i, h, later);
    } else {
      var some :| 0 <= some < |later| && !InCallAfter(s, i, h, later, some);
      var n := FirstLeft(s, i, h, later, some);
      LeavesReturned(s, i, h, later, n);
    }
  }

  /** With fewer threads than a fifth of the table, less one, a call returns before its thread has
      made 20 steps for every slot of the table and 12 more, however the others' steps fall in. */
  lemma {:induction false} CallReturns(s: State, schedule: seq<Action>, i: nat, h: Hash, later: seq<Action>)
    requires Init(s) && 5 * (|s.threads| + 1) < |s.slots| && h != 0
    requires 20 * |s.slots| + 12 <= Own(later, i)
    ensures Inv(s)
    ensures var t := Run(s, schedule);
      Free(t, i) ==>
        && Inv(Next(t, Start(i, h)))
        && exists n: nat :: n <= |later| && Returned(Run(Next(t, Start(i, h)), later[..n]), i, h)
  {
    InitInv(s);
    var t := Run(s, schedule);
    if Free(t, i) {
      var u := Next(t, Start(i, h));
      NeverAborts(s, schedule);
      RunGrows(s, schedule);
      NextGrows(t, Start(i, h));
      NextKeeps(t, Start(i, h));
      NextNeverAborts(t, Start(i, h));
      WorkAtStart(t, i, h);
      Within(u, i, h, later);
    }
  }
}
