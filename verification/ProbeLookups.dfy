/** What the lookups of the memory profiler's table return, and that they do: a hash that has a
    slot is found there by every later lookup, a hash that was being inserted while the table
    became half full can be given two positions, and every call returns. */
module ProbeLookups {
  import opened ProbeTable

  // --- once a hash has a slot ---

  /** A lookup of h by thread i that began after h got slot p, and has not met anything else. */
  ghost predicate Finds(s: State, i: nat, h: Hash, p: nat) {
    && i < |s.threads| && p < |s.slots| && s.slots[p] == h != 0
    && var t := s.threads[i];
    && t.asked == t.hash == h && !t.force && (t.pc.LoadSlot? || (t.pc.Done? && t.pos == p))
  }

  /** Thread i makes no new call. */
  predicate NoNewCall(later: seq<Action>, i: nat) {
    forall k | 0 <= k < |later| :: !(later[k].Start? && later[k].i == i)
  }

  lemma FoundAt(s: State, i: nat, h: Hash, p: nat)
    requires Inv(s) && Finds(s, i, h, p) && s.threads[i].pc.LoadSlot?
    ensures s.slots[s.threads[i].pos] != 0
    ensures s.slots[s.threads[i].pos] == h ==> s.threads[i].pos == p
    ensures s.threads[i].wasOverflow ==> s.slots[s.threads[i].pos] == h || s.threads[i].pos + 1 < |s.slots|
  {
    var t := s.threads[i];
    assert ThreadOk(s, t);
    if s.slots[t.pos] == 0 {
      AbsentAtEmpty(s, t);
    }
    if s.slots[t.pos] == h {
      OneSlotPerHash(s.slots, t.pos, p);
    }
  }

  lemma FindsOn(s: State, i: nat, h: Hash, p: nat, a: Action)
    requires Inv(s) && Finds(s, i, h, p) && !(a.Start? && a.i == i)
    ensures Finds(Next(s, a), i, h, p)
  {
    NextGrows(s, a);
    if a.i == i && s.threads[i].pc.LoadSlot? {
      FoundAt(s, i, h, p);
    }
  }

  lemma {:induction false} FindsRun(s: State, i: nat, h: Hash, p: nat, later: seq<Action>)
    requires Inv(s) && Finds(s, i, h, p) && NoNewCall(later, i)
    ensures Finds(Run(s, later), i, h, p)
    decreases |later|
  {
    if later != [] {
      var before := later[..|later| - 1];
      FindsRun(s, i, h, p, before);
      FindsOn(Run(s, before), i, h, p, later[|later| - 1]);
    }
  }

  predicate Free(s: State, i: nat) {
    i < |s.threads| && (s.threads[i].pc.Idle? || s.threads[i].pc.Done?)
  }

  /** Once a hash has a slot, every lookup of it that starts later returns that slot and never the
      fallback, whatever all the threads do meanwhile. */
  lemma StoredIsFound(s: State, schedule: seq<Action>, i: nat, h: Hash, p: nat, later: seq<Action>)
    requires Init(s)
    ensures Inv(s)
    ensures var t := Run(s, schedule);
      Free(t, i) && p < |t.slots| && t.slots[p] == h != 0 && NoNewCall(later, i) ==>
        Inv(Next(t, Start(i, h))) && Finds(Run(Next(t, Start(i, h)), later), i, h, p)
  {
    InitInv(s);
    var t := Run(s, schedule);
    if Free(t, i) && p < |t.slots| && t.slots[p] == h != 0 && NoNewCall(later, i) {
      NextKeeps(t, Start(i, h));
      FindsRun(Next(t, Start(i, h)), i, h, p, later);
    }
  }

  // --- when two lookups of one hash differ ---

  /** The lookup was given the position of the shared fallback in place of one of its own. */
  predicate FellBack(s: State, i: nat)
    requires i < |s.threads|
  {
    s.threads[i].force && s.threads[i].asked != s.unknown
  }

  /** Two lookups of one hash, whenever they finish, return different positions if and only if
      exactly one of them fell back. */
  lemma LookupsDifferIff(s: State, schedule: seq<Action>, later: seq<Action>, i: nat, j: nat)
    requires Init(s) && i < |s.threads| && j < |s.threads|
    ensures Inv(s)
    ensures var t := Run(s, schedule); var u := Run(t, later);
      && |t.threads| == |u.threads| == |s.threads|
      && (t.threads[i].pc.Done? && u.threads[j].pc.Done? && t.threads[i].asked == u.threads[j].asked ==>
        (t.threads[i].pos != u.threads[j].pos <==> FellBack(t, i) != FellBack(u, j)))
  {
    InitInv(s);
    var t := Run(s, schedule);
    var u := Run(t, later);
    RunGrows(s, schedule);
    RunGrows(t, later);
    if t.threads[i].pc.Done? && u.threads[j].pc.Done? && t.threads[i].asked == u.threads[j].asked {
      assert ThreadOk(t, t.threads[i]) && ThreadOk(u, u.threads[j]);
      if t.threads[i].hash == u.threads[j].hash {
        OneSlotPerHash(u.slots, t.threads[i].pos, u.threads[j].pos);
      }
    }
  }

  /** Only a table that is more than half full makes a lookup fall back. */
  ghost predicate ForcedLate(s: State) {
    forall i | 0 <= i < |s.threads| && s.threads[i].force && !s.threads[i].pc.Idle? :: s.size > |s.slots| / 2
  }

  lemma {:induction false} ForcedOnlyLate(s: State, schedule: seq<Action>)
    requires Inv(s) && ForcedLate(s)
    ensures ForcedLate(Run(s, schedule))
    decreases |schedule|
  {
    if schedule != [] {
      ForcedOnlyLate(s, schedule[..|schedule| - 1]);
      NextForcedLate(Run(s, schedule[..|schedule| - 1]), schedule[|schedule| - 1]);
    }
  }

  lemma NextForcedLate(s: State, a: Action)
    requires Inv(s) && ForcedLate(s)
    ensures ForcedLate(Next(s, a))
  {
    if a.i < |s.threads| {
      assert ThreadOk(s, s.threads[a.i]);
    }
  }

  /** So as long as the size does not exceed half of the table, all lookups of a hash agree. */
  lemma AgreeBelowHalf(s: State, schedule: seq<Action>, later: seq<Action>, i: nat, j: nat)
    requires Init(s) && i < |s.threads| && j < |s.threads|
    ensures Inv(s)
    ensures var t := Run(s, schedule); var u := Run(t, later);
      && |t.threads| == |u.threads| == |s.threads|
      && (u.size <= |s.slots| / 2 && t.threads[i].pc.Done? && u.threads[j].pc.Done?
          && t.threads[i].asked == u.threads[j].asked ==>
          t.threads[i].pos == u.threads[j].pos)
  {
    LookupsDifferIff(s, schedule, later, i, j);
    var t := Run(s, schedule);
    ForcedOnlyLate(s, schedule);
    ForcedOnlyLate(t, later);
    RunGrows(s, schedule);
    RunGrows(t, later);
    SizeGrows(t, later);
  }

  lemma NextSize(s: State, a: Action)
    requires InRange(s)
    ensures s.size <= Next(s, a).size
  {
  }

  lemma {:induction false} SizeGrows(s: State, schedule: seq<Action>)
    requires Inv(s)
    ensures s.size <= Run(s, schedule).size
    decreases |schedule|
  {
    if schedule != [] {
      SizeGrows(s, schedule[..|schedule| - 1]);
      NextSize(Run(s, schedule[..|schedule| - 1]), schedule[|schedule| - 1]);
    }
  }
}
