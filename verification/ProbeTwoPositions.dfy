/** A run in which one hash is given two positions: its lookups overlap with the table becoming
    half full. */
module ProbeTwoPositions {
  import opened ProbeTable
  import opened ProbeLookups
  import opened ProbeRuns

  function With(s: State, i: nat, pc: Pc): State
    requires i < |s.threads|
  {
    Set(s, i, s.threads[i].(pc := pc))
  }

  /** A free thread inserts a hash whose first slot is empty into a table that is not half full. */
  lemma Inserts(s: State, i: nat, h: Hash, t: State)
    requires InRange(s) && Free(s, i) && h != 0 && s.slots[h % |s.slots|] == 0 && s.size <= |s.slots| / 2
    requires t == State(s.slots[h % |s.slots| := h], s.size + 1,
                        s.threads[i := Thread(Done, h, h, false, h % |s.slots|, false)], s.unknown)
    ensures InRange(t) && Reaches(s, t)
  {
    var begun := Set(s, i, Probe(h, h, false, |s.slots|));
    ReachesNext(s, Start(i, h), begun);
    ReachesThen(s, begun, Advance(i), With(begun, i, CheckSize));
    ReachesThen(s, With(begun, i, CheckSize), Advance(i), With(begun, i, Swap));
    var stored := With(begun, i, Count).(slots := s.slots[h % |s.slots| := h]);
    ReachesThen(s, With(begun, i, Swap), Advance(i), stored);
    ReachesThen(s, stored, Advance(i), t);
  }

  /** Slot p holds p, for p from 1 to k. */
  function Table(k: nat): (slots: seq<Hash>)
    ensures |slots| == 16
  {
    seq(16, p requires 0 <= p < 16 => if 1 <= p <= k then p else 0)
  }

  /** Thread 0 was cleared to insert 10 while the table was empty; then thread 1 inserted 1 to k. */
  function Filled(k: nat, t: Thread): State {
    State(Table(k), k, [Thread(Swap, 10, 10, false, 10, false), t], 15)
  }

  const IDLE := Thread(Idle, 0, 0, false, 0, false)

  function Last(k: nat): Thread {
    if k == 0 then IDLE else Thread(Done, k, k, false, k, false)
  }

  lemma Opening(s: State)
    requires s == State(Table(0), 0, [IDLE, IDLE], 15)
    ensures Init(s) && InRange(s) && InRange(Filled(0, IDLE)) && Reaches(s, Filled(0, IDLE))
  {
    var begun := Set(s, 0, Probe(10, 10, false, 16));
    ReachesNext(s, Start(0, 10), begun);
    ReachesThen(s, begun, Advance(0), With(begun, 0, CheckSize));
    ReachesThen(s, With(begun, 0, CheckSize), Advance(0), With(begun, 0, Swap));
    assert With(begun, 0, Swap) == Filled(0, IDLE);
  }

  lemma {:induction false} Fills(s: State, k: nat)
    requires s == State(Table(0), 0, [IDLE, IDLE], 15) && k <= 9
    ensures Init(s) && InRange(s) && InRange(Filled(k, Last(k))) && Reaches(s, Filled(k, Last(k)))
  {
    Opening(s);
    if k > 0 {
      Fills(s, k - 1);
      assert Table(k - 1)[k := k] == Table(k);
      Inserts(Filled(k - 1, Last(k - 1)), 1, k, Filled(k, Last(k)));
      ReachesOn(s, Filled(k - 1, Last(k - 1)), Filled(k, Last(k)));
    }
  }

  /** Thread 1 asks for 10 and is given the position of the fallback. */
  function Fallen(): State {
    State(Table(9)[15 := 15], 10, [Thread(Swap, 10, 10, false, 10, false), Thread(Done, 10, 15, true, 15, false)], 15)
  }

  lemma Falls(s: State)
    requires s == Filled(9, Last(9)) && InRange(s)
    ensures InRange(Fallen()) && Reaches(s, Fallen())
  {
    var own := Set(s, 1, Probe(10, 10, false, 16));
    var other := Set(s, 1, Probe(10, 15, true, 16));
    ReachesNext(s, Start(1, 10), own);
    ReachesThen(s, own, Advance(1), With(own, 1, CheckSize));
    ReachesThen(s, With(own, 1, CheckSize), Advance(1), other);
    InsertsFallback(other);
    ReachesOn(s, other, Fallen());
  }

  lemma InsertsFallback(s: State)
    requires s == Filled(9, Probe(10, 15, true, 16)) && InRange(s)
    ensures InRange(Fallen()) && Reaches(s, Fallen())
  {
    ReachesNext(s, Advance(1), With(s, 1, CheckSize));
    ReachesThen(s, With(s, 1, CheckSize), Advance(1), With(s, 1, CheckForced));
    ReachesThen(s, With(s, 1, CheckForced), Advance(1), With(s, 1, Swap));
    var stored := With(s, 1, Count).(slots := Table(9)[15 := 15]);
    ReachesThen(s, With(s, 1, Swap), Advance(1), stored);
    ReachesThen(s, stored, Advance(1), Fallen());
  }

  /** Thread 0 inserts 10, and thread 1 asks again. */
  lemma AsksAgain(s: State, u: State)
    requires s == Fallen() && InRange(s)
    requires u == State(s.slots[10 := 10], 10,
                        [Thread(Count, 10, 10, false, 10, false), Thread(Done, 10, 10, false, 10, false)], 15)
    ensures InRange(u) && Reaches(s, u)
  {
    var stored := With(s, 0, Count).(slots := s.slots[10 := 10]);
    ReachesNext(s, Advance(0), stored);
    var begun := Set(stored, 1, Probe(10, 10, false, 16));
    ReachesThen(s, stored, Start(1, 10), begun);
    ReachesThen(s, begun, Advance(1), u);
  }

  /** Thread j asks for one hash twice and is given two positions, in a run within the bound under
      which nothing is aborted. */
  ghost predicate Disagrees(s: State, schedule: seq<Action>, later: seq<Action>, j: nat) {
    && Init(s) && Inv(s) && 5 * (|s.threads| + 1) < |s.slots|
    && var t := Run(s, schedule); var u := Run(t, later);
    && j < |t.threads| == |u.threads| && t.threads[j].pc.Done? && u.threads[j].pc.Done?
    && t.threads[j].asked == u.threads[j].asked && t.threads[j].pos != u.threads[j].pos
  }

  lemma OneHashTwoPositions()
    ensures exists s, schedule, later, j :: Disagrees(s, schedule, later, j)
  {
    var s := State(Table(0), 0, [IDLE, IDLE], 15);
    var u := State(Fallen().slots[10 := 10], 10,
                   [Thread(Count, 10, 10, false, 10, false), Thread(Done, 10, 10, false, 10, false)], 15);
    Fills(s, 9);
    Falls(Filled(9, Last(9)));
    ReachesOn(s, Filled(9, Last(9)), Fallen());
    AsksAgain(Fallen(), u);
    InitInv(s);
    var schedule :| Exec(s, schedule) == Fallen();
    ExecIsRun(s, schedule);
    var later :| Exec(Fallen(), later) == u;
    ExecIsRun(Fallen(), later);
    assert Disagrees(s, schedule, later, 1);
  }
}
