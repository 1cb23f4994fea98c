/** Runs of the table's threads put together from shorter ones. */
module ProbeRuns {
  import opened ProbeTable

  lemma NextInRange(s: State, a: Action)
    requires InRange(s)
    ensures InRange(Next(s, a))
  {
  }

  /** A run from any state in which positions are sensible. */
  function Exec(s: State, schedule: seq<Action>): (t: State)
    requires InRange(s)
    ensures InRange(t)
    decreases |schedule|
  {
    if schedule == [] then s
    else
      var t := Exec(s, schedule[..|schedule| - 1]);
      NextInRange(t, schedule[|schedule| - 1]);
      Next(t, schedule[|schedule| - 1])
  }

  lemma {:induction false} ExecIsRun(s: State, schedule: seq<Action>)
    requires Inv(s)
    ensures InRange(s) && Exec(s, schedule) == Run(s, schedule)
    decreases |schedule|
  {
    if schedule != [] {
      ExecIsRun(s, schedule[..|schedule| - 1]);
    }
  }

  lemma ExecIs(s: State, before: seq<Action>, a: Action)
    requires InRange(s)
    ensures Exec(s, before + [a]) == Next(Exec(s, before), a)
  {
    assert (before + [a])[..|before|] == before;
  }

  lemma Regroup(first: seq<Action>, second: seq<Action>, before: seq<Action>, a: Action)
    requires second != [] && before == second[..|second| - 1] && a == second[|second| - 1]
    ensures second == before + [a] && first + second == (first + before) + [a]
  {
  }

  lemma {:induction false} ExecTwice(s: State, first: seq<Action>, second: seq<Action>)
    requires InRange(s)
    ensures Exec(s, first + second) == Exec(Exec(s, first), second)
    decreases |second|
  {
    if second == [] {
      assert first + second == first;
    } else {
      var before, a := second[..|second| - 1], second[|second| - 1];
      ExecTwice(s, first, before);
      Regroup(first, second, before, a);
      ExecIs(s, first + before, a);
      ExecIs(Exec(s, first), before, a);
    }
  }

  ghost predicate Reaches(s: State, t: State) {
    InRange(s) && exists schedule :: Exec(s, schedule) == t
  }

  lemma ReachesOn(s: State, t: State, u: State)
    requires Reaches(s, t) && Reaches(t, u)
    ensures Reaches(s, u)
  {
    var first :| Exec(s, first) == t;
    var second :| Exec(t, second) == u;
    ExecTwice(s, first, second);
  }

  lemma ReachesNext(s: State, a: Action, t: State)
    requires InRange(s) && t == Next(s, a)
    ensures InRange(t) && Reaches(s, t)
  {
    assert [] + [a] == [a];
    ExecIs(s, [], a);
    assert Exec(s, [a]) == t;
  }

  lemma ReachesThen(s: State, t: State, a: Action, u: State)
    requires Reaches(s, t) && InRange(t) && u == Next(t, a)
    ensures InRange(u) && Reaches(s, u)
  {
    ReachesNext(t, a, u);
    ReachesOn(s, t, u);
  }
}
