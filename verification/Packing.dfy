/** Packing the groups of functions into the output files: the largest remaining group
    always goes to the first smallest file.  Sizes are natural numbers, an assignment
    names the file of every group, in the order in which the groups are placed. */
module Packing {
  import opened Common

  ghost predicate IsAssignment(a: seq<nat>, n: nat, m: nat) {
    |a| == n && forall t | 0 <= t < n :: a[t] < m
  }

  /** The size of every file after placing the groups p by a. */
  function Loads(p: seq<nat>, a: seq<nat>, m: nat): (v: seq<nat>)
    requires IsAssignment(a, |p|, m)
    ensures |v| == m
  {
    if p == [] then seq(m, _ => 0)
    else
      var q := |p| - 1;
      var v := Loads(p[..q], a[..q], m);
      v[a[q] := v[a[q]] + p[q]]
  }

  ghost predicate IsFirstMin(v: seq<nat>, k: nat) {
    && k < |v|
    && (forall i | 0 <= i < |v| :: v[k] <= v[i])
    && (forall i | 0 <= i < k :: v[k] < v[i])
  }

  /** Group t went to the first smallest file of that moment. */
  ghost predicate PlacedGreedily(p: seq<nat>, a: seq<nat>, m: nat, t: nat)
    requires IsAssignment(a, |p|, m) && t < |p|
  {
    IsFirstMin(Loads(p[..t], a[..t], m), a[t])
  }

  ghost predicate IsGreedy(p: seq<nat>, a: seq<nat>, m: nat) {
    && IsAssignment(a, |p|, m)
    && forall t | 0 <= t < |p| :: PlacedGreedily(p, a, m, t)
  }

  ghost predicate Descending(p: seq<nat>) {
    forall i, j | 0 <= i < j < |p| :: p[j] <= p[i]
  }

  ghost predicate FitsIn(p: seq<nat>, b: seq<nat>, m: nat, limit: nat) {
    && IsAssignment(b, |p|, m)
    && forall k | 0 <= k < m :: Loads(p, b, m)[k] <= limit
  }

  lemma GreedyPrefix(p: seq<nat>, a: seq<nat>, m: nat, n: nat)
    requires IsGreedy(p, a, m) && n <= |p|
    ensures IsGreedy(p[..n], a[..n], m)
  {
    forall t | 0 <= t < n ensures PlacedGreedily(p[..n], a[..n], m, t) {
      assert PlacedGreedily(p, a, m, t);
      assert p[..n][..t] == p[..t] && a[..n][..t] == a[..t];
    }
  }

  // --- conservation ---

  lemma {:induction false} SumBound(v: seq<nat>, w: seq<nat>)
    requires |v| == |w| && forall i | 0 <= i < |v| :: v[i] <= w[i]
    ensures Sum(v) <= Sum(w)
  {
    if v != [] {
      SumBound(v[..|v| - 1], w[..|w| - 1]);
    }
  }

  /** The files together hold exactly the groups. */
  lemma {:induction false} LoadsConserve(p: seq<nat>, a: seq<nat>, m: nat)
    requires IsAssignment(a, |p|, m)
    ensures Sum(Loads(p, a, m)) == Sum(p)
  {
    if p == [] {
      SumConst(Loads(p, a, m), 0);
    } else {
      var q := |p| - 1;
      LoadsConserve(p[..q], a[..q], m);
      SumChange(Loads(p[..q], a[..q], m), a[q], p[q]);
    }
  }

  // --- balance ---

  /** No two files differ by more than one largest group. */
  lemma {:induction false} GreedyBalanced(p: seq<nat>, a: seq<nat>, m: nat, largest: nat, i: nat, j: nat)
    requires IsGreedy(p, a, m) && i < m && j < m
    requires forall t | 0 <= t < |p| :: p[t] <= largest
    ensures Loads(p, a, m)[i] <= Loads(p, a, m)[j] + largest
  {
    if p != [] {
      var q := |p| - 1;
      GreedyPrefix(p, a, m, q);
      GreedyBalanced(p[..q], a[..q], m, largest, i, j);
      assert PlacedGreedily(p, a, m, q);
    }
  }

  // --- lower bounds on every packing ---

  lemma {:induction false} LoadAtLeast(p: seq<nat>, b: seq<nat>, m: nat, t: nat)
    requires IsAssignment(b, |p|, m) && t < |p|
    ensures p[t] <= Loads(p, b, m)[b[t]]
  {
    if t < |p| - 1 {
      LoadAtLeast(p[..|p| - 1], b[..|p| - 1], m, t);
    }
  }

  lemma {:induction false} LoadAtLeastTwo(p: seq<nat>, b: seq<nat>, m: nat, t: nat, u: nat)
    requires IsAssignment(b, |p|, m) && t < u < |p| && b[t] == b[u]
    ensures p[t] + p[u] <= Loads(p, b, m)[b[t]]
  {
    var q := |p| - 1;
    if u < q {
      LoadAtLeastTwo(p[..q], b[..q], m, t, u);
    } else {
      LoadAtLeast(p[..q], b[..q], m, t);
    }
  }

  lemma {:induction false} LoadsGrow(p: seq<nat>, b: seq<nat>, m: nat, n: nat, k: nat)
    requires IsAssignment(b, |p|, m) && n <= |p| && k < m
    ensures IsAssignment(b[..n], n, m)
    ensures Loads(p[..n], b[..n], m)[k] <= Loads(p, b, m)[k]
  {
    if n < |p| {
      var q := |p| - 1;
      LoadsGrow(p[..q], b[..q], m, n, k);
      assert p[..q][..n] == p[..n] && b[..q][..n] == b[..n];
    } else {
      assert p[..n] == p && b[..n] == b;
    }
  }

  lemma AverageFits(p: seq<nat>, b: seq<nat>, m: nat, limit: nat)
    requires FitsIn(p, b, m, limit)
    ensures Sum(p) <= m * limit
  {
    LoadsConserve(p, b, m);
    SumBound(Loads(p, b, m), seq(m, _ => limit));
    SumConst(seq(m, _ => limit), limit);
  }

  lemma {:induction false} SumPrefix(p: seq<nat>, n: nat)
    requires n <= |p|
    ensures Sum(p[..n]) <= Sum(p)
  {
    if n < |p| {
      SumPrefix(p[..|p| - 1], n);
      assert p[..|p| - 1][..n] == p[..n];
    } else {
      assert p[..n] == p;
    }
  }

  /** The last group placed in file k went there while k was a smallest file. */
  lemma {:induction false} LastPlaced(p: seq<nat>, a: seq<nat>, m: nat, k: nat) returns (j: nat)
    requires IsGreedy(p, a, m) && k < m && Loads(p, a, m)[k] > 0
    ensures j < |p| && a[j] == k
    ensures Loads(p, a, m)[k] == Loads(p[..j], a[..j], m)[k] + p[j]
    ensures IsFirstMin(Loads(p[..j], a[..j], m), k)
  {
    var q := |p| - 1;
    if a[q] == k {
      assert PlacedGreedily(p, a, m, q);
      j := q;
    } else {
      GreedyPrefix(p, a, m, q);
      j := LastPlaced(p[..q], a[..q], m, k);
      assert p[..q][..j] == p[..j] && a[..q][..j] == a[..j];
    }
  }

  /** A smallest file holds at most the average of what was placed before. */
  lemma MinBelowAverage(p: seq<nat>, a: seq<nat>, m: nat, k: nat)
    requires IsAssignment(a, |p|, m) && IsFirstMin(Loads(p, a, m), k)
    ensures m * Loads(p, a, m)[k] <= Sum(p)
  {
    var v := Loads(p, a, m);
    SumBound(seq(m, _ => v[k]), v);
    SumConst(seq(m, _ => v[k]), v[k]);
    LoadsConserve(p, a, m);
  }

  lemma ProductGrows(n: int, x: int, y: int)
    requires 0 <= n && x <= y
    ensures n * x <= n * y
  {
  }

  lemma OverflowTwice(m: int, load: int, x: int, limit: int)
    requires m > 0 && x <= limit && m * load + x <= m * limit
    ensures m * (load + x) <= (2 * m - 1) * limit
  {
    ProductGrows(m - 1, x, limit);
  }

  lemma OverflowFourThirds(m: int, load: int, x: int, limit: int)
    requires m > 0 && 3 * x <= limit && m * load + x <= m * limit
    ensures 3 * m * (load + x) <= (4 * m - 1) * limit
  {
    ProductGrows(m - 1, 3 * x, limit);
    assert (m - 1) * (3 * x) == 3 * (m * x) - 3 * x;
    assert 3 * m * (load + x) == 3 * (m * load) + 3 * (m * x);
    assert (4 * m - 1) * limit == 3 * (m * limit) + (m - 1) * limit;
  }

  lemma WithinBound(m: int, load: int, limit: int)
    requires m > 0 && 0 <= load <= limit
    ensures m * load <= (2 * m - 1) * limit
    ensures 3 * m * load <= (4 * m - 1) * limit
  {
    assert m * load <= m * limit;
    assert 3 * m * load <= 3 * m * limit;
    assert (m - 1) * limit >= 0;
  }

  /** Whatever packing the same groups admit, no file of the greedy packing is larger than
      2 - 1/m times that packing's largest file. */
  lemma GreedyTwiceOptimal(p: seq<nat>, a: seq<nat>, b: seq<nat>, m: nat, limit: nat, k: nat)
    requires IsGreedy(p, a, m) && FitsIn(p, b, m, limit) && k < m
    ensures m * Loads(p, a, m)[k] <= (2 * m - 1) * limit
  {
    var total := Loads(p, a, m)[k];
    if total > 0 {
      var j := LastPlaced(p, a, m, k);
      LastPlacedBound(p, a, b, m, limit, k, j);
      OverflowTwice(m, Loads(p[..j], a[..j], m)[k], p[j], limit);
    } else {
      WithinBound(m, total, limit);
    }
  }

  lemma LastPlacedBound(p: seq<nat>, a: seq<nat>, b: seq<nat>, m: nat, limit: nat, k: nat, j: nat)
    requires IsAssignment(a, |p|, m) && FitsIn(p, b, m, limit) && k < m && j < |p|
    requires IsFirstMin(Loads(p[..j], a[..j], m), k)
    ensures p[j] <= limit
    ensures m * Loads(p[..j], a[..j], m)[k] + p[j] <= m * limit
  {
    LoadAtLeast(p, b, m, j);
    MinBelowAverage(p[..j], a[..j], m, k);
    SumPrefix(p, j + 1);
    assert p[..j + 1][..j] == p[..j];
    AverageFits(p, b, m, limit);
  }

  // --- descending order: 4/3 - 1/(3m) ---

  function Ones(n: nat): seq<nat> {
    seq(n, _ => 1)
  }

  /** How many groups every file holds. */
  function Counts(a: seq<nat>, m: nat): (c: seq<nat>)
    requires IsAssignment(a, |a|, m)
    ensures |c| == m
  {
    Loads(Ones(|a|), a, m)
  }

  lemma CountsStep(a: seq<nat>, m: nat)
    requires a != [] && IsAssignment(a, |a|, m)
    ensures var q := |a| - 1; var c := Counts(a[..q], m);
      Counts(a, m) == c[a[q] := c[a[q]] + 1]
  {
    assert Ones(|a|)[..|a| - 1] == Ones(|a| - 1);
  }

  lemma {:induction false} LoadByCount(p: seq<nat>, b: seq<nat>, m: nat, least: nat, k: nat)
    requires IsAssignment(b, |p|, m) && k < m
    requires forall t | 0 <= t < |p| :: least <= p[t]
    ensures Counts(b, m)[k] * least <= Loads(p, b, m)[k]
  {
    if p != [] {
      var q := |p| - 1;
      CountsStep(b, m);
      LoadByCount(p[..q], b[..q], m, least, k);
      var c, l := Counts(b[..q], m)[k], Loads(p[..q], b[..q], m)[k];
      if b[q] == k {
        assert (c + 1) * least == c * least + least;
      }
    }
  }

  lemma {:induction false} OnlyGroup(p: seq<nat>, a: seq<nat>, m: nat, k: nat) returns (t: nat)
    requires IsAssignment(a, |p|, m) && k < m && Counts(a, m)[k] == 1
    ensures t < |p| && a[t] == k && p[t] == Loads(p, a, m)[k]
  {
    var q := |p| - 1;
    CountsStep(a, m);
    if a[q] == k {
      EmptyFile(p[..q], a[..q], m, k);
      t := q;
    } else {
      t := OnlyGroup(p[..q], a[..q], m, k);
    }
  }

  lemma {:induction false} EmptyFile(p: seq<nat>, a: seq<nat>, m: nat, k: nat)
    requires IsAssignment(a, |p|, m) && k < m && Counts(a, m)[k] == 0
    ensures Loads(p, a, m)[k] == 0
  {
    if p != [] {
      CountsStep(a, m);
      EmptyFile(p[..|p| - 1], a[..|p| - 1], m, k);
    }
  }

  /** A vector of counts that is below c outside s, and one less inside. */
  lemma {:induction false} SumExcept(v: seq<nat>, c: nat, s: set<nat>)
    requires c > 0 && forall i | i in s :: i < |v|
    ensures (forall i | 0 <= i < |v| :: v[i] <= if i in s then c - 1 else c) ==> Sum(v) + |s| <= c * |v|
    ensures (forall i | 0 <= i < |v| :: v[i] >= if i in s then c - 1 else c) ==> Sum(v) + |s| >= c * |v|
  {
    if v == [] {
      assert s == {};
    } else {
      var q := |v| - 1;
      SumExcept(v[..q], c, s - {q});
      assert c * |v| == c * q + c;
      assert |s - {q}| == if q in s then |s| - 1 else |s|;
    }
  }

  lemma CountBelowThree(c: nat, x: nat, limit: nat)
    requires c * x <= limit < 3 * x
    ensures c <= 2
  {
  }

  lemma {:induction false} CountsTotal(a: seq<nat>, m: nat)
    requires IsAssignment(a, |a|, m)
    ensures Sum(Counts(a, m)) == |a|
  {
    LoadsConserve(Ones(|a|), a, m);
    SumConst(Ones(|a|), 1);
  }

  lemma {:induction false} InjectionSize(f: map<nat, nat>, t: set<nat>)
    requires forall k | k in f :: f[k] in t
    requires forall k, l | k in f && l in f && f[k] == f[l] :: k == l
    ensures |f.Keys| <= |t|
  {
    if f.Keys != {} {
      var k :| k in f;
      var g := f - {k};
      assert g.Keys == f.Keys - {k};
      InjectionSize(g, t - {f[k]});
    }
  }

  /** Group t fills file k by itself, up to less than x below the limit. */
  ghost predicate FillsAlone(p: seq<nat>, a: seq<nat>, limit: nat, x: nat, k: nat, t: nat) {
    t < |a| && t < |p| && a[t] == k && p[t] + x > limit
  }

  /** Where the descending packing has a file with a single group, that group shares its file
      with nobody in any packing that stays within the limit. */
  lemma SingleStaysAlone(p: seq<nat>, a: seq<nat>, b: seq<nat>, m: nat, limit: nat, j: nat,
                         single: set<nat>, alone: set<nat>)
    requires j < |p| && |p| == j + 1 && Descending(p) && FitsIn(p, b, m, limit) && |a| == j
    requires forall k | k in single :: exists t: nat :: FillsAlone(p, a, limit, p[j], k, t)
    requires forall k | 0 <= k < m && Counts(b, m)[k] == 1 :: k in alone
    ensures |single| <= |alone|
  {
    var f := map k | k in single :: var t: nat :| FillsAlone(p, a, limit, p[j], k, t); b[t];
    forall k | k in f ensures f[k] in alone {
      var t: nat :| FillsAlone(p, a, limit, p[j], k, t) && f[k] == b[t];
      AloneIn(p, b, m, limit, j, t);
    }
    forall k, l | k in f && l in f && f[k] == f[l] ensures k == l {
      var t: nat :| FillsAlone(p, a, limit, p[j], k, t) && f[k] == b[t];
      var u: nat :| FillsAlone(p, a, limit, p[j], l, u) && f[l] == b[u];
      assert p[j] <= p[t] && p[j] <= p[u];
      if t < u {
        LoadAtLeastTwo(p, b, m, t, u);
      } else if u < t {
        LoadAtLeastTwo(p, b, m, u, t);
      }
    }
    InjectionSize(f, alone);
    assert f.Keys == single;
  }

  lemma AloneIn(p: seq<nat>, b: seq<nat>, m: nat, limit: nat, j: nat, t: nat)
    requires j < |p| && |p| == j + 1 && Descending(p) && FitsIn(p, b, m, limit)
    requires t < |p| && p[t] + p[j] > limit
    ensures Counts(b, m)[b[t]] == 1
  {
    LoadAtLeast(Ones(|b|), b, m, t);
    if Counts(b, m)[b[t]] > 1 {
      var u := SecondGroup(b, m, b[t], t);
      assert p[j] <= p[u];
      if t < u {
        LoadAtLeastTwo(p, b, m, t, u);
      } else {
        LoadAtLeastTwo(p, b, m, u, t);
      }
    }
  }

  lemma {:induction false} SecondGroup(b: seq<nat>, m: nat, k: nat, t: nat) returns (u: nat)
    requires IsAssignment(b, |b|, m) && k < m && Counts(b, m)[k] > (if t < |b| && b[t] == k then 1 else 0)
    ensures u < |b| && u != t && b[u] == k
  {
    CountsStep(b, m);
    var q := |b| - 1;
    if b[q] == k && q != t {
      u := q;
    } else {
      u := SecondGroup(b[..q], m, k, t);
    }
  }

  /** When three groups of the size of the last one never fit below `limit`, and all the groups
      together can be packed below `limit` somehow, then whatever was done with the groups
      before the last one, some file still has room for it.  The proof counts groups. */
  lemma RoomForLast(p: seq<nat>, a: seq<nat>, b: seq<nat>, m: nat, limit: nat, j: nat)
    requires |p| == j + 1 && Descending(p) && 3 * p[j] > limit
    requires IsAssignment(a, j, m) && FitsIn(p, b, m, limit)
    ensures exists k :: 0 <= k < m && Loads(p[..j], a, m)[k] + p[j] <= limit
  {
    if forall k | 0 <= k < m :: Loads(p[..j], a, m)[k] + p[j] > limit {
      LoadAtLeast(p, b, m, j);
      var before, after := Counts(a, m), Counts(b, m);
      forall k | 0 <= k < m ensures before[k] >= 1 {
        if before[k] == 0 { EmptyFile(p[..j], a, m, k); }
      }
      forall k | 0 <= k < m ensures after[k] <= 2 {
        LoadByCount(p, b, m, p[j], k);
        CountBelowThree(after[k], p[j], limit);
      }
      var single := set k: nat | k < m && before[k] == 1;
      var alone := set k: nat | k < m && after[k] == 1;
      forall k | k in single ensures exists t: nat :: FillsAlone(p, a, limit, p[j], k, t) {
        var t := OnlyGroup(p[..j], a, m, k);
        assert FillsAlone(p, a, limit, p[j], k, t);
      }
      SingleStaysAlone(p, a, b, m, limit, j, single, alone);
      SumExcept(before, 2, single);
      SumExcept(after, 2, alone);
      CountsTotal(a, m);
      CountsTotal(b, m);
    }
  }

  lemma PrefixFits(p: seq<nat>, b: seq<nat>, m: nat, limit: nat, n: nat)
    requires FitsIn(p, b, m, limit) && n <= |p|
    ensures FitsIn(p[..n], b[..n], m, limit)
  {
    forall i | 0 <= i < m ensures Loads(p[..n], b[..n], m)[i] <= limit {
      LoadsGrow(p, b, m, n, i);
    }
  }

  /** A group above a third of the limit that goes to a smallest file fits there. */
  lemma LargeGroupFits(p: seq<nat>, a: seq<nat>, b: seq<nat>, m: nat, limit: nat, k: nat, j: nat)
    requires IsAssignment(a, |p|, m) && Descending(p) && FitsIn(p, b, m, limit) && k < m && j < |p|
    requires 3 * p[j] > limit && IsFirstMin(Loads(p[..j], a[..j], m), k)
    ensures Loads(p[..j], a[..j], m)[k] + p[j] <= limit
  {
    PrefixFits(p, b, m, limit, j + 1);
    assert p[..j + 1][..j] == p[..j];
    RoomForLast(p[..j + 1], a[..j], b[..j + 1], m, limit, j);
  }

  /** With the groups in descending order, as `arsort` leaves them, the greedy packing is
      within 4/3 - 1/(3m) of every packing of the same groups. */
  lemma GreedyDescendingFourThirds(p: seq<nat>, a: seq<nat>, b: seq<nat>, m: nat, limit: nat, k: nat)
    requires IsGreedy(p, a, m) && Descending(p) && FitsIn(p, b, m, limit) && k < m
    ensures 3 * m * Loads(p, a, m)[k] <= (4 * m - 1) * limit
  {
    var total := Loads(p, a, m)[k];
    if total > 0 {
      var j := LastPlaced(p, a, m, k);
      LastPlacedBound(p, a, b, m, limit, k, j);
      if 3 * p[j] <= limit {
        OverflowFourThirds(m, Loads(p[..j], a[..j], m)[k], p[j], limit);
      } else {
        LargeGroupFits(p, a, b, m, limit, k, j);
        WithinBound(m, total, limit);
      }
    } else {
      WithinBound(m, total, limit);
    }
  }
}
