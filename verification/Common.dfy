/** Small definitions that several modules share. */
module Common {

  datatype Option<T> = None | Some(value: T)

  function Min(a: int, b: int): int { if a < b then a else b }

  function Max(a: int, b: int): int { if a < b then b else a }

  function Pow2(n: nat): nat { if n == 0 then 1 else 2 * Pow2(n - 1) }

  function Sum(v: seq<int>): int {
    if v == [] then 0 else Sum(v[..|v| - 1]) + v[|v| - 1]
  }

  lemma {:induction false} SumChange(v: seq<int>, k: nat, x: int)
    requires k < |v|
    ensures Sum(v[k := v[k] + x]) == Sum(v) + x
  {
    var w, q := v[k := v[k] + x], |v| - 1;
    if k < q {
      SumChange(v[..q], k, x);
      assert w[..q] == v[..q][k := v[k] + x];
    } else {
      assert w[..q] == v[..q];
    }
  }

  lemma {:induction false} SumConst(v: seq<int>, c: int)
    requires forall i | 0 <= i < |v| :: v[i] == c
    ensures Sum(v) == |v| * c
  {
    if v != [] {
      SumConst(v[..|v| - 1], c);
    }
  }

  lemma SubsetSize<T>(a: set<T>, b: set<T>)
    requires a <= b
    ensures |a| <= |b|
    ensures |a| == |b| ==> a == b
  {
    var rest := b - a;
    assert b == a + rest;
    if |a| == |b| {
      assert rest == {};
    }
  }
}
