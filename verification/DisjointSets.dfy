/** Which functions of a split source file must stay together: union-find over the
    functions, with path compression and linking in a random direction. */
module DisjointSets {

  /** i and j occur in the list of one dependency name. */
  ghost predicate SharesName(deps: seq<seq<nat>>, i: nat, j: nat) {
    exists k :: 0 <= k < |deps| && i in deps[k] && j in deps[k]
  }

  ghost predicate IsPath(deps: seq<seq<nat>>, path: seq<nat>, i: nat, j: nat) {
    && path != [] && path[0] == i && path[|path| - 1] == j
    && forall t | 0 <= t < |path| - 1 :: SharesName(deps, path[t], path[t + 1])
  }

  /** Linked by a chain of functions, neighbours sharing a name. */
  ghost predicate Connected(deps: seq<seq<nat>>, i: nat, j: nat) {
    exists path :: IsPath(deps, path, i, j)
  }

  lemma ConnectedSelf(deps: seq<seq<nat>>, i: nat)
    ensures Connected(deps, i, i)
  {
    assert IsPath(deps, [i], i, i);
  }

  /** Two chains whose ends share a name make one chain. */
  lemma ConnectedJoin(deps: seq<seq<nat>>, i: nat, x: nat, y: nat, j: nat)
    requires Connected(deps, i, x) && SharesName(deps, x, y) && Connected(deps, y, j)
    ensures Connected(deps, i, j)
  {
    var p :| IsPath(deps, p, i, x);
    var q :| IsPath(deps, q, y, j);
    var r := p + q;
    forall t | 0 <= t < |r| - 1 ensures SharesName(deps, r[t], r[t + 1]) {
      if t < |p| - 1 {
        assert r[t] == p[t] && r[t + 1] == p[t + 1];
      } else if t >= |p| {
        assert r[t] == q[t - |p|] && r[t + 1] == q[t - |p| + 1];
      }
    }
    assert IsPath(deps, r, i, j);
  }

  /** A labelling that is constant on every name's list is constant along chains. */
  lemma {:induction false} ConstantOnPath(deps: seq<seq<nat>>, cls: seq<nat>, path: seq<nat>, i: nat, j: nat)
    requires forall a: nat, b: nat | SharesName(deps, a, b) :: a < |cls| && b < |cls| && cls[a] == cls[b]
    requires IsPath(deps, path, i, j) && i < |cls|
    ensures j < |cls| && cls[i] == cls[j]
    decreases |path|
  {
    if |path| > 1 {
      assert SharesName(deps, path[0], path[1]);
      assert IsPath(deps, path[1..], path[1], j) by {
        forall t | 0 <= t < |path| - 2 ensures SharesName(deps, path[1..][t], path[1..][t + 1]) {
          assert SharesName(deps, path[t + 1], path[t + 2]);
        }
      }
      ConstantOnPath(deps, cls, path[1..], path[1], j);
    }
  }

  ghost predicate NodeOk(p: seq<nat>, cls: seq<nat>, rank: seq<nat>, top: nat, x: nat)
    requires |p| == |cls| == |rank| && x < |p|
  {
    && p[x] < |p|
    && cls[x] == cls[p[x]]
    && rank[x] <= top
    && (p[x] == x <==> cls[x] == x)
    && (p[x] != x ==> rank[x] < rank[p[x]])
  }

  /** p is a forest whose roots are the class labels; ranks grow towards the root. */
  ghost predicate IsForest(p: seq<nat>, cls: seq<nat>, rank: seq<nat>, top: nat) {
    && |p| == |cls| == |rank|
    && forall x | 0 <= x < |p| :: NodeOk(p, cls, rank, top, x)
  }

  function Relabel(c: seq<nat>, a: nat, b: nat): (d: seq<nat>)
    ensures |d| == |c|
    ensures forall i | 0 <= i < |c| :: d[i] == if c[i] == a then b else c[i]
  {
    if c == [] then [] else Relabel(c[..|c| - 1], a, b) + [if c[|c| - 1] == a then b else c[|c| - 1]]
  }

  /** d equates what c equates, and in addition the classes of x and y. */
  ghost predicate Merges(c: seq<nat>, d: seq<nat>, x: nat, y: nat) {
    && |d| == |c| && x < |c| && y < |c|
    && forall i, j | 0 <= i < |c| && 0 <= j < |c| ::
      d[i] == d[j] <==> c[i] == c[j] || (c[i] == c[x] && c[j] == c[y]) || (c[i] == c[y] && c[j] == c[x])
  }

  lemma RelabelMerges(c: seq<nat>, x: nat, y: nat)
    requires x < |c| && y < |c|
    ensures Merges(c, Relabel(c, c[x], c[y]), x, y)
    ensures Merges(c, Relabel(c, c[y], c[x]), x, y)
  {
  }

  /** Pointing a node straight at its root keeps the forest. */
  lemma FindCompresses(p: seq<nat>, cls: seq<nat>, rank: seq<nat>, top: nat, x: nat, r: nat)
    requires IsForest(p, cls, rank, top) && x < |p| && r < |p| && x != r
    requires p[r] == r == cls[x] && rank[x] < rank[r]
    ensures IsForest(p[x := r], cls, rank, top)
  {
    var q := p[x := r];
    assert NodeOk(p, cls, rank, top, r);
    forall y | 0 <= y < |q| ensures NodeOk(q, cls, rank, top, y) {
      assert NodeOk(p, cls, rank, top, y);
    }
  }

  lemma LinkForest(p: seq<nat>, cls: seq<nat>, rank: seq<nat>, top: nat, child: nat, root: nat)
    requires IsForest(p, cls, rank, top) && child < |p| && root < |p| && child != root
    requires p[child] == child && p[root] == root
    ensures var above := if rank[child] + 1 > rank[root] then rank[child] + 1 else rank[root];
      IsForest(p[child := root], Relabel(cls, child, root), rank[root := above], if above > top then above else top)
  {
    var q, d := p[child := root], Relabel(cls, child, root);
    var above := if rank[child] + 1 > rank[root] then rank[child] + 1 else rank[root];
    var s := rank[root := above];
    var topmost := if above > top then above else top;
    assert NodeOk(p, cls, rank, top, child) && NodeOk(p, cls, rank, top, root);
    forall x | 0 <= x < |q| ensures NodeOk(q, d, s, topmost, x) {
      assert NodeOk(p, cls, rank, top, x);
    }
  }

  class DisjointSet {
    const parents: array<nat>
    ghost var cls: seq<nat>
    ghost var rank: seq<nat>
    ghost var top: nat

    ghost predicate Valid() reads this, parents {
      IsForest(parents[..], cls, rank, top)
    }

    constructor (n: nat)
      ensures Valid() && fresh(parents) && parents.Length == n
      ensures cls == seq(n, i => i)
    {
      parents := new nat[n](i => i);
      cls := seq(n, i => i);
      rank := seq(n, _ => 0);
      top := 0;
    }

    method Find(x: nat) returns (r: nat)
      requires Valid() && x < parents.Length
      modifies parents
      ensures Valid()
      ensures r == cls[x] == parents[x] && r < parents.Length && parents[r] == r && rank[x] <= rank[r]
      decreases top - rank[x]
    {
      assert NodeOk(parents[..], cls, rank, top, x);
      if parents[x] != x {
        r := Find(parents[x]);
        label Found:
        assert NodeOk(parents[..], cls, rank, top, r);
        FindCompresses(parents[..], cls, rank, top, x, r);
        parents[x] := r;
        assert parents[..] == old@Found(parents[..])[x := r];
      } else {
        r := x;
      }
    }

    /** Joins exactly the two classes, whichever root the coin makes the parent. */
    method Union(x: nat, y: nat)
      requires Valid() && x < parents.Length && y < parents.Length
      modifies this, parents
      ensures Valid()
      ensures Merges(old(cls), cls, x, y)
    {
      RelabelMerges(cls, x, y);
      var rx := Find(x);
      assert NodeOk(parents[..], cls, rank, top, rx);
      var ry := Find(y);
      assert NodeOk(parents[..], cls, rank, top, rx);
      if rx != ry {
        if * {
          Link(rx, ry);
        } else {
          Link(ry, rx);
        }
      }
    }

    method Link(child: nat, root: nat)
      requires Valid() && child < parents.Length && root < parents.Length && child != root
      requires parents[child] == child && parents[root] == root
      modifies this, parents
      ensures Valid() && cls == Relabel(old(cls), child, root)
    {
      LinkForest(parents[..], cls, rank, top, child, root);
      parents[child] := root;
      assert parents[..] == old(parents[..])[child := root];
      var above := if rank[child] + 1 > rank[root] then rank[child] + 1 else rank[root];
      rank := rank[root := above];
      top := if above > top then above else top;
      cls := Relabel(cls, child, root);
    }
  }

  ghost predicate DepsInRange(deps: seq<seq<nat>>, n: nat) {
    forall k, i | 0 <= k < |deps| && 0 <= i < |deps[k]| :: deps[k][i] < n
  }

  ghost predicate SoundClasses(deps: seq<seq<nat>>, cls: seq<nat>) {
    forall i, j | 0 <= i < |cls| && 0 <= j < |cls| && cls[i] == cls[j] :: Connected(deps, i, j)
  }

  /** The first t entries of the list are in the class of its head. */
  ghost predicate Joined(cls: seq<nat>, ids: seq<nat>, t: nat) {
    forall i | 0 <= i < t && i < |ids| :: ids[i] < |cls| && ids[0] < |cls| && cls[ids[i]] == cls[ids[0]]
  }

  /** One class per connected component of the "shares a dependency name" graph. */
  method JoinDependencies(n: nat, deps: seq<seq<nat>>) returns (ds: DisjointSet)
    requires DepsInRange(deps, n)
    ensures fresh(ds) && fresh(ds.parents) && ds.Valid() && ds.parents.Length == n
    ensures forall i, j | 0 <= i < n && 0 <= j < n :: ds.cls[i] == ds.cls[j] <==> Connected(deps, i, j)
  {
    ds := new DisjointSet(n);
    forall i | 0 <= i < n ensures Connected(deps, i, i) { ConnectedSelf(deps, i); }
    var k := 0;
    while k < |deps|
      invariant 0 <= k <= |deps|
      invariant fresh(ds) && fresh(ds.parents) && ds.Valid() && ds.parents.Length == n
      invariant SoundClasses(deps, ds.cls)
      invariant forall h | 0 <= h < k :: Joined(ds.cls, deps[h], |deps[h]|)
    {
      JoinList(ds, deps, k);
      k := k + 1;
    }
    ClassesComplete(deps, ds.cls);
  }

  method JoinList(ds: DisjointSet, deps: seq<seq<nat>>, k: nat)
    requires k < |deps| && ds.Valid() && DepsInRange(deps, ds.parents.Length)
    requires SoundClasses(deps, ds.cls)
    requires forall h | 0 <= h < k :: Joined(ds.cls, deps[h], |deps[h]|)
    modifies ds, ds.parents
    ensures ds.Valid() && SoundClasses(deps, ds.cls)
    ensures forall h | 0 <= h <= k :: Joined(ds.cls, deps[h], |deps[h]|)
  {
    var ids := deps[k];
    var t := 0;
    while t < |ids|
      invariant 0 <= t <= |ids|
      invariant ds.Valid()
      invariant SoundClasses(deps, ds.cls)
      invariant forall h | 0 <= h < k :: Joined(ds.cls, deps[h], |deps[h]|)
      invariant Joined(ds.cls, ids, t)
    {
      ghost var before := ds.cls;
      ds.Union(ids[0], ids[t]);
      UnionSound(deps, k, before, ds.cls, ids[0], ids[t]);
      forall h | 0 <= h < k ensures Joined(ds.cls, deps[h], |deps[h]|) {
        assert Joined(before, deps[h], |deps[h]|);
      }
      t := t + 1;
    }
  }

  lemma UnionSound(deps: seq<seq<nat>>, k: nat, c: seq<nat>, d: seq<nat>, x: nat, y: nat)
    requires k < |deps| && x in deps[k] && y in deps[k]
    requires SoundClasses(deps, c) && Merges(c, d, x, y)
    ensures SoundClasses(deps, d)
  {
    assert SharesName(deps, x, y) && SharesName(deps, y, x);
    forall i, j | 0 <= i < |d| && 0 <= j < |d| && d[i] == d[j] ensures Connected(deps, i, j) {
      if c[i] == c[x] && c[j] == c[y] {
        ConnectedJoin(deps, i, x, y, j);
      } else if c[i] == c[y] && c[j] == c[x] {
        ConnectedJoin(deps, i, y, x, j);
      }
    }
  }

  lemma ClassesComplete(deps: seq<seq<nat>>, cls: seq<nat>)
    requires forall h | 0 <= h < |deps| :: Joined(cls, deps[h], |deps[h]|)
    ensures forall i, j | 0 <= i < |cls| && 0 <= j < |cls| && Connected(deps, i, j) :: cls[i] == cls[j]
  {
    forall a: nat, b: nat | SharesName(deps, a, b) ensures a < |cls| && b < |cls| && cls[a] == cls[b] {
      var k :| 0 <= k < |deps| && a in deps[k] && b in deps[k];
      assert Joined(cls, deps[k], |deps[k]|);
    }
    forall i, j | 0 <= i < |cls| && 0 <= j < |cls| && Connected(deps, i, j) ensures cls[i] == cls[j] {
      var path :| IsPath(deps, path, i, j);
      ConstantOnPath(deps, cls, path, i, j);
    }
  }
}
