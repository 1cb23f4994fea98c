/** Splitting a source file: the functions are grouped by union-find, the groups are packed
    into the chunks.  Reading the file, the regular expressions that find dependency names
    and the include clean-up are not part of this model; the functions and the list of
    functions per dependency name are the input. */
module SplitSource {
  import opened DisjointSets
  import opened Packing

  function TextOf(functions: seq<string>, i: nat): string {
    if i < |functions| then functions[i] else ""
  }

  /** The texts of the first n listed functions, one after the other. */
  function TextUpTo(functions: seq<string>, ids: seq<nat>, n: nat): string
    requires n <= |ids|
  {
    if n == 0 then "" else TextUpTo(functions, ids, n - 1) + TextOf(functions, ids[n - 1])
  }

  function Text(functions: seq<string>, ids: seq<nat>): string {
    TextUpTo(functions, ids, |ids|)
  }

  lemma {:induction false} TextOfConcat(functions: seq<string>, x: seq<nat>, y: seq<nat>, n: nat)
    requires n <= |x| + |y|
    ensures TextUpTo(functions, x + y, n)
      == if n <= |x| then TextUpTo(functions, x, n) else Text(functions, x) + TextUpTo(functions, y, n - |x|)
  {
    if n > 0 {
      TextOfConcat(functions, x, y, n - 1);
    }
  }

  lemma TextConcat(functions: seq<string>, x: seq<nat>, y: seq<nat>)
    ensures Text(functions, x + y) == Text(functions, x) + Text(functions, y)
  {
    TextOfConcat(functions, x, y, |x| + |y|);
  }

  /** The first n functions that belong to class c, in source order. */
  function Members(cls: seq<nat>, c: nat, n: nat): seq<nat>
    requires n <= |cls|
  {
    if n == 0 then []
    else if cls[n - 1] == c then Members(cls, c, n - 1) + [n - 1]
    else Members(cls, c, n - 1)
  }

  /** How often i is among the first n of ids. */
  function OccursUpTo(ids: seq<nat>, i: nat, n: nat): nat
    requires n <= |ids|
  {
    if n == 0 then 0 else OccursUpTo(ids, i, n - 1) + (if ids[n - 1] == i then 1 else 0)
  }

  function Occurs(ids: seq<nat>, i: nat): nat {
    OccursUpTo(ids, i, |ids|)
  }

  lemma {:induction false} OccursOfConcat(x: seq<nat>, y: seq<nat>, i: nat, n: nat)
    requires n <= |x| + |y|
    ensures OccursUpTo(x + y, i, n)
      == if n <= |x| then OccursUpTo(x, i, n) else Occurs(x, i) + OccursUpTo(y, i, n - |x|)
  {
    if n > 0 {
      OccursOfConcat(x, y, i, n - 1);
    }
  }

  lemma OccursConcat(x: seq<nat>, y: seq<nat>, i: nat)
    ensures Occurs(x + y, i) == Occurs(x, i) + Occurs(y, i)
  {
    OccursOfConcat(x, y, i, |x| + |y|);
  }

  lemma {:induction false} MembersOnce(cls: seq<nat>, c: nat, n: nat, i: nat)
    requires n <= |cls|
    ensures Occurs(Members(cls, c, n), i) == if i < n && cls[i] == c then 1 else 0
  {
    if n > 0 {
      MembersOnce(cls, c, n - 1, i);
      OccursConcat(Members(cls, c, n - 1), [n - 1], i);
      assert OccursUpTo([n - 1], i, 0) == 0;
    }
  }

  /** The functions written into file k when the groups `order` are placed by a. */
  function Layout(cls: seq<nat>, order: seq<nat>, a: seq<nat>, k: nat): seq<nat>
    requires |a| == |order|
  {
    if order == [] then []
    else
      var q := |order| - 1;
      var ids := Layout(cls, order[..q], a[..q], k);
      if a[q] == k then ids + Members(cls, order[q], |cls|) else ids
  }

  lemma LayoutStep(cls: seq<nat>, order: seq<nat>, a: seq<nat>, k: nat, i: nat)
    requires |a| == |order| && order != [] && i < |cls|
    ensures var q := |order| - 1;
      Occurs(Layout(cls, order, a, k), i)
        == Occurs(Layout(cls, order[..q], a[..q], k), i) + (if a[q] == k && order[q] == cls[i] then 1 else 0)
  {
    var q := |order| - 1;
    MembersOnce(cls, order[q], |cls|, i);
    OccursConcat(Layout(cls, order[..q], a[..q], k), Members(cls, order[q], |cls|), i);
  }

  lemma {:induction false} LayoutAbsent(cls: seq<nat>, order: seq<nat>, a: seq<nat>, k: nat, i: nat)
    requires |a| == |order| && i < |cls| && forall t | 0 <= t < |order| :: order[t] == cls[i] ==> a[t] != k
    ensures Occurs(Layout(cls, order, a, k), i) == 0
  {
    if order != [] {
      var q := |order| - 1;
      LayoutAbsent(cls, order[..q], a[..q], k, i);
      LayoutStep(cls, order, a, k, i);
    }
  }

  /** A function is written exactly once into the file of its group. */
  lemma {:induction false} LayoutOnce(cls: seq<nat>, order: seq<nat>, a: seq<nat>, t: nat, i: nat)
    requires |a| == |order| && t < |order| && i < |cls| && order[t] == cls[i]
    requires forall u, v | 0 <= u < v < |order| :: order[u] != order[v]
    ensures Occurs(Layout(cls, order, a, a[t]), i) == 1
  {
    var q := |order| - 1;
    LayoutStep(cls, order, a, a[t], i);
    if t < q {
      LayoutOnce(cls, order[..q], a[..q], t, i);
    } else {
      LayoutAbsent(cls, order[..q], a[..q], a[t], i);
    }
  }

  /** The text collected for class c from the first n functions. */
  function GroupText(functions: seq<string>, cls: seq<nat>, c: nat, n: nat): string
    requires n <= |cls| == |functions|
  {
    if n == 0 then ""
    else if cls[n - 1] == c then GroupText(functions, cls, c, n - 1) + functions[n - 1]
    else GroupText(functions, cls, c, n - 1)
  }

  lemma {:induction false} GroupTextIsText(functions: seq<string>, cls: seq<nat>, c: nat, n: nat)
    requires n <= |cls| == |functions|
    ensures GroupText(functions, cls, c, n) == Text(functions, Members(cls, c, n))
  {
    if n > 0 {
      GroupTextIsText(functions, cls, c, n - 1);
      if cls[n - 1] == c {
        TextConcat(functions, Members(cls, c, n - 1), [n - 1]);
        assert TextUpTo(functions, [n - 1], 0) == "";
      }
    }
  }

  lemma {:induction false} EmptyGroup(functions: seq<string>, cls: seq<nat>, c: nat, n: nat)
    requires n <= |cls| == |functions| && forall i | 0 <= i < n :: cls[i] != c
    ensures GroupText(functions, cls, c, n) == ""
  {
    if n > 0 {
      EmptyGroup(functions, cls, c, n - 1);
    }
  }

  ghost predicate Appears(cls: seq<nat>, c: nat, n: nat)
    requires n <= |cls|
  {
    exists i | 0 <= i < n :: cls[i] == c
  }

  /** The groups after the first n functions. */
  ghost predicate Grouped(functions: seq<string>, cls: seq<nat>, n: nat,
                          sets: map<nat, string>, setSizes: map<nat, nat>)
    requires n <= |cls| == |functions|
  {
    && sets.Keys == setSizes.Keys
    && (forall i | 0 <= i < n :: cls[i] in sets)
    && (forall c | c in sets :: Appears(cls, c, n))
    && (forall c | c in sets :: sets[c] == GroupText(functions, cls, c, n))
    && (forall c | c in sets :: setSizes[c] == |sets[c]|)
  }

  /** Adds a function's text and length to the group of its class; the first one starts the group. */
  method AppendFunction(functions: seq<string>, ghost cls: seq<nat>, n: nat, parent: nat,
                        sets0: map<nat, string>, setSizes0: map<nat, nat>)
    returns (sets: map<nat, string>, setSizes: map<nat, nat>)
    requires n < |cls| == |functions| && cls[n] == parent && Grouped(functions, cls, n, sets0, setSizes0)
    ensures Grouped(functions, cls, n + 1, sets, setSizes)
  {
    sets, setSizes := sets0, setSizes0;
    if parent !in sets {
      EmptyGroup(functions, cls, parent, n);
      sets, setSizes := sets[parent := ""], setSizes[parent := 0];
    }
    sets := sets[parent := sets[parent] + functions[n]];
    setSizes := setSizes[parent := setSizes[parent] + |functions[n]|];
    assert Appears(cls, parent, n + 1);
    forall c | c in sets && c != parent ensures Appears(cls, c, n + 1) {
      assert Appears(cls, c, n);
    }
  }

  method Group(functions: seq<string>, ds: DisjointSet) returns (sets: map<nat, string>, setSizes: map<nat, nat>)
    requires ds.Valid() && ds.parents.Length == |functions|
    modifies ds.parents
    ensures ds.Valid() && Grouped(functions, ds.cls, |functions|, sets, setSizes)
  {
    sets, setSizes := map[], map[];
    ghost var cls := ds.cls;
    var i := 0;
    while i < |functions|
      invariant 0 <= i <= |functions| && ds.Valid() && ds.cls == cls
      invariant Grouped(functions, cls, i, sets, setSizes)
    {
      var parent := ds.Find(i);
      sets, setSizes := AppendFunction(functions, cls, i, parent, sets, setSizes);
      i := i + 1;
    }
  }

  function Sizes(setSizes: map<nat, nat>, order: seq<nat>): (p: seq<nat>)
    requires forall t | 0 <= t < |order| :: order[t] in setSizes
    ensures |p| == |order| && forall t | 0 <= t < |order| :: p[t] == setSizes[order[t]]
  {
    if order == [] then [] else Sizes(setSizes, order[..|order| - 1]) + [setSizes[order[|order| - 1]]]
  }

  ghost predicate IsKeyOrder(order: seq<nat>, keys: set<nat>) {
    && (forall u, v | 0 <= u < v < |order| :: order[u] != order[v])
    && (forall t | 0 <= t < |order| :: order[t] in keys)
    && (forall c | c in keys :: c in order)
  }

  lemma {:induction false} LargestExists(sizes: map<nat, nat>, keys: set<nat>)
    requires keys != {} && keys <= sizes.Keys
    ensures exists c :: c in keys && forall d | d in keys :: sizes[d] <= sizes[c]
  {
    var c :| c in keys;
    if keys != {c} {
      LargestExists(sizes, keys - {c});
      var e :| e in keys - {c} && forall d | d in keys - {c} :: sizes[d] <= sizes[e];
      var w := if sizes[c] > sizes[e] then c else e;
      assert forall d | d in keys :: d == c || d in keys - {c};
      assert w in keys && forall d | d in keys :: sizes[d] <= sizes[w];
    } else {
      assert c in keys && forall d | d in keys :: sizes[d] <= sizes[c];
    }
  }

  /** `arsort`: the keys by descending size, ties in any order */
  method Arsort(sizes: map<nat, nat>) returns (order: seq<nat>)
    ensures IsKeyOrder(order, sizes.Keys) && Descending(Sizes(sizes, order))
  {
    order := [];
    var left := sizes.Keys;
    while left != {}
      invariant left <= sizes.Keys && IsKeyOrder(order, sizes.Keys - left)
      invariant forall u | 0 <= u < |order| :: order[u] in sizes
      invariant forall u, v | 0 <= u < v < |order| :: sizes[order[v]] <= sizes[order[u]]
      invariant forall u, c | 0 <= u < |order| && c in left :: sizes[c] <= sizes[order[u]]
      decreases left
    {
      LargestExists(sizes, left);
      var c :| c in left && forall d | d in left :: sizes[d] <= sizes[c];
      order, left := order + [c], left - {c};
    }
  }

  /** `array_search(min($file_sizes), $file_sizes)` */
  method FirstSmallest(v: seq<nat>) returns (k: nat)
    requires v != []
    ensures IsFirstMin(v, k)
  {
    k := 0;
    var i := 1;
    while i < |v|
      invariant 1 <= i <= |v| && k < i
      invariant forall h | 0 <= h < i :: v[k] <= v[h]
      invariant forall h | 0 <= h < k :: v[k] < v[h]
    {
      if v[i] < v[k] {
        k := i;
      }
      i := i + 1;
    }
  }

  /** The chunks after placing the groups of `order` by a. */
  ghost predicate Packed(functions: seq<string>, cls: seq<nat>, p: seq<nat>, order: seq<nat>, a: seq<nat>,
                         chunks: nat, files: seq<string>, fileSizes: seq<nat>)
    requires |cls| == |functions|
  {
    && |files| == chunks && |p| == |order| == |a|
    && IsGreedy(p, a, chunks) && fileSizes == Loads(p, a, chunks)
    && forall k | 0 <= k < chunks :: files[k] == Text(functions, Layout(cls, order, a, k))
  }

  lemma PackedNone(functions: seq<string>, cls: seq<nat>, chunks: nat, files: seq<string>, fileSizes: seq<nat>)
    requires |cls| == |functions| && |files| == |fileSizes| == chunks
    requires forall k | 0 <= k < chunks :: files[k] == "" && fileSizes[k] == 0
    ensures Packed(functions, cls, [], [], [], chunks, files, fileSizes)
  {
  }

  lemma PackStep(functions: seq<string>, cls: seq<nat>, p: seq<nat>, order: seq<nat>, a: seq<nat>,
                 chunks: nat, files: seq<string>, fileSizes: seq<nat>, size: nat, parent: nat, k: nat)
    requires |cls| == |functions| && Packed(functions, cls, p, order, a, chunks, files, fileSizes)
    requires IsFirstMin(fileSizes, k)
    ensures Packed(functions, cls, p + [size], order + [parent], a + [k], chunks,
                   files[k := files[k] + Text(functions, Members(cls, parent, |cls|))],
                   fileSizes[k := fileSizes[k] + size])
  {
    GreedyExtend(p, a, chunks, k, size);
    var longer, b := order + [parent], a + [k];
    assert longer[..|order|] == order && b[..|a|] == a;
    forall f | 0 <= f < chunks
      ensures Text(functions, Layout(cls, longer, b, f))
        == if f == k then files[f] + Text(functions, Members(cls, parent, |cls|)) else files[f]
    {
      if f == k {
        TextConcat(functions, Layout(cls, order, a, f), Members(cls, parent, |cls|));
      } else {
        assert Layout(cls, longer, b, f) == Layout(cls, order, a, f);
      }
    }
  }

  lemma PackNext(functions: seq<string>, cls: seq<nat>, p: seq<nat>, order: seq<nat>, t: nat, a: seq<nat>,
                 chunks: nat, files: seq<string>, fileSizes: seq<nat>, k: nat)
    requires |cls| == |functions| && t < |p| == |order|
    requires Packed(functions, cls, p[..t], order[..t], a, chunks, files, fileSizes) && IsFirstMin(fileSizes, k)
    requires |files| == |fileSizes|
    ensures Packed(functions, cls, p[..t + 1], order[..t + 1], a + [k], chunks,
                   files[k := files[k] + Text(functions, Members(cls, order[t], |cls|))],
                   fileSizes[k := fileSizes[k] + p[t]])
  {
    PackStep(functions, cls, p[..t], order[..t], a, chunks, files, fileSizes, p[t], order[t], k);
    assert order[..t + 1] == order[..t] + [order[t]];
    assert p[..t + 1] == p[..t] + [p[t]];
  }

  lemma GreedyExtend(p: seq<nat>, a: seq<nat>, m: nat, k: nat, size: nat)
    requires IsGreedy(p, a, m) && IsFirstMin(Loads(p, a, m), k)
    ensures IsGreedy(p + [size], a + [k], m)
    ensures Loads(p + [size], a + [k], m) == var v := Loads(p, a, m); v[k := v[k] + size]
  {
    var q, b, n := p + [size], a + [k], |p|;
    assert q[..n] == p && b[..n] == a;
    forall t | 0 <= t < |q| ensures PlacedGreedily(q, b, m, t) {
      if t < n {
        assert PlacedGreedily(p, a, m, t);
        assert q[..t] == p[..t] && b[..t] == a[..t];
      }
    }
  }

  method Pack(functions: seq<string>, ghost cls: seq<nat>, sets: map<nat, string>, setSizes: map<nat, nat>,
              order: seq<nat>, chunks: nat)
    returns (files: seq<string>, fileSizes: seq<nat>, ghost a: seq<nat>)
    requires chunks > 0 && |cls| == |functions| && Grouped(functions, cls, |cls|, sets, setSizes)
    requires forall t | 0 <= t < |order| :: order[t] in sets
    ensures Packed(functions, cls, Sizes(setSizes, order), order, a, chunks, files, fileSizes)
  {
    files, fileSizes, a := seq(chunks, _ => ""), seq(chunks, _ => 0), [];
    ghost var p := Sizes(setSizes, order);
    PackedNone(functions, cls, chunks, files, fileSizes);
    var t := 0;
    while t < |order|
      invariant 0 <= t <= |order|
      invariant Packed(functions, cls, p[..t], order[..t], a, chunks, files, fileSizes)
    {
      var fileId := FirstSmallest(fileSizes);
      var parent := order[t];
      GroupTextIsText(functions, cls, parent, |cls|);
      PackNext(functions, cls, p, order, t, a, chunks, files, fileSizes, fileId);
      files := files[fileId := files[fileId] + sets[parent]];
      fileSizes := fileSizes[fileId := fileSizes[fileId] + setSizes[parent]];
      a := a + [fileId];
      t := t + 1;
    }
    assert order[..t] == order && p[..t] == p;
  }

  /** File k holds the functions listed in layout[k], and function i is listed once, under
      its home file. */
  ghost predicate WritesOnce(functions: seq<string>, files: seq<string>, layout: seq<seq<nat>>, home: seq<nat>) {
    && |layout| == |files| && |home| == |functions|
    && (forall k | 0 <= k < |files| :: files[k] == Text(functions, layout[k]))
    && (forall i | 0 <= i < |home| :: home[i] < |files|)
    && (forall i, k | 0 <= i < |home| && 0 <= k < |files| ::
      Occurs(layout[k], i) == if k == home[i] then 1 else 0)
  }

  /** Functions linked by dependency names have one home. */
  ghost predicate KeepsTogether(deps: seq<seq<nat>>, home: seq<nat>) {
    forall i, j | 0 <= i < |home| && 0 <= j < |home| && Connected(deps, i, j) :: home[i] == home[j]
  }

  datatype SplitResult = TooSmall | Split(files: seq<string>)

  /** The components of the functions: their classes, the classes by size, and these sizes. */
  datatype Components = Components(cls: seq<nat>, order: seq<nat>, sizes: seq<nat>)

  ghost predicate AreComponents(functions: seq<string>, deps: seq<seq<nat>>, c: Components) {
    && |c.cls| == |functions|
    && (forall i, j | 0 <= i < |functions| && 0 <= j < |functions| ::
      c.cls[i] == c.cls[j] <==> Connected(deps, i, j))
    && IsListing(c.order, c.cls)
    && |c.sizes| == |c.order| && Descending(c.sizes)
    && (forall t | 0 <= t < |c.order| :: c.sizes[t] == GroupSize(functions, c.cls, c.order[t]))
  }

  /** The order lists every class that occurs, and each once. */
  ghost predicate IsListing(order: seq<nat>, cls: seq<nat>) {
    && (forall u, v | 0 <= u < v < |order| :: order[u] != order[v])
    && (forall t | 0 <= t < |order| :: order[t] in cls)
    && (forall i | 0 <= i < |cls| :: cls[i] in order)
  }

  /** Functions are at home where their component was placed. */
  ghost predicate AtHome(c: Components, a: seq<nat>, home: seq<nat>) {
    && |a| == |c.order| && |home| == |c.cls|
    && forall i, t | 0 <= i < |home| && 0 <= t < |a| && c.order[t] == c.cls[i] :: home[i] == a[t]
  }

  /** No file is longer than 4/3 - 1/(3m) times the longest file of any other distribution of
      the components over m files. */
  ghost predicate NearlyOptimal(sizes: seq<nat>, files: seq<string>) {
    forall b, limit, k | FitsIn(sizes, b, |files|, limit) && 0 <= k < |files| ::
      3 * |files| * |files[k]| <= (4 * |files| - 1) * limit
  }

  /** Every function is written once, into the file `home` where its component was placed; the
      components are packed greedily in descending size. */
  method SplitFunctions(functions: seq<string>, deps: seq<seq<nat>>, chunks: nat)
    returns (r: SplitResult, ghost layout: seq<seq<nat>>, ghost home: seq<nat>, ghost c: Components,
             ghost a: seq<nat>)
    requires chunks > 0 && DepsInRange(deps, |functions|)
    ensures r.TooSmall? <==> |functions| < chunks
    ensures r.Split? ==> |r.files| == chunks
    ensures r.Split? ==> AreComponents(functions, deps, c)
    ensures r.Split? ==> WritesOnce(functions, r.files, layout, home)
    ensures r.Split? ==> AtHome(c, a, home) && KeepsTogether(deps, home)
    ensures r.Split? ==> IsGreedy(c.sizes, a, chunks)
    ensures r.Split? ==> forall k | 0 <= k < chunks :: |r.files[k]| == Loads(c.sizes, a, chunks)[k]
    ensures r.Split? ==> NearlyOptimal(c.sizes, r.files)
  {
    layout, home, c, a := [], [], Components([], [], []), [];
    if |functions| < chunks {
      return TooSmall, layout, home, c, a;
    }
    var ds := JoinDependencies(|functions|, deps);
    var sets, setSizes := Group(functions, ds);
    var order := Arsort(setSizes);
    var files, fileSizes;
    files, fileSizes, a := Pack(functions, ds.cls, sets, setSizes, order, chunks);
    c := Components(ds.cls, order, Sizes(setSizes, order));
    GroupsAreComponents(functions, deps, c, sets, setSizes);
    layout := Layouts(c.cls, order, a, chunks);
    home := Homes(c.cls, order, a, |c.cls|);
    PackedWell(functions, deps, c, a, files, fileSizes, layout, home);
    r := Split(files);
  }

  lemma GroupsAreComponents(functions: seq<string>, deps: seq<seq<nat>>, c: Components,
                            sets: map<nat, string>, setSizes: map<nat, nat>)
    requires |c.cls| == |functions| && Grouped(functions, c.cls, |c.cls|, sets, setSizes)
    requires forall i, j | 0 <= i < |functions| && 0 <= j < |functions| ::
      c.cls[i] == c.cls[j] <==> Connected(deps, i, j)
    requires IsKeyOrder(c.order, setSizes.Keys) && c.sizes == Sizes(setSizes, c.order) && Descending(c.sizes)
    ensures AreComponents(functions, deps, c)
  {
    SizesOfGroups(functions, c.cls, sets, setSizes, c.order);
    forall t | 0 <= t < |c.order| ensures c.order[t] in c.cls {
      assert Appears(c.cls, c.order[t], |c.cls|);
    }
  }

  lemma PackedWell(functions: seq<string>, deps: seq<seq<nat>>, c: Components, a: seq<nat>, files: seq<string>,
                   fileSizes: seq<nat>, layout: seq<seq<nat>>, home: seq<nat>)
    requires AreComponents(functions, deps, c)
    requires Packed(functions, c.cls, c.sizes, c.order, a, |files|, files, fileSizes)
    requires layout == Layouts(c.cls, c.order, a, |files|) && home == Homes(c.cls, c.order, a, |c.cls|)
    ensures WritesOnce(functions, files, layout, home)
    ensures AtHome(c, a, home) && KeepsTogether(deps, home)
    ensures forall k | 0 <= k < |files| :: |files[k]| == Loads(c.sizes, a, |files|)[k]
    ensures NearlyOptimal(c.sizes, files)
  {
    WritesOnceHolds(functions, c.cls, c.order, a, files, layout, home);
    HomeOfComponents(functions, deps, c, a, home);
    FilesFollowLoads(functions, c, a, files);
    LoadsNearlyOptimal(c.sizes, a, files);
  }

  lemma FilesFollowLoads(functions: seq<string>, c: Components, a: seq<nat>, files: seq<string>)
    requires |c.cls| == |functions| && |c.sizes| == |c.order|
    requires forall t | 0 <= t < |c.order| :: c.sizes[t] == GroupSize(functions, c.cls, c.order[t])
    requires IsAssignment(a, |c.order|, |files|)
    requires forall k | 0 <= k < |files| :: files[k] == Text(functions, Layout(c.cls, c.order, a, k))
    ensures forall k | 0 <= k < |files| :: |files[k]| == Loads(c.sizes, a, |files|)[k]
  {
    forall k | 0 <= k < |files| ensures |files[k]| == Loads(c.sizes, a, |files|)[k] {
      LayoutSize(functions, c.cls, c.sizes, c.order, a, |files|, k);
    }
  }

  lemma LoadsNearlyOptimal(sizes: seq<nat>, a: seq<nat>, files: seq<string>)
    requires IsGreedy(sizes, a, |files|) && Descending(sizes)
    requires forall k | 0 <= k < |files| :: |files[k]| == Loads(sizes, a, |files|)[k]
    ensures NearlyOptimal(sizes, files)
  {
    forall b, limit, k | FitsIn(sizes, b, |files|, limit) && 0 <= k < |files|
      ensures 3 * |files| * |files[k]| <= (4 * |files| - 1) * limit
    {
      GreedyDescendingFourThirds(sizes, a, b, |files|, limit, k);
    }
  }

  ghost function Layouts(cls: seq<nat>, order: seq<nat>, a: seq<nat>, chunks: nat): (l: seq<seq<nat>>)
    requires |a| == |order|
    ensures |l| == chunks && forall k | 0 <= k < chunks :: l[k] == Layout(cls, order, a, k)
  {
    seq(chunks, k requires 0 <= k < chunks => Layout(cls, order, a, k))
  }

  ghost function Homes(cls: seq<nat>, order: seq<nat>, a: seq<nat>, n: nat): (h: seq<nat>)
    requires |a| == |order| && n <= |cls| && forall i | 0 <= i < |cls| :: cls[i] in order
    ensures |h| == n && forall i | 0 <= i < n :: h[i] == HomeOf(cls, order, a, i)
  {
    if n == 0 then [] else Homes(cls, order, a, n - 1) + [HomeOf(cls, order, a, n - 1)]
  }

  lemma WritesOnceHolds(functions: seq<string>, cls: seq<nat>, order: seq<nat>, a: seq<nat>,
                        files: seq<string>, layout: seq<seq<nat>>, home: seq<nat>)
    requires |a| == |order| && |home| == |cls| == |functions| && |layout| == |files|
    requires forall t | 0 <= t < |a| :: a[t] < |files|
    requires forall u, v | 0 <= u < v < |order| :: order[u] != order[v]
    requires forall i | 0 <= i < |cls| :: cls[i] in order && home[i] == HomeOf(cls, order, a, i)
    requires forall k | 0 <= k < |files| ::
      layout[k] == Layout(cls, order, a, k) && files[k] == Text(functions, layout[k])
    ensures WritesOnce(functions, files, layout, home)
  {
    forall i | 0 <= i < |home| ensures home[i] < |files| {
      HomeInside(cls, order, a, i, |files|);
    }
    forall i, k | 0 <= i < |home| && 0 <= k < |files|
      ensures Occurs(layout[k], i) == if k == home[i] then 1 else 0
    {
      PlacedOnceIn(cls, order, a, i, k, layout[k], home[i]);
    }
  }

  lemma HomeInside(cls: seq<nat>, order: seq<nat>, a: seq<nat>, i: nat, m: nat)
    requires |a| == |order| && i < |cls| && cls[i] in order && forall t | 0 <= t < |a| :: a[t] < m
    ensures HomeOf(cls, order, a, i) < m
  {
  }

  lemma PlacedOnceIn(cls: seq<nat>, order: seq<nat>, a: seq<nat>, i: nat, k: nat, ids: seq<nat>, home: nat)
    requires |a| == |order| && i < |cls| && cls[i] in order
    requires forall u, v | 0 <= u < v < |order| :: order[u] != order[v]
    requires ids == Layout(cls, order, a, k) && home == HomeOf(cls, order, a, i)
    ensures Occurs(ids, i) == if k == home then 1 else 0
  {
    PlacedOnce(cls, order, a, i, k);
  }

  function GroupSize(functions: seq<string>, cls: seq<nat>, c: nat): nat {
    |Text(functions, Members(cls, c, |cls|))|
  }

  lemma SizesOfGroups(functions: seq<string>, cls: seq<nat>, sets: map<nat, string>, setSizes: map<nat, nat>,
                      order: seq<nat>)
    requires |cls| == |functions| && Grouped(functions, cls, |cls|, sets, setSizes)
    requires forall t | 0 <= t < |order| :: order[t] in sets
    ensures forall t | 0 <= t < |order| :: Sizes(setSizes, order)[t] == GroupSize(functions, cls, order[t])
  {
    forall c | c in sets ensures setSizes[c] == GroupSize(functions, cls, c) {
      GroupTextIsText(functions, cls, c, |cls|);
    }
  }

  lemma HomeOfComponents(functions: seq<string>, deps: seq<seq<nat>>, c: Components, a: seq<nat>, home: seq<nat>)
    requires AreComponents(functions, deps, c) && |a| == |c.order| && |home| == |c.cls|
    requires forall i | 0 <= i < |c.cls| :: home[i] == HomeOf(c.cls, c.order, a, i)
    ensures AtHome(c, a, home) && KeepsTogether(deps, home)
  {
  }

  /** The file of the group of function i. */
  ghost function HomeOf(cls: seq<nat>, order: seq<nat>, a: seq<nat>, i: nat): nat
    requires |a| == |order| && i < |cls| && cls[i] in order
  {
    var t :| 0 <= t < |order| && order[t] == cls[i];
    a[t]
  }

  lemma PlacedOnce(cls: seq<nat>, order: seq<nat>, a: seq<nat>, i: nat, k: nat)
    requires |a| == |order| && i < |cls| && cls[i] in order
    requires forall u, v | 0 <= u < v < |order| :: order[u] != order[v]
    ensures Occurs(Layout(cls, order, a, k), i) == if k == HomeOf(cls, order, a, i) then 1 else 0
  {
    var t :| 0 <= t < |order| && order[t] == cls[i] && a[t] == HomeOf(cls, order, a, i);
    if k == a[t] {
      LayoutOnce(cls, order, a, t, i);
    } else {
      LayoutAbsent(cls, order, a, k, i);
    }
  }

  lemma {:induction false} LayoutSize(functions: seq<string>, cls: seq<nat>, p: seq<nat>, order: seq<nat>,
                                      a: seq<nat>, m: nat, k: nat)
    requires |cls| == |functions| && |p| == |order| && IsAssignment(a, |order|, m) && k < m
    requires forall t | 0 <= t < |order| :: p[t] == GroupSize(functions, cls, order[t])
    ensures |Text(functions, Layout(cls, order, a, k))| == Loads(p, a, m)[k]
  {
    if order != [] {
      var q := |order| - 1;
      LayoutSize(functions, cls, p[..q], order[..q], a[..q], m, k);
      if a[q] == k {
        TextConcat(functions, Layout(cls, order[..q], a[..q], k), Members(cls, order[q], |cls|));
      }
    }
  }
}
