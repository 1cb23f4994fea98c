/** The bounded "already seen" filters for message identifiers.

    `IdDuplicateCheckerOld` and `IdDuplicateCheckerNew` keep an ordered set,
    `IdDuplicateCheckerArray` keeps a sorted array of twice the window size that
    it compacts in place.  All of them are compared with one description that
    never mentions a window: what was submitted before, and how many of those
    identifiers are newer than the one being checked. */
module DuplicateFilter {
  import opened Common

  datatype Verdict = Accepted | AlreadySeen | VeryOld

  function Newer(all: set<nat>, id: nat): set<nat> {
    set x | x in all && id < x
  }

  /** What the filter of size n promises after `all` has been submitted. */
  function Promised(all: set<nat>, n: nat, id: nat): Verdict {
    if |Newer(all, id)| >= n then VeryOld
    else if id in all then AlreadySeen
    else Accepted
  }

  /** w holds the n largest elements of all, or everything when there are fewer. */
  ghost predicate IsWindow(w: set<nat>, all: set<nat>, n: nat) {
    && w <= all
    && |w| == (if |all| <= n then |all| else n)
    && forall x, y | x in all && x !in w && y in w :: x < y
  }

  ghost predicate IsLeast(m: nat, s: set<nat>) {
    m in s && forall x | x in s :: m <= x
  }

  lemma {:induction false} LeastExists(s: set<nat>)
    requires s != {}
    ensures exists m :: IsLeast(m, s)
  {
    var x :| x in s;
    if s == {x} {
      assert IsLeast(x, s);
    } else {
      LeastExists(s - {x});
      var m :| IsLeast(m, s - {x});
      assert forall y | y in s :: y == x || y in s - {x};
      assert IsLeast(if x < m then x else m, s);
    }
  }

  /** `*saved_message_ids_.begin()` */
  method Least(s: set<nat>) returns (m: nat)
    requires s != {}
    ensures IsLeast(m, s)
  {
    LeastExists(s);
    m :| m in s && forall x | x in s :: m <= x;
  }

  /** The set test of the window filters decides the promise. */
  lemma WindowDecides(w: set<nat>, all: set<nat>, n: nat, id: nat)
    requires n > 0 && IsWindow(w, all, n)
    ensures id in w <==> Promised(all, n, id) == AlreadySeen
    ensures (|w| == n && forall y | y in w :: id < y) <==> Promised(all, n, id) == VeryOld
  {
    var newer := Newer(all, id);
    if |w| == n && forall y | y in w :: id < y {
      assert w <= newer;
      SubsetSize(w, newer);
    } else if |w| < n {
      SubsetSize(w, all);
      assert w == all;
      SubsetSize(newer, all);
    } else {
      var y :| y in w && y <= id;
      assert newer <= w - {y};
      SubsetSize(newer, w - {y});
    }
  }

  /** Adding an identifier that the promise does not call very old, then dropping the least
      element when the set got too large, gives the next window. */
  lemma WindowAdvances(w: set<nat>, all: set<nat>, n: nat, id: nat)
    requires n > 0 && IsWindow(w, all, n)
    requires id !in w
    ensures |w| < n ==> IsWindow(w + {id}, all + {id}, n)
    ensures |w| == n ==> forall m | IsLeast(m, w + {id}) :: IsWindow(w + {id} - {m}, all + {id}, n)
  {
    SubsetSize(w, all);
    if |w| < n {
      assert w == all;
    } else {
      if id !in all {
        assert |all + {id}| == |all| + 1;
      } else {
        assert all + {id} == all;
        assert |all| > n by { SubsetSize(w + {id}, all); }
      }
    }
  }

  lemma WindowStays(w: set<nat>, all: set<nat>, n: nat, id: nat)
    requires IsWindow(w, all, n) && id in all
    ensures IsWindow(w, all + {id}, n)
  {
    assert all + {id} == all;
  }

  class IdDuplicateCheckerOld {
    var savedMessageIds: set<nat>
    const maxSavedMessageIds: nat
    ghost var submitted: set<nat>

    ghost predicate Valid() reads this {
      maxSavedMessageIds > 0 && IsWindow(savedMessageIds, submitted, maxSavedMessageIds)
    }

    constructor (n: nat)
      requires n > 0
      ensures Valid() && submitted == {} && maxSavedMessageIds == n
    {
      savedMessageIds, submitted, maxSavedMessageIds := {}, {}, n;
    }

    method Check(id: nat) returns (v: Verdict)
      requires Valid()
      modifies this
      ensures Valid() && submitted == old(submitted) + {id}
      ensures v == Promised(old(submitted), maxSavedMessageIds, id)
    {
      WindowDecides(savedMessageIds, submitted, maxSavedMessageIds, id);
      ghost var before := submitted;
      submitted := submitted + {id};
      if |savedMessageIds| == maxSavedMessageIds {
        var oldest := Least(savedMessageIds);
        if id < oldest {
          assert IsLeast(id, savedMessageIds + {id});
          WindowAdvances(savedMessageIds, before, maxSavedMessageIds, id);
          assert savedMessageIds + {id} - {id} == savedMessageIds;
          return VeryOld;
        }
      }
      if id in savedMessageIds {
        WindowStays(savedMessageIds, before, maxSavedMessageIds, id);
        return AlreadySeen;
      }
      WindowAdvances(savedMessageIds, before, maxSavedMessageIds, id);
      savedMessageIds := savedMessageIds + {id};
      if |savedMessageIds| > maxSavedMessageIds {
        var oldest := Least(savedMessageIds);
        savedMessageIds := savedMessageIds - {oldest};
      }
      return Accepted;
    }
  }

  /** Inserts first and looks afterwards.  `IdDuplicateCheckerNewOther` and
      `IdDuplicateCheckerNewSimple` run the same steps with other error texts. */
  class IdDuplicateCheckerNew {
    var savedMessageIds: set<nat>
    const maxSavedMessageIds: nat
    ghost var submitted: set<nat>

    ghost predicate Valid() reads this {
      maxSavedMessageIds > 0 && IsWindow(savedMessageIds, submitted, maxSavedMessageIds)
    }

    constructor (n: nat)
      requires n > 0
      ensures Valid() && submitted == {} && maxSavedMessageIds == n
    {
      savedMessageIds, submitted, maxSavedMessageIds := {}, {}, n;
    }

    method Check(id: nat) returns (v: Verdict)
      requires Valid()
      modifies this
      ensures Valid() && submitted == old(submitted) + {id}
      ensures v == Promised(old(submitted), maxSavedMessageIds, id)
    {
      WindowDecides(savedMessageIds, submitted, maxSavedMessageIds, id);
      ghost var before := submitted;
      submitted := submitted + {id};
      var inserted := id !in savedMessageIds;
      if !inserted {
        WindowStays(savedMessageIds, before, maxSavedMessageIds, id);
        return AlreadySeen;
      }
      WindowAdvances(savedMessageIds, before, maxSavedMessageIds, id);
      savedMessageIds := savedMessageIds + {id};
      if |savedMessageIds| == maxSavedMessageIds + 1 {
        var least := Least(savedMessageIds);
        var isVeryOld := least == id;
        savedMessageIds := savedMessageIds - {least};
        if isVeryOld {
          return VeryOld;
        }
      }
      return Accepted;
    }
  }

  // --- the array filter as a function on the live prefix of its array ---

  ghost predicate StrictlySorted(s: seq<nat>) {
    forall i, j | 0 <= i < j < |s| :: s[i] < s[j]
  }

  function LowerBound(s: seq<nat>, id: nat): (k: nat)
    ensures k <= |s|
    ensures forall i | 0 <= i < k :: s[i] < id
    ensures k < |s| ==> id <= s[k]
  {
    if s == [] || id <= s[0] then 0 else 1 + LowerBound(s[1..], id)
  }

  lemma LowerBoundUnique(s: seq<nat>, id: nat, k: nat)
    requires StrictlySorted(s) && k <= |s|
    requires forall i | 0 <= i < k :: s[i] < id
    requires k < |s| ==> id <= s[k]
    ensures k == LowerBound(s, id)
  {
  }

  lemma Present(s: seq<nat>, id: nat)
    requires StrictlySorted(s)
    ensures id in s <==> LowerBound(s, id) < |s| && s[LowerBound(s, id)] == id
  {
  }

  function Compact(s: seq<nat>, n: nat): seq<nat> {
    if |s| == 2 * n then s[n..] else s
  }

  function Insert(s: seq<nat>, id: nat): seq<nat> {
    var k := LowerBound(s, id);
    s[..k] + [id] + s[k..]
  }

  function CheckArray(s: seq<nat>, n: nat, id: nat): (seq<nat>, Verdict) {
    var c := Compact(s, n);
    if c == [] || id > c[|c| - 1] then (c + [id], Accepted)
    else if |c| >= n && id < c[0] then (c, VeryOld)
    else if id in c then (c, AlreadySeen)
    else (Insert(c, id), Accepted)
  }

  lemma CompactFirst(s: seq<nat>, n: nat, id: nat)
    requires n > 0
    ensures CheckArray(Compact(s, n), n, id) == CheckArray(s, n, id)
    ensures StrictlySorted(s) ==> StrictlySorted(Compact(s, n))
  {
  }

  /** What the array knows about the identifiers submitted so far. */
  ghost predicate Keeps(s: seq<nat>, all: set<nat>, n: nat) {
    && StrictlySorted(s)
    && |s| <= 2 * n
    && (forall i | 0 <= i < |s| :: s[i] in all)
    && (forall x | x in all && (|s| < n || s == [] || x >= s[0]) :: x in s)
  }

  lemma {:induction false} SortedSize(s: seq<nat>, t: set<nat>)
    requires StrictlySorted(s) && forall i | 0 <= i < |s| :: s[i] in t
    ensures |s| <= |t|
  {
    if s != [] {
      var last := s[|s| - 1];
      SortedSize(s[..|s| - 1], t - {last});
    }
  }

  /** Compaction forgets the older half and nothing at or above its new minimum. */
  lemma CompactKeeps(s: seq<nat>, all: set<nat>, n: nat)
    requires n > 0 && Keeps(s, all, n)
    ensures Keeps(Compact(s, n), all, n) && |Compact(s, n)| < 2 * n
  {
  }

  lemma InsertMembers(s: seq<nat>, id: nat, x: nat)
    ensures x in Insert(s, id) <==> x in s || x == id
  {
  }

  lemma InsertSorted(s: seq<nat>, id: nat)
    requires StrictlySorted(s) && id !in s
    ensures StrictlySorted(Insert(s, id))
  {
  }

  lemma InsertKeeps(s: seq<nat>, all: set<nat>, n: nat, id: nat)
    requires n > 0 && Keeps(s, all, n) && |s| < 2 * n && id !in s
    requires |s| >= n ==> id >= s[0]
    ensures Keeps(Insert(s, id), all + {id}, n)
  {
    var t := Insert(s, id);
    InsertSorted(s, id);
    forall x ensures x in t <==> x in s || x == id { InsertMembers(s, id, x); }
    forall i | 0 <= i < |t| ensures t[i] in all + {id} {
      assert t[i] in t;
    }
    if |s| >= n {
      assert s[0] in s && LowerBound(s, id) > 0;
      assert t[0] == s[0];
    }
  }

  lemma AboveLast(s: seq<nat>, id: nat)
    requires StrictlySorted(s) && (s == [] || id > s[|s| - 1])
    ensures LowerBound(s, id) == |s| && id !in s && Insert(s, id) == s + [id]
  {
  }

  lemma CheckArrayKeeps(s: seq<nat>, all: set<nat>, n: nat, id: nat)
    requires n > 0 && Keeps(s, all, n)
    ensures Keeps(CheckArray(s, n, id).0, all + {id}, n)
  {
    CompactKeeps(s, all, n);
    var c := Compact(s, n);
    if c == [] || id > c[|c| - 1] {
      AboveLast(c, id);
      assert |c| > 1 ==> c[0] < c[|c| - 1];
      InsertKeeps(c, all, n, id);
    } else if |c| >= n && id < c[0] {
      RefusedKeeps(c, all, n, id);
    } else if id in c {
      assert all + {id} == all;
    } else {
      InsertKeeps(c, all, n, id);
    }
  }

  lemma RefusedKeeps(c: seq<nat>, all: set<nat>, n: nat, id: nat)
    requires Keeps(c, all, n) && n > 0 && |c| >= n && id < c[0]
    ensures Keeps(c, all + {id}, n)
  {
  }

  /** The array filter against the promise: it never accepts an identifier twice, it accepts
      whatever the set filters accept, and both of its refusals are refusals of theirs. */
  lemma CheckArrayRefines(s: seq<nat>, all: set<nat>, n: nat, id: nat)
    requires n > 0 && Keeps(s, all, n)
    ensures var v := CheckArray(s, n, id).1;
      && (v == Accepted ==> id !in all)
      && (Promised(all, n, id) == Accepted ==> v == Accepted)
      && (v == AlreadySeen ==> id in all)
      && (v == VeryOld ==> Promised(all, n, id) == VeryOld)
  {
    CompactKeeps(s, all, n);
    var c := Compact(s, n);
    if c != [] && id <= c[|c| - 1] && |c| >= n && id < c[0] {
      forall i | 0 <= i < |c| ensures c[i] in Newer(all, id) {
        assert i > 0 ==> c[0] < c[i];
      }
      SortedSize(c, Newer(all, id));
    } else if c == [] || id > c[|c| - 1] {
      AboveLast(c, id);
      assert |c| > 1 ==> c[0] < c[|c| - 1];
    }
  }

  // --- whole runs ---

  function Submitted(ids: seq<nat>): set<nat> {
    set id | id in ids
  }

  /** The verdicts of the set filters on a whole sequence. */
  function RunWindow(ids: seq<nat>, n: nat): seq<Verdict> {
    seq(|ids|, i requires 0 <= i < |ids| => Promised(Submitted(ids[..i]), n, ids[i]))
  }

  function RunArray(ids: seq<nat>, n: nat): (r: (seq<nat>, seq<Verdict>))
    ensures |r.1| == |ids|
  {
    if ids == [] then ([], [])
    else
      var (s, vs) := RunArray(ids[..|ids| - 1], n);
      var (t, v) := CheckArray(s, n, ids[|ids| - 1]);
      (t, vs + [v])
  }

  lemma {:induction false} RunArrayKeeps(ids: seq<nat>, n: nat)
    requires n > 0
    ensures Keeps(RunArray(ids, n).0, Submitted(ids), n)
  {
    if ids != [] {
      var p, last := ids[..|ids| - 1], ids[|ids| - 1];
      RunArrayKeeps(p, n);
      CheckArrayKeeps(RunArray(p, n).0, Submitted(p), n, last);
      LastSubmitted(ids);
    }
  }

  lemma LastSubmitted(ids: seq<nat>)
    requires ids != []
    ensures Submitted(ids) == Submitted(ids[..|ids| - 1]) + {ids[|ids| - 1]}
  {
  }

  lemma {:induction false} RunArrayAt(ids: seq<nat>, n: nat, i: nat)
    requires i < |ids|
    ensures RunArray(ids, n).1[i] == CheckArray(RunArray(ids[..i], n).0, n, ids[i]).1
  {
    if i < |ids| - 1 {
      var p := ids[..|ids| - 1];
      RunArrayAt(p, n, i);
      assert p[..i] == ids[..i];
    }
  }

  /** In a whole run the array filter accepts everything the set filters accept, and only
      identifiers that were not submitted before. */
  lemma RunArrayRefines(ids: seq<nat>, n: nat)
    requires n > 0
    ensures forall i | 0 <= i < |ids| :: RunWindow(ids, n)[i] == Accepted ==> RunArray(ids, n).1[i] == Accepted
    ensures forall i | 0 <= i < |ids| :: RunArray(ids, n).1[i] == Accepted ==> ids[i] !in Submitted(ids[..i])
    ensures forall i | 0 <= i < |ids| :: RunArray(ids, n).1[i] == VeryOld ==> RunWindow(ids, n)[i] == VeryOld
  {
    forall i | 0 <= i < |ids|
      ensures RunWindow(ids, n)[i] == Accepted ==> RunArray(ids, n).1[i] == Accepted
      ensures RunArray(ids, n).1[i] == Accepted ==> ids[i] !in Submitted(ids[..i])
      ensures RunArray(ids, n).1[i] == VeryOld ==> RunWindow(ids, n)[i] == VeryOld
    {
      RunArrayAt(ids, n, i);
      RunArrayKeeps(ids[..i], n);
      CheckArrayRefines(RunArray(ids[..i], n).0, Submitted(ids[..i]), n, ids[i]);
    }
  }

  /** In a whole run the array filter accepts every identifier at most once. */
  lemma AcceptedOnce(ids: seq<nat>, n: nat, i: nat, j: nat)
    requires n > 0 && i < j < |ids|
    requires RunArray(ids, n).1[i] == Accepted && RunArray(ids, n).1[j] == Accepted
    ensures ids[i] != ids[j]
  {
    RunArrayRefines(ids, n);
    assert ids[..j][i] == ids[i];
  }

  class IdDuplicateCheckerArray {
    const maxSize: nat
    const savedMessageIds: array<nat>
    var endPos: nat
    ghost var submitted: set<nat>

    ghost function Contents(): seq<nat>
      requires endPos <= savedMessageIds.Length
      reads this, savedMessageIds
    {
      savedMessageIds[..endPos]
    }

    ghost predicate Valid() reads this, savedMessageIds {
      && maxSize > 0
      && savedMessageIds.Length == 2 * maxSize
      && endPos <= savedMessageIds.Length
      && Keeps(Contents(), submitted, maxSize)
    }

    constructor (n: nat)
      requires n > 0
      ensures Valid() && fresh(savedMessageIds) && Contents() == [] && submitted == {} && maxSize == n
    {
      maxSize, savedMessageIds, endPos, submitted := n, new nat[2 * n], 0, {};
    }

    /** `std::copy_n` of the newer half over the older one */
    method CompactInPlace()
      requires savedMessageIds.Length == 2 * maxSize == endPos
      modifies this`endPos, savedMessageIds
      ensures endPos == maxSize && Contents() == Compact(old(Contents()), maxSize)
    {
      var i := 0;
      while i < maxSize
        invariant 0 <= i <= maxSize
        invariant forall k | 0 <= k < i :: savedMessageIds[k] == old(savedMessageIds[maxSize + k])
        invariant forall k | maxSize <= k < 2 * maxSize :: savedMessageIds[k] == old(savedMessageIds[k])
      {
        savedMessageIds[i] := savedMessageIds[maxSize + i];
        i := i + 1;
      }
      endPos := maxSize;
    }

    /** `std::lower_bound` over the live prefix */
    method FindLowerBound(id: nat) returns (lo: nat)
      requires endPos <= savedMessageIds.Length && StrictlySorted(Contents())
      ensures lo == LowerBound(Contents(), id)
    {
      lo := 0;
      var hi := endPos;
      while lo < hi
        invariant lo <= hi <= endPos
        invariant forall k | 0 <= k < lo :: savedMessageIds[k] < id
        invariant forall k | hi <= k < endPos :: id <= savedMessageIds[k]
      {
        var mid := (lo + hi) / 2;
        if savedMessageIds[mid] < id {
          forall k | 0 <= k < mid ensures savedMessageIds[k] < id {
            assert Contents()[k] < Contents()[mid];
          }
          lo := mid + 1;
        } else {
          forall k | mid < k < endPos ensures id <= savedMessageIds[k] {
            assert Contents()[mid] < Contents()[k];
          }
          hi := mid;
        }
      }
      LowerBoundUnique(Contents(), id, lo);
    }

    /** `std::copy_backward` from pos, then the store at pos */
    method InsertAt(pos: nat, id: nat)
      requires endPos < savedMessageIds.Length && pos <= endPos
      modifies this`endPos, savedMessageIds
      ensures endPos == old(endPos) + 1
      ensures Contents() == old(Contents())[..pos] + [id] + old(Contents())[pos..]
    {
      ghost var c := Contents();
      var i := endPos;
      while i > pos
        invariant pos <= i <= endPos == |c| < savedMessageIds.Length
        invariant forall k | 0 <= k < i :: savedMessageIds[k] == c[k]
        invariant forall k | i < k <= endPos :: savedMessageIds[k] == c[k - 1]
      {
        savedMessageIds[i] := savedMessageIds[i - 1];
        i := i - 1;
      }
      savedMessageIds[pos] := id;
      endPos := endPos + 1;
    }

    method Check(id: nat) returns (v: Verdict)
      requires Valid()
      modifies this, savedMessageIds
      ensures Valid() && submitted == old(submitted) + {id}
      ensures (Contents(), v) == CheckArray(old(Contents()), maxSize, id)
    {
      CheckArrayKeeps(Contents(), submitted, maxSize, id);
      v := CheckCode(id);
      submitted := submitted + {id};
    }

    method CheckCode(id: nat) returns (v: Verdict)
      requires maxSize > 0 && savedMessageIds.Length == 2 * maxSize && endPos <= savedMessageIds.Length
      requires StrictlySorted(Contents())
      modifies this`endPos, savedMessageIds
      ensures endPos <= savedMessageIds.Length
      ensures (Contents(), v) == CheckArray(old(Contents()), maxSize, id)
    {
      CompactFirst(Contents(), maxSize, id);
      if endPos == 2 * maxSize {
        CompactInPlace();
      }
      v := CheckCompacted(id);
    }

    method Append(id: nat)
      requires endPos < savedMessageIds.Length
      modifies this`endPos, savedMessageIds
      ensures endPos == old(endPos) + 1 && Contents() == old(Contents()) + [id]
    {
      ghost var c := Contents();
      savedMessageIds[endPos] := id;
      endPos := endPos + 1;
      assert Contents() == c + [id];
    }

    method CheckCompacted(id: nat) returns (v: Verdict)
      requires maxSize > 0 && savedMessageIds.Length == 2 * maxSize && endPos < savedMessageIds.Length
      requires StrictlySorted(Contents())
      modifies this`endPos, savedMessageIds
      ensures endPos <= savedMessageIds.Length
      ensures (Contents(), v) == CheckArray(old(Contents()), maxSize, id)
    {
      ghost var c := Contents();
      if endPos == 0 || id > savedMessageIds[endPos - 1] {
        Append(id);
        return Accepted;
      }
      if endPos >= maxSize && id < savedMessageIds[0] {
        return VeryOld;
      }
      var pos := FindLowerBound(id);
      assert pos < endPos;
      Present(c, id);
      if savedMessageIds[pos] == id {
        return AlreadySeen;
      }
      InsertAt(pos, id);
      return Accepted;
    }
  }
}
