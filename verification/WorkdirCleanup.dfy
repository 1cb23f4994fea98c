/** The cache cleanup of the working directory: which files may be deleted, the eviction loop over
    the least recently used ones, and the counts of the streams that hold a file. */
module WorkdirCleanup {
  import opened Common
  import opened PathMessages

  const MAX_RETRIES := 3

  // --- candidates ---

  predicate EndsWith(s: string, suffix: string) {
    |suffix| <= |s| && s[|s| - |suffix|..] == suffix
  }

  /** Two dots next to each other, anywhere. */
  predicate HasDots(s: string) {
    exists i :: 0 <= i < |s| - 1 && s[i] == '.' && s[i + 1] == '.'
  }

  /** What follows the last slash. */
  function FileName(path: string): string {
    if path == "" || path[|path| - 1] == '/' then "" else FileName(path[..|path| - 1]) + [path[|path| - 1]]
  }

  /** Files in which the library keeps its sessions and databases. */
  predicate IsPersistent(path: string) {
    var name := FileName(path);
    || EndsWith(name, ".binlog") || EndsWith(name, ".binlog.new") || EndsWith(name, ".sqlite")
    || EndsWith(name, ".sqlite-wal") || EndsWith(name, ".sqlite-shm") || EndsWith(name, ".sqlite-journal")
  }

  function Root(workdir: string): string {
    if workdir != "" && workdir[|workdir| - 1] == '/' then workdir else workdir + "/"
  }

  predicate IsCandidate(workdir: string, path: string) {
    && workdir != "" && path != ""
    && Root(workdir) <= path && path != Root(workdir)
    && !HasDots(path[|Root(workdir)|..])
    && !IsPersistent(path)
  }

  /** What ends a file name ends the path, as long as there is no slash in it. */
  lemma {:induction false} NameEnds(path: string, suffix: string)
    requires '/' !in suffix
    ensures EndsWith(FileName(path), suffix) <==> exists stem :: path == stem + suffix
    decreases |suffix|
  {
    if suffix == "" {
      assert path == path + suffix;
    } else if path == "" || path[|path| - 1] != suffix[|suffix| - 1] {
      NotThere(path, suffix);
    } else {
      var name, less, c := path[..|path| - 1], suffix[..|suffix| - 1], path[|path| - 1];
      assert path == name + [c] && suffix == less + [c] && c in suffix;
      NameEnds(name, less);
      NameGrows(name, less, c);
    }
  }

  lemma NameGrows(path: string, suffix: string, c: char)
    requires c != '/' && (EndsWith(FileName(path), suffix) <==> exists stem :: path == stem + suffix)
    ensures EndsWith(FileName(path + [c]), suffix + [c]) <==> exists stem :: path + [c] == stem + (suffix + [c])
  {
    NextName(path, c);
    OneLonger(FileName(path), suffix, c);
    StemOfLonger(path, suffix, c);
  }

  lemma NextName(path: string, c: char)
    requires c != '/'
    ensures FileName(path + [c]) == FileName(path) + [c]
  {
    assert (path + [c])[..|path|] == path;
  }

  lemma NotThere(path: string, suffix: string)
    requires suffix != "" && '/' !in suffix && (path == "" || path[|path| - 1] != suffix[|suffix| - 1])
    ensures !EndsWith(FileName(path), suffix) && forall stem :: path != stem + suffix
  {
    var last := suffix[|suffix| - 1];
    assert last in suffix;
    LastOf(FileName(path), suffix);
    forall stem ensures path != stem + suffix {
      assert (stem + suffix)[|stem + suffix| - 1] == last;
    }
  }

  lemma LastOf(s: string, suffix: string)
    requires suffix != ""
    ensures EndsWith(s, suffix) ==> s != "" && s[|s| - 1] == suffix[|suffix| - 1]
  {
  }

  lemma OneLonger(s: string, suffix: string, c: char)
    ensures EndsWith(s + [c], suffix + [c]) <==> EndsWith(s, suffix)
  {
    var n := |s| - |suffix|;
    if n >= 0 {
      assert (s + [c])[n..] == s[n..] + [c];
      assert (s[n..] + [c])[..|suffix|] == s[n..] && (suffix + [c])[..|suffix|] == suffix;
    }
  }

  lemma StemOfLonger(s: string, suffix: string, c: char)
    ensures (exists stem :: s + [c] == stem + (suffix + [c])) <==> exists stem :: s == stem + suffix
  {
    forall stem ensures s + [c] == stem + (suffix + [c]) <==> s == stem + suffix {
      assert stem + (suffix + [c]) == stem + suffix + [c];
      assert (stem + suffix + [c])[..|stem + suffix|] == stem + suffix && (s + [c])[..|s|] == s;
    }
  }

  /** Anything with one of six endings. */
  lemma PersistentIff(path: string)
    ensures IsPersistent(path) <==> exists stem, suffix ::
      path == stem + suffix &&
      suffix in {".binlog", ".binlog.new", ".sqlite", ".sqlite-wal", ".sqlite-shm", ".sqlite-journal"}
  {
    NameEnds(path, ".binlog");
    NameEnds(path, ".binlog.new");
    NameEnds(path, ".sqlite");
    NameEnds(path, ".sqlite-wal");
    NameEnds(path, ".sqlite-shm");
    NameEnds(path, ".sqlite-journal");
  }

  /** A candidate lies properly inside the working directory, has no two dots next to each other
      on its way there, and is not one of the library's files. */
  lemma CandidateIff(workdir: string, path: string)
    ensures IsCandidate(workdir, path) <==>
      && workdir != "" && (exists rest :: LiesBelow(workdir, path, rest))
      && forall stem, suffix | path == stem + suffix ::
           suffix !in {".binlog", ".binlog.new", ".sqlite", ".sqlite-wal", ".sqlite-shm", ".sqlite-journal"}
  {
    PersistentIff(path);
    if workdir != "" {
      BelowIff(workdir, path);
    }
  }

  ghost predicate LiesBelow(workdir: string, path: string, rest: string) {
    && workdir != "" && rest != ""
    && path == (if workdir[|workdir| - 1] == '/' then workdir + rest else workdir + "/" + rest)
    && forall i | 1 <= i < |rest| :: rest[i] == '.' ==> rest[i - 1] != '.'
  }

  lemma BelowIff(workdir: string, path: string)
    requires workdir != ""
    ensures path != "" && Root(workdir) <= path && path != Root(workdir) && !HasDots(path[|Root(workdir)|..]) <==>
      exists rest :: LiesBelow(workdir, path, rest)
  {
    if Root(workdir) <= path {
      var rest := path[|Root(workdir)|..];
      assert path == Root(workdir) + rest;
      DotsIff(rest);
    }
    forall rest | LiesBelow(workdir, path, rest)
      ensures Root(workdir) <= path && path[|Root(workdir)|..] == rest && !HasDots(rest)
    {
      assert path == Root(workdir) + rest;
      DotsIff(rest);
    }
  }

  lemma DotsIff(s: string)
    ensures HasDots(s) <==> !forall i | 1 <= i < |s| :: s[i] == '.' ==> s[i - 1] != '.'
  {
    if HasDots(s) {
      var i :| 0 <= i < |s| - 1 && s[i] == '.' && s[i + 1] == '.';
      assert s[i + 1] == '.' && s[i + 1 - 1] == '.';
    }
  }

  // --- one cleanup ---

  datatype Config = Config(workdir: string, thresholdBytes: int, targetBytes: int, fileTtl: int)

  /** What the walk over the directory finds. */
  datatype Entry = Entry(path: string, isRegular: bool, statOk: bool, size: int, accessTime: nat)

  datatype Candidate = Candidate(path: string, size: nat, accessTime: nat)

  datatype Result = Result(scannedFiles: nat, scannedBytes: nat, deletedFiles: nat, deletedBytes: nat, failedFiles: nat,
                           threshold: bool)

  predicate Counts(workdir: string, e: Entry) {
    e.isRegular && IsCandidate(workdir, e.path) && e.statOk
  }

  predicate IsActive(active: map<string, int>, path: string) {
    path in active && active[path] > 0
  }

  /** The first n entries: how many count, their bytes, and those that no stream holds. */
  function Files(workdir: string, es: seq<Entry>, n: nat): nat
    requires n <= |es|
  {
    if n == 0 then 0 else Files(workdir, es, n - 1) + if Counts(workdir, es[n - 1]) then 1 else 0
  }

  function Bytes(workdir: string, es: seq<Entry>, n: nat): nat
    requires n <= |es|
  {
    if n == 0 then 0 else Bytes(workdir, es, n - 1) + if Counts(workdir, es[n - 1]) then Max(0, es[n - 1].size) else 0
  }

  function Idle(workdir: string, active: map<string, int>, es: seq<Entry>, n: nat): seq<Candidate>
    requires n <= |es|
  {
    if n == 0 then []
    else
      var e := es[n - 1];
      var before := Idle(workdir, active, es, n - 1);
      if Counts(workdir, e) && !IsActive(active, e.path)
      then before + [Candidate(e.path, Max(0, e.size), e.accessTime)] else before
  }

  lemma {:induction false} IdleIs(workdir: string, active: map<string, int>, es: seq<Entry>, n: nat, c: Candidate)
    requires n <= |es| && c in Idle(workdir, active, es, n)
    ensures IsCandidate(workdir, c.path) && !IsActive(active, c.path)
  {
    if c in Idle(workdir, active, es, n - 1) {
      IdleIs(workdir, active, es, n - 1, c);
    }
  }

  /** Any order by access time; files with equal times may come in any order. */
  ghost predicate IsSorting(cs: seq<Candidate>, sorted: seq<Candidate>) {
    multiset(sorted) == multiset(cs) && forall i, j | 0 <= i < j < |sorted| ::
      sorted[i].accessTime <= sorted[j].accessTime
  }

  function Freed(cs: seq<Candidate>, n: nat): nat
    requires n <= |cs|
  {
    if n == 0 then 0 else Freed(cs, n - 1) + cs[n - 1].size
  }

  predicate Expired(ttl: int, now: nat, c: Candidate) {
    ttl > 0 && c.accessTime <= now && now - c.accessTime >= ttl * 1000000000
  }

  /** Deleting the first n files is enough: no expired file is left and, if the threshold was hit,
      the rest is down to the target or nothing more can be deleted. */
  ghost predicate Enough(config: Config, now: nat, threshold: bool, scanned: nat, cs: seq<Candidate>, n: nat) {
    && n <= |cs|
    && (forall j | n <= j < |cs| :: !Expired(config.fileTtl, now, cs[j]))
    && (threshold ==> scanned - Freed(cs, n) <= config.targetBytes || n == |cs|)
  }

  /** The outcome of the k-th attempt to delete a file. */
  type Deleter = (string, nat) -> bool

  ghost predicate CanDelete(delete: Deleter, path: string) {
    exists k: nat :: k <= MAX_RETRIES && delete(path, k)
  }

  /** Four attempts are made. */
  lemma CanDeleteIff(delete: Deleter, path: string)
    ensures CanDelete(delete, path) <==> delete(path, 0) || delete(path, 1) || delete(path, 2) || delete(path, 3)
  {
    if CanDelete(delete, path) {
      var k: nat :| k <= MAX_RETRIES && delete(path, k);
      assert k == 0 || k == 1 || k == 2 || k == 3;
    }
  }

  method DeleteWithRetries(path: string, delete: Deleter) returns (deleted: bool)
    ensures deleted <==> CanDelete(delete, path)
  {
    var attempt: nat := 0;
    while attempt <= MAX_RETRIES
      invariant attempt <= MAX_RETRIES + 1
      invariant forall k: nat | k < attempt :: !delete(path, k)
    {
      if delete(path, attempt) {
        return true;
      }
      attempt := attempt + 1;
    }
    deleted := false;
  }

  method Scan(workdir: string, active: map<string, int>, es: seq<Entry>)
    returns (files: nat, bytes: nat, candidates: seq<Candidate>)
    ensures files == Files(workdir, es, |es|) && bytes == Bytes(workdir, es, |es|)
    ensures candidates == Idle(workdir, active, es, |es|)
  {
    files, bytes, candidates := 0, 0, [];
    for i := 0 to |es|
      invariant files == Files(workdir, es, i) && bytes == Bytes(workdir, es, i)
      invariant candidates == Idle(workdir, active, es, i)
    {
      var e := es[i];
      if e.isRegular && IsCandidate(workdir, e.path) && e.statOk {
        files := files + 1;
        bytes := bytes + Max(0, e.size);
        if e.path !in active || active[e.path] <= 0 {
          candidates := candidates + [Candidate(e.path, Max(0, e.size), e.accessTime)];
        }
      }
    }
  }

  /** Once nothing is needed at some point of the order, nothing after it is needed either. */
  lemma EnoughHere(config: Config, now: nat, threshold: bool, scanned: nat, cs: seq<Candidate>, n: nat)
    requires n < |cs| && forall i, j | 0 <= i < j < |cs| :: cs[i].accessTime <= cs[j].accessTime
    requires !Expired(config.fileTtl, now, cs[n]) && !(threshold && scanned - Freed(cs, n) > config.targetBytes)
    ensures Enough(config, now, threshold, scanned, cs, n)
  {
  }

  /** A file whose predecessors are not enough is itself expired, or too much is left. */
  lemma NeededIf(config: Config, now: nat, threshold: bool, scanned: nat, cs: seq<Candidate>, n: nat)
    requires n < |cs| && forall i, j | 0 <= i < j < |cs| :: cs[i].accessTime <= cs[j].accessTime
    requires !Enough(config, now, threshold, scanned, cs, n)
    ensures (config.fileTtl > 0 && now - cs[n].accessTime >= config.fileTtl * 1000000000)
      || (threshold && scanned - Freed(cs, n) > config.targetBytes)
  {
  }

  /** The eviction loop: deletes a prefix of the order, the shortest that is enough unless a file
      cannot be deleted, and then everything before that file. */
  method Evict(config: Config, now: nat, threshold: bool, scanned: nat, active: map<string, int>,
               cs: seq<Candidate>, delete: Deleter)
    returns (deleted: seq<Candidate>, deletedBytes: nat, remaining: int, failed: nat)
    requires forall i, j | 0 <= i < j < |cs| :: cs[i].accessTime <= cs[j].accessTime
    requires forall c | c in cs :: !IsActive(active, c.path)
    ensures |deleted| <= |cs| && deleted == cs[..|deleted|]
    ensures deletedBytes == Freed(cs, |deleted|) && deletedBytes + remaining == scanned
    ensures forall m | 0 <= m < |deleted| :: !Enough(config, now, threshold, scanned, cs, m)
    ensures forall t | 0 <= t < |deleted| :: CanDelete(delete, deleted[t].path)
    ensures failed == 0 ==> Enough(config, now, threshold, scanned, cs, |deleted|)
    ensures failed != 0 ==>
      && failed == 1 && |deleted| < |cs| && !CanDelete(delete, cs[|deleted|].path)
      && !Enough(config, now, threshold, scanned, cs, |deleted|)
  {
    deleted, deletedBytes, remaining, failed := [], 0, scanned, 0;
    for i := 0 to |cs|
      invariant |deleted| <= i && deleted == cs[..|deleted|]
      invariant deletedBytes == Freed(cs, |deleted|) && deletedBytes + remaining == scanned && failed == 0
      invariant forall m | 0 <= m < |deleted| :: !Enough(config, now, threshold, scanned, cs, m)
      invariant forall t | 0 <= t < |deleted| :: CanDelete(delete, deleted[t].path)
      invariant |deleted| < i ==> Enough(config, now, threshold, scanned, cs, |deleted|)
    {
      var c := cs[i];
      var mustReduce := threshold && remaining > config.targetBytes;
      if !mustReduce && !Expired(config.fileTtl, now, c) {
        if |deleted| == i {
          EnoughHere(config, now, threshold, scanned, cs, i);
        }
        continue;
      }
      assert |deleted| == i;
      // The loop looks at the counts once more; no candidate is active.
      assert c in cs && !IsActive(active, c.path);
      var ok := DeleteWithRetries(c.path, delete);
      if !ok {
        failed := failed + 1;
        return;
      }
      assert cs[..i + 1] == cs[..i] + [c];
      deleted := deleted + [c];
      deletedBytes := deletedBytes + c.size;
      remaining := remaining - c.size;
    }
  }

  lemma SortedIdle(workdir: string, active: map<string, int>, es: seq<Entry>, sorted: seq<Candidate>)
    requires IsSorting(Idle(workdir, active, es, |es|), sorted)
    ensures forall c | c in sorted :: IsCandidate(workdir, c.path) && !IsActive(active, c.path)
  {
    var cs := Idle(workdir, active, es, |es|);
    forall c | c in sorted ensures IsCandidate(workdir, c.path) && !IsActive(active, c.path) {
      assert c in multiset(sorted);
      assert c in cs;
      IdleIs(workdir, active, es, |es|, c);
    }
  }

  // --- the streams and their files ---

  /** A stream's messages in the order in which it sent them, and how many have arrived. */
  datatype Mailbox = Mailbox(sent: seq<Message>, delivered: nat)
  {
    ghost predicate Valid() { Paired(sent) && delivered <= |sent| }

    /** The file held as far as the manager knows. */
    function Holds(): string {
      if delivered <= |sent| then Held(sent[..delivered]) else ""
    }
  }

  function Retained(workdir: string, active: map<string, int>, path: string): map<string, int> {
    if !IsCandidate(workdir, path) then active
    else active[path := (if path in active then active[path] else 0) + 1]
  }

  function Released(active: map<string, int>, path: string): map<string, int> {
    if path !in active then active
    else if active[path] - 1 <= 0 then active - {path}
    else active[path := active[path] - 1]
  }

  function Delivered(workdir: string, active: map<string, int>, m: Message): map<string, int> {
    match m
    case Retain(path) => Retained(workdir, active, path)
    case Release(path) => Released(active, path)
  }

  function Holders(boxes: map<int, Mailbox>, path: string): set<int> {
    set s | s in boxes && boxes[s].Holds() == path
  }

  /** Every count is that of the streams whose delivered messages hold the file; counts are
      positive and only candidates have one. */
  ghost predicate CountsOk(workdir: string, active: map<string, int>, boxes: map<int, Mailbox>) {
    && (forall s | s in boxes :: boxes[s].Valid())
    && (forall p | p in active :: IsCandidate(workdir, p) && active[p] > 0)
    && (forall p | IsCandidate(workdir, p) :: (if p in active then active[p] else 0) == |Holders(boxes, p)|)
  }

  /** The state of the manager and of the messages on their way to it. */
  datatype Traffic = Traffic(active: map<string, int>, boxes: map<int, Mailbox>)

  datatype Move = Start(stream: int) | Post(stream: int, message: Message) | Arrive(stream: int)

  /** Streams start with nothing sent, send in pairs, and messages of one stream arrive in order. */
  ghost predicate Allowed(t: Traffic, m: Move) {
    match m
    case Start(s) => s !in t.boxes
    case Post(s, message) => s in t.boxes && Paired(t.boxes[s].sent + [message])
    case Arrive(s) => s in t.boxes && t.boxes[s].delivered < |t.boxes[s].sent|
  }

  function Moves(workdir: string, t: Traffic, m: Move): Traffic {
    match m
    case Start(s) => t.(boxes := t.boxes[s := Mailbox([], 0)])
    case Post(s, message) =>
      if s in t.boxes then t.(boxes := t.boxes[s := t.boxes[s].(sent := t.boxes[s].sent + [message])]) else t
    case Arrive(s) =>
      if s in t.boxes && t.boxes[s].delivered < |t.boxes[s].sent| then
        var b := t.boxes[s];
        Traffic(Delivered(workdir, t.active, b.sent[b.delivered]), t.boxes[s := b.(delivered := b.delivered + 1)])
      else t
  }

  lemma {:induction false} PairedPrefix(ms: seq<Message>, n: nat)
    requires Paired(ms) && n <= |ms|
    ensures Paired(ms[..n])
  {
    if n == |ms| {
      assert ms[..n] == ms;
    } else {
      PairedPrefix(ms[..|ms| - 1], n);
      assert ms[..|ms| - 1][..n] == ms[..n];
    }
  }

  /** What the next message to arrive can be. */
  lemma NextMessage(b: Mailbox)
    requires b.Valid() && b.delivered < |b.sent|
    ensures var c := b.(delivered := b.delivered + 1);
      && c.Valid()
      && match b.sent[b.delivered]
         case Retain(p) => p != "" && b.Holds() == "" && c.Holds() == p
         case Release(p) => p != "" && b.Holds() == p && c.Holds() == ""
  {
    var ms, m := b.sent[..b.delivered], b.sent[b.delivered];
    PairedPrefix(b.sent, b.delivered + 1);
    PairedPrefix(b.sent, b.delivered);
    assert b.sent[..b.delivered + 1] == ms + [m];
    PairedNext(ms, m);
  }

  lemma SameHolders(boxes: map<int, Mailbox>, s: int, c: Mailbox, p: string)
    requires (forall x | x in boxes :: boxes[x].Valid()) && c.Valid()
    requires s in boxes ==> (boxes[s].Holds() == p <==> c.Holds() == p)
    requires s !in boxes ==> c.Holds() != p
    ensures Holders(boxes[s := c], p) == Holders(boxes, p)
  {
  }

  lemma OneMore(boxes: map<int, Mailbox>, s: int, c: Mailbox, p: string)
    requires (forall x | x in boxes :: boxes[x].Valid()) && c.Valid() && s in boxes
    requires boxes[s].Holds() != p && c.Holds() == p
    ensures |Holders(boxes[s := c], p)| == |Holders(boxes, p)| + 1
  {
    assert Holders(boxes[s := c], p) == Holders(boxes, p) + {s};
  }

  lemma OneLess(boxes: map<int, Mailbox>, s: int, c: Mailbox, p: string)
    requires (forall x | x in boxes :: boxes[x].Valid()) && c.Valid() && s in boxes
    requires boxes[s].Holds() == p && c.Holds() != p
    ensures |Holders(boxes[s := c], p)| == |Holders(boxes, p)| - 1
  {
    assert Holders(boxes[s := c], p) == Holders(boxes, p) - {s};
  }

  lemma HoldersChange(boxes: map<int, Mailbox>, s: int, c: Mailbox, p: string)
    requires (forall x | x in boxes :: boxes[x].Valid()) && c.Valid() && s in boxes
    ensures |Holders(boxes[s := c], p)| == |Holders(boxes, p)|
      + (if c.Holds() == p then 1 else 0) - (if boxes[s].Holds() == p then 1 else 0)
  {
    if boxes[s].Holds() != p && c.Holds() == p {
      OneMore(boxes, s, c, p);
    } else if boxes[s].Holds() == p && c.Holds() != p {
      OneLess(boxes, s, c, p);
    } else {
      SameHolders(boxes, s, c, p);
    }
  }

  /** What a message changes of a count. */
  lemma CountChanges(workdir: string, active: map<string, int>, m: Message, p: string)
    requires IsCandidate(workdir, p) && (p in active ==> active[p] > 0)
    requires m == Release(p) ==> p in active
    ensures var n := Delivered(workdir, active, m);
      (if p in n then n[p] else 0) == (if p in active then active[p] else 0)
        + (if m == Retain(p) then 1 else 0) - (if m == Release(p) then 1 else 0)
  {
  }

  lemma CountedStay(workdir: string, active: map<string, int>, m: Message, p: string)
    requires p in Delivered(workdir, active, m)
    requires forall q | q in active :: IsCandidate(workdir, q) && active[q] > 0
    ensures IsCandidate(workdir, p) && Delivered(workdir, active, m)[p] > 0
  {
  }

  lemma ArriveKeeps(workdir: string, t: Traffic, s: int)
    requires CountsOk(workdir, t.active, t.boxes) && Allowed(t, Arrive(s))
    ensures var n := Moves(workdir, t, Arrive(s)); CountsOk(workdir, n.active, n.boxes)
  {
    var b := t.boxes[s];
    var c := b.(delivered := b.delivered + 1);
    var n := Moves(workdir, t, Arrive(s));
    NextMessage(b);
    forall p | IsCandidate(workdir, p)
      ensures (if p in n.active then n.active[p] else 0) == |Holders(n.boxes, p)|
    {
      HoldersChange(t.boxes, s, c, p);
      CountChanges(workdir, t.active, b.sent[b.delivered], p);
    }
    forall p | p in n.active ensures IsCandidate(workdir, p) && n.active[p] > 0 {
      CountedStay(workdir, t.active, b.sent[b.delivered], p);
    }
  }

  lemma PostKeeps(workdir: string, t: Traffic, s: int, m: Message)
    requires CountsOk(workdir, t.active, t.boxes) && Allowed(t, Post(s, m))
    ensures var n := Moves(workdir, t, Post(s, m)); CountsOk(workdir, n.active, n.boxes)
  {
    var b := t.boxes[s];
    var c := b.(sent := b.sent + [m]);
    assert c.sent[..c.delivered] == b.sent[..b.delivered];
    forall p | IsCandidate(workdir, p) ensures Holders(t.boxes[s := c], p) == Holders(t.boxes, p) {
      SameHolders(t.boxes, s, c, p);
    }
  }

  lemma StartKeeps(workdir: string, t: Traffic, s: int)
    requires CountsOk(workdir, t.active, t.boxes) && Allowed(t, Start(s))
    ensures var n := Moves(workdir, t, Start(s)); CountsOk(workdir, n.active, n.boxes)
  {
    forall p | IsCandidate(workdir, p) ensures Holders(t.boxes[s := Mailbox([], 0)], p) == Holders(t.boxes, p) {
      SameHolders(t.boxes, s, Mailbox([], 0), p);
    }
  }

  ghost predicate AllAllowed(workdir: string, t: Traffic, ms: seq<Move>)
    decreases |ms|
  {
    ms == [] || (Allowed(t, ms[0]) && AllAllowed(workdir, Moves(workdir, t, ms[0]), ms[1..]))
  }

  function After(workdir: string, t: Traffic, ms: seq<Move>): Traffic
    decreases |ms|
  {
    if ms == [] then t else After(workdir, Moves(workdir, t, ms[0]), ms[1..])
  }

  /** In every run the counts are exactly those of the holders, and therefore never negative. */
  lemma {:induction false} CountsStayOk(workdir: string, t: Traffic, ms: seq<Move>)
    requires CountsOk(workdir, t.active, t.boxes) && AllAllowed(workdir, t, ms)
    ensures var n := After(workdir, t, ms); CountsOk(workdir, n.active, n.boxes)
    decreases |ms|
  {
    if ms != [] {
      match ms[0] {
        case Start(s) => StartKeeps(workdir, t, s);
        case Post(s, m) => PostKeeps(workdir, t, s, m);
        case Arrive(s) => ArriveKeeps(workdir, t, s);
      }
      CountsStayOk(workdir, Moves(workdir, t, ms[0]), ms[1..]);
    }
  }

  /** A file that some stream holds, by the messages that have arrived, is not up for deletion. */
  lemma {:induction false} HeldIsKept(workdir: string, active: map<string, int>, boxes: map<int, Mailbox>, s: int,
                                      es: seq<Entry>, sorted: seq<Candidate>)
    requires CountsOk(workdir, active, boxes) && s in boxes
    requires IsSorting(Idle(workdir, active, es, |es|), sorted)
    ensures forall c | c in sorted :: c.path != boxes[s].Holds()
  {
    SortedIdle(workdir, active, es, sorted);
    assert s in Holders(boxes, boxes[s].Holds());
  }

  // --- the manager ---

  class WorkdirCleanupManager {
    const config: Config
    var activeFiles: map<string, int>

    constructor (config: Config)
      ensures this.config == config && activeFiles == map[]
    {
      this.config := config;
      activeFiles := map[];
    }

    method RetainFile(path: string)
      modifies this
      ensures activeFiles == Retained(config.workdir, old(activeFiles), path)
    {
      if IsCandidate(config.workdir, path) {
        if path !in activeFiles {
          activeFiles := activeFiles[path := 0];
        }
        activeFiles := activeFiles[path := activeFiles[path] + 1];
      }
    }

    method ReleaseFile(path: string)
      modifies this
      ensures activeFiles == Released(old(activeFiles), path)
    {
      if path !in activeFiles {
        return;
      }
      activeFiles := activeFiles[path := activeFiles[path] - 1];
      if activeFiles[path] <= 0 {
        activeFiles := activeFiles - {path};
      }
    }

    /** The order in which the candidates come out of the sort is chosen by the caller. */
    method RunCleanup(now: nat, es: seq<Entry>, sorted: seq<Candidate>, delete: Deleter)
      returns (result: Result, deleted: seq<Candidate>)
      requires IsSorting(Idle(config.workdir, activeFiles, es, |es|), sorted)
      ensures result.scannedBytes == Bytes(config.workdir, es, |es|) &&
        result.scannedFiles == Files(config.workdir, es, |es|)
      ensures result.threshold <==> config.thresholdBytes > 0 && result.scannedBytes >= config.thresholdBytes
      ensures |deleted| <= |sorted| && deleted == sorted[..|deleted|] && result.deletedFiles == |deleted|
      ensures result.deletedBytes == Freed(sorted, |deleted|)
      ensures forall c | c in deleted :: IsCandidate(config.workdir, c.path) && !IsActive(activeFiles, c.path)
      ensures forall m | 0 <= m < |deleted| ::
        || (config.fileTtl > 0 && now - sorted[m].accessTime >= config.fileTtl * 1000000000)
        || (result.threshold && result.scannedBytes - Freed(sorted, m) > config.targetBytes)
      ensures result.failedFiles == 0 ==> forall j | |deleted| <= j < |sorted| && config.fileTtl > 0 ::
        now - sorted[j].accessTime < config.fileTtl * 1000000000
      ensures result.failedFiles == 0 && result.threshold ==>
        result.scannedBytes - Freed(sorted, |deleted|) <= config.targetBytes || |deleted| == |sorted|
      ensures result.failedFiles != 0 ==>
        result.failedFiles == 1 && |deleted| < |sorted| && !CanDelete(delete, sorted[|deleted|].path)
    {
      var files, bytes, candidates := Scan(config.workdir, activeFiles, es);
      SortedIdle(config.workdir, activeFiles, es, sorted);
      var threshold := config.thresholdBytes > 0 && bytes >= config.thresholdBytes;
      var deletedBytes, remaining, failed;
      deleted, deletedBytes, remaining, failed := Evict(config, now, threshold, bytes, activeFiles, sorted, delete);
      forall c | c in deleted ensures c in sorted {
      }
      forall m | 0 <= m < |deleted|
        ensures (config.fileTtl > 0 && now - sorted[m].accessTime >= config.fileTtl * 1000000000)
          || (threshold && bytes - Freed(sorted, m) > config.targetBytes)
      {
        NeededIf(config, now, threshold, bytes, sorted, m);
      }
      assert failed == 0 ==> forall j | |deleted| <= j < |sorted| :: !Expired(config.fileTtl, now, sorted[j]);
      result := Result(files, bytes, |deleted|, deletedBytes, failed, threshold);
    }
  }
}
