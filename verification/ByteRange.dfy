/** The Range header of the streaming endpoint: single byte ranges in the sense of RFC 9110,
    sections 14.1.2 and 14.2, in the restricted form that the parser accepts. */
module ByteRange {
  import opened Common

  /** The first and the last byte served; the whole file when not partial. */
  datatype Range = Range(isPartial: bool, start: int, end: int)

  const INT64_MAX := 0x7fff_ffff_ffff_ffff
  const WORD64 := 0x1_0000_0000_0000_0000

  // --- integers in text ---

  predicate IsDigit(c: char) { '0' <= c <= '9' }

  function DigitOf(d: nat): char
    requires d < 10
  {
    '0' + d as char
  }

  function DecNat(n: nat): string {
    if n < 10 then [DigitOf(n)] else DecNat(n / 10) + [DigitOf(n % 10)]
  }

  /** How an integer is printed. */
  function Dec(v: int): string {
    if v < 0 then "-" + DecNat(-v) else DecNat(v)
  }

  /** Reads digits up to the first other character, in 64-bit unsigned arithmetic. */
  function ReadDigits(s: string, acc: nat): nat {
    if s == "" || !IsDigit(s[0]) then acc
    else ReadDigits(s[1..], (acc * 10 + (s[0] as int - '0' as int)) % WORD64)
  }

  /** `td::to_integer<td::int64>` */
  function ToInteger(s: string): int {
    var negative := s != "" && s[0] == '-';
    var v: int := ReadDigits(if negative then s[1..] else s, 0);
    if v <= INT64_MAX then (if negative then -v else v)
    else
      var w := (WORD64 - v) % WORD64;
      if w > INT64_MAX then -INT64_MAX - 1
      else if negative then w else -w
  }

  /** `td::to_integer_safe<td::int64>`: only what prints back to the same text is accepted. */
  function ToIntegerSafe(s: string): Option<int> {
    var v := ToInteger(s);
    if Dec(v) == s then Some(v) else None
  }

  lemma {:induction false} DecNatDigits(n: nat)
    ensures DecNat(n) != "" && forall i | 0 <= i < |DecNat(n)| :: IsDigit(DecNat(n)[i])
  {
    if n >= 10 {
      DecNatDigits(n / 10);
    }
  }

  lemma {:induction false} ReadAppend(s: string, c: char, acc: nat)
    requires IsDigit(c) && forall i | 0 <= i < |s| :: IsDigit(s[i])
    ensures ReadDigits(s + [c], acc) == (ReadDigits(s, acc) * 10 + (c as int - '0' as int)) % WORD64
    decreases |s|
  {
    if s == "" {
      assert [c][1..] == "";
    } else {
      assert (s + [c])[1..] == s[1..] + [c];
      ReadAppend(s[1..], c, (acc * 10 + (s[0] as int - '0' as int)) % WORD64);
    }
  }

  lemma {:induction false} ReadDecNat(n: nat)
    requires n < WORD64
    ensures ReadDigits(DecNat(n), 0) == n
  {
    if n < 10 {
      assert DecNat(n)[1..] == "";
    } else {
      DecNatDigits(n / 10);
      ReadDecNat(n / 10);
      ReadAppend(DecNat(n / 10), DigitOf(n % 10), 0);
    }
  }

  lemma ReadDec(v: int)
    requires -INT64_MAX - 1 <= v <= INT64_MAX
    ensures ToInteger(Dec(v)) == v
  {
    if v < 0 {
      assert ("-" + DecNat(-v))[1..] == DecNat(-v);
      ReadDecNat(-v);
    } else {
      ReadDecNat(v);
      DecNatDigits(v);
    }
  }

  /** The accepted texts are exactly the printed 64-bit integers. */
  lemma IntegerIff(s: string, v: int)
    ensures ToIntegerSafe(s) == Some(v) <==> -9223372036854775808 <= v <= 9223372036854775807 && s == Dec(v)
  {
    if -INT64_MAX - 1 <= v <= INT64_MAX {
      ReadDec(v);
    }
  }

  // --- the parser ---

  predicate IsSpace(c: char) {
    c == ' ' || c == '\t' || c == '\r' || c == '\n' || c == '\0' || c == 11 as char
  }

  function TrimLeft(s: string): string {
    if s != "" && IsSpace(s[0]) then TrimLeft(s[1..]) else s
  }

  function TrimRight(s: string): string {
    if s != "" && IsSpace(s[|s| - 1]) then TrimRight(s[..|s| - 1]) else s
  }

  function Trim(s: string): string { TrimRight(TrimLeft(s)) }

  /** Only blanks: space, tab, carriage return, newline, zero or vertical tab. */
  predicate Blank(s: string) {
    forall i | 0 <= i < |s| :: s[i] in {' ', '\t', '\r', '\n', '\0', 11 as char}
  }

  lemma {:induction false} TrimLeftIs(s: string) returns (before: string)
    ensures s == before + TrimLeft(s) && Blank(before) && (TrimLeft(s) != "" ==> !Blank(TrimLeft(s)[..1]))
  {
    if s != "" && IsSpace(s[0]) {
      var more := TrimLeftIs(s[1..]);
      before := [s[0]] + more;
    } else {
      before := "";
      if s != "" {
        assert s[..1][0] == s[0];
      }
    }
  }

  lemma {:induction false} TrimRightIs(s: string) returns (after: string)
    ensures s == TrimRight(s) + after && Blank(after)
    ensures TrimRight(s) != "" ==> !Blank(TrimRight(s)[|TrimRight(s)| - 1..])
  {
    if s != "" && IsSpace(s[|s| - 1]) {
      var more := TrimRightIs(s[..|s| - 1]);
      after := more + [s[|s| - 1]];
    } else {
      after := "";
      if s != "" {
        assert s[|s| - 1..][0] == s[|s| - 1];
      }
    }
  }

  lemma Regroup(a: string, b: string, c: string)
    ensures a + (b + c) == a + b + c
  {
  }

  /** Trimming takes all blanks from both ends and nothing else. */
  lemma TrimIs(s: string) returns (before: string, after: string)
    ensures s == before + Trim(s) + after && Blank(before) && Blank(after)
    ensures Trim(s) != "" ==> !Blank(Trim(s)[..1]) && !Blank(Trim(s)[|Trim(s)| - 1..])
  {
    before := TrimLeftIs(s);
    var left := TrimLeft(s);
    after := TrimRightIs(left);
    Regroup(before, TrimRight(left), after);
    if TrimRight(left) != "" {
      FirstOf(left, TrimRight(left), after);
    }
  }

  lemma FirstOf(s: string, a: string, b: string)
    requires s == a + b && a != ""
    ensures s != "" && s[..1] == a[..1]
  {
  }

  /** The position of the first c, or the length. */
  function Find(s: string, c: char): (i: nat)
    ensures i <= |s| && c !in s[..i] && (i < |s| ==> s[i] == c)
  {
    if s == "" || s[0] == c then 0 else
      var i := 1 + Find(s[1..], c);
      assert s[..i] == [s[0]] + s[1..][..i - 1];
      i
  }

  function ParseRange(text: string, totalSize: int): Option<Range> {
    if totalSize < 0 then None else ParseValue(Trim(text), totalSize)
  }

  function ParseValue(value: string, totalSize: int): Option<Range> {
    if value == "" then Some(Range(false, 0, totalSize - 1))
    else if !("bytes=" <= value) then None
    else
      var rest := value[6..];
      if rest == "" || ',' in rest then None
      else
        var dash := Find(rest, '-');
        if dash == |rest| then None
        else ParseBounds(Trim(rest[..dash]), Trim(rest[dash + 1..]), totalSize)
  }

  function ParseBounds(startValue: string, endValue: string, totalSize: int): Option<Range> {
    if startValue == "" && endValue == "" then None
    else if startValue == "" then
      var suffix := ToIntegerSafe(endValue);
      if suffix.None? || suffix.value <= 0 || totalSize == 0 then None
      else Some(Range(true, totalSize - Min(suffix.value, totalSize), totalSize - 1))
    else
      var start := ToIntegerSafe(startValue);
      if start.None? || start.value < 0 || start.value >= totalSize then None
      else if endValue == "" then Some(Range(true, start.value, totalSize - 1))
      else
        var end := ToIntegerSafe(endValue);
        if end.None? || end.value < start.value then None
        else Some(Range(true, start.value, Min(end.value, totalSize - 1)))
  }

  // --- what is accepted ---

  /** x and y, without the blanks around them, say range r of a file of this size: first and
      last byte, first byte only, or the length of a suffix. */
  ghost predicate Says(x: string, y: string, totalSize: int, r: Range) {
    || (x == "" && exists m :: SaysSuffix(y, m, totalSize, r))
    || (exists a :: SaysFrom(x, y, a, totalSize, r))
    || (exists a, b :: SaysFromTo(x, y, a, b, totalSize, r))
  }

  predicate SaysSuffix(y: string, m: int, totalSize: int, r: Range) {
    0 < m <= INT64_MAX && y == Dec(m) && 0 < totalSize && r == Range(true, totalSize - Min(m, totalSize), totalSize - 1)
  }

  predicate SaysFrom(x: string, y: string, a: int, totalSize: int, r: Range) {
    0 <= a < totalSize && a <= INT64_MAX && x == Dec(a) && y == "" && r == Range(true, a, totalSize - 1)
  }

  predicate SaysFromTo(x: string, y: string, a: int, b: int, totalSize: int, r: Range) {
    && 0 <= a < totalSize && a <= b <= INT64_MAX && x == Dec(a) && y == Dec(b)
    && r == Range(true, a, Min(b, totalSize - 1))
  }

  lemma DecNotEmpty(v: int)
    ensures Dec(v) != ""
  {
  }

  lemma SuffixIff(y: string, totalSize: int, r: Range)
    requires totalSize >= 0
    ensures ParseBounds("", y, totalSize) == Some(r) <==> exists m :: SaysSuffix(y, m, totalSize, r)
  {
    IntegerIff(y, ToInteger(y));
    if ParseBounds("", y, totalSize) == Some(r) {
      assert SaysSuffix(y, ToInteger(y), totalSize, r);
    }
    forall m | SaysSuffix(y, m, totalSize, r)
      ensures ParseBounds("", y, totalSize) == Some(r)
    {
      IntegerIff(y, m);
      DecNotEmpty(m);
    }
  }

  lemma FromIff(x: string, totalSize: int, r: Range)
    requires totalSize >= 0 && x != ""
    ensures ParseBounds(x, "", totalSize) == Some(r) <==> exists a :: SaysFrom(x, "", a, totalSize, r)
  {
    IntegerIff(x, ToInteger(x));
    if ParseBounds(x, "", totalSize) == Some(r) {
      assert SaysFrom(x, "", ToInteger(x), totalSize, r);
    }
    forall a | SaysFrom(x, "", a, totalSize, r)
      ensures ParseBounds(x, "", totalSize) == Some(r)
    {
      IntegerIff(x, a);
    }
  }

  lemma FromToIff(x: string, y: string, totalSize: int, r: Range)
    requires totalSize >= 0 && x != "" && y != ""
    ensures ParseBounds(x, y, totalSize) == Some(r) <==> exists a, b :: SaysFromTo(x, y, a, b, totalSize, r)
  {
    IntegerIff(x, ToInteger(x));
    IntegerIff(y, ToInteger(y));
    if ParseBounds(x, y, totalSize) == Some(r) {
      assert SaysFromTo(x, y, ToInteger(x), ToInteger(y), totalSize, r);
    }
    forall a, b | SaysFromTo(x, y, a, b, totalSize, r)
      ensures ParseBounds(x, y, totalSize) == Some(r)
    {
      IntegerIff(x, a);
      IntegerIff(y, b);
    }
  }

  lemma BoundsIff(x: string, y: string, totalSize: int, r: Range)
    requires totalSize >= 0
    ensures ParseBounds(x, y, totalSize) == Some(r) <==> Says(x, y, totalSize, r)
  {
    forall v: int ensures x == Dec(v) ==> x != "" { DecNotEmpty(v); }
    forall v: int ensures y == Dec(v) ==> y != "" { DecNotEmpty(v); }
    if x == "" {
      SuffixIff(y, totalSize, r);
    } else if y == "" {
      FromIff(x, totalSize, r);
    } else {
      FromToIff(x, y, totalSize, r);
    }
  }

  lemma FirstFound(s: string, c: char, n: nat)
    requires n < |s| && s[n] == c && forall k: nat | k < n :: s[k] != c
    ensures Find(s, c) == n
  {
  }

  lemma SplitAtDash(rest: string, x: string, y: string)
    requires rest == x + "-" + y && '-' !in x
    ensures Find(rest, '-') == |x| && rest[..|x|] == x && rest[|x| + 1..] == y
  {
    FirstFound(rest, '-', |x|);
  }

  /** The header value is `bytes=x-y`, split at the first dash, with no second range. */
  predicate IsForm(value: string, x: string, y: string) {
    value == "bytes=" + (x + "-" + y) && '-' !in x && ',' !in x + y
  }

  lemma NoComma(x: string, y: string)
    requires ',' !in x + y
    ensures ',' !in x + "-" + y
  {
  }

  lemma FormParses(value: string, totalSize: int, x: string, y: string)
    requires IsForm(value, x, y)
    ensures ParseValue(value, totalSize) == ParseBounds(Trim(x), Trim(y), totalSize)
  {
    var rest := x + "-" + y;
    assert value[..6] == "bytes=" && value[6..] == rest;
    SplitAtDash(rest, x, y);
    NoComma(x, y);
  }

  lemma CutAt(rest: string, n: nat)
    requires n < |rest| && rest[n] == '-' && ',' !in rest && '-' !in rest[..n]
    ensures IsForm("bytes=" + rest, rest[..n], rest[n + 1..])
  {
  }

  lemma OnlyFormsParse(value: string, totalSize: int) returns (x: string, y: string)
    requires value != "" && ParseValue(value, totalSize).Some?
    ensures IsForm(value, x, y)
  {
    var rest := value[6..];
    assert value == "bytes=" + rest;
    var dash := Find(rest, '-');
    CutAt(rest, dash);
    x, y := rest[..dash], rest[dash + 1..];
  }

  /** A partial range is accepted exactly when the header is `bytes=x-y` for bounds x and y that
      say it: nothing else is accepted, and nothing of this form is refused. */
  lemma AcceptedIff(text: string, totalSize: int, r: Range)
    requires totalSize >= 0 && r.isPartial
    ensures ParseRange(text, totalSize) == Some(r) <==>
      exists x, y :: IsForm(Trim(text), x, y) && Says(Trim(x), Trim(y), totalSize, r)
  {
    var value := Trim(text);
    if ParseRange(text, totalSize) == Some(r) {
      var x, y := OnlyFormsParse(value, totalSize);
      FormParses(value, totalSize, x, y);
      BoundsIff(Trim(x), Trim(y), totalSize, r);
    }
    forall x, y | IsForm(value, x, y) && Says(Trim(x), Trim(y), totalSize, r)
      ensures ParseRange(text, totalSize) == Some(r)
    {
      FormParses(value, totalSize, x, y);
      BoundsIff(Trim(x), Trim(y), totalSize, r);
    }
  }

  /** Every accepted range lies inside the file; only an empty header asks for all of it. */
  lemma AcceptedInside(text: string, totalSize: int)
    requires ParseRange(text, totalSize).Some?
    ensures var r := ParseRange(text, totalSize).value;
      && totalSize >= 0
      && (r.isPartial ==> 0 <= r.start <= r.end < totalSize)
      && (!r.isPartial ==> r.start == 0 && r.end == totalSize - 1)
      && (r.isPartial <==> Trim(text) != "")
  {
  }

  // --- canonical headers ---

  predicate Plain(s: string) {
    forall i | 0 <= i < |s| :: !IsSpace(s[i]) && s[i] != ','
  }

  lemma TrimPlain(s: string)
    requires Plain(s)
    ensures Trim(s) == s
  {
  }

  lemma PlainDec(v: nat)
    ensures Plain(Dec(v)) && '-' !in Dec(v)
  {
    DecNatDigits(v);
  }

  lemma CanonicalParses(x: string, y: string, totalSize: int)
    requires totalSize >= 0 && Plain(x) && Plain(y) && '-' !in x
    ensures ParseRange("bytes=" + (x + "-" + y), totalSize) == ParseBounds(x, y, totalSize)
  {
    var text := "bytes=" + (x + "-" + y);
    assert Plain(text) by {
      assert Plain("bytes=") && Plain("-");
      forall i | 0 <= i < |text|
        ensures !IsSpace(text[i]) && text[i] != ','
      {
        assert text[i] in "bytes=" || text[i] in x || text[i] == '-' || text[i] in y;
      }
    }
    TrimPlain(text);
    TrimPlain(x);
    TrimPlain(y);
    FormParses(Trim(text), totalSize, x, y);
  }

  function Served(file: seq<bv8>, r: Range): seq<bv8>
    requires r.isPartial ==> 0 <= r.start <= r.end < |file|
  {
    if r.isPartial then file[r.start..r.end + 1] else file
  }

  /** `bytes=0-(k-1)` */
  function HeadRequest(k: nat): string
    requires 0 < k
  {
    "bytes=" + (Dec(0) + "-" + Dec(k - 1))
  }

  /** `bytes=k-` */
  function TailRequest(k: nat): string { "bytes=" + (Dec(k) + "-" + "") }

  /** `bytes=-m` */
  function SuffixRequest(m: nat): string { "bytes=" + ("" + "-" + Dec(m)) }

  lemma HeadParses(k: nat, totalSize: int)
    requires 0 < k < totalSize <= INT64_MAX
    ensures ParseRange(HeadRequest(k), totalSize) == Some(Range(true, 0, k - 1))
  {
    PlainDec(0);
    PlainDec(k - 1);
    CanonicalParses(Dec(0), Dec(k - 1), totalSize);
    IntegerIff(Dec(0), 0);
    IntegerIff(Dec(k - 1), k - 1);
    DecNotEmpty(k - 1);
  }

  lemma TailParses(k: nat, totalSize: int)
    requires k < totalSize <= INT64_MAX
    ensures ParseRange(TailRequest(k), totalSize) == Some(Range(true, k, totalSize - 1))
  {
    PlainDec(k);
    CanonicalParses(Dec(k), "", totalSize);
    IntegerIff(Dec(k), k);
    DecNotEmpty(k);
  }

  lemma SuffixParses(m: nat, totalSize: int)
    requires 0 < m <= INT64_MAX && 0 < totalSize
    ensures ParseRange(SuffixRequest(m), totalSize) == Some(Range(true, totalSize - Min(m, totalSize), totalSize - 1))
  {
    PlainDec(m);
    CanonicalParses("", Dec(m), totalSize);
    IntegerIff(Dec(m), m);
    DecNotEmpty(m);
  }

  /** The body served for a header, if the header is accepted. */
  function Body(file: seq<bv8>, text: string): Option<seq<bv8>> {
    match ParseRange(text, |file|)
    case None => None
    case Some(r) => if r.isPartial then AcceptedInside(text, |file|); Some(Served(file, r)) else Some(file)
  }

  lemma BodyOf(file: seq<bv8>, text: string, r: Range)
    requires ParseRange(text, |file|) == Some(r) && r.isPartial && 0 <= r.start <= r.end < |file|
    ensures Body(file, text) == Some(Served(file, r))
  {
  }

  lemma PartBody(file: seq<bv8>, text: string, r: Range, part: seq<bv8>)
    requires ParseRange(text, |file|) == Some(r) && r.isPartial && 0 <= r.start <= r.end < |file|
    requires part == file[r.start..r.end + 1]
    ensures Body(file, text) == Some(part)
  {
    BodyOf(file, text, r);
  }

  lemma BodyWhole(file: seq<bv8>, text: string, r: Range)
    requires ParseRange(text, |file|) == Some(r) && !r.isPartial
    ensures Body(file, text) == Some(file)
  {
  }

  predicate AreParts(file: seq<bv8>, k: nat, head: Option<seq<bv8>>, tail: Option<seq<bv8>>) {
    head.Some? && tail.Some? && |head.value| == k && head.value + tail.value == file
  }

  lemma HeadBody(file: seq<bv8>, k: nat)
    requires 0 < k < |file| <= INT64_MAX
    ensures Body(file, HeadRequest(k)) == Some(Served(file, Range(true, 0, k - 1)))
  {
    HeadParses(k, |file|);
    BodyOf(file, HeadRequest(k), Range(true, 0, k - 1));
  }

  lemma TailBody(file: seq<bv8>, k: nat)
    requires k < |file| <= INT64_MAX
    ensures Body(file, TailRequest(k)) == Some(Served(file, Range(true, k, |file| - 1)))
  {
    TailParses(k, |file|);
    BodyOf(file, TailRequest(k), Range(true, k, |file| - 1));
  }

  lemma JoinParts(file: seq<bv8>, k: nat, head: Option<seq<bv8>>, tail: Option<seq<bv8>>)
    requires 0 < k < |file|
    requires head == Some(Served(file, Range(true, 0, k - 1)))
    requires tail == Some(Served(file, Range(true, k, |file| - 1)))
    ensures AreParts(file, k, head, tail)
  {
  }

  /** Fetching the first k bytes and resuming at byte k gives the file. */
  lemma ResumeExact(file: seq<bv8>, k: nat)
    requires 0 < k < |file| <= INT64_MAX
    ensures AreParts(file, k, Body(file, HeadRequest(k)), Body(file, TailRequest(k)))
  {
    HeadBody(file, k);
    TailBody(file, k);
    JoinParts(file, k, Body(file, HeadRequest(k)), Body(file, TailRequest(k)));
  }

  lemma SuffixBody(file: seq<bv8>, m: nat, n: nat)
    requires 0 < m <= INT64_MAX && 0 < |file| && n == Min(m, |file|)
    ensures Body(file, SuffixRequest(m)) == Some(file[|file| - n..])
  {
    SuffixParses(m, |file|);
    PartBody(file, SuffixRequest(m), Range(true, |file| - n, |file| - 1), file[|file| - n..]);
  }

  /** A suffix of length m > 0 is the last min(m, size) bytes. */
  lemma SuffixExact(file: seq<bv8>, m: nat)
    requires 0 < m <= INT64_MAX && 0 < |file|
    ensures Body(file, SuffixRequest(m)) == Some(file[|file| - Min(m, |file|)..])
  {
    SuffixBody(file, m, Min(m, |file|));
  }
}
