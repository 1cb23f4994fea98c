/** The primitives of the TL wire format: 32-bit words, flag bits, and strings packed into words. */
module TlPrimitives {
  import opened Common

  const WORD_LIMIT := 0x1_0000_0000

  type Word = w: int | 0 <= w < WORD_LIMIT

  type Byte = b: int | 0 <= b < 0x100

  /** A word read as a signed integer is negative. */
  predicate Negative(w: Word) { w >= 0x8000_0000 }

  // --- flag bits ---

  predicate Bit(w: nat, i: nat) {
    if i == 0 then w % 2 == 1 else Bit(w / 2, i - 1)
  }

  function WithBit(w: nat, i: nat): nat {
    if i == 0 then (if w % 2 == 1 then w else w + 1) else 2 * WithBit(w / 2, i - 1) + w % 2
  }

  /** `w | (b << i)` */
  function Or(w: nat, b: bool, i: nat): nat { if b then WithBit(w, i) else w }

  lemma {:induction false} BitOfWithBit(w: nat, i: nat, j: nat)
    ensures Bit(WithBit(w, i), j) <==> i == j || Bit(w, j)
  {
    if i > 0 {
      var v := WithBit(w / 2, i - 1);
      assert (2 * v + w % 2) / 2 == v && (2 * v + w % 2) % 2 == w % 2;
      if j > 0 {
        BitOfWithBit(w / 2, i - 1, j - 1);
      }
    } else if j > 0 {
      assert WithBit(w, 0) / 2 == w / 2;
    }
  }

  lemma {:induction false} WithBitSame(w: nat, i: nat)
    requires Bit(w, i)
    ensures WithBit(w, i) == w
  {
    if i > 0 {
      WithBitSame(w / 2, i - 1);
    }
  }

  lemma {:induction false} WithBitBelow(w: nat, i: nat, n: nat)
    requires w < Pow2(n) && i < n
    ensures WithBit(w, i) < Pow2(n)
  {
    Halves(w, WithBit(w, i), Pow2(n - 1));
    if i > 0 {
      WithBitBelow(w / 2, i - 1, n - 1);
    }
  }

  lemma Halves(w: nat, v: nat, p: nat)
    requires w < 2 * p
    ensures w / 2 < p
    ensures w % 2 == 0 ==> w + 1 < 2 * p
    ensures v / 2 < p ==> v < 2 * p
  {
  }

  lemma Pow32()
    ensures Pow2(32) == WORD_LIMIT
  {
    assert Pow2(8) == 0x100;
    assert Pow2(16) == 0x1_0000;
    assert Pow2(24) == 0x100_0000;
  }

  lemma OrIsWord(w: Word, b: bool, i: nat)
    requires i < 32
    ensures Or(w, b, i) < WORD_LIMIT
  {
    Pow32();
    if b { WithBitBelow(w, i, 32); }
  }

  /** Or-ing a bit into a word that has it, or nothing, changes nothing. */
  lemma {:induction false} OrSame(w: nat, i: nat)
    ensures Or(w, Bit(w, i), i) == w
  {
    if Bit(w, i) { WithBitSame(w, i); }
  }

  // --- bytes and words ---

  /** The k low-order bytes of a number, lowest first. */
  function Digits(n: nat, k: nat): (bs: seq<Byte>)
    ensures |bs| == k
  {
    if k == 0 then [] else [n % 0x100] + Digits(n / 0x100, k - 1)
  }

  function Number(bs: seq<Byte>): nat {
    if bs == [] then 0 else bs[0] + 0x100 * Number(bs[1..])
  }

  function Pow256(k: nat): nat { if k == 0 then 1 else 0x100 * Pow256(k - 1) }

  lemma {:induction false} NumberDigits(n: nat, k: nat)
    requires n < Pow256(k)
    ensures Number(Digits(n, k)) == n
  {
    if k > 0 {
      NumberDigits(n / 0x100, k - 1);
      assert Digits(n, k)[1..] == Digits(n / 0x100, k - 1);
    }
  }

  lemma {:induction false} DigitsNumber(bs: seq<Byte>)
    ensures Digits(Number(bs), |bs|) == bs && Number(bs) < Pow256(|bs|)
  {
    if bs != [] {
      DigitsNumber(bs[1..]);
      assert Number(bs) / 0x100 == Number(bs[1..]) && Number(bs) % 0x100 == bs[0];
    }
  }

  lemma Pow256Values()
    ensures Pow256(3) == 0x100_0000 && Pow256(4) == WORD_LIMIT
  {
    assert Pow256(1) == 0x100;
    assert Pow256(2) == 0x1_0000;
  }

  function Word4(bs: seq<Byte>): Word
    requires |bs| == 4
  {
    Pow256Values();
    DigitsNumber(bs);
    Number(bs)
  }

  function Bytes4(w: Word): (bs: seq<Byte>)
    ensures |bs| == 4
  {
    Digits(w, 4)
  }

  lemma Bytes4Word4(bs: seq<Byte>)
    requires |bs| == 4
    ensures Bytes4(Word4(bs)) == bs
  {
    DigitsNumber(bs);
  }

  function Pack(bs: seq<Byte>): (ws: seq<Word>)
    requires |bs| % 4 == 0
    ensures 4 * |ws| == |bs|
  {
    if bs == [] then [] else [Word4(bs[..4])] + Pack(bs[4..])
  }

  function Unpack(ws: seq<Word>): (bs: seq<Byte>)
    ensures |bs| == 4 * |ws|
  {
    if ws == [] then [] else Bytes4(ws[0]) + Unpack(ws[1..])
  }

  lemma {:induction false} UnpackPack(bs: seq<Byte>)
    requires |bs| % 4 == 0
    ensures Unpack(Pack(bs)) == bs
  {
    if bs != [] {
      Bytes4Word4(bs[..4]);
      UnpackPack(bs[4..]);
      assert Pack(bs)[1..] == Pack(bs[4..]);
      assert bs == bs[..4] + bs[4..];
    }
  }

  // --- strings ---

  const STRING_LIMIT := WORD_LIMIT

  function Zeros(n: nat): (z: seq<Byte>)
    ensures |z| == n
  {
    if n == 0 then [] else [0] + Zeros(n - 1)
  }

  function Padding(n: nat): nat { (4 - n % 4) % 4 }

  lemma {:induction false} NumberZeros(bs: seq<Byte>, zs: seq<Byte>)
    requires forall i | 0 <= i < |zs| :: zs[i] == 0
    ensures Number(bs + zs) == Number(bs)
  {
    if bs != [] {
      NumberZeros(bs[1..], zs);
      assert (bs + zs)[1..] == bs[1..] + zs;
    } else if zs != [] {
      NumberZeros([], zs[1..]);
      assert [] + zs == zs && [] + zs[1..] == zs[1..];
    }
  }

  /** The length, in the shortest of its three forms. */
  function Header(n: nat): seq<Byte>
    requires n < STRING_LIMIT
  {
    if n < 254 then [n]
    else if n < 0x100_0000 then [254] + Digits(n, 3)
    else [255] + Digits(n, 4) + [0, 0, 0]
  }

  function StringBytes(s: seq<Byte>): (bs: seq<Byte>)
    requires |s| < STRING_LIMIT
    ensures |bs| % 4 == 0
  {
    var body := Header(|s|) + s;
    body + Zeros(Padding(|body|))
  }

  function StoreString(s: seq<Byte>): (ws: seq<Word>)
    requires |s| < STRING_LIMIT
    ensures |ws| > 0
  {
    Pack(StringBytes(s))
  }

  /** The bytes of a string that starts skip bytes into these words and is len bytes long. */
  function Cut(ws: seq<Word>, from: nat, to: nat, skip: nat, len: nat): Option<(seq<Byte>, seq<Word>)> {
    if from <= to <= |ws| && skip + len <= 4 * (to - from)
    then Some((Unpack(ws[from..to])[skip..skip + len], ws[to..])) else None
  }

  function FetchString(ws: seq<Word>): Option<(seq<Byte>, seq<Word>)> {
    if ws == [] then None
    else
      var b := Bytes4(ws[0]);
      if b[0] < 254 then Cut(ws, 0, 1 + b[0] / 4, 1, b[0])
      else if b[0] == 254 then
        var n := Number(b[1..]);
        Cut(ws, 1, 1 + (n + 3) / 4, 0, n)
      else if |ws| < 2 then None
      else
        var n := Number(b[1..] + Bytes4(ws[1]));
        Cut(ws, 2, 2 + (n + 3) / 4, 0, n)
  }

  lemma FirstWord(bs: seq<Byte>, rest: seq<Word>)
    requires |bs| % 4 == 0 && |bs| > 0
    ensures Bytes4((Pack(bs) + rest)[0]) == bs[..4]
  {
    Bytes4Word4(bs[..4]);
  }

  lemma SecondWord(bs: seq<Byte>, rest: seq<Word>)
    requires |bs| % 4 == 0 && |bs| > 4
    ensures Bytes4((Pack(bs) + rest)[1]) == bs[4..8]
  {
    FirstWord(bs[4..], rest);
    assert (Pack(bs) + rest)[1] == (Pack(bs[4..]) + rest)[0];
    assert bs[4..][..4] == bs[4..8];
  }

  lemma {:induction false} PackedFrom(bs: seq<Byte>, from: nat)
    requires |bs| % 4 == 0 && 4 * from <= |bs|
    ensures Unpack(Pack(bs)[from..]) == bs[4 * from..]
    decreases from
  {
    if from == 0 {
      UnpackPack(bs);
      assert Pack(bs)[0..] == Pack(bs);
    } else {
      PackedFrom(bs[4..], from - 1);
      assert Pack(bs)[from..] == Pack(bs[4..])[from - 1..];
    }
  }

  lemma SliceOfSlice(bs: seq<Byte>, a: nat, skip: nat, len: nat)
    requires a + skip + len <= |bs|
    ensures bs[a..][skip..skip + len] == bs[a + skip..a + skip + len]
  {
  }

  lemma Front(ps: seq<Word>, rest: seq<Word>, from: nat)
    requires from <= |ps|
    ensures (ps + rest)[from..|ps|] == ps[from..] && (ps + rest)[|ps|..] == rest
  {
  }

  lemma CutWhole(ws: seq<Word>, from: nat, to: nat, skip: nat, len: nat, bytes: seq<Byte>, rest: seq<Word>)
    requires from <= to <= |ws| && Unpack(ws[from..to]) == bytes && ws[to..] == rest && skip + len <= |bytes|
    ensures Cut(ws, from, to, skip, len) == Some((bytes[skip..skip + len], rest))
  {
  }

  lemma CutAt(ps: seq<Word>, rest: seq<Word>, from: nat, skip: nat, len: nat, bytes: seq<Byte>)
    requires from <= |ps| && Unpack(ps[from..]) == bytes && skip + len <= |bytes|
    ensures Cut(ps + rest, from, |ps|, skip, len) == Some((bytes[skip..skip + len], rest))
  {
    Front(ps, rest, from);
    CutWhole(ps + rest, from, |ps|, skip, len, bytes, rest);
  }

  lemma CutPart(ps: seq<Word>, rest: seq<Word>, from: nat, to: nat, skip: nat, len: nat, bytes: seq<Byte>,
                part: seq<Byte>)
    requires from <= to == |ps| && Unpack(ps[from..]) == bytes && skip + len <= |bytes|
    requires part == bytes[skip..skip + len]
    ensures Cut(ps + rest, from, to, skip, len) == Some((part, rest))
  {
    CutAt(ps, rest, from, skip, len, bytes);
  }

  /** Cutting the packed bytes gives the bytes back. */
  lemma CutPacked(bs: seq<Byte>, rest: seq<Word>, from: nat, to: nat, skip: nat, len: nat, part: seq<Byte>)
    requires |bs| == 4 * to && from <= to && 4 * from + skip + len <= |bs|
    requires part == bs[4 * from + skip..4 * from + skip + len]
    ensures Cut(Pack(bs) + rest, from, to, skip, len) == Some((part, rest))
  {
    SliceOfSlice(bs, 4 * from, skip, len);
    CutTail(bs, rest, from, to, skip, len, bs[4 * from..], part);
  }

  lemma CutTail(bs: seq<Byte>, rest: seq<Word>, from: nat, to: nat, skip: nat, len: nat, tail: seq<Byte>,
                part: seq<Byte>)
    requires |bs| == 4 * to && from <= to && tail == bs[4 * from..] && skip + len <= |tail|
    requires part == tail[skip..skip + len]
    ensures Cut(Pack(bs) + rest, from, to, skip, len) == Some((part, rest))
  {
    PackedFrom(bs, from);
    CutPart(Pack(bs), rest, from, to, skip, len, tail, part);
  }

  // The three forms of the length, by the bytes of the first words.

  lemma ShortForm(ws: seq<Word>, b: seq<Byte>, s: seq<Byte>, rest: seq<Word>, to: nat)
    requires ws != [] && Bytes4(ws[0]) == b && b[0] == |s| < 254 && to == 1 + |s| / 4
    requires Cut(ws, 0, to, 1, |s|) == Some((s, rest))
    ensures FetchString(ws) == Some((s, rest))
  {
  }

  lemma MediumForm(ws: seq<Word>, b: seq<Byte>, s: seq<Byte>, rest: seq<Word>, to: nat)
    requires ws != [] && Bytes4(ws[0]) == b && b[0] == 254 && Number(b[1..]) == |s| && to == 1 + (|s| + 3) / 4
    requires Cut(ws, 1, to, 0, |s|) == Some((s, rest))
    ensures FetchString(ws) == Some((s, rest))
  {
  }

  lemma LongForm(ws: seq<Word>, b: seq<Byte>, d: seq<Byte>, s: seq<Byte>, rest: seq<Word>, to: nat)
    requires |ws| > 1 && Bytes4(ws[0]) == b && Bytes4(ws[1]) == d && b[0] == 255 && Number(b[1..] + d) == |s|
    requires to == 2 + (|s| + 3) / 4 && Cut(ws, 2, to, 0, |s|) == Some((s, rest))
    ensures FetchString(ws) == Some((s, rest))
  {
  }

  // Each form of the length: what the bytes look like, and that such bytes are fetched back.

  lemma ShortBytes(s: seq<Byte>)
    requires |s| < 254
    ensures var bs := StringBytes(s);
      |bs| == 4 * (1 + |s| / 4) && 1 + |s| <= |bs| && bs[0] == |s| && bs[1..1 + |s|] == s
  {
  }

  lemma FetchShort(bs: seq<Byte>, s: seq<Byte>, rest: seq<Word>, to: nat)
    requires |s| < 254 && to == 1 + |s| / 4
    requires |bs| == 4 * to && 1 + |s| <= |bs| && bs[0] == |s| && bs[1..1 + |s|] == s
    ensures FetchString(Pack(bs) + rest) == Some((s, rest))
  {
    ShortParts(bs, s, rest, to, Pack(bs) + rest);
    ShortForm(Pack(bs) + rest, bs[..4], s, rest, to);
  }

  lemma ShortParts(bs: seq<Byte>, s: seq<Byte>, rest: seq<Word>, to: nat, ws: seq<Word>)
    requires 0 < to && |bs| == 4 * to && 1 + |s| <= |bs| && bs[1..1 + |s|] == s && ws == Pack(bs) + rest
    ensures ws != [] && Bytes4(ws[0]) == bs[..4] && Cut(ws, 0, to, 1, |s|) == Some((s, rest))
  {
    FirstWord(bs, rest);
    CutPacked(bs, rest, 0, to, 1, |s|, s);
  }

  /** A string behind a header of h bytes. */
  lemma Behind(head: seq<Byte>, s: seq<Byte>)
    ensures var body := head + s; var bs := body + Zeros(Padding(|body|));
      && |bs| == 4 * ((|head| + |s| + 3) / 4) && |head| + |s| <= |bs|
      && bs[..|head|] == head && bs[|head|..|head| + |s|] == s
  {
  }

  lemma MediumNumber(n: nat, head: seq<Byte>)
    requires n < 0x100_0000 && head == [254] + Digits(n, 3)
    ensures |head| == 4 && head[0] == 254 && Number(head[..4][1..]) == n
  {
    assert head[..4][1..] == Digits(n, 3);
    Pow256Values();
    NumberDigits(n, 3);
  }

  lemma MediumBytes(s: seq<Byte>)
    requires 254 <= |s| < 0x100_0000
    ensures var bs := StringBytes(s);
      && |bs| == 4 * (1 + (|s| + 3) / 4) && 4 + |s| <= |bs|
      && bs[0] == 254 && Number(bs[..4][1..]) == |s| && bs[4..4 + |s|] == s
  {
    var head := Header(|s|);
    Behind(head, s);
    MediumNumber(|s|, head);
    PartsOfHead(StringBytes(s), head);
  }

  lemma PartsOfHead(bs: seq<Byte>, head: seq<Byte>)
    requires 4 <= |head| <= |bs| && bs[..|head|] == head
    ensures bs[0] == head[0] && bs[..4] == head[..4] && bs[4..|head|] == head[4..]
  {
    assert bs[0] == bs[..|head|][0];
  }

  lemma FetchMedium(bs: seq<Byte>, s: seq<Byte>, rest: seq<Word>, to: nat)
    requires to == 1 + (|s| + 3) / 4 && |bs| == 4 * to && 4 + |s| <= |bs|
    requires bs[0] == 254 && Number(bs[..4][1..]) == |s| && bs[4..4 + |s|] == s
    ensures FetchString(Pack(bs) + rest) == Some((s, rest))
  {
    FirstWord(bs, rest);
    CutPacked(bs, rest, 1, to, 0, |s|, s);
    MediumForm(Pack(bs) + rest, bs[..4], s, rest, to);
  }

  lemma LongNumber(n: nat, head: seq<Byte>)
    requires n < STRING_LIMIT && head == [255] + Digits(n, 4) + [0, 0, 0]
    ensures |head| == 8 && head[0] == 255 && Number(head[..4][1..] + head[4..]) == n
  {
    var d := Digits(n, 4);
    assert head[..4][1..] + head[4..] == d + [0, 0, 0];
    Pow256Values();
    NumberDigits(n, 4);
    NumberZeros(d, [0, 0, 0]);
  }

  /** What the bytes of a string with the longest form of the length look like. */
  ghost predicate IsLong(bs: seq<Byte>, s: seq<Byte>) {
    && |bs| == 4 * (2 + (|s| + 3) / 4) && 8 + |s| <= |bs|
    && bs[0] == 255 && Number(bs[..4][1..] + bs[4..8]) == |s| && bs[8..8 + |s|] == s
  }

  lemma LongBytes(s: seq<Byte>)
    requires 0x100_0000 <= |s| < STRING_LIMIT
    ensures IsLong(StringBytes(s), s)
  {
    var head := Header(|s|);
    Behind(head, s);
    LongNumber(|s|, head);
    LongBehind(StringBytes(s), head, s);
  }

  lemma LongBehind(bs: seq<Byte>, head: seq<Byte>, s: seq<Byte>)
    requires |head| == 8 && |bs| == 4 * ((8 + |s| + 3) / 4) && 8 + |s| <= |bs| && bs[..8] == head && bs[8..8 + |s|] == s
    requires head[0] == 255 && Number(head[..4][1..] + head[4..]) == |s|
    ensures IsLong(bs, s)
  {
    PartsOfHead(bs, head);
  }

  lemma FetchLong(bs: seq<Byte>, s: seq<Byte>, rest: seq<Word>, to: nat)
    requires |s| > 0 && to == 2 + (|s| + 3) / 4 && IsLong(bs, s)
    ensures FetchString(Pack(bs) + rest) == Some((s, rest))
  {
    FirstWord(bs, rest);
    SecondWord(bs, rest);
    CutPacked(bs, rest, 2, to, 0, |s|, s);
    LongForm(Pack(bs) + rest, bs[..4], bs[4..8], s, rest, to);
  }

  /** A stored string is fetched back, and nothing after it is touched. */
  lemma StringRoundTrip(s: seq<Byte>, rest: seq<Word>)
    requires |s| < STRING_LIMIT
    ensures FetchString(StoreString(s) + rest) == Some((s, rest))
  {
    if |s| < 254 {
      ShortBytes(s);
      FetchShort(StringBytes(s), s, rest, 1 + |s| / 4);
    } else if |s| < 0x100_0000 {
      MediumBytes(s);
      FetchMedium(StringBytes(s), s, rest, 1 + (|s| + 3) / 4);
    } else {
      LongBytes(s);
      FetchLong(StringBytes(s), s, rest, 2 + (|s| + 3) / 4);
    }
  }
}
