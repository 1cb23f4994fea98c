/** What the stored words look like, as other programs that speak the format expect them. */
module TlWire {
  import opened Common
  import opened TlPrimitives
  import opened TlGenerator
  import opened TlCodec
  import opened TlRoundTrip
  import opened TlNormal

  // --- bits ---

  lemma {:induction false} Multiple(e: nat, d: nat)
    requires e > 0
    ensures e * d >= d
  {
    if e > 1 {
      Multiple(e - 1, d);
      assert e * d == (e - 1) * d + d;
    }
  }

  lemma DivUnique(w: nat, d: nat, q: nat, r: nat)
    requires w == q * d + r && r < d
    ensures w / d == q
  {
    var e := w / d - q;
    assert e * d == r - w % d;
    if e > 0 {
      Multiple(e, d);
    }
  }

  lemma HalfFirst(w: nat, p: nat)
    requires 0 < p
    ensures w / 2 / p == w / (2 * p)
  {
    var q, r := w / 2 / p, w / 2 % p;
    assert w / 2 == q * p + r;
    assert w == q * (2 * p) + (2 * r + w % 2);
    DivUnique(w, 2 * p, q, 2 * r + w % 2);
  }

  /** Bit i of a word is the one of value 2^i. */
  lemma {:induction false} BitIs(w: nat, i: nat)
    ensures Pow2(i) > 0 && (Bit(w, i) <==> w / Pow2(i) % 2 == 1)
  {
    if i > 0 {
      BitIs(w / 2, i - 1);
      HalfFirst(w, Pow2(i - 1));
    }
  }

  /** A flag word that no fetch accepts is one with its highest bit set. */
  lemma NegativeIs(w: Word)
    ensures Negative(w) <==> Bit(w, 31)
  {
    BitIs(w, 31);
    assert Pow2(8) == 256 && Pow2(16) == 65536 && Pow2(24) == 16777216;
  }

  // --- strings ---

  lemma {:induction false} ZerosAre(n: nat)
    ensures forall i | 0 <= i < n :: Zeros(n)[i] == 0
  {
    if n > 0 {
      ZerosAre(n - 1);
    }
  }

  /** A number of up to four bytes, the lowest first. */
  function Little(a: int, b: int, c: int, d: int): int { a + 256 * b + 65536 * c + 16777216 * d }

  /** How long the header of a string of n bytes is. */
  function HeaderSize(n: nat): nat { if n < 254 then 1 else if n < 16777216 then 4 else 8 }

  lemma HeaderIs(n: nat)
    requires n < STRING_LIMIT
    ensures var h := Header(n);
      if n < 254 then h == [n]
      else if n < 16777216 then |h| == 4 && h[0] == 254 && Little(h[1], h[2], h[3], 0) == n
      else |h| == 8 && h[0] == 255 && Little(h[1], h[2], h[3], h[4]) == n && h[5..] == [0, 0, 0]
  {
    var k := if n < 16777216 then 3 else 4;
    Pow256Values();
    NumberDigits(n, k);
    NumberOf(Digits(n, k));
  }

  lemma NumberOf(bs: seq<Byte>)
    ensures |bs| == 3 ==> Number(bs) == Little(bs[0], bs[1], bs[2], 0)
    ensures |bs| == 4 ==> Number(bs) == Little(bs[0], bs[1], bs[2], bs[3])
  {
    if |bs| == 3 || |bs| == 4 {
      assert Number(bs) == bs[0] + 256 * Number(bs[1..]);
      assert Number(bs[1..]) == bs[1] + 256 * Number(bs[1..][1..]);
      assert bs[1..][1..] == bs[2..] && bs[2..][1..] == bs[3..];
      assert Number(bs[2..]) == bs[2] + 256 * Number(bs[3..]);
    }
    if |bs| == 4 {
      assert bs[3..][1..] == [];
      assert Number(bs[3..]) == bs[3];
    }
  }

  /** A string is its length in one, four or eight bytes, its bytes, and zeros up to a whole word. */
  lemma StringLayout(s: seq<Byte>)
    requires |s| < STRING_LIMIT
    ensures var bs := Unpack(StoreString(s)); var n := HeaderSize(|s|);
      && n + |s| <= |bs| < n + |s| + 4 && |bs| % 4 == 0 && bs[n..n + |s|] == s
      && (forall i | n + |s| <= i < |bs| :: bs[i] == 0)
      && if n == 1 then bs[0] == |s|
         else if n == 4 then bs[0] == 254 && Little(bs[1], bs[2], bs[3], 0) == |s|
         else
           bs[0] == 255 && Little(bs[1], bs[2], bs[3], bs[4]) == |s| && bs[5] == bs[6] == bs[7] == 0
  {
    UnpackPack(StringBytes(s));
    HeaderIs(|s|);
    ZerosAre(Padding(|Header(|s|) + s|));
    Laid(Header(|s|), s, Zeros(Padding(|Header(|s|) + s|)));
    assert |Header(|s|)| == 8 ==> Header(|s|)[5..][0] == Header(|s|)[5..][1] == Header(|s|)[5..][2] == 0;
  }

  lemma Laid(head: seq<Byte>, s: seq<Byte>, zeros: seq<Byte>)
    ensures var bs := head + s + zeros;
      && |bs| == |head| + |s| + |zeros| && bs[|head|..|head| + |s|] == s
      && (forall i | 0 <= i < |head| :: bs[i] == head[i])
      && (forall i | |head| + |s| <= i < |bs| :: bs[i] == zeros[i - |head| - |s|])
  {
  }

  // --- values ---

  /** A Bool is one of two identifiers. */
  lemma BoolWords(schema: Schema, tr: TypeRef, b: bool)
    requires IsKind(schema, tr, BoolP)
    ensures GenStore(schema, tr).Some?
    ensures Store(schema, GenStore(schema, tr).value, Flag(b)) ==
      Some(Words([if b then 0x997275b5 else 0xbc799737]))
  {
  }

  /** An object is the identifier of its constructor, unless the type is written bare, and its body. */
  lemma ObjectWords(schema: Schema, tr: TypeRef, v: Value)
    requires tr.t < |schema| && schema[tr.t].kind.ObjectK? && GenStore(schema, tr).Some?
    requires Store(schema, GenStore(schema, tr).value, v).Some?
    ensures Known(schema, v) && v.t == tr.t && StoreBody(schema, v, 0, map[]).Some?
    ensures Store(schema, GenStore(schema, tr).value, v).value.words ==
      (if tr.bare then [] else [schema[tr.t].constructors[v.c].id]) + StoreBody(schema, v, 0, map[]).value.words
  {
    var cs := schema[tr.t].constructors;
    if SupportedCount(cs) == 1 && !tr.bare {
      var id := cs[FirstSupported(cs)].id;
      assert GenStore(schema, tr) == Some(Boxed(ObjectC(tr.t), id));
      assert Known(schema, v);
      OnlySupported(cs, v.c);
    }
  }

  /** A vector is its identifier, unless it is written bare, its length, and its elements. */
  lemma VectorWords(schema: Schema, tr: TypeRef, v: Value)
    requires tr.t < |schema| && schema[tr.t].kind.VectorK? && GenStore(schema, tr).Some?
    requires Store(schema, GenStore(schema, tr).value, v).Some?
    ensures |tr.children| == 1 && GenStore(schema, tr.children[0]).Some? && v.List?
    ensures StoreList(schema, GenStore(schema, tr.children[0]).value, v, 0).Some?
    ensures tr.bare || schema[tr.t].constructors != []
    ensures Store(schema, GenStore(schema, tr).value, v).value.words ==
      (if tr.bare then [] else [schema[tr.t].constructors[0].id]) + [|v.vs|] +
        StoreList(schema, GenStore(schema, tr.children[0]).value, v, 0).value.words
  {
    if !tr.bare {
      assert GenStore(schema, tr).value == Boxed(VectorC(GenStore(schema, tr.children[0]).value),
        schema[tr.t].constructors[0].id);
    }
  }

  /** An absent field is zero, false or empty. */
  predicate IsZero(v: Value) {
    match v
    case Num(w) => w == 0
    case Wide(ws) => forall i | 0 <= i < |ws| :: ws[i] == 0
    case Flag(b) => !b
    case Text(s) => s == []
    case List(vs) => vs == []
    case Obj(_, _, _) => false
    case Null => true
  }

  lemma {:induction false} Zeros32Are(n: nat)
    ensures |Zeros32(n)| == n && forall i | 0 <= i < n :: Zeros32(n)[i] == 0
  {
    if n > 0 {
      Zeros32Are(n - 1);
    }
  }

  lemma AbsentIsZero(schema: Schema, tr: TypeRef)
    ensures IsZero(Default(schema, tr))
    ensures IsKind(schema, tr, NumP) ==> Default(schema, tr) == Num(0)
    ensures IsKind(schema, tr, BoolP) || IsKind(schema, tr, TrueP) ==> Default(schema, tr) == Flag(false)
    ensures IsKind(schema, tr, StringP) ==> Default(schema, tr) == Text([])
    ensures tr.t < |schema| && schema[tr.t].kind.VectorK? ==> Default(schema, tr) == List([])
    ensures tr.t < |schema| && schema[tr.t].kind.ObjectK? ==> Default(schema, tr) == Null
  {
    if tr.t < |schema| && schema[tr.t].kind.Simple? && schema[tr.t].kind.prim.Fixed? {
      Zeros32Are(schema[tr.t].kind.prim.words);
    }
  }

  // --- what a fetch refuses ---

  lemma {:induction false} FoundIs(cs: seq<Combinator>, id: Word, i: nat)
    requires i <= |cs| && FindCase(cs, id, i).Some?
    ensures var c := FindCase(cs, id, i).value; c < |cs| && cs[c].supported && cs[c].id == id
    decreases |cs| - i
  {
    if !(cs[i].supported && cs[i].id == id) {
      FoundIs(cs, id, i + 1);
    }
  }

  /** After the statement of one argument the fetch goes on with the next one. */
  lemma BodyNext(schema: Schema, t: nat, c: nat, k: nat, ws: seq<Word>, vars: Vars, done: seq<Value>, fuel: nat)
    returns (rest: seq<Word>, next: Vars, more: seq<Value>)
    requires t < |schema| && c < |schema[t].constructors| && k < |schema[t].constructors[c].args|
    requires FetchBody(schema, t, c, k, ws, vars, done, fuel).Some?
    ensures FetchBody(schema, t, c, k, ws, vars, done, fuel) == FetchBody(schema, t, c, k + 1, rest, next, more, fuel)
  {
    var comb := schema[t].constructors[c];
    rest, next := ws, vars;
    match GenFieldFetch(schema, comb, k, Stored(comb, k)).value
    case FetchBit(x, bit) => more := done + [Flag(Bit(vars[x], bit))];
    case FetchField(g, f) =>
      if Holds(g, vars).value {
        var r := Fetch(schema, f, ws, fuel).value;
        rest, more := r.1, done + [r.0];
      } else {
        more := done + [Default(schema, comb.args[k].ty)];
      }
    case FetchVar(g, x, f) =>
      if Holds(g, vars).value {
        var r := Fetch(schema, f, ws, fuel).value;
        rest, next, more := r.1, vars[x := r.0.w], done + [r.0];
      } else {
        next, more := vars[x := 0], done + [Default(schema, comb.args[k].ty)];
      }
  }

  /** The body of a constructor is fetched as an object of that constructor. */
  lemma {:induction false} BodyReads(schema: Schema, t: nat, c: nat, k: nat, ws: seq<Word>, vars: Vars,
                                     done: seq<Value>, fuel: nat)
    requires t < |schema| && c < |schema[t].constructors| && k <= |schema[t].constructors[c].args|
    requires FetchBody(schema, t, c, k, ws, vars, done, fuel).Some?
    ensures var v := FetchBody(schema, t, c, k, ws, vars, done, fuel).value.0; v.Obj? && v.t == t && v.c == c
    decreases |schema[t].constructors[c].args| - k
  {
    if k < |schema[t].constructors[c].args| {
      var rest, next, more := BodyNext(schema, t, c, k, ws, vars, done, fuel);
      BodyReads(schema, t, c, k + 1, rest, next, more, fuel);
    }
  }

  lemma NamelessReads(schema: Schema, t: nat, ws: seq<Word>, fuel: nat)
    requires Fetch(schema, FObject(t), ws, fuel).Some?
    ensures var v := Fetch(schema, FObject(t), ws, fuel).value.0;
      && t < |schema| && v.Obj? && v.t == t && v.c < |schema[t].constructors| && schema[t].constructors[v.c].supported
      && (SupportedCount(schema[t].constructors) != 1 ==> ws != [] && ws[0] == schema[t].constructors[v.c].id)
      && (SupportedCount(schema[t].constructors) == 1 ==> v.c == FirstSupported(schema[t].constructors))
  {
    var cs := schema[t].constructors;
    if SupportedCount(cs) == 1 {
      BodyReads(schema, t, FirstSupported(cs), 0, ws, map[], [], fuel - 1);
    } else {
      FoundIs(cs, ws[0], 0);
      BodyReads(schema, t, FindCase(cs, ws[0], 0).value, 0, ws[1..], map[], [], fuel - 1);
    }
  }

  /** An object is fetched only by the identifier of its constructor, where one is written. */
  lemma ObjectReads(schema: Schema, tr: TypeRef, ws: seq<Word>, fuel: nat)
    requires tr.t < |schema| && schema[tr.t].kind.ObjectK? && GenFetch(schema, tr).Some?
    requires Fetch(schema, GenFetch(schema, tr).value, ws, fuel).Some?
    ensures var v := Fetch(schema, GenFetch(schema, tr).value, ws, fuel).value.0; var cs := schema[tr.t].constructors;
      && v.Obj? && v.t == tr.t && v.c < |cs| && cs[v.c].supported
      && (!tr.bare ==> ws != [] && ws[0] == cs[v.c].id)
  {
    var g := GenFetch(schema, tr).value;
    NamelessReads(schema, tr.t, if g.FBoxed? then ws[1..] else ws, fuel);
  }

  /** A Bool is fetched only from one of its two identifiers. */
  lemma BoolReads(schema: Schema, tr: TypeRef, ws: seq<Word>, fuel: nat)
    requires IsKind(schema, tr, BoolP) && GenFetch(schema, tr) == Some(FBool)
    ensures Fetch(schema, FBool, ws, fuel) ==
      if ws != [] && ws[0] == 0x997275b5 then Some((Flag(true), ws[1..]))
      else if ws != [] && ws[0] == 0xbc799737 then Some((Flag(false), ws[1..]))
      else None
  {
  }

  lemma {:induction false} ListLength(schema: Schema, f: FetchClass, ws: seq<Word>, n: nat, fuel: nat)
    ensures var r := FetchList(schema, f, ws, n, fuel); r.Some? ==> |r.value.0| == n
    decreases n
  {
    if n > 0 {
      var r := Fetch(schema, f, ws, fuel);
      if r.Some? {
        ListLength(schema, f, r.value.1, n - 1, fuel);
      }
    }
  }

  /** A vector has as many elements as its length says, and a word for every four of them follows. */
  lemma VectorReads(schema: Schema, f: FetchClass, ws: seq<Word>, fuel: nat)
    ensures var r := Fetch(schema, FVector(f), ws, fuel);
      r.Some? ==> ws != [] && r.value.0.List? && |r.value.0.vs| == ws[0] <= 4 * (|ws| - 1)
  {
    if ws != [] {
      ListLength(schema, f, ws[1..], ws[0], fuel);
    }
  }
}
