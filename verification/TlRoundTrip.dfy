/** Fetch undoes store. */
module TlRoundTrip {
  import opened Common
  import opened TlPrimitives
  import opened TlGenerator
  import opened TlCodec

  // --- variables ---

  /** What a run of statements knows of the variables after k arguments: the store's variables are
      among the fetch's, and those have the values that the object says. */
  ghost predicate VarsOk(schema: Schema, v: Value, k: nat, svars: Vars, fvars: Vars)
    requires Known(schema, v) && k <= |v.fields|
  {
    && (forall x | x in svars :: x in fvars && svars[x] == fvars[x])
    && (forall x | x in Stored(Comb(schema, v), k) ::
          x in fvars && fvars[x] == VarVal(schema, Comb(schema, v), v.fields, x, k))
  }

  /** A guard that the store can evaluate says whether the argument is there. */
  lemma GuardSays(schema: Schema, v: Value, k: nat, svars: Vars, fvars: Vars)
    requires Known(schema, v) && k < |v.fields| && VarsOk(schema, v, k, svars, fvars)
    requires var a := Comb(schema, v).args[k]; GuardOk(a, Stored(Comb(schema, v), k))
    ensures var g := GuardOf(Comb(schema, v).args[k]);
      && Holds(g, fvars) == Some(Taken(schema, Comb(schema, v), v.fields, k))
      && (Holds(g, svars).Some? ==> Holds(g, svars) == Holds(g, fvars))
  {
  }

  lemma VarsNext(schema: Schema, v: Value, k: nat, svars: Vars, fvars: Vars)
    requires Known(schema, v) && k < |v.fields| && VarsOk(schema, v, k, svars, fvars)
    requires Comb(schema, v).args[k].varNum < 0
    ensures VarsOk(schema, v, k + 1, svars, fvars)
  {
    var c := Comb(schema, v);
    forall x | x in Stored(c, k + 1)
      ensures x in fvars && fvars[x] == VarVal(schema, c, v.fields, x, k + 1)
    {
      StoredNonNegative(c, k, x);
    }
  }

  lemma {:induction false} StoredNonNegative(c: Combinator, k: nat, x: int)
    requires k <= |c.args| && x in Stored(c, k)
    ensures x >= 0
  {
    if k > 0 && x in Stored(c, k - 1) {
      StoredNonNegative(c, k - 1, x);
    }
  }

  lemma VarsAssigned(schema: Schema, v: Value, k: nat, svars: Vars, fvars: Vars, x: int, w: Word)
    requires Known(schema, v) && k < |v.fields| && VarsOk(schema, v, k, svars, fvars)
    requires Comb(schema, v).args[k].varNum == x >= 0 && x !in Stored(Comb(schema, v), k)
    requires Taken(schema, Comb(schema, v), v.fields, k) && w == Own(schema, Comb(schema, v), v.fields, k)
    ensures VarsOk(schema, v, k + 1, svars[x := w], fvars[x := w])
  {
  }

  lemma VarsSkipped(schema: Schema, v: Value, k: nat, svars: Vars, fvars: Vars, x: int)
    requires Known(schema, v) && k < |v.fields| && VarsOk(schema, v, k, svars, fvars)
    requires Comb(schema, v).args[k].varNum == x >= 0 && x !in Stored(Comb(schema, v), k) && x !in svars
    requires !Taken(schema, Comb(schema, v), v.fields, k)
    ensures VarsOk(schema, v, k + 1, svars, fvars[x := 0])
  {
  }

  // --- objects ---

  lemma {:induction false} FoundCase(cs: seq<Combinator>, id: Word, i: nat, c: nat)
    requires i <= c < |cs| && cs[c].supported && cs[c].id == id && IdUnique(cs, c)
    ensures FindCase(cs, id, i) == Some(c)
    decreases c - i
  {
    if i < c {
      FoundCase(cs, id, i + 1, c);
    }
  }

  /** The fields that are done agree with the normalized object. */
  ghost predicate DoneOk(schema: Schema, v: Value, done: seq<Value>, k: nat)
    requires Known(schema, v) && k <= |v.fields|
  {
    |done| == k && forall j | 0 <= j < k :: done[j] == NormField(schema, v, j)
  }

  lemma DoneNext(schema: Schema, v: Value, done: seq<Value>, k: nat, f: Value)
    requires Known(schema, v) && k < |v.fields| && DoneOk(schema, v, done, k) && f == NormField(schema, v, k)
    ensures DoneOk(schema, v, done + [f], k + 1)
  {
  }

  /** What a fetch must return for an encoding that is followed by rest. */
  ghost predicate Reads(r: Option<(Value, seq<Word>)>, e: Encoding, n: Value, rest: seq<Word>) {
    r == if Readable(e, rest) then Some((n, rest)) else None
  }

  ghost predicate Sizes(schema: Schema, v: Value, svars: Vars, k: nat)
    requires Known(schema, v) && k <= |v.fields|
  {
    forall x | x in svars :: x in Stored(Comb(schema, v), k)
  }

  lemma BodyEnd(schema: Schema, v: Value, ws: seq<Word>, fvars: Vars, done: seq<Value>, fuel: nat)
    requires Known(schema, v) && DoneOk(schema, v, done, |v.fields|)
    ensures FetchBody(schema, v.t, v.c, |v.fields|, ws, fvars, done, fuel) == Some((Norm(schema, v), ws))
  {
    assert done == Norm(schema, v).fields;
  }

  lemma GeneratedAt(schema: Schema, v: Value, k: nat)
    requires Sound(schema) && Known(schema, v) && k < |v.fields|
    ensures var c := Comb(schema, v);
      GenFieldStore(schema, c, k, Stored(c, k)).Some? && GenFieldFetch(schema, c, k, Stored(c, k)).Some?
  {
  }

  /** An optional True field must be bare: there is no class that would fetch a boxed one. */
  lemma TrueHasNoClass(schema: Schema, tr: TypeRef)
    ensures IsKind(schema, tr, TrueP) ==> GenFetch(schema, tr) == None
  {
  }

  /** The forms of the two statements for one argument. */
  lemma Forms(schema: Schema, c: Combinator, k: nat, stored: set<int>)
    requires k < |c.args| && GenFieldStore(schema, c, k, stored).Some? && GenFieldFetch(schema, c, k, stored).Some?
    ensures var a := c.args[k]; var st := GenFieldStore(schema, c, k, stored).value;
      var ft := GenFieldFetch(schema, c, k, stored).value;
      && GuardOk(a, stored)
      && (IsTrueBit(schema, a) ==> st == SkipTrue && ft == FetchBit(a.existVar, a.existBit))
      && (!IsTrueBit(schema, a) ==>
            && DefinesOk(schema, a, c.varCount, stored) && GenStore(schema, a.ty).Some? && GenFetch(schema, a.ty).Some?
            && var sf := GenStore(schema, a.ty).value; var ff := GenFetch(schema, a.ty).value;
            if a.varNum >= 0 then
              st == StoreVar(GuardOf(a), a.varNum, Ors(schema, c.args, a.varNum, |c.args|), sf) &&
                ft == FetchVar(GuardOf(a), a.varNum, ff)
            else st == StoreField(GuardOf(a), sf) && ft == FetchField(GuardOf(a), ff))
  {
    TrueHasNoClass(schema, c.args[k].ty);
  }

  // --- the statements, one at a time ---

  /** Facts about argument k that every case below starts from. */
  ghost predicate Ready(schema: Schema, v: Value, k: nat, svars: Vars, fvars: Vars, done: seq<Value>)
  {
    && Known(schema, v) && k <= |v.fields|
    && VarsOk(schema, v, k, svars, fvars) && Sizes(schema, v, svars, k) && DoneOk(schema, v, done, k)
  }

  lemma AfterTrue(schema: Schema, v: Value, k: nat, svars: Vars, fvars: Vars, done: seq<Value>, ws: seq<Word>,
                  fuel: nat)
    requires Ready(schema, v, k, svars, fvars, done) && k < |v.fields| && IsTrueBit(schema, Comb(schema, v).args[k])
    requires GenFieldStore(schema, Comb(schema, v), k, Stored(Comb(schema, v), k)).Some?
    requires GenFieldFetch(schema, Comb(schema, v), k, Stored(Comb(schema, v), k)).Some?
    ensures var f := NormField(schema, v, k);
      && Ready(schema, v, k + 1, svars, fvars, done + [f])
      && StoreBody(schema, v, k, svars) == StoreBody(schema, v, k + 1, svars)
      && FetchBody(schema, v.t, v.c, k, ws, fvars, done, fuel) ==
        FetchBody(schema, v.t, v.c, k + 1, ws, fvars, done + [f], fuel)
  {
    Forms(schema, Comb(schema, v), k, Stored(Comb(schema, v), k));
    GuardSays(schema, v, k, svars, fvars);
    VarsNext(schema, v, k, svars, fvars);
    DoneNext(schema, v, done, k, NormField(schema, v, k));
  }

  /** An absent field. */
  lemma AfterAbsent(schema: Schema, v: Value, k: nat, svars: Vars, fvars: Vars, done: seq<Value>, ws: seq<Word>,
                    fuel: nat)
    requires Ready(schema, v, k, svars, fvars, done) && k < |v.fields| && !IsTrueBit(schema, Comb(schema, v).args[k])
    requires GenFieldStore(schema, Comb(schema, v), k, Stored(Comb(schema, v), k)).Some?
    requires GenFieldFetch(schema, Comb(schema, v), k, Stored(Comb(schema, v), k)).Some?
    requires Holds(GuardOf(Comb(schema, v).args[k]), svars) == Some(false)
    ensures var f := NormField(schema, v, k); var x := Comb(schema, v).args[k].varNum;
      var after := if x >= 0 then fvars[x := 0] else fvars;
      && Ready(schema, v, k + 1, svars, after, done + [f])
      && StoreBody(schema, v, k, svars) == StoreBody(schema, v, k + 1, svars)
      && FetchBody(schema, v.t, v.c, k, ws, fvars, done, fuel) ==
        FetchBody(schema, v.t, v.c, k + 1, ws, after, done + [f], fuel)
  {
    var c := Comb(schema, v);
    Forms(schema, c, k, Stored(c, k));
    GuardSays(schema, v, k, svars, fvars);
    DoneNext(schema, v, done, k, NormField(schema, v, k));
    if c.args[k].varNum >= 0 {
      VarsSkipped(schema, v, k, svars, fvars, c.args[k].varNum);
    } else {
      VarsNext(schema, v, k, svars, fvars);
    }
  }

  /** A field that is there and defines no variable. */
  lemma AfterField(schema: Schema, v: Value, k: nat, svars: Vars, fvars: Vars, done: seq<Value>, ws: seq<Word>,
                   fuel: nat)
    requires Ready(schema, v, k, svars, fvars, done) && k < |v.fields|
    requires !IsTrueBit(schema, Comb(schema, v).args[k]) && Comb(schema, v).args[k].varNum < 0
    requires GenFieldStore(schema, Comb(schema, v), k, Stored(Comb(schema, v), k)).Some?
    requires GenFieldFetch(schema, Comb(schema, v), k, Stored(Comb(schema, v), k)).Some?
    requires Holds(GuardOf(Comb(schema, v).args[k]), svars) == Some(true)
    ensures var a := Comb(schema, v).args[k]; var f := NormField(schema, v, k);
      && GenStore(schema, a.ty).Some? && GenFetch(schema, a.ty).Some?
      && f == Norm(schema, v.fields[k])
      && Ready(schema, v, k + 1, svars, fvars, done + [f])
      && StoreBody(schema, v, k, svars) ==
           Both(Store(schema, GenStore(schema, a.ty).value, v.fields[k]), StoreBody(schema, v, k + 1, svars))
      && var r := Fetch(schema, GenFetch(schema, a.ty).value, ws, fuel);
         FetchBody(schema, v.t, v.c, k, ws, fvars, done, fuel) ==
           if r.None? then None else FetchBody(schema, v.t, v.c, k + 1, r.value.1, fvars, done + [r.value.0], fuel)
  {
    var c := Comb(schema, v);
    Forms(schema, c, k, Stored(c, k));
    GuardSays(schema, v, k, svars, fvars);
    DoneNext(schema, v, done, k, NormField(schema, v, k));
    VarsNext(schema, v, k, svars, fvars);
  }

  /** A field that is there and defines a variable. */
  lemma AfterVar(schema: Schema, v: Value, k: nat, svars: Vars, fvars: Vars, done: seq<Value>, ws: seq<Word>, fuel: nat)
    requires Ready(schema, v, k, svars, fvars, done) && k < |v.fields|
    requires !IsTrueBit(schema, Comb(schema, v).args[k]) && Comb(schema, v).args[k].varNum >= 0
    requires GenFieldStore(schema, Comb(schema, v), k, Stored(Comb(schema, v), k)).Some?
    requires GenFieldFetch(schema, Comb(schema, v), k, Stored(Comb(schema, v), k)).Some?
    requires Holds(GuardOf(Comb(schema, v).args[k]), svars) == Some(true)
    requires BuiltInsOk(schema) && StoreBody(schema, v, k, svars).Some? && ws != []
    ensures var x := Comb(schema, v).args[k].varNum; var w := Own(schema, Comb(schema, v), v.fields, k);
      && Ready(schema, v, k + 1, svars[x := w], fvars[x := w], done + [Num(w)])
      && StoreBody(schema, v, k, svars) ==
           Both(Some(Encoding([w], !Negative(w), 0)), StoreBody(schema, v, k + 1, svars[x := w]))
      && FetchBody(schema, v.t, v.c, k, ws, fvars, done, fuel) ==
           if Negative(ws[0]) then None
           else FetchBody(schema, v.t, v.c, k + 1, ws[1..], fvars[x := ws[0]], done + [Num(ws[0])], fuel)
  {
    var c := Comb(schema, v);
    var w := Own(schema, c, v.fields, k);
    Forms(schema, c, k, Stored(c, k));
    GuardSays(schema, v, k, svars, fvars);
    VarsAssigned(schema, v, k, svars, fvars, c.args[k].varNum, w);
    DoneNext(schema, v, done, k, Num(w));
    NumClass(schema, c.args[k].ty);
  }

  lemma NumClass(schema: Schema, tr: TypeRef)
    requires BuiltInsOk(schema) && IsKind(schema, tr, NumP)
    ensures GenFetch(schema, tr) == Some(FBinary(1))
    ensures GenStore(schema, tr) == Some(Binary(1))
  {
  }

  // --- the round trip ---

  ghost predicate FieldsDeep(v: Value, fuel: nat)
    requires v.Obj?
  {
    forall i | 0 <= i < |v.fields| :: DepthOk(v.fields[i], fuel)
  }

  lemma NormTail(schema: Schema, v: Value, i: nat)
    requires v.List? && i < |v.vs|
    ensures Norm(schema, v).List? && |Norm(schema, v).vs| == |v.vs|
    ensures Norm(schema, v).vs[i..] == [Norm(schema, v.vs[i])] + Norm(schema, v).vs[i + 1..]
  {
  }

  lemma NormEnd(schema: Schema, v: Value)
    requires v.List?
    ensures Norm(schema, v).List? && |Norm(schema, v).vs| == |v.vs| && Norm(schema, v).vs[|v.vs|..] == []
  {
  }

  lemma FetchListIs(schema: Schema, g: FetchClass, ws: seq<Word>, n: nat, fuel: nat, x: Value, xs: seq<Value>,
                    mid: seq<Word>, rest: seq<Word>, first: bool, others: bool)
    requires n > 0 && Fetch(schema, g, ws, fuel) == if first then Some((x, mid)) else None
    requires FetchList(schema, g, mid, n - 1, fuel) == if others then Some((xs, rest)) else None
    ensures FetchList(schema, g, ws, n, fuel) == if first && others then Some(([x] + xs, rest)) else None
  {
  }

  lemma JoinFront(a: Encoding, b: Encoding, rest: seq<Word>)
    ensures Join(a, b).words + rest == a.words + (b.words + rest)
    ensures Readable(Join(a, b), rest) <==> Readable(a, b.words + rest) && Readable(b, rest)
  {
  }

  lemma HeadWord(w: Word, e: Encoding, rest: seq<Word>)
    ensures var ws := Join(Words([w]), e).words + rest; ws != [] && ws[0] == w && ws[1..] == e.words + rest
  {
  }

  lemma {:induction false} StoreThenFetch(schema: Schema, sc: StoreClass, fc: FetchClass, v: Value, e: Encoding,
                                          rest: seq<Word>, fuel: nat)
    requires Sound(schema) && Match(schema, sc, fc) && Store(schema, sc, v) == Some(e) && DepthOk(v, fuel)
    ensures Reads(Fetch(schema, fc, e.words + rest, fuel), e, Norm(schema, v), rest)
    decreases v, 2, sc
  {
    match sc
    case Boxed(f, id) =>
      var inner := Store(schema, f, v).value;
      HeadWord(id, inner, rest);
      StoreThenFetch(schema, f, fc.func, v, inner, rest, fuel);
    case BoxedUnknown(f) =>
      SwitchThenFetch(schema, fc.t, v, e, rest, fuel);
    case Binary(n) =>
      assert (e.words + rest)[..n] == e.words && (e.words + rest)[n..] == rest;
    case BoolC =>
      assert (e.words + rest)[1..] == rest;
    case StringC =>
      StringRoundTrip(v.s, rest);
    case VectorC(f) =>
      ListThenFetch(schema, f, fc.func, v, 0, StoreList(schema, f, v, 0).value, rest, fuel);
      VectorIs(schema, f, fc.func, v, e, rest, fuel);
    case ObjectC(t) =>
      OnlySupported(schema[t].constructors, v.c);
      ObjectThenFetch(schema, v, e, rest, fuel);
  }

  /** The length of a vector, then its elements. */
  lemma VectorIs(schema: Schema, f: StoreClass, g: FetchClass, v: Value, e: Encoding, rest: seq<Word>, fuel: nat)
    requires v.List? && Store(schema, VectorC(f), v) == Some(e)
    requires var es := StoreList(schema, f, v, 0).value;
      FetchList(schema, g, es.words + rest, |v.vs|, fuel) ==
        if Readable(es, rest) then Some((Norm(schema, v).vs[0..], rest)) else None
    ensures Reads(Fetch(schema, FVector(g), e.words + rest, fuel), e, Norm(schema, v), rest)
  {
    var es := StoreList(schema, f, v, 0).value;
    assert (e.words + rest)[0] == |v.vs| && (e.words + rest)[1..] == es.words + rest;
    assert Norm(schema, v).vs[0..] == Norm(schema, v).vs;
  }

  lemma {:induction false} ListThenFetch(schema: Schema, f: StoreClass, g: FetchClass, v: Value, i: nat,
                                         e: Encoding, rest: seq<Word>, fuel: nat)
    requires Sound(schema) && Match(schema, f, g) && v.List? && i <= |v.vs| && DepthOk(v, fuel)
    requires StoreList(schema, f, v, i) == Some(e)
    ensures FetchList(schema, g, e.words + rest, |v.vs| - i, fuel) ==
      if Readable(e, rest) then Some((Norm(schema, v).vs[i..], rest)) else None
    decreases v, 1, |v.vs| - i
  {
    if i == |v.vs| {
      ListEnd(schema, g, v, e, rest, fuel);
    } else {
      StoreListIs(schema, f, v, i);
      var a, b := Store(schema, f, v.vs[i]).value, StoreList(schema, f, v, i + 1).value;
      StoreThenFetch(schema, f, g, v.vs[i], a, b.words + rest, fuel);
      ListThenFetch(schema, f, g, v, i + 1, b, rest, fuel);
      OneElement(schema, g, v, i, a, b, rest, fuel);
    }
  }

  lemma StoreListIs(schema: Schema, f: StoreClass, v: Value, i: nat)
    requires v.List? && i < |v.vs| && StoreList(schema, f, v, i).Some?
    ensures Store(schema, f, v.vs[i]).Some? && StoreList(schema, f, v, i + 1).Some?
    ensures StoreList(schema, f, v, i).value ==
      Join(Store(schema, f, v.vs[i]).value, StoreList(schema, f, v, i + 1).value)
  {
  }

  lemma ListEnd(schema: Schema, g: FetchClass, v: Value, e: Encoding, rest: seq<Word>, fuel: nat)
    requires v.List? && e == Words([])
    ensures Norm(schema, v).List? && |Norm(schema, v).vs| == |v.vs|
    ensures FetchList(schema, g, e.words + rest, 0, fuel) == Some((Norm(schema, v).vs[|v.vs|..], rest))
  {
    NormEnd(schema, v);
    assert e.words + rest == rest;
  }

  /** One element, then the others. */
  lemma OneElement(schema: Schema, g: FetchClass, v: Value, i: nat, a: Encoding, b: Encoding, rest: seq<Word>,
                   fuel: nat)
    requires v.List? && i < |v.vs| && Norm(schema, v).List? && i < |Norm(schema, v).vs|
    requires Reads(Fetch(schema, g, a.words + (b.words + rest), fuel), a, Norm(schema, v.vs[i]), b.words + rest)
    requires FetchList(schema, g, b.words + rest, |v.vs| - (i + 1), fuel) ==
      if Readable(b, rest) then Some((Norm(schema, v).vs[i + 1..], rest)) else None
    ensures FetchList(schema, g, Join(a, b).words + rest, |v.vs| - i, fuel) ==
      if Readable(Join(a, b), rest) then Some((Norm(schema, v).vs[i..], rest)) else None
  {
    JoinFront(a, b, rest);
    NormTail(schema, v, i);
    FetchListIs(schema, g, a.words + (b.words + rest), |v.vs| - i, fuel, Norm(schema, v.vs[i]),
                Norm(schema, v).vs[i + 1..], b.words + rest, rest, Readable(a, b.words + rest), Readable(b, rest));
  }

  /** An object behind its identifier, read by a switch over the constructors. */
  lemma {:induction false} SwitchThenFetch(schema: Schema, t: nat, v: Value, e: Encoding, rest: seq<Word>, fuel: nat)
    requires Sound(schema) && t < |schema| && SupportedCount(schema[t].constructors) > 1
    requires Store(schema, BoxedUnknown(ObjectC(t)), v) == Some(e) && DepthOk(v, fuel)
    ensures Reads(Fetch(schema, FObject(t), e.words + rest, fuel), e, Norm(schema, v), rest)
    decreases v, 1, 2 * |v.fields| + 3
  {
    var body := StoreBody(schema, v, 0, map[]).value;
    HeadWord(Comb(schema, v).id, body, rest);
    FoundCase(schema[t].constructors, Comb(schema, v).id, 0, v.c);
    ObjectThenFetch(schema, v, body, rest, fuel);
  }

  lemma {:induction false} ObjectThenFetch(schema: Schema, v: Value, e: Encoding, rest: seq<Word>, fuel: nat)
    requires Sound(schema) && Known(schema, v) && StoreBody(schema, v, 0, map[]) == Some(e) &&
      DepthOk(v, fuel)
    ensures fuel > 0 &&
      Reads(FetchBody(schema, v.t, v.c, 0, e.words + rest, map[], [], fuel - 1), e, Norm(schema, v), rest)
    decreases v, 1, 2 * |v.fields| + 2
  {
    BodyThenFetch(schema, v, 0, map[], map[], [], e, rest, fuel - 1);
  }

  lemma {:induction false} BodyThenFetch(schema: Schema, v: Value, k: nat, svars: Vars, fvars: Vars, done: seq<Value>,
                                         e: Encoding, rest: seq<Word>, fuel: nat)
    requires Sound(schema) && Ready(schema, v, k, svars, fvars, done)
    requires StoreBody(schema, v, k, svars) == Some(e)
    requires FieldsDeep(v, fuel)
    ensures Reads(FetchBody(schema, v.t, v.c, k, e.words + rest, fvars, done, fuel), e, Norm(schema, v), rest)
    decreases v, 1, 2 * (|v.fields| - k) + 1
  {
    if k == |v.fields| {
      BodyEnd(schema, v, e.words + rest, fvars, done, fuel);
      assert e.words + rest == rest;
    } else {
      var a, f := Comb(schema, v).args[k], NormField(schema, v, k);
      GeneratedAt(schema, v, k);
      if IsTrueBit(schema, a) {
        AfterTrue(schema, v, k, svars, fvars, done, e.words + rest, fuel);
        BodyThenFetch(schema, v, k + 1, svars, fvars, done + [f], e, rest, fuel);
      } else if Holds(GuardOf(a), svars) == Some(false) {
        AfterAbsent(schema, v, k, svars, fvars, done, e.words + rest, fuel);
        BodyThenFetch(schema, v, k + 1, svars,
                      if a.varNum >= 0 then fvars[a.varNum := 0] else fvars, done + [f], e, rest, fuel);
      } else {
        GuardKnown(schema, v, k, svars);
        if a.varNum < 0 {
          FieldThenFetch(schema, v, k, svars, fvars, done, e, rest, fuel);
        } else {
          VarThenFetch(schema, v, k, svars, fvars, done, e, rest, fuel);
        }
      }
    }
  }

  lemma GuardKnown(schema: Schema, v: Value, k: nat, svars: Vars)
    requires Known(schema, v) && k < |v.fields| && StoreBody(schema, v, k, svars).Some?
    requires GenFieldStore(schema, Comb(schema, v), k, Stored(Comb(schema, v), k)).Some?
    requires !IsTrueBit(schema, Comb(schema, v).args[k]) &&
      Holds(GuardOf(Comb(schema, v).args[k]), svars) != Some(false)
    ensures Holds(GuardOf(Comb(schema, v).args[k]), svars) == Some(true)
  {
  }

  lemma {:induction false} FieldThenFetch(schema: Schema, v: Value, k: nat, svars: Vars, fvars: Vars, done: seq<Value>,
                                          e: Encoding, rest: seq<Word>, fuel: nat)
    requires Sound(schema) && Ready(schema, v, k, svars, fvars, done) && k < |v.fields|
    requires StoreBody(schema, v, k, svars) == Some(e)
    requires FieldsDeep(v, fuel)
    requires !IsTrueBit(schema, Comb(schema, v).args[k]) && Comb(schema, v).args[k].varNum < 0
    requires Holds(GuardOf(Comb(schema, v).args[k]), svars) == Some(true)
    ensures Reads(FetchBody(schema, v.t, v.c, k, e.words + rest, fvars, done, fuel), e, Norm(schema, v), rest)
    decreases v, 1, 2 * (|v.fields| - k)
  {
    var a, f := Comb(schema, v).args[k], NormField(schema, v, k);
    GeneratedAt(schema, v, k);
    AfterField(schema, v, k, svars, fvars, done, e.words + rest, fuel);
    ClassesMatch(schema, a.ty);
    var first := Store(schema, GenStore(schema, a.ty).value, v.fields[k]).value;
    var others := StoreBody(schema, v, k + 1, svars).value;
    JoinFront(first, others, rest);
    StoreThenFetch(schema, GenStore(schema, a.ty).value, GenFetch(schema, a.ty).value, v.fields[k], first,
      others.words + rest, fuel);
    BodyThenFetch(schema, v, k + 1, svars, fvars, done + [f], others, rest, fuel);
  }

  lemma {:induction false} VarThenFetch(schema: Schema, v: Value, k: nat, svars: Vars, fvars: Vars, done: seq<Value>,
                                        e: Encoding, rest: seq<Word>, fuel: nat)
    requires Sound(schema) && Ready(schema, v, k, svars, fvars, done) && k < |v.fields|
    requires StoreBody(schema, v, k, svars) == Some(e)
    requires FieldsDeep(v, fuel)
    requires !IsTrueBit(schema, Comb(schema, v).args[k]) && Comb(schema, v).args[k].varNum >= 0
    requires Holds(GuardOf(Comb(schema, v).args[k]), svars) == Some(true)
    ensures Reads(FetchBody(schema, v.t, v.c, k, e.words + rest, fvars, done, fuel), e, Norm(schema, v), rest)
    decreases v, 1, 2 * (|v.fields| - k)
  {
    var x, w := Comb(schema, v).args[k].varNum, Own(schema, Comb(schema, v), v.fields, k);
    var others := VarSplit(schema, v, k, svars, fvars, done, e, rest, fuel);
    BodyThenFetch(schema, v, k + 1, svars[x := w], fvars[x := w], done + [Num(w)], others, rest, fuel);
    WordThenRest(FetchBody(schema, v.t, v.c, k, e.words + rest, fvars, done, fuel),
                 FetchBody(schema, v.t, v.c, k + 1, others.words + rest, fvars[x := w], done + [Num(w)], fuel),
                 w, e, others, Norm(schema, v), rest);
  }

  /** The word of a variable, and what the statements after it store and fetch. */
  lemma VarSplit(schema: Schema, v: Value, k: nat, svars: Vars, fvars: Vars, done: seq<Value>, e: Encoding,
                 rest: seq<Word>, fuel: nat) returns (others: Encoding)
    requires Sound(schema) && Ready(schema, v, k, svars, fvars, done) && k < |v.fields|
    requires StoreBody(schema, v, k, svars) == Some(e)
    requires !IsTrueBit(schema, Comb(schema, v).args[k]) && Comb(schema, v).args[k].varNum >= 0
    requires Holds(GuardOf(Comb(schema, v).args[k]), svars) == Some(true)
    ensures var x := Comb(schema, v).args[k].varNum; var w := Own(schema, Comb(schema, v), v.fields, k);
      && Ready(schema, v, k + 1, svars[x := w], fvars[x := w], done + [Num(w)])
      && StoreBody(schema, v, k + 1, svars[x := w]) == Some(others)
      && e == Join(Encoding([w], !Negative(w), 0), others)
      && FetchBody(schema, v.t, v.c, k, e.words + rest, fvars, done, fuel) ==
           if Negative(w) then None
           else FetchBody(schema, v.t, v.c, k + 1, others.words + rest, fvars[x := w], done + [Num(w)], fuel)
  {
    var x, w := Comb(schema, v).args[k].varNum, Own(schema, Comb(schema, v), v.fields, k);
    GeneratedAt(schema, v, k);
    VarWords(schema, v, k, svars, fvars, done);
    others := StoreBody(schema, v, k + 1, svars[x := w]).value;
    HeadWord(w, others, rest);
    assert e.words + rest == Join(Words([w]), others).words + rest;
    AfterVar(schema, v, k, svars, fvars, done, e.words + rest, fuel);
  }

  lemma WordThenRest(r: Option<(Value, seq<Word>)>, next: Option<(Value, seq<Word>)>, w: Word, e: Encoding,
                     others: Encoding, n: Value, rest: seq<Word>)
    requires e == Join(Encoding([w], !Negative(w), 0), others)
    requires r == (if Negative(w) then None else next) && Reads(next, others, n, rest)
    ensures Reads(r, e, n, rest)
  {
  }

  /** What the store writes for a variable. */
  lemma VarWords(schema: Schema, v: Value, k: nat, svars: Vars, fvars: Vars, done: seq<Value>)
    requires Sound(schema) && Ready(schema, v, k, svars, fvars, done) && k < |v.fields| &&
      StoreBody(schema, v, k, svars).Some?
    requires !IsTrueBit(schema, Comb(schema, v).args[k]) && Comb(schema, v).args[k].varNum >= 0
    requires Holds(GuardOf(Comb(schema, v).args[k]), svars) == Some(true)
    ensures var x := Comb(schema, v).args[k].varNum; var w := Own(schema, Comb(schema, v), v.fields, k);
      StoreBody(schema, v, k, svars) == Both(Some(Encoding([w], !Negative(w), 0)),
        StoreBody(schema, v, k + 1, svars[x := w]))
  {
  }

  /** For every type that both generators accept and every value that can be stored, the fetch
      consumes exactly what was stored and returns the value normalized; it fails exactly when a
      flag word was stored that reads as negative, or when so few words follow that some vector in
      it has more than four elements for every word after its length. */
  lemma RoundTrip(schema: Schema, tr: TypeRef, v: Value, rest: seq<Word>, fuel: nat)
    requires Sound(schema) && GenStore(schema, tr).Some? && GenFetch(schema, tr).Some? && DepthOk(v, fuel)
    requires Store(schema, GenStore(schema, tr).value, v).Some?
    ensures var e := Store(schema, GenStore(schema, tr).value, v).value;
      Fetch(schema, GenFetch(schema, tr).value, e.words + rest, fuel) ==
        if e.plain && e.need <= |rest| then Some((Norm(schema, v), rest)) else None
  {
    ClassesMatch(schema, tr);
    StoreThenFetch(schema, GenStore(schema, tr).value, GenFetch(schema, tr).value, v,
                   Store(schema, GenStore(schema, tr).value, v).value, rest, fuel);
  }
}
