/** Normalization: what the fetch returns is stable, it is stored as the same words, and the two
    conditions of the round trip are needed. */
module TlNormal {
  import opened Common
  import opened TlPrimitives
  import opened TlGenerator
  import opened TlCodec
  import opened TlRoundTrip

  // --- each variable is defined once, before it is used ---

  lemma {:induction false} StoredGrows(c: Combinator, i: nat, j: nat)
    requires i <= j <= |c.args|
    ensures Stored(c, i) <= Stored(c, j)
    decreases j
  {
    if i < j { StoredGrows(c, i, j - 1); }
  }

  lemma Placement(schema: Schema, c: Combinator, k: nat)
    requires Generated(schema, c) && k < |c.args|
    ensures GuardOk(c.args[k], Stored(c, k)) &&
      (!IsTrueBit(schema, c.args[k]) ==> DefinesOk(schema, c.args[k], c.varCount, Stored(c, k)))
  {
  }

  lemma NotAgain(schema: Schema, c: Combinator, k: nat, i: nat)
    requires Generated(schema, c) && k < i < |c.args| && c.args[k].varNum >= 0
    ensures c.args[i].varNum != c.args[k].varNum
  {
    Placement(schema, c, i);
    StoredGrows(c, k + 1, i);
  }

  /** After the argument that defines a variable, the variable keeps its value. */
  lemma {:induction false} VarValAt(schema: Schema, c: Combinator, fields: seq<Value>, k: nat, j: nat)
    requires Generated(schema, c) && k < j <= |c.args| == |fields| && c.args[k].varNum >= 0
    ensures VarVal(schema, c, fields, c.args[k].varNum, j) ==
      if Taken(schema, c, fields, k) then Own(schema, c, fields, k) else 0
    decreases j
  {
    if j > k + 1 {
      NotAgain(schema, c, k, j - 1);
      VarValAt(schema, c, fields, k, j - 1);
    }
  }

  /** A True field among those or-ed into a variable comes after the argument that defines it. */
  lemma OrsLater(schema: Schema, c: Combinator, k: nat, p: (nat, nat))
    requires Generated(schema, c) && k < |c.args| && c.args[k].varNum >= 0
    requires p in Ors(schema, c.args, c.args[k].varNum, |c.args|)
    ensures k < p.0 < |c.args| && IsTrueBit(schema, c.args[p.0]) && p.1 < 32
    ensures c.args[p.0].existVar == c.args[k].varNum && c.args[p.0].existBit == p.1
  {
    Placement(schema, c, k);
    Placement(schema, c, p.0);
    if p.0 <= k {
      StoredGrows(c, p.0, k);
    }
  }

  // --- normalizing does not change what is stored ---

  lemma NormFieldIs(schema: Schema, v: Value, k: nat)
    requires Known(schema, v) && k < |v.fields|
    ensures Known(schema, Norm(schema, v)) && Comb(schema, Norm(schema, v)) == Comb(schema, v)
    ensures |Norm(schema, v).fields| == |v.fields| && Norm(schema, v).fields[k] == NormField(schema, v, k)
  {
  }

  /** The flag word already includes the normalized True fields. */
  lemma {:induction false} OwnAbsorbs(schema: Schema, v: Value, k: nat, n: nat)
    requires Known(schema, v) && Generated(schema, Comb(schema, v)) && k < |v.fields| &&
      Comb(schema, v).args[k].varNum >= 0
    requires Taken(schema, Comb(schema, v), v.fields, k)
    requires n <= |Ors(schema, Comb(schema, v).args, Comb(schema, v).args[k].varNum, |v.fields|)|
    ensures var c := Comb(schema, v); var w := Own(schema, c, v.fields, k);
      OrAll(w, Ors(schema, c.args, c.args[k].varNum, |c.args|), n, Norm(schema, v).fields) == w
  {
    if n > 0 {
      var c := Comb(schema, v);
      var w := Own(schema, c, v.fields, k);
      var p := Ors(schema, c.args, c.args[k].varNum, |c.args|)[n - 1];
      OwnAbsorbs(schema, v, k, n - 1);
      FlagShows(schema, v, k, p);
      OrSame(w, p.1);
    }
  }

  /** A True bit that was or-ed into a flag word is shown by its normalized field. */
  lemma FlagShows(schema: Schema, v: Value, k: nat, p: (nat, nat))
    requires Known(schema, v) && Generated(schema, Comb(schema, v)) && k < |v.fields|
    requires Comb(schema, v).args[k].varNum >= 0 && Taken(schema, Comb(schema, v), v.fields, k)
    requires p in Ors(schema, Comb(schema, v).args, Comb(schema, v).args[k].varNum, |v.fields|)
    ensures p.0 < |v.fields|
    ensures Norm(schema, v).fields[p.0] == Flag(Bit(Own(schema, Comb(schema, v), v.fields, k), p.1))
  {
    OrsLater(schema, Comb(schema, v), k, p);
    VarValAt(schema, Comb(schema, v), v.fields, k, p.0);
    NormFieldIs(schema, v, p.0);
  }

  /** A flag word that is there is the same in the normalized object. */
  lemma OwnSame(schema: Schema, v: Value, k: nat)
    requires Known(schema, v) && Generated(schema, Comb(schema, v)) && k < |v.fields| &&
      Comb(schema, v).args[k].varNum >= 0
    requires Taken(schema, Comb(schema, v), v.fields, k)
    ensures |Norm(schema, v).fields| == |v.fields|
    ensures Norm(schema, v).fields[k] == Num(Own(schema, Comb(schema, v), v.fields, k))
    ensures Own(schema, Comb(schema, v), Norm(schema, v).fields, k) == Own(schema, Comb(schema, v), v.fields, k)
  {
    var c := Comb(schema, v);
    NormFieldIs(schema, v, k);
    OwnAbsorbs(schema, v, k, |Ors(schema, c.args, c.args[k].varNum, |c.args|)|);
  }

  lemma {:induction false} VarsSame(schema: Schema, v: Value, x: int, k: nat)
    requires Known(schema, v) && Generated(schema, Comb(schema, v)) && k <= |v.fields| && x >= 0
    ensures |Norm(schema, v).fields| == |v.fields|
    ensures VarVal(schema, Comb(schema, v), Norm(schema, v).fields, x, k) ==
      VarVal(schema, Comb(schema, v), v.fields, x, k)
    decreases k, 0
  {
    if k > 0 {
      if Comb(schema, v).args[k - 1].varNum == x {
        TakenSame(schema, v, k - 1);
        if Taken(schema, Comb(schema, v), v.fields, k - 1) {
          OwnSame(schema, v, k - 1);
        }
      } else {
        VarsSame(schema, v, x, k - 1);
      }
    }
  }

  lemma {:induction false} TakenSame(schema: Schema, v: Value, k: nat)
    requires Known(schema, v) && Generated(schema, Comb(schema, v)) && k < |v.fields|
    ensures |Norm(schema, v).fields| == |v.fields|
    ensures Taken(schema, Comb(schema, v), Norm(schema, v).fields, k) <==> Taken(schema, Comb(schema, v), v.fields, k)
    decreases k, 1
  {
    if Comb(schema, v).args[k].existVar >= 0 {
      VarsSame(schema, v, Comb(schema, v).args[k].existVar, k);
    }
  }

  lemma GeneratedComb(schema: Schema, v: Value)
    requires Sound(schema) && Known(schema, v)
    ensures Generated(schema, Comb(schema, v))
  {
  }

  /** Normalizing twice is normalizing once. */
  lemma {:induction false} NormNorm(schema: Schema, v: Value)
    requires Sound(schema)
    ensures Norm(schema, Norm(schema, v)) == Norm(schema, v)
    decreases v, 1
  {
    if v.List? {
      forall i | 0 <= i < |v.vs| ensures Norm(schema, Norm(schema, v.vs[i])) == Norm(schema, v.vs[i]) {
        NormNorm(schema, v.vs[i]);
      }
    } else if Known(schema, v) {
      var n := Norm(schema, v);
      forall k | 0 <= k < |v.fields|
        ensures Known(schema, n) && |n.fields| == |v.fields| && NormField(schema, n, k) == n.fields[k]
      {
        NormFieldTwice(schema, v, k);
      }
      assert Norm(schema, n).fields == n.fields;
    }
  }

  lemma {:induction false} NormFieldTwice(schema: Schema, v: Value, k: nat)
    requires Sound(schema) && Known(schema, v) && k < |v.fields|
    ensures Known(schema, Norm(schema, v)) && |Norm(schema, v).fields| == |v.fields|
    ensures NormField(schema, Norm(schema, v), k) == Norm(schema, v).fields[k]
    decreases v, 0
  {
    GeneratedComb(schema, v);
    NormFieldIs(schema, v, k);
    TakenSame(schema, v, k);
    if !IsTrueBit(schema, Comb(schema, v).args[k]) && Taken(schema, Comb(schema, v), v.fields, k) {
      if Comb(schema, v).args[k].varNum >= 0 {
        OwnSame(schema, v, k);
      } else {
        NormNorm(schema, v.fields[k]);
      }
    }
  }

  // --- the same words ---

  ghost predicate KnownVars(schema: Schema, v: Value, k: nat, vars: Vars)
    requires Known(schema, v) && k <= |v.fields|
  {
    forall x | x in vars :: x in Stored(Comb(schema, v), k) && x >= 0 &&
      vars[x] == VarVal(schema, Comb(schema, v), v.fields, x, k)
  }

  /** The normalized value is stored as the same words. */
  lemma {:induction false} StoreNorm(schema: Schema, sc: StoreClass, v: Value)
    requires Sound(schema) && Store(schema, sc, v).Some?
    ensures Store(schema, sc, Norm(schema, v)) == Store(schema, sc, v)
    decreases v, 2, sc
  {
    match sc
    case Boxed(f, id) => StoreNorm(schema, f, v);
    case BoxedUnknown(f) =>
      NormKeepsClass(schema, v);
      StoreNorm(schema, f, v);
    case Binary(n) =>
    case BoolC =>
    case StringC =>
    case VectorC(f) =>
      NormEnd(schema, v);
      ListNorm(schema, f, v, 0);
    case ObjectC(t) =>
      NormKeepsClass(schema, v);
      BodyNorm(schema, v, 0, map[]);
  }

  lemma NormKeepsClass(schema: Schema, v: Value)
    requires Known(schema, v)
    ensures Known(schema, Norm(schema, v)) && Comb(schema, Norm(schema, v)) == Comb(schema, v)
    ensures Norm(schema, v).t == v.t && |Norm(schema, v).fields| == |v.fields|
  {
  }

  lemma {:induction false} ListNorm(schema: Schema, f: StoreClass, v: Value, i: nat)
    requires Sound(schema) && v.List? && i <= |v.vs| && StoreList(schema, f, v, i).Some?
    ensures Norm(schema, v).List? && |Norm(schema, v).vs| == |v.vs|
    ensures StoreList(schema, f, Norm(schema, v), i) == StoreList(schema, f, v, i)
    decreases v, 1, |v.vs| - i
  {
    NormEnd(schema, v);
    if i < |v.vs| {
      NormTail(schema, v, i);
      assert Norm(schema, v).vs[i] == Norm(schema, v).vs[i..][0];
      StoreNorm(schema, f, v.vs[i]);
      ListNorm(schema, f, v, i + 1);
    }
  }

  lemma SkipStep(schema: Schema, u: Value, k: nat, vars: Vars)
    requires Sound(schema) && Known(schema, u) && k < |u.fields|
    requires IsTrueBit(schema, Comb(schema, u).args[k]) || Holds(GuardOf(Comb(schema, u).args[k]), vars) == Some(false)
    ensures StoreBody(schema, u, k, vars) == StoreBody(schema, u, k + 1, vars)
  {
  }

  lemma FieldStep(schema: Schema, u: Value, k: nat, vars: Vars)
    requires Sound(schema) && Known(schema, u) && k < |u.fields|
    requires !IsTrueBit(schema, Comb(schema, u).args[k]) && Comb(schema, u).args[k].varNum < 0
    requires Holds(GuardOf(Comb(schema, u).args[k]), vars) == Some(true)
    ensures GenStore(schema, Comb(schema, u).args[k].ty).Some?
    ensures StoreBody(schema, u, k, vars) ==
      Both(Store(schema, GenStore(schema, Comb(schema, u).args[k].ty).value, u.fields[k]),
        StoreBody(schema, u, k + 1, vars))
  {
    GeneratedAt(schema, u, k);
    Forms(schema, Comb(schema, u), k, Stored(Comb(schema, u), k));
  }

  lemma VarStep(schema: Schema, u: Value, k: nat, vars: Vars)
    requires Sound(schema) && Known(schema, u) && k < |u.fields|
    requires !IsTrueBit(schema, Comb(schema, u).args[k]) && Comb(schema, u).args[k].varNum >= 0
    requires Holds(GuardOf(Comb(schema, u).args[k]), vars) == Some(true)
    ensures StoreBody(schema, u, k, vars) ==
      if !u.fields[k].Num? then None
      else
        var w := Own(schema, Comb(schema, u), u.fields, k);
        Both(Some(Encoding([w], !Negative(w), 0)),
          StoreBody(schema, u, k + 1, vars[Comb(schema, u).args[k].varNum := w]))
  {
    GeneratedAt(schema, u, k);
    Forms(schema, Comb(schema, u), k, Stored(Comb(schema, u), k));
    NumClass(schema, Comb(schema, u).args[k].ty);
  }

  lemma {:induction false} BodyNorm(schema: Schema, v: Value, k: nat, vars: Vars)
    requires Sound(schema) && Known(schema, v) && k <= |v.fields| && KnownVars(schema, v, k, vars)
    requires StoreBody(schema, v, k, vars).Some?
    ensures Known(schema, Norm(schema, v)) && |Norm(schema, v).fields| == |v.fields|
    ensures StoreBody(schema, Norm(schema, v), k, vars) == StoreBody(schema, v, k, vars)
    decreases v, 1, 2 * (|v.fields| - k) + 1
  {
    NormKeepsClass(schema, v);
    if k < |v.fields| {
      var a := Comb(schema, v).args[k];
      if IsTrueBit(schema, a) || Holds(GuardOf(a), vars) == Some(false) {
        SkipStep(schema, v, k, vars);
        VarsGoOn(schema, v, k, vars);
        BodyNorm(schema, v, k + 1, vars);
        SkipStep(schema, Norm(schema, v), k, vars);
      } else {
        GuardIsThere(schema, v, k, vars);
        if a.varNum < 0 {
          FieldNorm(schema, v, k, vars);
        } else {
          VarNorm(schema, v, k, vars);
        }
      }
    }
  }

  lemma {:induction false} FieldNorm(schema: Schema, v: Value, k: nat, vars: Vars)
    requires Sound(schema) && Known(schema, v) && k < |v.fields| && KnownVars(schema, v, k, vars)
    requires StoreBody(schema, v, k, vars).Some? && Taken(schema, Comb(schema, v), v.fields, k)
    requires !IsTrueBit(schema, Comb(schema, v).args[k]) && Comb(schema, v).args[k].varNum < 0
    requires Holds(GuardOf(Comb(schema, v).args[k]), vars) == Some(true)
    ensures Known(schema, Norm(schema, v)) && |Norm(schema, v).fields| == |v.fields|
    ensures StoreBody(schema, Norm(schema, v), k, vars) == StoreBody(schema, v, k, vars)
    decreases v, 1, 2 * (|v.fields| - k)
  {
    FieldStep(schema, v, k, vars);
    StoreNorm(schema, GenStore(schema, Comb(schema, v).args[k].ty).value, v.fields[k]);
    VarsGoOn(schema, v, k, vars);
    BodyNorm(schema, v, k + 1, vars);
    PlainField(schema, v, k);
    SameField(schema, v, Norm(schema, v), k, vars);
  }

  lemma PlainField(schema: Schema, v: Value, k: nat)
    requires Known(schema, v) && k < |v.fields| && Taken(schema, Comb(schema, v), v.fields, k)
    requires !IsTrueBit(schema, Comb(schema, v).args[k]) && Comb(schema, v).args[k].varNum < 0
    ensures Known(schema, Norm(schema, v)) && Comb(schema, Norm(schema, v)) == Comb(schema, v)
    ensures Norm(schema, v).fields[k] == Norm(schema, v.fields[k])
  {
  }

  lemma SameField(schema: Schema, v: Value, n: Value, k: nat, vars: Vars)
    requires Sound(schema) && Known(schema, v) && Known(schema, n) && Comb(schema, n) == Comb(schema, v) &&
      k < |v.fields|
    requires !IsTrueBit(schema, Comb(schema, v).args[k]) && Comb(schema, v).args[k].varNum < 0
    requires Holds(GuardOf(Comb(schema, v).args[k]), vars) == Some(true) &&
      GenStore(schema, Comb(schema, v).args[k].ty).Some?
    requires var f := GenStore(schema, Comb(schema, v).args[k].ty).value;
      Store(schema, f, n.fields[k]) == Store(schema, f, v.fields[k])
    requires StoreBody(schema, n, k + 1, vars) == StoreBody(schema, v, k + 1, vars)
    ensures StoreBody(schema, n, k, vars) == StoreBody(schema, v, k, vars)
  {
  }

  /** What the normalized object stores for a variable. */
  lemma NormVarStep(schema: Schema, v: Value, k: nat, vars: Vars, w: Word, after: Vars)
    requires Sound(schema) && Known(schema, v) && k < |v.fields| && Taken(schema, Comb(schema, v), v.fields, k)
    requires !IsTrueBit(schema, Comb(schema, v).args[k]) && Comb(schema, v).args[k].varNum >= 0
    requires Holds(GuardOf(Comb(schema, v).args[k]), vars) == Some(true)
    requires w == Own(schema, Comb(schema, v), v.fields, k) && after == vars[Comb(schema, v).args[k].varNum := w]
    ensures Known(schema, Norm(schema, v)) && |Norm(schema, v).fields| == |v.fields|
    ensures StoreBody(schema, Norm(schema, v), k, vars) ==
      Both(Some(Encoding([w], !Negative(w), 0)), StoreBody(schema, Norm(schema, v), k + 1, after))
  {
    GeneratedComb(schema, v);
    NormFieldIs(schema, v, k);
    VarStep(schema, Norm(schema, v), k, vars);
    OwnSame(schema, v, k);
  }

  lemma {:induction false} VarNorm(schema: Schema, v: Value, k: nat, vars: Vars)
    requires Sound(schema) && Known(schema, v) && k < |v.fields| && KnownVars(schema, v, k, vars)
    requires StoreBody(schema, v, k, vars).Some? && Taken(schema, Comb(schema, v), v.fields, k)
    requires !IsTrueBit(schema, Comb(schema, v).args[k]) && Comb(schema, v).args[k].varNum >= 0
    requires Holds(GuardOf(Comb(schema, v).args[k]), vars) == Some(true)
    ensures Known(schema, Norm(schema, v)) && |Norm(schema, v).fields| == |v.fields|
    ensures StoreBody(schema, Norm(schema, v), k, vars) == StoreBody(schema, v, k, vars)
    decreases v, 1, 2 * (|v.fields| - k)
  {
    var w := Own(schema, Comb(schema, v), v.fields, k);
    var after := vars[Comb(schema, v).args[k].varNum := w];
    VarStored(schema, v, k, vars, w, after);
    NormVarStep(schema, v, k, vars, w, after);
    BodyNorm(schema, v, k + 1, after);
  }

  lemma VarStored(schema: Schema, v: Value, k: nat, vars: Vars, w: Word, after: Vars)
    requires Sound(schema) && Known(schema, v) && k < |v.fields| && KnownVars(schema, v, k, vars)
    requires StoreBody(schema, v, k, vars).Some? && Taken(schema, Comb(schema, v), v.fields, k)
    requires !IsTrueBit(schema, Comb(schema, v).args[k]) && Comb(schema, v).args[k].varNum >= 0
    requires Holds(GuardOf(Comb(schema, v).args[k]), vars) == Some(true)
    requires w == Own(schema, Comb(schema, v), v.fields, k) && after == vars[Comb(schema, v).args[k].varNum := w]
    ensures KnownVars(schema, v, k + 1, after) && StoreBody(schema, v, k + 1, after).Some?
    ensures StoreBody(schema, v, k, vars) ==
      Both(Some(Encoding([w], !Negative(w), 0)), StoreBody(schema, v, k + 1, after))
  {
    VarStep(schema, v, k, vars);
    VarsJoin(schema, v, k, vars, w);
  }

  lemma GuardIsThere(schema: Schema, v: Value, k: nat, vars: Vars)
    requires Sound(schema) && Known(schema, v) && k < |v.fields| && KnownVars(schema, v, k, vars)
    requires StoreBody(schema, v, k, vars).Some?
    requires !IsTrueBit(schema, Comb(schema, v).args[k]) && Holds(GuardOf(Comb(schema, v).args[k]), vars) != Some(false)
    ensures Holds(GuardOf(Comb(schema, v).args[k]), vars) == Some(true) && Taken(schema, Comb(schema, v), v.fields, k)
  {
  }

  /** The variables known before an argument that assigns none are known after it. */
  lemma VarsGoOn(schema: Schema, v: Value, k: nat, vars: Vars)
    requires Sound(schema) && Known(schema, v) && k < |v.fields| && KnownVars(schema, v, k, vars)
    ensures KnownVars(schema, v, k + 1, vars)
  {
  }

  lemma VarsJoin(schema: Schema, v: Value, k: nat, vars: Vars, w: Word)
    requires Sound(schema) && Known(schema, v) && k < |v.fields| && KnownVars(schema, v, k, vars)
    requires Comb(schema, v).args[k].varNum >= 0 && Taken(schema, Comb(schema, v), v.fields, k)
    requires w == Own(schema, Comb(schema, v), v.fields, k)
    ensures KnownVars(schema, v, k + 1, vars[Comb(schema, v).args[k].varNum := w])
  {
  }

  // --- fuel ---

  lemma {:induction false} DepthMore(v: Value, fuel: nat, more: nat)
    requires DepthOk(v, fuel) && fuel <= more
    ensures DepthOk(v, more)
    decreases v
  {
    if v.List? {
      forall i | 0 <= i < |v.vs| ensures DepthOk(v.vs[i], more) {
        DepthMore(v.vs[i], fuel, more);
      }
    } else if v.Obj? {
      forall i | 0 <= i < |v.fields| ensures DepthOk(v.fields[i], more - 1) {
        DepthMore(v.fields[i], fuel - 1, more - 1);
      }
    }
  }

  /** Some fuel is enough for any value, so that it does not limit the round trip. */
  lemma {:induction false} FuelFor(v: Value) returns (fuel: nat)
    ensures DepthOk(v, fuel)
    decreases v, 1, 0
  {
    if v.List? {
      fuel := FuelForAll(v, v.vs, |v.vs|);
    } else if v.Obj? {
      var inner := FuelForAll(v, v.fields, |v.fields|);
      fuel := inner + 1;
    } else {
      fuel := 0;
    }
  }

  lemma {:induction false} FuelForAll(v: Value, xs: seq<Value>, n: nat) returns (fuel: nat)
    requires n <= |xs| && ((v.List? && v.vs == xs) || (v.Obj? && v.fields == xs))
    ensures forall i | 0 <= i < n :: DepthOk(xs[i], fuel)
    decreases v, 0, n
  {
    if n == 0 {
      fuel := 0;
    } else {
      var a := FuelForAll(v, xs, n - 1);
      var b := FuelFor(xs[n - 1]);
      fuel := a + b;
      forall i | 0 <= i < n ensures DepthOk(xs[i], fuel) {
        DepthMore(xs[i], if i < n - 1 then a else b, fuel);
      }
    }
  }

  // --- what the conditions of the round trip are for ---

  /** A normalized value comes back as it is, from the words it was stored as. */
  lemma NormalRoundTrip(schema: Schema, tr: TypeRef, v: Value, rest: seq<Word>, fuel: nat)
    requires Sound(schema) && GenStore(schema, tr).Some? && GenFetch(schema, tr).Some? && DepthOk(v, fuel)
    requires Norm(schema, v) == v && Store(schema, GenStore(schema, tr).value, v).Some?
    ensures var e := Store(schema, GenStore(schema, tr).value, v).value;
      e.plain && e.need <= |rest| <==>
      Fetch(schema, GenFetch(schema, tr).value, e.words + rest, fuel) == Some((v, rest))
  {
    RoundTrip(schema, tr, v, rest, fuel);
  }

  /** A vector is read back exactly when its elements can be read and it has at most four elements
      for every word that follows its length. */
  lemma VectorReadIff(schema: Schema, f: StoreClass, g: FetchClass, v: Value, rest: seq<Word>, fuel: nat)
    requires Sound(schema) && Match(schema, f, g) && v.List? && |v.vs| < 0x8000_0000 && DepthOk(v, fuel)
    requires StoreList(schema, f, v, 0).Some?
    ensures var es := StoreList(schema, f, v, 0).value;
      Fetch(schema, FVector(g), [|v.vs|] + es.words + rest, fuel) ==
        if es.plain && es.need <= |rest| && |v.vs| <= 4 * (|es.words| + |rest|)
        then Some((Norm(schema, v), rest)) else None
  {
    var es := StoreList(schema, f, v, 0).value;
    var ws := [|v.vs|] + es.words + rest;
    assert ws[0] == |v.vs| && ws[1..] == es.words + rest;
    ListThenFetch(schema, f, g, v, 0, es, rest, fuel);
    assert Norm(schema, v).vs[0..] == Norm(schema, v).vs;
  }

  /** Everything that the class writes takes at least a word. */
  predicate TakesWords(sc: StoreClass) {
    match sc
    case Binary(n) => n > 0
    case ObjectC(_) => false
    case _ => true
  }

  /** The elements of every vector in what the class writes take at least a word each. */
  predicate ElementsTakeWords(sc: StoreClass) {
    match sc
    case Boxed(f, _) => ElementsTakeWords(f)
    case BoxedUnknown(f) => ElementsTakeWords(f)
    case VectorC(f) => TakesWords(f) && ElementsTakeWords(f)
    case _ => true
  }

  /** No field of the schema is a vector of bare objects, which may be empty. */
  ghost predicate FieldsTakeWords(schema: Schema) {
    forall t: nat, i: nat, k: nat |
      t < |schema| && i < |schema[t].constructors| && k < |schema[t].constructors[i].args| ::
      ArgTakesWords(schema, schema[t].constructors[i].args[k])
  }

  predicate ArgTakesWords(schema: Schema, a: Arg) {
    GenStore(schema, a.ty).Some? ==> ElementsTakeWords(GenStore(schema, a.ty).value)
  }

  lemma FieldClass(schema: Schema, v: Value, k: nat)
    requires FieldsTakeWords(schema) && Known(schema, v) && k < |v.fields|
    ensures var st := GenFieldStore(schema, Comb(schema, v), k, Stored(Comb(schema, v), k));
      st.Some? && st.value.StoreField? ==> ElementsTakeWords(st.value.class_)
  {
    assert ArgTakesWords(schema, Comb(schema, v).args[k]);
  }

  /** Where elements take words, nothing has to follow. */
  lemma {:induction false} NothingNeeded(schema: Schema, sc: StoreClass, v: Value)
    requires FieldsTakeWords(schema) && ElementsTakeWords(sc) && Store(schema, sc, v).Some?
    ensures Store(schema, sc, v).value.need == 0
    ensures TakesWords(sc) ==> Store(schema, sc, v).value.words != []
    decreases v, 2, sc
  {
    match sc
    case Boxed(f, id) => NothingNeeded(schema, f, v);
    case BoxedUnknown(f) => NothingNeeded(schema, f, v);
    case VectorC(f) => NothingNeededForList(schema, f, v, 0);
    case ObjectC(t) => NothingNeededForBody(schema, v, 0, map[]);
    case _ =>
  }

  lemma {:induction false} NothingNeededForList(schema: Schema, f: StoreClass, v: Value, i: nat)
    requires FieldsTakeWords(schema) && TakesWords(f) && ElementsTakeWords(f)
    requires v.List? && i <= |v.vs| && StoreList(schema, f, v, i).Some?
    ensures StoreList(schema, f, v, i).value.need == 0
    ensures |StoreList(schema, f, v, i).value.words| >= |v.vs| - i
    decreases v, 1, |v.vs| - i
  {
    if i < |v.vs| {
      NothingNeeded(schema, f, v.vs[i]);
      NothingNeededForList(schema, f, v, i + 1);
    }
  }

  lemma {:induction false} NothingNeededForBody(schema: Schema, v: Value, k: nat, vars: Vars)
    requires FieldsTakeWords(schema) && Known(schema, v) && k <= |v.fields|
    requires StoreBody(schema, v, k, vars).Some?
    ensures StoreBody(schema, v, k, vars).value.need == 0
    decreases v, 1, |v.fields| - k
  {
    if k < |v.fields| {
      FieldClass(schema, v, k);
      match GenFieldStore(schema, Comb(schema, v), k, Stored(Comb(schema, v), k)).value
      case SkipTrue => NothingNeededForBody(schema, v, k + 1, vars);
      case StoreField(g, f) =>
        NothingNeededForBody(schema, v, k + 1, vars);
        if Holds(g, vars).value {
          NothingNeeded(schema, f, v.fields[k]);
        }
      case StoreVar(g, x, ors, f) =>
        var w := if v.fields[k].Num? then OrAll(v.fields[k].w, ors, |ors|, v.fields) else 0;
        NothingNeededForBody(schema, v, k + 1, if Holds(g, vars).value then vars[x := w] else vars);
    }
  }

  /** Then the fetch undoes the store of every value without negative flag words. */
  lemma WordsEnough(schema: Schema, tr: TypeRef, v: Value, rest: seq<Word>, fuel: nat)
    requires Sound(schema) && GenStore(schema, tr).Some? && GenFetch(schema, tr).Some? && DepthOk(v, fuel)
    requires FieldsTakeWords(schema) && ElementsTakeWords(GenStore(schema, tr).value)
    requires Store(schema, GenStore(schema, tr).value, v).Some?
    ensures var e := Store(schema, GenStore(schema, tr).value, v).value;
      Fetch(schema, GenFetch(schema, tr).value, e.words + rest, fuel) ==
        if e.plain then Some((Norm(schema, v), rest)) else None
  {
    NothingNeeded(schema, GenStore(schema, tr).value, v);
    RoundTrip(schema, tr, v, rest, fuel);
  }

  /** A flag word that reads as negative breaks it: the fetch fails whatever follows. */
  lemma NegativeFlags()
    ensures exists schema: Schema, tr: TypeRef, v: Value :: StoredNegative(schema, tr, v)
  {
    var number := TypeRef(0, true, []);
    var c := Combinator(7, [Arg(number, 0, -1, 0)], 1, true);
    var schema := [TypeDecl(Simple(NumP), []), TypeDecl(ObjectK, [c])];
    var tr, v := TypeRef(1, true, []), Obj(1, 0, [Num(0x8000_0000)]);
    NegativeSchema(schema, c, number);
    NegativeStored(schema, c, number, v);
    assert NegativeWord(schema, tr, v);
    forall rest: seq<Word>, fuel: nat | DepthOk(v, fuel)
      ensures Fetch(schema, GenFetch(schema, tr).value, Store(schema, GenStore(schema, tr).value, v).value.words + rest,
                    fuel) == None
    {
      RoundTrip(schema, tr, v, rest, fuel);
    }
    assert StoredNegative(schema, tr, v);
  }

  ghost predicate NegativeWord(schema: Schema, tr: TypeRef, v: Value) {
    && Sound(schema) && GenStore(schema, tr).Some? && GenFetch(schema, tr).Some?
    && var e := Store(schema, GenStore(schema, tr).value, v);
      e.Some? && !e.value.plain && e.value.need == 0
  }

  ghost predicate StoredNegative(schema: Schema, tr: TypeRef, v: Value) {
    && NegativeWord(schema, tr, v)
    && forall rest: seq<Word>, fuel: nat | DepthOk(v, fuel) ::
      Fetch(schema, GenFetch(schema, tr).value, Store(schema, GenStore(schema, tr).value, v).value.words + rest, fuel)
        == None
  }

  lemma NegativeSchema(schema: Schema, c: Combinator, number: TypeRef)
    requires number == TypeRef(0, true, []) && c == Combinator(7, [Arg(number, 0, -1, 0)], 1, true)
    requires schema == [TypeDecl(Simple(NumP), []), TypeDecl(ObjectK, [c])]
    ensures Sound(schema) && GenStore(schema, TypeRef(1, true, [])) == Some(ObjectC(1))
    ensures GenFetch(schema, TypeRef(1, true, [])) == Some(FObject(1))
  {
    assert SupportedCount([c][1..]) == 0 && SupportedCount([c]) == 1;
  }

  lemma NegativeStored(schema: Schema, c: Combinator, number: TypeRef, v: Value)
    requires number == TypeRef(0, true, []) && c == Combinator(7, [Arg(number, 0, -1, 0)], 1, true)
    requires schema == [TypeDecl(Simple(NumP), []), TypeDecl(ObjectK, [c])] && Sound(schema)
    requires v == Obj(1, 0, [Num(0x8000_0000)])
    ensures Store(schema, ObjectC(1), v) == Some(Encoding([0x8000_0000], false, 0))
  {
    assert Ors(schema, c.args, 0, 1) == [];
    var w: Word := 0x8000_0000;
    assert StoreBody(schema, v, 1, map[0 := w]) == Some(Words([]));
    assert Own(schema, c, v.fields, 0) == w;
    VarStep(schema, v, 0, map[]);
    assert Join(Encoding([w], false, 0), Words([])) == Encoding([w], false, 0) by { assert [w] + [] == [w]; }
  }

  /** Elements that take no words break it: a vector of one empty object cannot be read back. */
  lemma EmptyElements()
    ensures exists schema: Schema, tr: TypeRef, v: Value :: NotReadBack(schema, tr, v)
  {
    var c := Combinator(7, [], 0, true);
    var schema := [TypeDecl(ObjectK, [c]), TypeDecl(VectorK, [])];
    var tr := TypeRef(1, true, [TypeRef(0, true, [])]);
    var v := List([Obj(0, 0, [])]);
    assert SupportedCount([c][1..]) == 0 && SupportedCount([c]) == 1 && SupportedCount([]) == 0;
    assert GenStore(schema, tr.children[0]) == Some(ObjectC(0)) && GenFetch(schema, tr.children[0]) == Some(FObject(0));
    assert GenStore(schema, tr) == Some(VectorC(ObjectC(0))) && GenFetch(schema, tr) == Some(FVector(FObject(0)));
    assert StoreList(schema, ObjectC(0), v, 1) == Some(Words([]));
    assert StoreBody(schema, v.vs[0], 0, map[]) == Some(Words([]));
    assert StoreList(schema, ObjectC(0), v, 0).value.words == [];
    assert Store(schema, VectorC(ObjectC(0)), v).value.words == [1];
    assert NotReadBack(schema, tr, v);
  }

  ghost predicate NotReadBack(schema: Schema, tr: TypeRef, v: Value) {
    && Sound(schema) && GenStore(schema, tr).Some? && GenFetch(schema, tr).Some?
    && Store(schema, GenStore(schema, tr).value, v).Some? && Store(schema, GenStore(schema, tr).value, v).value.plain
    && forall fuel: nat :: Fetch(schema, GenFetch(schema, tr).value,
      Store(schema, GenStore(schema, tr).value, v).value.words, fuel) == None
  }
}
