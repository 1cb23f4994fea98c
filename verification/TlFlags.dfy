/** What becomes of the flags of an object: which bits the stored words have and which fields a
    fetch returns, said of the fields alone. */
module TlFlags {
  import opened Common
  import opened TlPrimitives
  import opened TlGenerator
  import opened TlCodec
  import opened TlRoundTrip
  import opened TlNormal

  // --- the bits of a flag word ---

  /** The i-th field is a True field that is set, on bit b of the variable that argument k defines. */
  predicate SetsBit(schema: Schema, c: Combinator, fields: seq<Value>, k: nat, i: nat, b: nat) {
    && k < |c.args| == |fields| && i < |c.args| && c.args[i].ty.t < |schema|
    && schema[c.args[i].ty.t].kind == Simple(TrueP) && c.args[i].existVar == c.args[k].varNum
    && c.args[i].existBit == b && fields[i] == Flag(true)
  }

  /** All True fields that depend on a variable are or-ed into it. */
  lemma {:induction false} OrsComplete(schema: Schema, args: seq<Arg>, v: int, n: nat, i: nat)
    requires i < n <= |args| && args[i].existVar == v && IsKind(schema, args[i].ty, TrueP)
    ensures (i, args[i].existBit) in Ors(schema, args, v, n)
  {
    if i < n - 1 {
      OrsComplete(schema, args, v, n - 1, i);
    }
  }

  /** One of the first n fields to be or-ed in is set and has bit b. */
  ghost predicate Among(ors: seq<(nat, nat)>, n: nat, fields: seq<Value>, b: nat)
    requires n <= |ors|
  {
    exists m | 0 <= m < n :: ors[m].1 == b && ors[m].0 < |fields| && FlagOf(fields[ors[m].0])
  }

  lemma {:induction false} OrAllBits(w: Word, ors: seq<(nat, nat)>, n: nat, fields: seq<Value>, b: nat)
    requires n <= |ors| && b < 32
    ensures Bit(OrAll(w, ors, n, fields), b) <==> Bit(w, b) || Among(ors, n, fields, b)
  {
    if n > 0 {
      var p := ors[n - 1];
      OrAllBits(w, ors, n - 1, fields, b);
      if p.1 < 32 {
        BitOfWithBit(OrAll(w, ors, n - 1, fields), p.1, b);
      }
      assert Among(ors, n, fields, b) <==>
        Among(ors, n - 1, fields, b) || (p.1 == b && p.0 < |fields| && FlagOf(fields[p.0]));
    }
  }

  lemma AmongIff(schema: Schema, c: Combinator, fields: seq<Value>, k: nat, b: nat)
    requires k < |c.args| == |fields|
    ensures var ors := Ors(schema, c.args, c.args[k].varNum, |c.args|);
      Among(ors, |ors|, fields, b) <==> exists i: nat :: SetsBit(schema, c, fields, k, i, b)
  {
    var ors := Ors(schema, c.args, c.args[k].varNum, |c.args|);
    if Among(ors, |ors|, fields, b) {
      var m :| 0 <= m < |ors| && ors[m].1 == b && ors[m].0 < |fields| && FlagOf(fields[ors[m].0]);
      assert ors[m] in ors;
      assert SetsBit(schema, c, fields, k, ors[m].0, b);
    }
    if exists i: nat :: SetsBit(schema, c, fields, k, i, b) {
      var i: nat :| SetsBit(schema, c, fields, k, i, b);
      OrsComplete(schema, c.args, c.args[k].varNum, |c.args|, i);
      var m :| 0 <= m < |ors| && ors[m] == (i, b);
    }
  }

  lemma OwnBits(schema: Schema, c: Combinator, fields: seq<Value>, k: nat, b: nat)
    requires k < |c.args| == |fields| && b < 32 && fields[k].Num?
    ensures Bit(Own(schema, c, fields, k), b) <==>
      Bit(fields[k].w, b) || exists i: nat :: SetsBit(schema, c, fields, k, i, b)
  {
    var ors := Ors(schema, c.args, c.args[k].varNum, |c.args|);
    OrAllBits(fields[k].w, ors, |ors|, fields, b);
    AmongIff(schema, c, fields, k, b);
  }

  // --- the fields that a fetch returns ---

  /** The bit that argument i depends on, if any, is set in the field of the argument that defines
      its variable. */
  ghost predicate There(c: Combinator, fields: seq<Value>, i: nat) {
    && i < |c.args| == |fields|
    && (c.args[i].existVar < 0 || exists j: nat :: ShownIn(c, fields, i, j))
  }

  ghost predicate ShownIn(c: Combinator, fields: seq<Value>, i: nat, j: nat) {
    && j < i < |c.args| == |fields| && c.args[j].varNum == c.args[i].existVar
    && fields[j].Num? && Bit(fields[j].w, c.args[i].existBit)
  }

  /** A normalized field that defines a variable is the value of that variable from there on. */
  lemma VarShown(schema: Schema, v: Value, j: nat, i: nat)
    requires Sound(schema) && Known(schema, v) && j < i < |v.fields| && Comb(schema, v).args[j].varNum >= 0
    ensures NormField(schema, v, j) ==
      Num(VarVal(schema, Comb(schema, v), v.fields, Comb(schema, v).args[j].varNum, i))
  {
    Placement(schema, Comb(schema, v), j);
    VarValAt(schema, Comb(schema, v), v.fields, j, i);
  }

  lemma {:induction false} DefinedBefore(c: Combinator, k: nat, x: int)
    requires k <= |c.args| && x in Stored(c, k)
    ensures x >= 0 && exists j: nat :: j < k && c.args[j].varNum == x
  {
    if x in Stored(c, k - 1) {
      DefinedBefore(c, k - 1, x);
      var j: nat :| j < k - 1 && c.args[j].varNum == x;
      assert j < k;
    }
  }

  lemma TakenIff(schema: Schema, v: Value, n: Value, i: nat)
    requires Sound(schema) && Known(schema, v) && i < |v.fields| && n == Norm(schema, v)
    ensures n.Obj? && |n.fields| == |v.fields|
    ensures Taken(schema, Comb(schema, v), v.fields, i) <==> There(Comb(schema, v), n.fields, i)
  {
    var c := Comb(schema, v);
    var a := c.args[i];
    forall j: nat | j < i && c.args[j].varNum == a.existVar >= 0
      ensures ShownIn(c, n.fields, i, j) <==> Taken(schema, c, v.fields, i)
    {
      VarShown(schema, v, j, i);
    }
    if a.existVar >= 0 {
      Placement(schema, c, i);
      DefinedBefore(c, i, a.existVar);
    }
  }

  /** What the field of a `#` argument becomes: with every True field of its variable or-ed in. */
  ghost predicate FlagWordOk(schema: Schema, c: Combinator, before: seq<Value>, after: seq<Value>, k: nat) {
    && k < |c.args| == |before| == |after| && before[k].Num? && after[k].Num?
    && forall b | 0 <= b < 32 ::
         Bit(after[k].w, b) <==> Bit(before[k].w, b) || exists i: nat :: SetsBit(schema, c, before, k, i, b)
  }

  /** The fields of the fetched object by those of the stored one. */
  ghost predicate FieldsOk(schema: Schema, c: Combinator, before: seq<Value>, after: seq<Value>) {
    && |c.args| == |before| == |after|
    && forall i: nat | i < |c.args| :: FieldOk(schema, c, before, after, i)
  }

  ghost predicate FieldOk(schema: Schema, c: Combinator, before: seq<Value>, after: seq<Value>, i: nat) {
    && i < |c.args| == |before| == |after|
    && if c.args[i].existVar >= 0 && IsKind(schema, c.args[i].ty, TrueP) then
         after[i] == Flag(There(c, after, i))
       else if !There(c, after, i) then after[i] == Default(schema, c.args[i].ty)
       else if c.args[i].varNum >= 0 then FlagWordOk(schema, c, before, after, i)
       else after[i] == Norm(schema, before[i])
  }

  // --- the words that are stored ---

  /** The variables assigned so far have their values. */
  ghost predicate Assigned(schema: Schema, v: Value, k: nat, vars: Vars)
    requires Known(schema, v) && k <= |v.fields|
  {
    forall x | x in vars ::
      x in Stored(Comb(schema, v), k) && vars[x] == VarVal(schema, Comb(schema, v), v.fields, x, k)
  }

  lemma AssignedNext(schema: Schema, v: Value, k: nat, vars: Vars)
    requires Sound(schema) && Known(schema, v) && k < |v.fields| && Assigned(schema, v, k, vars)
    ensures Assigned(schema, v, k + 1, vars)
  {
    var c := Comb(schema, v);
    Placement(schema, c, k);
    forall x | x in vars ensures x in Stored(c, k + 1) && vars[x] == VarVal(schema, c, v.fields, x, k + 1) {
      StoredNonNegative(c, k, x);
    }
  }

  lemma GuardTells(schema: Schema, v: Value, k: nat, vars: Vars)
    requires Known(schema, v) && k < |v.fields| && Assigned(schema, v, k, vars)
    ensures var g := GuardOf(Comb(schema, v).args[k]);
      Holds(g, vars).Some? ==> Holds(g, vars) == Some(Taken(schema, Comb(schema, v), v.fields, k))
  {
  }

  /** The words of one argument and those after it. */
  lemma OneArgument(schema: Schema, v: Value, k: nat, vars: Vars) returns (first: seq<Word>, next: Vars)
    requires Sound(schema) && Known(schema, v) && k < |v.fields| && Assigned(schema, v, k, vars)
    requires StoreBody(schema, v, k, vars).Some?
    ensures Assigned(schema, v, k + 1, next) && StoreBody(schema, v, k + 1, next).Some?
    ensures StoreBody(schema, v, k, vars).value.words == first + StoreBody(schema, v, k + 1, next).value.words
    ensures Comb(schema, v).args[k].varNum >= 0 && Taken(schema, Comb(schema, v), v.fields, k) ==>
      v.fields[k].Num? && first == [Own(schema, Comb(schema, v), v.fields, k)]
  {
    var c := Comb(schema, v);
    var a := c.args[k];
    GeneratedAt(schema, v, k);
    Forms(schema, c, k, Stored(c, k));
    GuardTells(schema, v, k, vars);
    AssignedNext(schema, v, k, vars);
    first, next := [], vars;
    if !IsTrueBit(schema, a) && Holds(GuardOf(a), vars) == Some(true) {
      if a.varNum >= 0 {
        var w := Own(schema, c, v.fields, k);
        first, next := [w], vars[a.varNum := w];
      } else {
        first := Store(schema, GenStore(schema, a.ty).value, v.fields[k]).value.words;
      }
    }
  }

  lemma Regroup(a: seq<Word>, b: seq<Word>, c: seq<Word>)
    ensures a + (b + c) == a + b + c
  {
  }

  lemma {:induction false} WordsUpTo(schema: Schema, v: Value, j: nat, vars: Vars, k: nat)
    returns (before: seq<Word>, next: Vars)
    requires Sound(schema) && Known(schema, v) && j <= k <= |v.fields| && Assigned(schema, v, j, vars)
    requires StoreBody(schema, v, j, vars).Some?
    ensures Assigned(schema, v, k, next) && StoreBody(schema, v, k, next).Some?
    ensures StoreBody(schema, v, j, vars).value.words == before + StoreBody(schema, v, k, next).value.words
    decreases k - j
  {
    if j == k {
      before, next := [], vars;
    } else {
      var first, after := OneArgument(schema, v, j, vars);
      var others;
      others, next := WordsUpTo(schema, v, j + 1, after, k);
      before := first + others;
      Regroup(first, others, StoreBody(schema, v, k, next).value.words);
    }
  }

  /** The word stored for a `#` argument that is there: it has exactly the bits of the field and
      those of the True fields that are set, and it is what a fetch returns for the argument. */
  lemma StoredFlagWord(schema: Schema, v: Value, n: Value, k: nat)
    returns (before: seq<Word>, w: Word, after: seq<Word>, vars: Vars)
    requires Sound(schema) && Known(schema, v) && StoreBody(schema, v, 0, map[]).Some? && n == Norm(schema, v)
    requires k < |v.fields| && Comb(schema, v).args[k].varNum >= 0 && n.Obj? && There(Comb(schema, v), n.fields, k)
    ensures StoreBody(schema, v, k, vars).Some? && StoreBody(schema, v, k, vars).value.words == [w] + after
    ensures StoreBody(schema, v, 0, map[]).value.words == before + [w] + after
    ensures n.fields[k] == Num(w) && v.fields[k].Num?
    ensures forall b | 0 <= b < 32 ::
      Bit(w, b) <==> Bit(v.fields[k].w, b) || exists i: nat :: SetsBit(schema, Comb(schema, v), v.fields, k, i, b)
  {
    before, vars := WordsUpTo(schema, v, 0, map[], k);
    TakenIff(schema, v, n, k);
    var first, next := OneArgument(schema, v, k, vars);
    w, after := first[0], StoreBody(schema, v, k + 1, next).value.words;
    Placement(schema, Comb(schema, v), k);
    forall b | 0 <= b < 32
      ensures Bit(w, b) <==>
        Bit(v.fields[k].w, b) || exists i: nat :: SetsBit(schema, Comb(schema, v), v.fields, k, i, b)
    {
      OwnBits(schema, Comb(schema, v), v.fields, k, b);
    }
  }

  // --- what a fetch returns ---

  lemma NormFieldOk(schema: Schema, v: Value, n: Value, i: nat)
    requires Sound(schema) && Known(schema, v) && i < |v.fields| && n == Norm(schema, v)
    requires StoreBody(schema, v, 0, map[]).Some?
    ensures n.Obj? && FieldOk(schema, Comb(schema, v), v.fields, n.fields, i)
  {
    var c := Comb(schema, v);
    TakenIff(schema, v, n, i);
    Placement(schema, c, i);
    if c.args[i].varNum >= 0 && There(c, n.fields, i) {
      var before, w, after, vars := StoredFlagWord(schema, v, n, i);
    }
  }

  lemma {:induction false} StoresBody(schema: Schema, sc: StoreClass, v: Value)
    requires Known(schema, v) && Store(schema, sc, v).Some?
    ensures StoreBody(schema, v, 0, map[]).Some?
    decreases sc
  {
    if sc.Boxed? || sc.BoxedUnknown? {
      StoresBody(schema, sc.func, v);
    }
  }

  /** What a fetch of the stored words returns for an object, field by field. */
  lemma FetchedFields(schema: Schema, tr: TypeRef, v: Value, rest: seq<Word>, fuel: nat)
    requires Sound(schema) && GenStore(schema, tr).Some? && GenFetch(schema, tr).Some? && DepthOk(v, fuel)
    requires Store(schema, GenStore(schema, tr).value, v).Some? && Known(schema, v)
    ensures var r := Fetch(schema, GenFetch(schema, tr).value,
        Store(schema, GenStore(schema, tr).value, v).value.words + rest, fuel);
      r.Some? ==>
        && r.value.0.Obj? && r.value.0.t == v.t && r.value.0.c == v.c
        && FieldsOk(schema, Comb(schema, v), v.fields, r.value.0.fields)
  {
    RoundTrip(schema, tr, v, rest, fuel);
    var n := Norm(schema, v);
    StoresBody(schema, GenStore(schema, tr).value, v);
    forall i: nat | i < |v.fields| ensures n.Obj? && FieldOk(schema, Comb(schema, v), v.fields, n.fields, i) {
      NormFieldOk(schema, v, n, i);
    }
  }

  /** A True field that is set comes back set whenever the `#` argument of its variable is there. */
  lemma SetStaysSet(schema: Schema, tr: TypeRef, v: Value, rest: seq<Word>, fuel: nat, k: nat, i: nat)
    requires Sound(schema) && GenStore(schema, tr).Some? && GenFetch(schema, tr).Some? && DepthOk(v, fuel)
    requires Store(schema, GenStore(schema, tr).value, v).Some? && Known(schema, v)
    requires var c := Comb(schema, v);
      && k < |c.args| && c.args[k].varNum >= 0 && i < |c.args| && c.args[i].existVar == c.args[k].varNum
      && IsKind(schema, c.args[i].ty, TrueP) && v.fields[i] == Flag(true)
    ensures var r := Fetch(schema, GenFetch(schema, tr).value,
        Store(schema, GenStore(schema, tr).value, v).value.words + rest, fuel);
      r.Some? ==>
        && r.value.0.Obj? && |r.value.0.fields| == |v.fields|
        && (There(Comb(schema, v), r.value.0.fields, k) ==> r.value.0.fields[i] == Flag(true))
  {
    FetchedFields(schema, tr, v, rest, fuel);
    var r := Fetch(schema, GenFetch(schema, tr).value,
      Store(schema, GenStore(schema, tr).value, v).value.words + rest, fuel);
    if r.Some? && There(Comb(schema, v), r.value.0.fields, k) {
      ShownSet(schema, Comb(schema, v), v.fields, r.value.0.fields, k, i);
    }
  }

  lemma ShownSet(schema: Schema, c: Combinator, before: seq<Value>, after: seq<Value>, k: nat, i: nat)
    requires Generated(schema, c) && FieldsOk(schema, c, before, after) && k < |c.args| && i < |c.args|
    requires c.args[k].varNum >= 0 && There(c, after, k) && c.args[i].existVar == c.args[k].varNum
    requires IsKind(schema, c.args[i].ty, TrueP) && before[i] == Flag(true)
    ensures after[i] == Flag(true)
  {
    OrsComplete(schema, c.args, c.args[k].varNum, |c.args|, i);
    OrsLater(schema, c, k, (i, c.args[i].existBit));
    Placement(schema, c, k);
    assert FieldOk(schema, c, before, after, i) && FieldOk(schema, c, before, after, k);
    assert SetsBit(schema, c, before, k, i, c.args[i].existBit);
    assert ShownIn(c, after, i, k);
  }
}
