/** The generator of serializers: from a combinator it makes the statements of a store and of a
    fetch. A result of None is an assertion of the generator that fails, or text that names a class
    that does not exist. */
module TlGenerator {
  import opened Common
  import opened TlPrimitives

  // --- schemas ---

  /** Built-in simple types: flag words, other binary types of so many words, and the rest. */
  datatype Prim = NumP | Fixed(words: nat) | BoolP | TrueP | StringP

  datatype Kind = Simple(prim: Prim) | VectorK | ObjectK

  datatype TypeRef = TypeRef(t: nat, bare: bool, children: seq<TypeRef>)

  /** An argument: it may define a variable, and it may depend on a bit of one (-1 if not). */
  datatype Arg = Arg(ty: TypeRef, varNum: int, existVar: int, existBit: nat)

  datatype Combinator = Combinator(id: Word, args: seq<Arg>, varCount: nat, supported: bool)

  datatype TypeDecl = TypeDecl(kind: Kind, constructors: seq<Combinator>)

  type Schema = seq<TypeDecl>

  function SupportedCount(cs: seq<Combinator>): nat {
    if cs == [] then 0 else SupportedCount(cs[1..]) + if cs[0].supported then 1 else 0
  }

  /** The position of the first supported constructor. */
  function FirstSupported(cs: seq<Combinator>): (i: nat)
    requires SupportedCount(cs) > 0
    ensures i < |cs| && cs[i].supported
  {
    if cs[0].supported then 0 else 1 + FirstSupported(cs[1..])
  }

  lemma {:induction false} OnlySupported(cs: seq<Combinator>, i: nat)
    requires SupportedCount(cs) <= 1 && i < |cs| && cs[i].supported
    ensures SupportedCount(cs) == 1 && FirstSupported(cs) == i
  {
    if i == 0 {
    } else {
      OnlySupported(cs[1..], i - 1);
    }
  }

  /** Whether values of the type can be written without a constructor identifier. */
  predicate IsTypeBare(d: TypeDecl) {
    || SupportedCount(d.constructors) <= 1
    || (d.kind.Simple? && d.kind.prim != BoolP && d.kind.prim != NumP)
    || d.kind.VectorK?
  }

  // --- the classes named in the emitted text ---

  /** The width of a binary value is that of the C++ type of the field. */
  datatype StoreClass =
    | Boxed(func: StoreClass, id: Word)
    | BoxedUnknown(func: StoreClass)
    | Binary(words: nat)
    | BoolC
    | StringC
    | VectorC(func: StoreClass)
    | ObjectC(t: nat)

  datatype FetchClass =
    | FBoxed(func: FetchClass, id: Word)
    | FBinary(words: nat)
    | FBool
    | FString
    | FVector(func: FetchClass)
    | FObject(t: nat)

  function GenStoreName(schema: Schema, tr: TypeRef): Option<StoreClass>
    decreases tr, 0
  {
    if tr.t >= |schema| then None
    else match schema[tr.t].kind
      case Simple(NumP) => Some(Binary(1))
      case Simple(Fixed(n)) => Some(Binary(n))
      case Simple(BoolP) => Some(BoolC)
      case Simple(TrueP) => None
      case Simple(StringP) => Some(StringC)
      case VectorK =>
        if |tr.children| != 1 then None
        else (match GenStore(schema, tr.children[0])
              case None => None
              case Some(f) => Some(VectorC(f)))
      case ObjectK => if tr.children != [] then None else Some(ObjectC(tr.t))
  }

  function GenStore(schema: Schema, tr: TypeRef): Option<StoreClass>
    decreases tr, 1
  {
    match GenStoreName(schema, tr)
    case None => None
    case Some(f) =>
      var d := schema[tr.t];
      if tr.bare || d.kind == Simple(NumP) || d.kind == Simple(BoolP) then Some(f)
      else if d.kind.VectorK? then (if d.constructors == [] then None else Some(Boxed(f, d.constructors[0].id)))
      else if !IsTypeBare(d) then Some(BoxedUnknown(f))
      else if SupportedCount(d.constructors) == 0 then None
      else Some(Boxed(f, d.constructors[FirstSupported(d.constructors)].id))
  }

  function GenFetchName(schema: Schema, tr: TypeRef): Option<FetchClass>
    decreases tr, 0
  {
    if tr.t >= |schema| then None
    else match schema[tr.t].kind
      case Simple(NumP) => Some(FBinary(1))
      case Simple(Fixed(n)) => Some(FBinary(n))
      case Simple(BoolP) => Some(FBool)
      case Simple(TrueP) => None
      case Simple(StringP) => Some(FString)
      case VectorK =>
        if |tr.children| != 1 then None
        else (match GenFetch(schema, tr.children[0])
              case None => None
              case Some(f) => Some(FVector(f)))
      case ObjectK => if tr.children != [] then None else Some(FObject(tr.t))
  }

  /** How many constructors the generator would expect, and the first of them. */
  function Expected(d: TypeDecl): nat {
    if d.kind.VectorK? then |d.constructors| else SupportedCount(d.constructors)
  }

  function ExpectedId(d: TypeDecl): Word
    requires Expected(d) > 0
  {
    if d.kind.VectorK? then d.constructors[0].id else d.constructors[FirstSupported(d.constructors)].id
  }

  function GenFetch(schema: Schema, tr: TypeRef): Option<FetchClass>
    decreases tr, 1
  {
    match GenFetchName(schema, tr)
    case None => None
    case Some(f) =>
      var d := schema[tr.t];
      if tr.bare then (if IsTypeBare(d) then Some(f) else None)
      else if !IsTypeBare(d) || Expected(d) == 0 then Some(f)
      else if Expected(d) > 1 || ExpectedId(d) == 0 then None
      else Some(FBoxed(f, ExpectedId(d)))
  }

  // --- the emitted statements ---

  /** `if (var & (1 << bit))` */
  datatype Guard = Always | IfBit(v: nat, bit: nat)

  /** The statement for one argument: nothing, a field, or a field whose value, with the bits of
      the given True fields or-ed in, is also kept in a variable. */
  datatype StoreStmt =
    | SkipTrue
    | StoreField(guard: Guard, class_: StoreClass)
    | StoreVar(guard: Guard, v: nat, ors: seq<(nat, nat)>, class_: StoreClass)

  datatype FetchStmt =
    | FetchBit(v: nat, bit: nat)
    | FetchField(guard: Guard, class_: FetchClass)
    | FetchVar(guard: Guard, v: nat, class_: FetchClass)

  predicate IsKind(schema: Schema, tr: TypeRef, p: Prim) {
    tr.t < |schema| && schema[tr.t].kind == Simple(p)
  }

  /** The True fields that depend on variable v, among the first n arguments. */
  function Ors(schema: Schema, args: seq<Arg>, v: int, n: nat): (r: seq<(nat, nat)>)
    requires n <= |args|
    ensures forall p | p in r ::
      p.0 < n && args[p.0].existVar == v && IsKind(schema, args[p.0].ty, TrueP) && args[p.0].existBit == p.1
  {
    if n == 0 then []
    else
      var a := args[n - 1];
      var before := Ors(schema, args, v, n - 1);
      if a.existVar == v && IsKind(schema, a.ty, TrueP) then before + [(n - 1, a.existBit)] else before
  }

  function GuardOf(a: Arg): Guard {
    if a.existVar < 0 then Always else IfBit(a.existVar, a.existBit)
  }

  /** The argument depends on a variable that is stored by then, and on one of its 32 bits. */
  predicate GuardOk(a: Arg, stored: set<int>) {
    a.existVar >= 0 ==> a.existVar in stored && a.existBit < 32
  }

  predicate DefinesOk(schema: Schema, a: Arg, varCount: nat, stored: set<int>) {
    a.varNum >= 0 ==> IsKind(schema, a.ty, NumP) && a.varNum < varCount && a.varNum !in stored
  }

  predicate IsTrueBit(schema: Schema, a: Arg) {
    a.existVar >= 0 && a.varNum < 0 && IsKind(schema, a.ty, TrueP)
  }

  function GenFieldStore(schema: Schema, c: Combinator, k: nat, stored: set<int>): Option<StoreStmt>
    requires k < |c.args|
  {
    var a := c.args[k];
    if !GuardOk(a, stored) then None
    else if IsTrueBit(schema, a) then Some(SkipTrue)
    else if !DefinesOk(schema, a, c.varCount, stored) then None
    else match GenStore(schema, a.ty)
      case None => None
      case Some(f) =>
        if a.varNum >= 0 then Some(StoreVar(GuardOf(a), a.varNum, Ors(schema, c.args, a.varNum, |c.args|), f))
        else Some(StoreField(GuardOf(a), f))
  }

  function GenFieldFetch(schema: Schema, c: Combinator, k: nat, stored: set<int>): Option<FetchStmt>
    requires k < |c.args|
  {
    var a := c.args[k];
    if !GuardOk(a, stored) then None
    else if IsTrueBit(schema, a) && a.ty.bare then
      (if IsTypeBare(schema[a.ty.t]) then Some(FetchBit(a.existVar, a.existBit)) else None)
    else if !DefinesOk(schema, a, c.varCount, stored) then None
    else match GenFetch(schema, a.ty)
      case None => None
      case Some(f) =>
        if a.varNum >= 0 then Some(FetchVar(GuardOf(a), a.varNum, f)) else Some(FetchField(GuardOf(a), f))
  }

  /** The variables defined by the first k arguments. */
  function Stored(c: Combinator, k: nat): set<int>
    requires k <= |c.args|
  {
    if k == 0 then {} else Stored(c, k - 1) + if c.args[k - 1].varNum >= 0 then {c.args[k - 1].varNum} else {}
  }

  /** Both bodies of a combinator can be emitted, and every variable is stored at the end. */
  ghost predicate Generated(schema: Schema, c: Combinator) {
    && (forall k: nat | k < |c.args| :: GenFieldStore(schema, c, k, Stored(c, k)).Some?)
    && (forall k: nat | k < |c.args| :: GenFieldFetch(schema, c, k, Stored(c, k)).Some?)
    && (forall v: nat | v < c.varCount :: v in Stored(c, |c.args|))
  }

  /** The type `#` has no constructors of its own, and Bool has two. */
  ghost predicate BuiltInsOk(schema: Schema) {
    forall t: nat | t < |schema| ::
      && (schema[t].kind == Simple(NumP) ==> schema[t].constructors == [])
      && (schema[t].kind == Simple(BoolP) ==> SupportedCount(schema[t].constructors) > 1)
  }

  /** The constructors that are written and read, each with an identifier of its own. */
  ghost predicate Sound(schema: Schema) {
    && BuiltInsOk(schema)
    && forall t: nat, i: nat | t < |schema| && schema[t].kind.ObjectK? && i < |schema[t].constructors|
                            && schema[t].constructors[i].supported ::
      && Generated(schema, schema[t].constructors[i])
      && IdUnique(schema[t].constructors, i)
  }

  /** The cases of a switch are different. */
  ghost predicate IdUnique(cs: seq<Combinator>, i: nat) {
    i < |cs| && forall j: nat | j < |cs| && cs[j].supported && cs[j].id == cs[i].id :: j == i
  }

  predicate EmitsStore(schema: Schema, c: Combinator, k: nat, stmt: StoreStmt) {
    k < |c.args| && GenFieldStore(schema, c, k, Stored(c, k)) == Some(stmt)
  }

  predicate EmitsFetch(schema: Schema, c: Combinator, k: nat, stmt: FetchStmt) {
    k < |c.args| && GenFieldFetch(schema, c, k, Stored(c, k)) == Some(stmt)
  }

  ghost predicate RefusesStore(schema: Schema, c: Combinator, k: nat) {
    k < |c.args| && GenFieldStore(schema, c, k, Stored(c, k)) == None
  }

  ghost predicate RefusesFetch(schema: Schema, c: Combinator, k: nat) {
    k < |c.args| && GenFieldFetch(schema, c, k, Stored(c, k)) == None
  }

  method AllStored(varCount: nat, stored: set<int>) returns (all: bool)
    ensures all <==> forall v: nat | v < varCount :: v in stored
  {
    var v: nat := 0;
    while v < varCount
      invariant v <= varCount && forall u: nat | u < v :: u in stored
    {
      if v !in stored {
        return false;
      }
      v := v + 1;
    }
    all := true;
  }

  /** The whole body of a store, argument by argument; it is refused exactly if the statement of
      some argument is, or if some variable is never stored. */
  method EmitStore(schema: Schema, c: Combinator) returns (body: Option<seq<StoreStmt>>)
    ensures body.Some? ==> |body.value| == |c.args| && forall k: nat | k < |c.args| ::
      EmitsStore(schema, c, k, body.value[k])
    ensures body.Some? ==> forall v: nat | v < c.varCount :: v in Stored(c, |c.args|)
    ensures body.None? ==>
      (exists k :: RefusesStore(schema, c, k)) || (exists v: nat :: v < c.varCount && v !in Stored(c, |c.args|))
  {
    var stored: set<int> := {};
    var res: seq<StoreStmt> := [];
    for k := 0 to |c.args|
      invariant stored == Stored(c, k) && |res| == k
      invariant forall j: nat | j < k :: EmitsStore(schema, c, j, res[j])
    {
      var stmt := GenFieldStore(schema, c, k, stored);
      if stmt.None? {
        assert RefusesStore(schema, c, k);
        return None;
      }
      assert EmitsStore(schema, c, k, stmt.value);
      res := res + [stmt.value];
      if c.args[k].varNum >= 0 {
        stored := stored + {c.args[k].varNum};
      }
    }
    var all := AllStored(c.varCount, stored);
    body := if all then Some(res) else None;
  }

  /** The same for the body of a fetch. */
  method EmitFetch(schema: Schema, c: Combinator) returns (body: Option<seq<FetchStmt>>)
    ensures body.Some? ==> |body.value| == |c.args| && forall k: nat | k < |c.args| ::
      EmitsFetch(schema, c, k, body.value[k])
    ensures body.Some? ==> forall v: nat | v < c.varCount :: v in Stored(c, |c.args|)
    ensures body.None? ==>
      (exists k :: RefusesFetch(schema, c, k)) || (exists v: nat :: v < c.varCount && v !in Stored(c, |c.args|))
  {
    var stored: set<int> := {};
    var res: seq<FetchStmt> := [];
    for k := 0 to |c.args|
      invariant stored == Stored(c, k) && |res| == k
      invariant forall j: nat | j < k :: EmitsFetch(schema, c, j, res[j])
    {
      var stmt := GenFieldFetch(schema, c, k, stored);
      if stmt.None? {
        assert RefusesFetch(schema, c, k);
        return None;
      }
      assert EmitsFetch(schema, c, k, stmt.value);
      res := res + [stmt.value];
      if c.args[k].varNum >= 0 {
        stored := stored + {c.args[k].varNum};
      }
    }
    var all := AllStored(c.varCount, stored);
    body := if all then Some(res) else None;
  }

  // --- the two generators agree ---

  /** The fetch class reads what the store class writes. */
  predicate Match(schema: Schema, sc: StoreClass, fc: FetchClass) {
    match sc
    case Boxed(f, id) => fc.FBoxed? && fc.id == id && Match(schema, f, fc.func)
    case BoxedUnknown(f) => fc.FObject? && f == ObjectC(fc.t) && fc.t < |schema| &&
      SupportedCount(schema[fc.t].constructors) > 1
    case Binary(n) => fc == FBinary(n)
    case BoolC => fc == FBool
    case StringC => fc == FString
    case VectorC(f) => fc.FVector? && Match(schema, f, fc.func)
    case ObjectC(t) => fc == FObject(t) && t < |schema| && SupportedCount(schema[t].constructors) <= 1
  }

  lemma {:induction false} NamesMatch(schema: Schema, tr: TypeRef)
    requires BuiltInsOk(schema)
    requires GenStoreName(schema, tr).Some? && GenFetchName(schema, tr).Some? && IsTypeBare(schema[tr.t])
    ensures Match(schema, GenStoreName(schema, tr).value, GenFetchName(schema, tr).value)
    decreases tr, 0
  {
    if schema[tr.t].kind.VectorK? {
      ClassesMatch(schema, tr.children[0]);
    }
  }

  /** Whenever both generators produce a class for a type, they match. */
  lemma {:induction false} ClassesMatch(schema: Schema, tr: TypeRef)
    requires BuiltInsOk(schema) && GenStore(schema, tr).Some? && GenFetch(schema, tr).Some?
    ensures Match(schema, GenStore(schema, tr).value, GenFetch(schema, tr).value)
    decreases tr, 1
  {
    var d := schema[tr.t];
    if IsTypeBare(d) {
      NamesMatch(schema, tr);
    }
  }
}
