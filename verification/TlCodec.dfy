/** What the emitted statements do: a store writes words, a fetch reads them, and the fetch undoes
    the store up to normalization of flags and absent fields. */
module TlCodec {
  import opened Common
  import opened TlPrimitives
  import opened TlGenerator

  const ID_BOOL_FALSE: Word := 0xbc799737
  const ID_BOOL_TRUE: Word := 0x997275b5

  /** Values of the generated C++ types; Null is an empty object pointer. */
  datatype Value =
    | Num(w: Word)
    | Wide(ws: seq<Word>)
    | Flag(b: bool)
    | Text(s: seq<Byte>)
    | List(vs: seq<Value>)
    | Obj(t: nat, c: nat, fields: seq<Value>)
    | Null

  /** What a store writes, whether every flag word in it is non-negative, and how many words must
      follow it: after the length of a vector there must be a word for every four elements. */
  datatype Encoding = Encoding(words: seq<Word>, plain: bool, need: nat)

  /** Whether the encoding can be read back when rest follows it. */
  predicate Readable(e: Encoding, rest: seq<Word>) {
    e.plain && e.need <= |rest|
  }

  function Join(a: Encoding, b: Encoding): Encoding {
    Encoding(a.words + b.words, a.plain && b.plain, Max(b.need, a.need - |b.words|))
  }

  function Words(ws: seq<Word>): Encoding { Encoding(ws, true, 0) }

  function Both(a: Option<Encoding>, b: Option<Encoding>): Option<Encoding> {
    if a.Some? && b.Some? then Some(Join(a.value, b.value)) else None
  }

  /** An object of a supported constructor of an object type, with all its fields. */
  predicate Known(schema: Schema, v: Value) {
    && v.Obj? && v.t < |schema| && schema[v.t].kind.ObjectK? && v.c < |schema[v.t].constructors|
    && schema[v.t].constructors[v.c].supported && |v.fields| == |schema[v.t].constructors[v.c].args|
  }

  function Comb(schema: Schema, v: Value): Combinator
    requires Known(schema, v)
  {
    schema[v.t].constructors[v.c]
  }

  // --- store ---

  function FlagOf(v: Value): bool { v.Flag? && v.b }

  function OrBit(w: Word, b: bool, i: nat): Word {
    if i < 32 then OrIsWord(w, b, i); Or(w, b, i) else w
  }

  /** The value with the first n of these True fields or-ed in. */
  function OrAll(w: Word, ors: seq<(nat, nat)>, n: nat, fields: seq<Value>): Word
    requires n <= |ors|
  {
    if n == 0 then w
    else
      var p := ors[n - 1];
      OrBit(OrAll(w, ors, n - 1, fields), p.0 < |fields| && FlagOf(fields[p.0]), p.1)
  }

  type Vars = map<int, Word>

  /** Whether a guarded statement is executed; a variable that was never assigned has no value. */
  function Holds(g: Guard, vars: Vars): Option<bool> {
    match g
    case Always => Some(true)
    case IfBit(v, bit) => if v in vars then Some(Bit(vars[v], bit)) else None
  }

  function Store(schema: Schema, sc: StoreClass, v: Value): Option<Encoding>
    decreases v, 2, sc
  {
    match sc
    case Boxed(f, id) => Both(Some(Words([id])), Store(schema, f, v))
    case BoxedUnknown(f) =>
      if Known(schema, v) then Both(Some(Words([Comb(schema, v).id])), Store(schema, f, v)) else None
    case Binary(n) =>
      if n == 1 && v.Num? then Some(Words([v.w]))
      else if n != 1 && v.Wide? && |v.ws| == n then Some(Words(v.ws))
      else None
    case BoolC => if v.Flag? then Some(Words([if v.b then ID_BOOL_TRUE else ID_BOOL_FALSE])) else None
    case StringC => if v.Text? && |v.s| < STRING_LIMIT then Some(Words(StoreString(v.s))) else None
    case VectorC(f) =>
      if v.List? && |v.vs| < 0x8000_0000 then
        var es := StoreList(schema, f, v, 0);
        if es.None? then None
        else
          var short := (|v.vs| + 3) / 4 - |es.value.words|;
          Some(Encoding([|v.vs|] + es.value.words, es.value.plain, Max(es.value.need, short)))
      else None
    case ObjectC(t) => if Known(schema, v) && v.t == t then StoreBody(schema, v, 0, map[]) else None
  }

  function StoreList(schema: Schema, f: StoreClass, v: Value, i: nat): Option<Encoding>
    requires v.List? && i <= |v.vs|
    decreases v, 1, |v.vs| - i
  {
    if i == |v.vs| then Some(Words([]))
    else Both(Store(schema, f, v.vs[i]), StoreList(schema, f, v, i + 1))
  }

  /** The statements from that of the k-th argument on. */
  function StoreBody(schema: Schema, v: Value, k: nat, vars: Vars): Option<Encoding>
    requires Known(schema, v) && k <= |v.fields|
    decreases v, 1, |v.fields| - k
  {
    if k == |v.fields| then Some(Words([]))
    else match GenFieldStore(schema, Comb(schema, v), k, Stored(Comb(schema, v), k))
      case None => None
      case Some(SkipTrue) => StoreBody(schema, v, k + 1, vars)
      case Some(StoreField(g, f)) =>
        if Holds(g, vars).None? then None
        else if !Holds(g, vars).value then StoreBody(schema, v, k + 1, vars)
        else Both(Store(schema, f, v.fields[k]), StoreBody(schema, v, k + 1, vars))
      case Some(StoreVar(g, x, ors, f)) =>
        if Holds(g, vars).None? then None
        else if !Holds(g, vars).value then StoreBody(schema, v, k + 1, vars)
        else if !v.fields[k].Num? || f != Binary(1) then None
        else
          var w := OrAll(v.fields[k].w, ors, |ors|, v.fields);
          Both(Some(Encoding([w], !Negative(w), 0)), StoreBody(schema, v, k + 1, vars[x := w]))
  }

  // --- fetch ---

  function Zeros32(n: nat): seq<Word> { if n == 0 then [] else [0] + Zeros32(n - 1) }

  /** The initial value of a field. */
  function Default(schema: Schema, tr: TypeRef): Value {
    if tr.t >= |schema| then Null
    else match schema[tr.t].kind
      case Simple(NumP) => Num(0)
      case Simple(Fixed(n)) => if n == 1 then Num(0) else Wide(Zeros32(n))
      case Simple(BoolP) => Flag(false)
      case Simple(TrueP) => Flag(false)
      case Simple(StringP) => Text([])
      case VectorK => List([])
      case ObjectK => Null
  }

  /** The case of a switch over the constructors. */
  function FindCase(cs: seq<Combinator>, id: Word, i: nat): Option<nat>
    requires i <= |cs|
    decreases |cs| - i
  {
    if i == |cs| then None
    else if cs[i].supported && cs[i].id == id then Some(i)
    else FindCase(cs, id, i + 1)
  }

  /** The fuel bounds the nesting of objects. An error of the parser makes the whole fetch fail. */
  function Fetch(schema: Schema, fc: FetchClass, ws: seq<Word>, fuel: nat): Option<(Value, seq<Word>)>
    decreases fuel, 0, fc, 0
  {
    match fc
    case FBoxed(f, id) => if ws != [] && ws[0] == id then Fetch(schema, f, ws[1..], fuel) else None
    case FBinary(n) =>
      if |ws| < n then None else Some((if n == 1 then Num(ws[0]) else Wide(ws[..n]), ws[n..]))
    case FBool =>
      if ws != [] && ws[0] == ID_BOOL_TRUE then Some((Flag(true), ws[1..]))
      else if ws != [] && ws[0] == ID_BOOL_FALSE then Some((Flag(false), ws[1..]))
      else None
    case FString =>
      var r := FetchString(ws);
      if r.None? then None else Some((Text(r.value.0), r.value.1))
    case FVector(f) =>
      if ws == [] || 4 * |ws[1..]| < ws[0] then None
      else
        var r := FetchList(schema, f, ws[1..], ws[0], fuel);
        if r.None? then None else Some((List(r.value.0), r.value.1))
    case FObject(t) =>
      if fuel == 0 || t >= |schema| then None
      else
        var cs := schema[t].constructors;
        if SupportedCount(cs) == 1 then FetchBody(schema, t, FirstSupported(cs), 0, ws, map[], [], fuel - 1)
        else if ws == [] then None
        else
          var c := FindCase(cs, ws[0], 0);
          if c.None? || c.value >= |cs| then None
          else FetchBody(schema, t, c.value, 0, ws[1..], map[], [], fuel - 1)
  }

  function FetchList(schema: Schema, f: FetchClass, ws: seq<Word>, n: nat, fuel: nat): Option<(seq<Value>, seq<Word>)>
    decreases fuel, 0, f, n + 1
  {
    if n == 0 then Some(([], ws))
    else
      var r := Fetch(schema, f, ws, fuel);
      if r.None? then None
      else
        var rs := FetchList(schema, f, r.value.1, n - 1, fuel);
        if rs.None? then None else Some(([r.value.0] + rs.value.0, rs.value.1))
  }

  /** The statements from that of the k-th argument on; the fields before it are done. */
  function FetchBody(schema: Schema, t: nat, c: nat, k: nat, ws: seq<Word>, vars: Vars, done: seq<Value>, fuel: nat)
    : Option<(Value, seq<Word>)>
    requires t < |schema| && c < |schema[t].constructors| && k <= |schema[t].constructors[c].args|
    decreases fuel, 1, |schema[t].constructors[c].args| - k
  {
    var comb := schema[t].constructors[c];
    if k == |comb.args| then Some((Obj(t, c, done), ws))
    else match GenFieldFetch(schema, comb, k, Stored(comb, k))
      case None => None
      case Some(FetchBit(x, bit)) =>
        if x !in vars then None
        else FetchBody(schema, t, c, k + 1, ws, vars, done + [Flag(Bit(vars[x], bit))], fuel)
      case Some(FetchField(g, f)) =>
        if Holds(g, vars).None? then None
        else if !Holds(g, vars).value then
          FetchBody(schema, t, c, k + 1, ws, vars, done + [Default(schema, comb.args[k].ty)], fuel)
        else
          var r := Fetch(schema, f, ws, fuel);
          if r.None? then None else FetchBody(schema, t, c, k + 1, r.value.1, vars, done + [r.value.0], fuel)
      case Some(FetchVar(g, x, f)) =>
        if Holds(g, vars).None? then None
        else if !Holds(g, vars).value then
          FetchBody(schema, t, c, k + 1, ws, vars[x := 0], done + [Default(schema, comb.args[k].ty)], fuel)
        else
          var r := Fetch(schema, f, ws, fuel);
          if r.None? || !r.value.0.Num? || Negative(r.value.0.w) then None
          else FetchBody(schema, t, c, k + 1, r.value.1, vars[x := r.value.0.w], done + [r.value.0], fuel)
  }

  // --- normalization ---

  function NumOf(v: Value): Word { if v.Num? then v.w else 0 }

  /** The flag word that the k-th argument contributes: its field with the True bits or-ed in. */
  function Own(schema: Schema, c: Combinator, fields: seq<Value>, k: nat): Word
    requires k < |c.args| == |fields|
  {
    var ors := Ors(schema, c.args, c.args[k].varNum, |c.args|);
    OrAll(NumOf(fields[k]), ors, |ors|, fields)
  }

  /** The value of a variable after the first k arguments, 0 if it is not stored. */
  function VarVal(schema: Schema, c: Combinator, fields: seq<Value>, x: int, k: nat): Word
    requires k <= |c.args| == |fields|
    decreases k, 0
  {
    if k == 0 then 0
    else if c.args[k - 1].varNum == x then
      (if Taken(schema, c, fields, k - 1) then Own(schema, c, fields, k - 1) else 0)
    else VarVal(schema, c, fields, x, k - 1)
  }

  /** Whether the k-th argument is there. */
  predicate Taken(schema: Schema, c: Combinator, fields: seq<Value>, k: nat)
    requires k < |c.args| == |fields|
    decreases k, 1
  {
    c.args[k].existVar < 0 || Bit(VarVal(schema, c, fields, c.args[k].existVar, k), c.args[k].existBit)
  }

  /** True fields show the bits of their flag words, flag words include them, and absent fields
      have their initial values. */
  function Norm(schema: Schema, v: Value): Value
    decreases v, 1
  {
    match v
    case List(vs) => List(seq(|vs|, i requires 0 <= i < |vs| => Norm(schema, vs[i])))
    case Obj(t, c, fields) =>
      if Known(schema, v) then Obj(t, c, seq(|fields|, k requires 0 <= k < |fields| => NormField(schema, v, k))) else v
    case _ => v
  }

  function NormField(schema: Schema, v: Value, k: nat): Value
    requires Known(schema, v) && k < |v.fields|
    decreases v, 0
  {
    var c := Comb(schema, v);
    var a := c.args[k];
    if IsTrueBit(schema, a) then Flag(Taken(schema, c, v.fields, k))
    else if !Taken(schema, c, v.fields, k) then Default(schema, a.ty)
    else if a.varNum >= 0 then Num(Own(schema, c, v.fields, k))
    else Norm(schema, v.fields[k])
  }

  /** Enough fuel for the nesting of the value. */
  ghost predicate DepthOk(v: Value, fuel: nat)
    decreases v
  {
    match v
    case List(vs) => forall i | 0 <= i < |vs| :: DepthOk(vs[i], fuel)
    case Obj(_, _, fields) => fuel > 0 && forall i | 0 <= i < |fields| :: DepthOk(fields[i], fuel - 1)
    case _ => true
  }
}
