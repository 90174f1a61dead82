/**
 * Runtime values of the TypeScript interpreter (runtime/values.ts): the seven
 * value types, the value shapes that carry them, and the helpers that build
 * each kind of value.
 *
 * The interpreter's environment (runtime/env.ts) and the host functions that
 * native values wrap are not part of this model; a value refers to them
 * through opaque handles. Numbers are integers here, not IEEE doubles.
 */
module Values {
  import opened Wrappers
  import opened Ast

  /** The `ValueType` union. */
  datatype ValueType = NullType | NumberType | BooleanType | StringType | ObjectType | NativeFnType | FnType

  /** The string each value type is written as in a value's `type` field. */
  function TypeName(t: ValueType): string
  {
    match t
    case NullType => "null"
    case NumberType => "number"
    case BooleanType => "boolean"
    case StringType => "string"
    case ObjectType => "object"
    case NativeFnType => "nativefn"
    case FnType => "fn"
  }

  /** The value type a `type` string names, if any. */
  function TypeNamed(s: string): (t: Option<ValueType>)
    ensures t.Some? ==> TypeName(t.value) == s
  {
    match s
    case "null" => Some(NullType)
    case "number" => Some(NumberType)
    case "boolean" => Some(BooleanType)
    case "string" => Some(StringType)
    case "object" => Some(ObjectType)
    case "nativefn" => Some(NativeFnType)
    case "fn" => Some(FnType)
    case _ => None
  }

  /** Every value type, in the order the union lists them. */
  const AllTypes: seq<ValueType> := [NullType, NumberType, BooleanType, StringType, ObjectType, NativeFnType, FnType]

  /**
   * There are exactly seven value types and seven distinct names for them:
   * every type is listed once, and every name reads back as its type.
   */
  lemma SevenValueTypes()
    ensures |AllTypes| == 7
    ensures forall t: ValueType :: t in AllTypes
    ensures forall i, j :: 0 <= i < j < |AllTypes| ==> TypeName(AllTypes[i]) != TypeName(AllTypes[j])
    ensures forall t: ValueType :: TypeNamed(TypeName(t)) == Some(t)
  {
    forall t: ValueType
      ensures t in AllTypes
    {
      match t
      case NullType => assert AllTypes[0] == t;
      case NumberType => assert AllTypes[1] == t;
      case BooleanType => assert AllTypes[2] == t;
      case StringType => assert AllTypes[3] == t;
      case ObjectType => assert AllTypes[4] == t;
      case NativeFnType => assert AllTypes[5] == t;
      case FnType => assert AllTypes[6] == t;
    }
  }

  /** Hence two value types with the same name are the same type. */
  lemma TypeNameInjective(a: ValueType, b: ValueType)
    ensures TypeName(a) == TypeName(b) <==> a == b
  {
    SevenValueTypes();
    assert TypeNamed(TypeName(a)) == Some(a) && TypeNamed(TypeName(b)) == Some(b);
  }

  /** The only text a null value carries. */
  type NullText = s: string | s == "null" witness "null"

  /** A reference to an interpreter environment (runtime/env.ts). */
  datatype EnvRef = EnvRef(id: nat)

  /** A host function of type `FnCall`, referred to by an opaque handle. */
  datatype FnCallRef = FnCallRef(id: nat)

  /**
   * A runtime value, one constructor per value interface. A function value's
   * `name` and `body` are optional because `FN` leaves them unset.
   */
  datatype RuntimeValue =
    | NullValue(nullText: NullText)
    | NumberValue(number: int)
    | BooleanValue(boolean: bool)
    | StringValue(text: string)
    | ObjectValue(properties: map<string, RuntimeValue>)
    | NativeFnValue(call: FnCallRef)
    | FnValue(name: Option<string>, params: seq<string>, env: EnvRef, body: Option<seq<Stmt>>)

  /** A value's `type` field. */
  function TypeOf(v: RuntimeValue): ValueType
  {
    match v
    case NullValue(_) => NullType
    case NumberValue(_) => NumberType
    case BooleanValue(_) => BooleanType
    case StringValue(_) => StringType
    case ObjectValue(_) => ObjectType
    case NativeFnValue(_) => NativeFnType
    case FnValue(_, _, _, _) => FnType
  }

  /** Each value's `type` field names the interface the value has, and no other. */
  lemma TypeFieldMatchesShape(v: RuntimeValue)
    ensures TypeName(TypeOf(v)) == "null" <==> v.NullValue?
    ensures TypeName(TypeOf(v)) == "number" <==> v.NumberValue?
    ensures TypeName(TypeOf(v)) == "boolean" <==> v.BooleanValue?
    ensures TypeName(TypeOf(v)) == "string" <==> v.StringValue?
    ensures TypeName(TypeOf(v)) == "object" <==> v.ObjectValue?
    ensures TypeName(TypeOf(v)) == "nativefn" <==> v.NativeFnValue?
    ensures TypeName(TypeOf(v)) == "fn" <==> v.FnValue?
  {
    SevenValueTypes();
  }

  /** `FN`: a function value with exactly the given parameters and environment. */
  function MakeFn(params: seq<string>, env: EnvRef): (v: RuntimeValue)
    ensures TypeName(TypeOf(v)) == "fn"
    ensures v.FnValue? && v.params == params && v.env == env
    ensures v.name.None? && v.body.None?
  {
    FnValue(None, params, env, None)
  }

  /** `NATIVEFN`: a native function value wrapping `call`. */
  function MakeNativeFn(call: FnCallRef): (v: RuntimeValue)
    ensures TypeName(TypeOf(v)) == "nativefn"
    ensures v.NativeFnValue? && v.call == call
  {
    NativeFnValue(call)
  }

  /** `STRING`. */
  function MakeString(s: string): (v: RuntimeValue)
    ensures TypeName(TypeOf(v)) == "string"
    ensures v.StringValue? && v.text == s
  {
    StringValue(s)
  }

  /** `NUMBER`. */
  function MakeNumber(n: int): (v: RuntimeValue)
    ensures TypeName(TypeOf(v)) == "number"
    ensures v.NumberValue? && v.number == n
  {
    NumberValue(n)
  }

  /** `BOOL`. */
  function MakeBool(b: bool): (v: RuntimeValue)
    ensures TypeName(TypeOf(v)) == "boolean"
    ensures v.BooleanValue? && v.boolean == b
  {
    BooleanValue(b)
  }

  /** `NULL`: the null value. */
  const NullConst: RuntimeValue := NullValue("null")

  /** `NULL` has type "null" and text "null", and is the only value of type "null". */
  lemma NullIsUnique(v: RuntimeValue)
    ensures TypeName(TypeOf(NullConst)) == "null" && NullConst.nullText == "null"
    ensures TypeOf(v) == NullType <==> v == NullConst
  {
  }

  /** The helpers lose nothing: equal results come from equal arguments. */
  lemma HelpersAreInjective(p: seq<string>, q: seq<string>, e: EnvRef, f: EnvRef, c: FnCallRef, d: FnCallRef, s: string, t: string, m: int, n: int, a: bool, b: bool)
    ensures MakeFn(p, e) == MakeFn(q, f) <==> p == q && e == f
    ensures MakeNativeFn(c) == MakeNativeFn(d) <==> c == d
    ensures MakeString(s) == MakeString(t) <==> s == t
    ensures MakeNumber(m) == MakeNumber(n) <==> m == n
    ensures MakeBool(a) == MakeBool(b) <==> a == b
  {
  }

  /** Values built by different helpers are never equal: their tags differ. */
  lemma HelpersAreDisjoint(p: seq<string>, e: EnvRef, c: FnCallRef, s: string, n: int, b: bool)
    ensures var made := [MakeFn(p, e), MakeNativeFn(c), MakeString(s), MakeNumber(n), NullConst, MakeBool(b)];
      forall i, j :: 0 <= i < j < |made| ==> TypeOf(made[i]) != TypeOf(made[j])
  {
  }
}
