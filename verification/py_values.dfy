/**
 * The Python values the runtime handles, reduced to the distinctions its code
 * draws: runtime type (`type(x) is type(y)`), truthiness (`if x:`),
 * `callable(x)`, iterability, and the `==` operator.
 */
module PyValues {

  datatype Option<+T> = None | Some(value: T)

  /** The three kinds of mapping the tree model tells apart. */
  datatype DictKind =
    | PlainDict     // exactly `dict`
    | VdomDictKind  // `VdomDict`, a subclass of `dict`
    | OtherMapping  // any other `Mapping` that is not a `dict`

  /**
   * A Python value. Objects whose `==` is identity (generators, functions,
   * components, other objects) carry an `id`; two model values denote the same
   * object exactly when they are equal.
   */
  datatype Value =
    | NoneV
    | BoolV(b: bool)
    | IntV(i: int)
    | StrV(s: string)
    | ScriptV(code: string)                     // `InlineJavaScript`, a subclass of `str`
    | TupleV(items: seq<Value>)
    | ListV(items: seq<Value>)
    | IterV(id: nat, items: seq<Value>)         // a one-shot iterator: `__iter__` but no `__len__`
    | DictV(kind: DictKind, fields: map<string, Value>)
    | FuncV(id: nat, source: Option<nat>, closure: seq<Value>)
      // a `FunctionType`, with its closure cell contents; `source` is `Some`
      // for a lambda or local function and stands for its qualified name
      // together with its bytecode
    | HandlerV(fn: Value)                       // an `EventHandler` wrapping a function
    | ComponentV(id: nat, key: Value)           // a component instance; `key` is `NoneV` when unset
    | ObjectV(cls: nat, id: nat, callable: bool) // any other object of class `cls`

  /** What `type(x)` tells apart. */
  datatype PyType =
    | NoneType
    | BoolType
    | IntType
    | StrType
    | ScriptType
    | TupleType
    | ListType
    | GeneratorType
    | MappingType(kind: DictKind)
    | FunctionType
    | HandlerType
    | ComponentType
    | ClassType(cls: nat)

  /** A call into code the model cannot see: `callee(*args)`. */
  type Caller = (Value, seq<Value>) -> Value

  function TypeOf(v: Value): PyType
  {
    match v
    case NoneV => NoneType
    case BoolV(_) => BoolType
    case IntV(_) => IntType
    case StrV(_) => StrType
    case ScriptV(_) => ScriptType
    case TupleV(_) => TupleType
    case ListV(_) => ListType
    case IterV(_, _) => GeneratorType
    case DictV(kind, _) => MappingType(kind)
    case FuncV(_, _, _) => FunctionType
    case HandlerV(_) => HandlerType
    case ComponentV(_, _) => ComponentType
    case ObjectV(cls, _, _) => ClassType(cls)
  }

  /** `callable(v)` */
  predicate IsCallable(v: Value)
  {
    v.FuncV? || (v.ObjectV? && v.callable)
  }

  /** `isinstance(v, str)`: `InlineJavaScript` is a `str` too. */
  predicate IsStr(v: Value)
  {
    v.StrV? || v.ScriptV?
  }

  function Text(v: Value): string
    requires IsStr(v)
  {
    if v.StrV? then v.s else v.code
  }

  /** `bool` is a subclass of `int`, so both take part in numeric `==`. */
  predicate IsNumber(v: Value)
  {
    v.BoolV? || v.IntV?
  }

  function Number(v: Value): int
    requires IsNumber(v)
  {
    if v.IntV? then v.i else if v.b then 1 else 0
  }

  /** `bool(v)`: Python truthiness. */
  predicate Truthy(v: Value)
  {
    match v
    case NoneV => false
    case BoolV(b) => b
    case IntV(i) => i != 0
    case StrV(s) => s != ""
    case ScriptV(code) => code != ""
    case TupleV(items) => items != []
    case ListV(items) => items != []
    case DictV(_, fields) => fields != map[]
    case _ => true
  }

  /**
   * Python's `x == y` on these values: numbers compare by value across `bool`
   * and `int`, strings by text across `str` and its subclass, tuples and lists
   * element-wise (a tuple never equals a list), mappings by their entries,
   * event handlers by their function, everything else by identity.
   */
  predicate PyEq(x: Value, y: Value)
  {
    if IsNumber(x) || IsNumber(y) then
      IsNumber(x) && IsNumber(y) && Number(x) == Number(y)
    else if IsStr(x) || IsStr(y) then
      IsStr(x) && IsStr(y) && Text(x) == Text(y)
    else
      match x
      case TupleV(a) => y.TupleV? && |a| == |y.items| && forall i :: 0 <= i < |a| ==> PyEq(a[i], y.items[i])
      case ListV(a) => y.ListV? && |a| == |y.items| && forall i :: 0 <= i < |a| ==> PyEq(a[i], y.items[i])
      case DictV(_, f) => y.DictV? && f.Keys == y.fields.Keys && forall k :: k in f ==> PyEq(f[k], y.fields[k])
      case HandlerV(f) => y.HandlerV? && PyEq(f, y.fn)
      case _ => x == y
  }

  /** Every value equals itself (floats, and so NaN, are not modelled). */
  lemma {:induction false} PyEqReflexive(x: Value)
    ensures PyEq(x, x)
  {
    match x
    case TupleV(a) =>
      forall i | 0 <= i < |a| ensures PyEq(a[i], a[i]) { PyEqReflexive(a[i]); }
    case ListV(a) =>
      forall i | 0 <= i < |a| ensures PyEq(a[i], a[i]) { PyEqReflexive(a[i]); }
    case DictV(_, f) =>
      forall k | k in f ensures PyEq(f[k], f[k]) { PyEqReflexive(f[k]); }
    case HandlerV(f) =>
      PyEqReflexive(f);
    case _ =>
  }

  lemma {:induction false} PyEqSymmetric(x: Value, y: Value)
    requires PyEq(x, y)
    ensures PyEq(y, x)
  {
    if !IsNumber(x) && !IsStr(x) {
      match x
      case TupleV(a) =>
        forall i | 0 <= i < |a| ensures PyEq(y.items[i], a[i]) { PyEqSymmetric(a[i], y.items[i]); }
      case ListV(a) =>
        forall i | 0 <= i < |a| ensures PyEq(y.items[i], a[i]) { PyEqSymmetric(a[i], y.items[i]); }
      case DictV(_, f) =>
        forall k | k in y.fields ensures PyEq(y.fields[k], f[k]) { PyEqSymmetric(f[k], y.fields[k]); }
      case HandlerV(f) =>
        PyEqSymmetric(f, y.fn);
      case _ =>
    }
  }
}
