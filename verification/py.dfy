/** The few Python run-time notions the request handler relies on: the values
    a decoded JSON body can hold, their truthiness, the `in`, `[...]` and `+`
    operators applied to them, and the exceptions those operators raise. */
module Py {
  import opened Strings

  datatype Option<+T> = None | Some(value: T)

  /** The result of a Python call that either returns a value or raises. */
  datatype Outcome<+T, +E> = Ok(value: T) | Raised(error: E)

  /** A value produced by decoding a JSON document (`json.loads`). */
  datatype Value =
    | VNone
    | VBool(b: bool)
    | VInt(i: int)
    | VFloat(f: real)
    | VStr(s: string)
    | VList(items: seq<Value>)
    | VDict(entries: map<string, Value>)

  /** The Python type of a value, as a `TypeError` names it. */
  datatype Kind = NoneType | BoolType | IntType | FloatType | StrType | ListType | DictType

  function KindOf(v: Value): (k: Kind)
    ensures k == StrType <==> v.VStr?
    ensures k == DictType <==> v.VDict?
  {
    match v
    case VNone => NoneType
    case VBool(_) => BoolType
    case VInt(_) => IntType
    case VFloat(_) => FloatType
    case VStr(_) => StrType
    case VList(_) => ListType
    case VDict(_) => DictType
  }

  /** The `TypeError`s and `KeyError`s the interpreter itself raises. */
  datatype Fault =
    | NotIterable(operand: Kind)          // `k in v` where `v` supports no membership test
    | NotSubscriptable(operand: Kind)     // `v[k]` where `v` supports no indexing
    | IndexedByStr(operand: Kind)         // `v[k]` with a `str` key on a `list` or `str`
    | MissingKey(key: string)             // `d[k]` where `k` is not a key of the dict `d`
    | ConcatNonStr(operand: Kind)         // `prefix + v` where `v` is not a `str`

  /** An exception: one given by its `str(e)` text (raised by a collaborator) or one
      raised by the interpreter. */
  datatype Exception = Message(text: string) | Builtin(fault: Fault)

  /** Python truthiness of a value: `None`, `False`, zero and empty containers
      are false, and every other value is true. */
  predicate Truthy(v: Value)
    ensures Truthy(v) <==> v !in {VNone, VBool(false), VInt(0), VFloat(0.0), VStr(""), VList([]), VDict(map[])}
  {
    match v
    case VNone => false
    case VBool(b) => b
    case VInt(i) => i != 0
    case VFloat(f) => f != 0.0
    case VStr(s) => |s| > 0
    case VList(a) => |a| > 0
    case VDict(m) => |m| > 0
  }

  /** A dict with at least one key is truthy. */
  lemma KeyedDictIsTruthy(m: map<string, Value>, k: string)
    requires k in m
    ensures Truthy(VDict(m))
  {
    assert k in m.Keys;
    assert |m.Keys| > 0;
  }

  /** Python's `k in v` for a `str` key `k`: substring test on a `str`,
      element equality on a `list`, key membership on a `dict`, and a
      `TypeError` on anything else. */
  function In(k: string, v: Value): (r: Outcome<bool, Exception>)
    ensures r.Raised? <==> !(v.VStr? || v.VList? || v.VDict?)
    ensures v.VStr? ==> r == Ok(Occurs(v.s, k))
    ensures v.VList? ==> r == Ok(exists j :: 0 <= j < |v.items| && v.items[j] == VStr(k))
    ensures v.VDict? ==> r == Ok(k in v.entries)
    ensures r.Raised? ==> r.error == Builtin(NotIterable(KindOf(v)))
  {
    match v
    case VStr(s) => Ok(Contains(s, k))
    case VList(a) => Ok(VStr(k) in a)
    case VDict(m) => Ok(k in m)
    case _ => Raised(Builtin(NotIterable(KindOf(v))))
  }

  /** Python's `v[k]` for a `str` key `k`. */
  function Subscript(v: Value, k: string): (r: Outcome<Value, Exception>)
    ensures r.Ok? <==> v.VDict? && k in v.entries
    ensures r.Ok? ==> r.value == v.entries[k]
    ensures v.VList? || v.VStr? ==> r == Raised(Builtin(IndexedByStr(KindOf(v))))
  {
    match v
    case VDict(m) => if k in m then Ok(m[k]) else Raised(Builtin(MissingKey(k)))
    case VList(_) => Raised(Builtin(IndexedByStr(ListType)))
    case VStr(_) => Raised(Builtin(IndexedByStr(StrType)))
    case _ => Raised(Builtin(NotSubscriptable(KindOf(v))))
  }

  /** Python's `prefix + v` for a `str` prefix: only another `str` can follow. */
  function ConcatStr(prefix: string, v: Value): (r: Outcome<string, Exception>)
    ensures r.Ok? <==> v.VStr?
    ensures r.Ok? ==> |r.value| == |prefix| + |v.s| && HasPrefix(r.value, prefix) && r.value[|prefix|..] == v.s
    ensures r.Raised? ==> r.error == Builtin(ConcatNonStr(KindOf(v)))
  {
    match v
    case VStr(s) => PrefixThenRest(prefix, s); Ok(prefix + s)
    case _ => Raised(Builtin(ConcatNonStr(KindOf(v))))
  }
}
