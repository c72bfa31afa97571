/**
 * The loosely typed records the extraction step hands to the analysers: parsed JSON,
 * i.e. Python `dict`s whose values are None, bool, int, float, str, list or dict.
 */
module Values {

  datatype Value =
    | Null
    | Bool(b: bool)
    | Int(i: int)
    | Num(x: real)
    | Str(s: string)
    | Arr(items: seq<Value>)
    | Obj(fields: map<string, Value>)

  type Dict = map<string, Value>

  /** Python truthiness: None, False, 0, 0.0, "", [] and {} are false. */
  predicate Truthy(v: Value)
  {
    match v
    case Null => false
    case Bool(b) => b
    case Int(i) => i != 0
    case Num(x) => x != 0.0
    case Str(s) => s != ""
    case Arr(items) => items != []
    case Obj(fields) => fields != map[]
  }

  /** `d.get(k)` */
  function Get(d: Dict, k: string): (r: Value)
    ensures k !in d ==> r == Null
    ensures k in d ==> r == d[k]
  {
    if k in d then d[k] else Null
  }

  /** `v in (None, "", [])` -- the values a fill-only merge treats as a hole. */
  predicate IsHole(v: Value)
  {
    v == Null || v == Str("") || v == Arr([])
  }

  /** `isinstance(v, (int, float))`; a Python bool is an int. */
  predicate IsNumber(v: Value)
  {
    v.Bool? || v.Int? || v.Num?
  }

  /** `float(v)` for a value accepted by `IsNumber`. */
  function AsReal(v: Value): real
    requires IsNumber(v)
  {
    match v
    case Bool(b) => if b then 1.0 else 0.0
    case Int(i) => i as real
    case Num(x) => x
  }

  /** `v is True` */
  predicate IsTrue(v: Value) { v == Bool(true) }

  /** `v is False` */
  predicate IsFalse(v: Value) { v == Bool(false) }

  /** `v == True`: also holds for the numbers equal to 1. */
  predicate EqTrue(v: Value)
  {
    v == Bool(true) || v == Int(1) || v == Num(1.0)
  }

  /** `v == False`: also holds for the numbers equal to 0. */
  predicate EqFalse(v: Value)
  {
    v == Bool(false) || v == Int(0) || v == Num(0.0)
  }

  function OptStr(v: Value): string
  {
    if v.Str? then v.s else ""
  }

  /**
   * Python `==` on parsed JSON values: numbers (bools included) compare by value, lists
   * element by element, dicts by key set and value.
   */
  predicate PyEq(a: Value, b: Value)
    decreases a
  {
    if IsNumber(a) && IsNumber(b) then AsReal(a) == AsReal(b)
    else
      match (a, b)
      case (Null, Null) => true
      case (Str(s), Str(t)) => s == t
      case (Arr(xs), Arr(ys)) => |xs| == |ys| && forall i | 0 <= i < |xs| :: PyEq(xs[i], ys[i])
      case (Obj(f), Obj(g)) => f.Keys == g.Keys && forall k | k in f :: PyEq(f[k], g[k])
      case _ => false
  }

  lemma {:induction false} PyEqRefl(a: Value)
    ensures PyEq(a, a)
    decreases a
  {
    match a
    case Arr(xs) =>
      forall i | 0 <= i < |xs|
        ensures PyEq(xs[i], xs[i])
      {
        PyEqRefl(xs[i]);
      }
    case Obj(f) =>
      forall k | k in f
        ensures PyEq(f[k], f[k])
      {
        PyEqRefl(f[k]);
      }
    case _ =>
  }

  /** Only None equals None. */
  lemma PyEqNull(a: Value)
    ensures PyEq(a, Null) <==> a == Null
  {
  }
}
