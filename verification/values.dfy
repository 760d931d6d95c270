/** Python values as the SDK handles them: decoded JSON without floats, plus
    None, with Python's truthiness, dict-key equality and the `next(...)`
    first-match idiom. */
module Values {
  import opened Wrappers

  datatype Value =
    | Null
    | Bool(b: bool)
    | Int(i: int)
    | Str(s: string)
    | List(items: seq<Value>)
    | Dict(fields: map<string, Value>)

  /** Python truthiness: None, False, 0, "", [] and {} are falsy. */
  predicate Truthy(v: Value) {
    match v
    case Null => false
    case Bool(b) => b
    case Int(i) => i != 0
    case Str(s) => |s| > 0
    case List(items) => |items| > 0
    case Dict(fields) => |fields| > 0
  }

  /** `d.get(key)`: the value under `key`, or None when the key is absent. */
  function Get(d: map<string, Value>, key: string): Value {
    if key in d then d[key] else Null
  }

  /** Python's `a or b`. */
  function Or(a: Value, b: Value): Value {
    if Truthy(a) then a else b
  }

  /** Values that can be dict keys: lists and dicts are unhashable, and
      using one as a key raises `TypeError`. */
  predicate Hashable(v: Value) {
    !v.List? && !v.Dict?
  }

  /** The dict key a hashable value stands for. `True == 1` and
      `False == 0` hash alike in Python, so a bool and the equal int are
      one key. */
  function KeyOf(v: Value): Value
    requires Hashable(v)
  {
    match v
    case Bool(b) => Int(if b then 1 else 0)
    case _ => v
  }

  /** Python's `==` on hashable values, case by case. */
  predicate PyEquals(a: Value, b: Value)
    requires Hashable(a) && Hashable(b)
  {
    match (a, b)
    case (Null, Null) => true
    case (Bool(x), Bool(y)) => x == y
    case (Int(x), Int(y)) => x == y
    case (Bool(x), Int(y)) => y == (if x then 1 else 0)
    case (Int(x), Bool(y)) => x == (if y then 1 else 0)
    case (Str(x), Str(y)) => x == y
    case _ => false
  }

  /** Two hashable values find the same dict entry exactly when Python
      considers them equal. */
  lemma KeyOfIsPythonEquality(a: Value, b: Value)
    requires Hashable(a) && Hashable(b)
    ensures KeyOf(a) == KeyOf(b) <==> PyEquals(a, b)
  {
    match (a, b)
    case (Bool(x), Bool(y)) =>
      assert KeyOf(a) == KeyOf(b) ==> x == y;
    case _ =>
  }

  /** `next((x for x in s if p(x)), None)`, as the position of that first x. */
  function FirstWhere<T>(s: seq<T>, p: T -> bool): (r: Option<nat>)
    ensures r.Some? ==> r.value < |s| && p(s[r.value])
    ensures r.Some? ==> forall j :: 0 <= j < r.value ==> !p(s[j])
    ensures r.None? ==> forall j :: 0 <= j < |s| ==> !p(s[j])
  {
    if |s| == 0 then None
    else if p(s[0]) then Some(0)
    else
      match FirstWhere(s[1..], p)
      case None => None
      case Some(k) => Some(k + 1)
  }
}
