/** The few Python runtime notions the player's core relies on: optional
    values, exceptions as results, the values a JSON configuration file can
    hold, their truth value, Python's sequence and mapping subscripts, and
    a counting fact about finite sets that `len` comparisons rely on. */
module Python {

  datatype Option<+T> = None | Some(value: T)

  /** The built-in and application exception classes the core raises or lets
      escape. Only the class is modelled, not the message. */
  datatype Exc =
    | IndexError
    | ValueError
    | KeyError
    | TypeError
    | FileNotFoundError
    | HandlerError
    | PlayerError
    | LanguageError

  /** A call that returns a value or raises. */
  datatype Result<+T> = Ok(value: T) | Err(error: Exc)

  /** A call that returns None or raises. */
  datatype Outcome = Pass | Fail(error: Exc)

  /** The values `json.load` produces, with numbers restricted to integers. */
  datatype Json =
    | Null
    | Bool(b: bool)
    | Num(n: int)
    | Str(s: string)
    | Arr(items: seq<Json>)
    | Obj(fields: map<string, Json>)

  /** Python's `bool(j)` for a JSON-decoded value: None, False, 0, "", []
      and {} are false, everything else is true. */
  predicate Truthy(j: Json) {
    match j
    case Null => false
    case Bool(b) => b
    case Num(n) => n != 0
    case Str(s) => s != ""
    case Arr(items) => items != []
    case Obj(f) => f != map[]
  }

  /** Python's `==` on JSON-decoded values: `True == 1` and `False == 0`,
      lists compare element by element and dicts key by key; values of
      other different kinds are unequal. */
  predicate PyEq(a: Json, b: Json)
    decreases a, b
  {
    match a
    case Bool(x) => (b.Bool? && b.b == x) || (b.Num? && b.n == if x then 1 else 0)
    case Num(x) => (b.Num? && b.n == x) || (b.Bool? && x == if b.b then 1 else 0)
    case Arr(xs) => b.Arr? && |xs| == |b.items| && forall i :: 0 <= i < |xs| ==> PyEq(xs[i], b.items[i])
    case Obj(f) => b.Obj? && f.Keys == b.fields.Keys && forall k :: k in f ==> PyEq(f[k], b.fields[k])
    case _ => a == b
  }

  /** Python's `==` on two dicts: the same keys, and equal values under
      each key. */
  predicate DictEq(f: map<string, Json>, g: map<string, Json>) {
    PyEq(Obj(f), Obj(g))
  }

  /** Every value equals itself. */
  lemma {:induction false} PyEqReflexive(a: Json)
    ensures PyEq(a, a)
    decreases a
  {
    match a
    case Arr(xs) =>
      forall i | 0 <= i < |xs|
        ensures PyEq(xs[i], xs[i])
      {
        PyEqReflexive(xs[i]);
      }
    case Obj(f) =>
      forall k | k in f
        ensures PyEq(f[k], f[k])
      {
        PyEqReflexive(f[k]);
      }
    case _ =>
  }

  /** Equality does not depend on the side. */
  lemma {:induction false} PyEqSymmetric(a: Json, b: Json)
    requires PyEq(a, b)
    ensures PyEq(b, a)
    decreases a
  {
    match a
    case Arr(xs) =>
      forall i | 0 <= i < |xs|
        ensures PyEq(b.items[i], xs[i])
      {
        PyEqSymmetric(xs[i], b.items[i]);
      }
    case Obj(f) =>
      forall k | k in b.fields
        ensures PyEq(b.fields[k], f[k])
      {
        PyEqSymmetric(f[k], b.fields[k]);
      }
    case _ =>
  }

  /** `s[i]` on a tuple, list or str: a negative index counts from the end,
      anything outside `-len(s) .. len(s) - 1` raises IndexError. */
  function At<T>(s: seq<T>, i: int): Result<T> {
    if 0 <= i < |s| then Ok(s[i])
    else if -|s| <= i < 0 then Ok(s[|s| + i])
    else Err(IndexError)
  }

  /** `j[key]` on a JSON-decoded value: a dict looks the key up (KeyError when
      absent), a list, a string or a number refuses a string subscript
      (TypeError). */
  function Subscript(j: Json, key: string): Result<Json> {
    match j
    case Obj(f) => if key in f then Ok(f[key]) else Err(KeyError)
    case _ => Err(TypeError)
  }

  /** A subset is no larger than its superset, and one of the same size is
      the superset itself. */
  lemma SubsetCardinality<T>(a: set<T>, b: set<T>)
    requires a <= b
    ensures |a| <= |b|
    ensures |a| == |b| ==> a == b
  {
    assert b == a + (b - a);
    assert a * (b - a) == {};
    if |a| == |b| {
      assert |b - a| == 0;
    }
  }
}
