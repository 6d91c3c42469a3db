/** JavaScript values and failures, as far as the renderers observe them. */
module Js {

  datatype Option<+T> = None | Some(value: T)

  /** An exception the source throws: a TypeError from reading a property of
      `undefined`/`null`, a ReferenceError from an undeclared variable, or an
      explicit `new Error(message)`. */
  datatype JsError = TypeError | ReferenceError | Error(message: string)

  /** The outcome of an operation that may throw. */
  datatype Result<+T> = Ok(value: T) | Err(error: JsError) {
    predicate IsFailure() { Err? }

    function PropagateFailure<U>(): Result<U>
      requires Err?
    {
      Err(error)
    }

    function Extract(): T
      requires Ok?
    {
      value
    }
  }

  /** A JSON-like JavaScript value. An object's own properties are a map, so a
      property that is present with the value `undefined` is distinct from a
      property that is absent. */
  datatype JsValue =
    | Undefined
    | Null
    | Bool(b: bool)
    | Num(n: real)
    | Str(s: string)
    | Arr(items: seq<JsValue>)
    | Obj(props: map<string, JsValue>)

  /** A JavaScript number produced by a division: finite, or one of
      Infinity, -Infinity, NaN (the divisor was 0). */
  datatype Number = Finite(r: real) | NonFinite

  /** `a / b` in JavaScript. */
  function Div(a: real, b: real): (q: Number)
    ensures q.Finite? <==> b != 0.0
    ensures q.Finite? ==> q.r * b == a
  {
    if b == 0.0 then NonFinite else Finite(a / b)
  }

  /** JavaScript truthiness (NaN is not represented). */
  predicate Truthy(v: JsValue)
  {
    match v
    case Undefined => false
    case Null => false
    case Bool(b) => b
    case Num(n) => n != 0.0
    case Str(s) => s != ""
    case Arr(_) => true
    case Obj(_) => true
  }

  /** Truthiness of an optional string property (`undefined` when absent). */
  predicate TruthyStr(p: Option<string>)
  {
    p.Some? && p.value != ""
  }

  /** `o[key]` for an object `o`: `undefined` when the property is absent. */
  function Get(o: map<string, JsValue>, key: string): (v: JsValue)
    ensures key !in o ==> v == Undefined
  {
    if key in o then o[key] else Undefined
  }

  /** `o.outer.inner`; `undefined` when `o.outer` is not an object. */
  function GetNested(o: map<string, JsValue>, outer: string, inner: string): JsValue
  {
    match Get(o, outer)
    case Obj(m) => Get(m, inner)
    case _ => Undefined
  }

  /** `a[i]` for a JavaScript array: `undefined` outside `0 <= i < a.length`,
      so a negative index never finds an element. */
  function Index<T>(a: seq<T>, i: int): (r: Option<T>)
    ensures r.Some? <==> 0 <= i < |a|
    ensures r.Some? ==> r.value == a[i]
  {
    if 0 <= i < |a| then Some(a[i]) else None
  }

  /** Statements run one after another, statement `i` yielding `f(i)`: the
      values in order, or the exception of the first statement that throws
      (the statements after it never run). */
  function InOrder<T>(n: nat, f: nat -> Result<T>): (r: Result<seq<T>>)
    ensures r.Ok? ==> |r.value| == n
  {
    if n == 0 then Ok([])
    else
      var earlier :- InOrder(n - 1, f);
      var x :- f(n - 1);
      Ok(earlier + [x])
  }

  /** Running one more statement after `n` that all succeeded. */
  lemma InOrderStep<T>(n: nat, f: nat -> Result<T>, earlier: seq<T>)
    requires InOrder(n, f) == Ok(earlier)
    ensures InOrder(n + 1, f) == (if f(n).Ok? then Ok(earlier + [f(n).value]) else Err(f(n).error))
  {
  }

  /** Once a statement throws, running more statements keeps that exception. */
  lemma {:induction false} FailureSticks<T>(n: nat, m: nat, f: nat -> Result<T>)
    requires n <= m && InOrder(n, f).Err?
    ensures InOrder(m, f) == InOrder(n, f)
    decreases m - n
  {
    if n < m {
      FailureSticks(n, m - 1, f);
      InOrderErr(m - 1, f);
    }
  }

  lemma InOrderErr<T>(n: nat, f: nat -> Result<T>)
    requires InOrder(n, f).Err?
    ensures InOrder(n + 1, f) == InOrder(n, f)
  {
  }

  /** The values are those of the statements, in order. */
  lemma {:induction false} InOrderIndex<T>(n: nat, f: nat -> Result<T>, k: nat)
    requires k < n && InOrder(n, f).Ok?
    ensures f(k) == Ok(InOrder(n, f).value[k])
  {
    var earlier := InOrder(n - 1, f);
    assert earlier.Ok?;
    InOrderStep(n - 1, f, earlier.value);
    if k < n - 1 {
      InOrderIndex(n - 1, f, k);
      assert InOrder(n, f).value[k] == earlier.value[k];
    }
  }

  /** When the statements do not all succeed, the exception is that of the
      first one that throws, all those before it having succeeded. */
  lemma {:induction false} FirstFailure<T>(n: nat, f: nat -> Result<T>) returns (k: nat)
    requires InOrder(n, f).Err?
    ensures k < n && InOrder(k, f).Ok? && f(k).Err?
    ensures InOrder(n, f) == Err(f(k).error)
  {
    if InOrder(n - 1, f).Err? {
      k := FirstFailure(n - 1, f);
      InOrderErr(n - 1, f);
    } else {
      k := n - 1;
      InOrderStep(k, f, InOrder(k, f).value);
    }
  }

  /** Statements that all succeed run to completion. */
  lemma {:induction false} AllSucceed<T>(n: nat, f: nat -> Result<T>)
    requires forall k: nat :: k < n ==> f(k).Ok?
    ensures InOrder(n, f).Ok?
  {
    if n > 0 {
      AllSucceed(n - 1, f);
      InOrderStep(n - 1, f, InOrder(n - 1, f).value);
    }
  }
}
