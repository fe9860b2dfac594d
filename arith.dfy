/**
 * The integer and ordering built-ins of `Arithmetic.apply`: `not`, `fact`,
 * `max`, `min` and `relu`.
 */
module Arith {
  import opened Values

  const TWO_64: int := 0x1_0000_0000_0000_0000
  const LONG_MIN: int := -0x8000_0000_0000_0000
  const LONG_MAX: int := 0x7FFF_FFFF_FFFF_FFFF
  const INT_MAX: int := 0x7FFF_FFFF

  const NUMERIC_OPERAND := "Operand has to be of a numeric type"

  /** A Java `long` result: two's-complement wrap-around to 64 bits. */
  function WrapLong(x: int): (r: int)
    ensures LONG_MIN <= r <= LONG_MAX
    ensures LONG_MIN <= x <= LONG_MAX ==> r == x
  {
    (x - LONG_MIN) % TWO_64 + LONG_MIN
  }

  /** Wrapping is blind to whole multiples of 2^64. */
  lemma WrapShift(x: int, m: int)
    ensures WrapLong(x + m * TWO_64) == WrapLong(x)
  {
    assert (x + m * TWO_64 - LONG_MIN) == (x - LONG_MIN) + m * TWO_64;
  }

  /** Multiplying wrapped values wraps like multiplying the exact values. */
  lemma WrapTimes(a: int, b: int)
    ensures WrapLong(WrapLong(a) * b) == WrapLong(a * b)
  {
    var q := (a - LONG_MIN) / TWO_64;
    assert WrapLong(a) == a - q * TWO_64;
    assert WrapLong(a) * b == a * b + (-q * b) * TWO_64;
    WrapShift(a * b, -q * b);
  }

  /** One step of the factorial loop, in wrapped arithmetic. */
  lemma FactStep(i: int, acc: int)
    requires i >= 1 && acc == WrapLong(Factorial(i - 1))
    ensures WrapLong(acc * i) == WrapLong(Factorial(i))
  {
    WrapTimes(Factorial(i - 1), i);
  }

  /** Java `long` multiplication. */
  function MulLong(acc: int, i: int): (r: int)
    requires i >= 1 && acc == WrapLong(Factorial(i - 1))
    ensures r == WrapLong(Factorial(i))
  {
    FactStep(i, acc);
    WrapLong(acc * i)
  }

  /** `NumericValue.asNumber(v)`: a numeric value's payload. */
  function AsNumber(v: Value): (r: Res<int>)
    ensures r.Ok? <==> v.IsNumeric()
    ensures r.Ok? ==> r.v == v.Payload()
  {
    if v.IsNumeric() then Ok(v.Payload()) else Fail(InternalErr(NUMERIC_OPERAND))
  }

  /** `not(x)`: FALSE for a truthy argument, TRUE otherwise. */
  function Not(v: Value): (r: Res<Value>)
    ensures r.Ok? <==> Truthy(v).Ok?
    ensures r.Ok? ==> r.v == BoolOf(!Truthy(v).v)
  {
    match Truthy(v)
    case Fail(e) => Fail(e)
    case Ok(b) => Ok(if b then FALSE else TRUE)
  }

  /** The mathematical product 1·2·…·n, and 1 for n < 1. */
  function Factorial(n: int): (r: int)
    ensures r >= 1
    decreases if n < 1 then 0 else n
  {
    if n < 1 then 1 else Factorial(n - 1) * n
  }

  /**
   * What `fact` computes: the wrapped factorial, or `None` when the loop
   * never ends.  The `int` counter passes the argument only when the
   * argument is below the largest `int`; at that value `i <= number` still
   * holds after the counter wraps to the smallest `int`.
   */
  function FactOf(number: int): (r: Option<int>)
    ensures r.None? <==> number >= INT_MAX
    ensures r.Some? ==> LONG_MIN <= r.value <= LONG_MAX
  {
    if number >= INT_MAX then None else Some(WrapLong(Factorial(number)))
  }

  /** The largest `int` is the first argument whose loop never ends. */
  lemma FactBoundary()
    ensures FactOf(INT_MAX) == None
    ensures FactOf(INT_MAX - 1).Some?
  {
  }

  /** Up to 20! the product fits a `long` and `fact` is exact; 21! wraps. */
  lemma FactExactUpTo20()
    ensures FactOf(20) == Some(2432902008176640000)
    ensures FactOf(21) == Some(-4249290049419214848)
    ensures FactOf(0) == Some(1) && FactOf(-3) == Some(1)
  {
    assert Factorial(1) == 1;
    assert Factorial(2) == 2;
    assert Factorial(3) == 6;
    assert Factorial(4) == 24;
    assert Factorial(5) == 120;
    assert Factorial(6) == 720;
    assert Factorial(7) == 5040;
    assert Factorial(8) == 40320;
    assert Factorial(9) == 362880;
    assert Factorial(10) == 3628800;
    assert Factorial(11) == 39916800;
    assert Factorial(12) == 479001600;
    assert Factorial(13) == 6227020800;
    assert Factorial(14) == 87178291200;
    assert Factorial(15) == 1307674368000;
    assert Factorial(16) == 20922789888000;
    assert Factorial(17) == 355687428096000;
    assert Factorial(18) == 6402373705728000;
    assert Factorial(19) == 121645100408832000;
    assert Factorial(20) == 2432902008176640000;
    assert Factorial(21) == 51090942171709440000;
  }

  /**
   * `fact`: the `long` product of 1..n with an `int` counter.  For n at or
   * beyond the largest `int` the counter wraps before passing n and the
   * Java loop never ends; that outcome is `None`.
   */
  method Fact(number: int) returns (r: Option<int>)
    ensures number >= INT_MAX <==> r.None?
    ensures r.Some? ==> r.value == WrapLong(Factorial(number))
    ensures r == FactOf(number)
  {
    if number >= INT_MAX {
      return None;
    }
    var factorial := 1;
    var i := 1;
    while i <= number
      invariant 1 <= i <= if number >= 1 then number + 1 else 1
      invariant factorial == WrapLong(Factorial(i - 1))
      decreases number - i
    {
      factorial := MulLong(factorial, i);
      i := i + 1;
    }
    return Some(factorial);
  }

  /**
   * The running-maximum loop of `max`: the index of the kept element, which
   * changes only when a later element compares strictly greater.
   */
  function MaxFrom(items: seq<Value>, i: nat, best: nat): (r: Res<nat>)
    requires best < i <= |items|
    ensures r.Ok? ==> best <= r.v < |items|
    decreases |items| - i
  {
    if i == |items| then Ok(best)
    else
      match Compare(items[i], items[best])
      case Fail(e) => Fail(e)
      case Ok(c) => MaxFrom(items, i + 1, if c > 0 then i else best)
  }

  /** The same loop with `<` for `min`. */
  function MinFrom(items: seq<Value>, i: nat, best: nat): (r: Res<nat>)
    requires best < i <= |items|
    ensures r.Ok? ==> best <= r.v < |items|
    decreases |items| - i
  {
    if i == |items| then Ok(best)
    else
      match Compare(items[i], items[best])
      case Fail(e) => Fail(e)
      case Ok(c) => MinFrom(items, i + 1, if c < 0 then i else best)
  }

  /** The items `max`/`min` range over: a single list argument stands for its items. */
  function Candidates(params: seq<Value>): (r: seq<Value>)
    ensures |params| == 1 && params[0].List? ==> r == params[0].items
    ensures !(|params| == 1 && params[0].List?) ==> r == params
  {
    if |params| == 1 && params[0].List? then params[0].items else params
  }

  /** `max`: the kept element, `None` for an empty list (Java returns `null`). */
  function MaxSpec(params: seq<Value>): Res<Option<Value>> {
    if |params| == 0 then Fail(InternalErr("max() requires at least one parameter"))
    else
      var items := Candidates(params);
      if |items| == 0 then Ok(None)
      else
        match MaxFrom(items, 1, 0)
        case Fail(e) => Fail(e)
        case Ok(j) => Ok(Some(items[j]))
  }

  function MinSpec(params: seq<Value>): Res<Option<Value>> {
    if |params| == 0 then Fail(InternalErr("min() requires at least one parameter"))
    else
      var items := Candidates(params);
      if |items| == 0 then Ok(None)
      else
        match MinFrom(items, 1, 0)
        case Fail(e) => Fail(e)
        case Ok(j) => Ok(Some(items[j]))
  }

  /**
   * No element after the one `max` keeps compares strictly greater than it.
   */
  lemma {:induction false} MaxFromKeepsMaximum(items: seq<Value>, i: nat, best: nat)
    requires best < i <= |items|
    requires forall m :: best < m < i ==> Compare(items[m], items[best]).Ok? && Compare(items[m], items[best]).v <= 0
    requires MaxFrom(items, i, best).Ok?
    ensures var j := MaxFrom(items, i, best).v;
            forall m :: j < m < |items| ==> Compare(items[m], items[j]).Ok? && Compare(items[m], items[j]).v <= 0
    decreases |items| - i
  {
    if i < |items| {
      var c := Compare(items[i], items[best]).v;
      MaxFromKeepsMaximum(items, i + 1, if c > 0 then i else best);
    }
  }

  /** The mirror image for `min`. */
  lemma {:induction false} MinFromKeepsMinimum(items: seq<Value>, i: nat, best: nat)
    requires best < i <= |items|
    requires forall m :: best < m < i ==> Compare(items[m], items[best]).Ok? && Compare(items[m], items[best]).v >= 0
    requires MinFrom(items, i, best).Ok?
    ensures var j := MinFrom(items, i, best).v;
            forall m :: j < m < |items| ==> Compare(items[m], items[j]).Ok? && Compare(items[m], items[j]).v >= 0
    decreases |items| - i
  {
    if i < |items| {
      var c := Compare(items[i], items[best]).v;
      MinFromKeepsMinimum(items, i + 1, if c < 0 then i else best);
    }
  }

  /** `max` of a single value, or of a one-element list, is that value. */
  lemma MaxOfOne(v: Value)
    ensures !v.List? ==> MaxSpec([v]) == Ok(Some(v))
    ensures MaxSpec([List([v], false, None)]) == Ok(Some(v))
  {
  }

  /** The loop of `max`, over the candidates, proved to keep `MaxFrom`'s element. */
  method Max(params: seq<Value>) returns (r: Res<Option<Value>>)
    ensures r == MaxSpec(params)
  {
    if |params| == 0 {
      return Fail(InternalErr("max() requires at least one parameter"));
    }
    var lv := params;
    if |params| == 1 && params[0].List? {
      lv := params[0].items;
    }
    var max: Option<Value> := None;
    ghost var best := 0;
    var i := 0;
    while i < |lv|
      invariant 0 <= i <= |lv|
      invariant i == 0 <==> max.None?
      invariant i > 0 ==> best < i && max == Some(lv[best])
      invariant i > 0 ==> MaxFrom(lv, i, best) == MaxFrom(lv, 1, 0)
    {
      var parameter := lv[i];
      if max.None? {
        max := Some(parameter);
        best := i;
      } else {
        var c := Compare(parameter, max.value);
        if c.Fail? {
          return Fail(c.err);
        }
        if c.v > 0 {
          max := Some(parameter);
          best := i;
        }
      }
      i := i + 1;
    }
    return Ok(max);
  }

  /** The loop of `min`. */
  method Min(params: seq<Value>) returns (r: Res<Option<Value>>)
    ensures r == MinSpec(params)
  {
    if |params| == 0 {
      return Fail(InternalErr("min() requires at least one parameter"));
    }
    var lv := params;
    if |params| == 1 && params[0].List? {
      lv := params[0].items;
    }
    var min: Option<Value> := None;
    ghost var best := 0;
    var i := 0;
    while i < |lv|
      invariant 0 <= i <= |lv|
      invariant i == 0 <==> min.None?
      invariant i > 0 ==> best < i && min == Some(lv[best])
      invariant i > 0 ==> MinFrom(lv, i, best) == MinFrom(lv, 1, 0)
    {
      var parameter := lv[i];
      if min.None? {
        min := Some(parameter);
        best := i;
      } else {
        var c := Compare(parameter, min.value);
        if c.Fail? {
          return Fail(c.err);
        }
        if c.v < 0 {
          min := Some(parameter);
          best := i;
        }
      }
      i := i + 1;
    }
    return Ok(min);
  }

  /** `relu`: ZERO for an argument that compares below ZERO, else the argument. */
  function Relu(v: Value): (r: Res<Value>)
    ensures r.Ok? <==> Compare(v, ZERO).Ok?
    ensures r.Ok? ==> (r.v == ZERO <==> Compare(v, ZERO).v < 0 || v == ZERO)
    ensures r.Ok? && r.v != ZERO ==> r.v == v
  {
    match Compare(v, ZERO)
    case Fail(e) => Fail(e)
    case Ok(c) => Ok(if c < 0 then ZERO else v)
  }

  /** Negative numbers become ZERO and other numbers stay as they are. */
  lemma ReluOfNumbers(n: int, b: Option<string>)
    ensures n < 0 ==> Relu(Num(n, b)) == Ok(ZERO)
    ensures n >= 0 ==> Relu(Num(n, b)) == Ok(Num(n, b))
  {
  }
}
