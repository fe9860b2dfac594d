/**
 * Script values: the value variants the interpreter core creates and
 * inspects.  Every Java value carries a mutable `boundVariable`, the name of
 * the variable it was read from or assigned to; here it is the `bound` field
 * shared by every constructor.  Numbers are abstracted to integers.
 */
module Values {

  datatype Option<T> = None | Some(value: T)

  /** What the core throws. */
  datatype Err =
    | ExprErr(msg: string)       // ExpressionException
    | InternalErr(msg: string)   // InternalExpressionException
    | Crash(msg: string)         // an unchecked Java exception the core does not catch
    | Unmodelled(msg: string)    // behaviour of a class this model leaves out
    | Diverges(msg: string)      // a Java loop that never ends
    | InvalidCallback            // InvalidCallbackException, the one checked exception

  /** A computation that either yields a `T` or throws. */
  datatype Res<T> = Ok(v: T) | Fail(err: Err)

  /** Sequence concatenation is associative (a step the solver finds slowly in a large context). */
  lemma AppendAssoc<T>(a: seq<T>, b: seq<T>, c: seq<T>)
    ensures (a + b) + c == a + (b + c)
  {
  }

  datatype Value =
      /** NullValue: a numeric value with payload 0 that is never truthy. */
    | Null(bound: Option<string>)
      /** BooleanValue: a numeric value with payload 1 or 0. */
    | Bool(b: bool, bound: Option<string>)
      /** NumericValue, abstracted to an integer. */
    | Num(n: int, bound: Option<string>)
    | Str(s: string, bound: Option<string>)
      /** ListValue; `ctor` marks the list constructor form `[a, b]` / `l(a, b)`. */
    | List(items: seq<Value>, ctor: bool, bound: Option<string>)
      /** GlobalValue: the `outer(name)` marker; its name is its bound variable. */
    | Global(bound: Option<string>)
      /** FunctionSignatureValue: `name(args..., outer(globals)...)` before `->`. */
    | Signature(fname: string, args: seq<string>, globals: seq<string>, bound: Option<string>)
  {
    /** Java `instanceof NumericValue`: NullValue and BooleanValue extend it. */
    predicate IsNumeric() {
      Null? || Bool? || Num?
    }

    /** The numeric payload of a numeric value. */
    function Payload(): int
      requires IsNumeric()
    {
      match this
      case Null(_) => 0
      case Bool(b, _) => if b then 1 else 0
      case Num(n, _) => n
    }
  }

  const ZERO: Value := Num(0, None)
  const TRUE: Value := Bool(true, None)
  const FALSE: Value := Bool(false, None)
  const NULL: Value := Null(None)

  const ASSIGNABLE_ERROR := "Variable has to be assignable"

  function SignatureError(name: string): string {
    "Function " + name + " is not defined yet"
  }

  /** `Value.reboundedTo(name)`: the same value under another variable name. */
  function Rebound(v: Value, name: string): (r: Value)
    ensures r.bound == Some(name)
  {
    WithBound(v, Some(name))
  }

  function WithBound(v: Value, b: Option<string>): (r: Value)
    ensures r.bound == b
  {
    match v
    case Null(_) => Null(b)
    case Bool(x, _) => Bool(x, b)
    case Num(n, _) => Num(n, b)
    case Str(s, _) => Str(s, b)
    case List(items, ctor, _) => List(items, ctor, b)
    case Global(_) => Global(b)
    case Signature(name, args, globals, _) => Signature(name, args, globals, b)
  }

  /** A value that was read from or assigned to a variable (`assertAssignable`). */
  predicate Assignable(v: Value) {
    v.bound.Some?
  }

  function AssertAssignable(v: Value): (r: Res<string>)
    ensures r.Ok? <==> Assignable(v)
    ensures r.Ok? ==> r.v == v.bound.value
  {
    if v.bound.Some? then Ok(v.bound.value) else Fail(InternalErr(ASSIGNABLE_ERROR))
  }

  /** `BooleanValue.of`: the TRUE or FALSE singleton. */
  function BoolOf(b: bool): (r: Value)
    ensures r.IsNumeric() && r.Payload() == (if b then 1 else 0)
    ensures Truthy(r) == Ok(b)
    ensures GetString(r) == Ok(if b then "true" else "false")
    ensures TypeString(r) == Ok("bool")
  {
    if b then TRUE else FALSE
  }

  /** `BooleanValue.hashCode`, which is `Boolean.hashCode`. */
  function BoolHash(b: bool): (h: int)
    ensures b ==> h == 1231
    ensures !b ==> h == 1237
  {
    if b then 1231 else 1237
  }

  /** `StringValue.of` and the StringValue constructor. */
  function StringOf(s: string): (r: Value)
    ensures GetString(r) == Ok(s)
    ensures Truthy(r) == Ok(|s| > 0)
    ensures TypeString(r) == Ok("string")
    ensures Clone(r) == Ok(r)
  {
    Str(s, None)
  }

  /** The GlobalValue constructor: only an assignable value can be marked `outer`. */
  function MakeGlobal(v: Value): (r: Res<Value>)
    ensures r.Ok? <==> Assignable(v)
    ensures r.Ok? ==> GetString(r.v) == Ok(v.bound.value)
    ensures r.Ok? ==> Truthy(r.v) == Ok(false)
    ensures r.Ok? ==> TypeString(r.v) == Ok("global variable")
  {
    match AssertAssignable(v)
    case Fail(e) => Fail(e)
    case Ok(name) => Ok(Global(Some(name)))
  }

  /** The FunctionSignatureValue constructor; every coercion of it throws. */
  function MakeSignature(name: string, args: seq<string>, globals: seq<string>): (r: Value)
    ensures r.Signature? && r.fname == name && r.args == args && r.globals == globals
    ensures GetString(r) == Fail(ExprErr(SignatureError(name)))
    ensures Truthy(r) == Fail(ExprErr(SignatureError(name)))
    ensures Clone(r) == Fail(ExprErr(SignatureError(name)))
    ensures TypeString(r) == Fail(InternalErr("Cannot query type of scarpet language component"))
  {
    Signature(name, args, globals, None)
  }

  /** `getBoolean`. */
  function Truthy(v: Value): Res<bool> {
    match v
    case Null(_) => Ok(false)
    case Bool(b, _) => Ok(b)
    case Num(n, _) => Ok(n != 0)
    case Str(s, _) => Ok(|s| > 0)
    case List(items, _, _) => Ok(|items| > 0)
    case Global(_) => Ok(false)
    case Signature(name, _, _, _) => Fail(ExprErr(SignatureError(name)))
  }

  /** `toLowerCase(Locale.ROOT)` on ASCII letters; other characters are kept. */
  function LowerAscii(s: string): (r: string)
    ensures |r| == |s|
    ensures forall i :: 0 <= i < |s| ==> r[i] == (if 'A' <= s[i] <= 'Z' then (s[i] as int + 32) as char else s[i])
  {
    seq(|s|, i requires 0 <= i < |s| => if 'A' <= s[i] <= 'Z' then (s[i] as int + 32) as char else s[i])
  }

  /** Lower-casing twice is lower-casing once. */
  lemma LowerAsciiIdempotent(s: string)
    ensures LowerAscii(LowerAscii(s)) == LowerAscii(s)
  {
  }

  /** `getTypeString`. */
  function TypeString(v: Value): Res<string> {
    match v
    case Null(_) => Ok("null")
    case Bool(_, _) => Ok("bool")
    case Num(_, _) => Ok("number")
    case Str(_, _) => Ok("string")
    case List(_, _, _) => Ok("list")
    case Global(_) => Ok("global variable")
    case Signature(_, _, _, _) => Fail(InternalErr("Cannot query type of scarpet language component"))
  }

  /** `clone`: a fresh value with the same content and no bound name. */
  function Clone(v: Value): Res<Value> {
    match v
    case Signature(name, _, _, _) => Fail(ExprErr(SignatureError(name)))
    case _ => Ok(WithBound(v, None))
  }

  /** `getString` (and `getPrettyString` for null, booleans and strings). */
  function GetString(v: Value): Res<string>
    decreases v
  {
    match v
    case Null(_) => Ok("null")
    case Bool(b, _) => Ok(if b then "true" else "false")
    case Num(n, _) => Ok(IntToString(n))
    case Str(s, _) => Ok(s)
    case List(items, _, _) =>
      (match JoinStrings(items)
       case Fail(e) => Fail(e)
       case Ok(body) => Ok("[" + body + "]"))
    case Global(b) => Ok(if b.Some? then b.value else "null")
    case Signature(name, _, _, _) => Fail(ExprErr(SignatureError(name)))
  }

  function JoinStrings(items: seq<Value>): Res<string>
    decreases items
  {
    if |items| == 0 then Ok("")
    else
      match GetString(items[0])
      case Fail(e) => Fail(e)
      case Ok(head) =>
        if |items| == 1 then Ok(head)
        else
          match JoinStrings(items[1..])
          case Fail(e) => Fail(e)
          case Ok(tail) => Ok(head + ", " + tail)
  }

  // ---------------------------------------------------------------------
  // Decimal rendering and parsing of the integer abstraction of numbers.

  function DigitChar(d: nat): char
    requires d < 10
  {
    "0123456789"[d]
  }

  predicate IsDigit(c: char) {
    '0' <= c <= '9'
  }

  function NatToString(n: nat): (s: string)
    ensures |s| > 0
    ensures forall i :: 0 <= i < |s| ==> IsDigit(s[i])
  {
    if n < 10 then [DigitChar(n)] else NatToString(n / 10) + [DigitChar(n % 10)]
  }

  function IntToString(n: int): string {
    if n < 0 then "-" + NatToString(-n) else NatToString(n)
  }

  function ParseDigits(s: string): nat
    requires forall i :: 0 <= i < |s| ==> IsDigit(s[i])
  {
    if |s| == 0 then 0
    else
      assert IsDigit(s[|s| - 1]);
      10 * ParseDigits(s[..|s| - 1]) + (s[|s| - 1] as int - '0' as int)
  }

  predicate AllDigits(s: string) {
    |s| > 0 && forall i :: 0 <= i < |s| ==> IsDigit(s[i])
  }

  /** Parses an optionally signed decimal integer; `None` plays NumberFormatException. */
  function ParseInt(s: string): (r: Option<int>)
    ensures r.Some? <==> (AllDigits(s) || (|s| > 1 && s[0] == '-' && AllDigits(s[1..])))
  {
    if AllDigits(s) then Some(ParseDigits(s))
    else if |s| > 1 && s[0] == '-' && AllDigits(s[1..]) then Some(0 - ParseDigits(s[1..]) as int)
    else None
  }

  lemma {:induction false} NatRoundTrip(n: nat)
    ensures ParseDigits(NatToString(n)) == n
    decreases n
  {
    var s := NatToString(n);
    if n >= 10 {
      NatRoundTrip(n / 10);
      assert s[..|s| - 1] == NatToString(n / 10);
    }
  }

  /** Rendering a number and reading it back gives the same number. */
  lemma IntRoundTrip(n: int)
    ensures ParseInt(IntToString(n)) == Some(n)
  {
    if n < 0 {
      var t := NatToString(-n);
      NatRoundTrip(-n);
      assert AllDigits(t);
      var s := "-" + t;
      assert s[1..] == t;
      assert !AllDigits(s) by { assert !IsDigit(s[0]); }
      assert ParseInt(s) == Some(0 - ParseDigits(t) as int);
    } else {
      NatRoundTrip(n);
      assert AllDigits(NatToString(n));
    }
  }

  // ---------------------------------------------------------------------
  // Ordering and equality.

  /** Java `String.compareTo`, reduced to its sign. */
  function StrCompare(a: string, b: string): (r: int)
    ensures -1 <= r <= 1
    ensures r == 0 <==> a == b
  {
    if |a| == 0 && |b| == 0 then 0
    else if |a| == 0 then -1
    else if |b| == 0 then 1
    else if a[0] < b[0] then -1
    else if a[0] > b[0] then 1
    else
      var r := StrCompare(a[1..], b[1..]);
      assert r == 0 ==> a == [a[0]] + a[1..] == [b[0]] + b[1..] == b;
      r
  }

  lemma {:induction false} StrCompareAntisymmetric(a: string, b: string)
    ensures StrCompare(a, b) == -StrCompare(b, a)
    decreases |a|
  {
    if |a| > 0 && |b| > 0 && a[0] == b[0] {
      StrCompareAntisymmetric(a[1..], b[1..]);
    }
  }

  function Sign(x: int): int {
    if x < 0 then -1 else if x > 0 then 1 else 0
  }

  /**
   * `compareTo`: NullValue sorts before everything else, numeric values
   * compare by payload, anything else by its string form.
   */
  function Compare(a: Value, b: Value): (r: Res<int>)
    ensures a.Null? ==> r == Ok(if b.Null? then 0 else -1)
    ensures !a.Null? && a.IsNumeric() && b.Null? ==> r == Ok(1)
    ensures a.IsNumeric() && b.IsNumeric() && !a.Null? && !b.Null? ==> r == Ok(Sign(a.Payload() - b.Payload()))
  {
    if a.Null? then Ok(if b.Null? then 0 else -1)
    else if a.IsNumeric() && b.Null? then Ok(1)
    else if a.IsNumeric() && b.IsNumeric() then Ok(Sign(a.Payload() - b.Payload()))
    else
      match GetString(a)
      case Fail(e) => Fail(e)
      case Ok(sa) =>
        match GetString(b)
        case Fail(e) => Fail(e)
        case Ok(sb) => Ok(StrCompare(sa, sb))
  }

  /** `equals`: NullValue equals only NullValue, numbers by payload, the rest by string form. */
  function Equal(a: Value, b: Value): (r: Res<bool>)
    ensures a.Null? || b.Null? ==> r == Ok(a.Null? && b.Null?)
  {
    if a.Null? || b.Null? then Ok(a.Null? && b.Null?)
    else if a.IsNumeric() && b.IsNumeric() then Ok(a.Payload() == b.Payload())
    else
      match GetString(a)
      case Fail(e) => Fail(e)
      case Ok(sa) =>
        match GetString(b)
        case Fail(e) => Fail(e)
        case Ok(sb) => Ok(sa == sb)
  }

  /** Null sorts first: nothing compares below it, and only null compares equal to it. */
  lemma NullSortsFirst(x: Value)
    ensures Compare(NULL, x).Ok? && Compare(NULL, x).v <= 0
    ensures Compare(NULL, x).v == 0 <==> x.Null?
    ensures x.IsNumeric() ==> Compare(x, NULL).Ok? && Compare(x, NULL).v == -Compare(NULL, x).v
  {
  }

  /** Ordering of numbers and of strings is antisymmetric. */
  lemma {:induction false} CompareAntisymmetric(a: Value, b: Value)
    requires Compare(a, b).Ok? && Compare(b, a).Ok?
    requires !a.Null? && !b.Null?
    ensures Compare(a, b).v == -Compare(b, a).v
  {
    if !(a.IsNumeric() && b.IsNumeric()) {
      StrCompareAntisymmetric(GetString(a).v, GetString(b).v);
    }
  }
}
