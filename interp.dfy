/**
 * Evaluation of expression trees (`LazyValue.evalValue` on the thunks
 * `Expression.getAST` builds).  A thunk runs against a Context and may change
 * it; here evaluation takes a `Frame` and returns the `Frame` it leaves,
 * together with a `Flow`: a value, or one of the Java exceptions that unwind
 * (`ReturnStatement`, `ThrowStatement`, `ExitStatement`, errors).  `fuel`
 * bounds the nesting depth of evaluation; running out of it is the
 * StackOverflowError that deep recursion raises.
 */
module Interp {
  import opened Values
  import opened Tokens
  import opened Registry
  import opened Ast
  import opened Scope
  import Arith
  import SysFuncs

  /** The expected-type hints of `Context` (`Context.NONE` … `Context.LOCALIZATION`). */
  datatype Expect = NONE | VOID | BOOLEAN | NUMBER | STRING | CONTAINER | ITERATOR | SIGNATURE | LOCALIZATION

  datatype Flow =
    | Val(v: Value)
    | Ret(v: Value)      // ReturnStatement
    | Thrown(v: Value)   // ThrowStatement
    | Exited(v: Value)   // ExitStatement
    | Error(err: Err)

  /** The outcome of evaluating a thunk, and the state of the Context afterwards. */
  datatype Run = Run(flow: Flow, frame: Frame)

  /** Argument values evaluated left to right, or the run that stopped the evaluation. */
  datatype Evaluated = Evaluated(vals: seq<Value>, frame: Frame) | Halted(run: Run)

  const STACK_OVERFLOW := "StackOverflowError"
  const INDEX_OUT_OF_BOUNDS := "IndexOutOfBoundsException"
  const NULL_POINTER := "NullPointerException"
  const OUTER_ERROR := "outer scoping of variables is only possible in function signatures"

  function Stop(f: Frame, e: Err): (r: Run)
    ensures r.flow == Error(e) && r.frame == f
  {
    Run(Error(e), f)
  }

  /**
   * The adaptor of a lazy operator or function: an InternalExpressionException
   * thrown while it runs becomes an ExpressionException with the same text
   * (placed at the token, which `Messages` renders).
   */
  function Located(r: Run): (l: Run)
    ensures l.frame == r.frame
    ensures r.flow.Error? && r.flow.err.InternalErr? ==> l.flow == Error(ExprErr(r.flow.err.msg))
    ensures !(r.flow.Error? && r.flow.err.InternalErr?) ==> l == r
  {
    if r.flow.Error? && r.flow.err.InternalErr? then Run(Error(ExprErr(r.flow.err.msg)), r.frame) else r
  }

  /** The value of a `Res`, or the error it holds, in the given frame. */
  function Yield(r: Res<Value>, f: Frame): (run: Run)
    ensures run.frame == f
    ensures r.Ok? ==> run.flow == Val(r.v)
    ensures r.Fail? ==> run.flow == Error(r.err)
  {
    match r
    case Ok(v) => Run(Val(v), f)
    case Fail(e) => Run(Error(e), f)
  }

  // ---------------------------------------------------------------------
  // Literals

  function HexDigitValue(c: char): (d: int)
    ensures 0 <= d < 16
  {
    if '0' <= c <= '9' then c as int - '0' as int
    else if 'a' <= c <= 'f' then c as int - 'a' as int + 10
    else if 'A' <= c <= 'F' then c as int - 'A' as int + 10
    else 0
  }

  predicate IsHex(c: char) {
    ('0' <= c <= '9') || ('a' <= c <= 'f') || ('A' <= c <= 'F')
  }

  function HexDigits(s: string): (n: nat)
    decreases |s|
  {
    if |s| == 0 then 0 else HexDigits(s[..|s| - 1]) * 16 + HexDigitValue(s[|s| - 1])
  }

  /** `new BigInteger(surface.substring(2), 16)`: empty or non-hex digits throw NumberFormatException. */
  function HexValue(surface: string): (r: Res<int>)
    ensures r.Ok? ==> r.v >= 0
  {
    if |surface| < 2 then Fail(Crash("StringIndexOutOfBoundsException"))
    else
      var digits := surface[2..];
      if |digits| == 0 || exists i :: 0 <= i < |digits| && !IsHex(digits[i]) then Fail(Crash("NumberFormatException"))
      else Ok(HexDigits(digits))
  }

  lemma HexExamples()
    ensures HexValue("0xff") == Ok(255)
    ensures HexValue("0x") == Fail(Crash("NumberFormatException"))
  {
    assert "0xff"[2..] == "ff";
    assert "ff"[..1] == "f" && "f"[..0] == "";
    assert HexDigits("f") == 15;
    assert HexDigits("ff") == 255;
    assert "0x"[2..] == "";
  }

  /** `new NumericValue(surface)` for the integer numerals this model covers (a sign included). */
  function NumberLiteral(surface: string): (r: Res<Value>)
    ensures ParseInt(surface).Some? ==> r == Ok(Num(ParseInt(surface).value, None))
  {
    match ParseInt(surface)
    case Some(n) => Ok(Num(n, None))
    case None => Fail(Unmodelled("non-integer numeral " + surface))
  }

  // ---------------------------------------------------------------------
  // Evaluation

  /** `LazyValue.evalValue(c, t)` on the thunk of `e`. */
  function Eval(e: Expr, t: Expect, f: Frame, fuel: nat): Run
    decreases fuel, 0
  {
    if fuel == 0 then Stop(f, Crash(STACK_OVERFLOW)) else EvalNode(e, t, f, fuel - 1)
  }

  /** The thunk `getAST` builds for each kind of token. */
  function EvalNode(e: Expr, t: Expect, f: Frame, k: nat): Run
    decreases k, 9
  {
    match e
    case NumLit(surface, _) => Yield(NumberLiteral(surface), f)
    case HexLit(surface, _) =>
      (match HexValue(surface)
       case Fail(err) => Stop(f, err)
       case Ok(n) => Run(Val(Num(n, None)), f))
    case StrLit(text) => Run(Val(Str(text, None)), f)
    case Var(name, _) =>
      var f1 := AutoVivify(f, name);
      EvalBinding(GetVariable(f1, name), f1, k)
    case Unary(op, operand, _) => EvalUnary(op, operand, f, k)
    case Binary(op, left, right, tok) => EvalBinary(op, left, right, tok, f, k)
    case Call(fn, args, tok) => EvalCall(fn, args, tok, t, f, k)
    case Thunk(b) => EvalBinding(b, f, k)
  }

  /** An unbound name is first bound to zero under that name. */
  function AutoVivify(f: Frame, name: string): (r: Frame)
    ensures IsAVariable(r, name)
    ensures IsAVariable(f, name) ==> r == f
    ensures !IsAVariable(f, name) ==> GetVariable(r, name) == Fixed(Rebound(ZERO, name))
  {
    if IsAVariable(f, name) then f
    else
      var r := SetVariable(f, name, Fixed(Rebound(ZERO, name)));
      SetThenGet(f, name, Fixed(Rebound(ZERO, name)));
      r
  }

  /** Evaluating what a variable holds: a value, a `->` body run in place, or `null`. */
  function EvalBinding(b: Binding, f: Frame, k: nat): Run
    decreases k, 1
  {
    match b
    case Fixed(v) => Run(Val(v), f)
    case Code(body) => Eval(body, NONE, f, k)
    case Missing => Stop(f, Crash(NULL_POINTER))
  }

  /** Arguments evaluated left to right with no expected type. */
  function EvalArgs(args: seq<Expr>, i: nat, acc: seq<Value>, f: Frame, k: nat): (r: Evaluated)
    requires i <= |args|
    ensures r.Evaluated? ==> |r.vals| == |acc| + |args| - i && r.vals[..|acc|] == acc
    decreases k, 3, |args| - i
  {
    if i == |args| then Evaluated(acc, f)
    else
      var a := Eval(args[i], NONE, f, k);
      if !a.flow.Val? then Halted(a) else EvalArgs(args, i + 1, acc + [a.flow.v], a.frame, k)
  }

  function EvalUnary(op: UnOp, operand: Expr, f: Frame, k: nat): Run
    decreases k, 8
  {
    match op
    case LogicalNot =>
      var a := Eval(operand, BOOLEAN, f, k);
      Located(if !a.flow.Val? then a else Yield(Arith.Not(a.flow.v), a.frame))
    case _ =>
      var a := Eval(operand, NONE, f, k);
      if !a.flow.Val? then a
      else
        match Arith.AsNumber(a.flow.v)
        case Fail(e) => Stop(a.frame, e)
        case Ok(n) => Run(Val(Num(if op == Negate then -n else n, None)), a.frame)
  }

  /** The eager binary operators, applied to their evaluated operands. */
  function BinaryValue(op: BinOp, v1: Value, v2: Value): (r: Res<Value>)
  {
    match op
    case Greater => (match Compare(v1, v2) case Fail(e) => Fail(e) case Ok(c) => Ok(BoolOf(c > 0)))
    case GreaterEq => (match Compare(v1, v2) case Fail(e) => Fail(e) case Ok(c) => Ok(BoolOf(c >= 0)))
    case Less => (match Compare(v1, v2) case Fail(e) => Fail(e) case Ok(c) => Ok(BoolOf(c < 0)))
    case LessEq => (match Compare(v1, v2) case Fail(e) => Fail(e) case Ok(c) => Ok(BoolOf(c <= 0)))
    case Equals => (match Equal(v1, v2) case Fail(e) => Fail(e) case Ok(b) => Ok(BoolOf(b)))
    case NotEquals => (match Equal(v1, v2) case Fail(e) => Fail(e) case Ok(b) => Ok(BoolOf(!b)))
    case Plus => Add(v1, v2)
    case Minus =>
      if v1.IsNumeric() && v2.IsNumeric() then Ok(Num(v1.Payload() - v2.Payload(), None))
      else Fail(Unmodelled("Value.subtract"))
    case Times =>
      if v1.IsNumeric() && v2.IsNumeric() then Ok(Num(v1.Payload() * v2.Payload(), None))
      else Fail(Unmodelled("Value.multiply"))
    case OtherBinary(surface) => Fail(Unmodelled("operator " + surface))
    case _ => Fail(Unmodelled("lazy operator"))
  }

  /** `Value.add` on numbers; other operands are not part of this model. */
  function Add(v1: Value, v2: Value): (r: Res<Value>)
    ensures v1.IsNumeric() && v2.IsNumeric() ==> r == Ok(Num(v1.Payload() + v2.Payload(), None))
  {
    if v1.IsNumeric() && v2.IsNumeric() then Ok(Num(v1.Payload() + v2.Payload(), None))
    else Fail(Unmodelled("Value.add"))
  }

  function EvalBinary(op: BinOp, left: Expr, right: Expr, tok: Token, f: Frame, k: nat): Run
    decreases k, 8
  {
    match op
    case And =>
      var a := Eval(left, BOOLEAN, f, k);
      Located(if !a.flow.Val? then a else ShortCircuit(false, a.flow.v, right, a.frame, k))
    case Or =>
      var a := Eval(left, BOOLEAN, f, k);
      Located(if !a.flow.Val? then a else ShortCircuit(true, a.flow.v, right, a.frame, k))
    case Then =>
      // the left operand runs inside the adaptor; the right one is handed back and run after it
      var a := Located(Eval(left, VOID, f, k));
      if !a.flow.Val? then a else Eval(right, NONE, a.frame, k)
    case Def =>
      var a := Eval(left, SIGNATURE, f, k);
      Located(if !a.flow.Val? then a else Define(a.flow.v, right, tok, a.frame))
    case Assign | AddAssign | Swap =>
      var a := Eval(left, NONE, f, k);
      if !a.flow.Val? then Located(a)
      else
        var b := Eval(right, NONE, a.frame, k);
        Located(if !b.flow.Val? then b else Assignment(op, a.flow.v, b.flow.v, b.frame))
    case _ =>
      var a := Eval(left, NONE, f, k);
      if !a.flow.Val? then a
      else
        var b := Eval(right, NONE, a.frame, k);
        if !b.flow.Val? then b else Yield(BinaryValue(op, a.flow.v, b.flow.v), b.frame)
  }

  /**
   * `&&` (`onTruthy` false) and `||` (`onTruthy` true) after the left
   * operand: the left value when it decides, else the right value if truthy,
   * else FALSE.
   */
  function ShortCircuit(onTruthy: bool, v1: Value, right: Expr, f: Frame, k: nat): Run
    decreases k, 7
  {
    match Truthy(v1)
    case Fail(e) => Stop(f, e)
    case Ok(b1) =>
      if b1 == onTruthy then Run(Val(v1), f)
      else
        var b := Eval(right, BOOLEAN, f, k);
        if !b.flow.Val? then b
        else
          match Truthy(b.flow.v)
          case Fail(e) => Stop(b.frame, e)
          case Ok(b2) => Run(Val(if b2 then b.flow.v else FALSE), b.frame)
  }

  // ---------------------------------------------------------------------
  // Assignment operators

  /** `assertAssignable` on each value, giving their variable names. */
  function Names(vs: seq<Value>): (r: Res<seq<string>>)
    ensures r.Ok? <==> forall i :: 0 <= i < |vs| ==> Assignable(vs[i])
    ensures r.Ok? ==> |r.v| == |vs| && forall i :: 0 <= i < |vs| ==> r.v[i] == vs[i].bound.value
    decreases |vs|
  {
    if |vs| == 0 then Ok([])
    else
      match AssertAssignable(vs[0])
      case Fail(e) => Fail(e)
      case Ok(n) =>
        match Names(vs[1..])
        case Fail(e) =>
          assert exists i :: 0 <= i < |vs[1..]| && !Assignable(vs[1..][i]);
          Fail(e)
        case Ok(rest) => Ok([n] + rest)
  }

  /** `[a, b, …] = list`: each name in turn bound to the matching value, renamed to it. */
  function BindAll(names: seq<string>, vals: seq<Value>, f: Frame): (r: Frame)
    requires |names| == |vals|
    decreases |names|
  {
    if |names| == 0 then f
    else BindAll(names[1..], vals[1..], SetVariable(f, names[0], Fixed(Rebound(vals[0], names[0]))))
  }

  /** `[a, b, …] += list`: each name in turn bound to its value plus the matching value. */
  function AddAll(names: seq<string>, lvals: seq<Value>, rvals: seq<Value>, f: Frame): (r: Res<Frame>)
    requires |names| == |lvals| == |rvals|
    decreases |names|
  {
    if |names| == 0 then Ok(f)
    else
      match Add(lvals[0], rvals[0])
      case Fail(e) => Fail(e)
      case Ok(sum) => AddAll(names[1..], lvals[1..], rvals[1..], SetVariable(f, names[0], Fixed(WithBound(sum, Some(names[0])))))
  }

  /** `[a, …] <> [b, …]`: each pair exchanged in turn. */
  function SwapAll(lnames: seq<string>, rnames: seq<string>, lvals: seq<Value>, rvals: seq<Value>, f: Frame): (r: Frame)
    requires |lnames| == |rnames| == |lvals| == |rvals|
    decreases |lnames|
  {
    if |lnames| == 0 then f
    else
      var f1 := SetVariable(SetVariable(f, lnames[0], Fixed(rvals[0])), rnames[0], Fixed(lvals[0]));
      SwapAll(lnames[1..], rnames[1..], lvals[1..], rvals[1..], f1)
  }

  function UnpackCheck(ll: seq<Value>, rl: seq<Value>): (r: Res<()>)
    ensures r.Ok? <==> |ll| == |rl|
  {
    if |ll| < |rl| then Fail(InternalErr("Too many values to unpack"))
    else if |ll| > |rl| then Fail(InternalErr("Too few values to unpack"))
    else Ok(())
  }

  /** `=`, `+=` and `<>` once both operands are evaluated. */
  function Assignment(op: BinOp, v1: Value, v2: Value, f: Frame): Run
  {
    match op
    case Assign =>
      if v1.List? && v1.ctor && v2.List? then
        match UnpackCheck(v1.items, v2.items)
        case Fail(e) => Stop(f, e)
        case Ok(_) =>
          match Names(v1.items)
          case Fail(e) => Stop(f, e)
          case Ok(names) => Run(Val(TRUE), BindAll(names, v2.items, f))
      else
        (match AssertAssignable(v1)
         case Fail(e) => Stop(f, e)
         case Ok(name) => Run(Val(Rebound(v2, name)), SetVariable(f, name, Fixed(Rebound(v2, name)))))
    case AddAssign =>
      if v1.List? && v1.ctor && v2.List? then
        match UnpackCheck(v1.items, v2.items)
        case Fail(e) => Stop(f, e)
        case Ok(_) =>
          match Names(v1.items)
          case Fail(e) => Stop(f, e)
          case Ok(names) =>
            match AddAll(names, v1.items, v2.items, f)
            case Fail(e) => Stop(f, e)
            case Ok(f1) => Run(Val(TRUE), f1)
      else
        (match AssertAssignable(v1)
         case Fail(e) => Stop(f, e)
         case Ok(name) =>
           if v1.List? then
             var appended := List(v1.items + [v2], v1.ctor, v1.bound);
             Run(Val(appended), SetVariable(f, name, Fixed(appended)))
           else
             match Add(v1, v2)
             case Fail(e) => Stop(f, e)
             case Ok(sum) => Run(Val(WithBound(sum, Some(name))), SetVariable(f, name, Fixed(WithBound(sum, Some(name))))))
    case _ =>
      if v1.List? && v1.ctor && v2.List? && v2.ctor then
        match UnpackCheck(v1.items, v2.items)
        case Fail(e) => Stop(f, e)
        case Ok(_) =>
          match Names(v1.items)
          case Fail(e) => Stop(f, e)
          case Ok(lnames) =>
            match Names(v2.items)
            case Fail(e) => Stop(f, e)
            case Ok(rnames) => Run(Val(TRUE), SwapAll(lnames, rnames, v1.items, v2.items, f))
      else
        match AssertAssignable(v1)
        case Fail(e) => Stop(f, e)
        case Ok(lname) =>
          match AssertAssignable(v2)
          case Fail(e) => Stop(f, e)
          case Ok(rname) =>
            var lval := Rebound(v2, lname);
            var rval := Rebound(v1, rname);
            Run(Val(lval), SetVariable(SetVariable(f, lname, Fixed(lval)), rname, Fixed(rval)))
  }

  // ---------------------------------------------------------------------
  // Function definitions and calls

  /** `Expression.addContextFunction`: a user function under the lower-cased name, unless it masks a built-in. */
  function AddContextFunction(f: Frame, name: string, args: seq<string>, globals: seq<string>, body: Expr, tok: Token): (r: Res<Frame>)
    ensures r.Fail? <==> IsBuiltin(LowerAscii(name))
    ensures r.Fail? ==> r.err == ExprErr("Function " + LowerAscii(name) + " would mask a built-in function")
    ensures r.Ok? ==> r.v.locals == f.locals && r.v.host.globals == f.host.globals
    ensures r.Ok? ==> r.v.host.functions == f.host.functions[LowerAscii(name) := Udf(args, globals, body, LowerAscii(name), tok)]
  {
    var n := LowerAscii(name);
    if IsBuiltin(n) then Fail(ExprErr("Function " + n + " would mask a built-in function"))
    else Ok(f.(host := f.host.(functions := f.host.functions[n := MakeUdf(args, globals, body, n, tok)])))
  }

  /** `->` once its left side is evaluated as a signature: define a function, or bind the body to the variable. */
  function Define(v1: Value, body: Expr, tok: Token, f: Frame): Run {
    if v1.Signature? then
      match AddContextFunction(f, v1.fname, v1.args, v1.globals, body, tok)
      case Fail(e) => Stop(f, e)
      case Ok(f1) => Run(Val(Str("OK", None)), f1)
    else
      match AssertAssignable(v1)
      case Fail(e) => Stop(f, e)
      case Ok(name) => Run(Val(Str("OK", None)), SetVariable(f, name, Code(body)))
  }

  /** A caller's and a callee's locals on the host both use. */
  datatype Frames = Frames(caller: map<string, Binding>, callee: map<string, Binding>, host: Tables)
  {
    function Caller(): Frame { Frame(caller, host) }
    function Callee(): Frame { Frame(callee, host) }
  }

  /** What the caller hands an outer name: its binding, or zero renamed to the name when it has none. */
  function OuterBinding(f: Frame, g: string): (b: Binding)
    ensures b != Missing
    ensures GetVariable(f, g) != Missing ==> b == GetVariable(f, g)
  {
    var lv := GetVariable(f, g);
    if lv.Missing? then Fixed(Rebound(ZERO, g)) else lv
  }

  /** The outer names copied into the callee, one after the other. */
  function CopyIn(globals: seq<string>, s: Frames): (r: Frames)
    ensures r.caller == s.caller
    decreases |globals|
  {
    if |globals| == 0 then s
    else
      var g := globals[0];
      var next := SetVariable(s.Callee(), g, OuterBinding(s.Caller(), g));
      CopyIn(globals[1..], Frames(s.caller, next.locals, next.host))
  }

  /** The outer names copied back to the caller, where the callee holds a binding. */
  function CopyBack(globals: seq<string>, s: Frames): (r: Frames)
    ensures r.callee == s.callee
    decreases |globals|
  {
    if |globals| == 0 then s
    else
      var g := globals[0];
      var lv := GetVariable(s.Callee(), g);
      if lv.Missing? then CopyBack(globals[1..], s)
      else
        var next := SetVariable(s.Caller(), g, lv);
        CopyBack(globals[1..], Frames(next.locals, s.callee, next.host))
  }

  /** The frames after binding arguments, or the run that stopped the binding. */
  datatype Binding2 = Bound(s: Frames) | Unbound(run: Run)

  /** Each argument evaluated in the caller and bound, renamed, in the callee. */
  function BindArgs(names: seq<string>, params: seq<Expr>, i: nat, s: Frames, k: nat): Binding2
    requires |names| == |params| && i <= |params|
    decreases k, 5, |params| - i
  {
    if i == |params| then Bound(s)
    else
      var a := Eval(params[i], NONE, s.Caller(), k);
      if !a.flow.Val? then Unbound(a)
      else
        var next := SetVariable(Frame(s.callee, a.frame.host), names[i], Fixed(Rebound(a.flow.v, names[i])));
        BindArgs(names, params, i + 1, Frames(a.frame.locals, next.locals, next.host), k)
  }

  /** Java's `List.toString` of names. */
  function ShowNames(names: seq<string>): string {
    "[" + JoinNames(names) + "]"
  }

  function JoinNames(names: seq<string>): string
    decreases |names|
  {
    if |names| == 0 then ""
    else if |names| == 1 then names[0]
    else names[0] + ", " + JoinNames(names[1..])
  }

  function ArityError(u: Udf, given: nat): string {
    "Incorrect number of arguments for function " + u.name + ". Should be " + IntToString(|u.args|)
    + ", not " + IntToString(given) + " like " + ShowNames(u.args)
  }

  /**
   * `UserDefinedFunction.lazyEval`: a fresh frame on the same host, outer
   * names copied in, arguments evaluated in the caller and bound, the body
   * run, a Return absorbed, and the outer names copied back unless an Exit
   * or an error unwinds.
   */
  function CallUdf(u: Udf, params: seq<Expr>, t: Expect, f: Frame, k: nat): Run
    decreases k, 6
  {
    if |u.args| != |params| then Stop(f, ExprErr(ArityError(u, |params|)))
    else
      var s0 := CopyIn(u.globals, Frames(f.locals, map[], f.host));
      match BindArgs(u.args, params, 0, s0, k)
      case Unbound(run) => run
      case Bound(s1) =>
        var b := Eval(u.body, t, s1.Callee(), k);
        var after := Frames(s1.caller, b.frame.locals, b.frame.host);
        match b.flow
        case Exited(v) => Run(Exited(v), after.Caller())
        case Error(e) => Run(Error(if e.InternalErr? then ExprErr(e.msg) else e), after.Caller())
        case Thrown(v) => Run(Thrown(v), CopyBack(u.globals, after).Caller())
        case Ret(v) => Run(Val(v), CopyBack(u.globals, after).Caller())
        case Val(v) => Run(Val(v), CopyBack(u.globals, after).Caller())
  }

  /** The `.` handler: a user function call, or a signature when the expected type is SIGNATURE. */
  function CallDot(args: seq<Expr>, t: Expect, f: Frame, k: nat): Run
    decreases k, 7
  {
    if |args| == 0 then Stop(f, Crash(INDEX_OUT_OF_BOUNDS))
    else
      var n := Eval(args[|args| - 1], NONE, f, k);
      if !n.flow.Val? then n
      else
        match GetString(n.flow.v)
        case Fail(e) => Stop(n.frame, e)
        case Ok(name) =>
          if t != SIGNATURE then
            if name !in n.frame.host.functions then Stop(n.frame, InternalErr(SignatureError(name)))
            else CallUdf(n.frame.host.functions[name], args[..|args| - 1], t, n.frame, k)
          else SignatureOf(name, args, 0, [], [], n.frame, k)
  }

  /** The signature's names: each argument must be a bound variable; `outer(...)` ones go to the globals. */
  function SignatureOf(name: string, args: seq<Expr>, i: nat, positional: seq<string>, globals: seq<string>, f: Frame, k: nat): Run
    requires 0 < |args| && i <= |args| - 1
    decreases k, 3, |args| - i
  {
    if i == |args| - 1 then Run(Val(MakeSignature(name, positional, globals)), f)
    else
      var a := Eval(args[i], LOCALIZATION, f, k);
      if !a.flow.Val? then a
      else
        var v := a.flow.v;
        if v.bound.None? then
          match GetString(v)
          case Fail(e) => Stop(a.frame, e)
          case Ok(s) => Stop(a.frame, InternalErr("Only variables can be used in function signature, not  " + s))
        else if v.Global? then SignatureOf(name, args, i + 1, positional, globals + [v.bound.value], a.frame, k)
        else SignatureOf(name, args, i + 1, positional + [v.bound.value], globals, a.frame, k)
  }

  // ---------------------------------------------------------------------
  // Control flow

  /** `try(expr, catch)`. */
  function TryCall(args: seq<Expr>, t: Expect, f: Frame, k: nat): Run
    decreases k, 7
  {
    if |args| == 0 then Stop(f, InternalErr("try needs at least an expression block"))
    else
      var a := Eval(args[0], t, f, k);
      if !a.flow.Thrown? then a
      else if |args| == 1 then Run(Val(NULL), a.frame)
      else
        var saved := GetVariable(a.frame, "_");
        var b := Eval(args[1], t, SetVariable(a.frame, "_", Fixed(Rebound(a.flow.v, "_"))), k);
        if !b.flow.Val? then b else Run(b.flow, SetVariable(b.frame, "_", saved))
  }

  /** `if(c1, e1, c2, e2, …, default)` from the condition at `i`. */
  function IfFrom(args: seq<Expr>, i: nat, f: Frame, k: nat): Run
    decreases k, 3, |args| - i
  {
    if i + 1 < |args| then
      var c := Eval(args[i], BOOLEAN, f, k);
      if !c.flow.Val? then c
      else
        match Truthy(c.flow.v)
        case Fail(e) => Stop(c.frame, e)
        case Ok(b) => if b then Eval(args[i + 1], NONE, c.frame, k) else IfFrom(args, i + 2, c.frame, k)
    else if |args| % 2 == 1 then Eval(args[|args| - 1], NONE, f, k)
    else Run(Val(ZERO), f)
  }

  // ---------------------------------------------------------------------
  // Loops: the state each iteration leaves is the state the next one starts from.

  /** `while`: iterations `i` up to `limit` while the condition holds; `_` is the iteration count. */
  function WhileFrom(cond: Expr, body: Expr, limit: int, i: int, last: Value, f: Frame, k: nat): Run
    decreases k, 2, if i < limit then limit - i else 0
  {
    if i >= limit then Run(Val(last), f)
    else
      var c := Eval(cond, BOOLEAN, f, k);
      if !c.flow.Val? then c
      else
        match Truthy(c.flow.v)
        case Fail(e) => Stop(c.frame, e)
        case Ok(false) => Run(Val(last), c.frame)
        case Ok(true) =>
          var b := Eval(body, NONE, c.frame, k);
          if !b.flow.Val? then b
          else WhileFrom(cond, body, limit, i + 1, b.flow.v, SetVariable(b.frame, "_", Fixed(Num(i + 1, Some("_")))), k)
  }

  /** `loop`: `_` from `i` to `limit - 1`, stopping after an iteration whose exit condition holds. */
  function LoopFrom(body: Expr, cond: Option<Expr>, limit: int, i: int, last: Value, f: Frame, k: nat): Run
    decreases k, 2, if i < limit then limit - i else 0
  {
    if i >= limit then Run(Val(last), f)
    else
      var b := Eval(body, NONE, SetVariable(f, "_", Fixed(Num(i, Some("_")))), k);
      if !b.flow.Val? then b
      else if cond.None? then LoopFrom(body, cond, limit, i + 1, b.flow.v, b.frame, k)
      else
        var c := Eval(cond.value, NONE, b.frame, k);
        if !c.flow.Val? then c
        else
          match Truthy(c.flow.v)
          case Fail(e) => Stop(c.frame, e)
          case Ok(true) => Run(Val(b.flow.v), c.frame)
          case Ok(false) => LoopFrom(body, cond, limit, i + 1, b.flow.v, c.frame, k)
  }

  /** An element loop's bindings for element `i`: `_` is the element, `_i` its index. */
  function BindElement(f: Frame, item: Value, i: int): (r: Frame)
    ensures r.host == f.host
  {
    SetVariable(SetVariable(f, "_", Fixed(WithBound(item, Some("_")))), "_i", Fixed(Num(i, Some("_i"))))
  }

  /** The exit condition of `map`, `filter` and `for` after an element: whether to stop. */
  function ExitCondition(cond: Option<Expr>, f: Frame, k: nat): (r: (Run, bool))
    ensures r.0.flow.Val? || !r.1
    decreases k, 1
  {
    if cond.None? then (Run(Val(NULL), f), false)
    else
      var c := Eval(cond.value, NONE, f, k);
      if !c.flow.Val? then (c, false)
      else
        match Truthy(c.flow.v)
        case Fail(e) => (Stop(c.frame, e), false)
        case Ok(b) => (Run(Val(NULL), c.frame), b)
  }

  /** `map` from element `i`: one result per visited element. */
  function MapFrom(items: seq<Value>, expr: Expr, cond: Option<Expr>, i: nat, acc: seq<Value>, f: Frame, k: nat): Run
    requires i <= |items|
    decreases k, 2, |items| - i
  {
    if i == |items| then Run(Val(List(acc, false, None)), f)
    else
      var b := Eval(expr, NONE, BindElement(f, items[i], i), k);
      if !b.flow.Val? then b
      else
        var (c, stop) := ExitCondition(cond, b.frame, k);
        if !c.flow.Val? then c
        else if stop then Run(Val(List(acc + [b.flow.v], false, None)), c.frame)
        else MapFrom(items, expr, cond, i + 1, acc + [b.flow.v], c.frame, k)
  }

  /** `filter` from element `i`: the visited elements whose expression is truthy. */
  function FilterFrom(items: seq<Value>, expr: Expr, cond: Option<Expr>, i: nat, acc: seq<Value>, f: Frame, k: nat): Run
    requires i <= |items|
    decreases k, 2, |items| - i
  {
    if i == |items| then Run(Val(List(acc, false, None)), f)
    else
      var b := Eval(expr, NONE, BindElement(f, items[i], i), k);
      if !b.flow.Val? then b
      else
        match Truthy(b.flow.v)
        case Fail(e) => Stop(b.frame, e)
        case Ok(keep) =>
          var acc' := if keep then acc + [items[i]] else acc;
          var (c, stop) := ExitCondition(cond, b.frame, k);
          if !c.flow.Val? then c
          else if stop then Run(Val(List(acc', false, None)), c.frame)
          else FilterFrom(items, expr, cond, i + 1, acc', c.frame, k)
  }

  /** `first` from element `i`: the earliest element whose expression is truthy, else NULL. */
  function FirstFrom(items: seq<Value>, expr: Expr, i: nat, f: Frame, k: nat): Run
    requires i <= |items|
    decreases k, 2, |items| - i
  {
    if i == |items| then Run(Val(NULL), f)
    else
      var b := Eval(expr, NONE, BindElement(f, items[i], i), k);
      if !b.flow.Val? then b
      else
        match Truthy(b.flow.v)
        case Fail(e) => Stop(b.frame, e)
        case Ok(true) => Run(Val(items[i]), b.frame)
        case Ok(false) => FirstFrom(items, expr, i + 1, b.frame, k)
  }

  /** `all` from element `i`: FALSE at the first falsy expression, else TRUE. */
  function AllFrom(items: seq<Value>, expr: Expr, i: nat, f: Frame, k: nat): Run
    requires i <= |items|
    decreases k, 2, |items| - i
  {
    if i == |items| then Run(Val(TRUE), f)
    else
      var b := Eval(expr, NONE, BindElement(f, items[i], i), k);
      if !b.flow.Val? then b
      else
        match Truthy(b.flow.v)
        case Fail(e) => Stop(b.frame, e)
        case Ok(false) => Run(Val(FALSE), b.frame)
        case Ok(true) => AllFrom(items, expr, i + 1, b.frame, k)
  }

  /** `for` from element `i`: the number of visited elements whose expression is truthy. */
  function ForFrom(items: seq<Value>, expr: Expr, cond: Option<Expr>, i: nat, count: nat, f: Frame, k: nat): Run
    requires i <= |items|
    decreases k, 2, |items| - i
  {
    if i == |items| then Run(Val(Num(count, None)), f)
    else
      var b := Eval(expr, NONE, BindElement(f, items[i], i), k);
      if !b.flow.Val? then b
      else
        match Truthy(b.flow.v)
        case Fail(e) => Stop(b.frame, e)
        case Ok(hit) =>
          var count' := if hit then count + 1 else count;
          var (c, stop) := ExitCondition(cond, b.frame, k);
          if !c.flow.Val? then c
          else if stop then Run(Val(Num(count', None)), c.frame)
          else ForFrom(items, expr, cond, i + 1, count', c.frame, k)
  }

  /** `reduce` from element `i`: `_a` is the accumulator and `_` the element; the result is the next accumulator. */
  function ReduceFrom(items: seq<Value>, expr: Expr, i: nat, acc: Value, f: Frame, k: nat): Run
    requires i <= |items|
    decreases k, 2, |items| - i
  {
    if i == |items| then Run(Val(acc), f)
    else
      var f1 := SetVariable(SetVariable(f, "_a", Fixed(WithBound(acc, Some("_a")))), "_", Fixed(WithBound(items[i], Some("_"))));
      var b := Eval(expr, NONE, f1, k);
      if !b.flow.Val? then b else ReduceFrom(items, expr, i + 1, b.flow.v, b.frame, k)
  }

  /** A loop's result with `_` (and `_i` or `_a`) put back as they were before it, on normal completion only. */
  function Restore(r: Run, names: seq<string>, saved: seq<Binding>): (out: Run)
    requires |names| == |saved|
    ensures out.flow == r.flow
    ensures !r.flow.Val? ==> out == r
    decreases |names|
  {
    if !r.flow.Val? || |names| == 0 then r
    else Restore(Run(r.flow, SetVariable(r.frame, names[0], saved[0])), names[1..], saved[1..])
  }

  function ListArg(v: Value, message: string, f: Frame): (r: Res<seq<Value>>)
    ensures r.Ok? <==> v.List?
    ensures r.Ok? ==> r.v == v.items
  {
    if v.List? then Ok(v.items) else Fail(InternalErr(message))
  }

  function OptionalArg(args: seq<Expr>, i: nat): (r: Option<Expr>)
    ensures r.Some? <==> i < |args|
  {
    if i < |args| then Some(args[i]) else None
  }

  function AttributeError(fname: string, n: nat): string {
    "Incorrect number of attributes for " + fname + ", should be 2 or 3, not " + IntToString(n)
  }

  /** `while(cond, limit, expr)`. */
  function WhileCall(args: seq<Expr>, f: Frame, k: nat): Run
    decreases k, 7
  {
    if |args| < 3 then Stop(f, Crash(INDEX_OUT_OF_BOUNDS))
    else
      var l := Eval(args[1], NONE, f, k);
      if !l.flow.Val? then l
      else
        match Arith.AsNumber(l.flow.v)
        case Fail(e) => Stop(l.frame, e)
        case Ok(limit) =>
          var saved := GetVariable(l.frame, "_");
          var r := WhileFrom(args[0], args[2], limit, 0, NULL, SetVariable(l.frame, "_", Fixed(Num(0, Some("_")))), k);
          Restore(r, ["_"], [saved])
  }

  /** `loop(limit, expr, exit)`. */
  function LoopCall(args: seq<Expr>, f: Frame, k: nat): Run
    decreases k, 7
  {
    if |args| < 2 || |args| > 3 then Stop(f, InternalErr(AttributeError("loop", |args|)))
    else
      var l := Eval(args[0], NONE, f, k);
      if !l.flow.Val? then l
      else
        match Arith.AsNumber(l.flow.v)
        case Fail(e) => Stop(l.frame, e)
        case Ok(limit) =>
          var saved := GetVariable(l.frame, "_");
          Restore(LoopFrom(args[1], OptionalArg(args, 2), limit, 0, NULL, l.frame, k), ["_"], [saved])
  }

  /** The element loops: `map`, `filter`, `first`, `all` and `for`. */
  function ElementCall(fn: Builtin, args: seq<Expr>, f: Frame, k: nat): Run
    decreases k, 7
  {
    if HasExitCondition(fn) && (|args| < 2 || |args| > 3) then Stop(f, InternalErr(AttributeError(ElementName(fn), |args|)))
    else if |args| < 2 then Stop(f, Crash(INDEX_OUT_OF_BOUNDS))
    else ElementListCall(fn, args, f, k)
  }

  /** An element built-in once its arguments are counted: evaluate the list, loop, put `_` and `_i` back. */
  function ElementListCall(fn: Builtin, args: seq<Expr>, f: Frame, k: nat): Run
    requires |args| >= 2
    decreases k, 6
  {
    var l := Eval(args[0], NONE, f, k);
    if !l.flow.Val? then l
    else
      match ListArg(l.flow.v, ElementListMessage(fn), l.frame)
      case Fail(e) => Stop(l.frame, e)
      case Ok(items) =>
        var saved := [GetVariable(l.frame, "_"), GetVariable(l.frame, "_i")];
        Restore(ElementLoop(fn, items, args, l.frame, k), ["_", "_i"], saved)
  }

  /** How an element built-in names itself in its error messages. */
  function ElementName(fn: Builtin): string {
    match fn case MapFn => "map" case Filter => "filter" case First => "'first'" case All => "'all'" case _ => "'for'"
  }

  /** The error when an element built-in's list argument is not a list. */
  function ElementListMessage(fn: Builtin): string {
    if fn == For then "Second argument of 'for' function should be a list or iterator"
    else "First argument of " + ElementName(fn) + " function should be a list or iterator"
  }

  /** `map`, `filter` and `for` take an optional exit condition; `first` and `all` do not. */
  predicate HasExitCondition(fn: Builtin) {
    fn == MapFn || fn == Filter || fn == For
  }

  /** The loop an element built-in runs over the list, before `_` and `_i` are put back. */
  function ElementLoop(fn: Builtin, items: seq<Value>, args: seq<Expr>, f: Frame, k: nat): Run
    requires |args| >= 2
    decreases k, 4
  {
    var cond := if HasExitCondition(fn) then OptionalArg(args, 2) else None;
    match fn
    case MapFn => MapFrom(items, args[1], cond, 0, [], f, k)
    case Filter => FilterFrom(items, args[1], cond, 0, [], f, k)
    case First => FirstFrom(items, args[1], 0, f, k)
    case All => AllFrom(items, args[1], 0, f, k)
    case _ => ForFrom(items, args[1], cond, 0, 0, f, k)
  }

  /** `reduce(list, expr, initial)`: the initial accumulator is evaluated first. */
  function ReduceCall(args: seq<Expr>, f: Frame, k: nat): Run
    decreases k, 7
  {
    if |args| < 3 then Stop(f, Crash(INDEX_OUT_OF_BOUNDS))
    else
      var a := Eval(args[2], NONE, f, k);
      if !a.flow.Val? then a
      else
        var l := Eval(args[0], NONE, a.frame, k);
        if !l.flow.Val? then l
        else
          match ListArg(l.flow.v, "First argument of 'reduce' should be a list or iterator", l.frame)
          case Fail(e) => Stop(l.frame, e)
          case Ok(items) =>
            if |items| == 0 then Run(Val(a.flow.v), l.frame)
            else
              var saved := [GetVariable(l.frame, "_a"), GetVariable(l.frame, "_")];
              Restore(ReduceFrom(items, args[1], 0, a.flow.v, l.frame, k), ["_a", "_"], saved)
  }

  // ---------------------------------------------------------------------
  // Built-in functions

  /** The eager built-ins, applied to their evaluated arguments. */
  function ApplyEager(fn: Builtin, vals: seq<Value>, f: Frame): Run {
    match fn
    case Exit => Run(Exited(if |vals| == 0 then NULL else vals[0]), f)
    case Return => Run(Ret(if |vals| == 0 then NULL else vals[0]), f)
    case Throw => Run(Thrown(if |vals| == 0 then NULL else vals[0]), f)
    case ListFn => Run(Val(List(vals, true, None)), f)
    case Max =>
      (match Arith.MaxSpec(vals)
       case Fail(e) => Stop(f, e)
       case Ok(None) => Stop(f, Crash(NULL_POINTER))
       case Ok(Some(m)) => Run(Val(m), f))
    case Min =>
      (match Arith.MinSpec(vals)
       case Fail(e) => Stop(f, e)
       case Ok(None) => Stop(f, Crash(NULL_POINTER))
       case Ok(Some(m)) => Run(Val(m), f))
    case StrFn => Yield(SysFuncs.StrFn(vals), f)
    case Slice =>
      if |vals| != 2 && |vals| != 3 then Stop(f, InternalErr("slice takes 2 or 3 arguments"))
      else if Arith.AsNumber(vals[1]).Fail? then Stop(f, Arith.AsNumber(vals[1]).err)
      else if |vals| == 3 && Arith.AsNumber(vals[2]).Fail? then Stop(f, Arith.AsNumber(vals[2]).err)
      else Stop(f, Unmodelled("Value.slice"))
    case Range =>
      if |vals| == 0 || |vals| > 3 then Stop(f, InternalErr("range accepts from 1 to 3 arguments, not " + IntToString(|vals|)))
      else if exists i :: 0 <= i < |vals| && Arith.AsNumber(vals[i]).Fail? then Stop(f, InternalErr(Arith.NUMERIC_OPERAND))
      else Stop(f, Unmodelled("LazyListValue.range"))
    case OtherBuiltin(name) => Stop(f, Unmodelled(name))
    case _ =>
      // the one-argument built-ins
      if |vals| == 0 then Stop(f, Crash(INDEX_OUT_OF_BOUNDS))
      else
        var v := vals[0];
        match fn
        case Fact =>
          (match Arith.AsNumber(v)
           case Fail(e) => Stop(f, e)
           case Ok(n) =>
             match Arith.FactOf(n)
             case None => Stop(f, Diverges("fact: the int counter never passes the argument"))
             case Some(p) => Run(Val(Num(p, None)), f))
        case Relu => Yield(Arith.Relu(v), f)
        case Print =>
          (match GetString(v)
           case Fail(e) => Stop(f, e)
           case Ok(_) => Run(Val(v), f))
        case NumberFn => Yield(SysFuncs.NumberFn(v), f)
        case _ => Stop(f, Unmodelled("lazy built-in"))
  }

  predicate IsEager(fn: Builtin) {
    fn.Exit? || fn.Return? || fn.Throw? || fn.ListFn? || fn.Max? || fn.Min? || fn.StrFn? || fn.Slice?
    || fn.Range? || fn.OtherBuiltin? || fn.Fact? || fn.Relu? || fn.Print? || fn.NumberFn?
  }

  /** A call: eager built-ins see their evaluated arguments; lazy ones run inside their adaptor. */
  function EvalCall(fn: Builtin, args: seq<Expr>, tok: Token, t: Expect, f: Frame, k: nat): Run
    decreases k, 8
  {
    if IsEager(fn) then
      match EvalArgs(args, 0, [], f, k)
      case Halted(run) => run
      case Evaluated(vals, f1) => ApplyEager(fn, vals, f1)
    else
      match fn
      case Dot => Located(CallDot(args, t, f, k))
      case Outer =>
        if |args| < 1 then Stop(f, Crash(INDEX_OUT_OF_BOUNDS))
        else if t != LOCALIZATION then Stop(f, ExprErr(OUTER_ERROR))
        else
          // the marker is made by the returned thunk, outside the adaptor
          var a := Eval(args[0], NONE, f, k);
          if !a.flow.Val? then a else Yield(MakeGlobal(a.flow.v), a.frame)
      case Try => Located(TryCall(args, t, f, k))
      case If =>
        if |args| < 2 then Stop(f, ExprErr("if statement needs to have at least one condition and one case"))
        else Located(IfFrom(args, 0, f, k))
      case Not =>
        if |args| < 1 then Stop(f, Crash(INDEX_OUT_OF_BOUNDS))
        else
          var a := Eval(args[0], BOOLEAN, f, k);
          Located(if !a.flow.Val? then a else Yield(Arith.Not(a.flow.v), a.frame))
      case BoolFn =>
        if |args| < 1 then Stop(f, Crash(INDEX_OUT_OF_BOUNDS))
        else
          var a := Eval(args[0], BOOLEAN, f, k);
          Located(if !a.flow.Val? then a else Yield(SysFuncs.BoolFn(a.flow.v), a.frame))
      case VarFn =>
        if |args| < 1 then Stop(f, Crash(INDEX_OUT_OF_BOUNDS))
        else
          var a := Located(Eval(args[0], NONE, f, k));
          if !a.flow.Val? then a
          else
            (match GetString(a.flow.v)
             case Fail(e) => Located(Stop(a.frame, e))
             case Ok(name) =>
               // the variable's own thunk is handed back and run after the adaptor
               var f1 := AutoVivify(a.frame, name);
               EvalBinding(GetVariable(f1, name), f1, k))
      case Undef =>
        if |args| < 1 then Stop(f, Crash(INDEX_OUT_OF_BOUNDS))
        else
          var a := Eval(args[0], NONE, f, k);
          Located(
            if !a.flow.Val? then a
            else
              match GetString(a.flow.v)
              case Fail(e) => Stop(a.frame, e)
              case Ok(name) =>
                match SysFuncs.Undef(a.frame, name)
                case Fail(e) => Stop(a.frame, e)
                case Ok(f1) => Run(Val(NULL), f1))
      case Vars =>
        if |args| < 1 then Stop(f, Crash(INDEX_OUT_OF_BOUNDS))
        else
          var a := Eval(args[0], NONE, f, k);
          Located(
            if !a.flow.Val? then a
            else
              match GetString(a.flow.v)
              case Fail(e) => Stop(a.frame, e)
              case Ok(prefix) => Run(Val(SysFuncs.Vars(a.frame, prefix)), a.frame))
      case While => Located(WhileCall(args, f, k))
      case Loop => Located(LoopCall(args, f, k))
      case MapFn => Located(ElementCall(fn, args, f, k))
      case Filter => Located(ElementCall(fn, args, f, k))
      case First => Located(ElementCall(fn, args, f, k))
      case All => Located(ElementCall(fn, args, f, k))
      case For => Located(ElementCall(fn, args, f, k))
      case Reduce => Located(ReduceCall(args, f, k))
      case SortKey =>
        if |args| < 2 then Stop(f, Crash(INDEX_OUT_OF_BOUNDS))
        else
          var a := Eval(args[0], NONE, f, k);
          Located(
            if !a.flow.Val? then a
            else if !a.flow.v.List? then Stop(a.frame, InternalErr("First argument for sort_key should be a List"))
            else Stop(a.frame, Unmodelled("sort_key ordering")))
      case _ => Stop(f, Unmodelled("eager built-in"))
  }

  // ---------------------------------------------------------------------
  // The top level

  /**
   * `Expression.evalValue`: an Exit (and a Return or Throw, which reach the
   * top only as exits) gives its value; stack overflow and InternalExpression
   * errors become ExpressionExceptions with their fixed texts.
   */
  function EvalValue(e: Expr, f: Frame, fuel: nat): (r: (Res<Value>, Frame))
  {
    var run := Eval(e, NONE, f, fuel);
    (Outcome(run.flow), run.frame)
  }

  /** What `Expression.evalValue` makes of the way a top-level thunk ended. */
  function Outcome(flow: Flow): Res<Value> {
    match flow
    case Val(v) => Ok(v)
    case Ret(v) => Ok(v)
    case Thrown(v) => Ok(v)
    case Exited(v) => Ok(v)
    case Error(err) =>
      if err == Crash(STACK_OVERFLOW) then Fail(ExprErr("Your thoughts are too deep"))
      else if err.InternalErr? then Fail(ExprErr("Your expression result is incorrect:" + err.msg))
      else Fail(err)
  }
}
