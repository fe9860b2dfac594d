/**
 * `ScriptHost` (a script's function and global-variable tables) and
 * `Context` (one frame of local variables on a host).  Both are classes whose
 * fields change in place; their methods are proved to do what the pure
 * `Scope` functions the interpreter uses describe.
 */
module Hosts {
  import opened Values
  import opened Tokens
  import opened Ast
  import opened Scope
  import LexSpec
  import LexFacts
  import Lexer
  import Interp

  /** The token the seeded number constants carry. */
  function ConstantToken(text: string): Token {
    Token(text, LITERAL, 0, 0, 0)
  }

  const PI_TEXT := "3.1415926535897932384626433832795028841971693993751058209749445923078164062862089986280348253421170679"
  const EULER_TEXT := "2.71828182845904523536028747135266249775724709369995957496696762772407663"
  const PHI_TEXT := "1.6180339887498948482045868343656381177203091798057628621354486227052604628189024497072072041893911374"
  const AVOGADRO := 602214076000000000000000

  /** The names every new host binds, with the special loop variables at zero. */
  const SEEDED_NAMES: set<string> := {"euler", "avogadro", "pi", "phi", "null", "true", "false", "_", "_i", "_a"}

  /** `getPublicFunctions`: the names not starting with `_`. */
  function PublicNames(names: set<string>): (r: set<string>)
    ensures forall n :: n in r <==> n in names && !StartsWith(n, "_")
  {
    set n | n in names && !StartsWith(n, "_")
  }

  /** `getAvailableFunctions`: the names not starting with `__`. */
  function AvailableNames(names: set<string>): (r: set<string>)
    ensures forall n :: n in r <==> n in names && !StartsWith(n, "__")
  {
    set n | n in names && !StartsWith(n, "__")
  }

  /** Every public function is available; the available ones that are not public start with a single `_`. */
  lemma PublicWithinAvailable(names: set<string>)
    ensures PublicNames(names) <= AvailableNames(names)
    ensures forall n :: n in AvailableNames(names) - PublicNames(names) ==> StartsWith(n, "_") && !StartsWith(n, "__")
  {
    forall n | n in names ensures StartsWith(n, "__") ==> StartsWith(n, "_") {
      UnderscorePrefix(n);
    }
  }

  lemma UnderscorePrefix(n: string)
    ensures StartsWith(n, "__") ==> StartsWith(n, "_")
  {
    if StartsWith(n, "__") {
      assert n[..1] == n[..2][..1];
    }
  }

  // ---------------------------------------------------------------------
  // The argument mini-parser of `ScriptHost.call`

  /** The arguments `call` builds from the tokens of its argument text, or the refusal it returns. */
  datatype ArgScan = Args(argv: seq<Expr>) | Refused(message: string)

  /** `new StringValue(surface)` as an argument thunk. */
  function StringArg(surface: string): (e: Expr)
    ensures e == Thunk(Fixed(Str(surface, None)))
  {
    Thunk(Fixed(Str(surface, None)))
  }

  /** `new NumericValue(new BigInteger(sign + digits, 16))` for a hex token, as a thunk. */
  function HexArg(sign: string, tok: Token): Expr {
    if sign == "-" then Unary(Negate, HexLit(tok.surface, tok), tok) else HexLit(tok.surface, tok)
  }

  predicate IsValueToken(tok: Token) {
    tok.ttype in {VARIABLE, STRING, LITERAL, HEX_LITERAL}
  }

  predicate IsMinus(tok: Token) {
    (tok.ttype == OPERATOR || tok.ttype == UNARY_OPERATOR) && (tok.surface == "-" || tok.surface == "-u")
  }

  /**
   * The token loop of `call` from token `i`: `sign` is a pending minus.
   * A variable naming a host global passes that global's thunk (and leaves
   * the sign pending); any other variable, and a string, pass the text; a
   * number takes the pending sign.
   */
  function ArgsFrom(toks: seq<Token>, globals: map<string, Binding>, i: nat, sign: string, argv: seq<Expr>): (r: ArgScan)
    requires i <= |toks|
    decreases |toks| - i
  {
    if i == |toks| then Args(argv)
    else
      var tok := toks[i];
      match tok.ttype
      case VARIABLE =>
        if LowerAscii(tok.surface) in globals then ArgsFrom(toks, globals, i + 1, sign, argv + [Thunk(globals[LowerAscii(tok.surface)])])
        else ArgsFrom(toks, globals, i + 1, "", argv + [StringArg(tok.surface)])
      case STRING => ArgsFrom(toks, globals, i + 1, "", argv + [StringArg(tok.surface)])
      case LITERAL => ArgsFrom(toks, globals, i + 1, "", argv + [NumLit(sign + tok.surface, tok)])
      case HEX_LITERAL => ArgsFrom(toks, globals, i + 1, "", argv + [HexArg(sign, tok)])
      case OPERATOR | UNARY_OPERATOR =>
        if IsMinus(tok) && sign == "" then ArgsFrom(toks, globals, i + 1, "-", argv)
        else Refused("Fail: operators, like " + tok.surface + " are not allowed in invoke")
      case FUNCTION => Refused("Fail: passing functions like " + tok.surface + "() to invoke is not allowed")
      case _ => Refused("Fail: " + tok.surface + " is not allowed in invoke")
  }

  /** The number of tokens among `toks[i..]` that pass an argument. */
  function CountValues(toks: seq<Token>, i: nat): nat
    requires i <= |toks|
    decreases |toks| - i
  {
    if i == |toks| then 0 else (if IsValueToken(toks[i]) then 1 else 0) + CountValues(toks, i + 1)
  }

  /**
   * When `call` accepts its arguments it passes exactly one per value token,
   * after those it has; a text of value tokens only is always accepted, and
   * a refusal always points at a token that is not a value.
   */
  lemma {:induction false} ArgsCount(toks: seq<Token>, globals: map<string, Binding>, i: nat, sign: string, argv: seq<Expr>)
    requires i <= |toks|
    ensures var r := ArgsFrom(toks, globals, i, sign, argv);
            r.Args? ==> argv <= r.argv && |r.argv| == |argv| + CountValues(toks, i)
    ensures (forall j :: i <= j < |toks| ==> IsValueToken(toks[j])) ==> ArgsFrom(toks, globals, i, sign, argv).Args?
    ensures ArgsFrom(toks, globals, i, sign, argv).Refused? ==> exists j :: i <= j < |toks| && !IsValueToken(toks[j])
    decreases |toks| - i
  {
    if i < |toks| {
      var tok := toks[i];
      if IsValueToken(tok) {
        var sign' := if tok.ttype == VARIABLE && LowerAscii(tok.surface) in globals then sign else "";
        var argv' := argv + [ArgOf(tok, globals, sign)];
        assert ArgsFrom(toks, globals, i, sign, argv) == ArgsFrom(toks, globals, i + 1, sign', argv');
        ArgsCount(toks, globals, i + 1, sign', argv');
      } else if IsMinus(tok) && sign == "" {
        ArgsCount(toks, globals, i + 1, "-", argv);
      }
    }
  }

  /** The argument a value token passes. */
  function ArgOf(tok: Token, globals: map<string, Binding>, sign: string): Expr
    requires IsValueToken(tok)
  {
    match tok.ttype
    case VARIABLE => if LowerAscii(tok.surface) in globals then Thunk(globals[LowerAscii(tok.surface)]) else StringArg(tok.surface)
    case STRING => StringArg(tok.surface)
    case LITERAL => NumLit(sign + tok.surface, tok)
    case _ => HexArg(sign, tok)
  }

  const MINUS := Token("-u", UNARY_OPERATOR, 0, 0, 0)
  const FIVE := Token("5", LITERAL, 1, 1, 0)

  /** One minus negates the number after it. */
  lemma MinusNegates(globals: map<string, Binding>)
    ensures ArgsFrom([MINUS, FIVE], globals, 0, "", []) == Args([NumLit("-5", FIVE)])
  {
    assert "-" + FIVE.surface == "-5";
    var toks := [MINUS, FIVE];
    assert ArgsFrom(toks, globals, 2, "", [NumLit("-5", FIVE)]) == Args([NumLit("-5", FIVE)]);
    assert ArgsFrom(toks, globals, 1, "-", []) == ArgsFrom(toks, globals, 2, "", [NumLit("-5", FIVE)]);
    assert IsMinus(toks[0]);
  }

  /** The refusal text for the unary minus token. */
  lemma OperatorMessage()
    ensures "Fail: operators, like " + MINUS.surface + " are not allowed in invoke"
            == "Fail: operators, like -u are not allowed in invoke"
  {
    var head := "Fail: operators, like ";
    var tail := " are not allowed in invoke";
    assert head + "-u" + tail == head + ("-u" + tail);
  }

  /** A second minus is refused. */
  lemma SecondMinusRefused(globals: map<string, Binding>)
    ensures ArgsFrom([MINUS, MINUS, FIVE], globals, 0, "", []) == Refused("Fail: operators, like -u are not allowed in invoke")
  {
    var toks := [MINUS, MINUS, FIVE];
    var msg := "Fail: operators, like -u are not allowed in invoke";
    assert "Fail: operators, like " + MINUS.surface + " are not allowed in invoke" == msg by {
      OperatorMessage();
    }
    assert ArgsFrom(toks, globals, 1, "-", []) == Refused(msg);
    assert ArgsFrom(toks, globals, 0, "", []) == ArgsFrom(toks, globals, 1, "-", []);
  }

  /** The token loop of `call`. */
  method ScanArgs(toks: seq<Token>, globals: map<string, Binding>) returns (r: ArgScan)
    ensures r == ArgsFrom(toks, globals, 0, "", [])
  {
    var argv: seq<Expr> := [];
    var sign := "";
    var i := 0;
    while i < |toks|
      invariant 0 <= i <= |toks|
      invariant ArgsFrom(toks, globals, 0, "", []) == ArgsFrom(toks, globals, i, sign, argv)
    {
      var tok := toks[i];
      match tok.ttype {
        case VARIABLE =>
          if LowerAscii(tok.surface) in globals {
            argv := argv + [Thunk(globals[LowerAscii(tok.surface)])];
          } else {
            argv := argv + [StringArg(tok.surface)];
            sign := "";
          }
        case STRING =>
          argv := argv + [StringArg(tok.surface)];
          sign := "";
        case LITERAL =>
          argv := argv + [NumLit(sign + tok.surface, tok)];
          sign := "";
        case HEX_LITERAL =>
          argv := argv + [HexArg(sign, tok)];
          sign := "";
        case OPERATOR =>
          if IsMinus(tok) && sign == "" {
            sign := "-";
          } else {
            return Refused("Fail: operators, like " + tok.surface + " are not allowed in invoke");
          }
        case UNARY_OPERATOR =>
          if IsMinus(tok) && sign == "" {
            sign := "-";
          } else {
            return Refused("Fail: operators, like " + tok.surface + " are not allowed in invoke");
          }
        case FUNCTION =>
          return Refused("Fail: passing functions like " + tok.surface + "() to invoke is not allowed");
        case _ =>
          return Refused("Fail: " + tok.surface + " is not allowed in invoke");
      }
      i := i + 1;
    }
    return Args(argv);
  }

  // ---------------------------------------------------------------------
  // The argument-count report of `call`

  /** `argv.get(i).evalValue(null).getString()`: an argument shown without a context. */
  function ArgText(e: Expr): Res<string> {
    match e
    case Thunk(Fixed(v)) => GetString(v)
    case Thunk(Missing) => Fail(Crash(Interp.NULL_POINTER))
    case Thunk(Code(NumLit(text, _))) => NumberText(Interp.NumberLiteral(text))
    case NumLit(text, _) => NumberText(Interp.NumberLiteral(text))
    case HexLit(surface, _) => HexText(surface, false)
    case Unary(Negate, HexLit(surface, _), _) => HexText(surface, true)
    case _ => Fail(Unmodelled("a stored thunk evaluated without a context"))
  }

  function NumberText(r: Res<Value>): Res<string> {
    match r
    case Ok(v) => GetString(v)
    case Fail(e) => Fail(e)
  }

  function HexText(surface: string, negative: bool): Res<string> {
    match Interp.HexValue(surface)
    case Ok(n) => Ok(IntToString(if negative then -n else n))
    case Fail(e) => Fail(e)
  }

  function Max(a: nat, b: nat): nat {
    if a < b then b else a
  }

  /** One line of the report: the parameter name and the argument shown, `??` where one side has run out. */
  function ReportLine(args: seq<string>, argv: seq<Expr>, i: nat): Res<string> {
    var name := if i < |args| then args[i] else "??";
    var shown := if i < |argv| then ArgText(argv[i]) else Ok("??");
    match shown
    case Fail(e) => Fail(e)
    case Ok(text) => Ok(name + " => " + text + "\n")
  }

  /** The report from position `i`, after the text built so far. */
  function ReportFrom(args: seq<string>, argv: seq<Expr>, i: nat, acc: string): Res<string>
    decreases Max(|args|, |argv|) - i
  {
    if i >= Max(|args|, |argv|) then Ok(acc)
    else
      match ReportLine(args, argv, i)
      case Fail(e) => Fail(e)
      case Ok(line) => ReportFrom(args, argv, i + 1, acc + line)
  }

  function ReportHeader(call: string, args: seq<string>, argv: seq<Expr>): string {
    "Fail: stored function " + call + " takes " + IntToString(|args|) + " arguments, not " + IntToString(|argv|) + ":\n"
  }

  /**
   * The report keeps what was built before it, and it can be built exactly
   * when every remaining argument can be shown.
   */
  lemma {:induction false} ReportShowsAll(args: seq<string>, argv: seq<Expr>, i: nat, acc: string)
    ensures ReportFrom(args, argv, i, acc).Ok? ==> acc <= ReportFrom(args, argv, i, acc).v
    ensures ReportFrom(args, argv, i, acc).Ok? <==> forall j :: i <= j < |argv| ==> ArgText(argv[j]).Ok?
    decreases Max(|args|, |argv|) - i
  {
    if i < Max(|args|, |argv|) {
      var line := ReportLine(args, argv, i);
      if line.Ok? {
        ReportShowsAll(args, argv, i + 1, acc + line.v);
        assert acc <= acc + line.v;
      } else {
        assert i < |argv| && ArgText(argv[i]).Fail?;
      }
    }
  }

  /** The report loop of `call`. */
  method Report(call: string, args: seq<string>, argv: seq<Expr>) returns (r: Res<string>)
    ensures r == ReportFrom(args, argv, 0, ReportHeader(call, args, argv))
  {
    var error := ReportHeader(call, args, argv);
    var n := Max(|args|, |argv|);
    var i := 0;
    while i < n
      invariant 0 <= i <= n
      invariant ReportFrom(args, argv, 0, ReportHeader(call, args, argv)) == ReportFrom(args, argv, i, error)
    {
      var line := ReportLine(args, argv, i);
      if line.Fail? {
        return Fail(line.err);
      }
      error := error + line.v;
      i := i + 1;
    }
    return Ok(error);
  }

  // ---------------------------------------------------------------------
  // Invoking a stored function

  /**
   * What `call` returns once evaluation ends: the value's text, or the
   * message of an ExpressionException thrown by the evaluation or by
   * `getString` (a function signature's).
   */
  function Reported(r: Res<Value>): (out: Res<string>)
    ensures r.Fail? && r.err.ExprErr? ==> out == Ok(r.err.msg)
    ensures r.Ok? && GetString(r.v).Ok? ==> out == Ok(GetString(r.v).v)
    ensures r.Ok? && r.v.Signature? ==> out == Ok(SignatureError(r.v.fname))
  {
    match r
    case Ok(v) =>
      (match GetString(v)
       case Ok(s) => Ok(s)
       case Fail(ExprErr(m)) => Ok(m)
       case Fail(e) => Fail(e))
    case Fail(ExprErr(m)) => Ok(m)
    case Fail(e) => Fail(e)
  }

  /** `ScriptHost.call(call, arg)` on the host's tables: what it returns, and the tables after. */
  function CallSpec(t: Tables, call: string, arg: string, fuel: nat): (Res<string>, Tables) {
    if call !in t.functions then (Ok("UNDEFINED"), t)
    else
      var acf := t.functions[call];
      match LexSpec.SimplePass(arg)
      case Fail(e) => (Fail(e), t)
      case Ok(toks) =>
        match ArgsFrom(toks, t.globals, 0, "", [])
        case Refused(m) => (Ok(m), t)
        case Args(argv) =>
          if |argv| != |acf.args| then (ReportFrom(acf.args, argv, 0, ReportHeader(call, acf.args, argv)), t)
          else
            var run := Interp.CallUdf(acf, argv, Interp.VOID, Frame(map[], t), fuel);
            (Reported(Interp.Outcome(run.flow)), run.frame.host)
  }

  /** Only an accepted call with the right number of arguments runs the function and can change the tables. */
  lemma CallRunsOnlyWhenAccepted(t: Tables, call: string, arg: string, fuel: nat)
    ensures call !in t.functions ==> CallSpec(t, call, arg, fuel) == (Ok("UNDEFINED"), t)
    ensures call in t.functions && LexSpec.SimplePass(arg).Ok? ==>
              var toks := LexSpec.SimplePass(arg).v;
              (CountValues(toks, 0) != |t.functions[call].args| || ArgsFrom(toks, t.globals, 0, "", []).Refused?)
              ==> CallSpec(t, call, arg, fuel).1 == t
  {
    if call in t.functions && LexSpec.SimplePass(arg).Ok? {
      ArgsCount(LexSpec.SimplePass(arg).v, t.globals, 0, "", []);
    }
  }

  /**
   * The argument text is tokenized before the error handler is set up, and
   * with no expression: a `\r` escape in it ends `call` in a
   * NullPointerException and leaves the tables alone.
   */
  lemma CarriageReturnArgumentCrashes(t: Tables, call: string, fuel: nat)
    requires call in t.functions
    ensures CallSpec(t, call, "'a\\r'", fuel) == (Fail(Crash("NullPointerException")), t)
  {
    LexFacts.CarriageReturnWithoutExpression();
  }

  /** `ScriptHost.callUDF`: a wrong argument count is an InvalidCallbackException; ExpressionExceptions are swallowed. */
  function CallbackSpec(t: Tables, acf: Udf, argv: seq<Expr>, fuel: nat): (r: (Res<()>, Tables))
    ensures |argv| != |acf.args| ==> r == (Fail(InvalidCallback), t)
  {
    if |argv| != |acf.args| then (Fail(InvalidCallback), t)
    else
      var run := Interp.CallUdf(acf, argv, Interp.VOID, Frame(map[], t), fuel);
      match Interp.Outcome(run.flow)
      case Fail(ExprErr(_)) => (Ok(()), run.frame.host)
      case Fail(e) => (Fail(e), run.frame.host)
      case Ok(_) => (Ok(()), run.frame.host)
  }

  // ---------------------------------------------------------------------
  // The classes

  /** The globals a new host starts with. */
  function Seeded(): map<string, Binding> {
    map[
      "euler" := Code(NumLit(EULER_TEXT, ConstantToken(EULER_TEXT))),
      "avogadro" := Fixed(Num(AVOGADRO, None)),
      "pi" := Code(NumLit(PI_TEXT, ConstantToken(PI_TEXT))),
      "phi" := Code(NumLit(PHI_TEXT, ConstantToken(PHI_TEXT))),
      "null" := Fixed(NULL),
      "true" := Fixed(TRUE),
      "false" := Fixed(FALSE),
      "_" := Fixed(ZERO),
      "_i" := Fixed(ZERO),
      "_a" := Fixed(ZERO)
    ]
  }

  class ScriptHost {
    var globalFunctions: map<string, Udf>
    var globalVariables: map<string, Binding>
    const name: string

    /** The tables as the interpreter sees them. */
    function Tables(): Tables
      reads this
    {
      Scope.Tables(globalVariables, globalFunctions)
    }

    /** A host with no functions and the seeded globals: the constants, and `_`, `_i`, `_a` at zero. */
    constructor (name: string)
      ensures this.name == name && globalFunctions == map[]
      ensures globalVariables.Keys == SEEDED_NAMES
      ensures globalVariables["_"] == globalVariables["_i"] == globalVariables["_a"] == Fixed(ZERO)
      ensures globalVariables["null"] == Fixed(NULL) && globalVariables["true"] == Fixed(TRUE) && globalVariables["false"] == Fixed(FALSE)
      ensures globalVariables == Seeded()
    {
      this.name := name;
      globalFunctions := map[];
      var vars: map<string, Binding> := map[];
      vars := vars["euler" := Code(NumLit(EULER_TEXT, ConstantToken(EULER_TEXT)))];
      vars := vars["avogadro" := Fixed(Num(AVOGADRO, None))];
      vars := vars["pi" := Code(NumLit(PI_TEXT, ConstantToken(PI_TEXT)))];
      vars := vars["phi" := Code(NumLit(PHI_TEXT, ConstantToken(PHI_TEXT)))];
      vars := vars["null" := Fixed(NULL)];
      vars := vars["true" := Fixed(TRUE)];
      vars := vars["false" := Fixed(FALSE)];
      vars := vars["_" := Fixed(ZERO)];
      vars := vars["_i" := Fixed(ZERO)];
      vars := vars["_a" := Fixed(ZERO)];
      globalVariables := vars;
    }

    function PublicFunctions(): (r: set<string>)
      reads this
      ensures r == PublicNames(globalFunctions.Keys)
    {
      PublicNames(globalFunctions.Keys)
    }

    function AvailableFunctions(): (r: set<string>)
      reads this
      ensures r == AvailableNames(globalFunctions.Keys)
    {
      AvailableNames(globalFunctions.Keys)
    }

    /** `call`: invoke a stored function with arguments read from a text. */
    method Call(call: string, arg: string, fuel: nat) returns (r: Res<string>)
      modifies this
      ensures (r, Tables()) == CallSpec(old(Tables()), call, arg, fuel)
    {
      if call !in globalFunctions {
        return Ok("UNDEFINED");
      }
      var acf := globalFunctions[call];
      var toks := Lexer.SimplePass(arg);
      if toks.Fail? {
        return Fail(toks.err);
      }
      var scan := ScanArgs(toks.v, globalVariables);
      if scan.Refused? {
        return Ok(scan.message);
      }
      var argv := scan.argv;
      if |argv| != |acf.args| {
        r := Report(call, acf.args, argv);
        return;
      }
      var context := new Context(this);
      var run := Interp.CallUdf(acf, argv, Interp.VOID, context.Frame(), fuel);
      globalVariables, globalFunctions := run.frame.host.globals, run.frame.host.functions;
      r := Reported(Interp.Outcome(run.flow));
    }

    /** `callUDF`: run a stored function as an event callback. */
    method CallUdf(acf: Udf, argv: seq<Expr>, fuel: nat) returns (r: Res<()>)
      modifies this
      ensures (r, Tables()) == CallbackSpec(old(Tables()), acf, argv, fuel)
    {
      if |argv| != |acf.args| {
        return Fail(InvalidCallback);
      }
      var context := new Context(this);
      var run := Interp.CallUdf(acf, argv, Interp.VOID, context.Frame(), fuel);
      globalVariables, globalFunctions := run.frame.host.globals, run.frame.host.functions;
      var outcome := Interp.Outcome(run.flow);
      if outcome.Fail? && !outcome.err.ExprErr? {
        return Fail(outcome.err);
      }
      return Ok(());
    }
  }

  class Context {
    var host: ScriptHost
    var variables: map<string, Binding>

    /** The frame the interpreter threads: these locals on the host's tables. */
    function Frame(): Frame
      reads this, host
    {
      Scope.Frame(variables, host.Tables())
    }

    constructor (host: ScriptHost)
      ensures this.host == host && variables == map[]
    {
      this.host := host;
      variables := map[];
    }

    /** `simpleParse`: a context on a fresh host named "command line". */
    static method SimpleParse() returns (c: Context)
      ensures fresh(c) && fresh(c.host) && c.host.name == "command line"
      ensures c.variables == map[] && c.host.globalFunctions == map[] && c.host.globalVariables == Seeded()
    {
      var host := new ScriptHost("command line");
      c := new Context(host);
    }

    method GetVariable(name: string) returns (lv: Binding)
      ensures lv == Scope.GetVariable(Frame(), name)
    {
      if name in variables {
        return variables[name];
      }
      if name in host.globalVariables {
        return host.globalVariables[name];
      }
      return Missing;
    }

    method SetVariable(name: string, lv: Binding)
      modifies this, host
      ensures host == old(host) && Frame() == Scope.SetVariable(old(Frame()), name, lv)
    {
      if StartsWith(name, GLOBAL_PREFIX) {
        host.globalVariables := host.globalVariables[name := lv];
        return;
      }
      variables := variables[name := lv];
    }

    method IsAVariable(name: string) returns (b: bool)
      ensures b == Scope.IsAVariable(Frame(), name)
    {
      return name in variables || name in host.globalVariables;
    }

    method DelVariable(variable: string)
      modifies this, host
      ensures host == old(host) && Frame() == Scope.DelVariable(old(Frame()), variable)
    {
      if StartsWith(variable, GLOBAL_PREFIX) {
        host.globalVariables := host.globalVariables - {variable};
        return;
      }
      variables := variables - {variable};
    }

    /** `clearAll`, which does what `delVariable` does. */
    method ClearAll(variable: string)
      modifies this, host
      ensures host == old(host) && Frame() == Scope.DelVariable(old(Frame()), variable)
    {
      if StartsWith(variable, GLOBAL_PREFIX) {
        host.globalVariables := host.globalVariables - {variable};
        return;
      }
      variables := variables - {variable};
    }

    method With(variable: string, lv: Binding) returns (c: Context)
      modifies this
      ensures c == this && host == old(host) && Frame() == Scope.With(old(Frame()), variable, lv)
    {
      variables := variables[variable := lv];
      return this;
    }

    method GetAllVariableNames() returns (names: set<string>)
      ensures names == Scope.AllVariableNames(Frame())
    {
      return variables.Keys;
    }

    /**
     * Take on the state an evaluation left: the bindings a thunk run by the
     * pure interpreter wrote, in this context and on its host.
     */
    method Load(f: Frame)
      modifies this, host
      ensures host == old(host) && Frame() == f
    {
      variables := f.locals;
      host.globalVariables := f.host.globals;
      host.globalFunctions := f.host.functions;
    }

    method Recreate() returns (c: Context)
      ensures fresh(c) && c.host == host && c.Frame() == Scope.Recreate(Frame())
    {
      c := new Context(host);
    }
  }
}
