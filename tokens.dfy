/** Tokens produced by the tokenizer (`Tokenizer.Token`). */
module Tokens {

  datatype TokenType =
    | VARIABLE | FUNCTION | LITERAL | OPERATOR | UNARY_OPERATOR
    | OPEN_PAREN | COMMA | CLOSE_PAREN | HEX_LITERAL | STRING | MARKER

  /** A token: its text, its type and the position of its first character. */
  datatype Token = Token(surface: string, ttype: TokenType, pos: int, linePos: int, lineNo: int)

  /** A `;` in binary or unary form. */
  predicate IsSemicolon(t: Token) {
    (t.ttype == OPERATOR && t.surface == ";") || (t.ttype == UNARY_OPERATOR && t.surface == ";u")
  }

  /**
   * `Token.morphedInto` (and `Token.morph`, which does the same to the token
   * in place): a token of another type and text at the same position.
   */
  function MorphedInto(t: Token, ttype: TokenType, surface: string): (r: Token)
    ensures r.ttype == ttype && r.surface == surface
    ensures r.pos == t.pos && r.linePos == t.linePos && r.lineNo == t.lineNo
  {
    Token(surface, ttype, t.pos, t.linePos, t.lineNo)
  }

  /** A token that starts a `//` comment. */
  predicate IsComment(t: Token) {
    t.ttype == MARKER && |t.surface| >= 2 && t.surface[..2] == "//"
  }
}

/**
 * The operator and built-in function tables every expression registers
 * (`Operators.precedence`, `Expression.operators`, `Expression.functions`).
 */
module Registry {

  import opened Values

  /** Operators.precedence, keyed by group name exactly as written. */
  const PRECEDENCE: map<string, int> := map[
    "unary+-!" := 60, "exponent**" := 40, "multiplication*/%" := 30, "addition+-" := 20,
    "compare>=><=<" := 10, "shift<<>>" := 9, "equal==!=" := 8, "bit-and&" := 7,
    "bit-xor^" := 5, "bit-or|" := 4, "and&&" := 3, "or||" := 2, "def->" := 1, "nextop;" := 0]

  /** The group the assignment operators look up; the table has no such key. */
  const ASSIGN_KEY := "assign=<>"

  /**
   * The precedence table lists its groups in strictly decreasing order, and
   * the key the assignment operators ask for is missing from it.
   */
  lemma PrecedenceOrder()
    ensures PRECEDENCE["unary+-!"] > PRECEDENCE["exponent**"] > PRECEDENCE["multiplication*/%"]
      > PRECEDENCE["addition+-"] > PRECEDENCE["compare>=><=<"] > PRECEDENCE["shift<<>>"]
      > PRECEDENCE["equal==!="] > PRECEDENCE["bit-and&"] > PRECEDENCE["bit-xor^"]
      > PRECEDENCE["bit-or|"] > PRECEDENCE["and&&"] > PRECEDENCE["or||"] > PRECEDENCE["def->"]
      > PRECEDENCE["nextop;"] == 0
    ensures ASSIGN_KEY !in PRECEDENCE
  {
  }

  datatype OpInfo = OpInfo(precedence: int, leftAssoc: bool)

  /**
   * The `operators.put` calls of Operators.apply, in order: each operator's
   * surface (unary operators under their `u` key), the precedence group it
   * looks up, and whether it is left-associative.  `^` is put twice.
   */
  const OPERATOR_PUTS: seq<(string, (string, bool))> := [
    ("+", ("addition+-", true)), ("-", ("addition+-", true)),
    ("*", ("multiplication*/%", true)), ("/", ("multiplication*/%", true)),
    ("%", ("multiplication*/%", true)), ("^", ("exponent**", false)),
    ("<<", ("shift<<>>", false)), (">>", ("shift<<>>", false)), ("&", ("bit-and&", false)),
    ("^", ("bit-xor^", false)), ("|", ("bit-or|", false)), ("&&", ("and&&", false)),
    ("||", ("or||", false)), ("~", ("compare>=><=<", true)), (">", ("compare>=><=<", false)),
    (">=", ("compare>=><=<", false)), ("<", ("compare>=><=<", false)), ("<=", ("compare>=><=<", false)),
    ("==", ("equal==!=", false)), ("!=", ("equal==!=", false)), ("=", (ASSIGN_KEY, false)),
    ("+=", (ASSIGN_KEY, false)), ("<>", (ASSIGN_KEY, false)),
    ("-u", ("unary+-!", false)), ("+u", ("unary+-!", false)), ("!u", ("unary+-!", false)),
    (";", ("nextop;", true)), ("->", ("def->", false))]

  /** A map built by `puts`: the last put of a key is the one that remains. */
  function Lookup<V>(key: string, puts: seq<(string, V)>): Option<V>
  {
    if puts == [] then None
    else if puts[|puts| - 1].0 == key then Some(puts[|puts| - 1].1)
    else Lookup(key, puts[..|puts| - 1])
  }

  /** The entry at `i` is what a lookup finds when no later put has the same key. */
  lemma {:induction false} LookupLatest<V>(key: string, puts: seq<(string, V)>, i: int)
    requires 0 <= i < |puts| && puts[i].0 == key
    requires forall j :: i < j < |puts| ==> puts[j].0 != key
    ensures Lookup(key, puts) == Some(puts[i].1)
    decreases |puts|
  {
    if i < |puts| - 1 {
      LookupLatest(key, puts[..|puts| - 1], i);
    }
  }

  /**
   * Expression.operators after Operators.apply: the latest put of the key,
   * with its group's precedence; a group missing from the table gets
   * `assignPrec`.
   */
  function Operator(key: string, assignPrec: int): Option<OpInfo>
  {
    var found := Lookup(key, OPERATOR_PUTS);
    if found.None? then None else Some(Info(found.value, assignPrec))
  }

  /** A registered group's precedence and associativity; a group missing from the table gets `assignPrec`. */
  function Info(put: (string, bool), assignPrec: int): OpInfo {
    OpInfo(if put.0 in PRECEDENCE then PRECEDENCE[put.0] else assignPrec, put.1)
  }

  /**
   * `precedence.get(group)` handed to an `int` parameter.  A group the
   * table lacks yields a null, which unboxing dereferences unless a
   * `fallback` precedence is supplied.
   */
  function Unbox(group: string, fallback: Option<int>): (r: Res<int>)
    ensures r.Ok? <==> group in PRECEDENCE || fallback.Some?
    ensures r.Fail? ==> r.err == Crash("NullPointerException")
  {
    if group in PRECEDENCE then Ok(PRECEDENCE[group])
    else if fallback.Some? then Ok(fallback.value)
    else Fail(Crash("NullPointerException"))
  }

  /**
   * The `operators.put` calls of Operators.apply run in order, each
   * unboxing its precedence as its arguments are evaluated; the first
   * failure ends the registration, and with it the Expression constructor.
   */
  function Register(puts: seq<(string, (string, bool))>, fallback: Option<int>): (r: Res<seq<(string, OpInfo)>>)
    ensures r.Ok? ==> |r.v| == |puts|
    decreases |puts|
  {
    if puts == [] then Ok([])
    else
      match Unbox(puts[0].1.0, fallback)
      case Fail(e) => Fail(e)
      case Ok(p) =>
        match Register(puts[1..], fallback)
        case Fail(e) => Fail(e)
        case Ok(rest) => Ok([(puts[0].0, OpInfo(p, puts[0].1.1))] + rest)
  }

  /** As written: one put whose group the table lacks makes the whole registration throw. */
  lemma {:induction false} MissingGroupCrashes(puts: seq<(string, (string, bool))>, i: int)
    requires 0 <= i < |puts| && puts[i].1.0 !in PRECEDENCE
    ensures Register(puts, None) == Fail(Crash("NullPointerException"))
    decreases |puts|
  {
    if i > 0 && Unbox(puts[0].1.0, None).Ok? {
      assert puts[1..][i - 1] == puts[i];
      MissingGroupCrashes(puts[1..], i - 1);
    }
  }

  /** As written, `=`, `+=` and `<>` ask for `assign=<>`, so registering the operators always throws. */
  lemma AssignmentRegistrationCrashes()
    ensures Register(OPERATOR_PUTS, None) == Fail(Crash("NullPointerException"))
  {
    PrecedenceOrder();
    assert OPERATOR_PUTS[20].1.0 == ASSIGN_KEY;
    MissingGroupCrashes(OPERATOR_PUTS, 20);
  }

  /** With a precedence for the missing group, every put registers its group's precedence. */
  lemma {:induction false} RegisterWithFallback(puts: seq<(string, (string, bool))>, assignPrec: int)
    ensures Register(puts, Some(assignPrec)).Ok?
    ensures forall i :: 0 <= i < |puts| ==>
              Register(puts, Some(assignPrec)).v[i] == (puts[i].0, Info(puts[i].1, assignPrec))
    decreases |puts|
  {
    if puts != [] {
      RegisterWithFallback(puts[1..], assignPrec);
      var r := Register(puts, Some(assignPrec)).v;
      forall i | 0 <= i < |puts|
        ensures r[i] == (puts[i].0, Info(puts[i].1, assignPrec))
      {
        if i > 0 {
          assert r[i] == Register(puts[1..], Some(assignPrec)).v[i - 1];
          assert puts[1..][i - 1] == puts[i];
        }
      }
    }
  }

  /** A lookup in a registered table finds the registration of the looked-up put. */
  lemma {:induction false} LookupRegistered(key: string, puts: seq<(string, (string, bool))>,
                                            table: seq<(string, OpInfo)>, assignPrec: int)
    requires |table| == |puts|
    requires forall i :: 0 <= i < |puts| ==> table[i] == (puts[i].0, Info(puts[i].1, assignPrec))
    ensures Lookup(key, table) == if Lookup(key, puts).None? then None else Some(Info(Lookup(key, puts).value, assignPrec))
    decreases |puts|
  {
    if puts != [] {
      var n := |puts| - 1;
      LookupRegistered(key, puts[..n], table[..n], assignPrec);
    }
  }

  /**
   * Corrected: with a precedence supplied for `assign=<>` the registration
   * succeeds, and the table it builds is the one the parser consults.
   */
  lemma CorrectedRegistration(assignPrec: int)
    ensures Register(OPERATOR_PUTS, Some(assignPrec)).Ok?
    ensures forall key :: Lookup(key, Register(OPERATOR_PUTS, Some(assignPrec)).v) == Operator(key, assignPrec)
  {
    RegisterWithFallback(OPERATOR_PUTS, assignPrec);
    forall key
      ensures Lookup(key, Register(OPERATOR_PUTS, Some(assignPrec)).v) == Operator(key, assignPrec)
    {
      LookupRegistered(key, OPERATOR_PUTS, Register(OPERATOR_PUTS, Some(assignPrec)).v, assignPrec);
    }
  }

  /** `^` is registered as exponent and then as bit-xor; bit-xor is what remains. */
  lemma XorReplacesExponent(assignPrec: int)
    ensures Operator("^", assignPrec) == Some(OpInfo(PRECEDENCE["bit-xor^"], false))
    ensures Operator("^", assignPrec).value.precedence != PRECEDENCE["exponent**"]
  {
    LookupLatest("^", OPERATOR_PUTS, 9);
  }

  /** `+`, `*` and `-` take the precedence of their groups and associate to the left. */
  lemma ArithmeticPrecedences(assignPrec: int)
    ensures Operator("+", assignPrec) == Some(OpInfo(PRECEDENCE["addition+-"], true))
    ensures Operator("*", assignPrec) == Some(OpInfo(PRECEDENCE["multiplication*/%"], true))
    ensures Operator("-", assignPrec) == Some(OpInfo(PRECEDENCE["addition+-"], true))
  {
    LookupLatest("+", OPERATOR_PUTS, 0);
    LookupLatest("*", OPERATOR_PUTS, 2);
    LookupLatest("-", OPERATOR_PUTS, 1);
  }

  /** Unary minus binds tightest. */
  lemma UnaryPrecedence(assignPrec: int)
    ensures Operator("-u", assignPrec) == Some(OpInfo(PRECEDENCE["unary+-!"], false))
  {
    LookupLatest("-u", OPERATOR_PUTS, 23);
  }

  /** `<=` and `!=` take the precedence of their groups. */
  lemma ComparisonPrecedences(assignPrec: int)
    ensures Operator("<=", assignPrec) == Some(OpInfo(PRECEDENCE["compare>=><=<"], false))
    ensures Operator("!=", assignPrec) == Some(OpInfo(PRECEDENCE["equal==!="], false))
  {
    LookupLatest("<=", OPERATOR_PUTS, 17);
    LookupLatest("!=", OPERATOR_PUTS, 19);
  }

  /** `&&` binds tighter than `||`. */
  lemma LogicPrecedences(assignPrec: int)
    ensures Operator("&&", assignPrec) == Some(OpInfo(PRECEDENCE["and&&"], false))
    ensures Operator("||", assignPrec) == Some(OpInfo(PRECEDENCE["or||"], false))
  {
    LookupLatest("&&", OPERATOR_PUTS, 11);
    LookupLatest("||", OPERATOR_PUTS, 12);
  }

  /** `;` binds loosest and to the left, `->` just above it, and `=` takes the given precedence. */
  lemma SequencePrecedences(assignPrec: int)
    ensures Operator(";", assignPrec) == Some(OpInfo(PRECEDENCE["nextop;"], true))
    ensures Operator("->", assignPrec) == Some(OpInfo(PRECEDENCE["def->"], false))
    ensures Operator("=", assignPrec) == Some(OpInfo(assignPrec, false))
  {
    LookupLatest(";", OPERATOR_PUTS, 26);
    LookupLatest("->", OPERATOR_PUTS, 27);
    LookupLatest("=", OPERATOR_PUTS, 20);
  }

  /** `Expression.isAnOperator`: a registered key in binary or unary form. */
  predicate IsAnOperator(s: string) {
    Operator(s, 0).Some? || Operator(s + "u", 0).Some?
  }

  /** Argument count of a built-in function; `-1` means any number. */
  const VARIADIC := -1

  /**
   * Expression.functions after the five `apply` calls (FunctionsAndControlFlow,
   * Operators, Arithmetic, SystemFunctions, LoopsAndHigherOrderFunctions):
   * the argument count of each built-in.  `print` is put twice, with the same
   * count.
   */
  function BuiltinArity(name: string): Option<int> {
    match name
    case "." => Some(VARIADIC) case "outer" => Some(1) case "exit" => Some(VARIADIC)
    case "return" => Some(VARIADIC) case "throw" => Some(VARIADIC) case "try" => Some(VARIADIC)
    case "if" => Some(VARIADIC)
    case "not" => Some(1) case "fact" => Some(1) case "sin" => Some(1) case "cos" => Some(1)
    case "tan" => Some(1) case "asin" => Some(1) case "acos" => Some(1) case "atan" => Some(1)
    case "atan2" => Some(2) case "sinh" => Some(1) case "cosh" => Some(1) case "tanh" => Some(1)
    case "sec" => Some(1) case "csc" => Some(1) case "sech" => Some(1) case "csch" => Some(1)
    case "cot" => Some(1) case "acot" => Some(1) case "coth" => Some(1) case "asinh" => Some(1)
    case "acosh" => Some(1) case "atanh" => Some(1) case "rad" => Some(1) case "deg" => Some(1)
    case "ln" => Some(1) case "ln1p" => Some(1) case "log10" => Some(1) case "log" => Some(1)
    case "log1p" => Some(1) case "sqrt" => Some(1) case "abs" => Some(1) case "round" => Some(1)
    case "floor" => Some(1) case "ceil" => Some(1) case "mandelbrot" => Some(3)
    case "max" => Some(VARIADIC) case "min" => Some(VARIADIC) case "relu" => Some(1)
    case "print" => Some(1) case "bool" => Some(1) case "number" => Some(1)
    case "str" => Some(VARIADIC) case "length" => Some(1) case "rand" => Some(1)
    case "sleep" => Some(1) case "time" => Some(0) case "var" => Some(1) case "undef" => Some(1)
    case "vars" => Some(1)
    case "l" => Some(VARIADIC) case "m" => Some(VARIADIC) case "matrix" => Some(VARIADIC)
    case "transpose" => Some(1) case "join" => Some(VARIADIC) case "split" => Some(2)
    case "slice" => Some(VARIADIC) case "sort" => Some(VARIADIC) case "sort_key" => Some(2)
    case "range" => Some(VARIADIC) case "get" => Some(2) case "has" => Some(2) case "put" => Some(3)
    case "while" => Some(3) case "loop" => Some(VARIADIC) case "map" => Some(VARIADIC)
    case "filter" => Some(VARIADIC) case "first" => Some(2) case "all" => Some(2)
    case "for" => Some(VARIADIC) case "reduce" => Some(3)
    case _ => None
  }

  predicate IsBuiltin(name: string) {
    BuiltinArity(name).Some?
  }

  /** A built-in whose argument count `validate` checks. */
  predicate FixedArity(name: string) {
    BuiltinArity(name).Some? && BuiltinArity(name).value >= 0
  }

  /** The arities the control-flow built-ins are registered with. */
  lemma ControlFlowArities()
    ensures BuiltinArity(".") == Some(VARIADIC) && BuiltinArity("outer") == Some(1)
    ensures BuiltinArity("try") == Some(VARIADIC) && BuiltinArity("if") == Some(VARIADIC)
  {
  }

  /** The arities the loop built-ins are registered with. */
  lemma LoopArities()
    ensures BuiltinArity("while") == Some(3) && BuiltinArity("first") == Some(2)
    ensures BuiltinArity("all") == Some(2) && BuiltinArity("reduce") == Some(3)
  {
  }
}
