/**
 * What `Expression` does to a program before running it, as functions:
 * the text it stores, the shunting-yard that turns the token stream into
 * reverse Polish notation, the arity check `validate` runs on that, and the
 * tree `getAST` builds from it.  Module Parser holds the class that does the
 * same with stacks and loops and is proved to compute these.
 */
module ParseSpec {
  import opened Values
  import opened Tokens
  import opened Registry
  import opened LexSpec
  import opened Ast

  // ---------------------------------------------------------------------
  // The stored program text.

  /** `String.trim` removes every character up to U+0020 from both ends. */
  predicate IsTrimmable(c: char) {
    c <= ' '
  }

  function TrimStart(s: string): (r: string)
    ensures |r| <= |s| && r == s[|s| - |r|..]
    ensures r == [] || !IsTrimmable(r[0])
    ensures forall i :: 0 <= i < |s| - |r| ==> IsTrimmable(s[i])
  {
    if s == [] || !IsTrimmable(s[0]) then s else TrimStart(s[1..])
  }

  function TrimEnd(s: string): (r: string)
    ensures |r| <= |s| && r == s[..|r|]
    ensures r == [] || !IsTrimmable(r[|r| - 1])
    ensures forall i :: |r| <= i < |s| ==> IsTrimmable(s[i])
  {
    if s == [] || !IsTrimmable(s[|s| - 1]) then s else TrimEnd(s[..|s| - 1])
  }

  function Trim(s: string): string {
    TrimEnd(TrimStart(s))
  }

  /** `replaceAll("\\r\\n?", "\n")`: every `\r`, with the `\n` after it if any, becomes one `\n`. */
  function UnifyNewlines(s: string): (r: string)
    ensures forall i :: 0 <= i < |r| ==> r[i] != '\r'
    ensures |r| <= |s|
    ensures |s| > 0 && s[|s| - 1] != '\r' && s[|s| - 1] != '\n' ==> |r| > 0 && r[|r| - 1] == s[|s| - 1]
    decreases |s|
  {
    if s == [] then []
    else if s[0] == '\r' then "\n" + UnifyNewlines(if |s| > 1 && s[1] == '\n' then s[2..] else s[1..])
    else [s[0]] + UnifyNewlines(s[1..])
  }

  /** The characters a Java regex `$` may stand in front of at the end of the input. */
  predicate IsLineTerminator(c: char) {
    c == '\n' || c == '\r' || c == '\U{0085}' || c == '\U{2028}' || c == '\U{2029}'
  }

  /** A maximal run of `;` at the end of `s` removed. */
  function DropSemicolons(s: string): (r: string)
    ensures |r| <= |s| && r == s[..|r|]
    ensures r == [] || r[|r| - 1] != ';'
    ensures forall i :: |r| <= i < |s| ==> s[i] == ';'
  {
    if s == [] || s[|s| - 1] != ';' then s else DropSemicolons(s[..|s| - 1])
  }

  /**
   * `replaceAll(";+$", "")`: the run of semicolons that ends the text, or
   * that stands right before a final line terminator, is removed.
   */
  function StripSemicolons(s: string): (r: string)
  {
    if |s| > 0 && IsLineTerminator(s[|s| - 1]) then DropSemicolons(s[..|s| - 1]) + [s[|s| - 1]]
    else DropSemicolons(s)
  }

  /** The text the `Expression` constructor stores. */
  function Normalise(input: string): string {
    StripSemicolons(UnifyNewlines(Trim(input)))
  }

  /** The stored text has no carriage return. */
  lemma NormaliseNoCarriageReturn(input: string)
    ensures forall i :: 0 <= i < |Normalise(input)| ==> Normalise(input)[i] != '\r'
  {
    var u := UnifyNewlines(Trim(input));
    if |u| > 0 && IsLineTerminator(u[|u| - 1]) {
      var r := StripSemicolons(u);
      assert r == DropSemicolons(u[..|u| - 1]) + [u[|u| - 1]];
      assert forall i :: 0 <= i < |r| ==> r[i] == u[if i < |r| - 1 then i else |u| - 1];
    }
  }

  /** The stored text does not end with `;`. */
  lemma NormaliseNoFinalSemicolon(input: string)
    ensures Normalise(input) == [] || Normalise(input)[|Normalise(input)| - 1] != ';'
  {
  }

  /**
   * A text that is already trimmed, free of `\r` and not ended by `;` or a
   * line terminator is stored unchanged.
   */
  lemma NormaliseKeepsClean(input: string)
    requires forall i :: 0 <= i < |input| ==> input[i] != '\r'
    requires input != [] ==> !IsTrimmable(input[0]) && !IsTrimmable(input[|input| - 1])
    requires input != [] ==> input[|input| - 1] != ';' && !IsLineTerminator(input[|input| - 1])
    ensures Normalise(input) == input
  {
    assert TrimStart(input) == input;
    assert Trim(input) == input;
    NoCarriageReturn(input);
  }

  /** Without `\r` there is nothing to unify. */
  lemma {:induction false} NoCarriageReturn(s: string)
    requires forall i :: 0 <= i < |s| ==> s[i] != '\r'
    ensures UnifyNewlines(s) == s
    decreases |s|
  {
    if s != [] {
      NoCarriageReturn(s[1..]);
      assert [s[0]] + s[1..] == s;
    }
  }

  // ---------------------------------------------------------------------
  // Shunting-yard.

  /**
   * The state of `shuntingYard`: the output queue, the operator stack (top
   * last), the last function seen, the previous non-marker token, and the
   * program text, which a `$` marker rewrites.
   */
  datatype Shunt = Shunt(output: seq<Token>, stack: seq<Token>, lastFunction: Option<Token>, previous: Option<Token>, code: string)

  function Fresh(code: string): Shunt {
    Shunt([], [], None, None, code)
  }

  /** The `*` pushed for implicit multiplication: a new Token, so at position 0. */
  const IMPLICIT_TIMES := Token("*", OPERATOR, 0, 0, 0)

  const MISMATCHED := "Mismatched parentheses"
  const PREMATURE := "Script ended prematurely"

  predicate IsOperatorToken(t: Token) {
    t.ttype == OPERATOR || t.ttype == UNARY_OPERATOR
  }

  predicate IsParen(t: Token) {
    t.ttype == OPEN_PAREN || t.ttype == CLOSE_PAREN
  }

  /** The tokens that go straight to the output queue. */
  predicate IsOperand(t: Token) {
    t.ttype == VARIABLE || t.ttype == LITERAL || t.ttype == HEX_LITERAL || t.ttype == STRING
  }

  /**
   * `Expression.operators`: what a key looks up.  The shunting-yard is stated
   * over any table; an expression uses `OperatorTable`.
   */
  type Table = string -> Option<OpInfo>

  function OperatorTable(assignPrec: int): Table {
    key => Operator(key, assignPrec)
  }

  /** Every operator on the stack is in the operator table. */
  predicate Registered(stack: seq<Token>, ops: Table) {
    forall i :: 0 <= i < |stack| && IsOperatorToken(stack[i]) ==> ops(stack[i].surface).Some?
  }

  /**
   * Whether the operator `top` leaves the stack before `o1` is pushed: `o1`
   * is left-associative and does not bind tighter, or binds looser.
   */
  predicate Yields(o1: OpInfo, top: Token, ops: Table) {
    IsOperatorToken(top) && ops(top.surface).Some?
    && ((o1.leftAssoc && o1.precedence <= ops(top.surface).value.precedence)
        || o1.precedence < ops(top.surface).value.precedence)
  }

  /** Reversing a sequence with one more element at the end puts it first. */
  lemma ReversedSnoc<T>(s: seq<T>, x: T)
    ensures Reversed(s + [x]) == [x] + Reversed(s)
  {
    assert forall i :: 0 <= i < |s| + 1 ==> Reversed(s + [x])[i] == ([x] + Reversed(s))[i];
  }

  /**
   * Popping the top of the stack onto the output and then a run below it
   * pops the run with the top, topmost first.
   */
  lemma PoppedTop<T>(output: seq<T>, stack: seq<T>, r: (seq<T>, seq<T>))
    requires stack != []
    requires |r.1| <= |stack| - 1 && r.1 == stack[..|stack| - 1][..|r.1|]
    requires r.0 == output + [stack[|stack| - 1]] + Reversed(stack[..|stack| - 1][|r.1|..])
    ensures r.1 == stack[..|r.1|]
    ensures r.0 == output + Reversed(stack[|r.1|..])
  {
    var last, below := stack[|stack| - 1], stack[..|stack| - 1];
    assert stack[|r.1|..] == below[|r.1|..] + [last];
    ReversedSnoc(below[|r.1|..], last);
    AppendAssoc(output, [last], Reversed(below[|r.1|..]));
  }

  /** Popping a yielding top and then a yielding run below it pops a yielding run. */
  lemma PoppedYielding(output: seq<Token>, below: seq<Token>, last: Token, o1: OpInfo, ops: Table, r: (seq<Token>, seq<Token>))
    requires Yields(o1, last, ops)
    requires |r.1| <= |below| && r.1 == below[..|r.1|]
    requires r.0 == output + [last] + Reversed(below[|r.1|..])
    requires forall j :: |r.1| <= j < |below| ==> Yields(o1, below[j], ops)
    ensures r.1 == (below + [last])[..|r.1|]
    ensures r.0 == output + Reversed((below + [last])[|r.1|..])
    ensures forall j :: |r.1| <= j < |below + [last]| ==> Yields(o1, (below + [last])[j], ops)
  {
    var stack := below + [last];
    assert stack[..|stack| - 1] == below;
    PoppedTop(output, stack, r);
  }

  /**
   * `shuntOperators`: the longest run of yielding operators on top of the
   * stack moves to the output, topmost first; the new top does not yield.
   */
  function ShuntOperators(output: seq<Token>, stack: seq<Token>, o1: OpInfo, ops: Table): (r: (seq<Token>, seq<Token>))
    ensures |r.1| <= |stack| && r.1 == stack[..|r.1|]
    ensures r.0 == output + Reversed(stack[|r.1|..])
    ensures forall j :: |r.1| <= j < |stack| ==> Yields(o1, stack[j], ops)
    ensures r.1 == [] || !Yields(o1, r.1[|r.1| - 1], ops)
    decreases |stack|
  {
    if stack != [] && Yields(o1, stack[|stack| - 1], ops) then
      var last, below := stack[|stack| - 1], stack[..|stack| - 1];
      var r := ShuntOperators(output + [last], below, o1, ops);
      assert stack == below + [last];
      PoppedYielding(output, below, last, o1, ops, r);
      r
    else
      assert stack[..|stack|] == stack && stack[|stack|..] == [];
      assert output + Reversed([]) == output;
      (output, stack)
  }

  /** Popping a top that is not `(` and then a run below it with no `(` pops a run with no `(`. */
  lemma PoppedNonParen(output: seq<Token>, below: seq<Token>, last: Token, r: (seq<Token>, seq<Token>))
    requires last.ttype != OPEN_PAREN
    requires |r.1| <= |below| && r.1 == below[..|r.1|]
    requires r.0 == output + [last] + Reversed(below[|r.1|..])
    requires forall j :: |r.1| <= j < |below| ==> below[j].ttype != OPEN_PAREN
    ensures r.1 == (below + [last])[..|r.1|]
    ensures r.0 == output + Reversed((below + [last])[|r.1|..])
    ensures forall j :: |r.1| <= j < |below + [last]| ==> (below + [last])[j].ttype != OPEN_PAREN
  {
    var stack := below + [last];
    assert stack[..|stack| - 1] == below;
    PoppedTop(output, stack, r);
  }

  /**
   * The pops of `,` and `)`: every token above the nearest `(` moves to the
   * output, topmost first; what is left is empty or has `(` on top.
   */
  function PopToParen(output: seq<Token>, stack: seq<Token>): (r: (seq<Token>, seq<Token>))
    ensures |r.1| <= |stack| && r.1 == stack[..|r.1|]
    ensures r.0 == output + Reversed(stack[|r.1|..])
    ensures forall j :: |r.1| <= j < |stack| ==> stack[j].ttype != OPEN_PAREN
    ensures r.1 == [] || r.1[|r.1| - 1].ttype == OPEN_PAREN
    decreases |stack|
  {
    if stack != [] && stack[|stack| - 1].ttype != OPEN_PAREN then
      var last, below := stack[|stack| - 1], stack[..|stack| - 1];
      var r := PopToParen(output + [last], below);
      assert stack == below + [last];
      PoppedNonParen(output, below, last, r);
      r
    else
      assert stack[..|stack|] == stack && stack[|stack|..] == [];
      assert output + Reversed([]) == output;
      (output, stack)
  }

  /** The loop after the last token: the stack empties onto the output, and a paren left on it is an error. */
  function Drain(output: seq<Token>, stack: seq<Token>): (r: Res<seq<Token>>)
    ensures r.Ok? <==> forall j :: 0 <= j < |stack| ==> !IsParen(stack[j])
    ensures r.Ok? ==> r.v == output + Reversed(stack)
    ensures r.Fail? ==> r.err == ExprErr(MISMATCHED)
    decreases |stack|
  {
    if stack == [] then Ok(output)
    else if IsParen(stack[|stack| - 1]) then Fail(ExprErr(MISMATCHED))
    else
      var r := Drain(output + [stack[|stack| - 1]], stack[..|stack| - 1]);
      assert stack == stack[..|stack| - 1] + [stack[|stack| - 1]];
      assert Reversed(stack) == [stack[|stack| - 1]] + Reversed(stack[..|stack| - 1]);
      r
  }

  predicate IsConstantType(t: TokenType) {
    t == LITERAL || t == HEX_LITERAL || t == STRING
  }

  /** The previous token has the given type. */
  predicate PreviousIs(prev: Option<Token>, t: TokenType) {
    prev.Some? && prev.value.ttype == t
  }

  /** The `switch` of `shuntingYard` for one token. */
  function ShuntCase(st: Shunt, tok: Token, ops: Table): Res<Shunt>
  {
    var prev := st.previous;
    match tok.ttype
    case STRING | LITERAL | HEX_LITERAL =>
      if prev.Some? && IsConstantType(prev.value.ttype) then Fail(ExprErr("Missing operator"))
      else Ok(st.(output := st.output + [tok]))
    case VARIABLE => Ok(st.(output := st.output + [tok]))
    case FUNCTION => Ok(st.(stack := st.stack + [tok], lastFunction := Some(tok)))
    case COMMA =>
      if PreviousIs(prev, OPERATOR) then Fail(ExprErr("Missing parameter(s) for operator "))
      else
        var (out, stk) := PopToParen(st.output, st.stack);
        if stk == [] then
          Fail(ExprErr(if st.lastFunction.None? then "Unexpected comma" else "Parse error for function"))
        else Ok(st.(output := out, stack := stk))
    case OPERATOR =>
      if PreviousIs(prev, COMMA) || PreviousIs(prev, OPEN_PAREN) then
        Fail(ExprErr("Missing parameter(s) for operator '" + tok.surface + "'"))
      else
        (match ops(tok.surface)
         case None => Fail(ExprErr("Unknown operator '" + tok.surface + "'"))
         case Some(o1) =>
           var (out, stk) := ShuntOperators(st.output, st.stack, o1, ops);
           Ok(st.(output := out, stack := stk + [tok])))
    case UNARY_OPERATOR =>
      if prev.Some? && prev.value.ttype != OPERATOR && prev.value.ttype != COMMA && prev.value.ttype != OPEN_PAREN then
        Fail(ExprErr("Invalid position for unary operator " + tok.surface))
      else
        (match ops(tok.surface)
         case None =>
           if |tok.surface| == 0 then Fail(Crash("StringIndexOutOfBoundsException"))
           else Fail(ExprErr("Unknown unary operator '" + tok.surface[..|tok.surface| - 1] + "'"))
         case Some(o1) =>
           var (out, stk) := ShuntOperators(st.output, st.stack, o1, ops);
           Ok(st.(output := out, stack := stk + [tok])))
    case OPEN_PAREN =>
      var times := if prev.Some? && (prev.value.ttype == LITERAL || prev.value.ttype == CLOSE_PAREN
                       || prev.value.ttype == VARIABLE || prev.value.ttype == HEX_LITERAL) then [IMPLICIT_TIMES] else [];
      var out := if PreviousIs(prev, FUNCTION) then st.output + [tok] else st.output;
      Ok(st.(output := out, stack := st.stack + times + [tok]))
    case CLOSE_PAREN =>
      if PreviousIs(prev, OPERATOR) then Fail(ExprErr("Missing parameter(s) for operator " + prev.value.surface))
      else
        var (out, stk) := PopToParen(st.output, st.stack);
        if stk == [] then Fail(ExprErr(MISMATCHED))
        else
          var stk := stk[..|stk| - 1];
          if stk != [] && stk[|stk| - 1].ttype == FUNCTION then
            Ok(st.(output := out + [stk[|stk| - 1]], stack := stk[..|stk| - 1]))
          else Ok(st.(output := out, stack := stk))
    case MARKER =>
      if tok.surface == "$" then
        if 0 <= tok.pos < |st.code| then Ok(st.(code := st.code[..tok.pos] + "\n" + st.code[tok.pos + 1..]))
        else Fail(Crash("StringIndexOutOfBoundsException"))
      else Ok(st)
  }

  /** One token of `shuntingYard`: its case, then the previous token is remembered unless it is a marker. */
  function ShuntToken(st: Shunt, tok: Token, ops: Table): (r: Res<Shunt>)
  {
    match ShuntCase(st, tok, ops)
    case Fail(e) => Fail(e)
    case Ok(s) => Ok(if tok.ttype != MARKER then s.(previous := Some(tok)) else s)
  }

  /**
   * `shuntingYard` from the tokenizer cursor `c` on: the RPN, or the first
   * error, together with the program text as the `$` markers left it.
   */
  function ShuntFrom(src: Source, c: Cursor, st: Shunt, ops: Table): (Res<seq<Token>>, string)
    requires 0 <= c.pos
    decreases |src.input| - c.pos
  {
    if c.pos >= |src.input| then (Drain(st.output, st.stack), st.code)
    else
      match Step(src, c)
      case Emitted(tok, after) =>
        (match ShuntToken(st, tok, ops)
         case Fail(e) => (Fail(e), st.code)
         case Ok(st') => ShuntFrom(src, after, st', ops))
      case Failed(msg) => (Fail(ExprErr(msg)), st.code)
      case OutOfRange => (Fail(ExprErr(PREMATURE)), st.code)
      case NullPointer => (Fail(Crash("NullPointerException")), st.code)
      case Finished(_) => (Fail(Crash("NullPointerException")), st.code)
  }

  /** `shuntingYard` of an expression with the given text and options. */
  function ShuntingYard(code: string, comments: bool, newLines: bool, ops: Table): (Res<seq<Token>>, string) {
    ShuntFrom(Source(code, comments, newLines, true), START, Fresh(code), ops)
  }

  /** The shunting-yard over a token list already read: the tokens in turn, then the drain. */
  function ShuntList(toks: seq<Token>, st: Shunt, ops: Table): (Res<seq<Token>>, string)
    decreases |toks|
  {
    if toks == [] then (Drain(st.output, st.stack), st.code)
    else
      match ShuntToken(st, toks[0], ops)
      case Fail(e) => (Fail(e), st.code)
      case Ok(st') => ShuntList(toks[1..], st', ops)
  }

  /**
   * Reading tokens one at a time while shunting them gives what shunting the
   * whole token list gives, once the tokenizer gets through the text.
   */
  lemma {:induction false} ShuntTokenized(src: Source, c: Cursor, st: Shunt, ops: Table)
    requires 0 <= c.pos
    requires Tokenize(src, c).Ok?
    ensures ShuntFrom(src, c, st, ops) == ShuntList(Tokenize(src, c).v, st, ops)
    decreases |src.input| - c.pos
  {
    if c.pos < |src.input| {
      TokenizeUnfold(src, c);
      var o := Step(src, c);
      if o.Emitted? {
        var rest := Tokenize(src, o.after);
        assert Tokenize(src, c).v == [o.tok] + rest.v;
        assert Tokenize(src, c).v[1..] == rest.v;
        var t := ShuntToken(st, o.tok, ops);
        if t.Ok? {
          ShuntTokenized(src, o.after, t.v, ops);
        }
      }
    }
  }

  // ---------------------------------------------------------------------
  // What the shunting-yard keeps: the operands, in order.

  /** The operand tokens of a list, in order. */
  function Operands(toks: seq<Token>): (r: seq<Token>)
    ensures forall i :: 0 <= i < |r| ==> IsOperand(r[i])
    decreases |toks|
  {
    if toks == [] then [] else (if IsOperand(toks[0]) then [toks[0]] else []) + Operands(toks[1..])
  }

  lemma {:induction false} OperandsAppend(a: seq<Token>, b: seq<Token>)
    ensures Operands(a + b) == Operands(a) + Operands(b)
    decreases |a|
  {
    if a == [] {
      assert a + b == b;
    } else {
      assert (a + b)[1..] == a[1..] + b;
      OperandsAppend(a[1..], b);
    }
  }

  lemma {:induction false} NoOperands(s: seq<Token>)
    requires forall j :: 0 <= j < |s| ==> !IsOperand(s[j])
    ensures Operands(s) == []
    decreases |s|
  {
    if s != [] {
      NoOperands(s[1..]);
    }
  }

  /** A unary operator token is one of `-u`, `+u` and `!u`. */
  predicate KnownUnary(t: Token) {
    t.ttype == UNARY_OPERATOR ==> ResolveUnary(t.surface).Some?
  }

  /** What the operator stack holds: calls, operators and open parens, unary ones known. */
  predicate StackKind(t: Token) {
    (t.ttype == FUNCTION || IsOperatorToken(t) || t.ttype == OPEN_PAREN) && KnownUnary(t)
  }

  /** What the output queue holds: operands and what came off the stack. */
  predicate RpnKind(t: Token) {
    IsOperand(t) || StackKind(t)
  }

  predicate StackKinds(s: seq<Token>) {
    forall j :: 0 <= j < |s| ==> StackKind(s[j])
  }

  predicate RpnKinds(s: seq<Token>) {
    forall j :: 0 <= j < |s| ==> RpnKind(s[j])
  }

  /** The shunting-yard's invariant on its two containers. */
  predicate Sound(st: Shunt) {
    StackKinds(st.stack) && RpnKinds(st.output)
  }

  /** Moving the top of the stack to the output keeps both sound and adds no operand. */
  lemma Moved(output: seq<Token>, stack: seq<Token>, k: int)
    requires 0 <= k <= |stack| && StackKinds(stack) && RpnKinds(output)
    ensures StackKinds(stack[..k])
    ensures RpnKinds(output + Reversed(stack[k..]))
    ensures Operands(output + Reversed(stack[k..])) == Operands(output)
  {
    NoOperands(Reversed(stack[k..]));
    OperandsAppend(output, Reversed(stack[k..]));
  }

  /** An operand goes to the output and nothing else changes. */
  lemma OperandCase(st: Shunt, tok: Token, ops: Table)
    requires Sound(st) && IsOperand(tok) && ShuntCase(st, tok, ops).Ok?
    ensures ShuntCase(st, tok, ops).v == st.(output := st.output + [tok])
    ensures Sound(ShuntCase(st, tok, ops).v)
    ensures Operands(ShuntCase(st, tok, ops).v.output) == Operands(st.output) + [tok]
  {
    OperandsAppend(st.output, [tok]);
  }

  /** A comma pops down to the nearest open paren. */
  lemma CommaCase(st: Shunt, tok: Token, ops: Table)
    requires Sound(st) && tok.ttype == COMMA && ShuntCase(st, tok, ops).Ok?
    ensures Sound(ShuntCase(st, tok, ops).v)
    ensures Operands(ShuntCase(st, tok, ops).v.output) == Operands(st.output)
  {
    var (out, stk) := PopToParen(st.output, st.stack);
    assert ShuntCase(st, tok, ops) == Ok(st.(output := out, stack := stk));
    Moved(st.output, st.stack, |stk|);
  }

  /** An operator shunts the stack, then is pushed. */
  lemma OperatorCase(st: Shunt, tok: Token, ops: Table)
    requires Sound(st) && IsOperatorToken(tok) && KnownUnary(tok) && ShuntCase(st, tok, ops).Ok?
    ensures Sound(ShuntCase(st, tok, ops).v)
    ensures Operands(ShuntCase(st, tok, ops).v.output) == Operands(st.output)
  {
    var o1 := ops(tok.surface).value;
    var (out, stk) := ShuntOperators(st.output, st.stack, o1, ops);
    assert ShuntCase(st, tok, ops) == Ok(st.(output := out, stack := stk + [tok]));
    Moved(st.output, st.stack, |stk|);
  }

  /** An open paren is pushed, after a `*` when it follows a value, and is output after a function. */
  lemma OpenCase(st: Shunt, tok: Token, ops: Table)
    requires Sound(st) && tok.ttype == OPEN_PAREN
    ensures ShuntCase(st, tok, ops).Ok?
    ensures Sound(ShuntCase(st, tok, ops).v)
    ensures Operands(ShuntCase(st, tok, ops).v.output) == Operands(st.output)
  {
    if PreviousIs(st.previous, FUNCTION) {
      OperandsAppend(st.output, [tok]);
    }
  }

  /** A close paren pops down to its open paren, drops it, and outputs a function under it. */
  lemma CloseCase(st: Shunt, tok: Token, ops: Table)
    requires Sound(st) && tok.ttype == CLOSE_PAREN && ShuntCase(st, tok, ops).Ok?
    ensures Sound(ShuntCase(st, tok, ops).v)
    ensures Operands(ShuntCase(st, tok, ops).v.output) == Operands(st.output)
  {
    var (out, stk) := PopToParen(st.output, st.stack);
    Moved(st.output, st.stack, |stk|);
    var stk' := stk[..|stk| - 1];
    if stk' != [] && stk'[|stk'| - 1].ttype == FUNCTION {
      assert ShuntCase(st, tok, ops) == Ok(st.(output := out + [stk'[|stk'| - 1]], stack := stk'[..|stk'| - 1]));
      OperandsAppend(out, [stk'[|stk'| - 1]]);
    } else {
      assert ShuntCase(st, tok, ops) == Ok(st.(output := out, stack := stk'));
    }
  }

  /** One token: the output gains exactly that token's operands, and the state stays sound. */
  lemma ShuntTokenOperands(st: Shunt, tok: Token, ops: Table)
    requires Sound(st) && KnownUnary(tok)
    requires ShuntToken(st, tok, ops).Ok?
    ensures Sound(ShuntToken(st, tok, ops).v)
    ensures Operands(ShuntToken(st, tok, ops).v.output) == Operands(st.output) + Operands([tok])
  {
    assert Operands([tok]) == (if IsOperand(tok) then [tok] else []);
    if IsOperand(tok) {
      OperandCase(st, tok, ops);
    } else if tok.ttype == COMMA {
      CommaCase(st, tok, ops);
    } else if IsOperatorToken(tok) {
      OperatorCase(st, tok, ops);
    } else if tok.ttype == OPEN_PAREN {
      OpenCase(st, tok, ops);
    } else if tok.ttype == CLOSE_PAREN {
      CloseCase(st, tok, ops);
    } else {
      assert st.output + [] == st.output;
    }
  }

  /** Draining the stack at the end of the tokens adds no operand. */
  lemma DrainOperands(st: Shunt, ops: Table)
    requires Sound(st) && ShuntList([], st, ops).0.Ok?
    ensures Operands(ShuntList([], st, ops).0.v) == Operands(st.output)
    ensures RpnKinds(ShuntList([], st, ops).0.v)
  {
    Moved(st.output, st.stack, 0);
    assert st.stack[0..] == st.stack;
  }

  /** `ShuntList` on a non-empty list: the first token fails it or passes it on. */
  lemma ShuntListStep(toks: seq<Token>, st: Shunt, ops: Table)
    requires toks != [] && ShuntList(toks, st, ops).0.Ok?
    ensures ShuntToken(st, toks[0], ops).Ok?
    ensures ShuntList(toks, st, ops) == ShuntList(toks[1..], ShuntToken(st, toks[0], ops).v, ops)
  {
  }

  /** One token moves its operand, if it is one, from the input to the output. */
  lemma ShuntStepOperands(toks: seq<Token>, st: Shunt, ops: Table)
    requires toks != [] && Sound(st) && KnownUnary(toks[0])
    requires ShuntList(toks, st, ops).0.Ok?
    ensures ShuntToken(st, toks[0], ops).Ok?
    ensures Sound(ShuntToken(st, toks[0], ops).v)
    ensures ShuntList(toks, st, ops) == ShuntList(toks[1..], ShuntToken(st, toks[0], ops).v, ops)
    ensures Operands(ShuntToken(st, toks[0], ops).v.output) + Operands(toks[1..]) == Operands(st.output) + Operands(toks)
  {
    ShuntListStep(toks, st, ops);
    ShuntTokenOperands(st, toks[0], ops);
    assert toks == [toks[0]] + toks[1..];
    OperandsAppend([toks[0]], toks[1..]);
    var a, b, c := Operands(st.output), Operands([toks[0]]), Operands(toks[1..]);
    assert Operands(ShuntToken(st, toks[0], ops).v.output) == a + b;
    assert Operands(toks) == b + c;
    AppendAssoc(a, b, c);
  }

  /**
   * The RPN holds the operands of the token stream in their original order
   * (the shunting-yard only ever reorders operators and calls), and nothing
   * but operands, operators, calls and parameter-list opens.
   */
  lemma {:induction false} ShuntKeepsOperands(toks: seq<Token>, st: Shunt, ops: Table)
    requires Sound(st) && forall j :: 0 <= j < |toks| ==> KnownUnary(toks[j])
    requires ShuntList(toks, st, ops).0.Ok?
    ensures Operands(ShuntList(toks, st, ops).0.v) == Operands(st.output) + Operands(toks)
    ensures RpnKinds(ShuntList(toks, st, ops).0.v)
    decreases |toks|
  {
    if toks == [] {
      DrainOperands(st, ops);
    } else {
      ShuntStepOperands(toks, st, ops);
      ShuntKeepsOperands(toks[1..], ShuntToken(st, toks[0], ops).v, ops);
    }
  }

  // ---------------------------------------------------------------------
  // validate.

  function Top(scopes: seq<int>): int
    requires |scopes| >= 1
  {
    scopes[|scopes| - 1]
  }

  /** The innermost scope's count changed by `d`. */
  function Bump(scopes: seq<int>, d: int): (r: seq<int>)
    requires |scopes| >= 1
    ensures |r| == |scopes| && r[..|r| - 1] == scopes[..|scopes| - 1] && Top(r) == Top(scopes) + d
  {
    scopes[..|scopes| - 1] + [Top(scopes) + d]
  }

  /** `validate`'s `switch` for one RPN token, on the stack of per-scope value counts. */
  function ValidateToken(tok: Token, scopes: seq<int>): (r: Res<seq<int>>)
    requires |scopes| >= 1
    ensures r.Ok? ==> |r.v| >= 1
  {
    match tok.ttype
    case UNARY_OPERATOR =>
      if Top(scopes) < 1 then Fail(ExprErr("Missing parameter(s) for operator " + tok.surface)) else Ok(scopes)
    case OPERATOR =>
      if Top(scopes) < 2 then
        Fail(ExprErr(if tok.surface == ";" then "Unnecessary semicolon" else "Missing parameter(s) for operator " + tok.surface))
      else Ok(Bump(scopes, -1))
    case FUNCTION =>
      var name := LowerAscii(tok.surface);
      var n := Top(scopes);
      var rest := scopes[..|scopes| - 1];
      if FixedArity(name) && n != BuiltinArity(name).value then
        Fail(ExprErr("Function " + tok.surface + " expected " + IntToString(BuiltinArity(name).value)
                     + " parameters, got " + IntToString(n)))
      else if |rest| == 0 then Fail(ExprErr("Too many function calls, maximum scope exceeded"))
      else Ok(Bump(rest, 1))
    case OPEN_PAREN => Ok(scopes + [0])
    case _ => Ok(Bump(scopes, 1))
  }

  function ValidateFrom(rpn: seq<Token>, i: nat, scopes: seq<int>): (r: Res<()>)
    requires i <= |rpn| && |scopes| >= 1
    decreases |rpn| - i
  {
    if i == |rpn| then
      if |scopes| > 1 then Fail(ExprErr("Too many unhandled function parameter lists"))
      else if Top(scopes) > 1 then Fail(ExprErr("Too many numbers or variables"))
      else if Top(scopes) < 1 then Fail(ExprErr("Empty expression"))
      else Ok(())
    else
      match ValidateToken(rpn[i], scopes)
      case Fail(e) => Fail(e)
      case Ok(s) => ValidateFrom(rpn, i + 1, s)
  }

  /** `validate`: the global scope starts with no values. */
  function Validate(rpn: seq<Token>): Res<()> {
    ValidateFrom(rpn, 0, [0])
  }

  // ---------------------------------------------------------------------
  // getAST.

  /** An entry of `getAST`'s stack: a compiled thunk, or the `PARAMS_START` marker. */
  datatype Item = Node(e: Expr) | ParamsStart

  const EMPTY_STACK := "EmptyStackException"

  /**
   * The arguments of a call: the nodes above the nearest `PARAMS_START`, in
   * push order, and the stack below them.
   */
  function TakeArgs(stack: seq<Item>): (r: (seq<Expr>, seq<Item>))
    ensures |r.1| + |r.0| == |stack| && r.1 == stack[..|r.1|]
    ensures forall j :: 0 <= j < |r.0| ==> stack[|r.1| + j] == Node(r.0[j])
    ensures r.1 == [] || r.1[|r.1| - 1] == ParamsStart
    decreases |stack|
  {
    if stack == [] || stack[|stack| - 1] == ParamsStart then ([], stack)
    else
      var (args, rest) := TakeArgs(stack[..|stack| - 1]);
      (args + [stack[|stack| - 1].e], rest)
  }

  /** The call a `FUNCTION` token compiles to: an unknown name goes to `.` with the name appended. */
  function CallOf(tok: Token, args: seq<Expr>): (e: Expr)
    ensures e.Call? && e.tok == tok
    ensures IsBuiltin(LowerAscii(tok.surface)) ==> e.fn == ResolveBuiltin(LowerAscii(tok.surface)) && e.args == args
    ensures !IsBuiltin(LowerAscii(tok.surface)) ==> e.fn == Dot && e.args == args + [StrLit(LowerAscii(tok.surface))]
  {
    var name := LowerAscii(tok.surface);
    if IsBuiltin(name) then Call(ResolveBuiltin(name), args, tok)
    else Call(Dot, args + [StrLit(name)], tok)
  }

  /** `getAST`'s `switch` for one RPN token. */
  function BuildToken(stack: seq<Item>, tok: Token): Res<seq<Item>>
  {
    match tok.ttype
    case UNARY_OPERATOR =>
      if stack == [] then Fail(Crash(EMPTY_STACK))
      else if stack[|stack| - 1] == ParamsStart then Fail(Unmodelled("PARAMS_START as an operand"))
      else
        (match ResolveUnary(tok.surface)
         case None => Fail(Crash("NullPointerException"))
         case Some(op) => Ok(stack[..|stack| - 1] + [Node(Unary(op, stack[|stack| - 1].e, tok))]))
    case OPERATOR =>
      if |stack| < 2 then Fail(Crash(EMPTY_STACK))
      else
        var right := stack[|stack| - 1];
        var left := stack[|stack| - 2];
        if right == ParamsStart || left == ParamsStart then Fail(Unmodelled("PARAMS_START as an operand"))
        else Ok(stack[..|stack| - 2] + [Node(Binary(ResolveBinary(tok.surface), left.e, right.e, tok))])
    case VARIABLE => Ok(stack + [Node(Var(tok.surface, tok))])
    case FUNCTION =>
      var (args, rest) := TakeArgs(stack);
      if rest == [] then Fail(Crash(EMPTY_STACK))
      else Ok(rest[..|rest| - 1] + [Node(CallOf(tok, args))])
    case OPEN_PAREN => Ok(stack + [ParamsStart])
    case LITERAL => Ok(stack + [Node(NumLit(tok.surface, tok))])
    case STRING => Ok(stack + [Node(StrLit(tok.surface))])
    case HEX_LITERAL => Ok(stack + [Node(HexLit(tok.surface, tok))])
    case _ => Fail(ExprErr("Unexpected token '" + tok.surface + "'"))
  }

  function BuildFrom(rpn: seq<Token>, i: nat, stack: seq<Item>): Res<Expr>
    requires i <= |rpn|
    decreases |rpn| - i
  {
    if i == |rpn| then
      if stack == [] then Fail(Crash(EMPTY_STACK))
      else if stack[|stack| - 1] == ParamsStart then Fail(Unmodelled("PARAMS_START as the result"))
      else Ok(stack[|stack| - 1].e)
    else
      match BuildToken(stack, rpn[i])
      case Fail(e) => Fail(e)
      case Ok(s) => BuildFrom(rpn, i + 1, s)
  }

  /** The tree-building loop of `getAST`, from an empty stack. */
  function Build(rpn: seq<Token>): Res<Expr> {
    BuildFrom(rpn, 0, [])
  }

  /** `getAST`: shunting-yard, then validate, then the tree; also the program text as `$` markers left it. */
  function Compile(code: string, comments: bool, newLines: bool, ops: Table): (Res<Expr>, string) {
    var (rpn, code') := ShuntingYard(code, comments, newLines, ops);
    match rpn
    case Fail(e) => (Fail(e), code')
    case Ok(r) =>
      match Validate(r)
      case Fail(e) => (Fail(e), code')
      case Ok(_) => (Build(r), code')
  }

  // ---------------------------------------------------------------------
  // A validated RPN builds exactly one tree.

  /** The value count of each scope of a build stack: the nodes after each `PARAMS_START`. */
  function Counts(stack: seq<Item>): (r: seq<int>)
    ensures |r| >= 1
    ensures Top(r) > 0 ==> stack != [] && stack[|stack| - 1].Node?
    decreases |stack|
  {
    if stack == [] then [0]
    else if stack[|stack| - 1] == ParamsStart then Counts(stack[..|stack| - 1]) + [0]
    else Bump(Counts(stack[..|stack| - 1]), 1)
  }

  /**
   * A call takes as many arguments as its scope counts, and leaves the
   * counts of the enclosing scopes with an empty innermost one.
   */
  lemma {:induction false} TakeArgsCounts(stack: seq<Item>)
    ensures |TakeArgs(stack).0| == Top(Counts(stack))
    ensures Counts(TakeArgs(stack).1) == Counts(stack)[..|Counts(stack)| - 1] + [0]
    decreases |stack|
  {
    if stack != [] && stack[|stack| - 1] != ParamsStart {
      var s := stack[..|stack| - 1];
      TakeArgsCounts(s);
      assert TakeArgs(stack).1 == TakeArgs(s).1;
    }
  }

  lemma UnaryInStep(stack: seq<Item>, tok: Token)
    requires tok.ttype == UNARY_OPERATOR && ResolveUnary(tok.surface).Some?
    requires ValidateToken(tok, Counts(stack)).Ok?
    ensures BuildToken(stack, tok).Ok?
    ensures Counts(BuildToken(stack, tok).v) == ValidateToken(tok, Counts(stack)).v
  {
    var s := stack[..|stack| - 1];
    var r := BuildToken(stack, tok).v;
    assert r[..|r| - 1] == s;
  }

  lemma BinaryInStep(stack: seq<Item>, tok: Token)
    requires tok.ttype == OPERATOR
    requires ValidateToken(tok, Counts(stack)).Ok?
    ensures BuildToken(stack, tok).Ok?
    ensures Counts(BuildToken(stack, tok).v) == ValidateToken(tok, Counts(stack)).v
  {
    var c := Counts(stack);
    var s := stack[..|stack| - 1];
    assert Top(Counts(s)) == Top(c) - 1;
    var s2 := s[..|s| - 1];
    assert stack[..|stack| - 2] == s2;
    var r := BuildToken(stack, tok).v;
    assert r[..|r| - 1] == s2;
    assert Counts(s) == Bump(Counts(s2), 1);
  }

  /** Below a call's arguments sits its `PARAMS_START`, over the counts of the enclosing scopes. */
  lemma CallBelow(stack: seq<Item>)
    requires |Counts(stack)| >= 2
    ensures TakeArgs(stack).1 != []
    ensures Counts(TakeArgs(stack).1[..|TakeArgs(stack).1| - 1]) == Counts(stack)[..|Counts(stack)| - 1]
  {
    TakeArgsCounts(stack);
    var rest := TakeArgs(stack).1;
    assert |Counts([])| == 1;
    assert Counts(rest) == Counts(rest[..|rest| - 1]) + [0];
  }

  lemma CallInStep(stack: seq<Item>, tok: Token)
    requires tok.ttype == FUNCTION
    requires ValidateToken(tok, Counts(stack)).Ok?
    ensures BuildToken(stack, tok).Ok?
    ensures Counts(BuildToken(stack, tok).v) == ValidateToken(tok, Counts(stack)).v
  {
    var c := Counts(stack);
    assert ValidateToken(tok, c) == Ok(Bump(c[..|c| - 1], 1));
    CallBelow(stack);
    var (args, rest) := TakeArgs(stack);
    var below := rest[..|rest| - 1];
    var r := below + [Node(CallOf(tok, args))];
    assert BuildToken(stack, tok) == Ok(r);
    assert r[..|r| - 1] == below;
  }

  lemma PushInStep(stack: seq<Item>, tok: Token)
    requires tok.ttype in {VARIABLE, OPEN_PAREN, LITERAL, STRING, HEX_LITERAL}
    requires ValidateToken(tok, Counts(stack)).Ok?
    ensures BuildToken(stack, tok).Ok?
    ensures Counts(BuildToken(stack, tok).v) == ValidateToken(tok, Counts(stack)).v
  {
    var r := BuildToken(stack, tok).v;
    assert r[..|stack|] == stack;
  }

  /** A token `validate` accepts is one the build accepts, and the counts stay in step. */
  lemma BuildTokenInStep(stack: seq<Item>, tok: Token)
    requires ValidateToken(tok, Counts(stack)).Ok?
    requires RpnKind(tok)
    ensures BuildToken(stack, tok).Ok?
    ensures Counts(BuildToken(stack, tok).v) == ValidateToken(tok, Counts(stack)).v
  {
    if tok.ttype == UNARY_OPERATOR {
      UnaryInStep(stack, tok);
    } else if tok.ttype == OPERATOR {
      BinaryInStep(stack, tok);
    } else if tok.ttype == FUNCTION {
      CallInStep(stack, tok);
    } else {
      PushInStep(stack, tok);
    }
  }

  /**
   * The build loop succeeds on every RPN whose validation succeeds from the
   * stack's own counts.
   */
  lemma {:induction false} BuildFromValidated(rpn: seq<Token>, i: nat, stack: seq<Item>)
    requires i <= |rpn| && RpnKinds(rpn)
    requires ValidateFrom(rpn, i, Counts(stack)).Ok?
    ensures BuildFrom(rpn, i, stack).Ok?
    decreases |rpn| - i
  {
    if i < |rpn| {
      BuildTokenInStep(stack, rpn[i]);
      BuildFromValidated(rpn, i + 1, BuildToken(stack, rpn[i]).v);
    }
  }

  /**
   * `validate` guards `getAST`: an RPN it accepts (with known unary
   * operators) compiles to a single tree, and the build never pops an empty
   * stack or a parameter-list marker.
   */
  lemma ValidatedBuilds(rpn: seq<Token>)
    requires RpnKinds(rpn)
    requires Validate(rpn).Ok?
    ensures Build(rpn).Ok?
  {
    BuildFromValidated(rpn, 0, []);
  }

  /**
   * `getAST` end to end, once the tokenizer gets through the text and every
   * unary operator it reads is known: the RPN holds the program's operands
   * in their order of appearance, and an RPN that validates builds a tree.
   */
  lemma CompileBuilds(code: string, comments: bool, newLines: bool, ops: Table)
    requires Tokenize(Source(code, comments, newLines, true), START).Ok?
    requires var toks := Tokenize(Source(code, comments, newLines, true), START).v;
             forall j :: 0 <= j < |toks| ==> KnownUnary(toks[j])
    requires ShuntingYard(code, comments, newLines, ops).0.Ok?
    ensures Operands(ShuntingYard(code, comments, newLines, ops).0.v)
            == Operands(Tokenize(Source(code, comments, newLines, true), START).v)
    ensures Validate(ShuntingYard(code, comments, newLines, ops).0.v).Ok? ==> Compile(code, comments, newLines, ops).0.Ok?
  {
    var src := Source(code, comments, newLines, true);
    ShuntTokenized(src, START, Fresh(code), ops);
    ShuntKeepsOperands(Tokenize(src, START).v, Fresh(code), ops);
    var rpn := ShuntingYard(code, comments, newLines, ops).0.v;
    if Validate(rpn).Ok? {
      ValidatedBuilds(rpn);
    }
  }
}
