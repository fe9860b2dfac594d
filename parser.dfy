/**
 * `Expression`: one program, its text and its compiled tree.  The
 * shunting-yard, `validate` and the tree build run as loops over local
 * output queues and stacks, as the Java methods do, and each is proved to
 * compute the corresponding function of module ParseSpec.
 */
module Parser {
  import opened Values
  import opened Tokens
  import opened Registry
  import opened LexSpec
  import opened Ast
  import opened ParseSpec
  import Lexer
  import Scope
  import Interp
  import Hosts

  class Expression {
    /** The program text; a `$` marker rewrites its character to a newline. */
    var expression: string
    /** The tree, once `eval` has built it. */
    var ast: Option<Expr>
    const allowComments: bool
    const allowNewLineMarkers: bool
    /** The precedence the assignment operators `=`, `+=` and `<>` are registered with. */
    const assignPrec: int

    /** `Expression.operators`. */
    function Ops(): Table {
      OperatorTable(assignPrec)
    }

    /** The text trimmed, with unified line ends and without trailing semicolons. */
    constructor (input: string, comments: bool, newLineMarkers: bool, assignPrec: int)
      ensures expression == Normalise(input) && ast == None
      ensures allowComments == comments && allowNewLineMarkers == newLineMarkers
      ensures this.assignPrec == assignPrec
    {
      var text := Trim(input);
      text := UnifyNewlines(text);
      text := StripSemicolons(text);
      expression := text;
      ast := None;
      allowComments := comments;
      allowNewLineMarkers := newLineMarkers;
      this.assignPrec := assignPrec;
    }

    /** `shuntOperators`: pop the operators `o1` yields to onto the output. */
    method ShuntOperators(output: seq<Token>, stack: seq<Token>, o1: OpInfo) returns (output': seq<Token>, stack': seq<Token>)
      ensures (output', stack') == ParseSpec.ShuntOperators(output, stack, o1, Ops())
    {
      output', stack' := output, stack;
      while stack' != [] && Yields(o1, stack'[|stack'| - 1], Ops())
        invariant ParseSpec.ShuntOperators(output', stack', o1, Ops()) == ParseSpec.ShuntOperators(output, stack, o1, Ops())
        decreases |stack'|
      {
        output' := output' + [stack'[|stack'| - 1]];
        stack' := stack'[..|stack'| - 1];
      }
    }

    /** The pop loop of `,` and `)`: everything above the nearest `(` onto the output. */
    method PopToParen(output: seq<Token>, stack: seq<Token>) returns (output': seq<Token>, stack': seq<Token>)
      ensures (output', stack') == ParseSpec.PopToParen(output, stack)
    {
      output', stack' := output, stack;
      while stack' != [] && stack'[|stack'| - 1].ttype != OPEN_PAREN
        invariant ParseSpec.PopToParen(output', stack') == ParseSpec.PopToParen(output, stack)
        decreases |stack'|
      {
        output' := output' + [stack'[|stack'| - 1]];
        stack' := stack'[..|stack'| - 1];
      }
    }

    /** The loop after the last token: the stack onto the output, a paren left on it an error. */
    method Drain(output: seq<Token>, stack: seq<Token>) returns (r: Res<seq<Token>>)
      ensures r == ParseSpec.Drain(output, stack)
    {
      var out, stk := output, stack;
      while stk != []
        invariant ParseSpec.Drain(out, stk) == ParseSpec.Drain(output, stack)
        decreases |stk|
      {
        var element := stk[|stk| - 1];
        if IsParen(element) {
          return Fail(ExprErr(MISMATCHED));
        }
        stk := stk[..|stk| - 1];
        out := out + [element];
      }
      return Ok(out);
    }

    /** A shunting step's outcome as its method reports it. */
    predicate Reports(r: Res<Shunt>, err: Option<Err>, output': seq<Token>, stack': seq<Token>, lastFunction': Option<Token>,
                      previous: Option<Token>, code: string, code': string)
    {
      (r.Fail? ==> err == Some(r.err) && code' == code)
      && (r.Ok? ==> err == None && r.v == Shunt(output', stack', lastFunction', previous, code'))
    }

    /** Operands: a constant after a constant is a missing operator; otherwise onto the output. */
    method AcceptOperand(tok: Token, output: seq<Token>, previous: Option<Token>) returns (err: Option<Err>, output': seq<Token>)
      requires IsOperand(tok)
      ensures forall stack, lastFunction, code, ops ::
                Reports(ShuntCase(Shunt(output, stack, lastFunction, previous, code), tok, ops), err, output', stack, lastFunction, previous, code, code)
    {
      if tok.ttype != VARIABLE && previous.Some? && IsConstantType(previous.value.ttype) {
        return Some(ExprErr("Missing operator")), output;
      }
      return None, output + [tok];
    }

    /** `,`: pop to the nearest `(`, which must be there. */
    method AcceptComma(output: seq<Token>, stack: seq<Token>, lastFunction: Option<Token>, previous: Option<Token>, tok: Token)
      returns (err: Option<Err>, output': seq<Token>, stack': seq<Token>)
      requires tok.ttype == COMMA
      ensures forall code, ops ::
                Reports(ShuntCase(Shunt(output, stack, lastFunction, previous, code), tok, ops), err, output', stack', lastFunction, previous, code, code)
    {
      if PreviousIs(previous, OPERATOR) {
        return Some(ExprErr("Missing parameter(s) for operator ")), output, stack;
      }
      output', stack' := PopToParen(output, stack);
      err := None;
      if stack' == [] {
        err := Some(ExprErr(if lastFunction.None? then "Unexpected comma" else "Parse error for function"));
      }
    }

    /** Binary and unary operators: the checks, then `shuntOperators`, then the push. */
    method AcceptOperator(tok: Token, output: seq<Token>, stack: seq<Token>, previous: Option<Token>)
      returns (err: Option<Err>, output': seq<Token>, stack': seq<Token>)
      requires IsOperatorToken(tok)
      ensures forall lastFunction, code ::
                Reports(ShuntCase(Shunt(output, stack, lastFunction, previous, code), tok, Ops()), err, output', stack', lastFunction, previous, code, code)
    {
      output', stack' := output, stack;
      if tok.ttype == OPERATOR && (PreviousIs(previous, COMMA) || PreviousIs(previous, OPEN_PAREN)) {
        return Some(ExprErr("Missing parameter(s) for operator '" + tok.surface + "'")), output, stack;
      }
      if tok.ttype == UNARY_OPERATOR && previous.Some? && previous.value.ttype != OPERATOR
         && previous.value.ttype != COMMA && previous.value.ttype != OPEN_PAREN {
        return Some(ExprErr("Invalid position for unary operator " + tok.surface)), output, stack;
      }
      var o1 := Ops()(tok.surface);
      if o1.None? {
        if tok.ttype == OPERATOR {
          err := Some(ExprErr("Unknown operator '" + tok.surface + "'"));
        } else if |tok.surface| == 0 {
          err := Some(Crash("StringIndexOutOfBoundsException"));
        } else {
          err := Some(ExprErr("Unknown unary operator '" + tok.surface[..|tok.surface| - 1] + "'"));
        }
        return;
      }
      output', stack' := ShuntOperators(output, stack, o1.value);
      stack' := stack' + [tok];
      err := None;
    }

    /** `(`: an implicit `*` after a value, the paren on the output after a function, then the push. */
    method AcceptOpen(tok: Token, output: seq<Token>, stack: seq<Token>, previous: Option<Token>)
      returns (output': seq<Token>, stack': seq<Token>)
      requires tok.ttype == OPEN_PAREN
      ensures forall lastFunction, code, ops ::
                ShuntCase(Shunt(output, stack, lastFunction, previous, code), tok, ops) == Ok(Shunt(output', stack', lastFunction, previous, code))
    {
      output', stack' := output, stack;
      if previous.Some? {
        var p := previous.value.ttype;
        if p == LITERAL || p == CLOSE_PAREN || p == VARIABLE || p == HEX_LITERAL {
          stack' := stack' + [IMPLICIT_TIMES];
        }
        if p == FUNCTION {
          output' := output' + [tok];
        }
      }
      assert stack + [] == stack;
      stack' := stack' + [tok];
    }

    /** `)`: pop to the matching `(`, drop it, and output the function it opened. */
    method AcceptClose(tok: Token, output: seq<Token>, stack: seq<Token>, lastFunction: Option<Token>, previous: Option<Token>, ghost code: string)
      returns (err: Option<Err>, output': seq<Token>, stack': seq<Token>)
      requires tok.ttype == CLOSE_PAREN
      ensures Reports(ShuntCase(Shunt(output, stack, lastFunction, previous, code), tok, Ops()), err, output', stack', lastFunction, previous, code, code)
    {
      if PreviousIs(previous, OPERATOR) {
        return Some(ExprErr("Missing parameter(s) for operator " + previous.value.surface)), output, stack;
      }
      output', stack' := PopToParen(output, stack);
      if stack' == [] {
        return Some(ExprErr(MISMATCHED)), output', stack';
      }
      stack' := stack'[..|stack'| - 1];
      if stack' != [] && stack'[|stack'| - 1].ttype == FUNCTION {
        output' := output' + [stack'[|stack'| - 1]];
        stack' := stack'[..|stack'| - 1];
      }
      err := None;
    }

    /** A marker: `$` turns its character of the program text into a newline. */
    method AcceptMarker(tok: Token) returns (err: Option<Err>)
      requires tok.ttype == MARKER
      modifies this
      ensures ast == old(ast)
      ensures forall output, stack, lastFunction, previous, ops ::
                Reports(ShuntCase(Shunt(output, stack, lastFunction, previous, old(expression)), tok, ops), err,
                        output, stack, lastFunction, previous, old(expression), expression)
    {
      err := None;
      if tok.surface == "$" {
        if !(0 <= tok.pos < |expression|) {
          return Some(Crash("StringIndexOutOfBoundsException"));
        }
        expression := expression[..tok.pos] + "\n" + expression[tok.pos + 1..];
      }
    }

    /**
     * The `switch` of `shuntingYard` for one token.  On success the new
     * queue, stack and last function are those of ShuntCase; a `$` marker
     * rewrites the program text.
     */
    method Accept(tok: Token, output: seq<Token>, stack: seq<Token>, lastFunction: Option<Token>, previous: Option<Token>)
      returns (err: Option<Err>, output': seq<Token>, stack': seq<Token>, lastFunction': Option<Token>)
      modifies this
      ensures ast == old(ast)
      ensures Reports(ShuntCase(Shunt(output, stack, lastFunction, previous, old(expression)), tok, Ops()),
                      err, output', stack', lastFunction', previous, old(expression), expression)
    {
      output', stack', lastFunction' := output, stack, lastFunction;
      if IsOperand(tok) {
        err, output' := AcceptOperand(tok, output, previous);
      } else if tok.ttype == FUNCTION {
        err, stack', lastFunction' := None, stack + [tok], Some(tok);
      } else if tok.ttype == COMMA {
        err, output', stack' := AcceptComma(output, stack, lastFunction, previous, tok);
      } else if IsOperatorToken(tok) {
        err, output', stack' := AcceptOperator(tok, output, stack, previous);
      } else if tok.ttype == OPEN_PAREN {
        err := None;
        output', stack' := AcceptOpen(tok, output, stack, previous);
      } else if tok.ttype == CLOSE_PAREN {
        err, output', stack' := AcceptClose(tok, output, stack, lastFunction, previous, expression);
      } else {
        err := AcceptMarker(tok);
      }
    }

    /**
     * `shuntingYard`: the tokenizer's tokens in reverse Polish order, and
     * the program text as the `$` markers left it.
     */
    method ShuntingYard() returns (rpn: Res<seq<Token>>)
      modifies this
      ensures ast == old(ast)
      ensures (rpn, expression) == ParseSpec.ShuntingYard(old(expression), allowComments, allowNewLineMarkers, Ops())
    {
      var tokenizer := new Lexer.Tokenizer(expression, allowComments, allowNewLineMarkers, true);
      ghost var src := tokenizer.Src();
      var output: seq<Token> := [];
      var stack: seq<Token> := [];
      var lastFunction: Option<Token> := None;
      var previous: Option<Token> := None;
      while tokenizer.HasNext()
        invariant tokenizer.Src() == src && 0 <= tokenizer.pos && ast == old(ast)
        invariant ParseSpec.ShuntingYard(old(expression), allowComments, allowNewLineMarkers, Ops())
                  == ShuntFrom(src, tokenizer.Cursor(), Shunt(output, stack, lastFunction, previous, expression), Ops())
        decreases |src.input| - tokenizer.pos
      {
        var o := tokenizer.Next();
        if o.Failed? {
          return Fail(ExprErr(o.msg));
        }
        if !o.Emitted? {
          return Fail(ExprErr(PREMATURE));
        }
        var tok := o.tok;
        var err, output', stack', lastFunction' := Accept(tok, output, stack, lastFunction, previous);
        if err.Some? {
          return Fail(err.value);
        }
        output, stack, lastFunction := output', stack', lastFunction';
        if tok.ttype != MARKER {
          previous := Some(tok);
        }
      }
      rpn := Drain(output, stack);
    }

    /** `validate`: a stack of value counts, one per open parameter list. */
    method Validate(rpn: seq<Token>) returns (r: Res<()>)
      ensures r == ParseSpec.Validate(rpn)
    {
      var scopes := [0];
      for i := 0 to |rpn|
        invariant |scopes| >= 1
        invariant ValidateFrom(rpn, i, scopes) == ParseSpec.Validate(rpn)
      {
        var tok := rpn[i];
        var n := |scopes| - 1;
        match tok.ttype {
          case UNARY_OPERATOR =>
            if scopes[n] < 1 {
              return Fail(ExprErr("Missing parameter(s) for operator " + tok.surface));
            }
          case OPERATOR =>
            if scopes[n] < 2 {
              if tok.surface == ";" {
                return Fail(ExprErr("Unnecessary semicolon"));
              }
              return Fail(ExprErr("Missing parameter(s) for operator " + tok.surface));
            }
            assert scopes[n := scopes[n] - 2 + 1] == Bump(scopes, -1);
            scopes := scopes[n := scopes[n] - 2 + 1];
          case FUNCTION =>
            var name := LowerAscii(tok.surface);
            var numParams := scopes[n];
            ghost var rpnScopes := scopes;
            scopes := scopes[..n];
            if FixedArity(name) && numParams != BuiltinArity(name).value {
              return Fail(ExprErr("Function " + tok.surface + " expected " + IntToString(BuiltinArity(name).value)
                                  + " parameters, got " + IntToString(numParams)));
            }
            if |scopes| <= 0 {
              return Fail(ExprErr("Too many function calls, maximum scope exceeded"));
            }
            assert scopes[n - 1 := scopes[n - 1] + 1] == Bump(rpnScopes[..n], 1);
            scopes := scopes[n - 1 := scopes[n - 1] + 1];
          case OPEN_PAREN =>
            scopes := scopes + [0];
          case _ =>
            assert scopes[n := scopes[n] + 1] == Bump(scopes, 1);
            scopes := scopes[n := scopes[n] + 1];
        }
      }
      if |scopes| > 1 {
        return Fail(ExprErr("Too many unhandled function parameter lists"));
      } else if scopes[0] > 1 {
        return Fail(ExprErr("Too many numbers or variables"));
      } else if scopes[0] < 1 {
        return Fail(ExprErr("Empty expression"));
      }
      return Ok(());
    }

    /** The argument loop of a call: the nodes down to the nearest `PARAMS_START`, each put in front. */
    method PopArgs(stack: seq<Item>) returns (args: seq<Expr>, rest: seq<Item>)
      ensures (args, rest) == TakeArgs(stack)
    {
      args, rest := [], stack;
      assert TakeArgs(stack).0 + [] == TakeArgs(stack).0;
      while rest != [] && rest[|rest| - 1] != ParamsStart
        invariant TakeArgs(stack) == (TakeArgs(rest).0 + args, TakeArgs(rest).1)
        decreases |rest|
      {
        var top := rest[|rest| - 1];
        var below := rest[..|rest| - 1];
        assert TakeArgs(rest) == (TakeArgs(below).0 + [top.e], TakeArgs(below).1);
        assert TakeArgs(below).0 + [top.e] + args == TakeArgs(below).0 + ([top.e] + args);
        args := [top.e] + args;
        rest := below;
      }
      assert TakeArgs(rest).0 == [];
      assert [] + args == args;
    }

    /** The `switch` of `getAST` for one token, on the stack of trees and parameter-list starts. */
    method Apply(stack: seq<Item>, tok: Token) returns (r: Res<seq<Item>>)
      ensures r == BuildToken(stack, tok)
    {
      match tok.ttype {
        case UNARY_OPERATOR =>
          if stack == [] {
            return Fail(Crash(EMPTY_STACK));
          }
          var value := stack[|stack| - 1];
          if value == ParamsStart {
            return Fail(Unmodelled("PARAMS_START as an operand"));
          }
          var op := ResolveUnary(tok.surface);
          if op.None? {
            return Fail(Crash("NullPointerException"));
          }
          return Ok(stack[..|stack| - 1] + [Node(Unary(op.value, value.e, tok))]);
        case OPERATOR =>
          if |stack| < 2 {
            return Fail(Crash(EMPTY_STACK));
          }
          var v1 := stack[|stack| - 1];
          var v2 := stack[|stack| - 2];
          if v1 == ParamsStart || v2 == ParamsStart {
            return Fail(Unmodelled("PARAMS_START as an operand"));
          }
          return Ok(stack[..|stack| - 2] + [Node(Binary(ResolveBinary(tok.surface), v2.e, v1.e, tok))]);
        case VARIABLE =>
          return Ok(stack + [Node(Var(tok.surface, tok))]);
        case FUNCTION =>
          var args, rest := PopArgs(stack);
          if rest == [] {
            return Fail(Crash(EMPTY_STACK));
          }
          return Ok(rest[..|rest| - 1] + [Node(CallOf(tok, args))]);
        case OPEN_PAREN =>
          return Ok(stack + [ParamsStart]);
        case LITERAL =>
          return Ok(stack + [Node(NumLit(tok.surface, tok))]);
        case STRING =>
          return Ok(stack + [Node(StrLit(tok.surface))]);
        case HEX_LITERAL =>
          return Ok(stack + [Node(HexLit(tok.surface, tok))]);
        case _ =>
          return Fail(ExprErr("Unexpected token '" + tok.surface + "'"));
      }
    }

    /** The tree-building loop of `getAST`: each token applied to the stack, then its top. */
    method BuildTree(rpn: seq<Token>) returns (r: Res<Expr>)
      ensures r == Build(rpn)
    {
      var stack: seq<Item> := [];
      for i := 0 to |rpn|
        invariant BuildFrom(rpn, i, stack) == Build(rpn)
      {
        var next := Apply(stack, rpn[i]);
        if next.Fail? {
          return Fail(next.err);
        }
        stack := next.v;
      }
      if stack == [] {
        return Fail(Crash(EMPTY_STACK));
      }
      var top := stack[|stack| - 1];
      if top == ParamsStart {
        return Fail(Unmodelled("PARAMS_START as the result"));
      }
      return Ok(top.e);
    }

    /** `getAST`: shunting-yard, `validate`, then the tree, built token by token. */
    method GetAst() returns (r: Res<Expr>)
      modifies this
      ensures ast == old(ast)
      ensures (r, expression) == Compile(old(expression), allowComments, allowNewLineMarkers, Ops())
    {
      var rpn := ShuntingYard();
      if rpn.Fail? {
        return Fail(rpn.err);
      }
      var valid := Validate(rpn.v);
      if valid.Fail? {
        return Fail(valid.err);
      }
      r := BuildTree(rpn.v);
    }

    /**
     * `eval`: the tree is built on the first call and kept; it is then
     * evaluated in the context, whose frame takes the result.
     */
    method Eval(c: Hosts.Context, fuel: nat) returns (r: Res<Value>)
      modifies this, c, c.host
      ensures c.host == old(c.host)
      ensures old(ast).Some? ==> ast == old(ast) && expression == old(expression)
                                 && (r, c.Frame()) == Interp.EvalValue(old(ast).value, old(c.Frame()), fuel)
      ensures old(ast).None? ==>
                var (tree, code) := Compile(old(expression), allowComments, allowNewLineMarkers, Ops());
                expression == code
                && (tree.Fail? ==> r == Fail(tree.err) && ast == None && c.Frame() == old(c.Frame()))
                && (tree.Ok? ==> ast == Some(tree.v) && (r, c.Frame()) == Interp.EvalValue(tree.v, old(c.Frame()), fuel))
    {
      if ast.None? {
        var tree := GetAst();
        if tree.Fail? {
          return Fail(tree.err);
        }
        ast := Some(tree.v);
      }
      var (value, f) := Interp.EvalValue(ast.value, c.Frame(), fuel);
      c.Load(f);
      r := value;
    }
  }
}
