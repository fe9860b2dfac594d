// Worked cases of the parser: what the shunting-yard, validate and the
// tree build make of a few small programs, and what the bracket `switch`
// of the tokenizer as written, which types every bracket as a marker, does
// to them, next to what the typing it evidently intends would give.

module ParseFacts {
  import opened Values
  import opened Tokens
  import opened Registry
  import opened LexSpec
  import opened Ast
  import opened ParseSpec

  function Tk(surface: string, t: TokenType): Token {
    Token(surface, t, 0, 0, 0)
  }

  const ONE := Tk("1", LITERAL)
  const TWO := Tk("2", LITERAL)
  const THREE := Tk("3", LITERAL)
  const PLUS := Tk("+", OPERATOR)
  const MINUS := Tk("-", OPERATOR)
  const TIMES := Tk("*", OPERATOR)

  /** The tokens of `(1+2)*3` with the brackets typed as the tokenizer types them. */
  function WrittenGrouping(): seq<Token> {
    [Tk("(", BracketType('(')), ONE, PLUS, TWO, Tk(")", BracketType(')')), TIMES, THREE]
  }

  /** The tokens of `(1+2)*3` with the brackets typed as evidently intended. */
  function IntendedGrouping(): seq<Token> {
    [Tk("(", IntendedBracketType('(')), ONE, PLUS, TWO, Tk(")", IntendedBracketType(')')), TIMES, THREE]
  }

  /** The table knows `+` and `*` as left-associative, `*` binding tighter. */
  predicate ArithmeticTable(ops: Table) {
    ops("+").Some? && ops("*").Some? && ops("+").value.leftAssoc && ops("*").value.leftAssoc
    && ops("+").value.precedence < ops("*").value.precedence
  }

  /** The operator table of every expression is such a table. */
  lemma OperatorTableArithmetic(assignPrec: int)
    ensures ArithmeticTable(OperatorTable(assignPrec))
  {
    ArithmeticPrecedences(assignPrec);
    PrecedenceOrder();
  }

  /** An operand after a non-constant goes to the output. */
  lemma OperandNext(toks: seq<Token>, st: Shunt, st': Shunt, ops: Table)
    requires toks != [] && IsOperand(toks[0]) && !(st.previous.Some? && IsConstantType(st.previous.value.ttype))
    requires st' == st.(output := st.output + [toks[0]], previous := Some(toks[0]))
    ensures ShuntList(toks, st, ops) == ShuntList(toks[1..], st', ops)
  {
  }

  /** An operator that nothing on the stack yields to is pushed. */
  lemma OperatorNext(toks: seq<Token>, st: Shunt, st': Shunt, ops: Table)
    requires toks != [] && toks[0].ttype == OPERATOR
    requires !PreviousIs(st.previous, COMMA) && !PreviousIs(st.previous, OPEN_PAREN)
    requires ops(toks[0].surface).Some?
    requires st.stack == [] || !Yields(ops(toks[0].surface).value, st.stack[|st.stack| - 1], ops)
    requires st' == st.(stack := st.stack + [toks[0]], previous := Some(toks[0]))
    ensures ShuntList(toks, st, ops) == ShuntList(toks[1..], st', ops)
  {
  }

  /** A close paren over `( op` outputs the operator and drops the paren. */
  lemma CloseNext(toks: seq<Token>, st: Shunt, st': Shunt, ops: Table)
    requires toks != [] && toks[0].ttype == CLOSE_PAREN && !PreviousIs(st.previous, OPERATOR)
    requires |st.stack| == 2 && st.stack[0].ttype == OPEN_PAREN && st.stack[1].ttype == OPERATOR
    requires st' == st.(output := st.output + [st.stack[1]], stack := [], previous := Some(toks[0]))
    ensures ShuntList(toks, st, ops) == ShuntList(toks[1..], st', ops)
  {
    assert PopToParen(st.output, st.stack) == (st.output + [st.stack[1]], st.stack[..1]);
  }

  /** An open paren at the start is pushed. */
  lemma OpenNext(toks: seq<Token>, st: Shunt, st': Shunt, ops: Table)
    requires toks != [] && toks[0].ttype == OPEN_PAREN && st.previous.None?
    requires st' == st.(stack := st.stack + [toks[0]], previous := Some(toks[0]))
    ensures ShuntList(toks, st, ops) == ShuntList(toks[1..], st', ops)
  {
    assert st.stack + [] + [toks[0]] == st.stack + [toks[0]];
  }

  /** A bracket typed as a marker changes nothing. */
  lemma MarkerNext(toks: seq<Token>, st: Shunt, ops: Table)
    requires toks != [] && toks[0].ttype == MARKER && toks[0].surface != "$"
    ensures ShuntList(toks, st, ops) == ShuntList(toks[1..], st, ops)
  {
  }

  /** After the last token the stack drains onto the output. */
  lemma ListEnd(st: Shunt, ops: Table, rpn: seq<Token>)
    requires forall j :: 0 <= j < |st.stack| ==> !IsParen(st.stack[j])
    requires rpn == st.output + Reversed(st.stack)
    ensures ShuntList([], st, ops).0 == Ok(rpn)
  {
  }

  /** The tokens of `(1+2)*3` after the first `+`, brackets as markers, and the state there. */
  function WrittenRest(): seq<Token> {
    [TWO, Tk(")", BracketType(')')), TIMES, THREE]
  }

  function WrittenMidway(): Shunt {
    Fresh("").(output := [ONE], stack := [PLUS], previous := Some(PLUS))
  }

  lemma WrittenFront(ops: Table)
    requires ArithmeticTable(ops)
    ensures ShuntList(WrittenGrouping(), Fresh(""), ops) == ShuntList(WrittenRest(), WrittenMidway(), ops)
  {
    var t := WrittenGrouping();
    var s0 := Fresh("");
    var s1 := s0.(output := [ONE], previous := Some(ONE));
    MarkerNext(t, s0, ops);
    OperandNext(t[1..], s0, s1, ops);
    OperatorNext(t[2..], s1, WrittenMidway(), ops);
    assert t[3..] == WrittenRest();
  }

  /** The state after `( 1 + 2 )` with the brackets as markers: `+` still waits on the stack. */
  function WrittenTwo(): Shunt {
    WrittenMidway().(output := [ONE, TWO], previous := Some(TWO))
  }

  lemma WrittenSecond(ops: Table)
    ensures ShuntList(WrittenRest(), WrittenMidway(), ops) == ShuntList(WrittenRest()[2..], WrittenTwo(), ops)
  {
    var t := WrittenRest();
    OperandNext(t, WrittenMidway(), WrittenTwo(), ops);
    MarkerNext(t[1..], WrittenTwo(), ops);
    assert t[1..][1..] == t[2..];
  }

  /** The state after all of `( 1 + 2 ) * 3`, before the stack `+ *` is drained. */
  function WrittenEnd(): Shunt {
    WrittenTwo().(output := [ONE, TWO, THREE], stack := [PLUS, TIMES], previous := Some(THREE))
  }

  lemma WrittenTimes3(ops: Table)
    requires ArithmeticTable(ops)
    ensures ShuntList(WrittenRest()[2..], WrittenTwo(), ops) == ShuntList([], WrittenEnd(), ops)
  {
    var t := WrittenRest()[2..];
    var s5 := WrittenTwo().(stack := [PLUS, TIMES], previous := Some(TIMES));
    OperatorNext(t, WrittenTwo(), s5, ops);
    OperandNext(t[1..], s5, WrittenEnd(), ops);
  }

  lemma WrittenBack(ops: Table)
    requires ArithmeticTable(ops)
    ensures ShuntList(WrittenRest(), WrittenMidway(), ops).0 == Ok(WrittenRpn())
  {
    WrittenSecond(ops);
    WrittenTimes3(ops);
    ListEnd(WrittenEnd(), ops, WrittenRpn());
  }

  /**
   * As written, the brackets of `(1+2)*3` are markers the shunting-yard
   * skips, so the RPN is the one of `1+2*3`.
   */
  lemma WrittenGroupingIgnored(ops: Table)
    requires ArithmeticTable(ops)
    ensures ShuntList(WrittenGrouping(), Fresh(""), ops).0 == Ok(WrittenRpn())
  {
    WrittenFront(ops);
    WrittenBack(ops);
  }

  /** The tree build pushes a number. */
  lemma {:induction false} NumberNext(rpn: seq<Token>, i: nat, stack: seq<Item>)
    requires i < |rpn| && rpn[i].ttype == LITERAL
    ensures BuildFrom(rpn, i, stack) == BuildFrom(rpn, i + 1, stack + [Node(NumLit(rpn[i].surface, rpn[i]))])
  {
  }

  /** The tree build combines the two topmost nodes under a binary operator, the lower one on the left. */
  lemma {:induction false} BinaryNext(rpn: seq<Token>, i: nat, below: seq<Item>, left: Expr, right: Expr)
    requires i < |rpn| && rpn[i].ttype == OPERATOR
    ensures BuildFrom(rpn, i, below + [Node(left), Node(right)])
            == BuildFrom(rpn, i + 1, below + [Node(Binary(ResolveBinary(rpn[i].surface), left, right, rpn[i]))])
  {
    var stack := below + [Node(left), Node(right)];
    assert stack[..|stack| - 2] == below;
  }

  function WrittenRpn(): seq<Token> {
    [ONE, TWO, THREE, TIMES, PLUS]
  }

  lemma WrittenOperands()
    ensures Build(WrittenRpn())
            == BuildFrom(WrittenRpn(), 3, [Node(NumLit("1", ONE)), Node(NumLit("2", TWO)), Node(NumLit("3", THREE))])
  {
    var rpn := WrittenRpn();
    var n1, n2, n3 := NumLit("1", ONE), NumLit("2", TWO), NumLit("3", THREE);
    NumberNext(rpn, 0, []);
    assert [] + [Node(n1)] == [Node(n1)];
    NumberNext(rpn, 1, [Node(n1)]);
    assert [Node(n1)] + [Node(n2)] == [Node(n1), Node(n2)];
    NumberNext(rpn, 2, [Node(n1), Node(n2)]);
    assert [Node(n1), Node(n2)] + [Node(n3)] == [Node(n1), Node(n2), Node(n3)];
  }

  /** After `1 2 3` the `*` combines `2` and `3`. */
  lemma WrittenTimes()
    ensures BuildFrom(WrittenRpn(), 3, [Node(NumLit("1", ONE)), Node(NumLit("2", TWO)), Node(NumLit("3", THREE))])
            == BuildFrom(WrittenRpn(), 4, [Node(NumLit("1", ONE)), Node(Binary(Times, NumLit("2", TWO), NumLit("3", THREE), TIMES))])
  {
    var n1, n2, n3 := NumLit("1", ONE), NumLit("2", TWO), NumLit("3", THREE);
    assert [Node(n1), Node(n2), Node(n3)] == [Node(n1)] + [Node(n2), Node(n3)];
    BinaryNext(WrittenRpn(), 3, [Node(n1)], n2, n3);
  }

  /** The RPN `1 2 3 * +` builds `1+(2*3)`, which evaluates to 7 rather than 9. */
  lemma WrittenGroupingTree()
    ensures Build(WrittenRpn())
            == Ok(Binary(Plus, NumLit("1", ONE), Binary(Times, NumLit("2", TWO), NumLit("3", THREE), TIMES), PLUS))
  {
    WrittenOperands();
    WrittenTimes();
    var n1, n2, n3 := NumLit("1", ONE), NumLit("2", TWO), NumLit("3", THREE);
    var n23 := Binary(Times, n2, n3, TIMES);
    assert [Node(n1), Node(n23)] == [] + [Node(n1), Node(n23)];
    BinaryNext(WrittenRpn(), 4, [], n1, n23);
    assert [] + [Node(Binary(Plus, n1, n23, PLUS))] == [Node(Binary(Plus, n1, n23, PLUS))];
  }

  /** The tokens of `(1+2)*3` after the first `+`, brackets as intended, and the state there. */
  function IntendedRest(): seq<Token> {
    [TWO, Tk(")", IntendedBracketType(')')), TIMES, THREE]
  }

  function IntendedMidway(): Shunt {
    Fresh("").(output := [ONE], stack := [Tk("(", IntendedBracketType('(')), PLUS], previous := Some(PLUS))
  }

  /** The state after `( 1` with the intended bracket types: the paren stacked, `1` output. */
  function IntendedOpened(): Shunt {
    Fresh("").(output := [ONE], stack := [Tk("(", IntendedBracketType('('))], previous := Some(ONE))
  }

  lemma IntendedOpen(ops: Table)
    ensures ShuntList(IntendedGrouping(), Fresh(""), ops) == ShuntList(IntendedGrouping()[2..], IntendedOpened(), ops)
  {
    var t := IntendedGrouping();
    var s0 := Fresh("");
    var s1 := s0.(stack := [t[0]], previous := Some(t[0]));
    OpenNext(t, s0, s1, ops);
    OperandNext(t[1..], s1, IntendedOpened(), ops);
    assert t[1..][1..] == t[2..];
  }

  lemma IntendedPlus(ops: Table)
    requires ArithmeticTable(ops)
    ensures ShuntList(IntendedGrouping()[2..], IntendedOpened(), ops) == ShuntList(IntendedRest(), IntendedMidway(), ops)
  {
    var t := IntendedGrouping()[2..];
    OperatorNext(t, IntendedOpened(), IntendedMidway(), ops);
    assert t[1..] == IntendedRest();
  }

  lemma IntendedFront(ops: Table)
    requires ArithmeticTable(ops)
    ensures ShuntList(IntendedGrouping(), Fresh(""), ops) == ShuntList(IntendedRest(), IntendedMidway(), ops)
  {
    IntendedOpen(ops);
    IntendedPlus(ops);
  }

  /** The state after `( 1 + 2 )`: the sum is output and the stack is empty. */
  function IntendedClosed(): Shunt {
    Fresh("").(output := [ONE, TWO, PLUS], stack := [], previous := Some(Tk(")", IntendedBracketType(')'))))
  }

  lemma IntendedClose(ops: Table)
    ensures ShuntList(IntendedRest(), IntendedMidway(), ops) == ShuntList(IntendedRest()[2..], IntendedClosed(), ops)
  {
    var t := IntendedRest();
    var s3 := IntendedMidway();
    var s4 := s3.(output := [ONE, TWO], previous := Some(TWO));
    OperandNext(t, s3, s4, ops);
    CloseNext(t[1..], s4, IntendedClosed(), ops);
    assert t[1..][1..] == t[2..];
  }

  /** The state after `( 1 + 2 ) * 3`, before the stack is drained. */
  function IntendedEnd(): Shunt {
    IntendedClosed().(output := [ONE, TWO, PLUS, THREE], stack := [TIMES], previous := Some(THREE))
  }

  lemma IntendedTimes(ops: Table)
    requires ArithmeticTable(ops)
    ensures ShuntList(IntendedRest()[2..], IntendedClosed(), ops) == ShuntList([], IntendedEnd(), ops)
  {
    var t := IntendedRest()[2..];
    var s5 := IntendedClosed();
    var s6 := s5.(stack := [TIMES], previous := Some(TIMES));
    OperatorNext(t, s5, s6, ops);
    OperandNext(t[1..], s6, IntendedEnd(), ops);
  }

  lemma IntendedBack(ops: Table)
    requires ArithmeticTable(ops)
    ensures ShuntList(IntendedRest(), IntendedMidway(), ops).0 == Ok([ONE, TWO, PLUS, THREE, TIMES])
  {
    IntendedClose(ops);
    IntendedTimes(ops);
    ListEnd(IntendedEnd(), ops, [ONE, TWO, PLUS, THREE, TIMES]);
  }

  /** With the intended bracket types the same program keeps its grouping: `1 2 + 3 *`. */
  lemma IntendedGroupingKept(ops: Table)
    requires ArithmeticTable(ops)
    ensures ShuntList(IntendedGrouping(), Fresh(""), ops).0 == Ok([ONE, TWO, PLUS, THREE, TIMES])
  {
    IntendedFront(ops);
    IntendedBack(ops);
  }

  function IntendedRpn(): seq<Token> {
    [ONE, TWO, PLUS, THREE, TIMES]
  }

  /** The RPN `1 2` leaves two number nodes. */
  lemma IntendedOperands()
    ensures Build(IntendedRpn()) == BuildFrom(IntendedRpn(), 2, [Node(NumLit("1", ONE)), Node(NumLit("2", TWO))])
  {
    var n1, n2 := NumLit("1", ONE), NumLit("2", TWO);
    NumberNext(IntendedRpn(), 0, []);
    assert [] + [Node(n1)] == [Node(n1)];
    NumberNext(IntendedRpn(), 1, [Node(n1)]);
  }

  /** The `+` combines them into `1+2`. */
  lemma IntendedSum()
    ensures BuildFrom(IntendedRpn(), 2, [Node(NumLit("1", ONE)), Node(NumLit("2", TWO))])
            == BuildFrom(IntendedRpn(), 3, [Node(Binary(Plus, NumLit("1", ONE), NumLit("2", TWO), PLUS))])
  {
    var n1, n2 := NumLit("1", ONE), NumLit("2", TWO);
    assert [Node(n1), Node(n2)] == [] + [Node(n1), Node(n2)];
    BinaryNext(IntendedRpn(), 2, [], n1, n2);
  }

  /** Then `3` is pushed above the sum. */
  lemma IntendedThree()
    ensures BuildFrom(IntendedRpn(), 3, [Node(Binary(Plus, NumLit("1", ONE), NumLit("2", TWO), PLUS))])
            == BuildFrom(IntendedRpn(), 4, [Node(Binary(Plus, NumLit("1", ONE), NumLit("2", TWO), PLUS)), Node(NumLit("3", THREE))])
  {
    NumberNext(IntendedRpn(), 3, [Node(Binary(Plus, NumLit("1", ONE), NumLit("2", TWO), PLUS))]);
  }

  /** The RPN `1 2 + 3 *` builds `(1+2)*3`. */
  lemma IntendedGroupingTree()
    ensures Build(IntendedRpn())
            == Ok(Binary(Times, Binary(Plus, NumLit("1", ONE), NumLit("2", TWO), PLUS), NumLit("3", THREE), TIMES))
  {
    IntendedOperands();
    IntendedSum();
    IntendedThree();
    var n12 := Binary(Plus, NumLit("1", ONE), NumLit("2", TWO), PLUS);
    var n3 := NumLit("3", THREE);
    assert [Node(n12), Node(n3)] == [] + [Node(n12), Node(n3)];
    BinaryNext(IntendedRpn(), 4, [], n12, n3);
  }

  // ---------------------------------------------------------------------
  // A call of a user function, `user_defined(1)`.

  const CALL_F := Tk("user_defined", FUNCTION)

  /** A name longer than every built-in's, and its own lower case. */
  lemma UnknownF()
    ensures LowerAscii(CALL_F.surface) == CALL_F.surface
    ensures !IsBuiltin(CALL_F.surface) && !FixedArity(CALL_F.surface)
  {
    assert LowerAscii(CALL_F.surface) == CALL_F.surface;
  }

  /** A function name is pushed and remembered. */
  lemma {:induction false} FunctionNext(toks: seq<Token>, st: Shunt, st': Shunt, ops: Table)
    requires toks != [] && toks[0].ttype == FUNCTION
    requires st' == st.(stack := st.stack + [toks[0]], lastFunction := Some(toks[0]), previous := Some(toks[0]))
    ensures ShuntList(toks, st, ops) == ShuntList(toks[1..], st', ops)
  {
  }

  /**
   * As written, `user_defined(1)` reads as the function token, a marker, `1` and a
   * marker, and its RPN `1 user_defined` has no parameter-list open, so validation
   * finds the call outside every scope.
   */
  lemma WrittenCallRejected(ops: Table)
    ensures ShuntList([CALL_F, Tk("(", BracketType('(')), ONE, Tk(")", BracketType(')'))], Fresh(""), ops).0
            == Ok([ONE, CALL_F])
    ensures Validate([ONE, CALL_F]) == Fail(ExprErr("Too many function calls, maximum scope exceeded"))
  {
    var t := [CALL_F, Tk("(", BracketType('(')), ONE, Tk(")", BracketType(')'))];
    var s0 := Fresh("");
    var s1 := s0.(stack := [CALL_F], lastFunction := Some(CALL_F), previous := Some(CALL_F));
    var s3 := s1.(output := [ONE], previous := Some(ONE));
    FunctionNext(t, s0, s1, ops);
    MarkerNext(t[1..], s1, ops);
    OperandNext(t[2..], s1, s3, ops);
    MarkerNext(t[3..], s3, ops);
    ListEnd(s3, ops, [ONE, CALL_F]);
    UnknownF();
    var rpn := [ONE, CALL_F];
    assert ValidateToken(ONE, [0]) == Ok([1]);
    assert ValidateToken(CALL_F, [1]) == Fail(ExprErr("Too many function calls, maximum scope exceeded"));
    assert ValidateFrom(rpn, 0, [0]) == ValidateFrom(rpn, 1, [1]);
  }

  /** After a function name, an open paren goes to the output as well as the stack. */
  lemma {:induction false} CallOpenNext(toks: seq<Token>, st: Shunt, st': Shunt, ops: Table)
    requires toks != [] && toks[0].ttype == OPEN_PAREN && PreviousIs(st.previous, FUNCTION)
    requires st' == st.(output := st.output + [toks[0]], stack := st.stack + [toks[0]], previous := Some(toks[0]))
    ensures ShuntList(toks, st, ops) == ShuntList(toks[1..], st', ops)
  {
    assert st.stack + [] + [toks[0]] == st.stack + [toks[0]];
  }

  /** A close paren right over `f (` drops the paren and outputs the function. */
  lemma {:induction false} CallCloseNext(toks: seq<Token>, st: Shunt, st': Shunt, ops: Table)
    requires toks != [] && toks[0].ttype == CLOSE_PAREN && !PreviousIs(st.previous, OPERATOR)
    requires |st.stack| == 2 && st.stack[0].ttype == FUNCTION && st.stack[1].ttype == OPEN_PAREN
    requires st' == st.(output := st.output + [st.stack[0]], stack := [], previous := Some(toks[0]))
    ensures ShuntList(toks, st, ops) == ShuntList(toks[1..], st', ops)
  {
    assert PopToParen(st.output, st.stack) == (st.output, st.stack);
    assert st.stack[..1][..0] == [];
  }

  /** The tokens of `user_defined(1)` with the intended bracket types. */
  function IntendedCall(): seq<Token> {
    [CALL_F, Tk("(", IntendedBracketType('(')), ONE, Tk(")", IntendedBracketType(')'))]
  }

  /** The state after `user_defined (` with the intended bracket types. */
  function IntendedCallOpened(): Shunt {
    var open := Tk("(", OPEN_PAREN);
    Fresh("").(output := [open], stack := [CALL_F, open], lastFunction := Some(CALL_F), previous := Some(open))
  }

  lemma IntendedCallFront(ops: Table)
    ensures ShuntList(IntendedCall(), Fresh(""), ops) == ShuntList(IntendedCall()[2..], IntendedCallOpened(), ops)
  {
    var t := IntendedCall();
    var s0 := Fresh("");
    var s1 := s0.(stack := [CALL_F], lastFunction := Some(CALL_F), previous := Some(CALL_F));
    FunctionNext(t, s0, s1, ops);
    CallOpenNext(t[1..], s1, IntendedCallOpened(), ops);
    assert t[1..][1..] == t[2..];
  }

  lemma IntendedCallBack(ops: Table)
    ensures ShuntList(IntendedCall()[2..], IntendedCallOpened(), ops).0 == Ok([Tk("(", OPEN_PAREN), ONE, CALL_F])
  {
    var open := Tk("(", OPEN_PAREN);
    var t := IntendedCall()[2..];
    var s2 := IntendedCallOpened();
    var s3 := s2.(output := [open, ONE], previous := Some(ONE));
    var s4 := s3.(output := [open, ONE, CALL_F], stack := [], previous := Some(t[1]));
    OperandNext(t, s2, s3, ops);
    CallCloseNext(t[1..], s3, s4, ops);
    ListEnd(s4, ops, [open, ONE, CALL_F]);
  }

  /**
   * With the intended bracket types `user_defined(1)` gives the RPN `( 1 user_defined`, which
   * validates and builds a call of `.` on `1` and the name `"user_defined"`.
   */
  lemma IntendedCallAccepted(ops: Table)
    ensures ShuntList(IntendedCall(), Fresh(""), ops).0 == Ok([Tk("(", OPEN_PAREN), ONE, CALL_F])
  {
    IntendedCallFront(ops);
    IntendedCallBack(ops);
  }

  /** The RPN `( 1 user_defined` validates: the paren opens the scope the call closes. */
  lemma IntendedCallValid()
    ensures Validate([Tk("(", OPEN_PAREN), ONE, CALL_F]) == Ok(())
  {
    UnknownF();
    var rpn := [Tk("(", OPEN_PAREN), ONE, CALL_F];
    assert [0] + [0] == [0, 0];
    assert ValidateToken(rpn[0], [0]) == Ok([0, 0]);
    assert [0, 0][..1] + [1] == [0, 1];
    assert ValidateToken(ONE, [0, 0]) == Ok([0, 1]);
    assert [0, 1][..1] == [0] && [0][..0] + [1] == [1];
    assert ValidateToken(CALL_F, [0, 1]) == Ok([1]);
    assert ValidateFrom(rpn, 0, [0]) == ValidateFrom(rpn, 1, [0, 0]) == ValidateFrom(rpn, 2, [0, 1]) == ValidateFrom(rpn, 3, [1]);
  }

  /** `user_defined` on the stack `PARAMS_START 1` takes `1` as its argument and becomes a call of `.`. */
  lemma CallFBuilds()
    ensures BuildToken([ParamsStart, Node(NumLit("1", ONE))], CALL_F)
            == Ok([Node(Call(Dot, [NumLit("1", ONE), StrLit("user_defined")], CALL_F))])
  {
    UnknownF();
    var n1 := NumLit("1", ONE);
    var stack := [ParamsStart, Node(n1)];
    assert stack[..|stack| - 1] == [ParamsStart];
    assert TakeArgs([ParamsStart]) == ([], [ParamsStart]);
    assert [] + [n1] == [n1];
    assert TakeArgs(stack) == ([n1], [ParamsStart]);
    var call := Call(Dot, [n1, StrLit("user_defined")], CALL_F);
    assert CallOf(CALL_F, [n1]) == call;
    assert [ParamsStart][..0] + [Node(call)] == [Node(call)];
  }

  /** The RPN `( 1 user_defined` builds `.` applied to `1` and `"user_defined"`. */
  lemma IntendedCallTree()
    ensures Build([Tk("(", OPEN_PAREN), ONE, CALL_F]) == Ok(Call(Dot, [NumLit("1", ONE), StrLit("user_defined")], CALL_F))
  {
    var rpn := [Tk("(", OPEN_PAREN), ONE, CALL_F];
    var n1 := NumLit("1", ONE);
    assert [] + [ParamsStart] == [ParamsStart];
    assert BuildToken([], rpn[0]) == Ok([ParamsStart]);
    assert BuildFrom(rpn, 0, []) == BuildFrom(rpn, 1, [ParamsStart]);
    NumberNext(rpn, 1, [ParamsStart]);
    assert [ParamsStart] + [Node(n1)] == [ParamsStart, Node(n1)];
    CallFBuilds();
    var call := Call(Dot, [n1, StrLit("user_defined")], CALL_F);
    assert BuildFrom(rpn, 2, [ParamsStart, Node(n1)]) == BuildFrom(rpn, 3, [Node(call)]);
  }
}
