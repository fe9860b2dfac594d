/**
 * What the tokenizer promises about the tokens it reads and about
 * `postProcess`, stated over the functions of module LexSpec.
 */
module LexFacts {
  import opened Values
  import opened Tokens
  import Registry
  import opened LexSpec
  import ParseSpec

  // ---------------------------------------------------------------------
  // Where a token starts.

  /** The number of newlines in `s`. */
  function Newlines(s: string): (n: nat)
    ensures n <= |s|
  {
    if s == [] then 0 else (if s[0] == '\n' then 1 else 0) + Newlines(s[1..])
  }

  /**
   * The whitespace before a token is skipped: everything skipped is blank,
   * and the line number grows by the newlines skipped.  Running off the end
   * happens exactly when the rest of the input is blank.
   */
  lemma {:induction false} SkipSpaceSkipsBlanks(s: string, l: Loc)
    requires 0 <= l.pos < |s|
    ensures var r := SkipSpace(s, l);
            (r.None? <==> forall i :: l.pos <= i < |s| ==> IsWhitespace(s[i]))
            && (r.Some? ==> (forall i :: l.pos <= i < r.value.pos ==> IsWhitespace(s[i]))
                            && r.value.lineNo == l.lineNo + Newlines(s[l.pos..r.value.pos]))
    decreases |s| - l.pos
  {
    var ch := s[l.pos];
    if !IsWhitespace(ch) {
      assert s[l.pos..l.pos] == [];
    } else {
      var ln := if ch == '\n' then l.lineNo + 1 else l.lineNo;
      var lp := if ch == '\n' then 0 else l.linePos + 1;
      if l.pos + 1 < |s| {
        var l' := Loc(l.pos + 1, ln, lp);
        SkipSpaceSkipsBlanks(s, l');
        var r := SkipSpace(s, l');
        if r.Some? {
          assert s[l.pos..r.value.pos] == [ch] + s[l.pos + 1..r.value.pos];
          assert ([ch] + s[l.pos + 1..r.value.pos])[1..] == s[l.pos + 1..r.value.pos];
        }
      }
    }
  }

  /**
   * A token emitted by `next()` starts at the first non-blank character at
   * or after the cursor, and records the line number the cursor's had plus
   * the newlines skipped on the way.
   */
  lemma StepTokenStart(src: Source, c: Cursor)
    requires 0 <= c.pos < |src.input|
    requires Step(src, c).Emitted?
    ensures var s, tok := src.input, Step(src, c).tok;
            c.pos <= tok.pos < |s| && !IsWhitespace(s[tok.pos])
            && (forall i :: c.pos <= i < tok.pos ==> IsWhitespace(s[i]))
            && tok.lineNo == c.lineNo + Newlines(s[c.pos..tok.pos])
  {
    SkipSpaceSkipsBlanks(src.input, Loc(c.pos, c.lineNo, c.linePos));
  }

  // ---------------------------------------------------------------------
  // Numbers.

  /** The number loop takes every character up to where it stops, and not the one there. */
  lemma {:induction false} NumberEndScans(s: string, start: int, pos: int, isHex: bool)
    requires 0 <= start <= pos <= |s|
    ensures var e := NumberEnd(s, start, pos, isHex);
            (forall i :: pos <= i < e ==> NumberContinues(s, start, i, isHex))
            && (e < |s| ==> !NumberContinues(s, start, e, isHex))
    decreases |s| - pos
  {
    if pos < |s| && NumberContinues(s, start, pos, isHex) {
      NumberEndScans(s, start, pos + 1, isHex);
    }
  }

  /**
   * A number token is hex exactly when it starts with `0x` or `0X`.  A
   * decimal token is made of digits, `.`, `e`, `E`, and a sign right after
   * an `e` or `E`; the token is the whole run, and its text is the input
   * between its start and the cursor after it.
   */
  lemma NumberTokenShape(s: string, l: Loc)
    requires 0 <= l.pos < |s| && IsDigit(s[l.pos])
    ensures var (tok, at) := NumberToken(s, l);
            tok.surface == s[l.pos..at.pos]
            && (tok.ttype == HEX_LITERAL <==> s[l.pos] == '0' && l.pos + 1 < |s| && (s[l.pos + 1] == 'x' || s[l.pos + 1] == 'X'))
            && (tok.ttype == LITERAL <==> !HexStart(s, l.pos))
            && (!HexStart(s, l.pos) ==>
                  (forall i :: l.pos <= i < at.pos ==>
                     IsDigit(s[i]) || s[i] == '.' || s[i] == 'e' || s[i] == 'E'
                     || ((s[i] == '-' || s[i] == '+') && l.pos < i && (s[i - 1] == 'e' || s[i - 1] == 'E')))
                  && (at.pos < |s| ==> !NumberContinues(s, l.pos, at.pos, false)))
            && (HexStart(s, l.pos) ==> at.pos < |s| ==> !NumberContinues(s, l.pos, at.pos, true))
  {
    var at := NumberToken(s, l).1;
    NumberEndScans(s, l.pos, l.pos, HexStart(s, l.pos));
    if !HexStart(s, l.pos) {
      forall i | l.pos <= i < at.pos
        ensures IsDigit(s[i]) || s[i] == '.' || s[i] == 'e' || s[i] == 'E'
                || ((s[i] == '-' || s[i] == '+') && l.pos < i && (s[i - 1] == 'e' || s[i - 1] == 'E'))
      {
        assert NumberContinues(s, l.pos, i, false);
      }
    }
  }

  // ---------------------------------------------------------------------
  // Quoted strings.

  /**
   * A string literal with no backslash is taken as it stands: the text up
   * to the first quote, with the cursor just after that quote.
   */
  lemma {:induction false} ScanStringPlain(s: string, strict: bool, l: Loc, text: string, j: int)
    requires 0 <= l.pos <= j < |s| && s[j] == '\''
    requires forall i :: l.pos <= i < j ==> s[i] != '\'' && s[i] != '\\'
    ensures var r := ScanString(s, strict, l, text);
            r.StrDone? && r.text == text + s[l.pos..j] && r.at.pos == j + 1
    decreases j - l.pos
  {
    if l.pos < j {
      var (text', at) := StringChar(s, l, text);
      assert text' == text + [s[l.pos]] && at.pos == l.pos + 1;
      ScanStringPlain(s, strict, at, text', j);
      assert text' + s[l.pos + 1..j] == text + s[l.pos..j];
    }
  }

  /**
   * The escapes: `\n` and `\t` name a newline and a tab, `\\` and `\'` the
   * character escaped, and a backslash before any other character is dropped.
   */
  lemma EscapesDecoded()
    ensures var r := ScanQuoted("'\\n\\t\\\\\\'\\q'", true, Loc(0, 0, 0));
            r.StrDone? && r.text == "\n\t\\'q" && r.at.pos == 12
  {
    var s := "'\\n\\t\\\\\\'\\q'";
    assert ScanString(s, true, Loc(11, 0, 11), "\n\t\\'q") == StrDone("\n\t\\'q", Loc(12, 0, 12));
    assert ScanString(s, true, Loc(10, 0, 10), "\n\t\\'") == StrDone("\n\t\\'q", Loc(12, 0, 12));
    assert ScanString(s, true, Loc(9, 0, 9), "\n\t\\'") == StrDone("\n\t\\'q", Loc(12, 0, 12));
    assert ScanString(s, true, Loc(7, 0, 7), "\n\t\\") == StrDone("\n\t\\'q", Loc(12, 0, 12));
    assert ScanString(s, true, Loc(5, 0, 5), "\n\t") == StrDone("\n\t\\'q", Loc(12, 0, 12));
    assert ScanString(s, true, Loc(3, 0, 3), "\n") == StrDone("\n\t\\'q", Loc(12, 0, 12));
  }

  /** `\r` inside a string is refused. */
  lemma CarriageReturnRejected()
    ensures ScanQuoted("'a\\r'", true, Loc(0, 0, 0)) == StrFail(CR_ERROR)
  {
    assert ScanString("'a\\r'", true, Loc(2, 0, 2), "a") == StrFail(CR_ERROR);
  }

  /**
   * Without an expression the same `\r` is still refused, but the error
   * cannot be described: the scan ends in a NullPointerException, and so
   * does the whole tokenizer pass.
   */
  lemma CarriageReturnWithoutExpression()
    ensures ScanQuoted("'a\\r'", false, Loc(0, 0, 0)) == StrNullPointer
    ensures SimplePass("'a\\r'") == Fail(Crash("NullPointerException"))
  {
    var src := Source("'a\\r'", false, false, false);
    assert ScanString(src.input, false, Loc(2, 0, 2), "a") == StrNullPointer;
    assert SkipSpace(src.input, Loc(0, 0, 0)) == Some(Loc(0, 0, 0));
    assert Step(src, START) == NullPointer;
  }

  /**
   * A string the input ends inside is "Program truncated" with an
   * expression, and reads past the input without one.
   */
  lemma UnterminatedString()
    ensures ScanQuoted("'ab", true, Loc(0, 0, 0)) == StrFail(TRUNCATED)
    ensures ScanQuoted("'ab", false, Loc(0, 0, 0)) == StrOutOfRange
  {
    assert ScanString("'ab", true, Loc(1, 0, 1), "") == StrFail(TRUNCATED);
    assert ScanString("'ab", false, Loc(1, 0, 1), "") == StrOutOfRange;
  }

  // ---------------------------------------------------------------------
  // Names.

  /** The first non-blank position at or after `p`, or the end of the input. */
  function NextNonBlank(s: string, p: int): (q: int)
    requires 0 <= p <= |s|
    ensures p <= q <= |s| && (q < |s| ==> !IsWhitespace(s[q]))
    ensures forall i :: p <= i < q ==> IsWhitespace(s[i])
    decreases |s| - p
  {
    if p < |s| && IsWhitespace(s[p]) then NextNonBlank(s, p + 1) else p
  }

  /** After whitespace, the loop's last character is `(` exactly when the first non-blank one is. */
  lemma {:induction false} TrailingSpaceFindsParen(s: string, l: Loc, ch: char)
    requires 0 <= l.pos <= |s| && IsWhitespace(ch)
    ensures var q := NextNonBlank(s, l.pos);
            TrailingSpace(s, l, ch).1 == '(' <==> q < |s| && s[q] == '('
    decreases |s| - l.pos
  {
    if l.pos < |s| {
      var c := s[l.pos];
      var l' := if c == '\n' then Loc(l.pos + 1, l.lineNo + 1, 0)
                else Loc(l.pos + 1, l.lineNo, l.linePos + 1);
      if IsWhitespace(c) {
        TrailingSpaceFindsParen(s, l', c);
      }
    }
  }

  /**
   * A name is the longest run of letters, digits and `_` from its start, and
   * it is a FUNCTION exactly when the first non-blank character after it is
   * `(`; otherwise a VARIABLE.
   */
  lemma WordTokenShape(s: string, l: Loc)
    requires 0 <= l.pos < |s| && IsWordChar(s[l.pos])
    ensures var tok := WordToken(s, l).0;
            var e := WordEnd(s, l.pos);
            var q := NextNonBlank(s, e);
            tok.surface == s[l.pos..e]
            && (tok.ttype == FUNCTION <==> q < |s| && s[q] == '(')
            && (tok.ttype == VARIABLE <==> !(q < |s| && s[q] == '('))
  {
    WordTokenTypedByLast(s, l);
    LastAfterWordFindsParen(s, l);
  }

  /** The last character the name loops read: the one after the name, or after its trailing blanks. */
  function LastAfterWord(s: string, l: Loc): char
    requires 0 <= l.pos < |s|
  {
    var e := WordEnd(s, l.pos);
    var ch := CharAt(s, e);
    if IsWhitespace(ch) then TrailingSpace(s, Loc(e, l.lineNo, l.linePos + (e - l.pos)), ch).1 else ch
  }

  lemma WordTokenTypedByLast(s: string, l: Loc)
    requires 0 <= l.pos < |s| && IsWordChar(s[l.pos])
    ensures WordToken(s, l).0.ttype == (if LastAfterWord(s, l) == '(' then FUNCTION else VARIABLE)
    ensures WordToken(s, l).0.surface == s[l.pos..WordEnd(s, l.pos)]
  {
  }

  lemma LastAfterWordFindsParen(s: string, l: Loc)
    requires 0 <= l.pos < |s|
    ensures var q := NextNonBlank(s, WordEnd(s, l.pos));
            LastAfterWord(s, l) == '(' <==> q < |s| && s[q] == '('
  {
    var e := WordEnd(s, l.pos);
    var ch := CharAt(s, e);
    if IsWhitespace(ch) {
      TrailingSpaceFindsParen(s, Loc(e, l.lineNo, l.linePos + (e - l.pos)), ch);
    } else {
      assert NextNonBlank(s, e) == e;
    }
  }

  // ---------------------------------------------------------------------
  // Operators.

  /**
   * An operator token is the longest prefix of the symbol run that is an
   * operator (the whole run when none is), and it is unary, with `u`
   * appended, exactly when it follows nothing, an operator, an open
   * parenthesis, a comma, or a `{`/`[` marker.
   */
  lemma SymbolTokenOperator(src: Source, prev: Option<Token>, l: Loc)
    requires 0 <= l.pos < |src.input| && IsRunChar(src.input[l.pos])
    requires !StartsComment(src, l)
    requires !(src.newLines && src.input[l.pos..RunEnd(src.input, l.pos)] == "$")
    ensures var s, e := src.input, RunEnd(src.input, l.pos);
            var tok := SymbolToken(src, prev, l).tok;
            var k := SymbolToken(src, prev, l).at.pos;
            l.pos < k <= e
            && (tok.ttype == UNARY_OPERATOR <==> UnaryPosition(prev))
            && (tok.ttype == OPERATOR <==> !UnaryPosition(prev))
            && tok.surface == s[l.pos..k] + (if UnaryPosition(prev) then "u" else "")
            && (k < e ==> Registry.IsAnOperator(s[l.pos..k]))
            && (Registry.IsAnOperator(s[l.pos..k]) ==> forall j :: k < j <= e ==> !Registry.IsAnOperator(s[l.pos..j]))
            && (!Registry.IsAnOperator(s[l.pos..k]) ==> k == e && forall j :: l.pos < j <= e ==> !Registry.IsAnOperator(s[l.pos..j]))
  {
    var s, e := src.input, RunEnd(src.input, l.pos);
    LongestOperatorIsLongest(s, l.pos, e);
    var tok := SymbolToken(src, prev, l).tok;
    if !UnaryPosition(prev) {
      assert tok.surface == tok.surface + "";
    }
  }

  // ---------------------------------------------------------------------
  // The checks of an expression's tokenizer.

  /**
   * With an expression, no number, string or name directly follows a value
   * (a name, number, string or closing bracket): `next()` refuses it.
   */
  lemma StrictNoAdjacentValues(src: Source, c: Cursor)
    requires src.strict && 0 <= c.pos
    requires Step(src, c).Emitted? && c.prev.Some? && ValueLikeEnd(c.prev.value)
    ensures var t := Step(src, c).tok;
            !(t.ttype == LITERAL || t.ttype == HEX_LITERAL || t.ttype == VARIABLE || t.ttype == STRING || t.ttype == FUNCTION)
  {
    var l := SkipSpace(src.input, Loc(c.pos, c.lineNo, c.linePos)).value;
    var sc := Scan(src, c.prev, l);
    assert sc.Scanned?;
    if sc.marker {
      assert sc.tok.ttype == MARKER;
    }
  }

  /** The two number tokens of `1 2`, whatever the settings. */
  lemma NumbersOfOneTwo(src: Source)
    requires src.input == "1 2"
    ensures Step(src, START) == Emitted(Token("1", LITERAL, 0, 0, 0), Cursor(1, 0, 1, Some(Token("1", LITERAL, 0, 0, 0))))
    ensures SkipSpace("1 2", Loc(1, 0, 1)) == Some(Loc(2, 0, 2))
    ensures Scan(src, Some(Token("1", LITERAL, 0, 0, 0)), Loc(2, 0, 2)) == Scanned(Token("2", LITERAL, 2, 2, 0), Loc(3, 0, 3), false)
  {
    assert !HexStart("1 2", 0) && !HexStart("1 2", 2);
    assert NumberEnd("1 2", 0, 1, false) == 1;
    assert NumberEnd("1 2", 0, 0, false) == 1;
    assert NumberEnd("1 2", 2, 3, false) == 3;
    assert NumberEnd("1 2", 2, 2, false) == 3;
    assert "1 2"[0..1] == "1" && "1 2"[2..3] == "2";
    assert NumberToken("1 2", Loc(0, 0, 0)) == (Token("1", LITERAL, 0, 0, 0), Loc(1, 0, 1));
    assert NumberToken("1 2", Loc(2, 0, 2)) == (Token("2", LITERAL, 2, 2, 0), Loc(3, 0, 3));
  }

  /** The second `next()` on `1 2` ends in the adjacency check. */
  lemma SecondOfOneTwo(src: Source)
    requires src.input == "1 2"
    ensures var c1 := Cursor(1, 0, 1, Some(Token("1", LITERAL, 0, 0, 0)));
            Step(src, c1) == Close(src, c1, Token("2", LITERAL, 2, 2, 0), Loc(3, 0, 3))
  {
    NumbersOfOneTwo(src);
  }

  /** The message of the adjacency check for `2` after `1`. */
  lemma AdjacencyMessage()
    ensures AdjacencyError(Token("2", LITERAL, 2, 2, 0), Token("1", LITERAL, 0, 0, 0)) == "'2' is not allowed after '1'"
  {
    var m := "'" + "2" + "' is not allowed after '" + "1" + "'";
    assert |m| == 28;
    assert forall i :: 0 <= i < 28 ==> m[i] == "'2' is not allowed after '1'"[i];
  }

  /** With an expression, the second `next()` on `1 2` fails the adjacency check. */
  lemma SecondOfOneTwoRefused()
    ensures Step(Source("1 2", false, false, true), Cursor(1, 0, 1, Some(Token("1", LITERAL, 0, 0, 0))))
            == Failed("'2' is not allowed after '1'")
  {
    var src := Source("1 2", false, false, true);
    var one := Token("1", LITERAL, 0, 0, 0);
    var two := Token("2", LITERAL, 2, 2, 0);
    var c1 := Cursor(1, 0, 1, Some(one));
    SecondOfOneTwo(src);
    assert ValueLikeStart(two, one) && ValueLikeEnd(one);
    assert Close(src, c1, two, Loc(3, 0, 3)) == Failed(AdjacencyError(two, one));
    AdjacencyMessage();
  }

  /** Two numbers side by side are refused with an expression. */
  lemma AdjacentNumbersRefused()
    ensures Tokenize(Source("1 2", false, false, true), START) == Fail(ExprErr("'2' is not allowed after '1'"))
  {
    var src := Source("1 2", false, false, true);
    var c1 := Cursor(1, 0, 1, Some(Token("1", LITERAL, 0, 0, 0)));
    NumbersOfOneTwo(src);
    SecondOfOneTwoRefused();
    TokenizeUnfold(src, c1);
    TokenizeUnfold(src, START);
  }

  /** Without an expression, the second `next()` on `1 2` emits the second literal. */
  lemma SecondOfOneTwoLoose()
    ensures Step(Source("1 2", false, false, false), Cursor(1, 0, 1, Some(Token("1", LITERAL, 0, 0, 0))))
            == Emitted(Token("2", LITERAL, 2, 2, 0), Cursor(3, 0, 3, Some(Token("2", LITERAL, 2, 2, 0))))
  {
    SecondOfOneTwo(Source("1 2", false, false, false));
  }

  /** Without an expression the same input gives two literals. */
  lemma AdjacentNumbersLoose()
    ensures Tokenize(Source("1 2", false, false, false), START)
            == Ok([Token("1", LITERAL, 0, 0, 0), Token("2", LITERAL, 2, 2, 0)])
  {
    var src := Source("1 2", false, false, false);
    var one := Token("1", LITERAL, 0, 0, 0);
    var two := Token("2", LITERAL, 2, 2, 0);
    var c1 := Cursor(1, 0, 1, Some(one));
    NumbersOfOneTwo(src);
    SecondOfOneTwoLoose();
    TokenizeDone(src, Cursor(3, 0, 3, Some(two)));
    TokenizeUnfold(src, c1);
    assert [two] + [] == [two];
    TokenizeUnfold(src, START);
    assert [one] + [two] == [one, two];
  }

  /** The tokens of `1+` before the closing bracket. */
  lemma TokensOfOnePlus(src: Source)
    requires src.input == "1+)" && !src.comments && !src.newLines
    ensures Step(src, START) == Emitted(Token("1", LITERAL, 0, 0, 0), Cursor(1, 0, 1, Some(Token("1", LITERAL, 0, 0, 0))))
    ensures Scan(src, Some(Token("1", LITERAL, 0, 0, 0)), Loc(1, 0, 1)) == Scanned(Token("+", OPERATOR, 1, 1, 0), Loc(2, 0, 2), false)
  {
    assert !HexStart("1+)", 0);
    assert !NumberContinues("1+)", 0, 1, false);
    assert NumberEnd("1+)", 0, 1, false) == 1;
    assert NumberEnd("1+)", 0, 0, false) == 1;
    assert "1+)"[0..1] == "1";
    assert NumberToken("1+)", Loc(0, 0, 0)) == (Token("1", LITERAL, 0, 0, 0), Loc(1, 0, 1));
    assert RunEnd("1+)", 1) == 2;
    assert "1+)"[1..2] == "+";
    Registry.ArithmeticPrecedences(0);
    assert LongestOperator("1+)", 1, 2) == 2;
  }

  /** The message for `+` at the end of a subexpression. */
  lemma OperatorAtEndMessage()
    ensures OperatorAtEndError(Token("+", OPERATOR, 1, 1, 0)) == "Can't have operator + at the end of a subexpression"
  {
    var m := "Can't have operator " + "+" + " at the end of a subexpression";
    assert |m| == 51;
    assert forall i :: 0 <= i < 51 ==> m[i] == "Can't have operator + at the end of a subexpression"[i];
  }

  /** The third `next()` on `1+)` meets `)` right after the operator. */
  lemma ThirdOfOnePlusRefused()
    ensures Step(Source("1+)", false, false, true), Cursor(2, 0, 2, Some(Token("+", OPERATOR, 1, 1, 0))))
            == Failed("Can't have operator + at the end of a subexpression")
  {
    var src := Source("1+)", false, false, true);
    var plus := Token("+", OPERATOR, 1, 1, 0);
    assert SkipSpace("1+)", Loc(2, 0, 2)) == Some(Loc(2, 0, 2));
    assert IsBracket("1+)"[2]);
    assert Scan(src, Some(plus), Loc(2, 0, 2)) == ScanFailed(OperatorAtEndError(plus));
    OperatorAtEndMessage();
  }

  /** An operator right before a closing bracket is refused with an expression. */
  lemma OperatorBeforeCloseRejected()
    ensures Tokenize(Source("1+)", false, false, true), START)
            == Fail(ExprErr("Can't have operator + at the end of a subexpression"))
  {
    var src := Source("1+)", false, false, true);
    var one := Token("1", LITERAL, 0, 0, 0);
    var plus := Token("+", OPERATOR, 1, 1, 0);
    var c1 := Cursor(1, 0, 1, Some(one));
    var c2 := Cursor(2, 0, 2, Some(plus));
    TokensOfOnePlus(src);
    assert SkipSpace("1+)", Loc(1, 0, 1)) == Some(Loc(1, 0, 1));
    assert Step(src, c1) == Emitted(plus, c2);
    ThirdOfOnePlusRefused();
    TokenizeUnfold(src, c2);
    TokenizeUnfold(src, c1);
    TokenizeUnfold(src, START);
  }

  // ---------------------------------------------------------------------
  // postProcess.

  /** What `postProcess` leaves: no comment, no `{ } [ ]` marker and no unary `;`. */
  predicate Clean(t: Token) {
    !IsComment(t)
    && !(t.ttype == MARKER && (t.surface == "{" || t.surface == "}" || t.surface == "[" || t.surface == "]"))
    && !(t.ttype == UNARY_OPERATOR && t.surface == ";u")
  }

  /** The tokens `Desugared` pushes for a kept token are clean. */
  lemma DesugaredClean(cur: Token)
    requires !IsComment(cur) && !(cur.ttype == UNARY_OPERATOR && cur.surface == ";u")
    ensures forall t :: t in Desugared(cur) ==> Clean(t)
  {
  }

  lemma {:induction false} CleanBackwardsClean(toks: seq<Token>, last: Option<Token>, cleaned: seq<Token>)
    requires forall t :: t in cleaned ==> Clean(t)
    ensures forall t :: t in CleanBackwards(toks, last, cleaned) ==> Clean(t)
    decreases |toks|
  {
    if toks != [] {
      var cur := toks[|toks| - 1];
      var rest := toks[..|toks| - 1];
      if IsComment(cur) {
        CleanBackwardsClean(rest, last, cleaned);
      } else if IsSemicolon(cur) && !KeepsSemicolon(last) {
        CleanBackwardsClean(rest, Some(cur), cleaned);
      } else {
        var cur' := if IsSemicolon(cur) then MorphedInto(cur, OPERATOR, ";") else cur;
        DesugaredClean(cur');
        var pushed := Desugared(cur');
        var morphed := pushed[|pushed| - 1];
        CleanBackwardsClean(rest, if IsDollar(morphed) then last else Some(morphed), cleaned + pushed);
      }
    }
  }

  /** `postProcess` leaves no comment, no brace or bracket marker and no unary `;`. */
  lemma PostProcessedClean(toks: seq<Token>)
    ensures forall t :: t in PostProcessed(toks) ==> Clean(t)
  {
    var c := CleanBackwards(toks, None, []);
    CleanBackwardsClean(toks, None, []);
    forall t | t in PostProcessed(toks)
      ensures Clean(t)
    {
      var i :| 0 <= i < |PostProcessed(toks)| && PostProcessed(toks)[i] == t;
      assert t == c[|c| - 1 - i];
    }
  }

  /** The tokens `postProcess` passes through unchanged. */
  predicate Plain(t: Token) {
    !IsComment(t) && !IsSemicolon(t)
    && !(t.ttype == MARKER && (t.surface == "{" || t.surface == "}" || t.surface == "[" || t.surface == "]"))
  }

  /** One round of the loop on a plain token: it is pushed as it is. */
  lemma CleanBackwardsPlainStep(toks: seq<Token>, last: Option<Token>, cleaned: seq<Token>)
    requires toks != [] && Plain(toks[|toks| - 1])
    ensures var cur := toks[|toks| - 1];
            CleanBackwards(toks, last, cleaned)
            == CleanBackwards(toks[..|toks| - 1], if IsDollar(cur) then last else Some(cur), cleaned + [cur])
  {
    assert Desugared(toks[|toks| - 1]) == [toks[|toks| - 1]];
  }

  lemma {:induction false} CleanBackwardsPlain(toks: seq<Token>, last: Option<Token>, cleaned: seq<Token>)
    requires forall i :: 0 <= i < |toks| ==> Plain(toks[i])
    ensures CleanBackwards(toks, last, cleaned) == cleaned + Reversed(toks)
    decreases |toks|
  {
    if toks != [] {
      var n := |toks|;
      var cur := toks[n - 1];
      var rest := toks[..n - 1];
      var last' := if IsDollar(cur) then last else Some(cur);
      calc {
        CleanBackwards(toks, last, cleaned);
        { CleanBackwardsPlainStep(toks, last, cleaned); }
        CleanBackwards(rest, last', cleaned + [cur]);
        { CleanBackwardsPlain(rest, last', cleaned + [cur]); }
        cleaned + [cur] + Reversed(rest);
        { ParseSpec.ReversedSnoc(rest, cur); assert toks == rest + [cur]; }
        cleaned + Reversed(toks);
      }
    }
  }

  /**
   * Tokens that are neither comments, nor `;`, nor brace or bracket markers
   * come out of `postProcess` unchanged and in their original order.
   */
  lemma PostProcessedPlain(toks: seq<Token>)
    requires forall i :: 0 <= i < |toks| ==> Plain(toks[i])
    ensures PostProcessed(toks) == toks
  {
    CleanBackwardsPlain(toks, None, []);
    assert [] + Reversed(toks) == Reversed(toks);
    var r := Reversed(Reversed(toks));
    assert |r| == |toks|;
    forall i | 0 <= i < |toks|
      ensures r[i] == toks[i]
    {
    }
  }

  /**
   * Which token came last matters to `postProcess` only through whether a
   * `;` before it is kept.
   */
  lemma {:induction false} OnlyKeepingMatters(toks: seq<Token>, a: Option<Token>, b: Option<Token>, cleaned: seq<Token>)
    requires KeepsSemicolon(a) == KeepsSemicolon(b)
    ensures CleanBackwards(toks, a, cleaned) == CleanBackwards(toks, b, cleaned)
    decreases |toks|
  {
    if toks != [] {
      var cur := toks[|toks| - 1];
      var rest := toks[..|toks| - 1];
      if IsComment(cur) {
        OnlyKeepingMatters(rest, a, b, cleaned);
      } else if IsSemicolon(cur) && !KeepsSemicolon(a) {
      } else {
        var cur' := if IsSemicolon(cur) then MorphedInto(cur, OPERATOR, ";") else cur;
        var pushed := Desugared(cur');
        var morphed := pushed[|pushed| - 1];
        if IsDollar(morphed) {
          OnlyKeepingMatters(rest, a, b, cleaned + pushed);
        }
      }
    }
  }

  /** A `;` that ends the program is dropped. */
  lemma FinalSemicolonDropped(toks: seq<Token>, semi: Token)
    requires IsSemicolon(semi)
    ensures PostProcessed(toks + [semi]) == PostProcessed(toks)
  {
    var all := toks + [semi];
    assert all[..|all| - 1] == toks;
    OnlyKeepingMatters(toks, Some(semi), None, []);
  }

  /**
   * A `;` right before a `}` or `]` is dropped (the closing marker becomes
   * `)` first, and the list is read backwards).
   */
  lemma SemicolonBeforeCloseDropped(toks: seq<Token>, semi: Token, close: Token)
    requires IsSemicolon(semi)
    requires close.ttype == MARKER && (close.surface == "}" || close.surface == "]")
    ensures PostProcessed(toks + [semi, close]) == PostProcessed(toks + [close])
  {
    var c' := MorphedInto(close, CLOSE_PAREN, ")");
    var a := toks + [semi, close];
    var b := toks + [close];
    assert a[..|a| - 1] == toks + [semi];
    assert (toks + [semi])[..|toks|] == toks;
    assert b[..|b| - 1] == toks;
    assert Desugared(close) == [c'];
    assert CleanBackwards(a, None, []) == CleanBackwards(toks + [semi], Some(c'), [] + [c']);
    assert [] + [c'] == [c'];
    assert CleanBackwards(toks + [semi], Some(c'), [c']) == CleanBackwards(toks, Some(semi), [c']);
    assert CleanBackwards(b, None, []) == CleanBackwards(toks, Some(c'), [] + [c']);
    OnlyKeepingMatters(toks, Some(semi), Some(c'), [c']);
  }

  /** A `{` becomes a call of `m` and an opening parenthesis, in that order. */
  lemma BraceBecomesMapCall(open: Token)
    requires open.ttype == MARKER && open.surface == "{"
    ensures PostProcessed([open]) == [MorphedInto(open, FUNCTION, "m"), MorphedInto(open, OPEN_PAREN, "(")]
  {
    var pushed := Desugared(open);
    assert [open][..0] == [];
    assert CleanBackwards([open], None, []) == CleanBackwards([], Some(pushed[1]), [] + pushed);
    assert Reversed(pushed) == [pushed[1], pushed[0]];
  }
}
