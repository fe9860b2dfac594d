/**
 * What one call of `Tokenizer.next()` does, as a function of the input and
 * the cursor (`pos`, `lineNo`, `linePos`, `previousToken`).  The
 * `Tokenizer` class in module Lexer is proved to compute exactly this.
 *
 * Character classes follow `Character.isLetter`, `isDigit` and
 * `isWhitespace` on ASCII input.
 */
module LexSpec {
  import opened Values
  import opened Tokens
  import Registry

  predicate IsLetter(c: char) {
    ('a' <= c <= 'z') || ('A' <= c <= 'Z')
  }

  predicate IsWhitespace(c: char) {
    c == ' ' || (9 <= c as int <= 13) || (28 <= c as int <= 31)
  }

  /** `Tokenizer.isHexDigit`: hex digits and the `x`/`X` of the prefix. */
  predicate IsHexDigit(c: char) {
    c == 'x' || c == 'X' || ('0' <= c <= '9') || ('a' <= c <= 'f') || ('A' <= c <= 'F')
  }

  /** The character at `i`, or character 0 past the end (the scanners' `ch`). */
  function CharAt(s: string, i: int): char {
    if 0 <= i < |s| then s[i] else 0 as char
  }

  /** `Tokenizer.peekNextChar`: the character after `pos`, or 0 at the end. */
  function PeekNext(s: string, pos: int): (c: char)
    ensures 0 <= pos < |s| - 1 ==> c == s[pos + 1]
    ensures pos >= |s| - 1 ==> c == 0 as char
  {
    if pos < |s| - 1 then CharAt(s, pos + 1) else 0 as char
  }

  /** The settings a tokenizer is built with; `strict` is "has an Expression". */
  datatype Source = Source(input: string, comments: bool, newLines: bool, strict: bool)

  /** The mutable cursor of a tokenizer. */
  datatype Cursor = Cursor(pos: int, lineNo: int, linePos: int, prev: Option<Token>)

  datatype Loc = Loc(pos: int, lineNo: int, linePos: int)

  /** The outcome of one `next()`. */
  datatype Outcome =
    | Emitted(tok: Token, after: Cursor)  // a token
    | Finished(after: Cursor)             // `null`: the input is used up
    | Failed(msg: string)                 // ExpressionException
    | OutOfRange                          // StringIndexOutOfBoundsException
    | NullPointer                         // an error raised with no expression to describe it

  // ---------------------------------------------------------------------
  // Whitespace before a token.

  /**
   * The whitespace loop of `next()`: from a position holding a character,
   * skip whitespace, counting lines.  Running off the end reads past the
   * input (`None`).
   */
  function SkipSpace(s: string, l: Loc): (r: Option<Loc>)
    requires 0 <= l.pos < |s|
    ensures r.Some? ==> l.pos <= r.value.pos < |s| && !IsWhitespace(s[r.value.pos])
    decreases |s| - l.pos
  {
    var ch := s[l.pos];
    if !IsWhitespace(ch) then Some(l)
    else
      var lp := if ch == '\n' then 0 else l.linePos + 1;
      var ln := if ch == '\n' then l.lineNo + 1 else l.lineNo;
      if l.pos + 1 == |s| then None
      else SkipSpace(s, Loc(l.pos + 1, ln, lp))
  }

  // ---------------------------------------------------------------------
  // Numbers.

  /** Whether the number loop takes the character at `pos` (the token so far is `s[start..pos]`). */
  predicate NumberContinues(s: string, start: int, pos: int, isHex: bool)
    requires 0 <= start <= pos
  {
    var ch := CharAt(s, pos);
    var afterExp := pos > start && pos - 1 < |s| && (s[pos - 1] == 'e' || s[pos - 1] == 'E');
    (isHex && IsHexDigit(ch))
    || ((IsDigit(ch) || ch == '.' || ch == 'e' || ch == 'E'
         || (ch == '-' && afterExp) || (ch == '+' && afterExp))
        && pos < |s|)
  }

  /** Where the number loop stops. */
  function NumberEnd(s: string, start: int, pos: int, isHex: bool): (e: int)
    requires 0 <= start <= pos <= |s|
    ensures pos <= e <= |s|
    decreases |s| - pos
  {
    if pos < |s| && NumberContinues(s, start, pos, isHex) then NumberEnd(s, start, pos + 1, isHex)
    else pos
  }

  /** A `0x`/`0X` prefix switches the number loop to hex digits. */
  predicate HexStart(s: string, pos: int)
    requires 0 <= pos < |s|
  {
    s[pos] == '0' && (PeekNext(s, pos) == 'x' || PeekNext(s, pos) == 'X')
  }

  // ---------------------------------------------------------------------
  // Quoted strings.

  datatype StrScan =
    | StrDone(text: string, at: Loc)
    | StrFail(msg: string)
    | StrOutOfRange
    | StrNullPointer  // the carriage-return error of a tokenizer without an expression

  const TRUNCATED := "Program truncated"
  const CR_ERROR := "Carriage return character is not supported"

  /**
   * The string loop, from the position of the character `ch` it is about to
   * look at, with the text decoded so far.  The carriage-return error is
   * raised whether or not the tokenizer has an expression; without one,
   * composing its message dereferences the missing expression.
   */
  function ScanString(s: string, strict: bool, l: Loc, text: string): (r: StrScan)
    requires 0 <= l.pos < |s|
    ensures r.StrDone? ==> l.pos < r.at.pos <= |s|
    ensures r.StrNullPointer? ==> !strict
    decreases |s| - l.pos
  {
    var ch := s[l.pos];
    if ch == '\'' then StrDone(text, Loc(l.pos + 1, l.lineNo, l.linePos + 1))
    else if ch == '\\' && PeekNext(s, l.pos) == 'r' then (if strict then StrFail(CR_ERROR) else StrNullPointer)
    else
      var (text', at) := StringChar(s, l, text);
      if at.pos == |s| && strict then StrFail(TRUNCATED)
      else if at.pos >= |s| then StrOutOfRange
      else ScanString(s, strict, at, text')
  }

  /**
   * One character of a string literal other than the closing quote: an
   * escape `\n`, `\t`, `\\` or `\'` adds the character it names and skips
   * two; a backslash before anything else is dropped; any other character
   * is kept, a newline moving to the next line.
   */
  function StringChar(s: string, l: Loc, text: string): (r: (string, Loc))
    requires 0 <= l.pos < |s|
    ensures l.pos < r.1.pos <= l.pos + 2
    ensures |text| <= |r.0| <= |text| + 1 && r.0[..|text|] == text
  {
    var ch := s[l.pos];
    if ch == '\\' then
      var nc := PeekNext(s, l.pos);
      if nc == 'n' then (text + ['\n'], Loc(l.pos + 2, l.lineNo, l.linePos + 2))
      else if nc == 't' then (text + ['\t'], Loc(l.pos + 2, l.lineNo, l.linePos + 2))
      else if nc == '\\' || nc == '\'' then (text + [nc], Loc(l.pos + 2, l.lineNo, l.linePos + 2))
      else (text, Loc(l.pos + 1, l.lineNo, l.linePos + 1))
    else if ch == '\n' then (text + [ch], Loc(l.pos + 1, l.lineNo + 1, 0))
    else (text + [ch], Loc(l.pos + 1, l.lineNo, l.linePos + 1))
  }

  /** The opening quote at `l.pos`: step over it, then run the string loop. */
  function ScanQuoted(s: string, strict: bool, l: Loc): (r: StrScan)
    requires 0 <= l.pos < |s|
    ensures r.StrDone? ==> l.pos < r.at.pos <= |s|
    ensures r.StrNullPointer? ==> !strict
  {
    if l.pos + 1 == |s| then (if strict then StrFail(TRUNCATED) else StrOutOfRange)
    else ScanString(s, strict, Loc(l.pos + 1, l.lineNo, l.linePos + 1), "")
  }

  // ---------------------------------------------------------------------
  // Identifiers.

  predicate IsWordChar(c: char) {
    IsLetter(c) || IsDigit(c) || c == '_'
  }

  /** Where the identifier loop stops. */
  function WordEnd(s: string, pos: int): (e: int)
    requires 0 <= pos <= |s|
    ensures pos <= e <= |s|
    ensures forall i :: pos <= i < e ==> IsWordChar(s[i])
    ensures e < |s| ==> !IsWordChar(s[e])
    decreases |s| - pos
  {
    if pos < |s| && IsWordChar(s[pos]) then WordEnd(s, pos + 1) else pos
  }

  /**
   * The loop skipping whitespace after a name: it reads the character at
   * `pos` and steps past it while the last character read is whitespace.
   * Yields the cursor and that last character.
   */
  function TrailingSpace(s: string, l: Loc, ch: char): (r: (Loc, char))
    requires 0 <= l.pos <= |s|
    ensures l.pos <= r.0.pos <= |s|
    decreases |s| - l.pos
  {
    if IsWhitespace(ch) && l.pos < |s| then
      var c := s[l.pos];
      var l' := if c == '\n' then Loc(l.pos + 1, l.lineNo + 1, 0)
                else Loc(l.pos + 1, l.lineNo, l.linePos + 1);
      TrailingSpace(s, l', c)
    else (l, ch)
  }

  // ---------------------------------------------------------------------
  // Brackets.

  predicate IsBracket(c: char) {
    c == '(' || c == ')' || c == ',' || c == '{' || c == '}' || c == '[' || c == ']'
  }

  /**
   * The type the bracket `switch` leaves: its cases have no `break`, so
   * every case falls through to `default` and the type is always MARKER.
   * `Scan` uses this typing, as the tokenizer does.
   */
  function BracketType(c: char): (t: TokenType)
    requires IsBracket(c)
    ensures t == MARKER
  {
    var t := if c == '(' then OPEN_PAREN else MARKER;
    var t := if c == '(' || c == ')' then CLOSE_PAREN else t;
    var t := if c == '(' || c == ')' || c == ',' then COMMA else t;
    MARKER
  }

  /** The type the bracket switch evidently intends: one type per case. */
  function IntendedBracketType(c: char): (t: TokenType)
    requires IsBracket(c)
    ensures c == '(' <==> t == OPEN_PAREN
    ensures c == ')' <==> t == CLOSE_PAREN
    ensures c == ',' <==> t == COMMA
    ensures c in "{}[]" <==> t == MARKER
  {
    if c == '(' then OPEN_PAREN
    else if c == ')' then CLOSE_PAREN
    else if c == ',' then COMMA
    else MARKER
  }

  // ---------------------------------------------------------------------
  // Symbol runs.

  /** A character the operator loop takes into the run. */
  predicate IsRunChar(c: char) {
    !IsLetter(c) && !IsDigit(c) && c != '_' && !IsWhitespace(c) && c != '(' && c != ')' && c != ','
  }

  /** Where the run of symbol characters starting at `pos` ends. */
  function RunEnd(s: string, pos: int): (e: int)
    requires 0 <= pos <= |s|
    ensures pos <= e <= |s|
    ensures forall i :: pos <= i < e ==> IsRunChar(s[i])
    ensures e < |s| ==> !IsRunChar(s[e])
    decreases |s| - pos
  {
    if pos < |s| && IsRunChar(s[pos]) then RunEnd(s, pos + 1) else pos
  }

  /**
   * `validOperatorSeenUntil` once the loop has read `s[start..k]`: the end
   * of the longest prefix that is an operator, or -1.
   */
  function LongestOperator(s: string, start: int, k: int): (r: int)
    requires 0 <= start <= k <= |s|
    ensures r == -1 || start < r <= k
    decreases k
  {
    if k <= start then -1
    else if Registry.IsAnOperator(s[start..k]) then k
    else LongestOperator(s, start, k - 1)
  }

  /**
   * `validOperatorSeenUntil` marks the longest prefix of the run that is an
   * operator, or is -1 when no prefix is one.
   */
  lemma {:induction false} LongestOperatorIsLongest(s: string, start: int, k: int)
    requires 0 <= start <= k <= |s|
    ensures var r := LongestOperator(s, start, k);
            (r != -1 ==> Registry.IsAnOperator(s[start..r])
                         && forall j :: r < j <= k ==> !Registry.IsAnOperator(s[start..j]))
            && (r == -1 ==> forall j :: start < j <= k ==> !Registry.IsAnOperator(s[start..j]))
    decreases k
  {
    if k > start && !Registry.IsAnOperator(s[start..k]) {
      LongestOperatorIsLongest(s, start, k - 1);
    }
  }

  /** The end of a `//` comment: just past the first newline at or after `pos`, or the end. */
  function CommentEnd(s: string, pos: int): (e: int)
    requires 0 <= pos <= |s|
    ensures pos <= e <= |s|
    decreases |s| - pos
  {
    if pos >= |s| then pos
    else if s[pos] == '\n' then pos + 1
    else CommentEnd(s, pos + 1)
  }

  /** Whether a symbol token after `prev` is unary. */
  predicate UnaryPosition(prev: Option<Token>) {
    prev.None?
    || prev.value.ttype == OPERATOR || prev.value.ttype == OPEN_PAREN || prev.value.ttype == COMMA
    || (prev.value.ttype == MARKER && (prev.value.surface == "{" || prev.value.surface == "["))
  }

  // ---------------------------------------------------------------------
  // The adjacency check and the whole step.

  predicate ValueLikeStart(tok: Token, prev: Token) {
    tok.ttype == LITERAL || tok.ttype == HEX_LITERAL || tok.ttype == VARIABLE || tok.ttype == STRING
    || (tok.ttype == MARKER && (prev.surface == "{" || prev.surface == "["))
    || tok.ttype == FUNCTION
  }

  predicate ValueLikeEnd(prev: Token) {
    prev.ttype == VARIABLE || prev.ttype == FUNCTION || prev.ttype == LITERAL
    || prev.ttype == CLOSE_PAREN
    || (prev.ttype == MARKER && (prev.surface == "}" || prev.surface == "]"))
    || prev.ttype == HEX_LITERAL || prev.ttype == STRING
  }

  function AdjacencyError(tok: Token, prev: Token): string {
    "'" + tok.surface + "' is not allowed after '" + prev.surface + "'"
  }

  /** The end of `next()`: the adjacency check, then `previousToken = token`. */
  function Close(src: Source, c: Cursor, tok: Token, l: Loc): Outcome {
    if src.strict && c.prev.Some? && ValueLikeStart(tok, c.prev.value) && ValueLikeEnd(c.prev.value)
    then Failed(AdjacencyError(tok, c.prev.value))
    else Emitted(tok, Cursor(l.pos, l.lineNo, l.linePos, Some(tok)))
  }

  function OperatorAtEndError(prev: Token): string {
    "Can't have operator " + prev.surface + " at the end of a subexpression"
  }

  /** A number token from a digit at `l.pos`, and the cursor after it. */
  function NumberToken(s: string, l: Loc): (r: (Token, Loc))
    requires 0 <= l.pos < |s| && IsDigit(s[l.pos])
    ensures l.pos < r.1.pos <= |s|
  {
    var e := NumberEnd(s, l.pos, l.pos, HexStart(s, l.pos));
    (Token(s[l.pos..e], if HexStart(s, l.pos) then HEX_LITERAL else LITERAL, l.pos, l.linePos, l.lineNo),
     Loc(e, l.lineNo, l.linePos + (e - l.pos)))
  }

  /** A name from `l.pos`, typed by the first character after it and the whitespace that follows. */
  function WordToken(s: string, l: Loc): (r: (Token, Loc))
    requires 0 <= l.pos < |s| && IsWordChar(s[l.pos])
    ensures l.pos < r.1.pos <= |s|
  {
    var e := WordEnd(s, l.pos);
    var afterWord := Loc(e, l.lineNo, l.linePos + (e - l.pos));
    var ch := CharAt(s, e);
    var stop :=
      if IsWhitespace(ch) then
        var (w, last) := TrailingSpace(s, afterWord, ch);
        (Loc(w.pos - 1, w.lineNo, w.linePos - 1), last)
      else (afterWord, ch);
    (Token(s[l.pos..e], if stop.1 == '(' then FUNCTION else VARIABLE, l.pos, l.linePos, l.lineNo), stop.0)
  }

  /** A token read from a non-blank character, before the adjacency check. */
  datatype Scanned =
    | Scanned(tok: Token, at: Loc, marker: bool)  // `marker`: a comment or `$`, which skip the check
    | ScanFailed(msg: string)
    | ScanOutOfRange
    | ScanNullPointer

  predicate StartsComment(src: Source, l: Loc)
    requires 0 <= l.pos < |src.input|
  {
    src.comments && l.pos + 1 < |src.input| && src.input[l.pos] == '/' && src.input[l.pos + 1] == '/'
  }

  /** A symbol run from `l.pos`: a comment, a `$` marker or an operator. */
  function SymbolToken(src: Source, prev: Option<Token>, l: Loc): (r: Scanned)
    requires 0 <= l.pos < |src.input| && IsRunChar(src.input[l.pos])
    ensures r.Scanned? && l.pos < r.at.pos <= |src.input|
  {
    var s := src.input;
    if StartsComment(src, l) then
      var e := CommentEnd(s, l.pos + 1);
      var after := if s[e - 1] == '\n' then Loc(e, l.lineNo + 1, 0)
                   else Loc(e, l.lineNo, l.linePos + 1 + (e - (l.pos + 1)));
      // the loop reads the second '/' again, so it appears twice
      Scanned(Token("//" + s[l.pos + 1..e], MARKER, l.pos, l.linePos, l.lineNo), after, true)
    else
      var e := RunEnd(s, l.pos);
      if src.newLines && s[l.pos..e] == "$" then
        Scanned(Token("$", MARKER, l.pos, l.linePos, l.lineNo), Loc(e, l.lineNo + 1, 0), true)
      else
        var seen := LongestOperator(s, l.pos, e);
        var stop := if seen != -1 then seen else e;
        var unary := UnaryPosition(prev);
        var tok := Token(if unary then s[l.pos..stop] + "u" else s[l.pos..stop],
                         if unary then UNARY_OPERATOR else OPERATOR,
                         l.pos, l.linePos, l.lineNo);
        Scanned(tok, Loc(stop, l.lineNo, l.linePos + (stop - l.pos)), false)
  }

  /** The token that starts at the non-blank character at `l.pos`. */
  function Scan(src: Source, prev: Option<Token>, l: Loc): (r: Scanned)
    requires 0 <= l.pos < |src.input| && !IsWhitespace(src.input[l.pos])
    ensures r.Scanned? ==> l.pos < r.at.pos <= |src.input|
    ensures r.ScanNullPointer? ==> !src.strict
  {
    var s := src.input;
    var ch := s[l.pos];
    if IsDigit(ch) then
      var (tok, at) := NumberToken(s, l);
      Scanned(tok, at, false)
    else if ch == '\'' then
      match ScanQuoted(s, src.strict, l)
      case StrFail(msg) => ScanFailed(msg)
      case StrOutOfRange => ScanOutOfRange
      case StrNullPointer => ScanNullPointer
      case StrDone(text, at) => Scanned(Token(text, STRING, l.pos, l.linePos, l.lineNo), at, false)
    else if IsLetter(ch) || ch == '_' then
      var (tok, at) := WordToken(s, l);
      Scanned(tok, at, false)
    else if IsBracket(ch) then
      if src.strict && prev.Some? && prev.value.ttype == OPERATOR
         && (ch == ')' || ch == ',' || ch == ']' || ch == '}') && prev.value.surface != ";"
      then ScanFailed(OperatorAtEndError(prev.value))
      else Scanned(Token([ch], BracketType(ch), l.pos, l.linePos, l.lineNo), Loc(l.pos + 1, l.lineNo, l.linePos + 1), false)
    else SymbolToken(src, prev, l)
  }

  /** One call of `Tokenizer.next()`. */
  function Step(src: Source, c: Cursor): (r: Outcome)
    requires 0 <= c.pos
    ensures r.Emitted? ==> c.pos < r.after.pos <= |src.input|
    ensures r.Finished? <==> c.pos >= |src.input|
    ensures r.NullPointer? ==> !src.strict
  {
    if c.pos >= |src.input| then Finished(c.(prev := None))
    else
      match SkipSpace(src.input, Loc(c.pos, c.lineNo, c.linePos))
      case None => OutOfRange
      case Some(l) =>
        match Scan(src, c.prev, l)
        case ScanFailed(msg) => Failed(msg)
        case ScanOutOfRange => OutOfRange
        case ScanNullPointer => NullPointer
        case Scanned(tok, at, marker) =>
          if marker then Emitted(tok, Cursor(at.pos, at.lineNo, at.linePos, c.prev))
          else Close(src, c, tok, at)
  }

  // ---------------------------------------------------------------------
  // Whole-input passes.

  /** The first cursor of a new tokenizer. */
  const START := Cursor(0, 0, 0, None)

  /**
   * Calling `next()` while `hasNext()` holds, collecting the tokens; the
   * first exception ends the pass.
   */
  function Tokenize(src: Source, c: Cursor): (r: Res<seq<Token>>)
    requires 0 <= c.pos
    decreases |src.input| - c.pos
  {
    if c.pos >= |src.input| then Ok([])
    else
      match Step(src, c)
      case Emitted(tok, after) => Prepend([tok], Tokenize(src, after))
      case Failed(msg) => Fail(ExprErr(msg))
      case OutOfRange => Fail(Crash("StringIndexOutOfBoundsException"))
      case NullPointer => Fail(Crash("NullPointerException"))
      case Finished(_) => Ok([])
  }

  /** The tokens of `rest` after those already collected; a failure stays a failure. */
  function Prepend(done: seq<Token>, rest: Res<seq<Token>>): (r: Res<seq<Token>>)
    ensures r.Ok? <==> rest.Ok?
    ensures r.Ok? ==> |r.v| == |done| + |rest.v| && r.v[..|done|] == done && r.v[|done|..] == rest.v
    ensures r.Fail? ==> r.err == rest.err
  {
    match rest
    case Ok(ts) => Ok(done + ts)
    case Fail(e) => Fail(e)
  }

  lemma PrependNothing(rest: Res<seq<Token>>)
    ensures Prepend([], rest) == rest
  {
    if rest.Ok? {
      assert [] + rest.v == rest.v;
    }
  }

  lemma PrependTwice(a: seq<Token>, b: seq<Token>, rest: Res<seq<Token>>)
    ensures Prepend(a, Prepend(b, rest)) == Prepend(a + b, rest)
  {
    if rest.Ok? {
      assert a + (b + rest.v) == (a + b) + rest.v;
    }
  }

  /** What the pass yields once `next()` has produced `o`. */
  function Resume(src: Source, o: Outcome): Res<seq<Token>>
    requires o.Emitted? ==> 0 <= o.after.pos
    decreases if o.Emitted? then |src.input| - o.after.pos + 1 else 0
  {
    match o
    case Emitted(tok, after) => Prepend([tok], Tokenize(src, after))
    case Failed(msg) => Fail(ExprErr(msg))
    case OutOfRange => Fail(Crash("StringIndexOutOfBoundsException"))
    case NullPointer => Fail(Crash("NullPointerException"))
    case Finished(_) => Ok([])
  }

  lemma TokenizeDone(src: Source, c: Cursor)
    requires |src.input| <= c.pos
    ensures Tokenize(src, c) == Ok([])
  {
  }

  /** One `next()` call of the pass. */
  lemma TokenizeUnfold(src: Source, c: Cursor)
    requires 0 <= c.pos < |src.input|
    ensures Tokenize(src, c) == Resume(src, Step(src, c))
  {
  }

  /** `Tokenizer.simplePass`: no expression, no comments, no `$` markers. */
  function SimplePass(input: string): Res<seq<Token>> {
    Tokenize(Source(input, false, false, false), START)
  }

  /**
   * What `postProcess` pushes for a kept token: `{` and `[` become a call of
   * `m` or `l` and an opening parenthesis, `}` and `]` a closing one.  The
   * list is built backwards, so `(` is pushed before the function name.
   */
  function Desugared(cur: Token): (r: seq<Token>)
    ensures 1 <= |r| <= 2
  {
    if cur.ttype == MARKER && cur.surface == "{" then
      [MorphedInto(cur, OPEN_PAREN, "("), MorphedInto(cur, FUNCTION, "m")]
    else if cur.ttype == MARKER && cur.surface == "[" then
      [MorphedInto(cur, OPEN_PAREN, "("), MorphedInto(cur, FUNCTION, "l")]
    else if cur.ttype == MARKER && (cur.surface == "}" || cur.surface == "]") then
      [MorphedInto(cur, CLOSE_PAREN, ")")]
    else [cur]
  }

  /** A `;` is kept unless nothing (but `$` markers) follows it, or a `)`, `,` or `;` does. */
  predicate KeepsSemicolon(last: Option<Token>) {
    last.Some? && last.value.ttype != CLOSE_PAREN && last.value.ttype != COMMA && !IsSemicolon(last.value)
  }

  predicate IsDollar(t: Token) {
    t.ttype == MARKER && t.surface == "$"
  }

  /**
   * The loop of `postProcess`, taking tokens off the end of `toks`; `last` is
   * the token last taken (after morphing) that is not a comment or `$`, and
   * `cleaned` the list built so far, in reverse source order.
   */
  function CleanBackwards(toks: seq<Token>, last: Option<Token>, cleaned: seq<Token>): seq<Token>
    decreases |toks|
  {
    if toks == [] then cleaned
    else
      var cur := toks[|toks| - 1];
      var rest := toks[..|toks| - 1];
      if IsComment(cur) then CleanBackwards(rest, last, cleaned)
      else if IsSemicolon(cur) && !KeepsSemicolon(last) then
        CleanBackwards(rest, Some(cur), cleaned)
      else
        var cur' := if IsSemicolon(cur) then MorphedInto(cur, OPERATOR, ";") else cur;
        var pushed := Desugared(cur');
        var morphed := pushed[|pushed| - 1];
        CleanBackwards(rest, if IsDollar(morphed) then last else Some(morphed), cleaned + pushed)
  }

  function Reversed<T>(s: seq<T>): (r: seq<T>)
    ensures |r| == |s|
    ensures forall i :: 0 <= i < |s| ==> r[i] == s[|s| - 1 - i]
  {
    if s == [] then [] else Reversed(s[1..]) + [s[0]]
  }

  /** `Tokenizer.postProcess` on the tokens the tokenizer produces. */
  function PostProcessed(toks: seq<Token>): seq<Token> {
    Reversed(CleanBackwards(toks, None, []))
  }
}
