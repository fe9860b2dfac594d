/**
 * `Tokenizer`: a cursor over the program text that hands out one token per
 * `next()` call.  Every scanning loop advances the cursor fields in place,
 * as the Java class does, and each is proved to compute the corresponding
 * function of module LexSpec.
 */
module Lexer {
  import opened Values
  import opened Tokens
  import opened LexSpec

  class Tokenizer {
    const input: string
    const comments: bool
    const newLineMarkers: bool
    /** Whether the tokenizer belongs to an expression (errors are only raised then). */
    const strict: bool

    var pos: int
    var lineNo: int
    var linePos: int
    var previous: Option<Token>

    function Src(): Source {
      Source(input, comments, newLineMarkers, strict)
    }

    function Cursor(): LexSpec.Cursor
      reads this
    {
      LexSpec.Cursor(pos, lineNo, linePos, previous)
    }

    function Here(): Loc
      reads this
    {
      Loc(pos, lineNo, linePos)
    }

    constructor (input: string, comments: bool, newLineMarkers: bool, strict: bool)
      ensures Src() == Source(input, comments, newLineMarkers, strict)
      ensures Cursor() == START
    {
      this.input := input;
      this.comments := comments;
      this.newLineMarkers := newLineMarkers;
      this.strict := strict;
      pos, lineNo, linePos, previous := 0, 0, 0, None;
    }

    /** `hasNext`: characters remain. */
    function HasNext(): (b: bool)
      requires 0 <= pos
      reads this
      ensures b <==> !Step(Src(), Cursor()).Finished?
    {
      pos < |input|
    }

    /**
     * `Tokenizer.next`.  The scanning loops run on copies of the cursor
     * fields, which are written back once the token is read.
     */
    method Next() returns (r: Outcome)
      requires 0 <= pos
      modifies this
      ensures r == Step(Src(), old(Cursor()))
      ensures r.Emitted? || r.Finished? ==> Cursor() == r.after
    {
      if pos >= |input| {
        previous := None;
        return Finished(Cursor());
      }
      var start := ReadSpace(input, Here());
      if start.None? {
        return OutOfRange;
      }
      var scanned := ReadToken(Src(), previous, start.value);
      match scanned
      case ScanFailed(msg) => return Failed(msg);
      case ScanOutOfRange => return OutOfRange;
      case ScanNullPointer => return NullPointer;
      case Scanned(tok, at, marker) =>
        pos, lineNo, linePos := at.pos, at.lineNo, at.linePos;
        if marker {
          return Emitted(tok, Cursor());
        }
        if strict && previous.Some? && ValueLikeStart(tok, previous.value) && ValueLikeEnd(previous.value) {
          return Failed(AdjacencyError(tok, previous.value));
        }
        previous := Some(tok);
        return Emitted(tok, Cursor());
    }

    /** Draining the tokenizer through its iterator interface (the stream `postProcess` collects). */
    method RemainingTokens() returns (r: Res<seq<Token>>)
      requires 0 <= pos
      modifies this
      ensures r == Tokenize(Src(), old(Cursor()))
    {
      var originalTokens: seq<Token> := [];
      PrependNothing(Tokenize(Src(), Cursor()));
      while HasNext()
        invariant 0 <= pos
        invariant Tokenize(Src(), old(Cursor())) == Prepend(originalTokens, Tokenize(Src(), Cursor()))
        decreases |input| - pos
      {
        ghost var before := Cursor();
        TokenizeUnfold(Src(), before);
        var o := Next();
        match o
        case Emitted(t, _) =>
          PrependTwice(originalTokens, [t], Tokenize(Src(), Cursor()));
          originalTokens := originalTokens + [t];
        case Failed(msg) => return Fail(ExprErr(msg));
        case OutOfRange => return Fail(Crash("StringIndexOutOfBoundsException"));
        case NullPointer => return Fail(Crash("NullPointerException"));
      }
      TokenizeDone(Src(), Cursor());
      assert originalTokens + [] == originalTokens;
      return Ok(originalTokens);
    }

    /** `Tokenizer.postProcess`: all remaining tokens, cleaned. */
    method PostProcess() returns (r: Res<seq<Token>>)
      requires 0 <= pos
      modifies this
      ensures r == match Tokenize(Src(), old(Cursor()))
                   case Ok(toks) => Ok(PostProcessed(toks))
                   case Fail(e) => Fail(e)
    {
      var originalTokens := RemainingTokens();
      if originalTokens.Fail? {
        return Fail(originalTokens.err);
      }
      var cleanedTokens := CleanTokens(originalTokens.v);
      return Ok(cleanedTokens);
    }
  }

  /** `Tokenizer.simplePass`: every token of a text read outside an expression, uncleaned. */
  method SimplePass(input: string) returns (r: Res<seq<Token>>)
    ensures r == LexSpec.SimplePass(input)
  {
    var tokenizer := new Tokenizer(input, false, false, false);
    r := tokenizer.RemainingTokens();
  }

  /** The backwards loop of `postProcess`, and the final reversal. */
  method CleanTokens(originalTokens: seq<Token>) returns (r: seq<Token>)
    ensures r == PostProcessed(originalTokens)
  {
    var cleanedTokens: seq<Token> := [];
    var last: Option<Token> := None;
    var toks := originalTokens;
    while |toks| > 0
      invariant CleanBackwards(toks, last, cleanedTokens) == CleanBackwards(originalTokens, None, [])
    {
      var current := toks[|toks| - 1];
      toks := toks[..|toks| - 1];
      if IsComment(current) {
        continue;
      }
      if !IsSemicolon(current) || KeepsSemicolon(last) {
        if IsSemicolon(current) {
          current := MorphedInto(current, OPERATOR, ";");
        }
        var pushed := Desugared(current);
        cleanedTokens := cleanedTokens + pushed;
        current := pushed[|pushed| - 1];
      }
      if !IsDollar(current) {
        last := Some(current);
      }
    }
    return Reversed(cleanedTokens);
  }

  /** The whitespace loop of `next()`; `None` when it reads past the end. */
  method ReadSpace(input: string, l: Loc) returns (r: Option<Loc>)
    requires 0 <= l.pos < |input|
    ensures r == SkipSpace(input, l)
  {
    var pos, lineNo, linePos := l.pos, l.lineNo, l.linePos;
    var ch := input[pos];
    while IsWhitespace(ch) && pos < |input|
      invariant 0 <= pos < |input| && ch == input[pos]
      invariant SkipSpace(input, Loc(pos, lineNo, linePos)) == SkipSpace(input, l)
      decreases |input| - pos
    {
      linePos := linePos + 1;
      if ch == '\n' {
        lineNo := lineNo + 1;
        linePos := 0;
      }
      if pos + 1 == |input| {
        return None;
      }
      pos := pos + 1;
      ch := input[pos];
    }
    return Some(Loc(pos, lineNo, linePos));
  }

  /** The number loop, from a digit. */
  method ReadNumber(input: string, l: Loc) returns (tok: Token, at: Loc)
    requires 0 <= l.pos < |input| && IsDigit(input[l.pos])
    ensures (tok, at) == NumberToken(input, l)
  {
    var pos, linePos := l.pos, l.linePos;
    var isHex := input[pos] == '0' && (PeekNext(input, pos) == 'x' || PeekNext(input, pos) == 'X');
    var surface := "";
    var ch := input[pos];
    while (isHex && IsHexDigit(ch))
          || ((IsDigit(ch) || ch == '.' || ch == 'e' || ch == 'E'
               || (ch == '-' && |surface| > 0 && (surface[|surface| - 1] == 'e' || surface[|surface| - 1] == 'E'))
               || (ch == '+' && |surface| > 0 && (surface[|surface| - 1] == 'e' || surface[|surface| - 1] == 'E')))
              && pos < |input|)
      invariant l.pos <= pos <= |input| && surface == input[l.pos..pos]
      invariant ch == CharAt(input, pos)
      invariant linePos == l.linePos + (pos - l.pos)
      invariant NumberEnd(input, l.pos, pos, isHex) == NumberEnd(input, l.pos, l.pos, isHex)
      decreases |input| - pos
    {
      surface := surface + [input[pos]];
      pos := pos + 1;
      linePos := linePos + 1;
      ch := if pos == |input| then 0 as char else input[pos];
    }
    tok := Token(surface, if isHex then HEX_LITERAL else LITERAL, l.pos, l.linePos, l.lineNo);
    at := Loc(pos, l.lineNo, linePos);
  }

  /** The string loop, from the opening quote. */
  method ReadString(input: string, strict: bool, l: Loc) returns (r: StrScan)
    requires 0 <= l.pos < |input|
    ensures r == ScanQuoted(input, strict, l)
  {
    var pos, lineNo, linePos := l.pos + 1, l.lineNo, l.linePos + 1;
    if pos == |input| && strict {
      return StrFail(TRUNCATED);
    }
    if pos >= |input| {
      return StrOutOfRange;
    }
    var text := "";
    var ch := input[pos];
    while ch != '\''
      invariant 0 <= pos < |input| && ch == input[pos]
      invariant ScanString(input, strict, Loc(pos, lineNo, linePos), text) == ScanQuoted(input, strict, l)
      decreases |input| - pos
    {
      if ch == '\\' && PeekNext(input, pos) == 'r' {
        return if strict then StrFail(CR_ERROR) else StrNullPointer;
      }
      text, pos, lineNo, linePos := ReadStringChar(input, pos, lineNo, linePos, text);
      if pos == |input| && strict {
        return StrFail(TRUNCATED);
      }
      if pos >= |input| {
        return StrOutOfRange;
      }
      ch := input[pos];
    }
    return StrDone(text, Loc(pos + 1, lineNo, linePos + 1));
  }

  /** The body of the string loop for a character that neither closes the string nor is `\r`. */
  method ReadStringChar(input: string, pos0: int, lineNo0: int, linePos0: int, text0: string)
    returns (text: string, pos: int, lineNo: int, linePos: int)
    requires 0 <= pos0 < |input|
    ensures (text, Loc(pos, lineNo, linePos)) == StringChar(input, Loc(pos0, lineNo0, linePos0), text0)
  {
    text, pos, lineNo, linePos := text0, pos0, lineNo0, linePos0;
    var ch := input[pos];
    if ch == '\\' {
      var nextChar := PeekNext(input, pos);
      if nextChar == 'n' {
        text := text + ['\n'];
      } else if nextChar == 't' {
        text := text + ['\t'];
      } else if nextChar == '\\' || nextChar == '\'' {
        text := text + [nextChar];
      } else {
        pos := pos - 1;
        linePos := linePos - 1;
      }
      pos := pos + 2;
      linePos := linePos + 2;
    } else {
      text := text + [input[pos]];
      pos := pos + 1;
      linePos := linePos + 1;
      if ch == '\n' {
        lineNo := lineNo + 1;
        linePos := 0;
      }
    }
  }

  /** A name, the whitespace after it, and its type by the next character. */
  method ReadWord(input: string, l: Loc) returns (tok: Token, at: Loc)
    requires 0 <= l.pos < |input| && IsWordChar(input[l.pos])
    ensures (tok, at) == WordToken(input, l)
  {
    var pos, lineNo, linePos := l.pos, l.lineNo, l.linePos;
    var surface := "";
    var ch := input[pos];
    while IsWordChar(ch) && pos < |input|
      invariant l.pos <= pos <= |input| && surface == input[l.pos..pos]
      invariant ch == CharAt(input, pos)
      invariant linePos == l.linePos + (pos - l.pos)
      invariant WordEnd(input, pos) == WordEnd(input, l.pos)
      decreases |input| - pos
    {
      surface := surface + [input[pos]];
      pos := pos + 1;
      linePos := linePos + 1;
      ch := if pos == |input| then 0 as char else input[pos];
    }
    if IsWhitespace(ch) {
      ghost var afterWord, firstCh := Loc(pos, lineNo, linePos), ch;
      while IsWhitespace(ch) && pos < |input|
        invariant 0 <= pos <= |input|
        invariant TrailingSpace(input, Loc(pos, lineNo, linePos), ch) == TrailingSpace(input, afterWord, firstCh)
        decreases |input| - pos
      {
        ch := input[pos];
        pos := pos + 1;
        linePos := linePos + 1;
        if ch == '\n' {
          lineNo := lineNo + 1;
          linePos := 0;
        }
      }
      pos := pos - 1;
      linePos := linePos - 1;
    }
    tok := Token(surface, if ch == '(' then FUNCTION else VARIABLE, l.pos, l.linePos, l.lineNo);
    at := Loc(pos, lineNo, linePos);
  }

  /** The `//` comment loop: `pos` is at the second '/', which is read again. */
  method ReadComment(input: string, commentPos: int) returns (greedy: string, pos: int, endsLine: bool)
    requires 0 <= commentPos < |input| && input[commentPos] == '/'
    ensures pos == CommentEnd(input, commentPos) && commentPos < pos
    ensures greedy == "//" + input[commentPos..pos]
    ensures endsLine == (input[pos - 1] == '\n')
  {
    greedy, pos := "//", commentPos;
    var ch := '/';
    while ch != '\n' && pos < |input|
      invariant commentPos <= pos <= |input|
      invariant greedy == "//" + input[commentPos..pos]
      invariant (pos == commentPos && ch == '/') || (pos > commentPos && ch == input[pos - 1])
      invariant ch != '\n' ==> CommentEnd(input, pos) == CommentEnd(input, commentPos)
      invariant ch == '\n' ==> pos == CommentEnd(input, commentPos)
      decreases |input| - pos
    {
      ch := input[pos];
      pos := pos + 1;
      greedy := greedy + [ch];
    }
    endsLine := ch == '\n';
  }

  /**
   * The operator loop: appends symbol characters to `greedy`, noting in
   * `seen` the end of the longest operator prefix so far, until the run ends
   * or `greedy` is `//` with comments on.  (`linePos` moves with `pos`.)
   */
  method ReadRun(src: Source, l: Loc) returns (greedy: string, pos: int, seen: int, comment: bool)
    requires 0 <= l.pos < |src.input| && IsRunChar(src.input[l.pos])
    ensures comment == StartsComment(src, l)
    ensures comment ==> pos == l.pos + 1
    ensures !comment ==> pos == RunEnd(src.input, l.pos) && greedy == src.input[l.pos..pos]
                         && seen == LongestOperator(src.input, l.pos, pos)
  {
    var input := src.input;
    pos := l.pos;
    ghost var end := RunEnd(input, l.pos);
    greedy := "";
    var ch := input[pos];
    seen := -1;
    while IsRunChar(ch) && pos < |input|
      invariant l.pos <= pos <= end && greedy == input[l.pos..pos]
      invariant RunEnd(input, pos) == end
      invariant ch == CharAt(input, pos)
      invariant seen == LongestOperator(input, l.pos, pos)
      invariant pos > l.pos + 1 ==> !StartsComment(src, l)
      decreases |input| - pos
    {
      greedy := greedy + [ch];
      if src.comments && |greedy| == 2 && greedy[0] == '/' && greedy[1] == '/' {
        return greedy, pos, seen, true;
      }
      pos := pos + 1;
      if Registry.IsAnOperator(greedy) {
        seen := pos;
      }
      ch := if pos == |input| then 0 as char else input[pos];
    }
    comment := false;
  }

  /** The symbol branch of `next()`: a comment, a `$` marker, or the longest operator prefix of the run. */
  method ReadSymbols(src: Source, prev: Option<Token>, l: Loc) returns (r: Scanned)
    requires 0 <= l.pos < |src.input| && IsRunChar(src.input[l.pos])
    ensures r == SymbolToken(src, prev, l)
  {
    var greedy, pos, seen, comment := ReadRun(src, l);
    var linePos := l.linePos + (pos - l.pos);
    if comment {
      var text, after, endsLine := ReadComment(src.input, pos);
      var at := if endsLine then Loc(after, l.lineNo + 1, 0)
                else Loc(after, l.lineNo, linePos + (after - pos));
      return Scanned(Token(text, MARKER, l.pos, l.linePos, l.lineNo), at, true);
    }
    if src.newLines && greedy == "$" {
      return Scanned(Token("$", MARKER, l.pos, l.linePos, l.lineNo), Loc(pos, l.lineNo + 1, 0), true);
    }
    var surface := greedy;
    if seen != -1 {
      surface := src.input[l.pos..seen];
      pos := seen;
      linePos := l.linePos + seen - l.pos;
    }
    var tok := if UnaryPosition(prev) then Token(surface + "u", UNARY_OPERATOR, l.pos, l.linePos, l.lineNo)
               else Token(surface, OPERATOR, l.pos, l.linePos, l.lineNo);
    return Scanned(tok, Loc(pos, l.lineNo, linePos), false);
  }

  /** The branch of `next()` chosen by the first non-blank character. */
  method ReadToken(src: Source, prev: Option<Token>, l: Loc) returns (r: Scanned)
    requires 0 <= l.pos < |src.input| && !IsWhitespace(src.input[l.pos])
    ensures r == Scan(src, prev, l)
  {
    var ch := src.input[l.pos];
    if IsDigit(ch) {
      var tok, at := ReadNumber(src.input, l);
      return Scanned(tok, at, false);
    } else if ch == '\'' {
      var str := ReadString(src.input, src.strict, l);
      match str
      case StrFail(msg) => return ScanFailed(msg);
      case StrOutOfRange => return ScanOutOfRange;
      case StrNullPointer => return ScanNullPointer;
      case StrDone(text, at) => return Scanned(Token(text, STRING, l.pos, l.linePos, l.lineNo), at, false);
    } else if IsLetter(ch) || ch == '_' {
      var tok, at := ReadWord(src.input, l);
      return Scanned(tok, at, false);
    } else if IsBracket(ch) {
      if src.strict && prev.Some? && prev.value.ttype == OPERATOR
         && (ch == ')' || ch == ',' || ch == ']' || ch == '}') && prev.value.surface != ";" {
        return ScanFailed(OperatorAtEndError(prev.value));
      }
      return Scanned(Token([ch], BracketType(ch), l.pos, l.linePos, l.lineNo), Loc(l.pos + 1, l.lineNo, l.linePos + 1), false);
    } else {
      r := ReadSymbols(src, prev, l);
    }
  }
}
