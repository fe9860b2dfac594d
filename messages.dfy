/**
 * The text of an ExpressionException raised at a token: the snippet of the
 * program around the token (`Expression.getExpressionSnippet` and its three
 * context helpers), the error line `errorMaker` appends to it, and
 * `makeMessage`, which an installed error snooper may override.
 *
 * Java's `String.split("\n")` is modelled exactly: it cuts at every newline
 * and then drops the trailing empty pieces, except that a text without a
 * newline is one piece even when it is empty.
 */
module Messages {
  import opened Values
  import opened Tokens

  // ---------------------------------------------------------------------
  // Splitting into lines

  /** The pieces between the newlines of `s`, empty ones included. */
  function RawSplit(s: string): (r: seq<string>)
    ensures |r| >= 1
    decreases |s|
  {
    if s == [] then [""]
    else
      var rest := RawSplit(s[1..]);
      if s[0] == '\n' then [""] + rest else [[s[0]] + rest[0]] + rest[1..]
  }

  /** `String.join("\n", lines)`. */
  function Join(lines: seq<string>): string
    decreases |lines|
  {
    if lines == [] then ""
    else if |lines| == 1 then lines[0]
    else lines[0] + "\n" + Join(lines[1..])
  }

  /** Joining the pieces with newlines gives the text back. */
  lemma {:induction false} JoinRawSplit(s: string)
    ensures Join(RawSplit(s)) == s
    decreases |s|
  {
    if s != [] {
      var rest := RawSplit(s[1..]);
      JoinRawSplit(s[1..]);
      if s[0] == '\n' {
        assert RawSplit(s)[1..] == rest;
        assert "" + "\n" == "\n";
        assert s == "\n" + s[1..];
      } else {
        var r := RawSplit(s);
        assert r[1..] == rest[1..];
        if |rest| == 1 {
          assert Join(r) == [s[0]] + rest[0];
        } else {
          assert Join(r) == [s[0]] + rest[0] + "\n" + Join(rest[1..]);
          AppendAssoc([s[0]], rest[0], "\n");
          AppendAssoc([s[0]], rest[0] + "\n", Join(rest[1..]));
        }
        assert s == [s[0]] + s[1..];
      }
    }
  }

  /** No piece holds a newline. */
  lemma {:induction false} RawSplitNoNewline(s: string)
    ensures forall i, j :: 0 <= i < |RawSplit(s)| && 0 <= j < |RawSplit(s)[i]| ==> RawSplit(s)[i][j] != '\n'
    decreases |s|
  {
    if s != [] {
      RawSplitNoNewline(s[1..]);
    }
  }

  /** The pieces without the empty ones at the end. */
  function DropTrailingEmpty(pieces: seq<string>): (r: seq<string>)
    ensures |r| <= |pieces| && r == pieces[..|r|]
    ensures r == [] || r[|r| - 1] != ""
    ensures forall i :: |r| <= i < |pieces| ==> pieces[i] == ""
    decreases |pieces|
  {
    if pieces == [] || pieces[|pieces| - 1] != "" then pieces
    else DropTrailingEmpty(pieces[..|pieces| - 1])
  }

  /** `s.split("\n")`. */
  function JavaSplit(s: string): seq<string> {
    if '\n' !in s then [s] else DropTrailingEmpty(RawSplit(s))
  }

  /** A text without a newline is its own single line. */
  lemma SplitOneLine(s: string)
    requires '\n' !in s
    ensures JavaSplit(s) == [s]
  {
  }

  /** Joining the first `k` pieces gives a prefix of the joined pieces, followed there by a newline unless they are all. */
  lemma {:induction false} JoinPrefix(pieces: seq<string>, k: nat)
    requires 1 <= k <= |pieces|
    ensures Join(pieces[..k]) <= Join(pieces)
    ensures k < |pieces| ==> |Join(pieces[..k])| < |Join(pieces)| && Join(pieces)[|Join(pieces[..k])|] == '\n'
    decreases |pieces|
  {
    if k == |pieces| {
      assert pieces[..k] == pieces;
    } else {
      var whole := Join(pieces);
      assert whole == pieces[0] + "\n" + Join(pieces[1..]);
      if k == 1 {
        assert pieces[..1] == [pieces[0]];
        assert whole[|pieces[0]|] == '\n';
      } else {
        var sub := pieces[..k];
        assert sub[1..] == pieces[1..][..k - 1];
        JoinPrefix(pieces[1..], k - 1);
        var tail := Join(pieces[1..][..k - 1]);
        assert Join(sub) == pieces[0] + "\n" + tail;
        assert Join(pieces[1..])[|tail|] == '\n';
        assert whole[|Join(sub)|] == Join(pieces[1..])[|tail|];
      }
    }
  }

  /** Joining with only empty pieces after a prefix adds nothing but newlines. */
  lemma {:induction false} JoinEmptyTail(pieces: seq<string>, k: nat)
    requires 1 <= k <= |pieces|
    requires forall i :: k <= i < |pieces| ==> pieces[i] == ""
    ensures forall i :: |Join(pieces[..k])| <= i < |Join(pieces)| ==> Join(pieces)[i] == '\n'
    decreases |pieces|
  {
    if k == |pieces| {
      assert pieces[..k] == pieces;
    } else {
      var whole := Join(pieces);
      assert whole == pieces[0] + "\n" + Join(pieces[1..]);
      var n := |pieces[0]| + 1;
      if k == 1 {
        assert pieces[..1] == [pieces[0]];
        JoinAllEmpty(pieces[1..]);
        forall i | |pieces[0]| <= i < |whole|
          ensures whole[i] == '\n'
        {
          if i >= n {
            assert whole[i] == Join(pieces[1..])[i - n];
          }
        }
      } else {
        var sub := pieces[..k];
        assert sub[1..] == pieces[1..][..k - 1];
        JoinEmptyTail(pieces[1..], k - 1);
        var tail := Join(pieces[1..][..k - 1]);
        assert Join(sub) == pieces[0] + "\n" + tail;
        forall i | |Join(sub)| <= i < |whole|
          ensures whole[i] == '\n'
        {
          assert whole[i] == Join(pieces[1..])[i - n];
        }
      }
    }
  }

  /** Empty pieces join into newlines only. */
  lemma {:induction false} JoinAllEmpty(pieces: seq<string>)
    requires forall i :: 0 <= i < |pieces| ==> pieces[i] == ""
    ensures forall i :: 0 <= i < |Join(pieces)| ==> Join(pieces)[i] == '\n'
    decreases |pieces|
  {
    if |pieces| > 1 {
      JoinAllEmpty(pieces[1..]);
    }
  }

  /**
   * The lines `split` finds hold no newline, and joined back they give the
   * text up to its trailing newlines, which are all it drops.
   */
  lemma SplitLines(s: string)
    ensures forall i, j :: 0 <= i < |JavaSplit(s)| && 0 <= j < |JavaSplit(s)[i]| ==> JavaSplit(s)[i][j] != '\n'
    ensures Join(JavaSplit(s)) <= s
    ensures forall i :: |Join(JavaSplit(s))| <= i < |s| ==> s[i] == '\n'
  {
    if '\n' in s {
      var pieces := RawSplit(s);
      var lines := DropTrailingEmpty(pieces);
      RawSplitNoNewline(s);
      JoinRawSplit(s);
      if lines == [] {
        JoinAllEmpty(pieces);
      } else {
        JoinPrefix(pieces, |lines|);
        JoinEmptyTail(pieces, |lines|);
      }
    }
  }

  // ---------------------------------------------------------------------
  // The snippet

  const INDEX_CRASH := Crash("ArrayIndexOutOfBoundsException")
  const SUBSTRING_CRASH := Crash("StringIndexOutOfBoundsException")
  const HERE := " HERE>> "

  function Max(a: int, b: int): int { if a < b then b else a }
  function Min(a: int, b: int): int { if a < b then a else b }

  /** `getExpressionSnippetLeftContext`: the line before the token's, when there are several lines. */
  function LeftContext(lines: seq<string>, lineNo: int): Res<seq<string>> {
    if |lines| == 1 || lineNo - 1 < 0 then Ok([])
    else if lineNo - 1 < |lines| then Ok([lines[lineNo - 1]])
    else Fail(INDEX_CRASH)
  }

  /**
   * `getExpressionSnippetContext`: the token's line cut at its column, or,
   * for a one-line program, up to 40 characters before the position and 41
   * from it.
   */
  function Context(lines: seq<string>, code: string, tok: Token): Res<(string, string)> {
    if |lines| > 1 then
      if !(0 <= tok.lineNo < |lines|) then Fail(INDEX_CRASH)
      else if !(0 <= tok.linePos <= |lines[tok.lineNo]|) then Fail(SUBSTRING_CRASH)
      else Ok((lines[tok.lineNo][..tok.linePos], lines[tok.lineNo][tok.linePos..]))
    else if !(0 <= tok.pos <= |code|) then Fail(SUBSTRING_CRASH)
    else Ok((code[Max(0, tok.pos - 40)..tok.pos], code[tok.pos..Min(tok.pos + 1 + 40, |code|)]))
  }

  /** `getExpressionSnippetRightContext`: the line after the token's, when there are several lines. */
  function RightContext(lines: seq<string>, lineNo: int): Res<seq<string>> {
    if |lines| == 1 || lineNo + 1 >= |lines| then Ok([])
    else if lineNo + 1 < 0 then Fail(INDEX_CRASH)
    else Ok([lines[lineNo + 1]])
  }

  /** `getExpressionSnippet`: the left context, the token's line with the marker, the right context. */
  function Snippet(tok: Token, code: string): Res<seq<string>> {
    var lines := JavaSplit(code);
    match LeftContext(lines, tok.lineNo)
    case Fail(e) => Fail(e)
    case Ok(left) =>
      match Context(lines, code, tok)
      case Fail(e) => Fail(e)
      case Ok((before, after)) =>
        match RightContext(lines, tok.lineNo)
        case Fail(e) => Fail(e)
        case Ok(right) => Ok(left + [before + HERE + after] + right)
  }

  /**
   * In a one-line program the snippet is one line: the marker preceded by
   * the (at most 40) characters before the token's position and followed by
   * the (at most 41) characters from it.
   */
  lemma OneLineSnippet(tok: Token, code: string)
    requires '\n' !in code && 0 <= tok.pos <= |code|
    ensures Snippet(tok, code) == Ok([code[tok.pos - Min(40, tok.pos)..tok.pos] + HERE + code[tok.pos..tok.pos + Min(41, |code| - tok.pos)]])
  {
    SplitOneLine(code);
    var lines := JavaSplit(code);
    assert tok.pos - Min(40, tok.pos) == Max(0, tok.pos - 40);
    assert tok.pos + Min(41, |code| - tok.pos) == Min(tok.pos + 1 + 40, |code|);
    assert LeftContext(lines, tok.lineNo) == Ok([]);
    assert Context(lines, code, tok) == Ok((code[Max(0, tok.pos - 40)..tok.pos], code[tok.pos..Min(tok.pos + 1 + 40, |code|)]));
    assert RightContext(lines, tok.lineNo) == Ok([]);
    var line := code[Max(0, tok.pos - 40)..tok.pos] + HERE + code[tok.pos..Min(tok.pos + 1 + 40, |code|)];
    assert [] + [line] + [] == [line];
  }

  /**
   * In a program of several lines the snippet is the previous line (if
   * any), the token's line with the marker at its column, and the next line
   * (if any) — at least two lines.
   */
  lemma ManyLineSnippet(tok: Token, code: string)
    requires |JavaSplit(code)| > 1
    requires 0 <= tok.lineNo < |JavaSplit(code)| && 0 <= tok.linePos <= |JavaSplit(code)[tok.lineNo]|
    ensures Snippet(tok, code).Ok? && |Snippet(tok, code).v| >= 2
    ensures var lines, s := JavaSplit(code), Snippet(tok, code).v;
            var k := if tok.lineNo > 0 then 1 else 0;
            (tok.lineNo > 0 ==> s[0] == lines[tok.lineNo - 1])
            && s[k] == lines[tok.lineNo][..tok.linePos] + HERE + lines[tok.lineNo][tok.linePos..]
            && (tok.lineNo + 1 < |lines| ==> |s| == k + 2 && s[k + 1] == lines[tok.lineNo + 1])
            && (tok.lineNo + 1 == |lines| ==> |s| == k + 1)
  {
  }

  // ---------------------------------------------------------------------
  // The message

  /** `errorMaker`: the snippet, then the message with the token's position and the expression's name. */
  function ErrorMaker(code: string, name: Option<string>, tok: Token, message: string): Res<seq<string>> {
    match Snippet(tok, code)
    case Fail(e) => Fail(e)
    case Ok(snippet) => Ok(WithErrorLine(snippet, name, tok, message))
  }

  /** The snippet lines followed by the message and where the token is. */
  function WithErrorLine(snippet: seq<string>, name: Option<string>, tok: Token, message: string): seq<string> {
    var located := if |snippet| != 1
      then message + (" at line " + IntToString(tok.lineNo + 1) + ", pos " + IntToString(tok.linePos + 1))
      else message + (" at pos " + IntToString(tok.pos + 1));
    var named := if name.Some? then located + (" (" + name.value + ")") else located;
    snippet + [named]
  }

  /** The error line follows the snippet: line and column after several lines, the position after one. */
  lemma ErrorLineShape(snippet: seq<string>, name: Option<string>, tok: Token, message: string)
    ensures var r := WithErrorLine(snippet, name, tok, message);
            var suffix := if name.Some? then " (" + name.value + ")" else "";
            |r| == |snippet| + 1 && r[..|r| - 1] == snippet
            && (|snippet| != 1 ==>
                  r[|r| - 1] == message + (" at line " + IntToString(tok.lineNo + 1) + ", pos " + IntToString(tok.linePos + 1)) + suffix)
            && (|snippet| == 1 ==> r[|r| - 1] == message + (" at pos " + IntToString(tok.pos + 1)) + suffix)
  {
    var r := WithErrorLine(snippet, name, tok, message);
    assert r[..|r| - 1] == snippet;
    var located := r[|r| - 1];
    assert located + "" == located;
  }

  /** The snippet is a single line exactly when the program is. */
  lemma SnippetLines(code: string, tok: Token)
    requires Snippet(tok, code).Ok?
    ensures |Snippet(tok, code).v| == 1 <==> |JavaSplit(code)| <= 1
  {
    var lines := JavaSplit(code);
    var snippet := Snippet(tok, code).v;
    if |lines| > 1 {
      assert 0 <= tok.lineNo < |lines| && 0 <= tok.linePos <= |lines[tok.lineNo]| by {
        assert Context(lines, code, tok).Ok?;
      }
      ManyLineSnippet(tok, code);
      assert |snippet| != 1;
    } else {
      assert LeftContext(lines, tok.lineNo) == Ok([]);
      assert RightContext(lines, tok.lineNo) == Ok([]);
      assert |snippet| == 1;
    }
  }

  /**
   * The error line gives line and column (1-based) exactly when the program
   * has several lines, and the absolute position (1-based) otherwise; the
   * snippet lines come before it.
   */
  lemma ErrorLinePosition(code: string, name: Option<string>, tok: Token, message: string)
    requires ErrorMaker(code, name, tok, message).Ok?
    ensures var r := ErrorMaker(code, name, tok, message).v;
            var suffix := if name.Some? then " (" + name.value + ")" else "";
            r[..|r| - 1] == Snippet(tok, code).v
            && (|JavaSplit(code)| > 1 ==>
                  r[|r| - 1] == message + (" at line " + IntToString(tok.lineNo + 1) + ", pos " + IntToString(tok.linePos + 1)) + suffix)
            && (|JavaSplit(code)| <= 1 ==> r[|r| - 1] == message + (" at pos " + IntToString(tok.pos + 1)) + suffix)
  {
    SnippetLines(code, tok);
    ErrorLineShape(Snippet(tok, code).v, name, tok, message);
  }

  /**
   * `makeMessage`.  `snooped` is what the installed `errorSnooper` returned
   * (None when no snooper is installed or it returned null).
   */
  function MakeMessage(snooped: Option<seq<string>>, code: string, name: Option<string>, tok: Token, message: string): Res<string> {
    if snooped.Some? then Ok(Join(snooped.value))
    else
      match ErrorMaker(code, name, tok, message)
      case Fail(e) => Fail(e)
      case Ok(lines) => Ok(Join(lines))
  }

  /** Joined lines end with the last one, after a newline when there are several. */
  lemma {:induction false} JoinLast(lines: seq<string>)
    requires |lines| >= 1
    ensures |lines| == 1 ==> Join(lines) == lines[0]
    ensures |lines| > 1 ==> Join(lines) == Join(lines[..|lines| - 1]) + "\n" + lines[|lines| - 1]
    decreases |lines|
  {
    if |lines| > 2 {
      JoinLast(lines[1..]);
      assert lines[1..][..|lines| - 2] == lines[..|lines| - 1][1..];
    } else if |lines| == 2 {
      assert lines[..1] == [lines[0]];
    }
  }

  /**
   * A snooper's answer replaces the whole message; without one the message
   * is the snippet lines and then the error line, one per line.
   */
  lemma MessageShape(snooped: Option<seq<string>>, code: string, name: Option<string>, tok: Token, message: string)
    ensures snooped.Some? ==> MakeMessage(snooped, code, name, tok, message) == Ok(Join(snooped.value))
    ensures snooped.None? && ErrorMaker(code, name, tok, message).Ok? ==>
              var r := ErrorMaker(code, name, tok, message).v;
              MakeMessage(snooped, code, name, tok, message) == Ok(Join(Snippet(tok, code).v) + "\n" + r[|r| - 1])
    ensures snooped.None? ==> (MakeMessage(snooped, code, name, tok, message).Fail? <==> Snippet(tok, code).Fail?)
  {
    if snooped.None? && ErrorMaker(code, name, tok, message).Ok? {
      var r := ErrorMaker(code, name, tok, message).v;
      ErrorLinePosition(code, name, tok, message);
      JoinLast(r);
    }
  }

  /**
   * The chat snooper (`ScarpetScriptServer.setChatErrorSnooper`) prints the
   * error itself and returns no lines, so the message is empty.
   */
  lemma ChatSnooperSilences(code: string, name: Option<string>, tok: Token, message: string)
    ensures MakeMessage(Some([]), code, name, tok, message) == Ok("")
  {
  }
}
