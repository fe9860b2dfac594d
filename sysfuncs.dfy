/**
 * The value and table logic of the system built-ins (`SystemFunctions`):
 * `bool`, `number`, the format-specifier scan of `str`, `undef` and `vars`.
 */
module SysFuncs {
  import opened Values
  import opened Ast
  import opened Scope

  // ---------------------------------------------------------------------
  // bool and number

  /**
   * Java `equalsIgnoreCase` against a lower-case ASCII word: a character
   * matches a letter when it is that letter in either case; `ſ` (U+017F)
   * upper-cases to `S` and so also matches `s`.
   */
  predicate MatchesIgnoringCase(s: string, word: string) {
    |s| == |word| &&
    forall i :: 0 <= i < |s| ==>
      s[i] == word[i] ||
      ('a' <= word[i] <= 'z' && s[i] as int == word[i] as int - 32) ||
      (word[i] == 's' && s[i] == 'ſ')
  }

  /** `bool`: the strings "false" and "null" in any case are FALSE, anything else is 1 or 0 by truthiness. */
  function BoolFn(v: Value): (r: Res<Value>)
    ensures v.Str? && (MatchesIgnoringCase(v.s, "false") || MatchesIgnoringCase(v.s, "null")) ==> r == Ok(FALSE)
    ensures r.Ok? && r.v != FALSE ==> r.v.Num? && r.v.bound.None? && Truthy(v).Ok? && r.v.n == (if Truthy(v).v then 1 else 0)
    ensures r.Fail? <==> v.Signature?
  {
    if v.Str? && (MatchesIgnoringCase(v.s, "false") || MatchesIgnoringCase(v.s, "null")) then Ok(FALSE)
    else
      match Truthy(v)
      case Fail(e) => Fail(e)
      case Ok(b) => Ok(Num(if b then 1 else 0, None))
  }

  /** "FALSE", "Null" and "nuLL" are all FALSE, while "no" and "0" are truthy strings. */
  lemma BoolOfWords()
    ensures BoolFn(Str("FALSE", None)) == Ok(FALSE)
    ensures BoolFn(Str("Null", Some("x"))) == Ok(FALSE)
    ensures BoolFn(Str("no", None)) == Ok(Num(1, None))
    ensures BoolFn(Str("", None)) == Ok(Num(0, None))
  {
    assert MatchesIgnoringCase("FALSE", "false");
    assert MatchesIgnoringCase("Null", "null");
    assert !MatchesIgnoringCase("no", "null") by { assert "no"[1] != "null"[1]; }
  }

  /** `w` occurs in `s` from some position on. */
  predicate Occurs(w: string, s: string)
    decreases |s|
  {
    |w| <= |s| && (s[..|w|] == w || Occurs(w, s[1..]))
  }

  /**
   * Text no number parser reads: it holds no digit and does not spell out
   * an infinity.  Every decimal or hexadecimal numeral has a digit, and
   * `NaN` reads as NaN anyway.
   */
  predicate NoNumeral(s: string) {
    (forall i :: 0 <= i < |s| ==> !IsDigit(s[i])) && !Occurs("Infinity", s)
  }

  /**
   * `Value.readNumber` for a string, which reads its text as a `double`:
   * decimal integer text gives its value, text without a numeral gives NaN
   * (`None`), and any other text (a sign `+`, a fraction, an exponent,
   * surrounding blanks) would be read as a `double`, which is outside the
   * model.
   */
  function ReadNumber(v: Value): (r: Res<Option<int>>)
    requires !v.IsNumeric()
    ensures v.Str? && ParseInt(v.s).Some? ==> r == Ok(ParseInt(v.s))
    ensures v.Str? && NoNumeral(v.s) ==> r == Ok(None)
    ensures r.Ok? ==> v.Str? && (ParseInt(v.s).Some? || NoNumeral(v.s))
  {
    if !v.Str? then Fail(Unmodelled("Value.readNumber of a " + (if v.List? then "list" else "non-string")))
    else if ParseInt(v.s).Some? then Ok(ParseInt(v.s))
    else if NoNumeral(v.s) then Ok(None)
    else Fail(Unmodelled("Value.readNumber of non-integer text"))
  }

  /** `number`: a numeric argument unchanged, a parsed number, or NULL for NaN. */
  function NumberFn(v: Value): (r: Res<Value>)
    ensures v.IsNumeric() ==> r == Ok(v)
    ensures v.Str? && ParseInt(v.s).Some? ==> r == Ok(Num(ParseInt(v.s).value, None))
    ensures v.Str? && NoNumeral(v.s) ==> r == Ok(NULL)
    ensures v.Str? && ParseInt(v.s).None? && !NoNumeral(v.s) ==> r.Fail? && r.err.Unmodelled?
  {
    if v.IsNumeric() then Ok(v)
    else
      match ReadNumber(v)
      case Fail(e) => Fail(e)
      case Ok(None) => Ok(NULL)
      case Ok(Some(n)) => Ok(Num(n, None))
  }

  /** Words are NULL; a sign `+` or a fraction is left to the `double` parse. */
  lemma NumberOfWords()
    ensures NumberFn(Str("abc", None)) == Ok(NULL)
    ensures NumberFn(Str("", None)) == Ok(NULL)
    ensures NumberFn(Str("-12", None)) == Ok(Num(-12, None))
    ensures NumberFn(Str("+5", None)).Fail?
    ensures NumberFn(Str("1.5", None)).Fail?
  {
    assert !Occurs("Infinity", "abc");
    assert ParseInt("-12") == Some(-12) by {
      assert !IsDigit("-12"[0]);
      var d := "-12"[1..];
      assert d == "12" && AllDigits(d);
      assert d[..1] == "1" && "1"[..0] == "";
      assert ParseDigits("1") == 1;
      assert ParseDigits(d) == 12;
    }
    assert !IsDigit("+5"[0]) && IsDigit("+5"[1]);
    assert !AllDigits("+5");
    assert !NoNumeral("+5");
    assert !AllDigits("1.5") && !NoNumeral("1.5") by { assert !IsDigit("1.5"[1]); assert IsDigit("1.5"[0]); }
  }

  /** `number` of a rendered integer gives the integer back. */
  lemma NumberOfRendered(n: int)
    ensures NumberFn(Str(IntToString(n), None)) == Ok(Num(n, None))
  {
    IntRoundTrip(n);
  }

  // ---------------------------------------------------------------------
  // str: the format-specifier scan

  predicate IsAsciiDigit(c: char) {
    '0' <= c <= '9'
  }

  predicate IsFlag(c: char) {
    c in {'-', '#', '+', ' ', '0', ',', '(', '<'}
  }

  predicate IsAsciiLetter(c: char) {
    ('a' <= c <= 'z') || ('A' <= c <= 'Z')
  }

  /** The end of the longest run from `i` of characters satisfying `p`. */
  function SkipWhile(s: string, i: nat, p: char -> bool): (j: nat)
    requires i <= |s|
    ensures i <= j <= |s|
    ensures forall k :: i <= k < j ==> p(s[k])
    ensures j == |s| || !p(s[j])
    decreases |s| - i
  {
    if i < |s| && p(s[i]) then SkipWhile(s, i + 1, p) else i
  }

  /** A match of `%(\d+\$)?([-#+ 0,(\<]*)?(\d+)?(\.\d+)?([tT])?([a-zA-Z%])`. */
  datatype Spec = Spec(start: nat, end: nat, conversion: char)

  /**
   * The pattern matched at `p`, which holds `%`.  The optional groups are
   * taken greedily; a `t` or `T` is given back to the conversion when no
   * letter follows it, the only way backtracking can rescue a match.
   */
  function MatchAt(s: string, p: nat): (r: Option<Spec>)
    requires p < |s| && s[p] == '%'
    ensures r.Some? ==> r.value.start == p && p + 2 <= r.value.end <= |s| && s[r.value.end - 1] == r.value.conversion
    ensures r.Some? ==> IsAsciiLetter(r.value.conversion) || r.value.conversion == '%'
  {
    var d := SkipWhile(s, p + 1, IsAsciiDigit);
    var afterIndex := if d > p + 1 && d < |s| && s[d] == '$' then d + 1 else p + 1;
    var afterFlags := SkipWhile(s, afterIndex, IsFlag);
    var afterWidth := SkipWhile(s, afterFlags, IsAsciiDigit);
    var precisionDigits := if afterWidth < |s| && s[afterWidth] == '.' then SkipWhile(s, afterWidth + 1, IsAsciiDigit) else afterWidth;
    var afterPrecision := if precisionDigits > afterWidth + 1 then precisionDigits else afterWidth;
    if afterPrecision < |s| && (s[afterPrecision] == 't' || s[afterPrecision] == 'T')
       && afterPrecision + 1 < |s| && (IsAsciiLetter(s[afterPrecision + 1]) || s[afterPrecision + 1] == '%')
    then Some(Spec(p, afterPrecision + 2, s[afterPrecision + 1]))
    else if afterPrecision < |s| && (IsAsciiLetter(s[afterPrecision]) || s[afterPrecision] == '%')
    then Some(Spec(p, afterPrecision + 1, s[afterPrecision]))
    else None
  }

  /** `Matcher.find(i)`: the leftmost match starting at or after `i`. */
  function Find(s: string, i: nat): (r: Option<Spec>)
    requires i <= |s|
    ensures r.Some? ==> i <= r.value.start && r.value.end <= |s| && r.value.start + 2 <= r.value.end
    decreases |s| - i
  {
    if i == |s| then None
    else if s[i] == '%' && MatchAt(s, i).Some? then MatchAt(s, i)
    else Find(s, i + 1)
  }

  /** `Character.toLowerCase` on an ASCII letter. */
  function LowerChar(c: char): char {
    if 'A' <= c <= 'Z' then (c as int + 32) as char else c
  }

  /** A conversion that consumes an argument: `s`, `d`, `o`, `x`, `a`, `e`, `f`, `g` or `b`, in either case. */
  predicate Consumes(conversion: char) {
    LowerChar(conversion) in {'s', 'd', 'o', 'x', 'a', 'e', 'f', 'g', 'b'}
  }

  /** The arguments a format consumes, counted from `i`; an unsupported conversion is an error. */
  function SpecifierCount(format: string, i: nat): (r: Res<nat>)
    requires i <= |format|
    decreases |format| - i
  {
    if i >= |format| then Ok(0)
    else
      match Find(format, i)
      case None => Ok(0)
      case Some(m) =>
        if !Consumes(m.conversion) && m.conversion != '%' then
          Fail(InternalErr("format not supported: " + [m.conversion]))
        else
          match SpecifierCount(format, m.end)
          case Fail(e) => Fail(e)
          case Ok(n) => Ok(n + if Consumes(m.conversion) then 1 else 0)
  }

  /** The checks `str` makes before formatting; the arguments start at `argIndex` of `lv`. */
  function StrCheck(format: string, lv: seq<Value>, i: nat, argIndex: nat): (r: Res<()>)
    requires i <= |format|
    decreases |format| - i
  {
    if i >= |format| then Ok(())
    else
      match Find(format, i)
      case None => Ok(())
      case Some(m) =>
        if Consumes(m.conversion) then
          if argIndex >= |lv| then Fail(InternalErr("Not enough arguments for " + format[m.start..m.end]))
          else if LowerChar(m.conversion) == 's' && GetString(lv[argIndex]).Fail? then Fail(GetString(lv[argIndex]).err)
          else if LowerChar(m.conversion) == 'b' && Truthy(lv[argIndex]).Fail? then Fail(Truthy(lv[argIndex]).err)
          else StrCheck(format, lv, m.end, argIndex + 1)
        else if m.conversion == '%' then StrCheck(format, lv, m.end, argIndex)
        else Fail(InternalErr("format not supported: " + [m.conversion]))
  }

  /**
   * The checks pass exactly when every conversion is supported and there
   * are enough arguments for the consuming ones (given arguments whose
   * coercions do not throw).
   */
  lemma {:induction false} StrCheckCounts(format: string, lv: seq<Value>, i: nat, argIndex: nat)
    requires i <= |format| && argIndex <= |lv|
    requires forall k :: 0 <= k < |lv| ==> GetString(lv[k]).Ok? && Truthy(lv[k]).Ok?
    ensures StrCheck(format, lv, i, argIndex).Ok? <==>
            SpecifierCount(format, i).Ok? && argIndex + SpecifierCount(format, i).v <= |lv|
    decreases |format| - i
  {
    if i < |format| {
      match Find(format, i)
      case None =>
      case Some(m) =>
        if Consumes(m.conversion) {
          if argIndex < |lv| {
            StrCheckCounts(format, lv, m.end, argIndex + 1);
          }
        } else if m.conversion == '%' {
          StrCheckCounts(format, lv, m.end, argIndex);
        }
    }
  }

  /** `"%d%%"` consumes exactly one argument and `"%q"` is refused. */
  lemma SpecifierExamples()
    ensures SpecifierCount("%d%%", 0) == Ok(1)
    ensures SpecifierCount("%q", 0) == Fail(InternalErr("format not supported: q"))
  {
    assert MatchAt("%d%%", 0) == Some(Spec(0, 2, 'd'));
    assert Find("%d%%", 0) == Some(Spec(0, 2, 'd'));
    assert MatchAt("%d%%", 2) == Some(Spec(2, 4, '%'));
    assert Find("%d%%", 2) == Some(Spec(2, 4, '%'));
    assert MatchAt("%q", 0) == Some(Spec(0, 2, 'q'));
    assert Find("%q", 0) == Some(Spec(0, 2, 'q'));
    assert "format not supported: " + ['q'] == "format not supported: q";
  }

  /** A backslash is no flag: `%\s` is not a specifier, and the `%d` after it is the only one. */
  lemma BackslashIsNoFlag()
    ensures MatchAt("%\\s %d", 0) == None
    ensures SpecifierCount("%\\s %d", 0) == Ok(1)
  {
    assert SkipWhile("%\\s %d", 1, IsFlag) == 1;
    assert MatchAt("%\\s %d", 4) == Some(Spec(4, 6, 'd'));
    assert Find("%\\s %d", 0) == Some(Spec(4, 6, 'd'));
  }

  /**
   * The checking loop of `str`: the Java loop over `m.find(i)` with the
   * argument cursor.  The final `String.format` is not part of this model.
   */
  method CheckFormat(format: string, lv: seq<Value>, argIndex0: nat) returns (r: Res<()>)
    ensures r == StrCheck(format, lv, 0, argIndex0)
  {
    var i := 0;
    var argIndex: nat := argIndex0;
    while i < |format|
      invariant 0 <= i <= |format|
      invariant StrCheck(format, lv, i, argIndex) == StrCheck(format, lv, 0, argIndex0)
      decreases |format| - i
    {
      var m := Find(format, i);
      if m.None? {
        break;
      }
      var spec := m.value;
      var fmt := LowerChar(spec.conversion);
      if fmt == 's' {
        if argIndex >= |lv| {
          return Fail(InternalErr("Not enough arguments for " + format[spec.start..spec.end]));
        }
        var text := GetString(lv[argIndex]);
        if text.Fail? {
          return Fail(text.err);
        }
        argIndex := argIndex + 1;
      } else if fmt == 'd' || fmt == 'o' || fmt == 'x' || fmt == 'a' || fmt == 'e' || fmt == 'f' || fmt == 'g' {
        if argIndex >= |lv| {
          return Fail(InternalErr("Not enough arguments for " + format[spec.start..spec.end]));
        }
        argIndex := argIndex + 1;
      } else if fmt == 'b' {
        if argIndex >= |lv| {
          return Fail(InternalErr("Not enough arguments for " + format[spec.start..spec.end]));
        }
        var b := Truthy(lv[argIndex]);
        if b.Fail? {
          return Fail(b.err);
        }
        argIndex := argIndex + 1;
      } else if fmt != '%' {
        return Fail(InternalErr("format not supported: " + [spec.conversion]));
      }
      i := spec.end;
    }
    return Ok(());
  }

  /**
   * `str`: no arguments is an error; the format alone is returned unchanged;
   * a list second argument supplies the arguments from its first item.
   */
  function StrFn(lv: seq<Value>): (r: Res<Value>)
    ensures |lv| == 0 ==> r.Fail? && r.err == InternalErr("str requires at least one argument")
    ensures |lv| == 1 && GetString(lv[0]).Ok? ==> r == Ok(Str(GetString(lv[0]).v, None))
  {
    if |lv| == 0 then Fail(InternalErr("str requires at least one argument"))
    else
      match GetString(lv[0])
      case Fail(e) => Fail(e)
      case Ok(format) =>
        if |lv| == 1 then Ok(Str(format, None))
        else
          var (args, argIndex) := if lv[1].List? then (lv[1].items, 0) else (lv, 1);
          match StrCheck(format, args, 0, argIndex)
          case Fail(e) => Fail(e)
          case Ok(_) => Fail(Unmodelled("String.format"))
  }

  // ---------------------------------------------------------------------
  // undef and vars

  const LOCAL_BUILTIN_ERROR := "Cannot replace local built-in variables, i.e. those that start with '_'"

  /** `replaceAll("\\*+$", "")`: the name without its trailing stars. */
  function StripStars(s: string): (r: string)
    ensures |r| <= |s| && r == s[..|r|]
    ensures |r| == 0 || r[|r| - 1] != '*'
    ensures forall k :: |r| <= k < |s| ==> s[k] == '*'
  {
    if |s| > 0 && s[|s| - 1] == '*' then StripStars(s[..|s| - 1]) else s
  }

  predicate EndsWithStar(s: string) {
    |s| > 0 && s[|s| - 1] == '*'
  }

  /**
   * The `for (key : map.keySet()) if (...) map.remove(key)` loop of `undef`
   * as written, over the keys in the map's iteration order: removing a key
   * while the iteration goes on makes the next step throw
   * ConcurrentModificationException.  The result is the set of keys removed.
   */
  function RemoveWhileIterating(order: seq<string>, prefix: string): (r: Res<set<string>>)
  {
    if |order| == 0 then Ok({})
    else if StartsWith(order[0], prefix) then
      if |order| > 1 then Fail(Crash("ConcurrentModificationException")) else Ok({order[0]})
    else RemoveWhileIterating(order[1..], prefix)
  }

  /**
   * As written, a prefix that matches a key that is not the last one visited
   * throws; in particular any two matching keys do, whatever the order.
   */
  lemma {:induction false} TwoMatchesThrow(order: seq<string>, prefix: string, i: nat, j: nat)
    requires i < j < |order| && StartsWith(order[i], prefix) && StartsWith(order[j], prefix)
    ensures RemoveWhileIterating(order, prefix) == Fail(Crash("ConcurrentModificationException"))
    decreases |order|
  {
    if !StartsWith(order[0], prefix) {
      TwoMatchesThrow(order[1..], prefix, i - 1, j - 1);
    }
  }

  /** The intended effect: every key with the prefix is gone and every other key stays. */
  function WithoutPrefix<V>(m: map<string, V>, prefix: string): (r: map<string, V>)
    ensures forall k :: k in r <==> k in m && !StartsWith(k, prefix)
    ensures forall k :: k in r ==> r[k] == m[k]
  {
    map k | k in m && !StartsWith(k, prefix) :: m[k]
  }

  /**
   * `undef(name)`: names starting with `_` are refused; `name*` drops every
   * user function and host global starting with the name, then the name
   * itself; a plain name drops that user function and that variable.
   */
  function Undef(f: Frame, name: string): (r: Res<Frame>)
    ensures StartsWith(name, "_") <==> r.Fail?
    ensures r.Ok? && !EndsWithStar(name) ==> r.v.host.functions == f.host.functions - {name}
    ensures r.Ok? && !EndsWithStar(name) && IsGlobalName(name) ==>
            r.v.host.globals == f.host.globals - {name} && r.v.locals == f.locals
    ensures r.Ok? && !EndsWithStar(name) && !IsGlobalName(name) ==>
            r.v.host.globals == f.host.globals && r.v.locals == f.locals - {name}
    ensures r.Ok? && EndsWithStar(name) ==>
            (forall k :: k in r.v.host.functions <==> k in f.host.functions && !StartsWith(k, StripStars(name))) &&
            (forall k :: k in r.v.host.globals <==> k in f.host.globals && !StartsWith(k, StripStars(name))) &&
            r.v.locals == if IsGlobalName(StripStars(name)) then f.locals else f.locals - {StripStars(name)}
  {
    if StartsWith(name, "_") then Fail(InternalErr(LOCAL_BUILTIN_ERROR))
    else if EndsWithStar(name) then
      var prefix := StripStars(name);
      var host := Tables(WithoutPrefix(f.host.globals, prefix), WithoutPrefix(f.host.functions, prefix));
      Ok(DelVariable(Frame(f.locals, host), prefix))
    else
      Ok(DelVariable(Frame(f.locals, f.host.(functions := f.host.functions - {name})), name))
  }

  // ---------------------------------------------------------------------
  // vars: names listed in a fixed order

  predicate StrLe(a: string, b: string) {
    StrCompare(a, b) <= 0
  }

  lemma {:induction false} StrLeTransitive(a: string, b: string, c: string)
    requires StrLe(a, b) && StrLe(b, c)
    ensures StrLe(a, c)
    decreases |a|
  {
    if |a| > 0 && |b| > 0 && |c| > 0 && a[0] == b[0] && b[0] == c[0] {
      StrLeTransitive(a[1..], b[1..], c[1..]);
    }
  }

  lemma StrLeTotal(a: string, b: string)
    ensures StrLe(a, b) || StrLe(b, a)
    ensures StrLe(a, b) && StrLe(b, a) ==> a == b
  {
    StrCompareAntisymmetric(a, b);
  }

  lemma StrLeAntisymmetric()
    ensures forall a, b :: StrLe(a, b) && StrLe(b, a) ==> a == b
  {
    forall a, b | StrLe(a, b) && StrLe(b, a) ensures a == b {
      StrLeTotal(a, b);
    }
  }

  lemma {:induction false} LeastExists(s: set<string>)
    requires s != {}
    ensures exists m :: m in s && forall y :: y in s ==> StrLe(m, y)
    decreases |s|
  {
    var x :| x in s;
    if s == {x} {
      assert StrLe(x, x);
    } else {
      LeastExists(s - {x});
      var m :| m in s - {x} && forall y :: y in s - {x} ==> StrLe(m, y);
      StrLeTotal(x, m);
      if StrLe(x, m) {
        forall y | y in s ensures StrLe(x, y) {
          if y != x {
            StrLeTransitive(x, m, y);
          }
        }
      } else {
        assert forall y :: y in s ==> StrLe(m, y);
      }
    }
  }

  /** The least name of a set in `String.compareTo` order. */
  function Least(s: set<string>): (m: string)
    requires s != {}
    ensures m in s && forall y :: y in s ==> StrLe(m, y)
  {
    LeastExists(s);
    StrLeAntisymmetric();
    var m :| m in s && forall y :: y in s ==> StrLe(m, y);
    m
  }

  /** The names of a set in increasing order, each once. */
  function SortedNames(s: set<string>): (r: seq<string>)
    ensures |r| == |s|
    ensures forall x :: x in r <==> x in s
    ensures forall i, j :: 0 <= i < j < |r| ==> StrLe(r[i], r[j]) && r[i] != r[j]
    decreases |s|
  {
    if s == {} then []
    else
      var m := Least(s);
      var rest := SortedNames(s - {m});
      var r := [m] + rest;
      assert forall i :: 0 < i < |r| ==> r[i] == rest[i - 1] && r[i] in s - {m};
      r
  }

  /** The names `vars(prefix)` lists: host globals for a prefix starting "global", else locals. */
  function VarsNames(f: Frame, prefix: string): (names: set<string>)
    ensures StartsWith(prefix, "global") ==> forall k :: k in names <==> k in f.host.globals && StartsWith(k, prefix)
    ensures !StartsWith(prefix, "global") ==> forall k :: k in names <==> k in AllVariableNames(f) && StartsWith(k, prefix)
  {
    if StartsWith(prefix, "global") then set k | k in f.host.globals && StartsWith(k, prefix)
    else set k | k in AllVariableNames(f) && StartsWith(k, prefix)
  }

  /** `vars(prefix)`: a list of the matching names as strings. */
  function Vars(f: Frame, prefix: string): (r: Value)
    ensures r.List? && !r.ctor && r.bound.None?
    ensures forall v :: v in r.items ==> v.Str? && v.bound.None? && v.s in VarsNames(f, prefix)
    ensures forall k :: k in VarsNames(f, prefix) ==> Str(k, None) in r.items
    ensures |r.items| == |VarsNames(f, prefix)|
  {
    var names := SortedNames(VarsNames(f, prefix));
    var items := seq(|names|, i requires 0 <= i < |names| => Str(names[i], None));
    assert forall k :: k in VarsNames(f, prefix) ==> Str(k, None) in items by {
      forall k | k in VarsNames(f, prefix) ensures Str(k, None) in items {
        var i :| 0 <= i < |names| && names[i] == k;
        assert items[i] == Str(k, None);
      }
    }
    List(items, false, None)
  }
}
