/**
 * What the loop built-ins compute, in terms of what their iterations see.
 * A `Trace` records, iteration by iteration, the frame an evaluation starts
 * from and the value it gives; each built-in's result is then a plain
 * function of those values: `map` the values themselves, `filter` the
 * elements whose value is truthy, `for` how many are, `first` the element of
 * the first truthy one, `all` whether every one is, and `while`, `loop` and
 * `reduce` the last value computed.
 */
module LoopFacts {
  import opened Values
  import opened Ast
  import opened Scope
  import opened Interp
  import Arith

  /**
   * The iterations of a loop: the frame each evaluation starts from, the
   * value of each evaluation that completed, and how the iterations ended
   * (with a value when the loop completed normally).
   */
  datatype Trace = Trace(seen: seq<Frame>, vals: seq<Value>, end: Run)

  /** The last value computed, or `initial` when none was. */
  function LastOr(initial: Value, vs: seq<Value>): (r: Value)
    ensures |vs| == 0 ==> r == initial
    ensures |vs| > 0 ==> r == vs[|vs| - 1]
  {
    if |vs| == 0 then initial else vs[|vs| - 1]
  }

  lemma LastOrCons(initial: Value, v: Value, vs: seq<Value>)
    ensures LastOr(initial, [v] + vs) == LastOr(v, vs)
  {
  }

  /** Each value `vals[j]` is what `expr` gives when evaluated from frame `seen[j]`. */
  predicate Computes(expr: Expr, seen: seq<Frame>, vals: seq<Value>, k: nat) {
    |vals| <= |seen| && forall j :: 0 <= j < |vals| ==> Eval(expr, NONE, seen[j], k).flow == Val(vals[j])
  }

  lemma ComputesCons(expr: Expr, g: Frame, v: Value, seen: seq<Frame>, vals: seq<Value>, k: nat)
    requires Eval(expr, NONE, g, k).flow == Val(v)
    requires Computes(expr, seen, vals, k)
    ensures Computes(expr, [g] + seen, [v] + vals, k)
  {
    var s, w := [g] + seen, [v] + vals;
    forall j | 0 < j < |w| ensures Eval(expr, NONE, s[j], k).flow == Val(w[j]) {
      assert s[j] == seen[j - 1] && w[j] == vals[j - 1];
    }
  }

  // ---------------------------------------------------------------------
  // map, filter, first, all, for

  /** Frame `g` binds `_` to `item` (renamed `_`) and `_i` to the index `i`. */
  predicate BindsElement(g: Frame, item: Value, i: int) {
    GetVariable(g, "_") == Fixed(WithBound(item, Some("_")))
    && GetVariable(g, "_i") == Fixed(Num(i, Some("_i")))
  }

  /** Frame `seen[j]` binds element `i + j` and its index, for every `j`. */
  predicate BindsEach(seen: seq<Frame>, items: seq<Value>, i: nat) {
    i + |seen| <= |items| && forall j :: 0 <= j < |seen| ==> BindsElement(seen[j], items[i + j], i + j)
  }

  lemma BindsEachCons(g: Frame, rest: seq<Frame>, items: seq<Value>, i: nat)
    requires i < |items| && BindsElement(g, items[i], i)
    requires BindsEach(rest, items, i + 1)
    ensures BindsEach([g] + rest, items, i)
  {
    var s := [g] + rest;
    forall j | 0 < j < |s| ensures BindsElement(s[j], items[i + j], i + j) {
      assert s[j] == rest[j - 1] && i + j == i + 1 + (j - 1);
    }
  }

  lemma BindElementBinds(f: Frame, item: Value, i: int)
    ensures BindsElement(BindElement(f, item, i), item, i)
  {
    assert !IsGlobalName("_") && !IsGlobalName("_i");
  }

  /**
   * The iterations of an element built-in from element `i`: the expression
   * runs with `_` and `_i` bound to the element and its index, then the exit
   * condition; they end with the list, when the condition holds, or at an
   * evaluation that does not complete.
   */
  function Visit(items: seq<Value>, expr: Expr, cond: Option<Expr>, i: nat, f: Frame, k: nat): (t: Trace)
    requires i <= |items|
    ensures |t.vals| <= |t.seen| <= |items| - i && |t.seen| <= |t.vals| + 1
    ensures t.end.flow.Val? ==> |t.vals| == |t.seen|
    ensures cond.None? && t.end.flow.Val? ==> |t.vals| == |items| - i
    decreases |items| - i
  {
    if i == |items| then Trace([], [], Run(Val(NULL), f))
    else
      var g := BindElement(f, items[i], i);
      var b := Eval(expr, NONE, g, k);
      if !b.flow.Val? then Trace([g], [], b)
      else
        var ec := ExitCondition(cond, b.frame, k);
        if !ec.0.flow.Val? || ec.1 then Trace([g], [b.flow.v], ec.0)
        else
          var rest := Visit(items, expr, cond, i + 1, ec.0.frame, k);
          Trace([g] + rest.seen, [b.flow.v] + rest.vals, rest.end)
  }

  /** Iteration `j` runs with `_` bound to element `i + j` (renamed `_`) and `_i` to `i + j`. */
  lemma {:induction false} VisitBinds(items: seq<Value>, expr: Expr, cond: Option<Expr>, i: nat, f: Frame, k: nat)
    requires i <= |items|
    ensures BindsEach(Visit(items, expr, cond, i, f, k).seen, items, i)
    decreases |items| - i
  {
    if i < |items| {
      var g := BindElement(f, items[i], i);
      BindElementBinds(f, items[i], i);
      var b := Eval(expr, NONE, g, k);
      if b.flow.Val? {
        var ec := ExitCondition(cond, b.frame, k);
        if ec.0.flow.Val? && !ec.1 {
          VisitBinds(items, expr, cond, i + 1, ec.0.frame, k);
          BindsEachCons(g, Visit(items, expr, cond, i + 1, ec.0.frame, k).seen, items, i);
        } else {
          BindsEachCons(g, [], items, i);
        }
      } else {
        BindsEachCons(g, [], items, i);
      }
    }
  }

  /** The value recorded for each iteration is what the expression gives from that iteration's frame. */
  lemma {:induction false} VisitComputes(items: seq<Value>, expr: Expr, cond: Option<Expr>, i: nat, f: Frame, k: nat)
    requires i <= |items|
    ensures var t := Visit(items, expr, cond, i, f, k); Computes(expr, t.seen, t.vals, k)
    decreases |items| - i
  {
    if i < |items| {
      var g := BindElement(f, items[i], i);
      var b := Eval(expr, NONE, g, k);
      if b.flow.Val? {
        var ec := ExitCondition(cond, b.frame, k);
        if ec.0.flow.Val? && !ec.1 {
          var rest := Visit(items, expr, cond, i + 1, ec.0.frame, k);
          VisitComputes(items, expr, cond, i + 1, ec.0.frame, k);
          ComputesCons(expr, g, b.flow.v, rest.seen, rest.vals, k);
        } else {
          ComputesCons(expr, g, b.flow.v, [], [], k);
        }
      }
    }
  }

  /** One iteration of an element built-in, as recorded. */
  lemma VisitStep(items: seq<Value>, expr: Expr, cond: Option<Expr>, i: nat, f: Frame, k: nat)
    requires i < |items|
    ensures var t := Visit(items, expr, cond, i, f, k);
            var b := Eval(expr, NONE, BindElement(f, items[i], i), k);
            var ec := ExitCondition(cond, b.frame, k);
            if !b.flow.Val? then t.vals == [] && t.end == b
            else if ec.0.flow.Val? && !ec.1 then
              var rest := Visit(items, expr, cond, i + 1, ec.0.frame, k);
              t.vals == [b.flow.v] + rest.vals && t.end == rest.end
            else t.vals == [b.flow.v] && t.end == ec.0
  {
  }

  /** One iteration of `map`. */
  lemma MapStep(items: seq<Value>, expr: Expr, cond: Option<Expr>, i: nat, acc: seq<Value>, f: Frame, k: nat)
    requires i < |items|
    ensures var r := MapFrom(items, expr, cond, i, acc, f, k);
            var b := Eval(expr, NONE, BindElement(f, items[i], i), k);
            var ec := ExitCondition(cond, b.frame, k);
            if !b.flow.Val? then r == b
            else if !ec.0.flow.Val? then r == ec.0
            else if ec.1 then r == Run(Val(List(acc + [b.flow.v], false, None)), ec.0.frame)
            else r == MapFrom(items, expr, cond, i + 1, acc + [b.flow.v], ec.0.frame, k)
  {
  }

  /** The result `map` gives from element `i` on, in terms of the recorded values. */
  predicate MapGives(items: seq<Value>, expr: Expr, cond: Option<Expr>, i: nat, acc: seq<Value>, f: Frame, k: nat)
    requires i <= |items|
  {
    var t := Visit(items, expr, cond, i, f, k);
    MapFrom(items, expr, cond, i, acc, f, k)
    == if t.end.flow.Val? then Run(Val(List(acc + t.vals, false, None)), t.end.frame) else t.end
  }

  /** One iteration carries `MapGives` back from the next element. */
  lemma MapGivesStep(items: seq<Value>, expr: Expr, cond: Option<Expr>, i: nat, acc: seq<Value>, f: Frame, k: nat)
    requires i < |items|
    requires var b := Eval(expr, NONE, BindElement(f, items[i], i), k);
             var ec := ExitCondition(cond, b.frame, k);
             b.flow.Val? && ec.0.flow.Val? && !ec.1 ==> MapGives(items, expr, cond, i + 1, acc + [b.flow.v], ec.0.frame, k)
    ensures MapGives(items, expr, cond, i, acc, f, k)
  {
    MapStep(items, expr, cond, i, acc, f, k);
    VisitStep(items, expr, cond, i, f, k);
    var b := Eval(expr, NONE, BindElement(f, items[i], i), k);
    var ec := ExitCondition(cond, b.frame, k);
    if b.flow.Val? && ec.0.flow.Val? && !ec.1 {
      var rest := Visit(items, expr, cond, i + 1, ec.0.frame, k);
      assert acc + [b.flow.v] + rest.vals == acc + ([b.flow.v] + rest.vals);
    }
  }

  /**
   * `map` gives, after the results it has, exactly the values its
   * iterations computed, in order; an evaluation that does not complete
   * ends it with that outcome.
   */
  lemma {:induction false} MapGivesValues(items: seq<Value>, expr: Expr, cond: Option<Expr>, i: nat, acc: seq<Value>, f: Frame, k: nat)
    requires i <= |items|
    ensures var t := Visit(items, expr, cond, i, f, k);
            MapFrom(items, expr, cond, i, acc, f, k)
            == if t.end.flow.Val? then Run(Val(List(acc + t.vals, false, None)), t.end.frame) else t.end
    decreases |items| - i
  {
    if i == |items| {
      assert acc + [] == acc;
    } else {
      var b := Eval(expr, NONE, BindElement(f, items[i], i), k);
      var ec := ExitCondition(cond, b.frame, k);
      if b.flow.Val? && ec.0.flow.Val? && !ec.1 {
        MapGivesValues(items, expr, cond, i + 1, acc + [b.flow.v], ec.0.frame, k);
      }
      MapGivesStep(items, expr, cond, i, acc, f, k);
    }
  }

  /** Every value has a truth value (none is a function signature). */
  predicate Decided(vs: seq<Value>) {
    forall j :: 0 <= j < |vs| ==> Truthy(vs[j]).Ok?
  }

  lemma DecidedCons(v: Value, vs: seq<Value>)
    ensures Decided([v] + vs) <==> Truthy(v).Ok? && Decided(vs)
  {
    var ws := [v] + vs;
    assert ws[0] == v;
    forall j | 0 <= j < |vs| ensures ws[j + 1] == vs[j] { }
  }

  /** How many of the values are truthy. */
  function Hits(vs: seq<Value>): (n: nat)
    ensures n <= |vs|
    decreases |vs|
  {
    if |vs| == 0 then 0 else (if Truthy(vs[0]) == Ok(true) then 1 else 0) + Hits(vs[1..])
  }

  /** The elements from `items[i]` on whose matching value in `vs` is truthy, in order: one per truthy value. */
  function Kept(items: seq<Value>, i: nat, vs: seq<Value>): (r: seq<Value>)
    requires i + |vs| <= |items|
    ensures |r| == Hits(vs)
    decreases |vs|
  {
    if |vs| == 0 then []
    else (if Truthy(vs[0]) == Ok(true) then [items[i]] else []) + Kept(items, i + 1, vs[1..])
  }

  /** Everything `Kept` keeps is an element of the list. */
  lemma {:induction false} KeptFromItems(items: seq<Value>, i: nat, vs: seq<Value>)
    requires i + |vs| <= |items|
    ensures forall x :: x in Kept(items, i, vs) ==> x in items
    decreases |vs|
  {
    if |vs| > 0 {
      KeptFromItems(items, i + 1, vs[1..]);
    }
  }

  lemma KeptCons(items: seq<Value>, i: nat, v: Value, vs: seq<Value>)
    requires i + 1 + |vs| <= |items|
    ensures Kept(items, i, [v] + vs) == (if Truthy(v) == Ok(true) then [items[i]] else []) + Kept(items, i + 1, vs)
    ensures Hits([v] + vs) == (if Truthy(v) == Ok(true) then 1 else 0) + Hits(vs)
  {
    assert ([v] + vs)[1..] == vs && ([v] + vs)[0] == v;
  }

  /** One iteration of `filter`. */
  lemma FilterStep(items: seq<Value>, expr: Expr, cond: Option<Expr>, i: nat, acc: seq<Value>, f: Frame, k: nat)
    requires i < |items|
    ensures var r := FilterFrom(items, expr, cond, i, acc, f, k);
            var b := Eval(expr, NONE, BindElement(f, items[i], i), k);
            var ec := ExitCondition(cond, b.frame, k);
            if b.flow.Val? && Truthy(b.flow.v).Ok? && ec.0.flow.Val? then
              var acc' := if Truthy(b.flow.v).v then acc + [items[i]] else acc;
              r == if ec.1 then Run(Val(List(acc', false, None)), ec.0.frame)
                   else FilterFrom(items, expr, cond, i + 1, acc', ec.0.frame, k)
            else !r.flow.Val?
  {
  }

  /** `filter` completes exactly when its iterations do and every value has a truth value. */
  lemma {:induction false} FilterCompletes(items: seq<Value>, expr: Expr, cond: Option<Expr>, i: nat, acc: seq<Value>, f: Frame, k: nat)
    requires i <= |items|
    ensures var t := Visit(items, expr, cond, i, f, k);
            FilterFrom(items, expr, cond, i, acc, f, k).flow.Val? <==> t.end.flow.Val? && Decided(t.vals)
    decreases |items| - i
  {
    if i < |items| {
      FilterStep(items, expr, cond, i, acc, f, k);
      VisitStep(items, expr, cond, i, f, k);
      var b := Eval(expr, NONE, BindElement(f, items[i], i), k);
      if b.flow.Val? {
        var ec := ExitCondition(cond, b.frame, k);
        var v := b.flow.v;
        if ec.0.flow.Val? && !ec.1 {
          var rest := Visit(items, expr, cond, i + 1, ec.0.frame, k);
          DecidedCons(v, rest.vals);
          if Truthy(v).Ok? {
            var acc' := if Truthy(v).v then acc + [items[i]] else acc;
            FilterCompletes(items, expr, cond, i + 1, acc', ec.0.frame, k);
          }
        } else {
          DecidedCons(v, []);
          assert [v] + [] == [v];
        }
      }
    }
  }

  /** The result a completing `filter` gives from element `i` on, in terms of the recorded values. */
  predicate FilterGives(items: seq<Value>, expr: Expr, cond: Option<Expr>, i: nat, acc: seq<Value>, f: Frame, k: nat)
    requires i <= |items|
  {
    var t := Visit(items, expr, cond, i, f, k);
    var r := FilterFrom(items, expr, cond, i, acc, f, k);
    r.flow.Val? ==> r == Run(Val(List(acc + Kept(items, i, t.vals), false, None)), t.end.frame)
  }

  /** One iteration carries `FilterGives` back from the next element. */
  lemma FilterGivesStep(items: seq<Value>, expr: Expr, cond: Option<Expr>, i: nat, acc: seq<Value>, f: Frame, k: nat)
    requires i < |items|
    requires var b := Eval(expr, NONE, BindElement(f, items[i], i), k);
             var ec := ExitCondition(cond, b.frame, k);
             b.flow.Val? && Truthy(b.flow.v).Ok? && ec.0.flow.Val? && !ec.1 ==>
               FilterGives(items, expr, cond, i + 1, if Truthy(b.flow.v).v then acc + [items[i]] else acc, ec.0.frame, k)
    ensures FilterGives(items, expr, cond, i, acc, f, k)
  {
    FilterStep(items, expr, cond, i, acc, f, k);
    VisitStep(items, expr, cond, i, f, k);
    var b := Eval(expr, NONE, BindElement(f, items[i], i), k);
    var ec := ExitCondition(cond, b.frame, k);
    if b.flow.Val? && Truthy(b.flow.v).Ok? && ec.0.flow.Val? {
      var v := b.flow.v;
      var head := if Truthy(v) == Ok(true) then [items[i]] else [];
      var acc' := if Truthy(v).v then acc + [items[i]] else acc;
      assert acc' == acc + head;
      if ec.1 {
        KeptCons(items, i, v, []);
        assert [v] + [] == [v];
        assert acc' == acc + Kept(items, i, [v]);
      } else {
        var rest := Visit(items, expr, cond, i + 1, ec.0.frame, k);
        KeptCons(items, i, v, rest.vals);
        assert acc' + Kept(items, i + 1, rest.vals) == acc + (head + Kept(items, i + 1, rest.vals));
      }
    }
  }

  /**
   * A `filter` that completes gives, after the elements it has, exactly the
   * visited elements whose value is truthy, in order.
   */
  lemma {:induction false} FilterKeepsTruthy(items: seq<Value>, expr: Expr, cond: Option<Expr>, i: nat, acc: seq<Value>, f: Frame, k: nat)
    requires i <= |items|
    ensures var t := Visit(items, expr, cond, i, f, k);
            var r := FilterFrom(items, expr, cond, i, acc, f, k);
            r.flow.Val? ==> r == Run(Val(List(acc + Kept(items, i, t.vals), false, None)), t.end.frame)
    decreases |items| - i
  {
    if i == |items| {
      assert acc + [] == acc;
    } else {
      var b := Eval(expr, NONE, BindElement(f, items[i], i), k);
      var ec := ExitCondition(cond, b.frame, k);
      if b.flow.Val? && Truthy(b.flow.v).Ok? && ec.0.flow.Val? && !ec.1 {
        FilterKeepsTruthy(items, expr, cond, i + 1, if Truthy(b.flow.v).v then acc + [items[i]] else acc, ec.0.frame, k);
      }
      FilterGivesStep(items, expr, cond, i, acc, f, k);
    }
  }

  /** One iteration of `for`. */
  lemma ForStep(items: seq<Value>, expr: Expr, cond: Option<Expr>, i: nat, count: nat, f: Frame, k: nat)
    requires i < |items|
    ensures var r := ForFrom(items, expr, cond, i, count, f, k);
            var b := Eval(expr, NONE, BindElement(f, items[i], i), k);
            var ec := ExitCondition(cond, b.frame, k);
            if b.flow.Val? && Truthy(b.flow.v).Ok? && ec.0.flow.Val? then
              var count' := if Truthy(b.flow.v).v then count + 1 else count;
              r == if ec.1 then Run(Val(Num(count', None)), ec.0.frame)
                   else ForFrom(items, expr, cond, i + 1, count', ec.0.frame, k)
            else !r.flow.Val?
  {
  }

  /** `for` completes exactly when its iterations do and every value has a truth value. */
  lemma {:induction false} ForCompletes(items: seq<Value>, expr: Expr, cond: Option<Expr>, i: nat, count: nat, f: Frame, k: nat)
    requires i <= |items|
    ensures var t := Visit(items, expr, cond, i, f, k);
            ForFrom(items, expr, cond, i, count, f, k).flow.Val? <==> t.end.flow.Val? && Decided(t.vals)
    decreases |items| - i
  {
    if i < |items| {
      ForStep(items, expr, cond, i, count, f, k);
      VisitStep(items, expr, cond, i, f, k);
      var b := Eval(expr, NONE, BindElement(f, items[i], i), k);
      if b.flow.Val? {
        var ec := ExitCondition(cond, b.frame, k);
        var v := b.flow.v;
        if ec.0.flow.Val? && !ec.1 {
          var rest := Visit(items, expr, cond, i + 1, ec.0.frame, k);
          DecidedCons(v, rest.vals);
          if Truthy(v).Ok? {
            var count' := if Truthy(v).v then count + 1 else count;
            ForCompletes(items, expr, cond, i + 1, count', ec.0.frame, k);
          }
        } else {
          DecidedCons(v, []);
          assert [v] + [] == [v];
        }
      }
    }
  }

  /** The count a completing `for` gives from element `i` on, in terms of the recorded values. */
  predicate ForGives(items: seq<Value>, expr: Expr, cond: Option<Expr>, i: nat, count: nat, f: Frame, k: nat)
    requires i <= |items|
  {
    var t := Visit(items, expr, cond, i, f, k);
    var r := ForFrom(items, expr, cond, i, count, f, k);
    r.flow.Val? ==> r == Run(Val(Num(count + Hits(t.vals), None)), t.end.frame)
  }

  /** One iteration carries `ForGives` back from the next element. */
  lemma ForGivesStep(items: seq<Value>, expr: Expr, cond: Option<Expr>, i: nat, count: nat, f: Frame, k: nat)
    requires i < |items|
    requires var b := Eval(expr, NONE, BindElement(f, items[i], i), k);
             var ec := ExitCondition(cond, b.frame, k);
             b.flow.Val? && Truthy(b.flow.v).Ok? && ec.0.flow.Val? && !ec.1 ==>
               ForGives(items, expr, cond, i + 1, if Truthy(b.flow.v).v then count + 1 else count, ec.0.frame, k)
    ensures ForGives(items, expr, cond, i, count, f, k)
  {
    ForStep(items, expr, cond, i, count, f, k);
    VisitStep(items, expr, cond, i, f, k);
    var b := Eval(expr, NONE, BindElement(f, items[i], i), k);
    var ec := ExitCondition(cond, b.frame, k);
    if b.flow.Val? && Truthy(b.flow.v).Ok? && ec.0.flow.Val? {
      var v := b.flow.v;
      if ec.1 {
        KeptCons(items, i, v, []);
        assert [v] + [] == [v];
      } else {
        KeptCons(items, i, v, Visit(items, expr, cond, i + 1, ec.0.frame, k).vals);
      }
    }
  }

  /** A `for` that completes counts, on top of its count so far, exactly the truthy values. */
  lemma {:induction false} ForCountsTruthy(items: seq<Value>, expr: Expr, cond: Option<Expr>, i: nat, count: nat, f: Frame, k: nat)
    requires i <= |items|
    ensures var t := Visit(items, expr, cond, i, f, k);
            var r := ForFrom(items, expr, cond, i, count, f, k);
            r.flow.Val? ==> r == Run(Val(Num(count + Hits(t.vals), None)), t.end.frame)
    decreases |items| - i
  {
    if i < |items| {
      var b := Eval(expr, NONE, BindElement(f, items[i], i), k);
      var ec := ExitCondition(cond, b.frame, k);
      if b.flow.Val? && Truthy(b.flow.v).Ok? && ec.0.flow.Val? && !ec.1 {
        ForCountsTruthy(items, expr, cond, i + 1, if Truthy(b.flow.v).v then count + 1 else count, ec.0.frame, k);
      }
      ForGivesStep(items, expr, cond, i, count, f, k);
    }
  }

  /** Value `j` is the first truthy one: every value before it is falsy. */
  predicate FirstHit(vs: seq<Value>, j: int) {
    0 <= j < |vs| && Truthy(vs[j]) == Ok(true) && forall m :: 0 <= m < j ==> Truthy(vs[m]) == Ok(false)
  }

  /** Value `j` is the first falsy one: every value before it is truthy. */
  predicate FirstMiss(vs: seq<Value>, j: int) {
    0 <= j < |vs| && Truthy(vs[j]) == Ok(false) && forall m :: 0 <= m < j ==> Truthy(vs[m]) == Ok(true)
  }

  predicate AllFalsy(vs: seq<Value>) {
    forall j :: 0 <= j < |vs| ==> Truthy(vs[j]) == Ok(false)
  }

  predicate AllTruthy(vs: seq<Value>) {
    forall j :: 0 <= j < |vs| ==> Truthy(vs[j]) == Ok(true)
  }

  /** A leading truthy value is the first hit; a leading falsy one the first miss; either leaves "all" to the rest. */
  lemma FirstAtHead(v: Value, vs: seq<Value>)
    ensures Truthy(v) == Ok(true) ==> FirstHit([v] + vs, 0) && !FirstMiss([v] + vs, 0) && (AllTruthy([v] + vs) <==> AllTruthy(vs))
    ensures Truthy(v) == Ok(false) ==> FirstMiss([v] + vs, 0) && !FirstHit([v] + vs, 0) && (AllFalsy([v] + vs) <==> AllFalsy(vs))
    ensures Truthy(v).Fail? ==> !FirstHit([v] + vs, 0) && !FirstMiss([v] + vs, 0) && !AllTruthy([v] + vs) && !AllFalsy([v] + vs)
  {
    var ws := [v] + vs;
    assert ws[0] == v;
    forall m | 0 <= m < |vs| ensures ws[m + 1] == vs[m] { }
  }

  /** Behind a leading value with truth value `b`, the first value with the other truth value moves one place. */
  lemma FirstAfter(v: Value, vs: seq<Value>, b: bool, j: nat)
    requires Truthy(v) == Ok(b)
    ensures b ==> (FirstMiss([v] + vs, j + 1) <==> FirstMiss(vs, j)) && !FirstHit([v] + vs, j + 1)
    ensures !b ==> (FirstHit([v] + vs, j + 1) <==> FirstHit(vs, j)) && !FirstMiss([v] + vs, j + 1)
  {
    var ws := [v] + vs;
    assert ws[0] == v;
    if j < |vs| {
      assert ws[j + 1] == vs[j];
      var want := Ok(!b);
      assert forall m :: 0 <= m < j ==> ws[m + 1] == vs[m];
      if forall m :: 0 <= m < j ==> Truthy(vs[m]) == Ok(b) {
        forall m | 0 <= m < j + 1 ensures Truthy(ws[m]) == Ok(b) {
          if m > 0 { assert ws[m] == vs[m - 1]; }
        }
      }
      if forall m :: 0 <= m < j + 1 ==> Truthy(ws[m]) == Ok(b) {
        forall m | 0 <= m < j ensures Truthy(vs[m]) == Ok(b) {
          assert ws[m + 1] == vs[m];
        }
      }
    }
  }

  /** `first` gives the element of the first truthy value. */
  lemma {:induction false} FirstGivesHit(items: seq<Value>, expr: Expr, i: nat, f: Frame, k: nat, j: int)
    requires i <= |items|
    requires FirstHit(Visit(items, expr, None, i, f, k).vals, j)
    ensures FirstFrom(items, expr, i, f, k).flow == Val(items[i + j])
    decreases |items| - i
  {
    var t := Visit(items, expr, None, i, f, k);
    var b := Eval(expr, NONE, BindElement(f, items[i], i), k);
    var rest := Visit(items, expr, None, i + 1, b.frame, k);
    assert t.vals == [b.flow.v] + rest.vals;
    FirstAtHead(b.flow.v, rest.vals);
    if j > 0 {
      FirstAfter(b.flow.v, rest.vals, false, j - 1);
      FirstGivesHit(items, expr, i + 1, b.frame, k, j - 1);
      assert i + j == i + 1 + (j - 1);
    }
  }

  /** `first` gives NULL when every element was visited and none has a truthy value. */
  lemma {:induction false} FirstGivesNull(items: seq<Value>, expr: Expr, i: nat, f: Frame, k: nat)
    requires i <= |items|
    ensures var t := Visit(items, expr, None, i, f, k);
            t.end.flow.Val? && AllFalsy(t.vals) ==> FirstFrom(items, expr, i, f, k) == Run(Val(NULL), t.end.frame)
    decreases |items| - i
  {
    if i < |items| {
      var b := Eval(expr, NONE, BindElement(f, items[i], i), k);
      if b.flow.Val? {
        var rest := Visit(items, expr, None, i + 1, b.frame, k);
        assert Visit(items, expr, None, i, f, k).vals == [b.flow.v] + rest.vals;
        FirstAtHead(b.flow.v, rest.vals);
        if Truthy(b.flow.v) == Ok(false) {
          FirstGivesNull(items, expr, i + 1, b.frame, k);
        }
      }
    }
  }

  /** A `first` that completes found a first truthy value, or visited every element and none was. */
  lemma {:induction false} FirstOnlyThese(items: seq<Value>, expr: Expr, i: nat, f: Frame, k: nat)
    requires i <= |items|
    ensures var t := Visit(items, expr, None, i, f, k);
            FirstFrom(items, expr, i, f, k).flow.Val? ==> (exists j :: FirstHit(t.vals, j)) || (t.end.flow.Val? && AllFalsy(t.vals))
    decreases |items| - i
  {
    if i < |items| {
      var b := Eval(expr, NONE, BindElement(f, items[i], i), k);
      if b.flow.Val? {
        var t := Visit(items, expr, None, i, f, k);
        var rest := Visit(items, expr, None, i + 1, b.frame, k);
        assert t.vals == [b.flow.v] + rest.vals && t.end == rest.end;
        FirstAtHead(b.flow.v, rest.vals);
        if Truthy(b.flow.v) == Ok(false) {
          FirstOnlyThese(items, expr, i + 1, b.frame, k);
          if j :| FirstHit(rest.vals, j) {
            FirstAfter(b.flow.v, rest.vals, false, j);
          }
        }
      }
    }
  }

  /** `all` gives FALSE at the first falsy value. */
  lemma {:induction false} AllGivesMiss(items: seq<Value>, expr: Expr, i: nat, f: Frame, k: nat, j: int)
    requires i <= |items|
    requires FirstMiss(Visit(items, expr, None, i, f, k).vals, j)
    ensures AllFrom(items, expr, i, f, k).flow == Val(FALSE)
    decreases |items| - i
  {
    var t := Visit(items, expr, None, i, f, k);
    var b := Eval(expr, NONE, BindElement(f, items[i], i), k);
    var rest := Visit(items, expr, None, i + 1, b.frame, k);
    assert t.vals == [b.flow.v] + rest.vals;
    FirstAtHead(b.flow.v, rest.vals);
    if j > 0 {
      FirstAfter(b.flow.v, rest.vals, true, j - 1);
      AllGivesMiss(items, expr, i + 1, b.frame, k, j - 1);
    }
  }

  /** `all` gives TRUE when every element was visited and each value is truthy. */
  lemma {:induction false} AllGivesTrue(items: seq<Value>, expr: Expr, i: nat, f: Frame, k: nat)
    requires i <= |items|
    ensures var t := Visit(items, expr, None, i, f, k);
            t.end.flow.Val? && AllTruthy(t.vals) ==> AllFrom(items, expr, i, f, k) == Run(Val(TRUE), t.end.frame)
    decreases |items| - i
  {
    if i < |items| {
      var b := Eval(expr, NONE, BindElement(f, items[i], i), k);
      if b.flow.Val? {
        var rest := Visit(items, expr, None, i + 1, b.frame, k);
        assert Visit(items, expr, None, i, f, k).vals == [b.flow.v] + rest.vals;
        FirstAtHead(b.flow.v, rest.vals);
        if Truthy(b.flow.v) == Ok(true) {
          AllGivesTrue(items, expr, i + 1, b.frame, k);
        }
      }
    }
  }

  /** An `all` that completes found a first falsy value, or visited every element and each was truthy. */
  lemma {:induction false} AllOnlyThese(items: seq<Value>, expr: Expr, i: nat, f: Frame, k: nat)
    requires i <= |items|
    ensures var t := Visit(items, expr, None, i, f, k);
            AllFrom(items, expr, i, f, k).flow.Val? ==> (exists j :: FirstMiss(t.vals, j)) || (t.end.flow.Val? && AllTruthy(t.vals))
    decreases |items| - i
  {
    if i < |items| {
      var b := Eval(expr, NONE, BindElement(f, items[i], i), k);
      if b.flow.Val? {
        var t := Visit(items, expr, None, i, f, k);
        var rest := Visit(items, expr, None, i + 1, b.frame, k);
        assert t.vals == [b.flow.v] + rest.vals && t.end == rest.end;
        FirstAtHead(b.flow.v, rest.vals);
        if Truthy(b.flow.v) == Ok(true) {
          AllOnlyThese(items, expr, i + 1, b.frame, k);
          if j :| FirstMiss(rest.vals, j) {
            FirstAfter(b.flow.v, rest.vals, true, j);
          }
        }
      }
    }
  }

  // ---------------------------------------------------------------------
  // while and loop

  /** Frame `seen[j]` binds `_` to the round number `i + j`, for every `j`. */
  predicate CountsFrom(seen: seq<Frame>, i: int) {
    forall j :: 0 <= j < |seen| ==> GetVariable(seen[j], "_") == Fixed(Num(i + j, Some("_")))
  }

  lemma CountsFromCons(g: Frame, rest: seq<Frame>, i: int)
    requires GetVariable(g, "_") == Fixed(Num(i, Some("_")))
    requires CountsFrom(rest, i + 1)
    ensures CountsFrom([g] + rest, i)
  {
    var s := [g] + rest;
    forall j | 0 < j < |s| ensures GetVariable(s[j], "_") == Fixed(Num(i + j, Some("_"))) {
      assert s[j] == rest[j - 1] && i + j == i + 1 + (j - 1);
    }
  }

  lemma SetCounter(f: Frame, n: int)
    ensures GetVariable(SetVariable(f, "_", Fixed(Num(n, Some("_")))), "_") == Fixed(Num(n, Some("_")))
  {
    assert !IsGlobalName("_");
  }

  /**
   * The rounds of `while` from round `i`: the frame each condition is
   * evaluated in, the value of each body that ran, and how the rounds
   * ended; after each body `_` is set to the number of rounds run.
   */
  function WhileRounds(cond: Expr, body: Expr, limit: int, i: int, f: Frame, k: nat): (t: Trace)
    ensures |t.vals| <= |t.seen|
    ensures |t.vals| <= if i < limit then limit - i else 0
    decreases if i < limit then limit - i else 0
  {
    if i >= limit then Trace([], [], Run(Val(NULL), f))
    else
      var c := Eval(cond, BOOLEAN, f, k);
      if !c.flow.Val? then Trace([f], [], c)
      else
        match Truthy(c.flow.v)
        case Fail(e) => Trace([f], [], Stop(c.frame, e))
        case Ok(false) => Trace([f], [], Run(Val(NULL), c.frame))
        case Ok(true) =>
          var b := Eval(body, NONE, c.frame, k);
          if !b.flow.Val? then Trace([f], [], b)
          else
            var rest := WhileRounds(cond, body, limit, i + 1, SetVariable(b.frame, "_", Fixed(Num(i + 1, Some("_")))), k);
            Trace([f] + rest.seen, [b.flow.v] + rest.vals, rest.end)
  }

  /** One round of `while`. */
  lemma WhileStep(cond: Expr, body: Expr, limit: int, i: int, last: Value, f: Frame, k: nat)
    requires i < limit
    ensures var c := Eval(cond, BOOLEAN, f, k);
            var b := Eval(body, NONE, c.frame, k);
            var r := WhileFrom(cond, body, limit, i, last, f, k);
            var t := WhileRounds(cond, body, limit, i, f, k);
            if c.flow.Val? && Truthy(c.flow.v) == Ok(true) && b.flow.Val? then
              var f1 := SetVariable(b.frame, "_", Fixed(Num(i + 1, Some("_"))));
              var rest := WhileRounds(cond, body, limit, i + 1, f1, k);
              r == WhileFrom(cond, body, limit, i + 1, b.flow.v, f1, k)
              && t.seen == [f] + rest.seen && t.vals == [b.flow.v] + rest.vals && t.end == rest.end
            else t.seen == [f] && t.vals == [] && r == if t.end.flow.Val? then Run(Val(last), t.end.frame) else t.end
  {
  }

  /** `while` from round `i` gives the last body value, or `last` when no body ran. */
  lemma {:induction false} WhileGivesLast(cond: Expr, body: Expr, limit: int, i: int, last: Value, f: Frame, k: nat)
    ensures var t := WhileRounds(cond, body, limit, i, f, k);
            WhileFrom(cond, body, limit, i, last, f, k)
            == if t.end.flow.Val? then Run(Val(LastOr(last, t.vals)), t.end.frame) else t.end
    decreases if i < limit then limit - i else 0
  {
    if i < limit {
      WhileStep(cond, body, limit, i, last, f, k);
      var c := Eval(cond, BOOLEAN, f, k);
      if c.flow.Val? && Truthy(c.flow.v) == Ok(true) {
        var b := Eval(body, NONE, c.frame, k);
        if b.flow.Val? {
          var f1 := SetVariable(b.frame, "_", Fixed(Num(i + 1, Some("_"))));
          WhileGivesLast(cond, body, limit, i + 1, b.flow.v, f1, k);
          LastOrCons(last, b.flow.v, WhileRounds(cond, body, limit, i + 1, f1, k).vals);
        }
      }
    }
  }

  /** When round `i` starts with `_` bound to `i`, every round's condition sees `_` bound to its number. */
  lemma {:induction false} WhileCounts(cond: Expr, body: Expr, limit: int, i: int, f: Frame, k: nat)
    requires GetVariable(f, "_") == Fixed(Num(i, Some("_")))
    ensures CountsFrom(WhileRounds(cond, body, limit, i, f, k).seen, i)
    decreases if i < limit then limit - i else 0
  {
    if i < limit {
      WhileStep(cond, body, limit, i, NULL, f, k);
      var c := Eval(cond, BOOLEAN, f, k);
      if c.flow.Val? && Truthy(c.flow.v) == Ok(true) {
        var b := Eval(body, NONE, c.frame, k);
        if b.flow.Val? {
          var f1 := SetVariable(b.frame, "_", Fixed(Num(i + 1, Some("_"))));
          SetCounter(b.frame, i + 1);
          WhileCounts(cond, body, limit, i + 1, f1, k);
          CountsFromCons(f, WhileRounds(cond, body, limit, i + 1, f1, k).seen, i);
          return;
        }
      }
      CountsFromCons(f, [], i);
    }
  }

  /**
   * `while(cond, limit, expr)` once the limit is evaluated: at most `limit`
   * bodies run, round `j`'s condition sees `_` bound to `j`, and the result
   * is the last body value (NULL when none ran) with `_` put back as it was.
   */
  lemma WhileCallResult(args: seq<Expr>, f: Frame, k: nat)
    requires |args| >= 3
    ensures var l := Eval(args[1], NONE, f, k);
            l.flow.Val? && Arith.AsNumber(l.flow.v).Ok? ==>
              var limit := Arith.AsNumber(l.flow.v).v;
              var t := WhileRounds(args[0], args[2], limit, 0, SetVariable(l.frame, "_", Fixed(Num(0, Some("_")))), k);
              var r := WhileCall(args, f, k);
              |t.vals| <= (if limit > 0 then limit else 0)
              && CountsFrom(t.seen, 0)
              && (t.end.flow.Val? ==> r.flow == Val(LastOr(NULL, t.vals)) && GetVariable(r.frame, "_") == GetVariable(l.frame, "_"))
              && (!t.end.flow.Val? ==> r == t.end)
  {
    var l := Eval(args[1], NONE, f, k);
    if l.flow.Val? && Arith.AsNumber(l.flow.v).Ok? {
      var limit := Arith.AsNumber(l.flow.v).v;
      var f0 := SetVariable(l.frame, "_", Fixed(Num(0, Some("_"))));
      SetCounter(l.frame, 0);
      WhileCounts(args[0], args[2], limit, 0, f0, k);
      WhileGivesLast(args[0], args[2], limit, 0, NULL, f0, k);
      var r := WhileFrom(args[0], args[2], limit, 0, NULL, f0, k);
      if r.flow.Val? {
        assert !IsGlobalName("_");
        assert Restore(r, ["_"], [GetVariable(l.frame, "_")]).frame == SetVariable(r.frame, "_", GetVariable(l.frame, "_"));
      }
    }
  }

  /**
   * The rounds of `loop` from round `i`: `_` is set to the round number,
   * the body runs, then the exit condition; they end at the limit, when the
   * condition holds, or at an evaluation that does not complete.
   */
  function LoopRounds(body: Expr, cond: Option<Expr>, limit: int, i: int, f: Frame, k: nat): (t: Trace)
    ensures |t.vals| <= |t.seen| <= |t.vals| + 1
    ensures |t.seen| <= if i < limit then limit - i else 0
    decreases if i < limit then limit - i else 0
  {
    if i >= limit then Trace([], [], Run(Val(NULL), f))
    else
      var g := SetVariable(f, "_", Fixed(Num(i, Some("_"))));
      var b := Eval(body, NONE, g, k);
      if !b.flow.Val? then Trace([g], [], b)
      else
        var ec := ExitCondition(cond, b.frame, k);
        if !ec.0.flow.Val? || ec.1 then Trace([g], [b.flow.v], ec.0)
        else
          var rest := LoopRounds(body, cond, limit, i + 1, ec.0.frame, k);
          Trace([g] + rest.seen, [b.flow.v] + rest.vals, rest.end)
  }

  /** One round of `loop`: the optional exit condition acts as `ExitCondition` does. */
  lemma LoopStep(body: Expr, cond: Option<Expr>, limit: int, i: int, last: Value, f: Frame, k: nat)
    requires i < limit
    ensures var b := Eval(body, NONE, SetVariable(f, "_", Fixed(Num(i, Some("_")))), k);
            var ec := ExitCondition(cond, b.frame, k);
            var r := LoopFrom(body, cond, limit, i, last, f, k);
            if !b.flow.Val? then r == b
            else if !ec.0.flow.Val? then r == ec.0
            else if ec.1 then r == Run(Val(b.flow.v), ec.0.frame)
            else r == LoopFrom(body, cond, limit, i + 1, b.flow.v, ec.0.frame, k)
  {
  }

  /** One round of `loop`, as recorded. */
  lemma LoopRoundsStep(body: Expr, cond: Option<Expr>, limit: int, i: int, f: Frame, k: nat)
    requires i < limit
    ensures var b := Eval(body, NONE, SetVariable(f, "_", Fixed(Num(i, Some("_")))), k);
            var ec := ExitCondition(cond, b.frame, k);
            var t := LoopRounds(body, cond, limit, i, f, k);
            if !b.flow.Val? then t.end == b
            else if !ec.0.flow.Val? || ec.1 then t.vals == [b.flow.v] && t.end == ec.0
            else
              var rest := LoopRounds(body, cond, limit, i + 1, ec.0.frame, k);
              t.vals == [b.flow.v] + rest.vals && t.end == rest.end
  {
  }

  /** `loop` from round `i` gives the last body value, or `last` when no body ran. */
  lemma {:induction false} LoopGivesLast(body: Expr, cond: Option<Expr>, limit: int, i: int, last: Value, f: Frame, k: nat)
    ensures var t := LoopRounds(body, cond, limit, i, f, k);
            LoopFrom(body, cond, limit, i, last, f, k)
            == if t.end.flow.Val? then Run(Val(LastOr(last, t.vals)), t.end.frame) else t.end
    decreases if i < limit then limit - i else 0
  {
    if i < limit {
      LoopStep(body, cond, limit, i, last, f, k);
      LoopRoundsStep(body, cond, limit, i, f, k);
      var b := Eval(body, NONE, SetVariable(f, "_", Fixed(Num(i, Some("_")))), k);
      if b.flow.Val? {
        var ec := ExitCondition(cond, b.frame, k);
        if ec.0.flow.Val? && !ec.1 {
          LoopGivesLast(body, cond, limit, i + 1, b.flow.v, ec.0.frame, k);
          LastOrCons(last, b.flow.v, LoopRounds(body, cond, limit, i + 1, ec.0.frame, k).vals);
        }
      }
    }
  }

  /** Round `j`'s body runs with `_` bound to `i + j`. */
  lemma {:induction false} LoopCounts(body: Expr, cond: Option<Expr>, limit: int, i: int, f: Frame, k: nat)
    ensures CountsFrom(LoopRounds(body, cond, limit, i, f, k).seen, i)
    decreases if i < limit then limit - i else 0
  {
    if i < limit {
      var g := SetVariable(f, "_", Fixed(Num(i, Some("_"))));
      SetCounter(f, i);
      var b := Eval(body, NONE, g, k);
      if b.flow.Val? {
        var ec := ExitCondition(cond, b.frame, k);
        if ec.0.flow.Val? && !ec.1 {
          LoopCounts(body, cond, limit, i + 1, ec.0.frame, k);
          CountsFromCons(g, LoopRounds(body, cond, limit, i + 1, ec.0.frame, k).seen, i);
          return;
        }
      }
      CountsFromCons(g, [], i);
    }
  }

  /** Each recorded value is what the body gives from that round's frame. */
  lemma {:induction false} LoopComputes(body: Expr, cond: Option<Expr>, limit: int, i: int, f: Frame, k: nat)
    ensures var t := LoopRounds(body, cond, limit, i, f, k); Computes(body, t.seen, t.vals, k)
    decreases if i < limit then limit - i else 0
  {
    if i < limit {
      var g := SetVariable(f, "_", Fixed(Num(i, Some("_"))));
      var b := Eval(body, NONE, g, k);
      if b.flow.Val? {
        var ec := ExitCondition(cond, b.frame, k);
        if ec.0.flow.Val? && !ec.1 {
          var rest := LoopRounds(body, cond, limit, i + 1, ec.0.frame, k);
          LoopComputes(body, cond, limit, i + 1, ec.0.frame, k);
          ComputesCons(body, g, b.flow.v, rest.seen, rest.vals, k);
        } else {
          ComputesCons(body, g, b.flow.v, [], [], k);
        }
      }
    }
  }

  /**
   * `loop(limit, expr, exit)` once the limit is evaluated: at most `limit`
   * rounds run, round `j` sees `_` bound to `j`, and the result is the last
   * body value (NULL when none ran) with `_` put back as it was.
   */
  lemma LoopCallResult(args: seq<Expr>, f: Frame, k: nat)
    requires 2 <= |args| <= 3
    ensures var l := Eval(args[0], NONE, f, k);
            l.flow.Val? && Arith.AsNumber(l.flow.v).Ok? ==>
              var limit := Arith.AsNumber(l.flow.v).v;
              var t := LoopRounds(args[1], OptionalArg(args, 2), limit, 0, l.frame, k);
              var r := LoopCall(args, f, k);
              |t.seen| <= (if limit > 0 then limit else 0)
              && CountsFrom(t.seen, 0)
              && (t.end.flow.Val? ==> r.flow == Val(LastOr(NULL, t.vals)) && GetVariable(r.frame, "_") == GetVariable(l.frame, "_"))
              && (!t.end.flow.Val? ==> r == t.end)
  {
    var l := Eval(args[0], NONE, f, k);
    if l.flow.Val? && Arith.AsNumber(l.flow.v).Ok? {
      var limit := Arith.AsNumber(l.flow.v).v;
      LoopCounts(args[1], OptionalArg(args, 2), limit, 0, l.frame, k);
      LoopGivesLast(args[1], OptionalArg(args, 2), limit, 0, NULL, l.frame, k);
      var r := LoopFrom(args[1], OptionalArg(args, 2), limit, 0, NULL, l.frame, k);
      if r.flow.Val? {
        assert !IsGlobalName("_");
        assert Restore(r, ["_"], [GetVariable(l.frame, "_")]).frame == SetVariable(r.frame, "_", GetVariable(l.frame, "_"));
      }
    }
  }

  // ---------------------------------------------------------------------
  // reduce

  /** Frame `g` binds `_a` to the accumulator and `_` to the element, each renamed. */
  predicate BindsStep(g: Frame, acc: Value, item: Value) {
    GetVariable(g, "_a") == Fixed(WithBound(acc, Some("_a")))
    && GetVariable(g, "_") == Fixed(WithBound(item, Some("_")))
  }

  /**
   * Frame `seen[j]` binds `_` to element `i + j` and `_a` to the
   * accumulator before it: `acc` first, then `vals[j - 1]`.
   */
  predicate StepsFrom(seen: seq<Frame>, vals: seq<Value>, items: seq<Value>, i: nat, acc: Value) {
    i + |seen| <= |items| && |seen| <= |vals| + 1
    && forall j :: 0 <= j < |seen| ==> BindsStep(seen[j], if j == 0 then acc else vals[j - 1], items[i + j])
  }

  lemma StepsFromCons(g: Frame, v: Value, seen: seq<Frame>, vals: seq<Value>, items: seq<Value>, i: nat, acc: Value)
    requires i < |items| && BindsStep(g, acc, items[i])
    requires StepsFrom(seen, vals, items, i + 1, v)
    ensures StepsFrom([g] + seen, [v] + vals, items, i, acc)
  {
    var s, w := [g] + seen, [v] + vals;
    forall j | 0 < j < |s| ensures BindsStep(s[j], w[j - 1], items[i + j]) {
      assert s[j] == seen[j - 1] && i + j == i + 1 + (j - 1);
      if j > 1 {
        assert w[j - 1] == vals[j - 2];
      }
    }
  }

  /** The frame `reduce`'s expression runs in: `_a` bound to the accumulator and `_` to the element. */
  function ReduceFrame(f: Frame, acc: Value, item: Value): (g: Frame)
    ensures BindsStep(g, acc, item)
  {
    assert !IsGlobalName("_") && !IsGlobalName("_a");
    SetVariable(SetVariable(f, "_a", Fixed(WithBound(acc, Some("_a")))), "_", Fixed(WithBound(item, Some("_"))))
  }

  /**
   * The accumulators `reduce` computes from element `i`: each is the
   * expression's value in the frame that binds the one before and the
   * element; they end with the list or at an evaluation that does not complete.
   */
  function Accumulate(items: seq<Value>, expr: Expr, i: nat, acc: Value, f: Frame, k: nat): (t: Trace)
    requires i <= |items|
    ensures |t.vals| <= |t.seen| <= |items| - i && |t.seen| <= |t.vals| + 1
    ensures t.end.flow.Val? ==> |t.vals| == |items| - i
    decreases |items| - i
  {
    if i == |items| then Trace([], [], Run(Val(acc), f))
    else
      var g := ReduceFrame(f, acc, items[i]);
      var b := Eval(expr, NONE, g, k);
      if !b.flow.Val? then Trace([g], [], b)
      else
        var rest := Accumulate(items, expr, i + 1, b.flow.v, b.frame, k);
        Trace([g] + rest.seen, [b.flow.v] + rest.vals, rest.end)
  }

  /** `reduce` from element `i` gives the last accumulator, or `acc` when the list is done. */
  lemma {:induction false} ReduceGivesLast(items: seq<Value>, expr: Expr, i: nat, acc: Value, f: Frame, k: nat)
    requires i <= |items|
    ensures var t := Accumulate(items, expr, i, acc, f, k);
            ReduceFrom(items, expr, i, acc, f, k)
            == if t.end.flow.Val? then Run(Val(LastOr(acc, t.vals)), t.end.frame) else t.end
    decreases |items| - i
  {
    if i < |items| {
      var b := Eval(expr, NONE, ReduceFrame(f, acc, items[i]), k);
      if b.flow.Val? {
        ReduceGivesLast(items, expr, i + 1, b.flow.v, b.frame, k);
        LastOrCons(acc, b.flow.v, Accumulate(items, expr, i + 1, b.flow.v, b.frame, k).vals);
      }
    }
  }

  /**
   * The step of `reduce`: accumulator `j` is the expression's value in a
   * frame binding `_` to element `i + j` and `_a` to the accumulator before.
   */
  lemma {:induction false} AccumulateSteps(items: seq<Value>, expr: Expr, i: nat, acc: Value, f: Frame, k: nat)
    requires i <= |items|
    ensures var t := Accumulate(items, expr, i, acc, f, k);
            StepsFrom(t.seen, t.vals, items, i, acc) && Computes(expr, t.seen, t.vals, k)
    decreases |items| - i
  {
    if i < |items| {
      var g := ReduceFrame(f, acc, items[i]);
      var b := Eval(expr, NONE, g, k);
      if b.flow.Val? {
        var rest := Accumulate(items, expr, i + 1, b.flow.v, b.frame, k);
        AccumulateSteps(items, expr, i + 1, b.flow.v, b.frame, k);
        StepsFromCons(g, b.flow.v, rest.seen, rest.vals, items, i, acc);
        ComputesCons(expr, g, b.flow.v, rest.seen, rest.vals, k);
      } else {
        assert StepsFrom([g], [], items, i, acc);
      }
    }
  }

  /**
   * `reduce(list, expr, initial)` on a non-empty list: the result is the
   * last accumulator, with `_a` and `_` put back as they were.
   */
  lemma ReduceCallResult(args: seq<Expr>, f: Frame, k: nat)
    requires |args| >= 3
    ensures var a := Eval(args[2], NONE, f, k);
            var l := Eval(args[0], NONE, a.frame, k);
            a.flow.Val? && l.flow.Val? && l.flow.v.List? && |l.flow.v.items| > 0 ==>
              var t := Accumulate(l.flow.v.items, args[1], 0, a.flow.v, l.frame, k);
              var r := ReduceCall(args, f, k);
              (t.end.flow.Val? ==> r.flow == Val(t.vals[|t.vals| - 1])
                                   && GetVariable(r.frame, "_a") == GetVariable(l.frame, "_a")
                                   && GetVariable(r.frame, "_") == GetVariable(l.frame, "_"))
              && (!t.end.flow.Val? ==> r == t.end)
  {
    var a := Eval(args[2], NONE, f, k);
    var l := Eval(args[0], NONE, a.frame, k);
    if a.flow.Val? && l.flow.Val? && l.flow.v.List? && |l.flow.v.items| > 0 {
      var items := l.flow.v.items;
      ReduceGivesLast(items, args[1], 0, a.flow.v, l.frame, k);
      var r := ReduceFrom(items, args[1], 0, a.flow.v, l.frame, k);
      if r.flow.Val? {
        var saved := [GetVariable(l.frame, "_a"), GetVariable(l.frame, "_")];
        var f1 := SetVariable(r.frame, "_a", saved[0]);
        assert !IsGlobalName("_") && !IsGlobalName("_a");
        assert Restore(r, ["_a", "_"], saved).frame == SetVariable(f1, "_", saved[1]);
        SetKeepsOthers(f1, "_", "_a", saved[1]);
      }
    }
  }
}
