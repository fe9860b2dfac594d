/**
 * Properties of evaluation: the short-circuit operators, assignment and
 * destructuring, exchange, the loop built-ins' results and the variables
 * they put back, `try`, and calls of user functions.
 */
module InterpFacts {
  import opened Values
  import opened Ast
  import opened Scope
  import opened Interp

  /** No local binding hides a `global_` name (only `with` makes one). */
  predicate NoShadow(f: Frame) {
    forall n :: n in f.locals ==> !IsGlobalName(n)
  }

  lemma SetKeepsNoShadow(f: Frame, name: string, b: Binding)
    requires NoShadow(f)
    ensures NoShadow(SetVariable(f, name, b))
    ensures GetVariable(SetVariable(f, name, b), name) == b
  {
    SetThenGet(f, name, b);
  }

  predicate Distinct(names: seq<string>) {
    forall a, b :: 0 <= a < b < |names| ==> names[a] != names[b]
  }

  // ---------------------------------------------------------------------
  // Operators

  /** `&&` stops at a falsy left operand and gives it back; `||` stops at a truthy one. */
  lemma ShortCircuitStops(onTruthy: bool, v1: Value, right: Expr, f: Frame, k: nat)
    requires Truthy(v1) == Ok(onTruthy)
    ensures ShortCircuit(onTruthy, v1, right, f, k) == Run(Val(v1), f)
  {
  }

  /**
   * When the left operand does not decide, the result is the right operand
   * if it is truthy and FALSE otherwise: so the result is truthy exactly when
   * the right operand is.
   */
  lemma ShortCircuitContinues(onTruthy: bool, v1: Value, right: Expr, f: Frame, k: nat)
    requires Truthy(v1) == Ok(!onTruthy)
    ensures var b := Eval(right, BOOLEAN, f, k);
            var r := ShortCircuit(onTruthy, v1, right, f, k);
            b.flow.Val? && Truthy(b.flow.v).Ok? ==>
              r.frame == b.frame && r.flow.Val? && Truthy(r.flow.v) == Truthy(b.flow.v)
              && (r.flow.v == b.flow.v || r.flow.v == FALSE)
  {
  }

  /** `a != b` is the negation of `a == b`, and both fail alike. */
  lemma NotEqualsNegates(v1: Value, v2: Value)
    ensures BinaryValue(NotEquals, v1, v2).Ok? <==> BinaryValue(Equals, v1, v2).Ok?
    ensures BinaryValue(Equals, v1, v2).Ok? ==>
              Truthy(BinaryValue(NotEquals, v1, v2).v).Ok?
              && Truthy(BinaryValue(NotEquals, v1, v2).v).v == !Truthy(BinaryValue(Equals, v1, v2).v).v
  {
  }

  /** `a < b` is `b > a`, and `a <= b` is `b >= a`, on values that are not null. */
  lemma ComparisonsMirror(v1: Value, v2: Value)
    requires !v1.Null? && !v2.Null?
    requires Compare(v1, v2).Ok? && Compare(v2, v1).Ok?
    ensures BinaryValue(Less, v1, v2) == BinaryValue(Greater, v2, v1)
    ensures BinaryValue(LessEq, v1, v2) == BinaryValue(GreaterEq, v2, v1)
  {
    CompareAntisymmetric(v1, v2);
  }

  // ---------------------------------------------------------------------
  // Assignment

  /** Plain `=` binds the name to the value renamed to it, and gives that copy. */
  lemma AssignBinds(v1: Value, v2: Value, f: Frame)
    requires NoShadow(f) && Assignable(v1) && !(v1.List? && v1.ctor && v2.List?)
    ensures var r := Assignment(Assign, v1, v2, f);
            r.flow == Val(Rebound(v2, v1.bound.value))
            && GetVariable(r.frame, v1.bound.value) == Fixed(Rebound(v2, v1.bound.value))
  {
    SetKeepsNoShadow(f, v1.bound.value, Fixed(Rebound(v2, v1.bound.value)));
  }

  /** The bindings `BindAll` leaves: each name to its value, every other name untouched. */
  lemma {:induction false} BindAllBinds(names: seq<string>, vals: seq<Value>, f: Frame)
    requires |names| == |vals| && Distinct(names) && NoShadow(f)
    ensures NoShadow(BindAll(names, vals, f))
    ensures forall j :: 0 <= j < |names| ==> GetVariable(BindAll(names, vals, f), names[j]) == Fixed(Rebound(vals[j], names[j]))
    ensures forall n :: n !in names ==> GetVariable(BindAll(names, vals, f), n) == GetVariable(f, n)
    decreases |names|
  {
    if |names| > 0 {
      var b := Fixed(Rebound(vals[0], names[0]));
      var f1 := SetVariable(f, names[0], b);
      SetKeepsNoShadow(f, names[0], b);
      BindAllBinds(names[1..], vals[1..], f1);
      var r := BindAll(names, vals, f);
      assert r == BindAll(names[1..], vals[1..], f1);
      assert names[0] !in names[1..] by {
        forall j | 0 <= j < |names[1..]| ensures names[1..][j] != names[0] {
          assert names[1..][j] == names[j + 1];
        }
      }
      forall j | 0 <= j < |names| ensures GetVariable(r, names[j]) == Fixed(Rebound(vals[j], names[j])) {
        if j > 0 {
          assert names[j] == names[1..][j - 1] && vals[j] == vals[1..][j - 1];
        }
      }
      forall n | n !in names ensures GetVariable(r, n) == GetVariable(f, n) {
        assert names == [names[0]] + names[1..];
        SetKeepsOthers(f, names[0], n, b);
      }
    }
  }

  /**
   * Destructuring `[a, b, …] = [x, y, …]`: with as many distinct names as
   * values, each name is bound to its value renamed to it and the result is
   * true; a mismatch in length is an error naming which side is longer.
   */
  lemma Destructures(ll: seq<Value>, rl: seq<Value>, b1: Option<string>, r2: bool, b2: Option<string>, f: Frame)
    requires NoShadow(f)
    ensures |ll| < |rl| ==> Assignment(Assign, List(ll, true, b1), List(rl, r2, b2), f).flow == Error(InternalErr("Too many values to unpack"))
    ensures |ll| > |rl| ==> Assignment(Assign, List(ll, true, b1), List(rl, r2, b2), f).flow == Error(InternalErr("Too few values to unpack"))
    ensures |ll| == |rl| && (forall i :: 0 <= i < |ll| ==> Assignable(ll[i])) && Distinct(Names(ll).v) ==>
              var r := Assignment(Assign, List(ll, true, b1), List(rl, r2, b2), f);
              r.flow == Val(TRUE)
              && forall i :: 0 <= i < |ll| ==> GetVariable(r.frame, ll[i].bound.value) == Fixed(Rebound(rl[i], ll[i].bound.value))
  {
    if |ll| == |rl| && (forall i :: 0 <= i < |ll| ==> Assignable(ll[i])) && Distinct(Names(ll).v) {
      BindAllBinds(Names(ll).v, rl, f);
    }
  }

  /** `a <> b` on two distinct names exchanges their values, each renamed to its new name. */
  lemma SwapExchanges(v1: Value, v2: Value, f: Frame)
    requires NoShadow(f) && Assignable(v1) && Assignable(v2) && v1.bound != v2.bound
    requires !(v1.List? && v1.ctor && v2.List? && v2.ctor)
    ensures var r := Assignment(Swap, v1, v2, f);
            r.flow == Val(Rebound(v2, v1.bound.value))
            && GetVariable(r.frame, v1.bound.value) == Fixed(Rebound(v2, v1.bound.value))
            && GetVariable(r.frame, v2.bound.value) == Fixed(Rebound(v1, v2.bound.value))
  {
    var l, rn := v1.bound.value, v2.bound.value;
    var f1 := SetVariable(f, l, Fixed(Rebound(v2, l)));
    SetKeepsNoShadow(f, l, Fixed(Rebound(v2, l)));
    SetKeepsNoShadow(f1, rn, Fixed(Rebound(v1, rn)));
    SetKeepsOthers(f1, rn, l, Fixed(Rebound(v1, rn)));
  }

  /** `list += x` on a plain list variable appends `x` and keeps the variable bound to the list. */
  lemma AddAssignAppends(items: seq<Value>, ctor: bool, name: string, v2: Value, f: Frame)
    requires NoShadow(f) && !(ctor && v2.List?)
    ensures var r := Assignment(AddAssign, List(items, ctor, Some(name)), v2, f);
            r.flow == Val(List(items + [v2], ctor, Some(name)))
            && GetVariable(r.frame, name) == Fixed(List(items + [v2], ctor, Some(name)))
  {
    SetKeepsNoShadow(f, name, Fixed(List(items + [v2], ctor, Some(name))));
  }

  // ---------------------------------------------------------------------
  // Loops

  /** Putting saved bindings back leaves each of the (distinct) names as it was saved. */
  lemma {:induction false} RestorePutsBack(r: Run, names: seq<string>, saved: seq<Binding>)
    requires |names| == |saved| && Distinct(names) && NoShadow(r.frame) && r.flow.Val?
    ensures forall j :: 0 <= j < |names| ==> GetVariable(Restore(r, names, saved).frame, names[j]) == saved[j]
    ensures forall n :: n !in names ==> GetVariable(Restore(r, names, saved).frame, n) == GetVariable(r.frame, n)
    decreases |names|
  {
    if |names| > 0 {
      var r1 := Run(r.flow, SetVariable(r.frame, names[0], saved[0]));
      SetKeepsNoShadow(r.frame, names[0], saved[0]);
      RestorePutsBack(r1, names[1..], saved[1..]);
      var out := Restore(r, names, saved);
      assert out == Restore(r1, names[1..], saved[1..]);
      forall j | 0 <= j < |names| ensures GetVariable(out.frame, names[j]) == saved[j] {
        if j > 0 {
          assert names[j] == names[1..][j - 1] && saved[j] == saved[1..][j - 1];
        } else {
          assert names[0] !in names[1..] by {
            forall m | 0 <= m < |names[1..]| ensures names[1..][m] != names[0] {
              assert names[1..][m] == names[m + 1];
            }
          }
        }
      }
      forall n | n !in names ensures GetVariable(out.frame, n) == GetVariable(r.frame, n) {
        assert names == [names[0]] + names[1..];
        SetKeepsOthers(r.frame, names[0], n, saved[0]);
      }
    }
  }

  /**
   * The element loops (`map`, `filter`, `first`, `all`, `for`) put `_` and
   * `_i` back as they were before the loop when it completes.
   */
  lemma ElementLoopRestores(fn: Builtin, args: seq<Expr>, f: Frame, k: nat)
    requires |args| >= 2
    ensures var l := Eval(args[0], NONE, f, k);
            var r := ElementCall(fn, args, f, k);
            l.flow.Val? && l.flow.v.List? && NoShadow(ElementLoop(fn, l.flow.v.items, args, l.frame, k).frame) && r.flow.Val? ==>
              GetVariable(r.frame, "_") == GetVariable(l.frame, "_")
              && GetVariable(r.frame, "_i") == GetVariable(l.frame, "_i")
  {
    var l := Eval(args[0], NONE, f, k);
    if l.flow.Val? && l.flow.v.List? {
      var loop := ElementLoop(fn, l.flow.v.items, args, l.frame, k);
      if NoShadow(loop.frame) && loop.flow.Val? {
        RestorePutsBack(loop, ["_", "_i"], [GetVariable(l.frame, "_"), GetVariable(l.frame, "_i")]);
      }
    }
  }

  /** `reduce` over an empty list gives the initial value and touches no variable. */
  lemma ReduceOfEmpty(args: seq<Expr>, f: Frame, k: nat)
    requires |args| >= 3
    ensures var a := Eval(args[2], NONE, f, k);
            var l := Eval(args[0], NONE, a.frame, k);
            a.flow.Val? && l.flow == Val(List([], false, None)) ==>
              ReduceCall(args, f, k) == Run(Val(a.flow.v), l.frame)
  {
  }

  // ---------------------------------------------------------------------
  // try

  /**
   * `try(expr, catch)`: when `expr` throws and the handler completes, `_`
   * is put back to what it was when the throw reached `try`, and the
   * handler's value is the result.
   */
  lemma TryRestoresUnderscore(args: seq<Expr>, t: Expect, f: Frame, k: nat)
    requires |args| >= 2
    ensures var a := Eval(args[0], t, f, k);
            var r := TryCall(args, t, f, k);
            a.flow.Thrown? && NoShadow(a.frame) && r.flow.Val? ==>
              var b := Eval(args[1], t, SetVariable(a.frame, "_", Fixed(Rebound(a.flow.v, "_"))), k);
              r.flow == b.flow && NoShadow(b.frame) ==> GetVariable(r.frame, "_") == GetVariable(a.frame, "_")
  {
    var a := Eval(args[0], t, f, k);
    if a.flow.Thrown? {
      var b := Eval(args[1], t, SetVariable(a.frame, "_", Fixed(Rebound(a.flow.v, "_"))), k);
      if NoShadow(b.frame) {
        SetKeepsNoShadow(b.frame, "_", GetVariable(a.frame, "_"));
      }
    }
  }

  /** `try(expr)` turns a throw into NULL and lets every other outcome through. */
  lemma TryAbsorbsThrow(e: Expr, t: Expect, f: Frame, k: nat)
    ensures var a := Eval(e, t, f, k);
            TryCall([e], t, f, k) == if a.flow.Thrown? then Run(Val(NULL), a.frame) else a
  {
  }

  // ---------------------------------------------------------------------
  // User functions

  /** A call with the wrong number of arguments fails before anything is evaluated. */
  lemma CallArityChecked(u: Udf, params: seq<Expr>, t: Expect, f: Frame, k: nat)
    requires |u.args| != |params|
    ensures CallUdf(u, params, t, f, k) == Stop(f, ExprErr(ArityError(u, |params|)))
  {
  }

  /**
   * Copying outer names in: each listed name holds, in the callee, what the
   * caller had for it before the copy (or zero renamed to it), and every
   * other name keeps its callee binding.
   */
  lemma {:induction false} CopyInBinds(globals: seq<string>, s: Frames)
    requires NoShadow(s.Callee())
    ensures NoShadow(CopyIn(globals, s).Callee())
    ensures forall g :: g in globals ==> GetVariable(CopyIn(globals, s).Callee(), g) != Missing
    ensures forall x :: GetVariable(CopyIn(globals, s).Callee(), x)
                        == if x in globals then OuterBinding(s.Caller(), x) else GetVariable(s.Callee(), x)
    decreases |globals|
  {
    if |globals| > 0 {
      var g := globals[0];
      var b := OuterBinding(s.Caller(), g);
      var next := SetVariable(s.Callee(), g, b);
      SetKeepsNoShadow(s.Callee(), g, b);
      var s1 := Frames(s.caller, next.locals, next.host);
      assert s1.Callee() == next;
      CopyInBinds(globals[1..], s1);
      assert globals == [g] + globals[1..];
      forall x
        ensures GetVariable(CopyIn(globals, s).Callee(), x)
                == if x in globals then OuterBinding(s.Caller(), x) else GetVariable(s.Callee(), x)
      {
        if x in globals[1..] {
          CopyInKeepsOffer(s, g, x);
        } else if x != g {
          SetKeepsOthers(s.Callee(), g, x, b);
        }
      }
    }
  }

  /**
   * One copy-in step leaves what the caller hands any name unchanged: only a
   * `global_` name reaches the shared table, and it gets what the caller
   * already saw for it.
   */
  lemma CopyInKeepsOffer(s: Frames, g: string, y: string)
    ensures var next := SetVariable(s.Callee(), g, OuterBinding(s.Caller(), g));
            OuterBinding(Frames(s.caller, next.locals, next.host).Caller(), y) == OuterBinding(s.Caller(), y)
  {
  }

  /** A name keeps its callee binding through the copy unless it is copied again, which binds it anew. */
  lemma {:induction false} CopyInKeeps(globals: seq<string>, s: Frames, g: string)
    requires NoShadow(s.Callee()) && GetVariable(s.Callee(), g) != Missing
    ensures GetVariable(CopyIn(globals, s).Callee(), g) != Missing
    decreases |globals|
  {
    if |globals| > 0 {
      var x := globals[0];
      var lv := GetVariable(s.Caller(), x);
      var b := if lv.Missing? then Fixed(Rebound(ZERO, x)) else lv;
      var next := SetVariable(s.Callee(), x, b);
      SetKeepsNoShadow(s.Callee(), x, b);
      if x != g {
        SetKeepsOthers(s.Callee(), x, g, b);
      }
      CopyInKeeps(globals[1..], Frames(s.caller, next.locals, next.host), g);
    }
  }

  /**
   * One copy-back step leaves every name as the callee sees it: a `global_`
   * name written to the shared table gets the binding the callee already
   * saw there.
   */
  lemma CopyBackKeepsCallee(s: Frames, g: string, y: string)
    requires GetVariable(s.Callee(), g) != Missing
    ensures var next := SetVariable(s.Caller(), g, GetVariable(s.Callee(), g));
            GetVariable(Frames(next.locals, s.callee, next.host).Callee(), y) == GetVariable(s.Callee(), y)
  {
  }

  /**
   * Copying outer names back: each listed name the callee holds is bound in
   * the caller to the callee's binding; every other name keeps the caller's
   * binding, and the callee's view is untouched.
   */
  lemma {:induction false} CopyBackSets(globals: seq<string>, s: Frames)
    requires NoShadow(s.Caller())
    ensures NoShadow(CopyBack(globals, s).Caller())
    ensures forall x :: GetVariable(CopyBack(globals, s).Caller(), x)
                        == if x in globals && GetVariable(s.Callee(), x) != Missing
                           then GetVariable(s.Callee(), x) else GetVariable(s.Caller(), x)
    ensures forall x :: GetVariable(CopyBack(globals, s).Callee(), x) == GetVariable(s.Callee(), x)
    decreases |globals|
  {
    if |globals| > 0 {
      var g := globals[0];
      var lv := GetVariable(s.Callee(), g);
      var s1 := s;
      if !lv.Missing? {
        var next := SetVariable(s.Caller(), g, lv);
        SetKeepsNoShadow(s.Caller(), g, lv);
        s1 := Frames(next.locals, s.callee, next.host);
        assert s1.Caller() == next;
        forall y ensures GetVariable(s1.Callee(), y) == GetVariable(s.Callee(), y) {
          CopyBackKeepsCallee(s, g, y);
        }
        forall y | y != g ensures GetVariable(s1.Caller(), y) == GetVariable(s.Caller(), y) {
          SetKeepsOthers(s.Caller(), g, y, lv);
        }
      }
      assert CopyBack(globals, s) == CopyBack(globals[1..], s1);
      CopyBackSets(globals[1..], s1);
      assert globals == [g] + globals[1..];
      forall x
        ensures GetVariable(CopyBack(globals, s).Caller(), x)
                == if x in globals && GetVariable(s.Callee(), x) != Missing
                   then GetVariable(s.Callee(), x) else GetVariable(s.Caller(), x)
      {
      }
    }
  }

  /**
   * A call's effect on the caller's variables.  When the body completes,
   * returns or throws, each outer name the body leaves bound is bound in the
   * caller to the body's binding, and every other name (the parameters and
   * the callee's own locals among them) reads as the caller's frame after
   * the arguments were evaluated.  An `exit` or an error leaves exactly that
   * frame.
   */
  lemma CallCopiesBack(u: Udf, params: seq<Expr>, t: Expect, f: Frame, k: nat)
    requires |u.args| == |params|
    ensures var bound := BindArgs(u.args, params, 0, CopyIn(u.globals, Frames(f.locals, map[], f.host)), k);
            bound.Bound? ==>
              var b := Eval(u.body, t, bound.s.Callee(), k);
              var caller := Frame(bound.s.caller, b.frame.host);
              var r := CallUdf(u, params, t, f, k);
              ((b.flow.Exited? || b.flow.Error?) ==> r.frame == caller)
              && ((b.flow.Val? || b.flow.Ret? || b.flow.Thrown?) && NoShadow(caller) ==>
                    forall x :: GetVariable(r.frame, x)
                                == if x in u.globals && GetVariable(b.frame, x) != Missing
                                   then GetVariable(b.frame, x) else GetVariable(caller, x))
  {
    var bound := BindArgs(u.args, params, 0, CopyIn(u.globals, Frames(f.locals, map[], f.host)), k);
    if bound.Bound? {
      var b := Eval(u.body, t, bound.s.Callee(), k);
      var after := Frames(bound.s.caller, b.frame.locals, b.frame.host);
      if (b.flow.Val? || b.flow.Ret? || b.flow.Thrown?) && NoShadow(after.Caller()) {
        assert after.Callee() == b.frame;
        CopyBackSets(u.globals, after);
      }
    }
  }

  /**
   * A `return` in the body ends the call with its value, and so does a body
   * that completes; an `exit` goes on unwinding past the call.
   */
  lemma ReturnEndsCall(u: Udf, params: seq<Expr>, t: Expect, f: Frame, k: nat)
    requires |u.args| == |params|
    ensures var s0 := CopyIn(u.globals, Frames(f.locals, map[], f.host));
            var bound := BindArgs(u.args, params, 0, s0, k);
            bound.Bound? ==>
              var b := Eval(u.body, t, bound.s.Callee(), k);
              var r := CallUdf(u, params, t, f, k);
              (b.flow.Ret? || b.flow.Val? ==> r.flow == Val(b.flow.v))
              && (b.flow.Exited? ==> r.flow == b.flow)
              && (b.flow.Thrown? ==> r.flow == b.flow)
              && (b.flow.Error? && b.flow.err.InternalErr? ==> r.flow == Error(ExprErr(b.flow.err.msg)))
  {
  }

  // ---------------------------------------------------------------------
  // The top level

  /** An uncaught `exit`, `return` or `throw` gives its value; the internal errors get their fixed texts. */
  lemma EvalValueOutcomes(e: Expr, f: Frame, fuel: nat)
    ensures var run := Eval(e, NONE, f, fuel);
            var r := EvalValue(e, f, fuel).0;
            (run.flow.Val? || run.flow.Ret? || run.flow.Thrown? || run.flow.Exited? ==> r == Ok(run.flow.v))
            && (run.flow == Error(Crash(STACK_OVERFLOW)) ==> r == Fail(ExprErr("Your thoughts are too deep")))
            && (run.flow.Error? && run.flow.err.InternalErr? ==>
                  r == Fail(ExprErr("Your expression result is incorrect:" + run.flow.err.msg)))
  {
  }

  /** Evaluation needs fuel: with none left it is a stack overflow. */
  lemma NoFuelOverflows(e: Expr, t: Expect, f: Frame)
    ensures EvalValue(e, f, 0).0 == Fail(ExprErr("Your thoughts are too deep"))
  {
  }
}
