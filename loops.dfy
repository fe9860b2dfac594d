/**
 * The loop built-ins of `LoopsAndHigherOrderFunctions` as they run: each
 * works on a Context in place, saving `_` (and `_i` or `_a`), rebinding it on
 * every iteration and putting it back at the end.  The argument and body
 * thunks are evaluated by the interpreter, whose resulting bindings are
 * written back into the context.  Each method is proved to do what the
 * interpreter's definition of that built-in says.
 */
module Loops {
  import opened Values
  import opened Ast
  import opened Scope
  import opened Interp
  import Arith
  import Hosts

  /** Evaluate a thunk in the context, leaving the context as the evaluation left it. */
  method EvalIn(c: Hosts.Context, e: Expr, t: Expect, k: nat) returns (flow: Flow)
    modifies c, c.host
    ensures c.host == old(c.host)
    ensures Run(flow, c.Frame()) == Eval(e, t, old(c.Frame()), k)
  {
    var r := Eval(e, t, c.Frame(), k);
    c.Load(r.frame);
    return r.flow;
  }

  /** `while(cond, limit, expr)`. */
  method While(c: Hosts.Context, args: seq<Expr>, k: nat) returns (r: Flow)
    modifies c, c.host
    ensures c.host == old(c.host)
    ensures Run(r, c.Frame()) == WhileCall(args, old(c.Frame()), k)
  {
    if |args| < 3 {
      return Error(Crash(INDEX_OUT_OF_BOUNDS));
    }
    var l := EvalIn(c, args[1], NONE, k);
    if !l.Val? {
      return l;
    }
    var n := Arith.AsNumber(l.v);
    if n.Fail? {
      return Error(n.err);
    }
    var limit := n.v;
    var condition, expr := args[0], args[2];
    var i := 0;
    var lastOne := NULL;
    var saved := c.GetVariable("_");
    c.SetVariable("_", Fixed(Num(0, Some("_"))));
    ghost var start := c.Frame();
    while i < limit
      invariant c.host == old(c.host)
      invariant WhileFrom(condition, expr, limit, 0, NULL, start, k) == WhileFrom(condition, expr, limit, i, lastOne, c.Frame(), k)
      decreases limit - i
    {
      var b := EvalIn(c, condition, BOOLEAN, k);
      if !b.Val? {
        return b;
      }
      var truth := Truthy(b.v);
      if truth.Fail? {
        return Error(truth.err);
      }
      if !truth.v {
        break;
      }
      var body := EvalIn(c, expr, NONE, k);
      if !body.Val? {
        return body;
      }
      lastOne := body.v;
      i := i + 1;
      c.SetVariable("_", Fixed(Num(i, Some("_"))));
    }
    c.SetVariable("_", saved);
    return Val(lastOne);
  }

  /** `loop(limit, expr, exit)`. */
  method Loop(c: Hosts.Context, args: seq<Expr>, k: nat) returns (r: Flow)
    modifies c, c.host
    ensures c.host == old(c.host)
    ensures Run(r, c.Frame()) == LoopCall(args, old(c.Frame()), k)
  {
    if |args| < 2 || |args| > 3 {
      return Error(InternalErr(AttributeError("loop", |args|)));
    }
    var l := EvalIn(c, args[0], NONE, k);
    if !l.Val? {
      return l;
    }
    var n := Arith.AsNumber(l.v);
    if n.Fail? {
      return Error(n.err);
    }
    var limit := n.v;
    var expr, condition := args[1], OptionalArg(args, 2);
    var i := 0;
    var lastOne := NULL;
    var saved := c.GetVariable("_");
    ghost var start := c.Frame();
    while i < limit
      invariant c.host == old(c.host)
      invariant LoopFrom(expr, condition, limit, 0, NULL, start, k) == LoopFrom(expr, condition, limit, i, lastOne, c.Frame(), k)
      decreases limit - i
    {
      c.SetVariable("_", Fixed(Num(i, Some("_"))));
      var body := EvalIn(c, expr, NONE, k);
      if !body.Val? {
        return body;
      }
      lastOne := body.v;
      if condition.Some? {
        var b := EvalIn(c, condition.value, NONE, k);
        if !b.Val? {
          return b;
        }
        var truth := Truthy(b.v);
        if truth.Fail? {
          return Error(truth.err);
        }
        if truth.v {
          break;
        }
      }
      i := i + 1;
    }
    c.SetVariable("_", saved);
    return Val(lastOne);
  }

  /** Bind `_` to element `i` of the list and `_i` to its index. */
  method BindNext(c: Hosts.Context, item: Value, i: int)
    modifies c, c.host
    ensures c.host == old(c.host)
    ensures c.Frame() == BindElement(old(c.Frame()), item, i)
  {
    c.SetVariable("_", Fixed(WithBound(item, Some("_"))));
    c.SetVariable("_i", Fixed(Num(i, Some("_i"))));
  }

  /** Evaluate the optional exit condition; `stop` says whether to leave the loop. */
  method Exit(c: Hosts.Context, cond: Option<Expr>, k: nat) returns (r: Flow, stop: bool)
    modifies c, c.host
    ensures c.host == old(c.host)
    ensures (Run(r, c.Frame()), stop) == ExitCondition(cond, old(c.Frame()), k)
  {
    if cond.None? {
      return Val(NULL), false;
    }
    var b := EvalIn(c, cond.value, NONE, k);
    if !b.Val? {
      return b, false;
    }
    var truth := Truthy(b.v);
    if truth.Fail? {
      return Error(truth.err), false;
    }
    return Val(NULL), truth.v;
  }

  /** The body of `map`: one result per visited element. */
  method MapLoop(c: Hosts.Context, items: seq<Value>, expr: Expr, cond: Option<Expr>, k: nat) returns (r: Flow)
    modifies c, c.host
    ensures c.host == old(c.host)
    ensures Run(r, c.Frame()) == MapFrom(items, expr, cond, 0, [], old(c.Frame()), k)
  {
    var result: seq<Value> := [];
    var i := 0;
    while i < |items|
      invariant i <= |items|
      invariant c.host == old(c.host)
      invariant MapFrom(items, expr, cond, 0, [], old(c.Frame()), k) == MapFrom(items, expr, cond, i, result, c.Frame(), k)
    {
      BindNext(c, items[i], i);
      var b := EvalIn(c, expr, NONE, k);
      if !b.Val? {
        return b;
      }
      result := result + [b.v];
      var e, stop := Exit(c, cond, k);
      if !e.Val? {
        return e;
      }
      if stop {
        return Val(List(result, false, None));
      }
      i := i + 1;
    }
    return Val(List(result, false, None));
  }

  /** The body of `filter`: the visited elements whose expression is truthy. */
  method FilterLoop(c: Hosts.Context, items: seq<Value>, expr: Expr, cond: Option<Expr>, k: nat) returns (r: Flow)
    modifies c, c.host
    ensures c.host == old(c.host)
    ensures Run(r, c.Frame()) == FilterFrom(items, expr, cond, 0, [], old(c.Frame()), k)
  {
    var result: seq<Value> := [];
    var i := 0;
    while i < |items|
      invariant i <= |items|
      invariant c.host == old(c.host)
      invariant FilterFrom(items, expr, cond, 0, [], old(c.Frame()), k) == FilterFrom(items, expr, cond, i, result, c.Frame(), k)
    {
      BindNext(c, items[i], i);
      var b := EvalIn(c, expr, NONE, k);
      if !b.Val? {
        return b;
      }
      var truth := Truthy(b.v);
      if truth.Fail? {
        return Error(truth.err);
      }
      if truth.v {
        result := result + [items[i]];
      }
      var e, stop := Exit(c, cond, k);
      if !e.Val? {
        return e;
      }
      if stop {
        return Val(List(result, false, None));
      }
      i := i + 1;
    }
    return Val(List(result, false, None));
  }

  /** The body of `first`: the earliest element whose expression is truthy, else null. */
  method FirstLoop(c: Hosts.Context, items: seq<Value>, expr: Expr, k: nat) returns (r: Flow)
    modifies c, c.host
    ensures c.host == old(c.host)
    ensures Run(r, c.Frame()) == FirstFrom(items, expr, 0, old(c.Frame()), k)
  {
    var i := 0;
    while i < |items|
      invariant i <= |items|
      invariant c.host == old(c.host)
      invariant FirstFrom(items, expr, 0, old(c.Frame()), k) == FirstFrom(items, expr, i, c.Frame(), k)
    {
      BindNext(c, items[i], i);
      var b := EvalIn(c, expr, NONE, k);
      if !b.Val? {
        return b;
      }
      var truth := Truthy(b.v);
      if truth.Fail? {
        return Error(truth.err);
      }
      if truth.v {
        return Val(items[i]);
      }
      i := i + 1;
    }
    return Val(NULL);
  }

  /** The body of `all`: false at the first falsy expression, else true. */
  method AllLoop(c: Hosts.Context, items: seq<Value>, expr: Expr, k: nat) returns (r: Flow)
    modifies c, c.host
    ensures c.host == old(c.host)
    ensures Run(r, c.Frame()) == AllFrom(items, expr, 0, old(c.Frame()), k)
  {
    var i := 0;
    while i < |items|
      invariant i <= |items|
      invariant c.host == old(c.host)
      invariant AllFrom(items, expr, 0, old(c.Frame()), k) == AllFrom(items, expr, i, c.Frame(), k)
    {
      BindNext(c, items[i], i);
      var b := EvalIn(c, expr, NONE, k);
      if !b.Val? {
        return b;
      }
      var truth := Truthy(b.v);
      if truth.Fail? {
        return Error(truth.err);
      }
      if !truth.v {
        return Val(FALSE);
      }
      i := i + 1;
    }
    return Val(TRUE);
  }

  /** The body of `for`: how many visited elements have a truthy expression. */
  method ForLoop(c: Hosts.Context, items: seq<Value>, expr: Expr, cond: Option<Expr>, k: nat) returns (r: Flow)
    modifies c, c.host
    ensures c.host == old(c.host)
    ensures Run(r, c.Frame()) == ForFrom(items, expr, cond, 0, 0, old(c.Frame()), k)
  {
    var successful: nat := 0;
    var i := 0;
    while i < |items|
      invariant i <= |items|
      invariant c.host == old(c.host)
      invariant ForFrom(items, expr, cond, 0, 0, old(c.Frame()), k) == ForFrom(items, expr, cond, i, successful, c.Frame(), k)
    {
      BindNext(c, items[i], i);
      var b := EvalIn(c, expr, NONE, k);
      if !b.Val? {
        return b;
      }
      var truth := Truthy(b.v);
      if truth.Fail? {
        return Error(truth.err);
      }
      if truth.v {
        successful := successful + 1;
      }
      var e, stop := Exit(c, cond, k);
      if !e.Val? {
        return e;
      }
      if stop {
        return Val(Num(successful, None));
      }
      i := i + 1;
    }
    return Val(Num(successful, None));
  }

  /** The loop of one element built-in over the evaluated list. */
  method ElementLoopOf(c: Hosts.Context, fn: Builtin, items: seq<Value>, args: seq<Expr>, k: nat) returns (r: Flow)
    requires |args| >= 2
    modifies c, c.host
    ensures c.host == old(c.host)
    ensures Run(r, c.Frame()) == ElementLoop(fn, items, args, old(c.Frame()), k)
  {
    if fn == MapFn {
      r := MapLoop(c, items, args[1], OptionalArg(args, 2), k);
    } else if fn == Filter {
      r := FilterLoop(c, items, args[1], OptionalArg(args, 2), k);
    } else {
      r := SearchOrForLoop(c, fn, items, args, k);
    }
  }

  /** The loops of `first`, `all` and `for`. */
  method SearchOrForLoop(c: Hosts.Context, fn: Builtin, items: seq<Value>, args: seq<Expr>, k: nat) returns (r: Flow)
    requires |args| >= 2 && fn != MapFn && fn != Filter
    modifies c, c.host
    ensures c.host == old(c.host)
    ensures Run(r, c.Frame()) == ElementLoop(fn, items, args, old(c.Frame()), k)
  {
    if fn == First {
      r := FirstLoop(c, items, args[1], k);
    } else if fn == All {
      r := AllLoop(c, items, args[1], k);
    } else {
      r := ForLoop(c, items, args[1], if HasExitCondition(fn) then OptionalArg(args, 2) else None, k);
    }
  }

  /** `map`, `filter`, `first`, `all` and `for`: evaluate the list, run the loop, put `_` and `_i` back. */
  method Elements(c: Hosts.Context, fn: Builtin, args: seq<Expr>, k: nat) returns (r: Flow)
    modifies c, c.host
    ensures c.host == old(c.host)
    ensures Run(r, c.Frame()) == ElementCall(fn, args, old(c.Frame()), k)
  {
    if HasExitCondition(fn) && (|args| < 2 || |args| > 3) {
      return Error(InternalErr(AttributeError(ElementName(fn), |args|)));
    }
    if |args| < 2 {
      return Error(Crash(INDEX_OUT_OF_BOUNDS));
    }
    r := ElementsOnList(c, fn, args, k);
  }

  /** An element built-in whose arguments are counted: evaluate the list, run the loop, put `_` and `_i` back. */
  method ElementsOnList(c: Hosts.Context, fn: Builtin, args: seq<Expr>, k: nat) returns (r: Flow)
    requires |args| >= 2
    modifies c, c.host
    ensures c.host == old(c.host)
    ensures Run(r, c.Frame()) == ElementListCall(fn, args, old(c.Frame()), k)
  {
    var l := EvalIn(c, args[0], NONE, k);
    if !l.Val? {
      return l;
    }
    var list := ListArg(l.v, ElementListMessage(fn), c.Frame());
    if list.Fail? {
      return Error(list.err);
    }
    var items := list.v;
    var savedElement := c.GetVariable("_");
    var savedIndex := c.GetVariable("_i");
    r := ElementLoopOf(c, fn, items, args, k);
    PutBack(c, r, ["_", "_i"], [savedElement, savedIndex]);
  }

  /** After a loop that completed normally, put the saved bindings back. */
  method PutBack(c: Hosts.Context, r: Flow, names: seq<string>, saved: seq<Binding>)
    requires |names| == |saved|
    modifies c, c.host
    ensures c.host == old(c.host)
    ensures Run(r, c.Frame()) == Restore(Run(r, old(c.Frame())), names, saved)
  {
    if !r.Val? {
      return;
    }
    var i := 0;
    while i < |names|
      invariant i <= |names|
      invariant c.host == old(c.host)
      invariant Restore(Run(r, old(c.Frame())), names, saved) == Restore(Run(r, c.Frame()), names[i..], saved[i..])
    {
      c.SetVariable(names[i], saved[i]);
      i := i + 1;
    }
  }

  /** `reduce(list, expr, initial)`: `_a` holds the accumulator, `_` the element. */
  method Reduce(c: Hosts.Context, args: seq<Expr>, k: nat) returns (r: Flow)
    modifies c, c.host
    ensures c.host == old(c.host)
    ensures Run(r, c.Frame()) == ReduceCall(args, old(c.Frame()), k)
  {
    if |args| < 3 {
      return Error(Crash(INDEX_OUT_OF_BOUNDS));
    }
    var a := EvalIn(c, args[2], NONE, k);
    if !a.Val? {
      return a;
    }
    var l := EvalIn(c, args[0], NONE, k);
    if !l.Val? {
      return l;
    }
    var list := ListArg(l.v, "First argument of 'reduce' should be a list or iterator", c.Frame());
    if list.Fail? {
      return Error(list.err);
    }
    var items := list.v;
    if |items| == 0 {
      return a;
    }
    var savedAcc := c.GetVariable("_a");
    var savedElement := c.GetVariable("_");
    var acc := a.v;
    var expr := args[1];
    ghost var start := c.Frame();
    var i := 0;
    while i < |items|
      invariant i <= |items|
      invariant c.host == old(c.host)
      invariant ReduceFrom(items, expr, 0, a.v, start, k) == ReduceFrom(items, expr, i, acc, c.Frame(), k)
    {
      c.SetVariable("_a", Fixed(WithBound(acc, Some("_a"))));
      c.SetVariable("_", Fixed(WithBound(items[i], Some("_"))));
      var b := EvalIn(c, expr, NONE, k);
      if !b.Val? {
        return b;
      }
      acc := b.v;
      i := i + 1;
    }
    c.SetVariable("_a", savedAcc);
    c.SetVariable("_", savedElement);
    return Val(acc);
  }
}
