/**
 * The script server (`ScarpetScriptServer`: the global host, the named
 * module hosts, the event server) and the event server
 * (`ScarpetEventServer`: per-event callback lists and the countdown queue of
 * scheduled calls).  The event server reaches the script server through a
 * global in the source; here it is handed the script server explicitly.
 *
 * Hosts are held by the script server as their tables (`Scope.Tables`), and
 * a callback list as a value in the event map; running a callback is
 * `ScriptHost.callUDF` as `Hosts.CallbackSpec` describes it.
 */
module Servers {
  import opened Values
  import opened Ast
  import opened Scope
  import Hosts

  // ---------------------------------------------------------------------
  // Callbacks and their printed form

  /** `Callback`: a function of a host; no host is the global host. */
  datatype Callback = Callback(host: Option<string>, udf: string)

  /** `Callback.toString`: `udf`, then `(from host)` when there is a host. */
  function CallbackText(c: Callback): string {
    c.udf + (if c.host.None? then "" else "(from " + c.host.value + ")")
  }

  /** A character of the regular-expression class `\w`. */
  predicate IsWordChar(c: char) {
    ('a' <= c <= 'z') || ('A' <= c <= 'Z') || ('0' <= c <= '9') || c == '_'
  }

  /** `\w+`. */
  predicate IsWord(s: string) {
    |s| > 0 && forall i :: 0 <= i < |s| ==> IsWordChar(s[i])
  }

  const FROM := "(from "

  /** Where the first `(` of `s` is, if anywhere. */
  function ParenIndex(s: string): (r: Option<nat>)
    ensures r.None? ==> '(' !in s
    ensures r.Some? ==> r.value < |s| && s[r.value] == '(' && '(' !in s[..r.value]
    decreases |s|
  {
    if s == [] then None
    else if s[0] == '(' then Some(0)
    else
      var rest := ParenIndex(s[1..]);
      if rest.None? then None
      else
        assert s[..rest.value + 1] == [s[0]] + s[1..][..rest.value];
        Some(rest.value + 1)
  }

  /**
   * `decodeCallback`: a whole match of `(\w+)\(from (\w+)\)` names the
   * function and its host; anything else is a host-less function named by
   * the whole text.  Since `\w` has no `(`, the function's name runs up to
   * the first `(`.
   */
  function DecodeCallback(s: string): (r: Callback)
    ensures r.host.Some? ==> IsWord(r.host.value) && IsWord(r.udf)
    ensures r.host.None? ==> r.udf == s
  {
    var p := ParenIndex(s);
    if p.None? then Callback(None, s)
    else
      var udf, rest := s[..p.value], s[p.value..];
      if |rest| >= |FROM| + 2 && rest[..|FROM|] == FROM && rest[|rest| - 1] == ')'
         && IsWord(udf) && IsWord(rest[|FROM|..|rest| - 1])
      then Callback(Some(rest[|FROM|..|rest| - 1]), udf)
      else Callback(None, s)
  }

  /** Printing a decoded text gives the text back. */
  lemma DecodePrints(s: string)
    ensures CallbackText(DecodeCallback(s)) == s
  {
    var r := DecodeCallback(s);
    if r.host.Some? {
      var p := ParenIndex(s).value;
      var rest := s[p..];
      assert rest == rest[..|FROM|] + rest[|FROM|..|rest| - 1] + [rest[|rest| - 1]];
      assert s == s[..p] + rest;
    }
  }

  /** The first `(` is found where it is. */
  lemma {:induction false} ParenIndexAt(s: string, k: nat)
    requires k < |s| && s[k] == '(' && '(' !in s[..k]
    ensures ParenIndex(s) == Some(k)
    decreases |s|
  {
    if k > 0 {
      assert s[0] == s[..k][0];
      assert s[1..][..k - 1] == s[..k][1..];
      ParenIndexAt(s[1..], k - 1);
    }
  }

  /** A word has no `(`. */
  lemma WordHasNoParen(u: string)
    requires IsWord(u)
    ensures '(' !in u
  {
    forall i | 0 <= i < |u|
      ensures u[i] != '('
    {
      assert IsWordChar(u[i]);
    }
  }

  /** Decoding the printed form of a callback with word names gives the callback back. */
  lemma DecodeOfText(c: Callback)
    requires IsWord(c.udf) && (c.host.Some? ==> IsWord(c.host.value))
    ensures DecodeCallback(CallbackText(c)) == c
  {
    var s := CallbackText(c);
    WordHasNoParen(c.udf);
    if c.host.Some? {
      var h := c.host.value;
      assert s == c.udf + FROM + h + ")";
      assert s[..|c.udf|] == c.udf;
      ParenIndexAt(s, |c.udf|);
      var rest := s[|c.udf|..];
      assert rest == FROM + h + ")";
      assert rest[|FROM|..|rest| - 1] == h;
    }
  }

  // ---------------------------------------------------------------------
  // Running a function of a host by name

  /** The hosts of a script server: the global host and the named modules. */
  datatype Scripts = Scripts(globalHost: Tables, modules: map<string, Tables>)

  /** `getHostByName`: no name is the global host; a name is looked up among the modules. */
  function HostByName(w: Scripts, name: Option<string>): (r: Option<Tables>)
    ensures r.Some? <==> name.None? || name.value in w.modules
    ensures name.None? ==> r == Some(w.globalHost)
  {
    if name.None? then Some(w.globalHost)
    else if name.value in w.modules then Some(w.modules[name.value])
    else None
  }

  /** The hosts with the named one's tables replaced. */
  function Stored(w: Scripts, name: Option<string>, host: Tables): Scripts {
    if name.None? then w.(globalHost := host) else w.(modules := w.modules[name.value := host])
  }

  /**
   * `runas`: call the host's function through `callUDF`.  A missing host or
   * function is a NullPointerException, and a wrong argument count an
   * InvalidCallbackException; both, and any NullPointerException the call
   * itself throws, answer false.  Other exceptions escape.
   */
  function RunasSpec(w: Scripts, hostName: Option<string>, udf: string, argv: seq<Expr>, fuel: nat): (r: (Res<bool>, Scripts))
    ensures r.1.modules.Keys == w.modules.Keys
    ensures r.0 == Ok(true) ==> HostByName(w, hostName).Some? && udf in HostByName(w, hostName).value.functions
                                && |argv| == |HostByName(w, hostName).value.functions[udf].args|
  {
    match HostByName(w, hostName)
    case None => (Ok(false), w)
    case Some(host) =>
      if udf !in host.functions then (Ok(false), w)
      else
        var (res, host') := Hosts.CallbackSpec(host, host.functions[udf], argv, fuel);
        var w' := Stored(w, hostName, host');
        if res.Ok? then (Ok(true), w')
        else if res.err == InvalidCallback || res.err == Crash("NullPointerException") then (Ok(false), w')
        else (Fail(res.err), w')
  }

  /** A call to a missing host or function, or with the wrong number of arguments, answers false and runs nothing. */
  lemma RunasRefuses(w: Scripts, hostName: Option<string>, udf: string, argv: seq<Expr>, fuel: nat)
    requires HostByName(w, hostName).None? || udf !in HostByName(w, hostName).value.functions
             || |argv| != |HostByName(w, hostName).value.functions[udf].args|
    ensures RunasSpec(w, hostName, udf, argv, fuel) == (Ok(false), w)
  {
    if HostByName(w, hostName).Some? && udf in HostByName(w, hostName).value.functions {
      var host := HostByName(w, hostName).value;
      assert Hosts.CallbackSpec(host, host.functions[udf], argv, fuel) == (Fail(InvalidCallback), host);
      if hostName.Some? {
        assert w.modules[hostName.value := host] == w.modules;
      }
    }
  }

  /** A run touches only the host it names. */
  lemma RunasTouchesItsHost(w: Scripts, hostName: Option<string>, udf: string, argv: seq<Expr>, fuel: nat)
    ensures var w' := RunasSpec(w, hostName, udf, argv, fuel).1;
            (hostName.Some? ==> w'.globalHost == w.globalHost)
            && forall n :: n in w.modules && Some(n) != hostName ==> w'.modules[n] == w.modules[n]
  {
  }

  // ---------------------------------------------------------------------
  // Callback lists

  /** Java's `equalsIgnoreCase`, on ASCII letters. */
  predicate SameIgnoringCase(a: string, b: string) {
    LowerAscii(a) == LowerAscii(b)
  }

  /**
   * The `removeIf` test of `removeEventCall` on one callback: same function
   * ignoring case, and same host ignoring case unless no host is given.  A
   * host-less callback compared with a host name dereferences its null host.
   */
  function Doomed(c: Callback, hostName: Option<string>, callName: string): (r: Res<bool>)
    ensures r.Fail? <==> SameIgnoringCase(c.udf, callName) && hostName.Some? && c.host.None?
  {
    if !SameIgnoringCase(c.udf, callName) then Ok(false)
    else if hostName.None? then Ok(true)
    else if c.host.None? then Fail(Crash("NullPointerException"))
    else Ok(SameIgnoringCase(c.host.value, hostName.value))
  }

  /** The callbacks `removeIf` keeps; a test that throws leaves the list as it was and escapes. */
  function Survivors(calls: seq<Callback>, hostName: Option<string>, callName: string): (r: Res<seq<Callback>>)
    ensures r.Ok? ==> |r.v| <= |calls|
    decreases |calls|
  {
    if calls == [] then Ok([])
    else
      match Doomed(calls[0], hostName, callName)
      case Fail(e) => Fail(e)
      case Ok(doomed) =>
        match Survivors(calls[1..], hostName, callName)
        case Fail(e) => Fail(e)
        case Ok(rest) => Ok((if doomed then [] else [calls[0]]) + rest)
  }

  /** Removal throws exactly when the test throws on some callback. */
  lemma {:induction false} SurvivorsFail(calls: seq<Callback>, hostName: Option<string>, callName: string)
    ensures Survivors(calls, hostName, callName).Fail? <==> exists i :: 0 <= i < |calls| && Doomed(calls[i], hostName, callName).Fail?
    decreases |calls|
  {
    if calls != [] {
      SurvivorsFail(calls[1..], hostName, callName);
      if Survivors(calls, hostName, callName).Fail? {
        if Doomed(calls[0], hostName, callName).Ok? {
          var i :| 0 <= i < |calls[1..]| && Doomed(calls[1..][i], hostName, callName).Fail?;
          assert calls[i + 1] == calls[1..][i];
        }
      } else {
        forall i | 0 <= i < |calls|
          ensures Doomed(calls[i], hostName, callName).Ok?
        {
          if i > 0 {
            assert calls[i] == calls[1..][i - 1];
          }
        }
      }
    }
  }

  /** A removal that does not throw keeps exactly the callbacks that do not match. */
  lemma {:induction false} SurvivorsMembers(calls: seq<Callback>, hostName: Option<string>, callName: string)
    requires Survivors(calls, hostName, callName).Ok?
    ensures forall c :: c in Survivors(calls, hostName, callName).v <==> c in calls && Doomed(c, hostName, callName) == Ok(false)
    decreases |calls|
  {
    if calls != [] {
      SurvivorsMembers(calls[1..], hostName, callName);
      assert calls == [calls[0]] + calls[1..];
    }
  }

  /**
   * Removal keeps exactly the callbacks that do not match; it fails exactly
   * when some host-less callback has the function's name and a host name is
   * given.
   */
  lemma SurvivorsKeep(calls: seq<Callback>, hostName: Option<string>, callName: string)
    ensures Survivors(calls, hostName, callName).Fail? <==> exists i :: 0 <= i < |calls| && Doomed(calls[i], hostName, callName).Fail?
    ensures Survivors(calls, hostName, callName).Ok? ==>
              forall c :: c in Survivors(calls, hostName, callName).v <==> c in calls && Doomed(c, hostName, callName) == Ok(false)
  {
    SurvivorsFail(calls, hostName, callName);
    if Survivors(calls, hostName, callName).Ok? {
      SurvivorsMembers(calls, hostName, callName);
    }
  }

  /**
   * `CallbackList`: the callbacks of one event, and the number of
   * arguments their functions must take.
   */
  datatype CallbackList = CallbackList(callList: seq<Callback>, reqArgs: int)

  /**
   * `removeEventCall`: the callbacks that do not match stay, and the
   * removal throws exactly when the test throws on some callback.
   */
  function RemoveEventCall(list: CallbackList, hostName: Option<string>, callName: string): (r: Res<CallbackList>)
    ensures r.Fail? <==> exists i :: 0 <= i < |list.callList| && Doomed(list.callList[i], hostName, callName).Fail?
    ensures r.Ok? ==> r.v.reqArgs == list.reqArgs
                      && forall c :: c in r.v.callList <==> c in list.callList && Doomed(c, hostName, callName) == Ok(false)
  {
    SurvivorsKeep(list.callList, hostName, callName);
    match Survivors(list.callList, hostName, callName)
    case Fail(e) => Fail(e)
    case Ok(kept) => Ok(list.(callList := kept))
  }

  /**
   * `addEventCall`: a function of a known host taking `reqArgs`
   * arguments replaces its earlier entries and goes last; otherwise the
   * answer is false and nothing changes.
   */
  function AddEventCall(list: CallbackList, w: Scripts, hostName: Option<string>, funName: string): (r: (Res<bool>, CallbackList))
    ensures r.0 != Ok(true) ==> r.1 == list
    ensures r.0 == Ok(true) ==> HostByName(w, hostName).Some? && funName in HostByName(w, hostName).value.functions
                                && |HostByName(w, hostName).value.functions[funName].args| == list.reqArgs
  {
    match HostByName(w, hostName)
    case None => (Ok(false), list)
    case Some(host) =>
      if funName !in host.functions || |host.functions[funName].args| != list.reqArgs then (Ok(false), list)
      else
        match RemoveEventCall(list, hostName, funName)
        case Fail(e) => (Fail(e), list)
        case Ok(kept) => (Ok(true), kept.(callList := kept.callList + [Callback(hostName, funName)]))
  }

  /** After a successful `addEventCall` the new callback is last and appears nowhere else in the list. */
  lemma AddEventCallOnce(list: CallbackList, w: Scripts, hostName: Option<string>, funName: string)
    requires AddEventCall(list, w, hostName, funName).0 == Ok(true)
    ensures var calls := AddEventCall(list, w, hostName, funName).1.callList;
            var c := Callback(hostName, funName);
            |calls| >= 1 && calls[|calls| - 1] == c && c !in calls[..|calls| - 1]
            && forall d :: d in calls[..|calls| - 1] <==> d in list.callList && Doomed(d, hostName, funName) == Ok(false)
  {
    var c := Callback(hostName, funName);
    SurvivorsKeep(list.callList, hostName, funName);
    var kept := Survivors(list.callList, hostName, funName).v;
    var calls := AddEventCall(list, w, hostName, funName).1.callList;
    assert calls == kept + [c];
    assert calls[..|calls| - 1] == kept;
    assert Doomed(c, hostName, funName) == Ok(true);
  }

  /** A callback added and then removed by its printed name is gone, unless the removal throws. */
  lemma RemoveByText(list: CallbackList, c: Callback)
    requires IsWord(c.udf) && (c.host.Some? ==> IsWord(c.host.value))
    requires c in list.callList
    ensures var d := DecodeCallback(CallbackText(c));
            RemoveEventCall(list, d.host, d.udf).Ok? ==> c !in RemoveEventCall(list, d.host, d.udf).v.callList
  {
    DecodeOfText(c);
    SurvivorsKeep(list.callList, c.host, c.udf);
  }

  /**
   * `CallbackList.call` as `removeIf` runs it: every callback is run in
   * order and kept only when `runas` answers true; an escaping exception
   * leaves the list as it was, with the hosts as the calls so far left them.
   */
  function CallAll(w: Scripts, calls: seq<Callback>, argv: seq<Expr>, fuel: nat): (r: (Res<seq<Callback>>, Scripts))
    ensures r.1.modules.Keys == w.modules.Keys
    ensures r.0.Ok? ==> |r.0.v| <= |calls|
    decreases |calls|
  {
    if calls == [] then (Ok([]), w)
    else
      var (ok, w1) := RunasSpec(w, calls[0].host, calls[0].udf, argv, fuel);
      if ok.Fail? then (Fail(ok.err), w1)
      else
        var (rest, w2) := CallAll(w1, calls[1..], argv, fuel);
        if rest.Fail? then (Fail(rest.err), w2)
        else (Ok((if ok.v then [calls[0]] else []) + rest.v), w2)
  }

  /** The callbacks a call keeps are among those it had, and each names the global host or a module. */
  lemma {:induction false} CallAllKeeps(w: Scripts, calls: seq<Callback>, argv: seq<Expr>, fuel: nat)
    requires CallAll(w, calls, argv, fuel).0.Ok?
    ensures forall c :: c in CallAll(w, calls, argv, fuel).0.v ==>
              c in calls && (c.host.None? || c.host.value in w.modules)
    decreases |calls|
  {
    if calls != [] {
      var (ok, w1) := RunasSpec(w, calls[0].host, calls[0].udf, argv, fuel);
      CallAllKeeps(w1, calls[1..], argv, fuel);
    }
  }

  /** `Prepend(kept, r)`: the callbacks kept so far ahead of what the rest of a call keeps. */
  function Prepend(kept: seq<Callback>, r: Res<seq<Callback>>): Res<seq<Callback>> {
    if r.Fail? then r else Ok(kept + r.v)
  }

  // ---------------------------------------------------------------------
  // Scheduled calls

  /** `ScheduledCall`: a callback with its arguments and the ticks left before it runs. */
  datatype ScheduledCall = ScheduledCall(host: Option<string>, udf: string, args: seq<Expr>, dueTime: int)

  /** The calls that fall due on a tick: those whose decremented time is not positive, in queue order. */
  function Due(calls: seq<ScheduledCall>): seq<ScheduledCall>
    decreases |calls|
  {
    if calls == [] then []
    else
      var last := calls[|calls| - 1].(dueTime := calls[|calls| - 1].dueTime - 1);
      Due(calls[..|calls| - 1]) + (if last.dueTime <= 0 then [last] else [])
  }

  /** The calls that stay queued after a tick, decremented, in queue order. */
  function Pending(calls: seq<ScheduledCall>): seq<ScheduledCall>
    decreases |calls|
  {
    if calls == [] then []
    else
      var last := calls[|calls| - 1].(dueTime := calls[|calls| - 1].dueTime - 1);
      Pending(calls[..|calls| - 1]) + (if last.dueTime > 0 then [last] else [])
  }

  /** Taking one off a call's time and adding it back are inverse. */
  lemma TockInverse(c: ScheduledCall, x: ScheduledCall)
    ensures c.(dueTime := c.dueTime + 1) == x <==> c == x.(dueTime := x.dueTime - 1)
  {
  }

  /** A tick loses no call: each is either due or still pending. */
  lemma {:induction false} TickCounts(calls: seq<ScheduledCall>)
    ensures |Due(calls)| + |Pending(calls)| == |calls|
    decreases |calls|
  {
    if calls != [] {
      TickCounts(calls[..|calls| - 1]);
    }
  }

  /** A call falls due on a tick exactly when its time was at most 1. */
  lemma {:induction false} DueCalls(calls: seq<ScheduledCall>)
    ensures forall c :: c in Due(calls) <==> c.dueTime <= 0 && c.(dueTime := c.dueTime + 1) in calls
    decreases |calls|
  {
    if calls != [] {
      var init, x := calls[..|calls| - 1], calls[|calls| - 1];
      DueCalls(init);
      assert calls == init + [x];
      forall c: ScheduledCall {
        TockInverse(c, x);
      }
    }
  }

  /** A call stays queued after a tick exactly when its time was more than 1, and it is then one less. */
  lemma {:induction false} PendingCalls(calls: seq<ScheduledCall>)
    ensures forall c :: c in Pending(calls) <==> c.dueTime > 0 && c.(dueTime := c.dueTime + 1) in calls
    decreases |calls|
  {
    if calls != [] {
      var init, x := calls[..|calls| - 1], calls[|calls| - 1];
      PendingCalls(init);
      assert calls == init + [x];
      forall c: ScheduledCall {
        TockInverse(c, x);
      }
    }
  }

  /** The scheduled calls of one tick run in order; `runas`'s answer is ignored and an exception stops the rest. */
  function RunCalls(w: Scripts, calls: seq<ScheduledCall>, fuel: nat): (r: (Res<()>, Scripts))
    ensures r.1.modules.Keys == w.modules.Keys
    decreases |calls|
  {
    if calls == [] then (Ok(()), w)
    else
      var (ok, w1) := RunasSpec(w, calls[0].host, calls[0].udf, calls[0].args, fuel);
      if ok.Fail? then (Fail(ok.err), w1) else RunCalls(w1, calls[1..], fuel)
  }

  // ---------------------------------------------------------------------
  // Registering a host's event handlers

  const ON_PREFIX := "__on_"

  /**
   * The loop of `addEvents` over the host's functions, in the order
   * `order` its key set yields them: each `__on_<event>` function with a
   * handler list for `<event>` is added to it.
   */
  function AddFrom(handlers: map<string, CallbackList>, w: Scripts, hostName: string, order: seq<string>)
    : (r: (Res<()>, map<string, CallbackList>))
    ensures r.1.Keys == handlers.Keys
    decreases |order|
  {
    if order == [] then (Ok(()), handlers)
    else
      var fun := order[0];
      if !(ON_PREFIX <= fun) || fun[|ON_PREFIX|..] !in handlers then AddFrom(handlers, w, hostName, order[1..])
      else
        var event := fun[|ON_PREFIX|..];
        var (added, list) := AddEventCall(handlers[event], w, Some(hostName), fun);
        if added.Fail? then (Fail(added.err), handlers)
        else AddFrom(handlers[event := list], w, hostName, order[1..])
  }

  /** The event an `__on_` function handles. */
  function EventOf(fun: string): string
    requires ON_PREFIX <= fun
  {
    fun[|ON_PREFIX|..]
  }

  /** Events that no function of `order` handles keep their lists. */
  lemma {:induction false} AddFromKeepsOthers(handlers: map<string, CallbackList>, w: Scripts, hostName: string, order: seq<string>, e: string)
    requires e in handlers
    requires forall i :: 0 <= i < |order| && ON_PREFIX <= order[i] ==> EventOf(order[i]) != e
    ensures AddFrom(handlers, w, hostName, order).1[e] == handlers[e]
    decreases |order|
  {
    if order != [] {
      var fun := order[0];
      forall i | 0 <= i < |order[1..]| && ON_PREFIX <= order[1..][i]
        ensures EventOf(order[1..][i]) != e
      {
        assert order[1..][i] == order[i + 1];
      }
      if !(ON_PREFIX <= fun) || fun[|ON_PREFIX|..] !in handlers {
        AddFromKeepsOthers(handlers, w, hostName, order[1..], e);
      } else {
        var event := fun[|ON_PREFIX|..];
        var (added, list) := AddEventCall(handlers[event], w, Some(hostName), fun);
        if added.Ok? {
          AddFromKeepsOthers(handlers[event := list], w, hostName, order[1..], e);
        }
      }
    }
  }

  /**
   * When `addEvents` completes, every `__on_<event>` function of the host
   * that has a handler list and takes the list's number of arguments is in
   * that list, once.
   */
  lemma {:induction false} AddFromRegisters(handlers: map<string, CallbackList>, w: Scripts, hostName: string, order: seq<string>)
    requires hostName in w.modules
    requires forall i, j :: 0 <= i < j < |order| ==> order[i] != order[j]
    requires AddFrom(handlers, w, hostName, order).0.Ok?
    ensures forall fun :: fun in order && ON_PREFIX <= fun && EventOf(fun) in handlers
              && fun in w.modules[hostName].functions
              && |w.modules[hostName].functions[fun].args| == handlers[EventOf(fun)].reqArgs
              ==> Callback(Some(hostName), fun) in AddFrom(handlers, w, hostName, order).1[EventOf(fun)].callList
    decreases |order|
  {
    if order != [] {
      var fun := order[0];
      var rest := order[1..];
      assert forall i, j :: 0 <= i < j < |rest| ==> rest[i] != rest[j] by {
        forall i, j | 0 <= i < j < |rest|
          ensures rest[i] != rest[j]
        {
          assert rest[i] == order[i + 1] && rest[j] == order[j + 1];
        }
      }
      if !(ON_PREFIX <= fun) || fun[|ON_PREFIX|..] !in handlers {
        AddFromRegisters(handlers, w, hostName, rest);
        assert forall f :: f in order && f != fun ==> f in rest;
      } else {
        var event := EventOf(fun);
        var (added, list) := AddEventCall(handlers[event], w, Some(hostName), fun);
        var handlers' := handlers[event := list];
        AddFromRegisters(handlers', w, hostName, rest);
        assert forall f :: f in order && f != fun ==> f in rest;
        if fun in w.modules[hostName].functions && |w.modules[hostName].functions[fun].args| == handlers[event].reqArgs {
          AddEventCallOnce(handlers[event], w, Some(hostName), fun);
          forall i | 0 <= i < |rest| && ON_PREFIX <= rest[i]
            ensures EventOf(rest[i]) != event
          {
            assert rest[i] == order[i + 1] && order[0] != order[i + 1];
            assert rest[i] == ON_PREFIX + EventOf(rest[i]) && fun == ON_PREFIX + event;
          }
          AddFromKeepsOthers(handlers', w, hostName, rest, event);
        }
      }
    }
  }

  // ---------------------------------------------------------------------
  // The servers

  /** `ScarpetEventServer`. */
  class EventServer {
    var eventHandlers: map<string, CallbackList>
    var scheduledCalls: seq<ScheduledCall>

    /** A new event server has no handler lists and nothing scheduled. */
    constructor ()
      ensures eventHandlers == map[] && scheduledCalls == []
    {
      eventHandlers := map[];
      scheduledCalls := [];
    }

    /** `scheduleCall`: the call joins the end of the queue. */
    method ScheduleCall(host: Option<string>, udf: string, args: seq<Expr>, due: int)
      modifies this
      ensures scheduledCalls == old(scheduledCalls) + [ScheduledCall(host, udf, args, due)]
      ensures eventHandlers == old(eventHandlers)
    {
      scheduledCalls := scheduledCalls + [ScheduledCall(host, udf, args, due)];
    }

    /**
     * `tick`: take one off every scheduled call's time, take out those that
     * fall due, keeping the rest in order, then run the due ones in order.
     */
    method Tick(server: ScriptServer, fuel: nat) returns (r: Res<()>)
      modifies this, server
      ensures scheduledCalls == Pending(old(scheduledCalls)) && eventHandlers == old(eventHandlers)
      ensures (r, server.State()) == RunCalls(old(server.State()), Due(old(scheduledCalls)), fuel)
    {
      var calls := scheduledCalls;
      var current: seq<ScheduledCall> := [];
      var pending: seq<ScheduledCall> := [];
      for i := 0 to |calls|
        invariant current == Due(calls[..i]) && pending == Pending(calls[..i])
      {
        assert calls[..i + 1][..i] == calls[..i];
        var call := calls[i].(dueTime := calls[i].dueTime - 1);
        if call.dueTime <= 0 {
          current := current + [call];
        } else {
          pending := pending + [call];
        }
      }
      assert calls[..|calls|] == calls;
      scheduledCalls := pending;
      ghost var w0 := server.State();
      for i := 0 to |current|
        invariant scheduledCalls == pending && eventHandlers == old(eventHandlers)
        invariant RunCalls(w0, current, fuel) == RunCalls(server.State(), current[i..], fuel)
      {
        assert current[i..][1..] == current[i + 1..];
        var ok := server.Runas(current[i].host, current[i].udf, current[i].args, fuel);
        if ok.Fail? {
          return Fail(ok.err);
        }
      }
      r := Ok(());
    }

    /** `addEvent`: false for an event without a handler list; otherwise that list's `addEventCall`. */
    method AddEvent(event: string, host: Option<string>, funName: string, server: ScriptServer) returns (r: Res<bool>)
      modifies this
      ensures scheduledCalls == old(scheduledCalls) && eventHandlers.Keys == old(eventHandlers).Keys
      ensures event !in old(eventHandlers) ==> r == Ok(false) && eventHandlers == old(eventHandlers)
      ensures event in old(eventHandlers) ==>
                var (added, list) := AddEventCall(old(eventHandlers)[event], server.State(), host, funName);
                r == added && eventHandlers == old(eventHandlers)[event := list]
    {
      if event !in eventHandlers {
        return Ok(false);
      }
      var added, list := AddEventCall(eventHandlers[event], server.State(), host, funName).0,
                         AddEventCall(eventHandlers[event], server.State(), host, funName).1;
      eventHandlers := eventHandlers[event := list];
      r := added;
    }

    /**
     * `removeEvent`: false for an event without a handler list; otherwise
     * the callbacks matching the decoded name are removed and the answer is
     * true.
     */
    method RemoveEvent(event: string, funName: string) returns (r: Res<bool>)
      modifies this
      ensures scheduledCalls == old(scheduledCalls) && eventHandlers.Keys == old(eventHandlers).Keys
      ensures event !in old(eventHandlers) ==> r == Ok(false) && eventHandlers == old(eventHandlers)
      ensures event in old(eventHandlers) ==>
                var c := DecodeCallback(funName);
                var removed := RemoveEventCall(old(eventHandlers)[event], c.host, c.udf);
                (removed.Fail? ==> r == Fail(removed.err) && eventHandlers == old(eventHandlers))
                && (removed.Ok? ==> r == Ok(true) && eventHandlers == old(eventHandlers)[event := removed.v])
    {
      if event !in eventHandlers {
        return Ok(false);
      }
      var callback := DecodeCallback(funName);
      var removed := RemoveEventCall(eventHandlers[event], callback.host, callback.udf);
      if removed.Fail? {
        return Fail(removed.err);
      }
      eventHandlers := eventHandlers[event := removed.v];
      r := Ok(true);
    }

    /** `CallbackList.call` on an event's list: run each callback, keep those that succeed. */
    method CallEvent(event: string, server: ScriptServer, argv: seq<Expr>, fuel: nat) returns (r: Res<()>)
      requires event in eventHandlers
      modifies this, server
      ensures scheduledCalls == old(scheduledCalls)
      ensures var (kept, w) := CallAll(old(server.State()), old(eventHandlers)[event].callList, argv, fuel);
              server.State() == w
              && (kept.Fail? ==> r == Fail(kept.err) && eventHandlers == old(eventHandlers))
              && (kept.Ok? ==> r == Ok(()) && eventHandlers == old(eventHandlers)[event := old(eventHandlers)[event].(callList := kept.v)])
    {
      var list := eventHandlers[event];
      var calls := list.callList;
      if |calls| == 0 {
        assert eventHandlers[event := list.(callList := [])] == eventHandlers;
        return Ok(());
      }
      ghost var w0 := server.State();
      var kept: seq<Callback> := [];
      assert calls[0..] == calls;
      assert Prepend([], CallAll(w0, calls, argv, fuel).0) == CallAll(w0, calls, argv, fuel).0 by {
        if CallAll(w0, calls, argv, fuel).0.Ok? {
          assert [] + CallAll(w0, calls, argv, fuel).0.v == CallAll(w0, calls, argv, fuel).0.v;
        }
      }
      for i := 0 to |calls|
        invariant eventHandlers == old(eventHandlers) && scheduledCalls == old(scheduledCalls)
        invariant CallAll(w0, calls, argv, fuel).0 == Prepend(kept, CallAll(server.State(), calls[i..], argv, fuel).0)
        invariant CallAll(w0, calls, argv, fuel).1 == CallAll(server.State(), calls[i..], argv, fuel).1
      {
        assert calls[i..][1..] == calls[i + 1..];
        ghost var ws := server.State();
        var ok := server.Runas(calls[i].host, calls[i].udf, argv, fuel);
        if ok.Fail? {
          return Fail(ok.err);
        }
        var step := if ok.v then [calls[i]] else [];
        ghost var rest := CallAll(server.State(), calls[i + 1..], argv, fuel).0;
        assert CallAll(ws, calls[i..], argv, fuel).0 == if rest.Fail? then rest else Ok(step + rest.v);
        if rest.Ok? {
          assert kept + (step + rest.v) == (kept + step) + rest.v;
        }
        kept := kept + step;
      }
      assert kept + [] == kept;
      eventHandlers := eventHandlers[event := list.(callList := kept)];
      r := Ok(());
    }
  }

  /** `ScarpetScriptServer`. */
  class ScriptServer {
    var globalHost: Tables
    var modules: map<string, Tables>
    const events: EventServer

    /** The hosts, as the event server's calls see them. */
    function State(): Scripts
      reads this
    {
      Scripts(globalHost, modules)
    }

    /** A new server: a fresh global host, no modules, an empty event server. */
    constructor ()
      ensures globalHost == Tables(Hosts.Seeded(), map[]) && modules == map[]
      ensures fresh(events) && events.eventHandlers == map[] && events.scheduledCalls == []
    {
      globalHost := Tables(Hosts.Seeded(), map[]);
      modules := map[];
      events := new EventServer();
    }

    /** `getHostByName`. */
    function GetHostByName(name: Option<string>): (r: Option<Tables>)
      reads this
      ensures r == HostByName(State(), name)
    {
      if name.None? then Some(globalHost)
      else if name.value in modules then Some(modules[name.value])
      else None
    }

    /**
     * `addEvents`: for a known host, add each of its `__on_<event>`
     * functions to the handler list of `<event>`, when there is one.
     * `order` is the order in which the host's function table yields its
     * names.
     */
    method AddEvents(hostName: string, order: seq<string>) returns (r: Res<()>)
      requires hostName in modules ==> forall f :: f in order <==> f in modules[hostName].functions
      modifies events
      ensures events.scheduledCalls == old(events.scheduledCalls)
      ensures hostName !in modules ==> r == Ok(()) && events.eventHandlers == old(events.eventHandlers)
      ensures hostName in modules ==> (r, events.eventHandlers) == AddFrom(old(events.eventHandlers), State(), hostName, order)
    {
      if hostName !in modules {
        return Ok(());
      }
      ghost var h0 := events.eventHandlers;
      for i := 0 to |order|
        invariant events.scheduledCalls == old(events.scheduledCalls)
        invariant AddFrom(h0, State(), hostName, order) == AddFrom(events.eventHandlers, State(), hostName, order[i..])
      {
        assert order[i..][1..] == order[i + 1..];
        var fun := order[i];
        if !(ON_PREFIX <= fun) {
          continue;
        }
        var event := fun[|ON_PREFIX|..];
        if event !in events.eventHandlers {
          continue;
        }
        ghost var before := events.eventHandlers;
        var added := events.AddEvent(event, Some(hostName), fun, this);
        if added.Fail? {
          assert before[event := before[event]] == before;
          assert events.eventHandlers == before;
          return Fail(added.err);
        }
      }
      r := Ok(());
    }

    /** `removeScriptHost`: the name is lower-cased; an unknown host answers false. */
    method RemoveScriptHost(name: string) returns (r: bool)
      modifies this
      ensures globalHost == old(globalHost)
      ensures r == (LowerAscii(name) in old(modules))
      ensures modules == old(modules) - {LowerAscii(name)}
    {
      var key := LowerAscii(name);
      if key !in modules {
        return false;
      }
      modules := modules - {key};
      r := true;
    }

    /** `runas`. */
    method Runas(hostName: Option<string>, udf: string, argv: seq<Expr>, fuel: nat) returns (r: Res<bool>)
      modifies this
      ensures (r, State()) == RunasSpec(old(State()), hostName, udf, argv, fuel)
    {
      var host := GetHostByName(hostName);
      if host.None? || udf !in host.value.functions {
        return Ok(false);
      }
      var (res, host') := Hosts.CallbackSpec(host.value, host.value.functions[udf], argv, fuel);
      if hostName.None? {
        globalHost := host';
      } else {
        modules := modules[hostName.value := host'];
      }
      if res.Ok? {
        return Ok(true);
      }
      if res.err == InvalidCallback || res.err == Crash("NullPointerException") {
        return Ok(false);
      }
      r := Fail(res.err);
    }
  }

  /** A removed host's callbacks answer false from then on, so the next call of their list drops them. */
  lemma RemovedHostRefuses(w: Scripts, name: string, udf: string, argv: seq<Expr>, fuel: nat)
    requires name !in w.modules
    ensures RunasSpec(w, Some(name), udf, argv, fuel) == (Ok(false), w)
  {
  }
}
