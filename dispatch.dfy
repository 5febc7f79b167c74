/**
 * The dispatch of one update (`src/Bot.php`, `processUpdate`, `callPipeline`,
 * `executeHandlers`): the middlewares wrap the handler dispatch like the layers of an onion,
 * and the dispatch calls every callable registered for the update's type, in order.
 *
 * What the user's callables do is recorded as a list of events; calling `stop()` clears the
 * `running` flag, and a throw ends the dispatch with the thrown value.
 */
module Dispatch {
  import opened Wrappers
  import opened Enums
  import opened Updates
  import opened Filters

  /** Something the bot's callables, or its polling loop, did that can be observed from outside. */
  datatype Event =
    | Called(handler: string, update: Update, args: Option<seq<string>>)  // a user handler ran
    | Entered(middleware: string)                                          // a middleware began
    | Left(middleware: string)                                             // a middleware returned
    | Polled(timeout: int, marker: Option<int>, types: Option<set<UpdateType>>)  // `getUpdates` was asked
    | Reported(handler: string, failure: Failure)                          // the error handler ran
    | Logged(message: string)                                              // `echo` then `sleep(2)`

  /** The state a dispatch threads along: what happened so far, the `running` flag, and the value being thrown, if any. */
  datatype Run = Run(effects: seq<Event>, running: bool, thrown: Option<Failure>)

  /** `$this->handlers`: the callables registered for each update type, in registration order. */
  type Registry = map<UpdateType, seq<Listener>>

  /** `$this->handlers[$type] ?? []` */
  function Listeners(reg: Registry, t: UpdateType): seq<Listener> {
    if t in reg then reg[t] else []
  }

  /** `$this->handlers[$type->value][] = $handler`: appended after the earlier ones of that type; no other type changes. */
  function Register(reg: Registry, t: UpdateType, l: Listener): (r: Registry)
    ensures Listeners(r, t) == Listeners(reg, t) + [l]
    ensures forall t' | t' != t :: Listeners(r, t') == Listeners(reg, t')
    ensures r.Keys == reg.Keys + {t}
  {
    reg[t := Listeners(reg, t) + [l]]
  }

  /** `call_user_func($handler, $update, $client[, $args])` */
  function CallHandler(h: Handler, u: Update, args: Option<seq<string>>, r: Run): (out: Run)
    requires r.thrown.None?
    ensures out.effects == r.effects + [Called(h.name, u, args)]
    ensures out.running == (r.running && !h.effect.CallsStop?)
    ensures out.thrown == (if h.effect.Throws? then Some(h.effect.failure) else None)
  {
    var called := r.(effects := r.effects + [Called(h.name, u, args)]);
    match h.effect
    case Returns => called
    case CallsStop => called.(running := false)
    case Throws(f) => called.(thrown := Some(f))
  }

  /** Calling one registered callable: its handler runs only if the filter lets the update through. */
  function Invoke(l: Listener, u: Update, matches: Matcher, r: Run): (out: Run)
    requires r.thrown.None?
    ensures Fire(l, u, matches).None? ==> out == r
    ensures Fire(l, u, matches).Some? ==>
      out.effects == r.effects + [Called(Fire(l, u, matches).value.handler.name, u, Fire(l, u, matches).value.args)]
  {
    var c := Fire(l, u, matches);
    if c.None? then r else CallHandler(c.value.handler, u, c.value.args, r)
  }

  /** `executeHandlers`: each callable in turn; a throw leaves the `foreach`. */
  function ExecuteHandlers(ls: seq<Listener>, u: Update, matches: Matcher, r: Run): (out: Run)
    ensures r.effects <= out.effects
    ensures r.thrown.Some? ==> out == r
    decreases |ls|
  {
    if ls == [] || r.thrown.Some? then r
    else ExecuteHandlers(ls[1..], u, matches, Invoke(ls[0], u, matches, r))
  }

  /** The handler calls a run of `ls` on `u` makes when nothing throws: one per callable whose filter passes, in order. */
  function CallEvents(ls: seq<Listener>, u: Update, matches: Matcher): seq<Event>
    decreases |ls|
  {
    if ls == [] then []
    else
      var c := Fire(ls[0], u, matches);
      (if c.Some? then [Called(c.value.handler.name, u, c.value.args)] else []) + CallEvents(ls[1..], u, matches)
  }

  /** No handler that `ls` calls for `u` throws. */
  predicate NoneThrows(ls: seq<Listener>, u: Update, matches: Matcher) {
    forall i | 0 <= i < |ls| :: Fire(ls[i], u, matches).Some? ==> !Fire(ls[i], u, matches).value.handler.effect.Throws?
  }

  /** Some handler that `ls` calls for `u` calls `stop()`. */
  predicate SomeStops(ls: seq<Listener>, u: Update, matches: Matcher) {
    exists i | 0 <= i < |ls| :: Fire(ls[i], u, matches).Some? && Fire(ls[i], u, matches).value.handler.effect.CallsStop?
  }

  /** Both predicates split into the first callable and the rest. */
  lemma HandlersSplit(ls: seq<Listener>, u: Update, matches: Matcher)
    requires ls != []
    ensures var c := Fire(ls[0], u, matches);
      (NoneThrows(ls, u, matches) <==> (c.Some? ==> !c.value.handler.effect.Throws?) && NoneThrows(ls[1..], u, matches)) &&
      (SomeStops(ls, u, matches) <==> (c.Some? && c.value.handler.effect.CallsStop?) || SomeStops(ls[1..], u, matches))
  {
    var c := Fire(ls[0], u, matches);
    if SomeStops(ls[1..], u, matches) {
      var i :| 0 <= i < |ls[1..]| && Fire(ls[1..][i], u, matches).Some? && Fire(ls[1..][i], u, matches).value.handler.effect.CallsStop?;
      assert ls[1..][i] == ls[i + 1];
    }
    if SomeStops(ls, u, matches) && !(c.Some? && c.value.handler.effect.CallsStop?) {
      var i :| 0 <= i < |ls| && Fire(ls[i], u, matches).Some? && Fire(ls[i], u, matches).value.handler.effect.CallsStop?;
      assert ls[1..][i - 1] == ls[i];
    }
    if NoneThrows(ls, u, matches) {
      forall i | 0 <= i < |ls[1..]| && Fire(ls[1..][i], u, matches).Some?
        ensures !Fire(ls[1..][i], u, matches).value.handler.effect.Throws?
      {
        assert ls[1..][i] == ls[i + 1];
      }
    }
    if (c.Some? ==> !c.value.handler.effect.Throws?) && NoneThrows(ls[1..], u, matches) {
      forall i | 0 <= i < |ls| && Fire(ls[i], u, matches).Some?
        ensures !Fire(ls[i], u, matches).value.handler.effect.Throws?
      {
        if i > 0 {
          assert ls[1..][i - 1] == ls[i];
        }
      }
    }
  }

  /** Two registered callables: the calls, the throws and the stops of each, in order. */
  lemma TwoListeners(a: Listener, b: Listener, u: Update, matches: Matcher)
    ensures var ca := Fire(a, u, matches); var cb := Fire(b, u, matches);
      CallEvents([a, b], u, matches) ==
        (if ca.Some? then [Called(a.handler.name, u, ca.value.args)] else []) +
        (if cb.Some? then [Called(b.handler.name, u, cb.value.args)] else []) &&
      (NoneThrows([a, b], u, matches) <==> (ca.Some? ==> !a.handler.effect.Throws?) && (cb.Some? ==> !b.handler.effect.Throws?)) &&
      (SomeStops([a, b], u, matches) <==> (ca.Some? && a.handler.effect.CallsStop?) || (cb.Some? && b.handler.effect.CallsStop?))
  {
    var none: seq<Listener> := [];
    assert [a, b][1..] == [b] && [b][1..] == none;
    HandlersSplit([a, b], u, matches);
    HandlersSplit([b], u, matches);
    assert CallEvents(none, u, matches) == [];
    assert NoneThrows(none, u, matches) && !SomeStops(none, u, matches);
  }

  /**
   * With no throw, `executeHandlers` calls exactly the handlers whose filters pass, in
   * registration order, and the bot keeps running unless one of them stopped it.
   */
  lemma {:induction false} HandlersInOrder(ls: seq<Listener>, u: Update, matches: Matcher, r: Run)
    requires r.thrown.None? && NoneThrows(ls, u, matches)
    ensures var out := ExecuteHandlers(ls, u, matches, r);
      out.effects == r.effects + CallEvents(ls, u, matches) && out.thrown.None? &&
      (out.running <==> r.running && !SomeStops(ls, u, matches))
    decreases |ls|
  {
    if ls != [] {
      HandlersSplit(ls, u, matches);
      var r1 := Invoke(ls[0], u, matches, r);
      HandlersInOrder(ls[1..], u, matches, r1);
    }
  }

  /**
   * The first throwing handler ends `executeHandlers`: the handlers before it ran, it ran,
   * and none after it did; the dispatch ends by throwing its value.
   */
  lemma {:induction false} FirstThrowStops(ls: seq<Listener>, i: nat, u: Update, matches: Matcher, r: Run)
    requires i < |ls| && r.thrown.None? && NoneThrows(ls[..i], u, matches)
    requires Fire(ls[i], u, matches).Some? && Fire(ls[i], u, matches).value.handler.effect.Throws?
    ensures var out := ExecuteHandlers(ls, u, matches, r);
      out.thrown == Some(Fire(ls[i], u, matches).value.handler.effect.failure) &&
      out.effects == r.effects + CallEvents(ls[..i + 1], u, matches)
    decreases i
  {
    var r1 := Invoke(ls[0], u, matches, r);
    if i == 0 {
      assert ls[..1] == [ls[0]];
      assert CallEvents(ls[..1], u, matches) == [Called(Fire(ls[0], u, matches).value.handler.name, u, Fire(ls[0], u, matches).value.args)] + CallEvents([], u, matches);
    } else {
      assert ls[..i][0] == ls[0];
      var c := Fire(ls[0], u, matches);
      assert c.Some? ==> !c.value.handler.effect.Throws?;
      var t := ls[1..][..i - 1];
      assert NoneThrows(t, u, matches) by {
        forall j | 0 <= j < |t| && Fire(t[j], u, matches).Some?
          ensures !Fire(t[j], u, matches).value.handler.effect.Throws?
        {
          assert t[j] == ls[..i][j + 1];
        }
      }
      assert ls[1..][i - 1] == ls[i];
      FirstThrowStops(ls[1..], i - 1, u, matches, r1);
      assert ls[..i + 1][1..] == ls[1..][..i];
      assert ls[..i + 1][0] == ls[0];
    }
  }

  /**
   * A middleware, by what it can be seen to do: it notes its entry, calls `$next`
   * `nextCalls` times (handing on `forward` instead of the update it got, when given), and
   * notes its exit.
   */
  datatype Middleware = Middleware(name: string, nextCalls: nat, forward: Option<Update>)

  /** A stage of the pipeline: a middleware, or the closure `processUpdate` appends, which dispatches to the handlers and ignores `$next`. */
  datatype Stage = Use(middleware: Middleware) | Dispatch

  /** The pipeline `processUpdate` builds: a copy of the middleware list, then the dispatch. */
  function Stages(ms: seq<Middleware>): (p: seq<Stage>)
    ensures |p| == |ms| + 1 && p[|ms|] == Dispatch
    ensures forall i | 0 <= i < |ms| :: p[i] == Use(ms[i])
  {
    seq(|ms|, i requires 0 <= i < |ms| => Use(ms[i])) + [Dispatch]
  }

  lemma StagesTail(ms: seq<Middleware>)
    requires |ms| > 0
    ensures Stages(ms) == [Use(ms[0])] + Stages(ms[1..])
  {
  }

  /**
   * `callPipeline`: an empty pipeline returns; otherwise the first stage runs, and its
   * `$next` runs the rest of the pipeline on whatever update it is handed. An exception
   * thrown inside `$next` leaves the middleware before it notes its exit.
   */
  function CallPipeline(stages: seq<Stage>, reg: Registry, matches: Matcher, u: Update, r: Run): (out: Run)
    requires r.thrown.None?
    ensures r.effects <= out.effects
    decreases |stages|, 0, 0
  {
    if stages == [] then r
    else match stages[0]
      case Dispatch => ExecuteHandlers(Listeners(reg, u.updateType), u, matches, r)
      case Use(m) =>
        var inner := CallNext(m.nextCalls, stages[1..], reg, matches, m.forward.GetOr(u),
                              r.(effects := r.effects + [Entered(m.name)]));
        if inner.thrown.Some? then inner else inner.(effects := inner.effects + [Left(m.name)])
  }

  /** `$next` called `k` times in a row; a throw stops the middleware's code there. */
  function CallNext(k: nat, rest: seq<Stage>, reg: Registry, matches: Matcher, u: Update, r: Run): (out: Run)
    ensures r.effects <= out.effects
    ensures r.thrown.Some? ==> out == r
    decreases |rest|, 1, k
  {
    if k == 0 || r.thrown.Some? then r
    else CallNext(k - 1, rest, reg, matches, u, CallPipeline(rest, reg, matches, u, r))
  }

  /** Entry notes of the middlewares, outermost first. */
  function Enters(ms: seq<Middleware>): (es: seq<Event>)
    ensures |es| == |ms| && forall i | 0 <= i < |ms| :: es[i] == Entered(ms[i].name)
  {
    seq(|ms|, i requires 0 <= i < |ms| => Entered(ms[i].name))
  }

  /** Exit notes of the middlewares, innermost first. */
  function Exits(ms: seq<Middleware>): (es: seq<Event>)
    ensures |es| == |ms| && forall i | 0 <= i < |ms| :: es[i] == Left(ms[|ms| - 1 - i].name)
  {
    seq(|ms|, i requires 0 <= i < |ms| => Left(ms[|ms| - 1 - i].name))
  }

  /** Every middleware calls `$next` once and hands on the update it got. */
  predicate PassThrough(ms: seq<Middleware>) {
    forall i | 0 <= i < |ms| :: ms[i].nextCalls == 1 && ms[i].forward.None?
  }

  /**
   * One layer of the onion: a middleware that calls `$next` once begins, runs the rest on the
   * update it hands on, and finishes unless the rest threw.
   */
  lemma OnionLayer(m: Middleware, rest: seq<Stage>, reg: Registry, matches: Matcher, u: Update, r: Run)
    requires m.nextCalls == 1 && r.thrown.None?
    ensures var inner := CallPipeline(rest, reg, matches, m.forward.GetOr(u), r.(effects := r.effects + [Entered(m.name)]));
      CallPipeline([Use(m)] + rest, reg, matches, u, r) ==
        if inner.thrown.Some? then inner else inner.(effects := inner.effects + [Left(m.name)])
  {
    var v := m.forward.GetOr(u);
    var r1 := r.(effects := r.effects + [Entered(m.name)]);
    assert ([Use(m)] + rest)[1..] == rest;
    var inner := CallPipeline(rest, reg, matches, v, r1);
    assert CallNext(1, rest, reg, matches, v, r1) == CallNext(0, rest, reg, matches, v, inner);
  }

  lemma EntersSplit(ms: seq<Middleware>)
    requires |ms| > 0
    ensures Enters(ms) == [Entered(ms[0].name)] + Enters(ms[1..])
  {
    var enters := [Entered(ms[0].name)] + Enters(ms[1..]);
    forall i | 0 <= i < |ms|
      ensures Enters(ms)[i] == enters[i]
    {
      if i > 0 {
        assert ms[1..][i - 1] == ms[i];
      }
    }
  }

  lemma ExitsSplit(ms: seq<Middleware>)
    requires |ms| > 0
    ensures Exits(ms[1..]) + [Left(ms[0].name)] == Exits(ms)
  {
    var exits := Exits(ms[1..]) + [Left(ms[0].name)];
    forall i | 0 <= i < |ms|
      ensures Exits(ms)[i] == exits[i]
    {
      if i < |ms| - 1 {
        assert ms[1..][|ms| - 2 - i] == ms[|ms| - 1 - i];
      }
    }
  }

  lemma EntersExitsSplit(ms: seq<Middleware>, e: seq<Event>)
    requires |ms| > 0
    ensures e + Enters(ms) == (e + [Entered(ms[0].name)]) + Enters(ms[1..])
    ensures Exits(ms[1..]) + [Left(ms[0].name)] == Exits(ms)
  {
    EntersSplit(ms);
    ExitsSplit(ms);
  }

  /**
   * The onion: when every middleware calls `$next` once, all of them begin in `use` order,
   * then the handlers run, then they finish in reverse order. If a handler throws, no
   * middleware finishes.
   */
  lemma {:induction false} Onion(ms: seq<Middleware>, reg: Registry, matches: Matcher, u: Update, r: Run)
    requires r.thrown.None? && PassThrough(ms)
    ensures var d := ExecuteHandlers(Listeners(reg, u.updateType), u, matches, r.(effects := r.effects + Enters(ms)));
      CallPipeline(Stages(ms), reg, matches, u, r) ==
        if d.thrown.Some? then d else d.(effects := d.effects + Exits(ms))
    decreases |ms|
  {
    if ms == [] {
      assert r.(effects := r.effects + Enters(ms)) == r;
      assert Stages(ms) == [Dispatch];
    } else {
      var m := ms[0];
      StagesTail(ms);
      var r1 := r.(effects := r.effects + [Entered(m.name)]);
      assert PassThrough(ms[1..]) by {
        forall i | 0 <= i < |ms[1..]| ensures ms[1..][i].nextCalls == 1 && ms[1..][i].forward.None? {
          assert ms[1..][i] == ms[i + 1];
        }
      }
      OnionLayer(m, Stages(ms[1..]), reg, matches, u, r);
      Onion(ms[1..], reg, matches, u, r1);
      EntersExitsSplit(ms, r.effects);
      assert r.(effects := r.effects + Enters(ms)) == r1.(effects := r1.effects + Enters(ms[1..]));
    }
  }

  /** None of the events is a handler call. */
  predicate NoHandlerCalls(es: seq<Event>) {
    forall i | 0 <= i < |es| :: !es[i].Called?
  }

  /**
   * Short-circuit: when the middleware at position `i` never calls `$next` and the ones
   * before it are middlewares too, no handler runs at all.
   */
  lemma {:induction false} ShortCircuit(stages: seq<Stage>, i: nat, reg: Registry, matches: Matcher, u: Update, r: Run)
    requires i < |stages| && stages[i].Use? && stages[i].middleware.nextCalls == 0
    requires forall j | 0 <= j < i :: stages[j].Use?
    requires r.thrown.None?
    ensures var out := CallPipeline(stages, reg, matches, u, r);
      NoHandlerCalls(out.effects[|r.effects|..])
    decreases |stages|, 0
  {
    var m := stages[0].middleware;
    var r1 := r.(effects := r.effects + [Entered(m.name)]);
    ShortCircuitNext(m.nextCalls, stages, i, reg, matches, m.forward.GetOr(u), r1);
    var inner := CallNext(m.nextCalls, stages[1..], reg, matches, m.forward.GetOr(u), r1);
    var out := CallPipeline(stages, reg, matches, u, r);
    assert out.effects[|r.effects|..] == [Entered(m.name)] + inner.effects[|r1.effects|..] ||
           out.effects[|r.effects|..] == [Entered(m.name)] + inner.effects[|r1.effects|..] + [Left(m.name)];
  }

  /** The calls of `$next` made by the first middleware of such a pipeline call no handler either. */
  lemma {:induction false} ShortCircuitNext(k: nat, stages: seq<Stage>, i: nat, reg: Registry, matches: Matcher, u: Update, r: Run)
    requires i < |stages| && stages[i].Use? && stages[i].middleware.nextCalls == 0
    requires forall j | 0 <= j < i :: stages[j].Use?
    requires i == 0 ==> k == 0
    ensures var out := CallNext(k, stages[1..], reg, matches, u, r);
      NoHandlerCalls(out.effects[|r.effects|..])
    decreases |stages| - 1, 1, k
  {
    if k != 0 && r.thrown.None? {
      var rest := stages[1..];
      assert rest[i - 1] == stages[i];
      forall j | 0 <= j < i - 1 ensures rest[j].Use? {
        assert rest[j] == stages[j + 1];
      }
      ShortCircuit(rest, i - 1, reg, matches, u, r);
      var r1 := CallPipeline(rest, reg, matches, u, r);
      ShortCircuitNext(k - 1, stages, i, reg, matches, u, r1);
      var out := CallNext(k - 1, rest, reg, matches, u, r1);
      assert out.effects[|r.effects|..] == r1.effects[|r.effects|..] + out.effects[|r1.effects|..];
    }
  }

  /** Every middleware calls `$next` exactly once, whatever update it hands on. */
  predicate OnceEach(ms: seq<Middleware>) {
    forall i | 0 <= i < |ms| :: ms[i].nextCalls == 1
  }

  /** The update the dispatch receives: each middleware in turn hands on its own update, or the one it got. */
  function Delivered(ms: seq<Middleware>, u: Update): Update
    decreases |ms|
  {
    if ms == [] then u else Delivered(ms[1..], ms[0].forward.GetOr(u))
  }

  /**
   * Handlers receive the update the last middleware handed to `$next`, not the one the
   * pipeline started with, and are chosen by that update's type; around them the middlewares
   * begin in `use` order and finish in reverse order unless a handler threw.
   */
  lemma {:induction false} ForwardedUpdateReachesHandlers(ms: seq<Middleware>, reg: Registry, matches: Matcher, u: Update, r: Run)
    requires r.thrown.None? && OnceEach(ms)
    ensures var v := Delivered(ms, u);
      var d := ExecuteHandlers(Listeners(reg, v.updateType), v, matches, r.(effects := r.effects + Enters(ms)));
      CallPipeline(Stages(ms), reg, matches, u, r) == if d.thrown.Some? then d else d.(effects := d.effects + Exits(ms))
    decreases |ms|
  {
    if ms == [] {
      assert r.(effects := r.effects + Enters(ms)) == r;
      assert Stages(ms) == [Dispatch];
    } else {
      var m := ms[0];
      StagesTail(ms);
      var r1 := r.(effects := r.effects + [Entered(m.name)]);
      assert OnceEach(ms[1..]) by {
        forall i | 0 <= i < |ms[1..]| ensures ms[1..][i].nextCalls == 1 {
          assert ms[1..][i] == ms[i + 1];
        }
      }
      OnionLayer(m, Stages(ms[1..]), reg, matches, u, r);
      ForwardedUpdateReachesHandlers(ms[1..], reg, matches, m.forward.GetOr(u), r1);
      EntersExitsSplit(ms, r.effects);
      assert r.(effects := r.effects + Enters(ms)) == r1.(effects := r1.effects + Enters(ms[1..]));
    }
  }

  /** The dispatch stage alone, with one plain handler that returns, records one call of it. */
  lemma DispatchOne(h: Handler, reg: Registry, matches: Matcher, u: Update, r: Run)
    requires r.thrown.None? && Listeners(reg, u.updateType) == [Direct(h)] && h.effect == Returns
    ensures CallPipeline([Dispatch], reg, matches, u, r) == r.(effects := r.effects + [Called(h.name, u, None)])
  {
    var ls := Listeners(reg, u.updateType);
    assert ls[1..] == [];
    assert Fire(ls[0], u, matches) == Some(Call(h, None));
    var r1 := Invoke(ls[0], u, matches, r);
    assert r1 == r.(effects := r.effects + [Called(h.name, u, None)]);
    assert ExecuteHandlers(ls, u, matches, r) == ExecuteHandlers([], u, matches, r1);
    assert [Dispatch][0] == Dispatch;
  }

  /**
   * A middleware that calls `$next` twice runs the rest of the pipeline twice on the update
   * it hands on, the second time after the first; a throw in the first run ends it there.
   */
  lemma NextTwice(m: Middleware, rest: seq<Stage>, reg: Registry, matches: Matcher, u: Update, r: Run)
    requires m.nextCalls == 2 && r.thrown.None?
    ensures var v := m.forward.GetOr(u);
      var first := CallPipeline(rest, reg, matches, v, r.(effects := r.effects + [Entered(m.name)]));
      var out := CallPipeline([Use(m)] + rest, reg, matches, u, r);
      if first.thrown.Some? then out == first
      else
        var second := CallPipeline(rest, reg, matches, v, first);
        out == if second.thrown.Some? then second else second.(effects := second.effects + [Left(m.name)])
  {
    var v := m.forward.GetOr(u);
    var r1 := r.(effects := r.effects + [Entered(m.name)]);
    assert ([Use(m)] + rest)[1..] == rest;
    var first := CallPipeline(rest, reg, matches, v, r1);
    if first.thrown.None? {
      var second := CallPipeline(rest, reg, matches, v, first);
      assert CallNext(2, rest, reg, matches, v, r1) == CallNext(0, rest, reg, matches, v, second);
    }
  }

  /** With one handler that returns, a middleware that calls `$next` twice records the handler's call twice between its notes. */
  lemma NextTwiceOneHandler(m: Middleware, h: Handler, reg: Registry, matches: Matcher, u: Update, r: Run)
    requires m.nextCalls == 2 && m.forward.None? && r.thrown.None?
    requires Listeners(reg, u.updateType) == [Direct(h)] && h.effect == Returns
    ensures CallPipeline(Stages([m]), reg, matches, u, r).effects ==
      r.effects + [Entered(m.name), Called(h.name, u, None), Called(h.name, u, None), Left(m.name)]
  {
    assert Stages([m]) == [Use(m)] + [Dispatch];
    var r1 := r.(effects := r.effects + [Entered(m.name)]);
    NextTwice(m, [Dispatch], reg, matches, u, r);
    DispatchOne(h, reg, matches, u, r1);
    var once := CallPipeline([Dispatch], reg, matches, u, r1);
    DispatchOne(h, reg, matches, u, once);
  }
}
