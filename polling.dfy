/**
 * The long-polling loop of `Bot::start` (`src/Bot.php`), as a function of the answers
 * `getUpdates` gives in turn. The HTTP call itself is not modelled: each pass of the loop
 * consumes the next scripted answer, and the loop also ends when the script runs out.
 */
module Polling {
  import opened Wrappers
  import opened Enums
  import opened Updates
  import opened Filters
  import opened Dispatch

  /** What the loop reads from the bot without changing it: the registrations, the error handler, and the regular-expression test. */
  datatype Setup = Setup(handlers: Registry, middlewares: seq<Middleware>, errorHandler: Option<Handler>, matches: Matcher)

  /** `processUpdate`: the middlewares registered so far, then the dispatch. */
  function ProcessUpdate(s: Setup, u: Update, r: Run): (out: Run)
    requires r.thrown.None?
    ensures r.effects <= out.effects
  {
    CallPipeline(Stages(s.middlewares), s.handlers, s.matches, u, r)
  }

  /** `foreach ($updates as $update) $this->processUpdate($update)`: in order, until one throws. */
  function DispatchAll(s: Setup, us: seq<Update>, r: Run): (out: Run)
    ensures r.effects <= out.effects
    ensures r.thrown.Some? ==> out == r
    decreases |us|
  {
    if us == [] || r.thrown.Some? then r
    else DispatchAll(s, us[1..], ProcessUpdate(s, us[0], r))
  }

  /** A batch is dispatched front to back: dispatching `a + b` is dispatching `a`, then `b`. */
  lemma {:induction false} DispatchAllAppend(s: Setup, a: seq<Update>, b: seq<Update>, r: Run)
    ensures DispatchAll(s, a + b, r) == DispatchAll(s, b, DispatchAll(s, a, r))
    decreases |a|
  {
    if a == [] {
      assert a + b == b;
    } else if r.thrown.None? {
      assert (a + b)[1..] == a[1..] + b;
      DispatchAllAppend(s, a[1..], b, ProcessUpdate(s, a[0], r));
    }
  }

  /** A batch of two updates: the second is dispatched only when the first did not throw. */
  lemma DispatchPair(s: Setup, u1: Update, u2: Update, r: Run)
    requires r.thrown.None?
    ensures var first := ProcessUpdate(s, u1, r);
      DispatchAll(s, [u1, u2], r) == if first.thrown.Some? then first else ProcessUpdate(s, u2, first)
  {
    var none: seq<Update> := [];
    assert [u1, u2][1..] == [u2] && [u2][1..] == none;
    var first := ProcessUpdate(s, u1, r);
    assert DispatchAll(s, [u1, u2], r) == DispatchAll(s, [u2], first);
    if first.thrown.None? {
      assert DispatchAll(s, [u2], first) == DispatchAll(s, none, ProcessUpdate(s, u2, first));
    }
  }

  /** Two runs that differ at most in the `running` flag. */
  predicate SameButRunning(x: Run, y: Run) {
    x.effects == y.effects && x.thrown == y.thrown
  }

  /** The handlers never read `running`: what they do is the same whether or not `stop()` was called. */
  lemma {:induction false} HandlersIgnoreRunning(ls: seq<Listener>, u: Update, matches: Matcher, x: Run, y: Run)
    requires SameButRunning(x, y)
    ensures SameButRunning(ExecuteHandlers(ls, u, matches, x), ExecuteHandlers(ls, u, matches, y))
    decreases |ls|
  {
    if ls != [] && x.thrown.None? {
      HandlersIgnoreRunning(ls[1..], u, matches, Invoke(ls[0], u, matches, x), Invoke(ls[0], u, matches, y));
    }
  }

  /** Neither do the middlewares. */
  lemma {:induction false} PipelineIgnoresRunning(stages: seq<Stage>, reg: Registry, matches: Matcher, u: Update, x: Run, y: Run)
    requires SameButRunning(x, y) && x.thrown.None?
    ensures SameButRunning(CallPipeline(stages, reg, matches, u, x), CallPipeline(stages, reg, matches, u, y))
    decreases |stages|, 0, 0
  {
    if stages != [] {
      match stages[0]
      case Dispatch =>
        HandlersIgnoreRunning(Listeners(reg, u.updateType), u, matches, x, y);
      case Use(m) =>
        NextIgnoresRunning(m.nextCalls, stages[1..], reg, matches, m.forward.GetOr(u),
                           x.(effects := x.effects + [Entered(m.name)]), y.(effects := y.effects + [Entered(m.name)]));
    }
  }

  lemma {:induction false} NextIgnoresRunning(k: nat, rest: seq<Stage>, reg: Registry, matches: Matcher, u: Update, x: Run, y: Run)
    requires SameButRunning(x, y)
    ensures SameButRunning(CallNext(k, rest, reg, matches, u, x), CallNext(k, rest, reg, matches, u, y))
    decreases |rest|, 1, k
  {
    if k != 0 && x.thrown.None? {
      PipelineIgnoresRunning(rest, reg, matches, u, x, y);
      NextIgnoresRunning(k - 1, rest, reg, matches, u, CallPipeline(rest, reg, matches, u, x), CallPipeline(rest, reg, matches, u, y));
    }
  }

  /**
   * `stop()` does not cut a batch short: the `foreach` does not look at `running`, so a batch
   * is dispatched in full whether or not a handler stopped the bot along the way.
   */
  lemma {:induction false} StopFinishesBatch(s: Setup, us: seq<Update>, x: Run, y: Run)
    requires SameButRunning(x, y)
    ensures SameButRunning(DispatchAll(s, us, x), DispatchAll(s, us, y))
    decreases |us|
  {
    if us != [] && x.thrown.None? {
      PipelineIgnoresRunning(Stages(s.middlewares), s.handlers, s.matches, us[0], x, y);
      StopFinishesBatch(s, us[1..], ProcessUpdate(s, us[0], x), ProcessUpdate(s, us[0], y));
    }
  }

  /**
   * The `catch (\Exception $e)` block. A PHP `\Error` is not caught and leaves `start`.
   * An `\Exception` goes to the error handler when there is one (which may itself stop the
   * bot, or throw out of `start`); otherwise it is printed and the loop sleeps.
   */
  function Catch(s: Setup, r: Run): (out: Run)
    requires r.thrown.Some?
    ensures r.thrown.value.Error? ==> out == r
    ensures r.thrown.value.Exception? ==>
      (out.thrown.Some? <==> s.errorHandler.Some? && s.errorHandler.value.effect.Throws?)
    ensures r.thrown.value.Exception? && s.errorHandler.None? ==>
      out == Run(r.effects + [Logged("Bot Error: " + r.thrown.value.reason)], r.running, None)
    ensures r.thrown.value.Exception? && s.errorHandler.Some? ==>
      out.effects == r.effects + [Reported(s.errorHandler.value.name, r.thrown.value)]
    ensures r.effects <= out.effects
  {
    var f := r.thrown.value;
    if f.Error? then r
    else match s.errorHandler
      case None => Run(r.effects + [Logged("Bot Error: " + f.reason)], r.running, None)
      case Some(h) =>
        var reported := Run(r.effects + [Reported(h.name, f)], r.running, None);
        match h.effect
        case Returns => reported
        case CallsStop => reported.(running := false)
        case Throws(g) => reported.(thrown := Some(g))
  }

  /** An answer of `getUpdates`: a batch with the marker to resume from (possibly null), or a thrown failure. */
  datatype Fetch = Batch(updates: seq<Update>, marker: Option<int>) | FetchFailed(failure: Failure)

  /**
   * `array_keys($this->handlers)` mapped back to update types, or null when nothing is
   * registered: the types `getUpdates` is asked for.
   */
  function TypeFilter(reg: Registry): (types: Option<set<UpdateType>>)
    ensures types.None? <==> reg == map[]
    ensures types.Some? ==> forall t :: t in types.value <==> t in reg
  {
    if reg == map[] then None else Some(reg.Keys)
  }

  /**
   * One pass of the `while` body: ask for updates from the current marker, adopt the
   * response's marker unless it is null, then dispatch the batch in order. A throw anywhere
   * inside the `try`, fetch or dispatch, is handled by `Catch`; by then the marker has
   * already moved past the whole batch.
   */
  function Iteration(s: Setup, timeout: int, types: Option<set<UpdateType>>, f: Fetch, marker: Option<int>, r: Run): (out: (Option<int>, Run))
    requires r.thrown.None?
    ensures out.0 == (if f.Batch? && f.marker.Some? then f.marker else marker)
    ensures r.effects + [Polled(timeout, marker, types)] <= out.1.effects
  {
    var asked := r.(effects := r.effects + [Polled(timeout, marker, types)]);
    match f
    case FetchFailed(e) => (marker, Catch(s, asked.(thrown := Some(e))))
    case Batch(us, m) =>
      var next := if m.Some? then m else marker;
      var done := DispatchAll(s, us, asked);
      (next, if done.thrown.Some? then Catch(s, done) else done)
  }

  /** How `start` ends: `stop()` was called, the scripted answers ran out, or a throw left the loop. */
  datatype Ending = Stopped | ScriptEnded | Escaped(failure: Failure)

  datatype Outcome = Outcome(marker: Option<int>, run: Run, ending: Ending)

  /**
   * `while ($this->running) { try { … } catch (\Exception $e) { … } }` over the scripted
   * answers: `running` is looked at only before each fetch.
   */
  function Poll(s: Setup, timeout: int, types: Option<set<UpdateType>>, script: seq<Fetch>, marker: Option<int>, r: Run): (out: Outcome)
    requires r.thrown.None?
    ensures !r.running ==> out == Outcome(marker, r, Stopped)
    ensures out.ending.Stopped? ==> !out.run.running
    ensures out.ending.Escaped? <==> out.run.thrown.Some?
    ensures out.ending.Escaped? ==> out.run.thrown == Some(out.ending.failure)
    ensures r.effects <= out.run.effects
    decreases |script|
  {
    if !r.running then Outcome(marker, r, Stopped)
    else if script == [] then Outcome(marker, r, ScriptEnded)
    else
      var pass := Iteration(s, timeout, types, script[0], marker, r);
      if pass.1.thrown.Some? then Outcome(pass.0, pass.1, Escaped(pass.1.thrown.value))
      else Poll(s, timeout, types, script[1..], pass.0, pass.1)
  }

  /** The pass over a batch whose first update throws an `\Exception`, with no error handler: the marker moves on, the failure is printed. */
  lemma FailedBatchPass(s: Setup, timeout: int, types: Option<set<UpdateType>>, u: Update, us: seq<Update>,
                        m: int, marker: Option<int>, r: Run)
    requires r.thrown.None? && s.errorHandler.None?
    requires var asked := r.(effects := r.effects + [Polled(timeout, marker, types)]);
      ProcessUpdate(s, u, asked).thrown.Some? && ProcessUpdate(s, u, asked).thrown.value.Exception?
    ensures var asked := r.(effects := r.effects + [Polled(timeout, marker, types)]);
      var failed := ProcessUpdate(s, u, asked);
      Iteration(s, timeout, types, Batch([u] + us, Some(m)), marker, r) ==
        (Some(m), Run(failed.effects + [Logged("Bot Error: " + failed.thrown.value.reason)], failed.running, None))
  {
    var asked := r.(effects := r.effects + [Polled(timeout, marker, types)]);
    assert ([u] + us)[1..] == us;
    var failed := ProcessUpdate(s, u, asked);
    assert DispatchAll(s, [u] + us, asked) == DispatchAll(s, us, failed);
  }

  /**
   * A failed batch is not asked for again: when a handler throws an `\Exception` on the
   * first update of a batch that carried marker `m`, and there is no error handler, the
   * rest of the batch is dropped, the failure is printed, and the loop goes on from `m`.
   */
  lemma FailedBatchNotRefetched(s: Setup, timeout: int, types: Option<set<UpdateType>>, u: Update, us: seq<Update>,
                                m: int, script: seq<Fetch>, marker: Option<int>, r: Run)
    requires r.thrown.None? && r.running && s.errorHandler.None?
    requires var asked := r.(effects := r.effects + [Polled(timeout, marker, types)]);
      ProcessUpdate(s, u, asked).thrown.Some? && ProcessUpdate(s, u, asked).thrown.value.Exception?
    ensures var asked := r.(effects := r.effects + [Polled(timeout, marker, types)]);
      var failed := ProcessUpdate(s, u, asked);
      var caught := Run(failed.effects + [Logged("Bot Error: " + failed.thrown.value.reason)], failed.running, None);
      Poll(s, timeout, types, [Batch([u] + us, Some(m))] + script, marker, r) ==
        Poll(s, timeout, types, script, Some(m), caught)
  {
    FailedBatchPass(s, timeout, types, u, us, m, marker, r);
    var all := [Batch([u] + us, Some(m))] + script;
    assert all[0] == Batch([u] + us, Some(m));
    assert all[1..] == script;
  }
}
