/**
 * The `Bot` object of `src/Bot.php`: its registrations and flags, updated in place by the
 * registration methods, and the polling loop and webhook entry point that drive the
 * dispatch. The API client is not modelled: `getUpdates` answers come from a script, and
 * the webhook body comes already decoded.
 */
module BotEngine {
  import opened Wrappers
  import opened PhpStrings
  import opened Json
  import opened Enums
  import opened Messages
  import opened Updates
  import opened Filters
  import opened Dispatch
  import opened Polling
  import Webhook

  /** Everything a bot holds that can change, as one value. */
  datatype BotState = BotState(handlers: Registry, middlewares: seq<Middleware>, running: bool,
                               marker: Option<int>, errorHandler: Option<Handler>, effects: seq<Event>)

  class Bot {
    /** The regular-expression test the `onCallbackQuery` and `onText` closures use. */
    const matches: Matcher
    var handlers: Registry
    var middlewares: seq<Middleware>
    var running: bool
    var marker: Option<int>
    var errorHandler: Option<Handler>
    /** What the bot's callables and its loop did so far, in order. */
    var effects: seq<Event>

    function State(): BotState
      reads this
    {
      BotState(handlers, middlewares, running, marker, errorHandler, effects)
    }

    /** A new bot: nothing registered, not running, no marker, no error handler. */
    constructor (matches: Matcher)
      ensures State() == BotState(map[], [], false, None, None, [])
    {
      this.matches := matches;
      handlers := map[];
      middlewares := [];
      running := false;
      marker := None;
      errorHandler := None;
      effects := [];
    }

    /** `use($middleware)`: appended after the middlewares already registered. */
    method Use(m: Middleware)
      modifies this
      ensures State() == old(State()).(middlewares := old(middlewares) + [m])
    {
      middlewares := middlewares + [m];
    }

    /** `setMarker($marker)` */
    method SetMarker(m: Option<int>)
      modifies this
      ensures State() == old(State()).(marker := m)
    {
      marker := m;
    }

    /** `getMarker()` */
    function GetMarker(): (m: Option<int>)
      reads this
      ensures m == State().marker
    {
      marker
    }

    /** `on($type, $handler)`: appended to the callables of that type; nothing is replaced. */
    method On(t: UpdateType, l: Listener)
      modifies this
      ensures State() == old(State()).(handlers := Register(old(handlers), t, l))
    {
      handlers := Register(handlers, t, l);
    }

    /** `onError($handler)`: replaces any earlier error handler. */
    method OnError(h: Handler)
      modifies this
      ensures State() == old(State()).(errorHandler := Some(h))
    {
      errorHandler := Some(h);
    }

    method OnMessage(l: Listener)
      modifies this
      ensures State() == old(State()).(handlers := Register(old(handlers), MessageCreated, l))
    {
      On(MessageCreated, l);
    }

    method OnCallback(l: Listener)
      modifies this
      ensures State() == old(State()).(handlers := Register(old(handlers), MessageCallback, l))
    {
      On(MessageCallback, l);
    }

    /** `onCallbackQuery($pattern, $handler)`: a payload filter on `message_callback`. */
    method OnCallbackQuery(pattern: string, h: Handler)
      modifies this
      ensures State() == old(State()).(handlers := Register(old(handlers), MessageCallback, PayloadMatch(pattern, h)))
    {
      OnCallback(PayloadMatch(pattern, h));
    }

    /** `onCommand($command, $handler)`: a command filter on `message_created`, holding the normalised command. */
    method OnCommand(command: string, h: Handler)
      modifies this
      ensures State() == old(State()).(handlers := Register(old(handlers), MessageCreated, Command(NormaliseCommand(command), h)))
    {
      OnMessage(Command(NormaliseCommand(command), h));
    }

    /** `onText($pattern, $handler)` */
    method OnText(pattern: string, h: Handler)
      modifies this
      ensures State() == old(State()).(handlers := Register(old(handlers), MessageCreated, TextMatch(pattern, h)))
    {
      OnMessage(TextMatch(pattern, h));
    }

    /** `onPhoto`: messages with an `image` attachment. */
    method OnPhoto(h: Handler)
      modifies this
      ensures State() == old(State()).(handlers := Register(old(handlers), MessageCreated, WithAttachment("image", h)))
    {
      OnMessage(WithAttachment("image", h));
    }

    method OnVideo(h: Handler)
      modifies this
      ensures State() == old(State()).(handlers := Register(old(handlers), MessageCreated, WithAttachment("video", h)))
    {
      OnMessage(WithAttachment("video", h));
    }

    method OnLocation(h: Handler)
      modifies this
      ensures State() == old(State()).(handlers := Register(old(handlers), MessageCreated, WithAttachment("location", h)))
    {
      OnMessage(WithAttachment("location", h));
    }

    method OnContact(h: Handler)
      modifies this
      ensures State() == old(State()).(handlers := Register(old(handlers), MessageCreated, WithAttachment("contact", h)))
    {
      OnMessage(WithAttachment("contact", h));
    }

    method OnUserJoined(l: Listener)
      modifies this
      ensures State() == old(State()).(handlers := Register(old(handlers), UserAdded, l))
    {
      On(UserAdded, l);
    }

    method OnUserRemoved(l: Listener)
      modifies this
      ensures State() == old(State()).(handlers := Register(old(handlers), UserRemoved, l))
    {
      On(UserRemoved, l);
    }

    /** `stop()`: only clears the flag; the loop sees it before its next fetch. */
    method Stop()
      modifies this
      ensures State() == old(State()).(running := false)
    {
      running := false;
    }

    /** `processUpdate($update)`: the pipeline over the middlewares registered now; returns what it threw, if anything. */
    method ProcessUpdate(u: Update) returns (thrown: Option<Failure>)
      modifies this
      ensures var out := Polling.ProcessUpdate(Setup(old(handlers), old(middlewares), old(errorHandler), matches), u,
                                               Run(old(effects), old(running), None));
        State() == old(State()).(effects := out.effects, running := out.running) && thrown == out.thrown
    {
      var out := Polling.ProcessUpdate(Setup(handlers, middlewares, errorHandler, matches), u, Run(effects, running, None));
      effects := out.effects;
      running := out.running;
      thrown := out.thrown;
    }

    /** The `foreach` over one batch: `processUpdate` on each update in order, until one throws. */
    method DispatchBatch(us: seq<Update>) returns (thrown: Option<Failure>)
      modifies this
      ensures var out := DispatchAll(Setup(old(handlers), old(middlewares), old(errorHandler), matches), us,
                                     Run(old(effects), old(running), None));
        State() == old(State()).(effects := out.effects, running := out.running) && thrown == out.thrown
    {
      ghost var s := Setup(handlers, middlewares, errorHandler, matches);
      ghost var start := Run(effects, running, None);
      thrown := None;
      var j := 0;
      while j < |us| && thrown.None?
        invariant 0 <= j <= |us|
        invariant handlers == old(handlers) && middlewares == old(middlewares) && errorHandler == old(errorHandler)
        invariant marker == old(marker)
        invariant DispatchAll(s, us[j..], Run(effects, running, thrown)) == DispatchAll(s, us, start)
      {
        assert us[j..][0] == us[j] && us[j..][1..] == us[j + 1..];
        thrown := ProcessUpdate(us[j]);
        j := j + 1;
      }
    }

    /**
     * The `catch (\Exception $e)` block of `start`: returns the failure that leaves the loop,
     * if any (a PHP `\Error`, or what the error handler throws).
     */
    method CatchFailure(f: Failure) returns (escaped: Option<Failure>)
      modifies this
      ensures var out := Catch(Setup(old(handlers), old(middlewares), old(errorHandler), matches),
                               Run(old(effects), old(running), Some(f)));
        State() == old(State()).(effects := out.effects, running := out.running) && escaped == out.thrown
    {
      escaped := None;
      if f.Error? {
        escaped := Some(f);
        return;
      }
      match errorHandler {
        case None =>
          effects := effects + [Logged("Bot Error: " + f.reason)];
        case Some(h) =>
          effects := effects + [Reported(h.name, f)];
          match h.effect {
            case Returns =>
            case CallsStop =>
              running := false;
            case Throws(g) =>
              escaped := Some(g);
          }
      }
    }

    /**
     * One pass of the `while` body of `start`: fetch from the current marker, adopt the new
     * marker, dispatch the batch, and catch what it threw. Returns the failure that leaves
     * the loop, if any.
     */
    method PollOnce(timeout: int, types: Option<set<UpdateType>>, f: Fetch) returns (escaped: Option<Failure>)
      modifies this
      ensures var pass := Iteration(Setup(old(handlers), old(middlewares), old(errorHandler), matches), timeout, types, f,
                                    old(marker), Run(old(effects), old(running), None));
        State() == old(State()).(marker := pass.0, effects := pass.1.effects, running := pass.1.running) &&
        escaped == pass.1.thrown
    {
      effects := effects + [Polled(timeout, marker, types)];
      var thrown: Option<Failure> := None;
      match f {
        case FetchFailed(e) =>
          thrown := Some(e);
        case Batch(us, m) =>
          if m.Some? {
            marker := m;
          }
          thrown := DispatchBatch(us);
      }
      escaped := None;
      if thrown.Some? {
        escaped := CatchFailure(thrown.value);
      }
    }

    /**
     * `start($timeout)` over the scripted answers of `getUpdates`. The types to ask for are
     * fixed when the loop begins; a throw that escapes the loop leaves `running` set, as it
     * does in PHP.
     */
    method Start(timeout: int := 30, script: seq<Fetch>) returns (ending: Ending)
      modifies this
      ensures var out := Poll(Setup(old(handlers), old(middlewares), old(errorHandler), matches), timeout,
                              TypeFilter(old(handlers)), script, old(marker), Run(old(effects), true, None));
        State() == old(State()).(marker := out.marker, effects := out.run.effects, running := out.run.running) &&
        ending == out.ending
    {
      running := true;
      var types := TypeFilter(handlers);
      ghost var s := Setup(handlers, middlewares, errorHandler, matches);
      ghost var goal := Poll(s, timeout, types, script, marker, Run(effects, true, None));
      var i := 0;
      while i < |script| && running
        invariant 0 <= i <= |script|
        invariant handlers == old(handlers) && middlewares == old(middlewares) && errorHandler == old(errorHandler)
        invariant Poll(s, timeout, types, script[i..], marker, Run(effects, running, None)) == goal
        decreases |script| - i
      {
        ghost var pass := Iteration(s, timeout, types, script[i], marker, Run(effects, running, None));
        assert script[i..][0] == script[i] && script[i..][1..] == script[i + 1..];
        assert Poll(s, timeout, types, script[i..], marker, Run(effects, running, None)) ==
          if pass.1.thrown.Some? then Outcome(pass.0, pass.1, Escaped(pass.1.thrown.value))
          else Poll(s, timeout, types, script[i + 1..], pass.0, pass.1);
        var escaped := PollOnce(timeout, types, script[i]);
        if escaped.Some? {
          ending := Escaped(escaped.value);
          return;
        }
        i := i + 1;
      }
      ending := if !running then Stopped else ScriptEnded;
    }

    /** One item of a webhook body: decode it, then `processUpdate` it; returns what it threw, if anything. */
    method DispatchWebhookItem(item: Json) returns (thrown: Option<Failure>)
      modifies this
      ensures var out := Webhook.DispatchItem(Setup(old(handlers), old(middlewares), old(errorHandler), matches), item,
                                              Run(old(effects), old(running), None));
        State() == old(State()).(effects := out.effects, running := out.running) && thrown == out.thrown
    {
      var u := DecodeItem(item, "data", UpdateFromArray);
      if u.Err? {
        thrown := Some(Webhook.DecodeFailure(u.error));
      } else {
        thrown := ProcessUpdate(u.value);
      }
    }

    /** The `foreach` over the items of a webhook body: decode each one, then `processUpdate` it, until one throws. */
    method DispatchWebhookItems(items: seq<Json>) returns (thrown: Option<Failure>)
      modifies this
      ensures var out := Webhook.DispatchItems(Setup(old(handlers), old(middlewares), old(errorHandler), matches), items,
                                               Run(old(effects), old(running), None));
        State() == old(State()).(effects := out.effects, running := out.running) && thrown == out.thrown
    {
      ghost var s := Setup(handlers, middlewares, errorHandler, matches);
      ghost var start := Run(effects, running, None);
      thrown := None;
      var j := 0;
      while j < |items| && thrown.None?
        invariant 0 <= j <= |items|
        invariant handlers == old(handlers) && middlewares == old(middlewares) && errorHandler == old(errorHandler)
        invariant marker == old(marker)
        invariant Webhook.DispatchItems(s, items[j..], Run(effects, running, thrown)) == Webhook.DispatchItems(s, items, start)
      {
        ghost var before := Run(effects, running, None);
        Webhook.DispatchItemsStep(s, items, j, before);
        thrown := DispatchWebhookItem(items[j]);
        assert Run(effects, running, thrown) == Webhook.DispatchItem(s, items[j], before);
        j := j + 1;
      }
    }

    /** `handleWebhook()` given the raw body and its decoded value; returns what it threw, if anything. */
    method HandleWebhook(input: string, data: Json) returns (thrown: Option<Failure>)
      modifies this
      ensures var out := Webhook.HandleWebhook(Setup(old(handlers), old(middlewares), old(errorHandler), matches), input, data,
                                               Run(old(effects), old(running), None));
        State() == old(State()).(effects := out.effects, running := out.running) && thrown == out.thrown
    {
      thrown := None;
      var items := Webhook.WebhookItems(input, data);
      if items.Some? {
        thrown := DispatchWebhookItems(items.value);
      }
    }
  }

  /** With no middleware and no throwing handler, `processUpdate` is the dispatch of every callable of the update's type, in order. */
  lemma NoMiddlewarePipeline(s: Setup, u: Update, r: Run)
    requires r.thrown.None? && s.middlewares == [] && NoneThrows(Listeners(s.handlers, u.updateType), u, s.matches)
    ensures var ls := Listeners(s.handlers, u.updateType);
      Polling.ProcessUpdate(s, u, r) == Run(r.effects + CallEvents(ls, u, s.matches), r.running && !SomeStops(ls, u, s.matches), None)
  {
    assert Stages([]) == [Dispatch];
    assert [Dispatch][0] == Dispatch && [Dispatch][1..] == [];
    HandlersInOrder(Listeners(s.handlers, u.updateType), u, s.matches, r);
  }

  /** One middleware that calls `$next` once around one message handler that returns: begin, handler, end. */
  lemma MiddlewareChainRun(s: Setup, u: Update, h: Handler, r: Run)
    requires r.thrown.None? && s.middlewares == [Middleware("m1", 1, None)]
    requires Listeners(s.handlers, u.updateType) == [Direct(h)] && h.effect == Returns
    ensures Polling.ProcessUpdate(s, u, r) == r.(effects := r.effects + [Entered("m1"), Called(h.name, u, None), Left("m1")])
  {
    var m1 := Middleware("m1", 1, None);
    var inner := r.(effects := r.effects + [Entered("m1")]);
    Onion([m1], s.handlers, s.matches, u, r);
    assert Enters([m1]) == [Entered("m1")] && Exits([m1]) == [Left("m1")];
    assert Fire([Direct(h)][0], u, s.matches) == Some(Call(h, None));
    HandlersInOrder([Direct(h)], u, s.matches, inner);
    assert CallEvents([Direct(h)], u, s.matches) == [Called(h.name, u, None)];
  }

  /**
   * The middleware test: one middleware that logs around `$next`, and one message handler.
   * The log reads begin, handler, end.
   */
  method MiddlewareChain(matches: Matcher, u: Update, h: Handler) returns (log: seq<Event>, thrown: Option<Failure>)
    requires u.updateType == MessageCreated && h.effect == Returns
    ensures log == [Entered("m1"), Called(h.name, u, None), Left("m1")] && thrown.None?
  {
    var bot := new Bot(matches);
    bot.Use(Middleware("m1", 1, None));
    bot.OnMessage(Direct(h));
    assert bot.handlers == Register(map[], MessageCreated, Direct(h));
    MiddlewareChainRun(Setup(bot.handlers, bot.middlewares, bot.errorHandler, bot.matches), u, h, Run(bot.effects, bot.running, None));
    thrown := bot.ProcessUpdate(u);
    log := bot.effects;
  }

  /** A batch of one update with a marker, dispatched to one message handler that calls `stop()`: the loop ends at that marker. */
  lemma RouteUpdatePoll(s: Setup, types: Option<set<UpdateType>>, u: Update, h: Handler)
    requires s.middlewares == [] && u.updateType == MessageCreated
    requires Listeners(s.handlers, MessageCreated) == [Direct(h)] && h.effect == CallsStop
    ensures Poll(s, 1, types, [Batch([u], Some(1)), Batch([], Some(1))], None, Run([], true, None)) ==
      Outcome(Some(1), Run([Polled(1, None, types), Called(h.name, u, None)], false, None), Stopped)
  {
    var start := Run([], true, None);
    var asked := Run([Polled(1, None, types)], true, None);
    assert start.(effects := start.effects + [Polled(1, None, types)]) == asked;
    var called := Run([Polled(1, None, types), Called(h.name, u, None)], false, None);
    assert CallEvents([Direct(h)], u, s.matches) == [Called(h.name, u, None)];
    assert SomeStops([Direct(h)], u, s.matches) by {
      assert Fire([Direct(h)][0], u, s.matches) == Some(Call(h, None));
    }
    NoMiddlewarePipeline(s, u, asked);
    assert DispatchAll(s, [u], asked) == DispatchAll(s, [], called) by {
      assert [u][1..] == [];
    }
    var script := [Batch([u], Some(1)), Batch([], Some(1))];
    assert Iteration(s, 1, types, script[0], None, start) == (Some(1), called);
    assert script[1..] == [Batch([], Some(1))];
  }

  /**
   * The routing test: a message handler that stops the bot, a first answer of one message
   * with marker 1. The handler runs once, and the loop ends before a second fetch, at marker 1.
   */
  method RouteUpdate(matches: Matcher, u: Update, h: Handler) returns (ending: Ending, log: seq<Event>, marker: Option<int>)
    requires u.updateType == MessageCreated && h.effect == CallsStop
    ensures ending == Stopped && marker == Some(1)
    ensures log == [Polled(1, None, Some({MessageCreated})), Called(h.name, u, None)]
  {
    var bot := new Bot(matches);
    bot.OnMessage(Direct(h));
    assert bot.handlers == Register(map[], MessageCreated, Direct(h));
    assert bot.handlers.Keys == {MessageCreated} by {
      var empty: Registry := map[];
      assert empty.Keys == {};
    }
    RouteUpdatePoll(Setup(bot.handlers, [], None, bot.matches), Some({MessageCreated}), u, h);
    ending := bot.Start(1, [Batch([u], Some(1)), Batch([], Some(1))]);
    log := bot.effects;
    marker := bot.GetMarker();
  }

  /** The command closure for `/start` passes `/start` on, with no arguments. */
  lemma StartPasses(c: Handler, u: Update, matches: Matcher)
    requires TextOrEmpty(u) == "/start"
    ensures Fire(Command("/start", c), u, matches) == Some(Call(c, Some([])))
  {
    ExplodeWord("/start", "");
    assert Explode("/start")[1..] == [];
  }

  /** The command closure for `/start` holds back `Not a command`. */
  lemma NotACommandHeldBack(c: Handler, u: Update, matches: Matcher)
    requires TextOrEmpty(u) == "Not a command"
    ensures Fire(Command("/start", c), u, matches) == None
  {
    assert "Not a command" == "Not" + " " + "a command";
    LongerWordDoesNotFire("/start", "Not", "a command");
  }

  /** Which handlers the two callables of the command test call for each message. */
  lemma CommandCalls(c: Handler, h: Handler, u1: Update, u2: Update, matches: Matcher)
    requires TextOrEmpty(u1) == "/start" && TextOrEmpty(u2) == "Not a command"
    requires c.effect == Returns && h.effect == CallsStop
    ensures var ls := [Command("/start", c), Direct(h)];
      CallEvents(ls, u1, matches) == [Called(c.name, u1, Some([])), Called(h.name, u1, None)] &&
      CallEvents(ls, u2, matches) == [Called(h.name, u2, None)] &&
      NoneThrows(ls, u1, matches) && NoneThrows(ls, u2, matches) &&
      SomeStops(ls, u1, matches) && SomeStops(ls, u2, matches)
  {
    StartPasses(c, u1, matches);
    NotACommandHeldBack(c, u2, matches);
    TwoListeners(Command("/start", c), Direct(h), u1, matches);
    TwoListeners(Command("/start", c), Direct(h), u2, matches);
  }

  /** The first message of the command test, `/start`: the command handler with no arguments, then the message handler, which stops the bot. */
  lemma CommandFirstMessage(s: Setup, u1: Update, u2: Update, c: Handler, h: Handler, r: Run)
    requires s.middlewares == [] && u1.updateType == MessageCreated && r.thrown.None?
    requires Listeners(s.handlers, MessageCreated) == [Command("/start", c), Direct(h)]
    requires TextOrEmpty(u1) == "/start" && TextOrEmpty(u2) == "Not a command"
    requires c.effect == Returns && h.effect == CallsStop
    ensures Polling.ProcessUpdate(s, u1, r) == Run(r.effects + [Called(c.name, u1, Some([])), Called(h.name, u1, None)], false, None)
  {
    CommandCalls(c, h, u1, u2, s.matches);
    NoMiddlewarePipeline(s, u1, r);
  }

  /** The second message of the command test, `Not a command`: only the message handler. */
  lemma CommandSecondMessage(s: Setup, u1: Update, u2: Update, c: Handler, h: Handler, r: Run)
    requires s.middlewares == [] && u2.updateType == MessageCreated && r.thrown.None?
    requires Listeners(s.handlers, MessageCreated) == [Command("/start", c), Direct(h)]
    requires TextOrEmpty(u1) == "/start" && TextOrEmpty(u2) == "Not a command"
    requires c.effect == Returns && h.effect == CallsStop
    ensures Polling.ProcessUpdate(s, u2, r) == Run(r.effects + [Called(h.name, u2, None)], false, None)
  {
    CommandCalls(c, h, u1, u2, s.matches);
    NoMiddlewarePipeline(s, u2, r);
  }

  /** A command handler that returns and a message handler that calls `stop()`, over a batch of `/start` and `Not a command`. */
  lemma CommandBatch(s: Setup, u1: Update, u2: Update, c: Handler, h: Handler, r: Run)
    requires s.middlewares == [] && u1.updateType == MessageCreated && u2.updateType == MessageCreated
    requires Listeners(s.handlers, MessageCreated) == [Command("/start", c), Direct(h)]
    requires TextOrEmpty(u1) == "/start" && TextOrEmpty(u2) == "Not a command"
    requires c.effect == Returns && h.effect == CallsStop && r.thrown.None?
    ensures DispatchAll(s, [u1, u2], r) ==
      Run(r.effects + [Called(c.name, u1, Some([])), Called(h.name, u1, None), Called(h.name, u2, None)], false, None)
  {
    CommandFirstMessage(s, u1, u2, c, h, r);
    var first := Polling.ProcessUpdate(s, u1, r);
    CommandSecondMessage(s, u1, u2, c, h, first);
    DispatchPair(s, u1, u2, r);
    assert first.effects + [Called(h.name, u2, None)] ==
      r.effects + [Called(c.name, u1, Some([])), Called(h.name, u1, None), Called(h.name, u2, None)];
  }

  /** The whole loop of the command test: one pass, then `stop()` ends it at marker 1. */
  lemma CommandFilterPoll(s: Setup, types: Option<set<UpdateType>>, u1: Update, u2: Update, c: Handler, h: Handler)
    requires s.middlewares == [] && u1.updateType == MessageCreated && u2.updateType == MessageCreated
    requires Listeners(s.handlers, MessageCreated) == [Command("/start", c), Direct(h)]
    requires TextOrEmpty(u1) == "/start" && TextOrEmpty(u2) == "Not a command"
    requires c.effect == Returns && h.effect == CallsStop
    ensures Poll(s, 1, types, [Batch([u1, u2], Some(1)), Batch([], Some(1))], None, Run([], true, None)) ==
      Outcome(Some(1), Run([Polled(1, None, types), Called(c.name, u1, Some([])), Called(h.name, u1, None),
                            Called(h.name, u2, None)], false, None), Stopped)
  {
    var start := Run([], true, None);
    assert start.(effects := start.effects + [Polled(1, None, types)]) == Run([Polled(1, None, types)], true, None);
    CommandBatch(s, u1, u2, c, h, Run([Polled(1, None, types)], true, None));
    var script := [Batch([u1, u2], Some(1)), Batch([], Some(1))];
    assert script[1..] == [Batch([], Some(1))];
  }

  /**
   * The command test: `onCommand('start')` and a message handler that stops the bot, a batch
   * of `/start` and `Not a command`. The command handler runs on the first message only, with
   * no arguments, the message handler on both: `stop()` does not cut the batch short.
   */
  method CommandFilter(matches: Matcher, u1: Update, u2: Update, c: Handler, h: Handler) returns (ending: Ending, log: seq<Event>)
    requires u1.updateType == MessageCreated && u1.message.Some? && Text(u1.message.value) == Some("/start")
    requires u2.updateType == MessageCreated && u2.message.Some? && Text(u2.message.value) == Some("Not a command")
    requires c.effect == Returns && h.effect == CallsStop
    ensures ending == Stopped
    ensures log == [Polled(1, None, Some({MessageCreated})), Called(c.name, u1, Some([])),
                    Called(h.name, u1, None), Called(h.name, u2, None)]
  {
    var bot := new Bot(matches);
    bot.OnCommand("start", c);
    StartIsNormalised();
    bot.OnMessage(Direct(h));
    assert bot.handlers == Register(Register(map[], MessageCreated, Command("/start", c)), MessageCreated, Direct(h));
    assert Listeners(bot.handlers, MessageCreated) == [Command("/start", c), Direct(h)];
    assert bot.handlers.Keys == {MessageCreated} by {
      var empty: Registry := map[];
      assert empty.Keys == {};
    }
    CommandFilterPoll(Setup(bot.handlers, [], None, bot.matches), Some({MessageCreated}), u1, u2, c, h);
    ending := bot.Start(1, [Batch([u1, u2], Some(1)), Batch([], Some(1))]);
    log := bot.effects;
  }

  /** `setMarker` then `getMarker` gives the marker back, and nothing else changes. */
  method MarkerRoundTrip(matches: Matcher, m: Option<int>) returns (got: Option<int>, state: BotState)
    ensures got == m && state == BotState(map[], [], false, m, None, [])
  {
    var bot := new Bot(matches);
    bot.SetMarker(m);
    got := bot.GetMarker();
    state := bot.State();
  }
}
