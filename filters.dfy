/**
 * The callables a bot registers (`src/Bot.php`): the user's own handlers, and the filtering
 * closures the `on*` sugar wraps around them. A user callable is arbitrary code; the model
 * keeps only its name and what it does to the bot (return, call `stop()`, or throw).
 */
module Filters {
  import opened Wrappers
  import opened PhpStrings
  import opened Messages
  import opened Updates

  /** A thrown value. `catch (\Exception $e)` catches the first kind only; a PHP `\Error` (a TypeError, a ValueError) passes through it. */
  datatype Failure = Exception(reason: string) | Error(reason: string)

  /** What a user callable does once called. */
  datatype Effect = Returns | CallsStop | Throws(failure: Failure)

  /** A user callable, known by its name. */
  datatype Handler = Handler(name: string, effect: Effect)

  /** `preg_match($pattern, $subject)` read as a truth value; the regular-expression engine is not modelled. */
  type Matcher = (string, string) -> bool

  /**
   * A callable in the registry. `Direct` is a callable registered with `on`, `onMessage`,
   * `onCallback`, `onUserJoined` or `onUserRemoved`; the others are the closures built by
   * `onCommand` (holding the already normalised command), `onCallbackQuery`, `onText`, and
   * `onPhoto`/`onVideo`/`onLocation`/`onContact` (holding the attachment type tag).
   */
  datatype Listener =
    | Direct(handler: Handler)
    | Command(command: string, handler: Handler)
    | PayloadMatch(pattern: string, handler: Handler)
    | TextMatch(pattern: string, handler: Handler)
    | WithAttachment(kind: string, handler: Handler)

  /** A call of a user handler: which one, and for a command handler the argument list it receives. */
  datatype Call = Call(handler: Handler, args: Option<seq<string>>)

  /** `'/' . ltrim($command, '/')`: every leading slash is stripped, then exactly one is put back. */
  function NormaliseCommand(command: string): (r: string)
    ensures |r| >= 1 && r[0] == '/' && (|r| == 1 || r[1] != '/')
    ensures r[1..] == LTrim(command, '/') && |r| <= |command| + 1
  {
    "/" + LTrim(command, '/')
  }

  /** However many slashes the command is registered with, it means the same command. */
  lemma LeadingSlashIgnored(command: string)
    ensures NormaliseCommand("/" + command) == NormaliseCommand(command)
  {
    assert ("/" + command)[1..] == command;
  }

  /** Normalising twice changes nothing. */
  lemma NormaliseIdempotent(command: string)
    ensures NormaliseCommand(NormaliseCommand(command)) == NormaliseCommand(command)
  {
    var n := NormaliseCommand(command);
    LeadingSlashIgnored(LTrim(command, '/'));
    var t := LTrim(command, '/');
    assert t == [] || t[0] != '/';
    assert LTrim(t, '/') == t;
  }

  /** `$update->message?->getText() ?? ''` */
  function TextOrEmpty(u: Update): string {
    if u.message.Some? && Text(u.message.value).Some? then Text(u.message.value).value else ""
  }

  /**
   * The `onCommand` closure: split the text on every single space; the handler runs when
   * piece 0 equals the command up to ASCII letter case, and receives the other pieces.
   */
  function CommandArgs(command: string, text: string): (r: Option<seq<string>>)
    ensures r.Some? ==> |Explode(text)[0]| == |command| && |r.value| == |Explode(text)| - 1
    ensures r.Some? ==> forall k | 0 <= k < |r.value| :: ' ' !in r.value[k]
  {
    var parts := Explode(text);
    if StrCaseEquals(parts[0], command) then Some(parts[1..]) else None
  }

  /** A text made of the command word and space-free arguments runs the command with exactly those arguments. */
  lemma CommandFires(command: string, word: string, args: seq<string>)
    requires StrCaseEquals(word, command) && ' ' !in word
    requires forall k | 0 <= k < |args| :: ' ' !in args[k]
    ensures CommandArgs(command, Implode([word] + args)) == Some(args)
  {
    var parts := [word] + args;
    forall k | 0 <= k < |parts|
      ensures ' ' !in parts[k]
    {
      if k > 0 {
        assert parts[k] == args[k - 1];
      }
    }
    ExplodeImplode(parts);
    assert parts[1..] == args;
  }

  /** Conversely, a text that runs the command is its first word, the command in some letter case, joined by single spaces to the arguments. */
  lemma CommandFired(command: string, text: string)
    requires CommandArgs(command, text).Some?
    ensures var word := Explode(text)[0];
      StrCaseEquals(word, command) && ' ' !in word &&
      text == Implode([word] + CommandArgs(command, text).value)
  {
    var parts := Explode(text);
    ImplodeExplode(text);
    assert parts == [parts[0]] + parts[1..];
  }

  /** A first word of another length never matches: `/starter` does not run `/start`. */
  lemma LongerWordDoesNotFire(command: string, word: string, rest: string)
    requires ' ' !in word && |word| != |command|
    ensures CommandArgs(command, word) == None
    ensures CommandArgs(command, word + " " + rest) == None
  {
    ExplodeWord(word, rest);
  }

  /** `onCommand('start')` is the command `/start`. */
  lemma StartIsNormalised()
    ensures NormaliseCommand("start") == "/start"
  {
    assert LTrim("start", '/') == "start";
  }

  /** `onCommand('start')` does not fire on `/starter`. */
  lemma StarterIsNotStart()
    ensures CommandArgs(NormaliseCommand("start"), "/starter") == None
  {
    StartIsNormalised();
    LongerWordDoesNotFire("/start", "/starter", "");
  }

  /** `onCommand('start')` fires on `/Start a b`, with the arguments `a` and `b`. */
  lemma StartWithArguments()
    ensures CommandArgs(NormaliseCommand("start"), "/Start a b") == Some(["a", "b"])
  {
    StartIsNormalised();
    var word := "/Start";
    assert StrCaseEquals(word, "/start") by {
      assert Lowered(word) == "/start";
    }
    assert Implode(["a", "b"]) == "a b";
    assert Implode([word, "a", "b"]) == "/Start a b";
    assert [word] + ["a", "b"] == [word, "a", "b"];
    assert ' ' !in word;
    CommandFires("/start", word, ["a", "b"]);
  }

  /** `str_starts_with($pattern, '/') && strlen($pattern) > 1` */
  predicate IsRegexPattern(pattern: string) {
    |pattern| > 1 && pattern[0] == '/'
  }

  /** `$update->callback?->payload ?? ''` */
  function CallbackPayload(u: Update): string {
    if u.callback.Some? then u.callback.value.payload else ""
  }

  /** The `onCallbackQuery` test: a regular expression when the pattern is one, otherwise strict equality. */
  function PayloadMatches(matches: Matcher, pattern: string, payload: string): (b: bool)
    ensures IsRegexPattern(pattern) ==> (b <==> matches(pattern, payload))
    ensures !IsRegexPattern(pattern) ==> (b <==> payload == pattern)
  {
    if IsRegexPattern(pattern) then matches(pattern, payload) else payload == pattern
  }

  /** A pattern that is not a regular expression, the lone `/` among them, is compared exactly, whatever the regex engine would say. */
  lemma PlainPatternIsExact(matches: Matcher, pattern: string, payload: string)
    requires !IsRegexPattern(pattern)
    ensures PayloadMatches(matches, pattern, payload) <==> payload == pattern
  {
  }

  /** The `onText` test: the text must be present and PHP-truthy before the pattern is tried. */
  function TextFires(matches: Matcher, pattern: string, u: Update): (b: bool)
    ensures b <==> (u.message.Some? && Text(u.message.value).Some? &&
      Text(u.message.value).value != "" && Text(u.message.value).value != "0" &&
      matches(pattern, Text(u.message.value).value))
  {
    var text := if u.message.Some? then Text(u.message.value) else None;
    text.Some? && TruthyString(text.value) && matches(pattern, text.value)
  }

  /** A missing text, `''` and `"0"` never reach the pattern, even one that matches everything. */
  lemma FalsyTextNeverFires(matches: Matcher, pattern: string, u: Update)
    requires u.message.None? || Text(u.message.value) in {None, Some(""), Some("0")}
    ensures !TextFires(matches, pattern, u)
  {
  }

  /** The `onPhoto`, `onVideo`, `onLocation` and `onContact` test: `$update->message?->hasAttachmentType($kind)`. */
  function AttachmentFires(kind: string, u: Update): (b: bool)
    ensures b <==> (u.message.Some? &&
      exists j | 0 <= j < |AttachmentList(u.message.value)| :: AttachmentList(u.message.value)[j].kind == kind)
  {
    u.message.Some? && HasAttachmentType(u.message.value, kind)
  }

  /**
   * What calling a registered callable with update `u` does: the handler call it makes, if
   * any. A direct handler is always called; a filter closure calls its handler only when its
   * test passes, and the command closure passes the arguments along.
   */
  function Fire(l: Listener, u: Update, matches: Matcher): (r: Option<Call>)
    ensures l.Direct? ==> r == Some(Call(l.handler, None))
    ensures r.Some? ==> r.value.handler == l.handler && (r.value.args.Some? <==> l.Command?)
    ensures l.Command? ==> r == (var args := CommandArgs(l.command, TextOrEmpty(u));
                                 if args.Some? then Some(Call(l.handler, args)) else None)
    ensures l.PayloadMatch? ==> (r.Some? <==> PayloadMatches(matches, l.pattern, CallbackPayload(u)))
    ensures l.TextMatch? ==> (r.Some? <==> TextFires(matches, l.pattern, u))
    ensures l.WithAttachment? ==> (r.Some? <==> AttachmentFires(l.kind, u))
  {
    match l
    case Direct(h) => Some(Call(h, None))
    case Command(command, h) =>
      var args := CommandArgs(command, TextOrEmpty(u));
      if args.Some? then Some(Call(h, args)) else None
    case PayloadMatch(pattern, h) =>
      if PayloadMatches(matches, pattern, CallbackPayload(u)) then Some(Call(h, None)) else None
    case TextMatch(pattern, h) =>
      if TextFires(matches, pattern, u) then Some(Call(h, None)) else None
    case WithAttachment(kind, h) =>
      if AttachmentFires(kind, u) then Some(Call(h, None)) else None
  }
}
