/**
 * Updates delivered to the bot (`src/Models/Update.php`, `UpdatesResponse.php`,
 * `CallbackQuery.php`): the event record, its decoder with the type fallback, and the
 * polling response.
 */
module Updates {
  import opened Wrappers
  import opened PhpStrings
  import opened Json
  import opened Enums
  import opened Users
  import opened Messages

  /** A press of a callback button. */
  datatype CallbackQuery = CallbackQuery(callbackId: string, payload: string, user: Option<User>, message: Option<Message>)

  /** `CallbackQuery::fromArray` */
  function CallbackQueryFromArray(d: Entries): (r: Decoded<CallbackQuery>)
    ensures r.Ok? && Get(d, "payload").Some? && Get(d, "payload").value.JStr? ==> r.value.payload == Get(d, "payload").value.s
    ensures r.Ok? ==> (r.value.user.None? <==> !Isset(d, "user")) && (r.value.message.None? <==> !Isset(d, "message"))
    // decoding succeeds exactly when every field does
    ensures r.Ok? <==>
      !(Get(d, "callback_id").Some? && Get(d, "callback_id").value.JFloat?) &&
      !(Get(d, "payload").Some? && Get(d, "payload").value.JFloat?) &&
      DecodeIfSet(d, "user", UserFromArray).Ok? && DecodeIfSet(d, "message", MessageFromArray).Ok?
  {
    var callbackId :- StringCast(Get(d, "callback_id"), "callback_id");
    var payload :- StringCast(Get(d, "payload"), "payload");
    var user :- DecodeIfSet(d, "user", UserFromArray);
    var message :- DecodeIfSet(d, "message", MessageFromArray);
    Ok(CallbackQuery(callbackId, payload, user, message))
  }

  /** One event. */
  datatype Update = Update(
    updateType: UpdateType,
    timestamp: int,
    message: Option<Message>,
    sender: Option<User>,
    userLocale: Option<string>,
    callback: Option<CallbackQuery>,
    user: Option<User>,
    chatId: Option<string>,
    mid: Option<string>,
    title: Option<string>)

  /** `isset($a[$k]) ? (string)$a[$k] : null` */
  function OptStringCast(d: Entries, k: string): (r: Decoded<Option<string>>)
    ensures r == Ok(None) <==> !Isset(d, k)
    ensures Isset(d, k) && Get(d, k).value.JStr? ==> r == Ok(Some(Get(d, k).value.s))
    ensures Isset(d, k) && Get(d, k).value.JInt? ==> r == Ok(Some(IntToDecimal(Get(d, k).value.i)))
    ensures r.Err? <==> Isset(d, k) && Get(d, k).value.JFloat?
  {
    if !Isset(d, k) then Ok(None)
    else
      var s :- StringCast(Get(d, k), k);
      Ok(Some(s))
  }

  /** Everything `Update::fromArray` reads besides `update_type`, given the case that type resolved to. */
  function UpdateWithType(d: Entries, t: UpdateType): (r: Decoded<Update>)
    ensures r.Ok? ==> r.value.updateType == t
    ensures r.Ok? && Get(d, "timestamp").Some? && Get(d, "timestamp").value.JInt? ==> r.value.timestamp == Get(d, "timestamp").value.i
    ensures r.Ok? ==> (r.value.message.None? <==> !Isset(d, "message")) && (r.value.sender.None? <==> !Isset(d, "sender"))
    ensures r.Ok? ==> (r.value.callback.None? <==> !Isset(d, "callback")) && (r.value.user.None? <==> !Isset(d, "user"))
    ensures r.Ok? ==> Ok(r.value.chatId) == OptStringCast(d, "chat_id") && Ok(r.value.mid) == OptStringCast(d, "mid")
    ensures r.Ok? ==> Ok(r.value.title) == OptString(d, "title") && Ok(r.value.userLocale) == OptString(d, "user_locale")
    // decoding succeeds exactly when every field does
    ensures r.Ok? <==>
      !(Get(d, "timestamp").Some? && Get(d, "timestamp").value.JStr?) &&
      DecodeIfSet(d, "message", MessageFromArray).Ok? && DecodeIfSet(d, "sender", UserFromArray).Ok? &&
      DecodeIfSet(d, "callback", CallbackQueryFromArray).Ok? && DecodeIfSet(d, "user", UserFromArray).Ok? &&
      !(Isset(d, "chat_id") && Get(d, "chat_id").value.JFloat?) && !(Isset(d, "mid") && Get(d, "mid").value.JFloat?) &&
      OptString(d, "title").Ok? && OptString(d, "user_locale").Ok?
  {
    var timestamp :- IntCast(Get(d, "timestamp"), "timestamp");
    var message :- DecodeIfSet(d, "message", MessageFromArray);
    var sender :- DecodeIfSet(d, "sender", UserFromArray);
    var userLocale :- OptString(d, "user_locale");
    var callback :- DecodeIfSet(d, "callback", CallbackQueryFromArray);
    var user :- DecodeIfSet(d, "user", UserFromArray);
    var chatId :- OptStringCast(d, "chat_id");
    var mid :- OptStringCast(d, "mid");
    var title :- OptString(d, "title");
    Ok(Update(t, timestamp, message, sender, userLocale, callback, user, chatId, mid, title))
  }

  /** `Update::fromArray`: an `update_type` that names no case falls back to `message_created`. */
  function UpdateFromArray(d: Entries): (r: Decoded<Update>)
    ensures Get(d, "update_type").Some? && Get(d, "update_type").value.JStr? ==>
      r == UpdateWithType(d, UpdateTypeFrom(Get(d, "update_type").value.s).GetOr(MessageCreated))
  {
    var typeStr :- StringCast(Get(d, "update_type"), "update_type");
    UpdateWithType(d, UpdateTypeFrom(typeStr).GetOr(MessageCreated))
  }

  /** The type string only picks the case: it never decides whether decoding succeeds. */
  lemma {:induction false} TypeNeverFails(d: Entries, t1: UpdateType, t2: UpdateType)
    ensures UpdateWithType(d, t1).Ok? == UpdateWithType(d, t2).Ok?
    ensures UpdateWithType(d, t1).Ok? ==> UpdateWithType(d, t2) == Ok(UpdateWithType(d, t1).value.(updateType := t2))
  {
    if UpdateWithType(d, t1).Ok? {
      var timestamp := IntCast(Get(d, "timestamp"), "timestamp").value;
      var message := DecodeIfSet(d, "message", MessageFromArray).value;
      var sender := DecodeIfSet(d, "sender", UserFromArray).value;
      var userLocale := OptString(d, "user_locale").value;
      var callback := DecodeIfSet(d, "callback", CallbackQueryFromArray).value;
      var user := DecodeIfSet(d, "user", UserFromArray).value;
      var chatId := OptStringCast(d, "chat_id").value;
      var mid := OptStringCast(d, "mid").value;
      var title := OptString(d, "title").value;
      assert UpdateWithType(d, t1) == Ok(Update(t1, timestamp, message, sender, userLocale, callback, user, chatId, mid, title));
      assert UpdateWithType(d, t2) == Ok(Update(t2, timestamp, message, sender, userLocale, callback, user, chatId, mid, title));
    }
  }

  /** A known type string decodes to its own case. */
  lemma KnownType(d: Entries, t: UpdateType)
    requires Get(d, "update_type") == Some(JStr(UpdateTypeValue(t)))
    ensures UpdateFromArray(d) == UpdateWithType(d, t)
  {
  }

  /** An unknown type string decodes as `message_created`, and no error comes of it. */
  lemma UnknownType(d: Entries, s: string)
    requires Get(d, "update_type") == Some(JStr(s))
    requires forall t :: UpdateTypeValue(t) != s
    ensures UpdateFromArray(d) == UpdateWithType(d, MessageCreated)
  {
    assert UpdateTypeFrom(s).None? by {
      if UpdateTypeFrom(s).Some? {
        UpdateTypeFromExact(s, UpdateTypeFrom(s).value);
        assert false;
      }
    }
  }

  /** The body of the update test's message: `mid`, `seq` and `text`, nothing else. */
  lemma BodyFixtureDecodes(b: Entries)
    requires |b| == 3 && b[0] == ("mid", JStr("1")) && b[1] == ("seq", JInt(1)) && b[2] == ("text", JStr("Hi"))
    ensures MessageBodyFromArray(b) == Ok(MessageBody("1", 1, Some("Hi"), None, None))
  {
    assert b == [b[0], b[1], b[2]];
    GetTriple(b[0], b[1], b[2], "mid");
    GetTriple(b[0], b[1], b[2], "seq");
    GetTriple(b[0], b[1], b[2], "text");
    GetTriple(b[0], b[1], b[2], "attachments");
    GetTriple(b[0], b[1], b[2], "markup");
  }

  /** The recipient of the update test's message: a chat id alone. */
  lemma RecipientFixtureDecodes(c: Entries)
    requires c == [("chat_id", JInt(1))]
    ensures RecipientFromArray(c) == Ok(Recipient(Some(1), None, None))
  {
    assert c[1..] == [];
  }

  /** The fields of the update test's message: a timestamp, a recipient and a body, nothing else. */
  lemma MessageFixtureFields(m: Entries)
    requires |m| == 3 && m[0] == ("timestamp", JInt(111)) && m[1].0 == "recipient" && m[2].0 == "body" && m[2].1 != JNull
    ensures Get(m, "timestamp") == Some(JInt(111)) && Get(m, "recipient") == Some(m[1].1) && Get(m, "body") == Some(m[2].1)
    ensures !Isset(m, "sender") && !Isset(m, "link") && !Isset(m, "stat") && !Isset(m, "url")
  {
    assert m == [m[0], m[1], m[2]];
    GetTriple(m[0], m[1], m[2], "timestamp");
    GetTriple(m[0], m[1], m[2], "recipient");
    GetTriple(m[0], m[1], m[2], "body");
    GetTriple(m[0], m[1], m[2], "sender");
    GetTriple(m[0], m[1], m[2], "link");
    GetTriple(m[0], m[1], m[2], "stat");
    GetTriple(m[0], m[1], m[2], "url");
  }

  /** The update test's message: a timestamp, a recipient and a body. */
  lemma MessageFixtureDecodes(m: Entries)
    requires |m| == 3 && m[0] == ("timestamp", JInt(111)) && m[1] == ("recipient", JObj([("chat_id", JInt(1))]))
    requires m[2] == ("body", JObj([("mid", JStr("1")), ("seq", JInt(1)), ("text", JStr("Hi"))]))
    ensures var r := MessageFromArray(m);
      r.Ok? && r.value.timestamp == 111 && r.value.body == MessageBody("1", 1, Some("Hi"), None, None) &&
      r.value.recipient == Recipient(Some(1), None, None)
  {
    MessageFixtureFields(m);
    BodyFixtureDecodes(m[2].1.entries);
    RecipientFixtureDecodes(m[1].1.entries);
    assert BodySource(m) == m[2].1;
  }

  /** The fields of the update test's record: a type, a timestamp and a message, nothing else. */
  lemma UpdateFixtureFields(d: Entries)
    requires |d| == 3 && d[0] == ("update_type", JStr("message_created")) && d[1] == ("timestamp", JInt(111))
    requires d[2].0 == "message" && d[2].1 != JNull
    ensures Get(d, "update_type") == Some(JStr("message_created")) && Get(d, "timestamp") == Some(JInt(111))
    ensures Get(d, "message") == Some(d[2].1)
    ensures !Isset(d, "sender") && !Isset(d, "user_locale") && !Isset(d, "callback") && !Isset(d, "user")
    ensures !Isset(d, "chat_id") && !Isset(d, "mid") && !Isset(d, "title")
  {
    assert d == [d[0], d[1], d[2]];
    GetTriple(d[0], d[1], d[2], "update_type");
    GetTriple(d[0], d[1], d[2], "timestamp");
    GetTriple(d[0], d[1], d[2], "message");
    GetTriple(d[0], d[1], d[2], "sender");
    GetTriple(d[0], d[1], d[2], "user_locale");
    GetTriple(d[0], d[1], d[2], "callback");
    GetTriple(d[0], d[1], d[2], "user");
    GetTriple(d[0], d[1], d[2], "chat_id");
    GetTriple(d[0], d[1], d[2], "mid");
    GetTriple(d[0], d[1], d[2], "title");
  }

  /** `tests/Models/UpdateTest.php`: its record decodes to a `message_created` update whose message reads "Hi". */
  lemma UpdateFixtureDecodes(d: Entries)
    requires |d| == 3 && d[0] == ("update_type", JStr("message_created")) && d[1] == ("timestamp", JInt(111))
    requires d[2] == ("message", JObj([("timestamp", JInt(111)), ("recipient", JObj([("chat_id", JInt(1))])),
                                      ("body", JObj([("mid", JStr("1")), ("seq", JInt(1)), ("text", JStr("Hi"))]))]))
    ensures var r := UpdateFromArray(d);
      r.Ok? && r.value.updateType == MessageCreated && r.value.timestamp == 111 &&
      r.value.message.Some? && Text(r.value.message.value) == Some("Hi")
  {
    UpdateFixtureFields(d);
    MessageFixtureDecodes(d[2].1.entries);
    KnownType(d, MessageCreated);
  }

  /** The answer to a poll for updates. */
  datatype UpdatesResponse = UpdatesResponse(updates: seq<Update>, marker: Option<int>)

  /** `UpdatesResponse::fromArray`: a missing `updates` is an empty list. */
  function UpdatesResponseFromArray(d: Entries): (r: Decoded<UpdatesResponse>)
    ensures r.Ok? <==>
      DecodeList(Some(Val(d, "updates").GetOr(JList([]))), "updates", UpdateFromArray).Ok? && OptInt(d, "marker").Ok?
    ensures r.Ok? ==>
      Ok(r.value.updates) == DecodeList(Some(Val(d, "updates").GetOr(JList([]))), "updates", UpdateFromArray) &&
      Ok(r.value.marker) == OptInt(d, "marker")
    ensures r.Ok? && !Isset(d, "updates") ==> r.value.updates == []
    ensures r.Ok? ==> (r.value.marker.None? <==> !Isset(d, "marker"))
  {
    var updates :- DecodeList(Some(Val(d, "updates").GetOr(JList([]))), "updates", UpdateFromArray);
    var marker :- OptInt(d, "marker");
    Ok(UpdatesResponse(updates, marker))
  }
}
