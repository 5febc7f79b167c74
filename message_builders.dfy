/**
 * The message builders (`src/Builders/MessageBuilder.php`, `src/Builders/MessageEditBuilder.php`):
 * objects holding the request body (and, for a new message, the query string) as PHP arrays
 * that their fluent setters update in place.
 */
module MessageBuilders {
  import opened Wrappers
  import opened PhpStrings
  import opened Json
  import opened Enums
  import opened Payloads
  import opened Attachments
  import opened Keyboard

  /** The `link` object of a reply or a forward. */
  function LinkTo(t: MessageLinkType, messageId: string): Json {
    JObj([("type", JStr(MessageLinkTypeValue(t))), ("mid", JStr(messageId))])
  }

  /** The array an attachment is sent as. */
  function Sent(a: Attachment): Json {
    JObj(Attachments.ToArray(a))
  }

  /** What the builders send for an attachment whose tag names its payload's class reads back as that attachment. */
  lemma SentReadsBack(a: Attachment)
    requires ClassForKind(a.kind) == ClassOf(a.payload)
    ensures Sent(a).JObj? && AttachmentFromArray(Sent(a).entries) == Ok(a)
  {
    AttachmentRoundTrip(a);
  }

  /** A builder for a new message: the body in `data`, the recipient and flags in `queryParams`. */
  class MessageBuilder {
    var data: Entries
    var queryParams: Entries

    /** Both arrays name each key once, and `attachments`, when present, is a list. */
    ghost predicate Valid()
      reads this
    {
      DistinctKeys(data) && DistinctKeys(queryParams) && ListOrAbsent(data, "attachments")
    }

    /** The constructor: `chat_id` and `user_id` go to the query string only when PHP reads them as true. */
    constructor (chatId: Option<string> := None, userId: Option<int> := None)
      ensures Valid() && data == []
      ensures queryParams ==
        (if chatId.Some? && TruthyString(chatId.value) then [("chat_id", JStr(chatId.value))] else []) +
        (if userId.Some? && userId.value != 0 then [("user_id", JInt(userId.value))] else [])
    {
      data := [];
      var q: Entries := [];
      if chatId.Some? && TruthyString(chatId.value) {
        q := q + [("chat_id", JStr(chatId.value))];
      }
      if userId.Some? && userId.value != 0 {
        q := q + [("user_id", JInt(userId.value))];
      }
      queryParams := q;
    }

    /** `build()`: the body, each key once, with `attachments` a list when present. */
    function Build(): (r: Entries)
      reads this
      ensures Valid() ==> DistinctKeys(r) && ListOrAbsent(r, "attachments")
    {
      data
    }

    /** `getQueryParams()`: the query string, each key once. */
    function QueryParams(): (r: Entries)
      reads this
      ensures Valid() ==> DistinctKeys(r)
    {
      queryParams
    }

    /** Writes one key of the body; the rest of the body and the query string stay as they were. */
    method Set(k: string, v: Json)
      requires Valid() && k != "attachments"
      modifies this
      ensures Valid()
      ensures data == Assign(old(data), k, v) && queryParams == old(queryParams)
      ensures Get(data, k) == Some(v)
      ensures forall k' | k' != k :: Get(data, k') == Get(old(data), k')
    {
      AssignDistinct(data, k, v);
      data := Assign(data, k, v);
    }

    /** `text($text)` */
    method Text(text: string)
      requires Valid()
      modifies this
      ensures Valid()
      ensures data == Assign(old(data), "text", JStr(text)) && queryParams == old(queryParams)
    {
      Set("text", JStr(text));
    }

    /** `format($mode)`: the mode's string value. */
    method Format(mode: ParseMode)
      requires Valid()
      modifies this
      ensures Valid()
      ensures data == Assign(old(data), "format", JStr(ParseModeValue(mode))) && queryParams == old(queryParams)
    {
      Set("format", JStr(ParseModeValue(mode)));
    }

    /** `notify($notify = true)` */
    method Notify(notify: bool := true)
      requires Valid()
      modifies this
      ensures Valid()
      ensures data == Assign(old(data), "notify", JBool(notify)) && queryParams == old(queryParams)
    {
      Set("notify", JBool(notify));
    }

    /** `disableLinkPreview($disable = true)`: a query-string flag; the body is untouched. */
    method DisableLinkPreview(disable: bool := true)
      requires Valid()
      modifies this
      ensures Valid()
      ensures queryParams == Assign(old(queryParams), "disable_link_preview", JBool(disable)) && data == old(data)
      ensures Get(queryParams, "disable_link_preview") == Some(JBool(disable))
      ensures forall k | k != "disable_link_preview" :: Get(queryParams, k) == Get(old(queryParams), k)
    {
      AssignDistinct(queryParams, "disable_link_preview", JBool(disable));
      queryParams := Assign(queryParams, "disable_link_preview", JBool(disable));
    }

    /** `replyTo($messageId)`: `link` becomes a reply link, replacing any earlier link. */
    method ReplyTo(messageId: string)
      requires Valid()
      modifies this
      ensures Valid()
      ensures data == Assign(old(data), "link", LinkTo(Reply, messageId)) && queryParams == old(queryParams)
    {
      Set("link", LinkTo(Reply, messageId));
    }

    /** `forwardFrom($messageId)`: `link` becomes a forward link, replacing any earlier link. */
    method ForwardFrom(messageId: string)
      requires Valid()
      modifies this
      ensures Valid()
      ensures data == Assign(old(data), "link", LinkTo(Forward, messageId)) && queryParams == old(queryParams)
    {
      Set("link", LinkTo(Forward, messageId));
    }

    /** `addAttachment($attachment)`: appended after the attachments already added, which stay as they were. */
    method AddAttachment(a: Attachment)
      requires Valid()
      modifies this
      ensures Valid()
      ensures data == Push(old(data), "attachments", Sent(a)) && queryParams == old(queryParams)
      ensures ListAt(data, "attachments") == ListAt(old(data), "attachments") + [Sent(a)]
      ensures forall k | k != "attachments" :: Get(data, k) == Get(old(data), k)
    {
      AssignDistinct(data, "attachments", JList(ListAt(data, "attachments") + [Sent(a)]));
      data := Push(data, "attachments", Sent(a));
    }

    /** `inlineKeyboard($keyboard)`: an `inline_keyboard` attachment carrying the rows as `buttons`. */
    method InlineKeyboard(keyboard: Keyboard.InlineKeyboard)
      requires Valid()
      modifies this
      ensures Valid()
      ensures ListAt(data, "attachments") ==
        ListAt(old(data), "attachments") + [Sent(Attachment("inline_keyboard", Generic([("buttons", keyboard.ToArray())])))]
      ensures forall k | k != "attachments" :: Get(data, k) == Get(old(data), k)
      ensures queryParams == old(queryParams)
    {
      AddAttachment(Attachment("inline_keyboard", Generic([("buttons", keyboard.ToArray())])));
    }

    /** One of the attachment helpers (`photoUrl`, `audio`, `contact`, ...): appends the attachment it stands for. */
    method AddHelper(h: Helper)
      requires Valid()
      modifies this
      ensures Valid()
      ensures ListAt(data, "attachments") == ListAt(old(data), "attachments") + [Sent(HelperAttachment(h))]
      ensures forall k | k != "attachments" :: Get(data, k) == Get(old(data), k)
      ensures queryParams == old(queryParams)
    {
      AddAttachment(HelperAttachment(h));
    }
  }

  /** The attachment helpers of the message builder, with their arguments. */
  datatype Helper =
    | PhotoUrl(url: string)
    | PhotoToken(token: string)
    | Audio(token: string)
    | VideoFile(token: string)
    | File(token: string)
    | StickerCode(code: string)
    | ContactCard(name: string, contactId: Option<int>, vcfInfo: Option<string>)
    | Place(latitude: real, longitude: real)
    | ShareContent(shareUrl: Option<string>, shareToken: Option<string>)

  /** The tag and payload each helper sends: `contact` never sends a phone. */
  function HelperAttachment(h: Helper): Attachment {
    match h
    case PhotoUrl(url) => Attachment("image", Photo(Some(url), None, None))
    case PhotoToken(token) => Attachment("image", Photo(None, Some(token), None))
    case Audio(token) => Attachment("audio", Video(Some(token)))
    case VideoFile(token) => Attachment("video", Video(Some(token)))
    case File(token) => Attachment("file", Video(Some(token)))
    case StickerCode(code) => Attachment("sticker", Sticker(code))
    case ContactCard(name, contactId, vcfInfo) => Attachment("contact", Contact(name, contactId, vcfInfo, None))
    case Place(latitude, longitude) => Attachment("location", Location(latitude, longitude))
    case ShareContent(url, token) => Attachment("share", Share(url, token))
  }

  /** Every helper tags its payload with a type the decoder maps back to the same payload class, so what it sends reads back unchanged. */
  lemma HelperReadsBack(h: Helper)
    ensures AttachmentFromArray(Sent(HelperAttachment(h)).entries) == Ok(HelperAttachment(h))
  {
    SentReadsBack(HelperAttachment(h));
  }

  /** The keyboard attachment reads back as a generic payload holding the rows. */
  lemma KeyboardReadsBack(rows: Json)
    ensures AttachmentFromArray(Sent(Attachment("inline_keyboard", Generic([("buttons", rows)]))).entries) ==
      Ok(Attachment("inline_keyboard", Generic([("buttons", rows)])))
  {
    SentReadsBack(Attachment("inline_keyboard", Generic([("buttons", rows)])));
  }

  /** A builder for an edit: the body always names the message being edited. */
  class MessageEditBuilder {
    var data: Entries

    ghost predicate Valid()
      reads this
    {
      DistinctKeys(data) && |data| > 0 && data[0].0 == "message_id"
    }

    /** The constructor: `message_id` first. */
    constructor (messageId: string)
      ensures Valid() && data == [("message_id", JStr(messageId))]
    {
      data := [("message_id", JStr(messageId))];
    }

    /** `build()`: the body, each key once, headed by `message_id`. */
    function Build(): (r: Entries)
      reads this
      ensures Valid() ==> DistinctKeys(r) && |r| > 0 && r[0].0 == "message_id"
    {
      data
    }

    /** Writes one key of the body other than `message_id`; the others stay as they were. */
    method Set(k: string, v: Json)
      requires Valid() && k != "message_id"
      modifies this
      ensures Valid()
      ensures data == Assign(old(data), k, v)
      ensures Get(data, k) == Some(v)
      ensures forall k' | k' != k :: Get(data, k') == Get(old(data), k')
    {
      AssignDistinct(data, k, v);
      data := Assign(data, k, v);
    }

    /** `text($text)` */
    method Text(text: string)
      requires Valid()
      modifies this
      ensures Valid() && data == Assign(old(data), "text", JStr(text))
    {
      Set("text", JStr(text));
    }

    /** `format($mode)` */
    method Format(mode: ParseMode)
      requires Valid()
      modifies this
      ensures Valid() && data == Assign(old(data), "format", JStr(ParseModeValue(mode)))
    {
      Set("format", JStr(ParseModeValue(mode)));
    }

    /** `notify($notify = true)` */
    method Notify(notify: bool := true)
      requires Valid()
      modifies this
      ensures Valid() && data == Assign(old(data), "notify", JBool(notify))
    {
      Set("notify", JBool(notify));
    }

    /** `attachments($attachments)`: the whole list is replaced by the given attachments' arrays, in order. */
    method SetAttachments(attachments: seq<Attachment>)
      requires Valid()
      modifies this
      ensures Valid()
      ensures data == Assign(old(data), "attachments", JList(seq(|attachments|, i requires 0 <= i < |attachments| => Sent(attachments[i]))))
      ensures Get(data, "attachments").Some? && Get(data, "attachments").value.JList?
      ensures |Get(data, "attachments").value.items| == |attachments|
      ensures forall i | 0 <= i < |attachments| :: Get(data, "attachments").value.items[i] == Sent(attachments[i])
    {
      Set("attachments", JList(seq(|attachments|, i requires 0 <= i < |attachments| => Sent(attachments[i]))));
    }

    /** `clearAttachments()`: an empty list, which is still sent. */
    method ClearAttachments()
      requires Valid()
      modifies this
      ensures Valid() && data == Assign(old(data), "attachments", JList([]))
      ensures Get(data, "attachments") == Some(JList([]))
    {
      Set("attachments", JList([]));
    }
  }

  /** The first message-builder test, for any recipient, text, mode and message: recipient in the query string, text, format and a reply link in the body. */
  method BuildsCorrectArray(chatId: string, text: string, mode: ParseMode, messageId: string) returns (data: Entries, query: Entries)
    requires TruthyString(chatId)
    ensures data == [("text", JStr(text)), ("format", JStr(ParseModeValue(mode))), ("link", LinkTo(Reply, messageId))]
    ensures query == [("chat_id", JStr(chatId))]
  {
    var b := new MessageBuilder(Some(chatId));
    b.Text(text);
    b.Format(mode);
    b.ReplyTo(messageId);
    AssignThree(("text", JStr(text)), ("format", JStr(ParseModeValue(mode))), ("link", LinkTo(Reply, messageId)));
    data := b.Build();
    query := b.QueryParams();
  }

  /** A reply then a forward: the forward wins, and the body holds one link. */
  method LastLinkWins(a: string, c: string) returns (data: Entries)
    ensures data == [("link", LinkTo(Forward, c))]
  {
    var b := new MessageBuilder();
    b.ReplyTo(a);
    b.ForwardFrom(c);
    AssignAssign([], "link", LinkTo(Reply, a), LinkTo(Forward, c));
    data := b.Build();
  }

  /** Ids PHP reads as false never reach the query string. */
  method FalsyRecipientsDropped() returns (query: Entries)
    ensures query == []
  {
    var b := new MessageBuilder(Some("0"), Some(0));
    query := b.QueryParams();
  }

  /** The photo-url test: one attachment, tagged `image`, whose payload holds the url. */
  method PhotoUrlTest(url: string) returns (data: Entries)
    ensures ListOrAbsent(data, "attachments")
    ensures ListAt(data, "attachments") == [Sent(Attachment("image", Photo(Some(url), None, None)))]
  {
    var b := new MessageBuilder();
    b.AddHelper(PhotoUrl(url));
    assert ListAt(b.data, "attachments") == [Sent(Attachment("image", Photo(Some(url), None, None)))];
    data := b.Build();
  }

  /** Two attachments keep the order they were added in. */
  method AttachmentsInOrder(code: string, token: string) returns (data: Entries)
    ensures ListOrAbsent(data, "attachments")
    ensures ListAt(data, "attachments") ==
      [Sent(Attachment("sticker", Sticker(code))), Sent(Attachment("file", Video(Some(token))))]
  {
    var b := new MessageBuilder();
    b.AddHelper(StickerCode(code));
    b.AddHelper(File(token));
    data := b.Build();
  }

  /** The edit-builder test, for any message, text, mode and flag. */
  method EditBuild(messageId: string, text: string, mode: ParseMode, notify: bool) returns (data: Entries)
    ensures data == [("message_id", JStr(messageId)), ("text", JStr(text)),
                     ("format", JStr(ParseModeValue(mode))), ("notify", JBool(notify))]
  {
    var b := new MessageEditBuilder(messageId);
    b.Text(text);
    b.Format(mode);
    b.Notify(notify);
    AssignThreeAfter(("message_id", JStr(messageId)),
                     ("text", JStr(text)), ("format", JStr(ParseModeValue(mode))), ("notify", JBool(notify)));
    data := b.Build();
  }

  /** The url helper sends only the url in its payload. */
  lemma PhotoUrlSent(url: string)
    ensures Sent(HelperAttachment(PhotoUrl(url))) == JObj([("type", JStr("image")), ("payload", JObj([("url", JStr(url))]))])
  {
    var kvs: seq<(string, Option<Json>)> := [("url", Some(JStr(url))), ("token", None), ("photo_id", None)];
    assert Payloads.ToArray(Photo(Some(url), None, None)) == DropNulls(kvs);
    assert kvs[1..][1..][1..] == [];
    assert DropNulls(kvs[1..][1..]) == [];
    assert DropNulls(kvs[1..]) == [];
    assert DropNulls(kvs) == [("url", JStr(url))];
  }
}
