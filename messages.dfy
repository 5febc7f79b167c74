/**
 * Messages and what they carry (`src/Models/Message.php`, `MessageBody.php`,
 * `MarkupElement.php`, `Recipient.php`, `LinkedMessage.php`, `MessageStat.php`):
 * the decoders and the read-only accessors.
 */
module Messages {
  import opened Wrappers
  import opened Json
  import opened Enums
  import opened Payloads
  import opened Users
  import opened Attachments

  /** A formatted span of message text. */
  datatype MarkupElement = MarkupElement(kind: MarkupType, from: int, length: int, url: Option<string>, userId: Option<int>)

  /** `MarkupElement::fromArray`: an unknown type falls back to bold. */
  function MarkupElementFromArray(d: Entries): (r: Decoded<MarkupElement>)
    ensures r.Ok? && Get(d, "type").Some? && Get(d, "type").value.JStr? ==>
      r.value.kind == MarkupTypeFrom(Get(d, "type").value.s).GetOr(Bold)
    ensures r.Ok? && Get(d, "from").Some? && Get(d, "from").value.JInt? ==> r.value.from == Get(d, "from").value.i
    ensures r.Ok? && Get(d, "length").Some? && Get(d, "length").value.JInt? ==> r.value.length == Get(d, "length").value.i
    ensures r.Ok? ==> (r.value.url.None? <==> !Isset(d, "url")) && (r.value.userId.None? <==> !Isset(d, "user_id"))
  {
    var t :- StringCast(Get(d, "type"), "type");
    var from :- IntCast(Get(d, "from"), "from");
    var length :- IntCast(Get(d, "length"), "length");
    var url :- OptString(d, "url");
    var userId :- OptInt(d, "user_id");
    Ok(MarkupElement(MarkupTypeFrom(t).GetOr(Bold), from, length, url, userId))
  }

  /** The content of a message. */
  datatype MessageBody = MessageBody(
    mid: string,
    sequence: int,  // `seq`: the position in the chat
    text: Option<string>,
    attachments: Option<seq<Attachment>>,
    markup: Option<seq<MarkupElement>>)

  /** `MessageBody::fromArray` */
  function MessageBodyFromArray(d: Entries): (r: Decoded<MessageBody>)
    ensures r.Ok? ==> (r.value.text.None? <==> !Isset(d, "text"))
    ensures r.Ok? ==> (r.value.attachments.None? <==> !Isset(d, "attachments"))
    ensures r.Ok? ==> (r.value.markup.None? <==> !Isset(d, "markup"))
    ensures r.Ok? && r.value.attachments.Some? ==>
      Ok(r.value.attachments.value) == DecodeList(Get(d, "attachments"), "attachments", AttachmentFromArray)
    ensures r.Ok? && r.value.markup.Some? ==>
      Ok(r.value.markup.value) == DecodeList(Get(d, "markup"), "markup", MarkupElementFromArray)
    ensures r.Ok? ==> Ok(r.value.mid) == StringCast(Get(d, "mid"), "mid") && Ok(r.value.text) == OptString(d, "text")
    ensures r.Ok? && Get(d, "seq").Some? && Get(d, "seq").value.JInt? ==> r.value.sequence == Get(d, "seq").value.i
    // decoding succeeds exactly when every field does
    ensures r.Ok? <==>
      !(Get(d, "mid").Some? && Get(d, "mid").value.JFloat?) && !(Get(d, "seq").Some? && Get(d, "seq").value.JStr?) &&
      OptString(d, "text").Ok? && DecodeListIfSet(d, "attachments", AttachmentFromArray).Ok? &&
      DecodeListIfSet(d, "markup", MarkupElementFromArray).Ok?
  {
    var mid :- StringCast(Get(d, "mid"), "mid");
    var sequence :- IntCast(Get(d, "seq"), "seq");
    var text :- OptString(d, "text");
    var attachments :- DecodeListIfSet(d, "attachments", AttachmentFromArray);
    var markup :- DecodeListIfSet(d, "markup", MarkupElementFromArray);
    Ok(MessageBody(mid, sequence, text, attachments, markup))
  }

  /** Where a message was sent. */
  datatype Recipient = Recipient(chatId: Option<int>, chatType: Option<ChatType>, userId: Option<int>)

  /** `ChatType::from`: a string that is not a case is a \ValueError, a non-string a \TypeError. */
  function ChatTypeOf(j: Json, field: string): (r: Decoded<ChatType>)
    ensures r.Ok? ==> j == JStr(ChatTypeValue(r.value))
    ensures j.JStr? && ChatTypeFrom(j.s).Some? ==> r.Ok?
  {
    match j
    case JStr(s) =>
      (match ChatTypeFrom(s)
       case Some(t) => Ok(t)
       case None => Err(ValueError(field)))
    case _ => Err(TypeError(field))
  }

  /** `Recipient::fromArray` */
  function RecipientFromArray(d: Entries): (r: Decoded<Recipient>)
    ensures r.Ok? ==> (r.value.chatType.None? <==> !Isset(d, "chat_type"))
    ensures r.Ok? && r.value.chatType.Some? ==> Get(d, "chat_type") == Some(JStr(ChatTypeValue(r.value.chatType.value)))
    ensures r.Ok? ==> Ok(r.value.chatId) == OptInt(d, "chat_id") && Ok(r.value.userId) == OptInt(d, "user_id")
    // decoding succeeds exactly when every field does
    ensures r.Ok? <==>
      OptInt(d, "chat_id").Ok? && OptInt(d, "user_id").Ok? &&
      (Isset(d, "chat_type") ==> ChatTypeOf(Get(d, "chat_type").value, "chat_type").Ok?)
  {
    var chatId :- OptInt(d, "chat_id");
    var chatType :-
      if Isset(d, "chat_type") then
        var t :- ChatTypeOf(Get(d, "chat_type").value, "chat_type");
        Ok(Some(t))
      else Ok(None);
    var userId :- OptInt(d, "user_id");
    Ok(Recipient(chatId, chatType, userId))
  }

  /** A message this one replies to or forwards. */
  datatype LinkedMessage = LinkedMessage(kind: MessageLinkType, sender: Option<User>, chatId: Option<int>, message: Option<MessageBody>)

  /** `LinkedMessage::fromArray`: `type` must be a link type (`MessageLinkType::from`). */
  function LinkedMessageFromArray(d: Entries): (r: Decoded<LinkedMessage>)
    ensures r.Ok? ==> Get(d, "type") == Some(JStr(MessageLinkTypeValue(r.value.kind)))
    ensures r.Ok? ==> (r.value.sender.None? <==> !Isset(d, "sender")) && (r.value.message.None? <==> !Isset(d, "message"))
  {
    var kind :-
      match Get(d, "type")
      case Some(JStr(s)) =>
        (match MessageLinkTypeFrom(s)
         case Some(t) => Ok(t)
         case None => Err(ValueError("type")))
      case _ => Err(TypeError("type"));
    var sender :- DecodeIfSet(d, "sender", UserFromArray);
    var chatId :- OptInt(d, "chat_id");
    var message :- DecodeIfSet(d, "message", MessageBodyFromArray);
    Ok(LinkedMessage(kind, sender, chatId, message))
  }

  /** Message statistics. */
  datatype MessageStat = MessageStat(views: int)

  /** `MessageStat::fromArray`: no views recorded reads as zero. */
  function MessageStatFromArray(d: Entries): (r: Decoded<MessageStat>)
    ensures !Isset(d, "views") ==> r == Ok(MessageStat(0))
    ensures Isset(d, "views") && Get(d, "views").value.JInt? ==> r == Ok(MessageStat(Get(d, "views").value.i))
  {
    var views :- IntCast(Some(Val(d, "views").GetOr(JInt(0))), "views");
    Ok(MessageStat(views))
  }

  /** A message. */
  datatype Message = Message(
    timestamp: int,
    body: MessageBody,
    recipient: Recipient,
    sender: Option<User>,
    link: Option<LinkedMessage>,
    stat: Option<MessageStat>,
    url: Option<string>)

  /** The value the body is decoded from: `body`, else `message`, else an empty array. */
  function BodySource(d: Entries): (j: Json)
    ensures Isset(d, "body") ==> j == Get(d, "body").value
    ensures !Isset(d, "body") && Isset(d, "message") ==> j == Get(d, "message").value
    ensures !Isset(d, "body") && !Isset(d, "message") ==> j == JList([])
  {
    Coalesce(Val(d, "body"), Val(d, "message")).GetOr(JList([]))
  }

  /** `Message::fromArray`: a missing or non-array `recipient` is a \TypeError. */
  function MessageFromArray(d: Entries): (r: Decoded<Message>)
    ensures r.Ok? ==> DecodeItem(BodySource(d), "body", MessageBodyFromArray) == Ok(r.value.body)
    ensures r.Ok? ==> Get(d, "recipient").Some? && Get(d, "recipient").value != JNull
    ensures r.Ok? ==> (r.value.sender.None? <==> !Isset(d, "sender"))
    ensures r.Ok? ==> (r.value.link.None? <==> !Isset(d, "link")) && (r.value.stat.None? <==> !Isset(d, "stat"))
    ensures r.Ok? ==> (r.value.url.None? <==> !Isset(d, "url"))
    ensures r.Ok? && Get(d, "timestamp").Some? && Get(d, "timestamp").value.JInt? ==> r.value.timestamp == Get(d, "timestamp").value.i
    ensures r.Ok? ==> (AsArray(Get(d, "recipient"), "recipient").Ok? &&
      RecipientFromArray(AsArray(Get(d, "recipient"), "recipient").value) == Ok(r.value.recipient))
    ensures r.Ok? ==> Ok(r.value.url) == OptString(d, "url")
    // decoding succeeds exactly when every field does
    ensures r.Ok? <==>
      !(Get(d, "timestamp").Some? && Get(d, "timestamp").value.JStr?) &&
      DecodeItem(BodySource(d), "body", MessageBodyFromArray).Ok? &&
      AsArray(Get(d, "recipient"), "recipient").Ok? &&
      RecipientFromArray(AsArray(Get(d, "recipient"), "recipient").value).Ok? &&
      DecodeIfSet(d, "sender", UserFromArray).Ok? && DecodeIfSet(d, "link", LinkedMessageFromArray).Ok? &&
      DecodeIfSet(d, "stat", MessageStatFromArray).Ok? && OptString(d, "url").Ok?
  {
    var timestamp :- IntCast(Get(d, "timestamp"), "timestamp");
    var body :- DecodeItem(BodySource(d), "body", MessageBodyFromArray);
    var recipientData :- AsArray(Get(d, "recipient"), "recipient");
    var recipient :- RecipientFromArray(recipientData);
    var sender :- DecodeIfSet(d, "sender", UserFromArray);
    var link :- DecodeIfSet(d, "link", LinkedMessageFromArray);
    var stat :- DecodeIfSet(d, "stat", MessageStatFromArray);
    var url :- OptString(d, "url");
    Ok(Message(timestamp, body, recipient, sender, link, stat, url))
  }

  /** `getMid()`, `getText()`, `getAttachments()`: the body's own fields. */
  function Mid(m: Message): string {
    m.body.mid
  }

  function Text(m: Message): Option<string> {
    m.body.text
  }

  function AttachmentsOf(m: Message): Option<seq<Attachment>> {
    m.body.attachments
  }

  /** The attachment list a `foreach` over `attachments ?? []` visits. */
  function AttachmentList(m: Message): seq<Attachment> {
    AttachmentsOf(m).GetOr([])
  }

  /** Search for an attachment with the given type tag, from position `i` on. */
  function HasKindFrom(atts: seq<Attachment>, kind: string, i: nat): (b: bool)
    requires i <= |atts|
    ensures b <==> exists j | i <= j < |atts| :: atts[j].kind == kind
    decreases |atts| - i
  {
    if i == |atts| then false
    else if atts[i].kind == kind then true
    else HasKindFrom(atts, kind, i + 1)
  }

  /** `hasAttachmentType($type)`: some attachment's type tag is exactly `$type`. */
  function HasAttachmentType(m: Message, kind: string): (b: bool)
    ensures b <==> exists j | 0 <= j < |AttachmentList(m)| :: AttachmentList(m)[j].kind == kind
    ensures AttachmentsOf(m).None? || AttachmentsOf(m) == Some([]) ==> !b
  {
    if AttachmentsOf(m).None? || |AttachmentsOf(m).value| == 0 then false
    else
      assert AttachmentList(m) == AttachmentsOf(m).value;
      HasKindFrom(AttachmentsOf(m).value, kind, 0)
  }

  /** The first payload of class `c` at position `i` or later, in list order. */
  function FirstPayloadFrom(atts: seq<Attachment>, c: PayloadClass, i: nat): (r: Option<Payload>)
    requires i <= |atts|
    ensures r.Some? <==> exists j | i <= j < |atts| :: ClassOf(atts[j].payload) == c
    ensures r.Some? ==> ClassOf(r.value) == c
    ensures r.Some? ==> exists j | i <= j < |atts| ::
      atts[j].payload == r.value && forall k | i <= k < j :: ClassOf(atts[k].payload) != c
    decreases |atts| - i
  {
    if i == |atts| then None
    else if ClassOf(atts[i].payload) == c then Some(atts[i].payload)
    else
      var r := FirstPayloadFrom(atts, c, i + 1);
      assert r.Some? ==> exists j | i <= j < |atts| ::
        atts[j].payload == r.value && forall k | i <= k < j :: ClassOf(atts[k].payload) != c
      by {
        if r.Some? {
          var j :| i + 1 <= j < |atts| &&
            atts[j].payload == r.value && forall k | i + 1 <= k < j :: ClassOf(atts[k].payload) != c;
          assert forall k | i <= k < j :: ClassOf(atts[k].payload) != c;
        }
      }
      r
  }

  /** `getLocation()`, `getContact()`, `getSticker()`, `getPhoto()`: the first payload of that class, chosen by class and not by tag. */
  function FirstPayload(m: Message, c: PayloadClass): (r: Option<Payload>)
    ensures r.Some? ==> ClassOf(r.value) == c
    ensures r.Some? <==> exists j | 0 <= j < |AttachmentList(m)| :: ClassOf(AttachmentList(m)[j].payload) == c
  {
    FirstPayloadFrom(AttachmentList(m), c, 0)
  }

  function Location(m: Message): (r: Option<Payload>)
    ensures r.Some? ==> r.value.Location?
    ensures r.Some? <==> exists j | 0 <= j < |AttachmentList(m)| :: AttachmentList(m)[j].payload.Location?
  {
    FirstPayload(m, LocationClass)
  }

  function Contact(m: Message): (r: Option<Payload>)
    ensures r.Some? ==> r.value.Contact?
    ensures r.Some? <==> exists j | 0 <= j < |AttachmentList(m)| :: AttachmentList(m)[j].payload.Contact?
  {
    FirstPayload(m, ContactClass)
  }

  function Sticker(m: Message): (r: Option<Payload>)
    ensures r.Some? ==> r.value.Sticker?
    ensures r.Some? <==> exists j | 0 <= j < |AttachmentList(m)| :: AttachmentList(m)[j].payload.Sticker?
  {
    FirstPayload(m, StickerClass)
  }

  function Photo(m: Message): (r: Option<Payload>)
    ensures r.Some? ==> r.value.Photo?
    ensures r.Some? <==> exists j | 0 <= j < |AttachmentList(m)| :: AttachmentList(m)[j].payload.Photo?
  {
    FirstPayload(m, PhotoClass)
  }

  /** An attachment tagged `photo` is a photo to `getPhoto()` but not an `image` to `hasAttachmentType`. */
  lemma PhotoTagIsNotImage(m: Message, p: Payload)
    requires p.Photo? && AttachmentList(m) == [Attachment("photo", p)]
    ensures Photo(m) == Some(p)
    ensures !HasAttachmentType(m, "image")
  {
    assert AttachmentList(m)[0].kind == "photo";
  }
}
