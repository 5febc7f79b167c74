/** Message attachments (`src/Models/Attachment.php`): the type tag picks the payload class. */
module Attachments {
  import opened Wrappers
  import opened Json
  import opened Payloads

  /** An attachment: its type tag as sent, and the payload decoded for that tag. */
  datatype Attachment = Attachment(kind: string, payload: Payload)

  /** The payload class `Attachment::fromArray` uses for a type tag. */
  function ClassForKind(kind: string): (c: PayloadClass)
    ensures c == PhotoClass <==> kind == "image" || kind == "photo"
    ensures c == VideoClass <==> kind == "video" || kind == "audio" || kind == "file"
    ensures c == GenericClass <==>
      kind !in {"image", "photo", "video", "audio", "file", "sticker", "contact", "location", "share"}
  {
    if kind == "image" || kind == "photo" then PhotoClass
    else if kind == "video" || kind == "audio" || kind == "file" then VideoClass
    else if kind == "sticker" then StickerClass
    else if kind == "contact" then ContactClass
    else if kind == "location" then LocationClass
    else if kind == "share" then ShareClass
    else GenericClass
  }

  /** The array the payload is decoded from: `payload` cast to an array, or the whole record for a location sent without one. */
  function PayloadData(kind: string, d: Entries): Entries {
    var payloadData := ArrayCast(Val(d, "payload"));
    if kind == "location" && |payloadData| == 0 then d else payloadData
  }

  /** `Attachment::fromArray` */
  function AttachmentFromArray(d: Entries): (r: Decoded<Attachment>)
    ensures r.Ok? ==> ClassOf(r.value.payload) == ClassForKind(r.value.kind)
    ensures r.Ok? && Get(d, "type").Some? && Get(d, "type").value.JStr? ==> r.value.kind == Get(d, "type").value.s
  {
    var kind :- StringCast(Get(d, "type"), "type");
    var payload :- FromArray(ClassForKind(kind), PayloadData(kind, d));
    Ok(Attachment(kind, payload))
  }

  /** `getPhotoId()`: the photo id of a photo payload, null for any other payload. */
  function PhotoId(a: Attachment): (r: Option<int>)
    ensures r.Some? ==> a.payload.Photo? && a.payload.photoId == r
  {
    if a.payload.Photo? then a.payload.photoId else None
  }

  /** `getUrl()`: the url of a photo or share payload, null for any other payload. */
  function Url(a: Attachment): (r: Option<string>)
    ensures r.Some? ==> (a.payload.Photo? || a.payload.Share?) && a.payload.url == r
    ensures (a.payload.Photo? || a.payload.Share?) ==> r == a.payload.url
  {
    if a.payload.Photo? || a.payload.Share? then a.payload.url else None
  }

  /** The array `MessageBuilder::addAttachment` sends for an attachment. */
  function ToArray(a: Attachment): (r: Entries)
    ensures KeysOf(r) == ["type", "payload"]
    ensures Get(r, "type") == Some(JStr(a.kind)) && Get(r, "payload") == Some(JObj(Payloads.ToArray(a.payload)))
  {
    var r := [("type", JStr(a.kind)), ("payload", JObj(Payloads.ToArray(a.payload)))];
    KeysOfPair(r[0], r[1]);
    GetPair(r[0], r[1], "type");
    GetPair(r[0], r[1], "payload");
    r
  }

  /**
   * What a builder sends is what the decoder reads back, whenever the tag names the
   * payload's own class; which for `location` means the payload is never empty.
   */
  lemma {:induction false} AttachmentRoundTrip(a: Attachment)
    requires ClassForKind(a.kind) == ClassOf(a.payload)
    ensures AttachmentFromArray(ToArray(a)) == Ok(a)
  {
    var d := ToArray(a);
    GetPair(d[0], d[1], "type");
    GetPair(d[0], d[1], "payload");
    assert Get(d, "type") == Some(JStr(a.kind));
    assert Val(d, "payload") == Some(JObj(Payloads.ToArray(a.payload)));
    if a.kind == "location" {
      assert a.payload.Location?;
      assert |Payloads.ToArray(a.payload)| == 2;
    }
    assert PayloadData(a.kind, d) == Payloads.ToArray(a.payload);
    FromArrayToArray(a.payload);
  }

  /** A location sent without a payload is read from the record itself. */
  lemma LocationAtRoot(lat: real, lon: real)
    ensures var d := [("type", JStr("location")), ("latitude", JFloat(lat)), ("longitude", JFloat(lon))];
      AttachmentFromArray(d) == Ok(Attachment("location", Location(lat, lon)))
  {
    var d := [("type", JStr("location")), ("latitude", JFloat(lat)), ("longitude", JFloat(lon))];
    GetTriple(d[0], d[1], d[2], "type");
    GetTriple(d[0], d[1], d[2], "payload");
    GetTriple(d[0], d[1], d[2], "latitude");
    GetTriple(d[0], d[1], d[2], "longitude");
    assert Get(d, "type") == Some(JStr("location"));
    assert Val(d, "payload") == None;
    assert PayloadData("location", d) == d;
    assert Get(d, "latitude") == Some(JFloat(lat));
    assert Get(d, "longitude") == Some(JFloat(lon));
  }

  /** An unknown tag keeps its raw payload array. */
  lemma UnknownKindIsGeneric(kind: string, data: Entries)
    requires ClassForKind(kind) == GenericClass
    ensures AttachmentFromArray([("type", JStr(kind)), ("payload", JObj(data))]) == Ok(Attachment(kind, Generic(data)))
  {
    var d := [("type", JStr(kind)), ("payload", JObj(data))];
    GetPair(d[0], d[1], "type");
    GetPair(d[0], d[1], "payload");
    assert Get(d, "type") == Some(JStr(kind));
    assert Val(d, "payload") == Some(JObj(data));
    assert PayloadData(kind, d) == data;
  }
}
