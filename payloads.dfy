/**
 * Attachment payloads (`src/Models/Payloads`): each payload class as one constructor of
 * `Payload`, its `fromArray` decoder and its `toArray` serialiser.
 */
module Payloads {
  import opened Wrappers
  import opened Json

  /** Every `AttachmentPayload` implementation; `Generic` keeps the raw array. */
  datatype Payload =
    | Photo(url: Option<string>, token: Option<string>, photoId: Option<int>)
    | Video(token: Option<string>)
    | Sticker(code: string)
    | Contact(name: string, contactId: Option<int>, vcfInfo: Option<string>, vcfPhone: Option<string>)
    | Location(latitude: real, longitude: real)
    | Share(url: Option<string>, token: Option<string>)
    | Generic(data: Entries)

  /** The payload class a decoder is asked for. */
  datatype PayloadClass =
    | PhotoClass | VideoClass | StickerClass | ContactClass | LocationClass | ShareClass | GenericClass

  function ClassOf(p: Payload): PayloadClass {
    match p
    case Photo(_, _, _) => PhotoClass
    case Video(_) => VideoClass
    case Sticker(_) => StickerClass
    case Contact(_, _, _, _) => ContactClass
    case Location(_, _) => LocationClass
    case Share(_, _) => ShareClass
    case Generic(_) => GenericClass
  }

  /** `<Class>::fromArray($data)`, and `new GenericPayload($data)` for the generic class. */
  function FromArray(c: PayloadClass, d: Entries): (r: Decoded<Payload>)
    ensures r.Ok? ==> ClassOf(r.value) == c
    ensures c == GenericClass ==> r == Ok(Generic(d))
  {
    match c
    case PhotoClass =>
      var url :- OptString(d, "url");
      var token :- OptString(d, "token");
      var photoId :- OptInt(d, "photo_id");
      Ok(Photo(url, token, photoId))
    case VideoClass =>
      var token :- OptString(d, "token");
      Ok(Video(token))
    case StickerClass =>
      var code :- StringCast(Get(d, "code"), "code");
      Ok(Sticker(code))
    case ContactClass =>
      var name :- StringCast(Get(d, "name"), "name");
      var contactId :- OptInt(d, "contact_id");
      var vcfInfo :- OptString(d, "vcf_info");
      var vcfPhone :- OptString(d, "vcf_phone");
      Ok(Contact(name, contactId, vcfInfo, vcfPhone))
    case LocationClass =>
      var latitude :- FloatCast(Get(d, "latitude"), "latitude");
      var longitude :- FloatCast(Get(d, "longitude"), "longitude");
      Ok(Location(latitude, longitude))
    case ShareClass =>
      var url :- OptString(d, "url");
      var token :- OptString(d, "token");
      Ok(Share(url, token))
    case GenericClass =>
      Ok(Generic(d))
  }

  function StrOrNull(o: Option<string>): Option<Json> {
    match o
    case Some(s) => Some(JStr(s))
    case None => None
  }

  function IntOrNull(o: Option<int>): Option<Json> {
    match o
    case Some(i) => Some(JInt(i))
    case None => None
  }

  /** The first non-null value listed for `k`. */
  function FirstSet(kvs: seq<(string, Option<Json>)>, k: string): Option<Json>
    decreases |kvs|
  {
    if kvs == [] then None
    else if kvs[0].0 == k && kvs[0].1.Some? then kvs[0].1
    else FirstSet(kvs[1..], k)
  }

  /** With distinct keys, the value listed for a key is the one kept for it. */
  lemma {:induction false} FirstSetAt(kvs: seq<(string, Option<Json>)>, i: nat)
    requires i < |kvs|
    requires forall j | 0 <= j < |kvs| && j != i :: kvs[j].0 != kvs[i].0
    ensures FirstSet(kvs, kvs[i].0) == kvs[i].1
    decreases i
  {
    if i == 0 {
      if kvs[0].1.None? {
        FirstSetAbsent(kvs[1..], kvs[0].0);
      }
    } else {
      FirstSetAt(kvs[1..], i - 1);
    }
  }

  lemma {:induction false} FirstSetAbsent(kvs: seq<(string, Option<Json>)>, k: string)
    requires forall j | 0 <= j < |kvs| :: kvs[j].0 != k
    ensures FirstSet(kvs, k) == None
    decreases |kvs|
  {
    if kvs != [] {
      FirstSetAbsent(kvs[1..], k);
    }
  }

  /** `array_filter([...], fn($v) => $v !== null)`: the entries whose value is not null, in order. */
  function DropNulls(kvs: seq<(string, Option<Json>)>): (r: Entries)
    ensures |r| <= |kvs|
    ensures forall k :: Get(r, k) == FirstSet(kvs, k)
    ensures (forall i | 0 <= i < |kvs| :: kvs[i].1 != Some(JNull)) ==> forall i | 0 <= i < |r| :: r[i].1 != JNull
    decreases |kvs|
  {
    if kvs == [] then []
    else
      var rest := DropNulls(kvs[1..]);
      if kvs[0].1.Some? then [(kvs[0].0, kvs[0].1.value)] + rest else rest
  }

  /** The keys a typed payload class writes in `toArray`; the generic class writes whatever it holds. */
  function FieldNames(c: PayloadClass): set<string> {
    match c
    case PhotoClass => {"url", "token", "photo_id"}
    case VideoClass => {"token"}
    case StickerClass => {"code"}
    case ContactClass => {"name", "contact_id", "vcf_info", "vcf_phone"}
    case LocationClass => {"latitude", "longitude"}
    case ShareClass => {"url", "token"}
    case GenericClass => {}
  }

  /** Dropping the nulls brings in no key that was not listed. */
  lemma {:induction false} DropNullsWithin(kvs: seq<(string, Option<Json>)>, names: set<string>)
    requires forall j | 0 <= j < |kvs| :: kvs[j].0 in names
    ensures forall i | 0 <= i < |DropNulls(kvs)| :: DropNulls(kvs)[i].0 in names
    decreases |kvs|
  {
    if kvs != [] {
      DropNullsWithin(kvs[1..], names);
    }
  }

  /** `$payload->toArray()`: a typed payload writes only its own class's keys. */
  function ToArray(p: Payload): (r: Entries)
    ensures !p.Generic? ==> forall i | 0 <= i < |r| :: r[i].0 in FieldNames(ClassOf(p))
  {
    match p
    case Photo(url, token, photoId) =>
      var kvs := [("url", StrOrNull(url)), ("token", StrOrNull(token)), ("photo_id", IntOrNull(photoId))];
      DropNullsWithin(kvs, FieldNames(PhotoClass));
      DropNulls(kvs)
    case Video(token) =>
      var kvs := [("token", StrOrNull(token))];
      DropNullsWithin(kvs, FieldNames(VideoClass));
      DropNulls(kvs)
    case Sticker(code) =>
      [("code", JStr(code))]
    case Contact(name, contactId, vcfInfo, vcfPhone) =>
      var kvs := [("name", Some(JStr(name))), ("contact_id", IntOrNull(contactId)),
                  ("vcf_info", StrOrNull(vcfInfo)), ("vcf_phone", StrOrNull(vcfPhone))];
      DropNullsWithin(kvs, FieldNames(ContactClass));
      DropNulls(kvs)
    case Location(latitude, longitude) =>
      [("latitude", JFloat(latitude)), ("longitude", JFloat(longitude))]
    case Share(url, token) =>
      var kvs := [("url", StrOrNull(url)), ("token", StrOrNull(token))];
      DropNullsWithin(kvs, FieldNames(ShareClass));
      DropNulls(kvs)
    case Generic(data) =>
      data
  }

  /** A typed payload's array holds no null and names every set field: decoding it with its own class gives it back. */
  lemma FromArrayToArray(p: Payload)
    ensures FromArray(ClassOf(p), ToArray(p)) == Ok(p)
  {
    var d := ToArray(p);
    match p
    case Photo(url, token, photoId) =>
      PhotoFields(url, token, photoId);
      ReadStr(d, "url", url);
      ReadStr(d, "token", token);
      ReadInt(d, "photo_id", photoId);
    case Video(token) =>
      ReadStr(d, "token", token);
    case Contact(name, contactId, vcfInfo, vcfPhone) =>
      ContactFields(name, contactId, vcfInfo, vcfPhone);
      ReadInt(d, "contact_id", contactId);
      ReadStr(d, "vcf_info", vcfInfo);
      ReadStr(d, "vcf_phone", vcfPhone);
    case Share(url, token) =>
      ShareFields(url, token);
      ReadStr(d, "url", url);
      ReadStr(d, "token", token);
    case Sticker(code) =>
      assert [("code", JStr(code))][1..] == [];
    case Location(latitude, longitude) =>
      GetPair(d[0], d[1], "latitude");
      GetPair(d[0], d[1], "longitude");
    case Generic(_) =>
  }

  lemma ReadStr(d: Entries, k: string, o: Option<string>)
    requires Get(d, k) == StrOrNull(o)
    ensures OptString(d, k) == Ok(o)
  {
  }

  lemma ReadInt(d: Entries, k: string, o: Option<int>)
    requires Get(d, k) == IntOrNull(o)
    ensures OptInt(d, k) == Ok(o)
  {
  }

  lemma PhotoFields(url: Option<string>, token: Option<string>, photoId: Option<int>)
    ensures var d := ToArray(Photo(url, token, photoId));
      Get(d, "url") == StrOrNull(url) && Get(d, "token") == StrOrNull(token) && Get(d, "photo_id") == IntOrNull(photoId)
  {
    DropNullsThree(("url", StrOrNull(url)), ("token", StrOrNull(token)), ("photo_id", IntOrNull(photoId)));
  }

  /** Three fields under distinct keys: each key keeps its own value once the nulls are dropped. */
  lemma DropNullsThree(a: (string, Option<Json>), b: (string, Option<Json>), c: (string, Option<Json>))
    requires a.0 != b.0 && a.0 != c.0 && b.0 != c.0
    ensures var d := DropNulls([a, b, c]);
      Get(d, a.0) == a.1 && Get(d, b.0) == b.1 && Get(d, c.0) == c.1
  {
    var kvs := [a, b, c];
    FirstSetAt(kvs, 0);
    FirstSetAt(kvs, 1);
    FirstSetAt(kvs, 2);
  }

  lemma ShareFields(url: Option<string>, token: Option<string>)
    ensures var d := ToArray(Share(url, token));
      Get(d, "url") == StrOrNull(url) && Get(d, "token") == StrOrNull(token)
  {
    var kvs := [("url", StrOrNull(url)), ("token", StrOrNull(token))];
    FirstSetAt(kvs, 0);
    FirstSetAt(kvs, 1);
  }

  lemma ContactFields(name: string, contactId: Option<int>, vcfInfo: Option<string>, vcfPhone: Option<string>)
    ensures var d := ToArray(Contact(name, contactId, vcfInfo, vcfPhone));
      Get(d, "name") == Some(JStr(name)) && Get(d, "contact_id") == IntOrNull(contactId)
      && Get(d, "vcf_info") == StrOrNull(vcfInfo) && Get(d, "vcf_phone") == StrOrNull(vcfPhone)
  {
    DropNullsFour(("name", Some(JStr(name))), ("contact_id", IntOrNull(contactId)),
                  ("vcf_info", StrOrNull(vcfInfo)), ("vcf_phone", StrOrNull(vcfPhone)));
  }

  /** Four fields under distinct keys: each key keeps its own value once the nulls are dropped. */
  lemma DropNullsFour(a: (string, Option<Json>), b: (string, Option<Json>), c: (string, Option<Json>), e: (string, Option<Json>))
    requires a.0 != b.0 && a.0 != c.0 && a.0 != e.0 && b.0 != c.0 && b.0 != e.0 && c.0 != e.0
    ensures var d := DropNulls([a, b, c, e]);
      Get(d, a.0) == a.1 && Get(d, b.0) == b.1 && Get(d, c.0) == c.1 && Get(d, e.0) == e.1
  {
    var kvs := [a, b, c, e];
    FirstSetAt(kvs, 0);
    FirstSetAt(kvs, 1);
    FirstSetAt(kvs, 2);
    FirstSetAt(kvs, 3);
  }

  /** A field appears in the array exactly when it is set: `toArray` drops the null ones and only those. */
  lemma ToArrayKeys(p: Payload)
    ensures p.Photo? ==>
      (Get(ToArray(p), "url").Some? <==> p.url.Some?) &&
      (Get(ToArray(p), "token").Some? <==> p.token.Some?) &&
      (Get(ToArray(p), "photo_id").Some? <==> p.photoId.Some?)
    ensures p.Video? ==> (Get(ToArray(p), "token").Some? <==> p.token.Some?)
    ensures p.Share? ==>
      (Get(ToArray(p), "url").Some? <==> p.url.Some?) &&
      (Get(ToArray(p), "token").Some? <==> p.token.Some?)
    ensures p.Contact? ==>
      Get(ToArray(p), "name") == Some(JStr(p.name)) &&
      (Get(ToArray(p), "contact_id").Some? <==> p.contactId.Some?) &&
      (Get(ToArray(p), "vcf_info").Some? <==> p.vcfInfo.Some?) &&
      (Get(ToArray(p), "vcf_phone").Some? <==> p.vcfPhone.Some?)
    ensures p == Photo(None, None, None) || p == Video(None) || p == Share(None, None) ==> ToArray(p) == []
  {
    match p
    case Photo(url, token, photoId) => PhotoFields(url, token, photoId);
    case Share(url, token) => ShareFields(url, token);
    case Contact(name, contactId, vcfInfo, vcfPhone) => ContactFields(name, contactId, vcfInfo, vcfPhone);
    case _ =>
  }

  /** The array of a typed payload holds no null value. */
  lemma ToArrayNoNull(p: Payload)
    requires !p.Generic?
    ensures forall i | 0 <= i < |ToArray(p)| :: ToArray(p)[i].1 != JNull
  {
  }
}
