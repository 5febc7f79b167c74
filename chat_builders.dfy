/**
 * The smaller request builders (`src/Builders/ChatUpdateBuilder.php`, `ChatAdminBuilder.php`,
 * `SubscriptionBuilder.php`, `CallbackAnswerBuilder.php`): each holds one PHP array that its
 * fluent setters update in place, and `build()` returns it.
 */
module ChatBuilders {
  import opened Wrappers
  import opened Json
  import opened Enums
  import opened MessageBuilders

  /** Every key of `e` is one of `allowed`. */
  predicate KeysWithin(e: Entries, allowed: set<string>) {
    forall k | k in KeysOf(e) :: k in allowed
  }

  /** `array_map(fn($t) => $t->value, $types)` over a list of update types. */
  function UpdateTypeValues(types: seq<UpdateType>): (r: seq<Json>)
    ensures |r| == |types|
    ensures forall i | 0 <= i < |types| :: r[i] == JStr(UpdateTypeValue(types[i]))
  {
    seq(|types|, i requires 0 <= i < |types| => JStr(UpdateTypeValue(types[i])))
  }

  /** `array_map(fn($p) => $p->value, $permissions)` over a list of permissions. */
  function PermissionValues(permissions: seq<ChatAdminPermission>): (r: seq<Json>)
    ensures |r| == |permissions|
    ensures forall i | 0 <= i < |permissions| :: r[i] == JStr(PermissionValue(permissions[i]))
  {
    seq(|permissions|, i requires 0 <= i < |permissions| => JStr(PermissionValue(permissions[i])))
  }

  /** The update-type values sent can be read back into the update types chosen, in order. */
  lemma UpdateTypeValuesReadBack(types: seq<UpdateType>)
    ensures forall i | 0 <= i < |types| ::
      UpdateTypeValues(types)[i].JStr? && UpdateTypeFrom(UpdateTypeValues(types)[i].s) == Some(types[i])
  {
    forall i | 0 <= i < |types|
      ensures UpdateTypeValues(types)[i].JStr? && UpdateTypeFrom(UpdateTypeValues(types)[i].s) == Some(types[i])
    {
      UpdateTypeFromExact(UpdateTypeValues(types)[i].s, types[i]);
    }
  }

  /** A builder for a chat's settings: title, icon, pinned message and the notify flag. */
  class ChatUpdateBuilder {
    var data: Entries

    /** Each key once, and only the four keys the setters write. */
    ghost predicate Valid()
      reads this
    {
      DistinctKeys(data) && KeysWithin(data, {"title", "icon", "pin", "notify"})
    }

    /** `ChatUpdateBuilder::create()`: nothing set yet. */
    constructor ()
      ensures Valid() && data == []
    {
      data := [];
    }

    /** `build()` */
    function Build(): (r: Entries)
      reads this
      ensures Valid() ==> DistinctKeys(r) && KeysWithin(r, {"title", "icon", "pin", "notify"})
    {
      data
    }

    /** Writes one of the four keys; the others stay as they were. */
    method Set(k: string, v: Json)
      requires Valid() && k in {"title", "icon", "pin", "notify"}
      modifies this
      ensures Valid()
      ensures data == Assign(old(data), k, v)
      ensures Get(data, k) == Some(v)
      ensures forall k' | k' != k :: Get(data, k') == Get(old(data), k')
    {
      AssignWithin(data, k, v, {"title", "icon", "pin", "notify"});
      data := Assign(data, k, v);
    }

    /** `title($title)` */
    method Title(title: string)
      requires Valid()
      modifies this
      ensures Valid() && data == Assign(old(data), "title", JStr(title))
    {
      Set("title", JStr(title));
    }

    /** `iconUrl($url)`: the icon becomes `{url}`, whatever it was. */
    method IconUrl(url: string)
      requires Valid()
      modifies this
      ensures Valid() && data == Assign(old(data), "icon", JObj([("url", JStr(url))]))
    {
      Set("icon", JObj([("url", JStr(url))]));
    }

    /** `iconToken($token)`: the icon becomes `{token}`, whatever it was. */
    method IconToken(token: string)
      requires Valid()
      modifies this
      ensures Valid() && data == Assign(old(data), "icon", JObj([("token", JStr(token))]))
    {
      Set("icon", JObj([("token", JStr(token))]));
    }

    /** `iconPhotos($tokens)`: the icon becomes `{photos: tokens}`, whatever it was. */
    method IconPhotos(tokens: seq<string>)
      requires Valid()
      modifies this
      ensures Valid()
      ensures data == Assign(old(data), "icon", JObj([("photos", JList(seq(|tokens|, i requires 0 <= i < |tokens| => JStr(tokens[i]))))]))
    {
      Set("icon", JObj([("photos", JList(seq(|tokens|, i requires 0 <= i < |tokens| => JStr(tokens[i]))))]));
    }

    /** `pinMessage($messageId)`: written under `pin`. */
    method PinMessage(messageId: string)
      requires Valid()
      modifies this
      ensures Valid() && data == Assign(old(data), "pin", JStr(messageId))
    {
      Set("pin", JStr(messageId));
    }

    /** `notify($notify)`: no default here. */
    method Notify(notify: bool)
      requires Valid()
      modifies this
      ensures Valid() && data == Assign(old(data), "notify", JBool(notify))
    {
      Set("notify", JBool(notify));
    }
  }

  /** The chat-update test, for any values: the four keys in the order they were set. */
  method ChatUpdateBuild(title: string, url: string, messageId: string, notify: bool) returns (data: Entries)
    ensures data == [("title", JStr(title)), ("icon", JObj([("url", JStr(url))])), ("pin", JStr(messageId)), ("notify", JBool(notify))]
  {
    var b := new ChatUpdateBuilder();
    b.Title(title);
    b.IconUrl(url);
    b.PinMessage(messageId);
    b.Notify(notify);
    AssignThreeAfter(("title", JStr(title)), ("icon", JObj([("url", JStr(url))])), ("pin", JStr(messageId)), ("notify", JBool(notify)));
    data := b.Build();
  }

  /** Setting the icon twice keeps only the second icon, in the first one's place. */
  method IconLastWins(title: string, url: string, token: string) returns (data: Entries)
    ensures data == [("title", JStr(title)), ("icon", JObj([("token", JStr(token))]))]
  {
    var b := new ChatUpdateBuilder();
    b.Title(title);
    b.IconUrl(url);
    b.IconToken(token);
    var d1 := [("title", JStr(title))];
    assert KeysOf(d1) == ["title"];
    AssignAssign(d1, "icon", JObj([("url", JStr(url))]), JObj([("token", JStr(token))]));
    AssignAppends(d1, ["title"], "icon", JObj([("token", JStr(token))]));
    data := b.Build();
  }

  /** A builder for an administrator's rights: the user, the permission values, an alias. */
  class ChatAdminBuilder {
    var data: Entries

    /** Each key once, and `permissions` always a list. */
    ghost predicate Valid()
      reads this
    {
      DistinctKeys(data) && Get(data, "permissions").Some? && Get(data, "permissions").value.JList?
    }

    /** The constructor: `user_id`, then an empty `permissions` list. */
    constructor (userId: int)
      ensures Valid() && data == [("user_id", JInt(userId)), ("permissions", JList([]))]
    {
      var d := [("user_id", JInt(userId)), ("permissions", JList([]))];
      KeysOfPair(d[0], d[1]);
      assert d[1..] == [("permissions", JList([]))];
      assert d[1..][1..] == [];
      assert KeysOf(d[1..]) == ["permissions"] && DistinctKeys(d[1..]);
      assert Get(d, "permissions") == Some(JList([]));
      data := d;
    }

    /** `build()` */
    function Build(): (r: Entries)
      reads this
      ensures Valid() ==> DistinctKeys(r) && ListOrAbsent(r, "permissions") && Get(r, "permissions").Some?
    {
      data
    }

    /** The permission values held, in order. */
    function Permissions(): (r: seq<Json>)
      reads this
      requires Valid()
      ensures Get(data, "permissions") == Some(JList(r))
    {
      Get(data, "permissions").value.items
    }

    /** `permissions($permissions)`: the list is replaced by the given permissions' values, in order. */
    method SetPermissions(permissions: seq<ChatAdminPermission>)
      requires Valid()
      modifies this
      ensures Valid()
      ensures data == Assign(old(data), "permissions", JList(PermissionValues(permissions)))
      ensures Permissions() == PermissionValues(permissions)
      ensures forall k | k != "permissions" :: Get(data, k) == Get(old(data), k)
    {
      AssignDistinct(data, "permissions", JList(PermissionValues(permissions)));
      data := Assign(data, "permissions", JList(PermissionValues(permissions)));
    }

    /** `addPermission($permission)`: appended at the end, even when already present. */
    method AddPermission(permission: ChatAdminPermission)
      requires Valid()
      modifies this
      ensures Valid()
      ensures data == Push(old(data), "permissions", JStr(PermissionValue(permission)))
      ensures Permissions() == old(Permissions()) + [JStr(PermissionValue(permission))]
      ensures forall k | k != "permissions" :: Get(data, k) == Get(old(data), k)
    {
      AssignDistinct(data, "permissions", JList(ListAt(data, "permissions") + [JStr(PermissionValue(permission))]));
      data := Push(data, "permissions", JStr(PermissionValue(permission)));
    }

    /** `alias($alias)` */
    method Alias(alias: string)
      requires Valid()
      modifies this
      ensures Valid()
      ensures data == Assign(old(data), "alias", JStr(alias))
      ensures Permissions() == old(Permissions())
    {
      AssignDistinct(data, "alias", JStr(alias));
      data := Assign(data, "alias", JStr(alias));
    }
  }

  /** Adding a permission twice keeps both copies, after the list set before. */
  method DuplicatePermissionsKept(userId: int, first: seq<ChatAdminPermission>, p: ChatAdminPermission) returns (held: seq<Json>)
    ensures held == PermissionValues(first) + [JStr(PermissionValue(p)), JStr(PermissionValue(p))]
    ensures |held| == |first| + 2
  {
    var b := new ChatAdminBuilder(userId);
    b.SetPermissions(first);
    b.AddPermission(p);
    b.AddPermission(p);
    held := b.Permissions();
  }

  /** A builder for a webhook subscription: the url, the update types wanted and a secret. */
  class SubscriptionBuilder {
    var data: Entries

    /** Each key once, `url` first, and only the three keys the builder writes. */
    ghost predicate Valid()
      reads this
    {
      DistinctKeys(data) && |data| > 0 && data[0].0 == "url" && KeysWithin(data, {"url", "update_types", "secret"})
    }

    /** The constructor: `url`. */
    constructor (url: string)
      ensures Valid() && data == [("url", JStr(url))]
    {
      assert KeysOf([("url", JStr(url))]) == ["url"];
      data := [("url", JStr(url))];
    }

    /** `build()`: exactly the keys that were set, `url` first. */
    function Build(): (r: Entries)
      reads this
      ensures Valid() ==> DistinctKeys(r) && |r| > 0 && r[0].0 == "url" && KeysWithin(r, {"url", "update_types", "secret"})
    {
      data
    }

    /** Writes `update_types` or `secret`; the others stay as they were. */
    method Set(k: string, v: Json)
      requires Valid() && k in {"update_types", "secret"}
      modifies this
      ensures Valid()
      ensures data == Assign(old(data), k, v)
      ensures Get(data, k) == Some(v)
      ensures forall k' | k' != k :: Get(data, k') == Get(old(data), k')
    {
      AssignWithin(data, k, v, {"url", "update_types", "secret"});
      data := Assign(data, k, v);
    }

    /** `updateTypes($types)`: the types' string values, in the given order, replacing any earlier list. */
    method UpdateTypes(types: seq<UpdateType>)
      requires Valid()
      modifies this
      ensures Valid() && data == Assign(old(data), "update_types", JList(UpdateTypeValues(types)))
    {
      Set("update_types", JList(UpdateTypeValues(types)));
    }

    /** `secret($secret)` */
    method Secret(secret: string)
      requires Valid()
      modifies this
      ensures Valid() && data == Assign(old(data), "secret", JStr(secret))
    {
      Set("secret", JStr(secret));
    }
  }

  /** The subscription test, for any url, types and secret. */
  method SubscriptionBuild(url: string, types: seq<UpdateType>, secret: string) returns (data: Entries)
    ensures data == [("url", JStr(url)), ("update_types", JList(UpdateTypeValues(types))), ("secret", JStr(secret))]
  {
    var b := new SubscriptionBuilder(url);
    b.UpdateTypes(types);
    b.Secret(secret);
    var d0 := [("url", JStr(url))];
    assert d0[1..] == [];
    assert KeysOf(d0) == ["url"];
    AssignTwo(d0, ["url"], ("update_types", JList(UpdateTypeValues(types))), ("secret", JStr(secret)));
    data := b.Build();
  }

  /** What `CallbackAnswerBuilder::message` accepts: a message builder or a ready array. */
  datatype MessageSource = FromBuilder(builder: MessageBuilder) | FromArray(entries: Entries)

  /** A builder for the answer to a callback button press. */
  class CallbackAnswerBuilder {
    var data: Entries

    /** Each key once, `callback_id` first. */
    ghost predicate Valid()
      reads this
    {
      DistinctKeys(data) && |data| > 0 && data[0].0 == "callback_id"
    }

    /** The constructor: `callback_id`. */
    constructor (callbackId: string)
      ensures Valid() && data == [("callback_id", JStr(callbackId))]
    {
      assert KeysOf([("callback_id", JStr(callbackId))]) == ["callback_id"];
      data := [("callback_id", JStr(callbackId))];
    }

    /** `build()` */
    function Build(): (r: Entries)
      reads this
      ensures Valid() ==> DistinctKeys(r) && |r| > 0 && r[0].0 == "callback_id"
    {
      data
    }

    /** `message($message)`: a builder's body as it is now, or the array as given. */
    method Message(message: MessageSource)
      requires Valid()
      modifies this
      ensures Valid()
      ensures data == Assign(old(data), "message", JObj(if message.FromBuilder? then old(message.builder.Build()) else message.entries))
      ensures forall k | k != "message" :: Get(data, k) == Get(old(data), k)
    {
      var body := if message.FromBuilder? then message.builder.Build() else message.entries;
      AssignDistinct(data, "message", JObj(body));
      data := Assign(data, "message", JObj(body));
    }

    /** `notification($text)` */
    method Notification(text: string)
      requires Valid()
      modifies this
      ensures Valid() && data == Assign(old(data), "notification", JStr(text))
      ensures forall k | k != "notification" :: Get(data, k) == Get(old(data), k)
    {
      AssignDistinct(data, "notification", JStr(text));
      data := Assign(data, "notification", JStr(text));
    }
  }

  /** The callback-answer test, for any id and text. */
  method CallbackAnswerBuild(callbackId: string, text: string) returns (data: Entries)
    ensures data == [("callback_id", JStr(callbackId)), ("notification", JStr(text))]
  {
    var b := new CallbackAnswerBuilder(callbackId);
    b.Notification(text);
    var d0 := [("callback_id", JStr(callbackId))];
    assert d0[1..] == [];
    assert KeysOf(d0) == ["callback_id"];
    AssignAppends(d0, ["callback_id"], "notification", JStr(text));
    data := b.Build();
  }

  /** The answer keeps the message body as it was when passed: a later change to the builder does not reach it. */
  method MessageIsSnapshot(callbackId: string, first: string, second: string) returns (answer: Entries, later: Entries)
    ensures Get(answer, "message") == Some(JObj([("text", JStr(first))]))
    ensures later == [("text", JStr(second))]
  {
    var m := new MessageBuilder();
    m.Text(first);
    var a := new CallbackAnswerBuilder(callbackId);
    a.Message(FromBuilder(m));
    m.Text(second);
    AssignAssign([], "text", JStr(first), JStr(second));
    answer := a.Build();
    later := m.Build();
  }
}
