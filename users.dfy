/** Users and bot commands as the API describes them (`src/Models/User.php`). */
module Users {
  import opened Wrappers
  import opened Json

  /** A command a bot advertises. */
  datatype BotCommand = BotCommand(name: string, description: Option<string>)

  /** A user, a user with a photo, or a bot's own description; `commands` only for a bot. */
  datatype User = User(
    id: int,
    firstName: string,
    lastName: Option<string>,
    name: Option<string>,
    username: Option<string>,
    isBot: bool,
    lastActivityTime: Option<int>,
    description: Option<string>,
    avatarUrl: Option<string>,
    fullAvatarUrl: Option<string>,
    commands: Option<seq<BotCommand>>)

  /** `BotCommand::fromArray`: the name is `name`, else the legacy `command`, else empty. */
  function BotCommandFromArray(d: Entries): (r: Decoded<BotCommand>)
    ensures Val(d, "name").Some? && Val(d, "name").value.JStr? ==>
      r.Ok? ==> r.value.name == Val(d, "name").value.s
    ensures Val(d, "name").None? && Val(d, "command").Some? && Val(d, "command").value.JStr? ==>
      r.Ok? ==> r.value.name == Val(d, "command").value.s
    ensures Val(d, "name").None? && Val(d, "command").None? ==> r.Ok? ==> r.value.name == ""
  {
    var name :- StringCast(Some(Coalesce(Val(d, "name"), Val(d, "command")).GetOr(JStr(""))), "name");
    var description :- OptString(d, "description");
    Ok(BotCommand(name, description))
  }

  /** The id a user record carries: `user_id` when set, else `id`. */
  function UserIdField(d: Entries): Option<Json> {
    Coalesce(Val(d, "user_id"), Get(d, "id"))
  }

  /** `User::fromArray` */
  function UserFromArray(d: Entries): (r: Decoded<User>)
    ensures r.Ok? ==> (r.value.commands.Some? <==> Isset(d, "commands") && Items(Get(d, "commands").value).Some?)
    ensures r.Ok? ==> r.value.isBot == (Isset(d, "is_bot") && Truthy(Get(d, "is_bot").value))
    ensures r.Ok? && Isset(d, "user_id") && Get(d, "user_id").value.JInt? ==> r.value.id == Get(d, "user_id").value.i
    ensures r.Ok? && !Isset(d, "user_id") && Get(d, "id").Some? && Get(d, "id").value.JInt? ==>
      r.value.id == Get(d, "id").value.i
    ensures r.Ok? ==> Ok(r.value.firstName) == StringCast(Some(Val(d, "first_name").GetOr(JStr(""))), "first_name")
    ensures r.Ok? ==> Ok(r.value.lastName) == OptString(d, "last_name") && Ok(r.value.name) == OptString(d, "name")
    ensures r.Ok? ==> Ok(r.value.username) == OptString(d, "username") && Ok(r.value.description) == OptString(d, "description")
    ensures r.Ok? ==> Ok(r.value.avatarUrl) == OptString(d, "avatar_url") && Ok(r.value.fullAvatarUrl) == OptString(d, "full_avatar_url")
    ensures r.Ok? ==> Ok(r.value.lastActivityTime) == OptInt(d, "last_activity_time")
    ensures r.Ok? && r.value.commands.Some? ==>
      Ok(r.value.commands.value) == DecodeList(Get(d, "commands"), "commands", BotCommandFromArray)
    // decoding succeeds exactly when every field does
    ensures r.Ok? <==>
      (Isset(d, "commands") && Items(Get(d, "commands").value).Some? ==>
         DecodeList(Get(d, "commands"), "commands", BotCommandFromArray).Ok?) &&
      !(UserIdField(d).Some? && UserIdField(d).value.JStr?) &&
      !(Val(d, "first_name").Some? && Val(d, "first_name").value.JFloat?) &&
      OptString(d, "last_name").Ok? && OptString(d, "name").Ok? && OptString(d, "username").Ok? &&
      OptInt(d, "last_activity_time").Ok? && OptString(d, "description").Ok? &&
      OptString(d, "avatar_url").Ok? && OptString(d, "full_avatar_url").Ok?
  {
    var commands :-
      if Isset(d, "commands") && Items(Get(d, "commands").value).Some? then
        var cs :- DecodeList(Get(d, "commands"), "commands", BotCommandFromArray);
        Ok(Some(cs))
      else Ok(None);
    var id :- IntCast(UserIdField(d), "id");
    var firstName :- StringCast(Some(Val(d, "first_name").GetOr(JStr(""))), "first_name");
    var lastName :- OptString(d, "last_name");
    var name :- OptString(d, "name");
    var username :- OptString(d, "username");
    var isBot := Truthy(Val(d, "is_bot").GetOr(JBool(false)));
    var lastActivityTime :- OptInt(d, "last_activity_time");
    var description :- OptString(d, "description");
    var avatarUrl :- OptString(d, "avatar_url");
    var fullAvatarUrl :- OptString(d, "full_avatar_url");
    Ok(User(id, firstName, lastName, name, username, isBot, lastActivityTime,
            description, avatarUrl, fullAvatarUrl, commands))
  }

  /** The fields the user test's record carries. */
  lemma UserFixtureFields(d: Entries)
    requires |d| == 6 && d[0] == ("user_id", JInt(123)) && d[1] == ("first_name", JStr("Test"))
    requires d[2] == ("last_name", JStr("User")) && d[3] == ("username", JStr("testuser"))
    requires d[4] == ("is_bot", JBool(true)) && d[5].0 == "commands"
    ensures Get(d, "user_id") == Some(JInt(123)) && Get(d, "first_name") == Some(JStr("Test"))
    ensures Get(d, "last_name") == Some(JStr("User")) && Get(d, "username") == Some(JStr("testuser"))
    ensures Get(d, "is_bot") == Some(JBool(true)) && Get(d, "commands") == Some(d[5].1)
  {
    assert Get(d, "user_id") == Some(JInt(123)) by { GetFirst(d, 0, "user_id"); }
    assert Get(d, "first_name") == Some(JStr("Test")) by { GetFirst(d, 1, "first_name"); }
    assert Get(d, "last_name") == Some(JStr("User")) by { GetFirst(d, 2, "last_name"); }
    assert Get(d, "username") == Some(JStr("testuser")) by { GetFirst(d, 3, "username"); }
    assert Get(d, "is_bot") == Some(JBool(true)) by { GetFirst(d, 4, "is_bot"); }
    assert Get(d, "commands") == Some(d[5].1) by { GetFirst(d, 5, "commands"); }
  }

  /** The keys of the user test's record. */
  lemma UserFixtureKeys(d: Entries)
    requires |d| == 6 && d[0] == ("user_id", JInt(123)) && d[1] == ("first_name", JStr("Test"))
    requires d[2] == ("last_name", JStr("User")) && d[3] == ("username", JStr("testuser"))
    requires d[4] == ("is_bot", JBool(true)) && d[5].0 == "commands"
    ensures KeysOf(d) == ["user_id", "first_name", "last_name", "username", "is_bot", "commands"]
  {
    KeysOfAt(d);
  }

  /** The fields the user test's record leaves out. */
  lemma UserFixtureMissing(d: Entries)
    requires |d| == 6 && d[0] == ("user_id", JInt(123)) && d[1] == ("first_name", JStr("Test"))
    requires d[2] == ("last_name", JStr("User")) && d[3] == ("username", JStr("testuser"))
    requires d[4] == ("is_bot", JBool(true)) && d[5].0 == "commands"
    ensures Get(d, "name").None? && Get(d, "last_activity_time").None? && Get(d, "description").None?
    ensures Get(d, "avatar_url").None? && Get(d, "full_avatar_url").None?
  {
    UserFixtureKeys(d);
  }

  /** The user test's list of one command decodes to that command. */
  lemma CommandsFixtureDecodes(j: Json)
    requires j == JList([JObj([("name", JStr("start")), ("description", JStr("Start bot"))])])
    ensures DecodeList(Some(j), "commands", BotCommandFromArray) == Ok([BotCommand("start", Some("Start bot"))])
  {
    var c := [("name", JStr("start")), ("description", JStr("Start bot"))];
    GetPair(c[0], c[1], "name");
    GetPair(c[0], c[1], "description");
    assert BotCommandFromArray(c) == Ok(BotCommand("start", Some("Start bot")));
    assert DecodeItem(j.items[0], "commands", BotCommandFromArray) == Ok(BotCommand("start", Some("Start bot")));
    var r := DecodeEach(j.items, "commands", BotCommandFromArray);
    assert r.Ok? && |r.value| == 1 && r.value[0] == BotCommand("start", Some("Start bot"));
    assert r.value == [BotCommand("start", Some("Start bot"))];
  }

  /** `tests/Models/UserTest.php`: its record decodes, to the values the test expects. */
  lemma UserFixtureDecodes(d: Entries)
    requires |d| == 6 && d[0] == ("user_id", JInt(123)) && d[1] == ("first_name", JStr("Test"))
    requires d[2] == ("last_name", JStr("User")) && d[3] == ("username", JStr("testuser"))
    requires d[4] == ("is_bot", JBool(true)) && d[5] == ("commands", JList([JObj([("name", JStr("start")), ("description", JStr("Start bot"))])]))
    ensures var r := UserFromArray(d);
      r.Ok? && r.value.id == 123 && r.value.firstName == "Test" && r.value.lastName == Some("User") &&
      r.value.username == Some("testuser") && r.value.isBot &&
      r.value.commands.Some? && |r.value.commands.value| == 1 && r.value.commands.value[0].name == "start"
  {
    UserFixtureFields(d);
    UserFixtureMissing(d);
    CommandsFixtureDecodes(d[5].1);
    assert Isset(d, "commands") && Items(Get(d, "commands").value).Some?;
    assert UserIdField(d) == Some(JInt(123));
    assert Val(d, "first_name") == Some(JStr("Test"));
    assert OptString(d, "last_name") == Ok(Some("User")) && OptString(d, "username") == Ok(Some("testuser"));
    assert OptString(d, "name") == Ok(None) && OptInt(d, "last_activity_time") == Ok(None);
    assert OptString(d, "description") == Ok(None) && OptString(d, "avatar_url") == Ok(None);
    assert OptString(d, "full_avatar_url") == Ok(None);
  }
}
