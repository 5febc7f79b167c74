/**
 * Inline keyboards (`src/Models/Keyboard`): immutable buttons built by factories, and a
 * keyboard object that collects rows of them in place.
 */
module Keyboard {
  import opened Wrappers
  import opened Json
  import opened Enums

  /** A button: its type, its label and the type-specific fields, in the order they are sent. */
  datatype Button = Button(kind: string, text: string, fields: Entries)

  /** What key `k` of a button's array holds: the type-specific field if there is one, else `type` or `text`. */
  function ButtonValue(kind: string, text: string, fields: Entries, k: string): Option<Json> {
    if k in KeysOf(fields) then Get(fields, k)
    else if k == "type" then Some(JStr(kind))
    else if k == "text" then Some(JStr(text))
    else None
  }

  /**
   * `$button->toArray()`: `type` and `text` first, then the type-specific fields. As with
   * `array_merge`, a field under the key `type` or `text` would replace it.
   */
  function ButtonToArray(b: Button): (r: Entries)
    ensures DistinctKeys(b.fields) ==> forall k :: Get(r, k) == ButtonValue(b.kind, b.text, b.fields, k)
  {
    if DistinctKeys(b.fields) then
      MergeOverHead(b.kind, b.text, b.fields);
      Merge([("type", JStr(b.kind)), ("text", JStr(b.text))], b.fields)
    else
      Merge([("type", JStr(b.kind)), ("text", JStr(b.text))], b.fields)
  }

  lemma MergeOverHead(kind: string, text: string, fields: Entries)
    requires DistinctKeys(fields)
    ensures forall k :: Get(Merge([("type", JStr(kind)), ("text", JStr(text))], fields), k) == ButtonValue(kind, text, fields, k)
  {
    var head := [("type", JStr(kind)), ("text", JStr(text))];
    forall k
      ensures Get(Merge(head, fields), k) == ButtonValue(kind, text, fields, k)
    {
      MergeGet(head, fields, k);
      GetPair(head[0], head[1], k);
    }
  }

  /** Fields that repeat no key and never override `type` or `text` are sent after them, unchanged. */
  lemma ButtonToArrayAppends(b: Button)
    requires DistinctKeys(b.fields)
    requires forall k | k in KeysOf(b.fields) :: k != "type" && k != "text"
    ensures ButtonToArray(b) == [("type", JStr(b.kind)), ("text", JStr(b.text))] + b.fields
  {
    var head := [("type", JStr(b.kind)), ("text", JStr(b.text))];
    KeysOfPair(head[0], head[1]);
    NoneInHead(b.fields, head);
    MergeDisjoint(head, b.fields);
  }

  lemma {:induction false} NoneInHead(e: Entries, head: Entries)
    requires KeysOf(head) == ["type", "text"]
    requires forall k | k in KeysOf(e) :: k != "type" && k != "text"
    ensures NoneIn(e, head)
    decreases |e|
  {
    if e != [] {
      assert KeysOf(e) == [e[0].0] + KeysOf(e[1..]);
      assert e[0].0 in KeysOf(e);
      forall k | k in KeysOf(e[1..])
        ensures k != "type" && k != "text"
      {
        assert k in KeysOf(e);
      }
      NoneInHead(e[1..], head);
    }
  }

  /** `Button::callback`: sends the payload and the intent, `default` unless given. */
  function Callback(text: string, payload: string, intent: Intent := Default): (b: Button)
    ensures ButtonToArray(b) == [("type", JStr("callback")), ("text", JStr(text)),
                                ("payload", JStr(payload)), ("intent", JStr(IntentValue(intent)))]
  {
    var b := Button("callback", text, [("payload", JStr(payload)), ("intent", JStr(IntentValue(intent)))]);
    KeysOfPair(b.fields[0], b.fields[1]);
    ButtonToArrayAppends(b);
    b
  }

  /** `Button::link` */
  function Link(text: string, url: string): (b: Button)
    ensures ButtonToArray(b) == [("type", JStr("link")), ("text", JStr(text)), ("url", JStr(url))]
  {
    var b := Button("link", text, [("url", JStr(url))]);
    assert KeysOf(b.fields) == ["url"];
    ButtonToArrayAppends(b);
    b
  }

  /** `Button::requestGeoLocation`: `quick` is false unless given. */
  function RequestGeoLocation(text: string, quick: bool := false): (b: Button)
    ensures ButtonToArray(b) == [("type", JStr("request_geo_location")), ("text", JStr(text)), ("quick", JBool(quick))]
  {
    var b := Button("request_geo_location", text, [("quick", JBool(quick))]);
    assert KeysOf(b.fields) == ["quick"];
    ButtonToArrayAppends(b);
    b
  }

  /** `Button::requestContact`: only type and text. */
  function RequestContact(text: string): (b: Button)
    ensures ButtonToArray(b) == [("type", JStr("request_contact")), ("text", JStr(text))]
  {
    Button("request_contact", text, [])
  }

  /** `Button::message`: only type and text. */
  function MessageButton(text: string): (b: Button)
    ensures ButtonToArray(b) == [("type", JStr("message")), ("text", JStr(text))]
  {
    Button("message", text, [])
  }

  /** `if ($v !== null) { $data[$k] = $v; }` */
  function SetIfNotNull(e: Entries, k: string, v: Option<Json>): (r: Entries)
    ensures Get(r, k) == if v.Some? then v else Get(e, k)
    ensures forall k' | k' != k :: Get(r, k') == Get(e, k')
  {
    if v.Some? then Assign(e, k, v.value) else e
  }

  /** A conditional write keeps the keys distinct and adds at most its own key. */
  lemma SetIfNotNullWithin(e: Entries, k: string, v: Option<Json>, allowed: set<string>)
    requires DistinctKeys(e) && forall key | key in KeysOf(e) :: key in allowed
    ensures var r := SetIfNotNull(e, k, v);
      DistinctKeys(r) && |r| <= |e| + 1 && forall key | key in KeysOf(r) :: key in allowed + {k}
  {
    if v.Some? {
      AssignWithin(e, k, v.value, allowed);
    }
  }

  function JStrOrNull(s: Option<string>): Option<Json> {
    if s.Some? then Some(JStr(s.value)) else None
  }

  /** The fields of `Button::openApp`: written one by one onto an empty array, each only when its argument is not null. */
  function OpenAppFields(webApp: Option<string>, contactId: Option<int>, payload: Option<string>): Entries {
    var e1 := SetIfNotNull([], "web_app", JStrOrNull(webApp));
    var e2 := SetIfNotNull(e1, "contact_id", if contactId.Some? then Some(JInt(contactId.value)) else None);
    SetIfNotNull(e2, "payload", JStrOrNull(payload))
  }

  /** `openApp` sends only its optional fields, each key once. */
  lemma OpenAppFieldsKeys(webApp: Option<string>, contactId: Option<int>, payload: Option<string>)
    ensures var e := OpenAppFields(webApp, contactId, payload);
      DistinctKeys(e) && |e| <= 3 && forall k | k in KeysOf(e) :: k in {"web_app", "contact_id", "payload"}
  {
    var none: Entries := [];
    var c := if contactId.Some? then Some(JInt(contactId.value)) else None;
    var e1 := SetIfNotNull(none, "web_app", JStrOrNull(webApp));
    var e2 := SetIfNotNull(e1, "contact_id", c);
    SetIfNotNullWithin(none, "web_app", JStrOrNull(webApp), {});
    SetIfNotNullWithin(e1, "contact_id", c, {} + {"web_app"});
    SetIfNotNullWithin(e2, "payload", JStrOrNull(payload), {} + {"web_app"} + {"contact_id"});
    assert {} + {"web_app"} + {"contact_id"} + {"payload"} == {"web_app", "contact_id", "payload"};
  }

  /** `openApp` sends exactly the optional fields whose arguments are not null, with their values. */
  lemma OpenAppFieldsValues(webApp: Option<string>, contactId: Option<int>, payload: Option<string>)
    ensures var e := OpenAppFields(webApp, contactId, payload);
      Get(e, "web_app") == JStrOrNull(webApp) &&
      Get(e, "contact_id") == (if contactId.Some? then Some(JInt(contactId.value)) else None) &&
      Get(e, "payload") == JStrOrNull(payload)
  {
    var c := if contactId.Some? then Some(JInt(contactId.value)) else None;
    var e1 := SetIfNotNull([], "web_app", JStrOrNull(webApp));
    var e2 := SetIfNotNull(e1, "contact_id", c);
    assert Get(e1, "web_app") == JStrOrNull(webApp);
    assert Get(e1, "contact_id") == None && Get(e1, "payload") == None;
  }

  /** `Button::openApp` */
  function OpenApp(text: string, webApp: Option<string> := None, contactId: Option<int> := None,
                   payload: Option<string> := None): (b: Button)
    ensures ButtonToArray(b) == [("type", JStr("open_app")), ("text", JStr(text))] + OpenAppFields(webApp, contactId, payload)
  {
    var b := Button("open_app", text, OpenAppFields(webApp, contactId, payload));
    OpenAppFieldsKeys(webApp, contactId, payload);
    ButtonToArrayAppends(b);
    b
  }

  /** An inline keyboard: rows of buttons, added one row at a time. */
  class InlineKeyboard {
    var rows: seq<seq<Button>>

    /** `InlineKeyboard::create()`: no rows yet. */
    constructor ()
      ensures rows == []
    {
      rows := [];
    }

    /** `addRow(...$buttons)`: one more row at the end, buttons in argument order; earlier rows stay as they were. */
    method AddRow(buttons: seq<Button>)
      modifies this
      ensures rows == old(rows) + [buttons]
    {
      rows := rows + [buttons];
    }

    /** `toArray()`: one list per row, holding each button's array. */
    function ToArray(): (j: Json)
      reads this
      ensures j.JList? && |j.items| == |rows|
      ensures forall i | 0 <= i < |rows| :: j.items[i].JList? && |j.items[i].items| == |rows[i]|
      ensures forall i, k | 0 <= i < |rows| && 0 <= k < |rows[i]| :: j.items[i].items[k] == JObj(ButtonToArray(rows[i][k]))
    {
      var rs := rows;
      JList(seq(|rs|, i requires 0 <= i < |rs| =>
        JList(seq(|rs[i]|, k requires 0 <= k < |rs[i]| => JObj(ButtonToArray(rs[i][k]))))))
    }
  }

  /** The keyboard of `tests/Models/KeyboardTest.php`: a link row, then a row of two callbacks. */
  method TwoRows() returns (j: Json)
    ensures j.JList? && |j.items| == 2
    ensures j.items[0].JList? && |j.items[0].items| == 1
    ensures j.items[1].JList? && |j.items[1].items| == 2
    ensures j.items[0].items[0] == JObj([("type", JStr("link")), ("text", JStr("A")), ("url", JStr("u1"))])
    ensures j.items[1].items[0] == JObj([("type", JStr("callback")), ("text", JStr("B")), ("payload", JStr("p1")), ("intent", JStr("default"))])
    ensures j.items[1].items[1] == JObj([("type", JStr("callback")), ("text", JStr("C")), ("payload", JStr("p2")), ("intent", JStr("default"))])
  {
    var kb := new InlineKeyboard();
    kb.AddRow([Link("A", "u1")]);
    kb.AddRow([Callback("B", "p1"), Callback("C", "p2")]);
    j := kb.ToArray();
  }
}
