/**
 * `Bot::handleWebhook` (`src/Bot.php`): which updates a webhook body stands for, by its
 * shape, and their dispatch. Reading `php://input` and `json_decode` are not modelled: the
 * raw body and its decoded value are both given.
 */
module Webhook {
  import opened Wrappers
  import opened PhpStrings
  import opened Json
  import opened Updates
  import opened Filters
  import opened Dispatch
  import opened Polling

  /** `empty($input)` on the raw body: `''` and `'0'`. */
  predicate EmptyBody(input: string)
    ensures EmptyBody(input) <==> !TruthyString(input)
  {
    input == "" || input == "0"
  }

  /** `isset($data[0])`. On a string it asks whether the string has a first character. */
  predicate FirstIsSet(data: Json)
    ensures data.JList? || data.JObj? ==> (FirstIsSet(data) <==> Isset(AsArray(Some(data), "data").value, "0"))
  {
    match data
    case JList(items) => |items| > 0 && items[0] != JNull
    case JObj(e) => Isset(e, "0")
    case JStr(s) => |s| > 0
    case _ => false
  }

  /** `isset($data['updates']) && is_array($data['updates'])` */
  predicate UpdatesIsArray(data: Json)
    ensures UpdatesIsArray(data) <==> (data.JObj? && Isset(data.entries, "updates") &&
      (Get(data.entries, "updates").value.JList? || Get(data.entries, "updates").value.JObj?))
  {
    data.JObj? && Val(data.entries, "updates").Some? && Items(Val(data.entries, "updates").value).Some?
  }

  /** `$data['updates'] ?? $data` */
  function BatchSource(data: Json): (j: Json)
    ensures data.JObj? && Isset(data.entries, "updates") ==> j == Get(data.entries, "updates").value
    ensures !(data.JObj? && Isset(data.entries, "updates")) ==> j == data
    ensures UpdatesIsArray(data) ==> Items(j).Some?
  {
    if data.JObj? && Isset(data.entries, "updates") then Val(data.entries, "updates").value else data
  }

  /**
   * The items `handleWebhook` dispatches, or `None` when it dispatches nothing. A batch is a
   * list whose element 0 is set or an object whose `updates` is an array, and wins over
   * `update_type`; `foreach` over a value that is not an array visits nothing.
   */
  function WebhookItems(input: string, data: Json): (r: Option<seq<Json>>)
    ensures EmptyBody(input) ==> r.None?
    ensures !EmptyBody(input) && data.JList? && |data.items| > 0 && data.items[0] != JNull ==>
      r == Some(data.items)
    ensures !EmptyBody(input) && data.JList? && (|data.items| == 0 || data.items[0] == JNull) ==> r.None?
    ensures (!EmptyBody(input) && data.JObj? && Get(data.entries, "updates").Some? &&
             Get(data.entries, "updates").value.JList?) ==> r == Some(Get(data.entries, "updates").value.items)
    ensures !EmptyBody(input) && data.JObj? && !Isset(data.entries, "0") && !UpdatesIsArray(data) ==>
      r == (if Isset(data.entries, "update_type") then Some([data]) else None)
    ensures !EmptyBody(input) && (data.JNull? || data.JBool? || data.JInt? || data.JFloat?) ==> r.None?
  {
    if EmptyBody(input) then None
    else if FirstIsSet(data) || UpdatesIsArray(data) then Some(Items(BatchSource(data)).GetOr([]))
    else if data.JObj? && Isset(data.entries, "update_type") then Some([data])
    else None
  }

  /**
   * How a decoding failure of `Update::fromArray` ends the batch. A `TypeError` or a `ValueError`
   * is the `\Error` PHP throws; an `Unmodelled` cast is a value this model does not decode (PHP
   * would cast it and go on), and the model stops the batch there as well.
   */
  function DecodeFailure(e: DecodeError): Failure {
    Error(e.field)
  }

  /** `$this->processUpdate(Update::fromArray($updateData))` for one item: a decoding failure throws before any dispatch. */
  function DispatchItem(s: Setup, item: Json, r: Run): (out: Run)
    requires r.thrown.None?
    ensures r.effects <= out.effects
    ensures DecodeItem(item, "data", UpdateFromArray).Err? ==>
      out == r.(thrown := Some(DecodeFailure(DecodeItem(item, "data", UpdateFromArray).error)))
  {
    match DecodeItem(item, "data", UpdateFromArray)
    case Err(e) => r.(thrown := Some(DecodeFailure(e)))
    case Ok(u) => ProcessUpdate(s, u, r)
  }

  /** `foreach ($updates as $updateData) $this->processUpdate(Update::fromArray($updateData))`: in order, until one throws. */
  function DispatchItems(s: Setup, items: seq<Json>, r: Run): (out: Run)
    ensures r.effects <= out.effects
    ensures r.thrown.Some? ==> out == r
    decreases |items|
  {
    if items == [] || r.thrown.Some? then r
    else DispatchItems(s, items[1..], DispatchItem(s, items[0], r))
  }

  /** One step of the `foreach`: the item at `j` is dispatched, then the items after it. */
  lemma DispatchItemsStep(s: Setup, items: seq<Json>, j: nat, r: Run)
    requires j < |items| && r.thrown.None?
    ensures DispatchItems(s, items[j..], r) == DispatchItems(s, items[j + 1..], DispatchItem(s, items[j], r))
  {
    assert items[j..][0] == items[j] && items[j..][1..] == items[j + 1..];
  }

  /** When every item decodes, a webhook batch is dispatched exactly as the same updates fetched by polling. */
  lemma {:induction false} WebhookLikePolling(s: Setup, items: seq<Json>, r: Run)
    requires DecodeEach(items, "data", UpdateFromArray).Ok?
    ensures DispatchItems(s, items, r) == DispatchAll(s, DecodeEach(items, "data", UpdateFromArray).value, r)
    decreases |items|
  {
    if items != [] && r.thrown.None? {
      var us := DecodeEach(items, "data", UpdateFromArray).value;
      assert DecodeItem(items[0], "data", UpdateFromArray) == Ok(us[0]);
      assert DecodeEach(items[1..], "data", UpdateFromArray) == Ok(us[1..]);
      WebhookLikePolling(s, items[1..], ProcessUpdate(s, us[0], r));
    }
  }

  /**
   * An item that does not decode stops the batch: a `TypeError` or a `ValueError`, or a cast the model
   * leaves unmodelled. The items before it were dispatched, the ones after it are not.
   */
  lemma {:induction false} BadItemStops(s: Setup, items: seq<Json>, i: nat, r: Run)
    requires i < |items|
    requires DecodeEach(items[..i], "data", UpdateFromArray).Ok?
    requires DecodeItem(items[i], "data", UpdateFromArray).Err?
    ensures var done := DispatchAll(s, DecodeEach(items[..i], "data", UpdateFromArray).value, r);
      DispatchItems(s, items, r) ==
        if done.thrown.Some? then done
        else done.(thrown := Some(DecodeFailure(DecodeItem(items[i], "data", UpdateFromArray).error)))
    decreases i
  {
    var us := DecodeEach(items[..i], "data", UpdateFromArray).value;
    if r.thrown.None? {
      if i == 0 {
        assert us == [];
      } else {
        assert items[..i][0] == items[0];
        assert DecodeItem(items[0], "data", UpdateFromArray) == Ok(us[0]);
        assert items[1..][..i - 1] == items[..i][1..];
        assert DecodeEach(items[1..][..i - 1], "data", UpdateFromArray) == Ok(us[1..]);
        assert items[1..][i - 1] == items[i];
        var r1 := ProcessUpdate(s, us[0], r);
        assert DispatchItems(s, items, r) == DispatchItems(s, items[1..], r1);
        assert DispatchAll(s, us, r) == DispatchAll(s, us[1..], r1);
        BadItemStops(s, items[1..], i - 1, r1);
      }
    }
  }

  /** `handleWebhook` after the body was read and decoded: the shape decides what is dispatched. */
  function HandleWebhook(s: Setup, input: string, data: Json, r: Run): (out: Run)
    requires r.thrown.None?
    ensures WebhookItems(input, data).None? ==> out == r
  {
    match WebhookItems(input, data)
    case None => r
    case Some(items) => DispatchItems(s, items, r)
  }
}
