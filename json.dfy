/**
 * Decoded JSON, seen the way PHP sees it after `json_decode($text, true)`: scalars,
 * lists, and ordered arrays with string keys. The PHP array operations the core uses
 * (`$a[$k]`, `isset`, `??`, `$a[$k] = $v`, `$a[$k][] = $v`, `array_merge`) and the
 * casts its decoders apply (`(int)`, `(string)`, `(float)`, `(bool)`, `(array)`) are
 * defined here once.
 */
module Json {
  import opened Wrappers
  import opened PhpStrings

  /**
   * A JSON value. An object, and any PHP array with string keys, is `JObj`: its
   * entries keep their insertion order and, as in a PHP array, no key occurs twice.
   * A JSON number with a fraction is `JFloat`; it is only ever copied.
   */
  datatype Json =
    | JNull
    | JBool(b: bool)
    | JInt(i: int)
    | JFloat(r: real)
    | JStr(s: string)
    | JList(items: seq<Json>)
    | JObj(entries: seq<(string, Json)>)

  type Entries = seq<(string, Json)>

  /** Why a decoder gave up. */
  datatype DecodeError =
    | TypeError(field: string)   // PHP throws \TypeError (strict_types, or an `array` parameter given a non-array)
    | ValueError(field: string)  // `Enum::from` was given a value that is not a case
    | Unmodelled(field: string)  // a cast this model does not define (numeric strings, float to string)

  type Decoded<T> = Result<T, DecodeError>

  /** The keys of an array, in order. */
  function KeysOf(e: Entries): seq<string>
    decreases |e|
  {
    if e == [] then [] else [e[0].0] + KeysOf(e[1..])
  }

  /** The keys, position by position. */
  lemma {:induction false} KeysOfAt(e: Entries)
    ensures |KeysOf(e)| == |e| && forall i | 0 <= i < |e| :: KeysOf(e)[i] == e[i].0
    decreases |e|
  {
    if e != [] {
      KeysOfAt(e[1..]);
    }
  }

  /** The keys of a two-entry array literal. */
  lemma KeysOfPair(x: (string, Json), y: (string, Json))
    ensures KeysOf([x, y]) == [x.0, y.0]
  {
    assert [x, y][1..] == [y];
    assert [y][1..] == [];
    assert KeysOf([y]) == [y.0];
  }

  predicate DistinctKeys(e: Entries)
    decreases |e|
  {
    e == [] || (e[0].0 !in KeysOf(e[1..]) && DistinctKeys(e[1..]))
  }

  /** `$a[$k]` when the key exists; `None` when it does not. */
  function Get(e: Entries, k: string): (r: Option<Json>)
    ensures r.Some? <==> k in KeysOf(e)
    decreases |e|
  {
    if e == [] then None else if e[0].0 == k then Some(e[0].1) else Get(e[1..], k)
  }

  /** Looking a key up in a two-entry array literal. */
  lemma GetPair(x: (string, Json), y: (string, Json), k: string)
    ensures Get([x, y], k) == if x.0 == k then Some(x.1) else if y.0 == k then Some(y.1) else None
  {
    assert [x, y][1..] == [y];
    assert [y][1..] == [];
  }

  /** Looking a key up in a three-entry array literal. */
  lemma GetTriple(x: (string, Json), y: (string, Json), z: (string, Json), k: string)
    ensures Get([x, y, z], k) ==
      if x.0 == k then Some(x.1) else if y.0 == k then Some(y.1) else if z.0 == k then Some(z.1) else None
  {
    assert [x, y, z][1..] == [y, z];
    GetPair(y, z, k);
  }

  /** The first entry under a key is the one `Get` finds. */
  lemma {:induction false} GetFirst(e: Entries, i: nat, k: string)
    requires i < |e| && e[i].0 == k
    requires forall j | 0 <= j < i :: e[j].0 != k
    ensures Get(e, k) == Some(e[i].1)
    decreases i
  {
    if i > 0 {
      GetFirst(e[1..], i - 1, k);
    }
  }

  /** A key no entry carries is missing. */
  lemma {:induction false} GetAbsent(e: Entries, k: string)
    requires forall j | 0 <= j < |e| :: e[j].0 != k
    ensures Get(e, k).None?
    decreases |e|
  {
    if e != [] {
      GetAbsent(e[1..], k);
    }
  }

  /** `isset($a[$k])`: the key is present and its value is not null. */
  predicate Isset(e: Entries, k: string) {
    Get(e, k).Some? && Get(e, k).value != JNull
  }

  /**
   * The value `$a[$k] ?? null` sees: `None` stands for PHP null, whether the key is
   * missing or holds null. A plain read `$a[$k]` of a missing key also yields null.
   */
  function Val(e: Entries, k: string): (r: Option<Json>)
    ensures r.Some? <==> Isset(e, k)
    ensures r.Some? ==> r == Get(e, k) && r.value != JNull
  {
    if Isset(e, k) then Get(e, k) else None
  }

  /** `$a[$k] = $v`: overwrites the value where the key already stands, else appends the key. */
  function Assign(e: Entries, k: string, v: Json): (r: Entries)
    ensures Get(r, k) == Some(v)
    ensures forall k' | k' != k :: Get(r, k') == Get(e, k')
    decreases |e|
  {
    if e == [] then [(k, v)]
    else if e[0].0 == k then
      assert ([(k, v)] + e[1..])[1..] == e[1..];
      [(k, v)] + e[1..]
    else
      var rest := Assign(e[1..], k, v);
      assert ([e[0]] + rest)[1..] == rest;
      [e[0]] + rest
  }

  /** Assignment keeps the key order: an existing key stays where it is, a new key comes last. */
  lemma {:induction false} AssignKeys(e: Entries, k: string, v: Json)
    ensures KeysOf(Assign(e, k, v)) == if k in KeysOf(e) then KeysOf(e) else KeysOf(e) + [k]
    decreases |e|
  {
    var none: Entries := [];
    if e == [] {
      assert [(k, v)][1..] == none;
    } else if e[0].0 == k {
      assert ([(k, v)] + e[1..])[1..] == e[1..];
    } else {
      AssignKeys(e[1..], k, v);
      var rest := Assign(e[1..], k, v);
      assert ([e[0]] + rest)[1..] == rest;
      assert KeysOf(Assign(e, k, v)) == [e[0].0] + KeysOf(rest);
    }
  }

  /** Assignment keeps a PHP array's keys distinct. */
  lemma {:induction false} AssignDistinct(e: Entries, k: string, v: Json)
    requires DistinctKeys(e)
    ensures DistinctKeys(Assign(e, k, v))
    decreases |e|
  {
    if e != [] && e[0].0 != k {
      AssignDistinct(e[1..], k, v);
      AssignKeys(e[1..], k, v);
      assert Assign(e, k, v)[1..] == Assign(e[1..], k, v);
    }
  }

  /** Assignment keeps a PHP array's keys distinct, adds at most the one key, and grows by at most one entry. */
  lemma AssignWithin(e: Entries, k: string, v: Json, allowed: set<string>)
    requires DistinctKeys(e) && forall key | key in KeysOf(e) :: key in allowed
    ensures DistinctKeys(Assign(e, k, v)) && |Assign(e, k, v)| <= |e| + 1
    ensures forall key | key in KeysOf(Assign(e, k, v)) :: key in allowed + {k}
  {
    AssignDistinct(e, k, v);
    AssignLength(e, k, v);
  }

  lemma {:induction false} AssignLength(e: Entries, k: string, v: Json)
    ensures |Assign(e, k, v)| <= |e| + 1
    decreases |e|
  {
    if e != [] && e[0].0 != k {
      AssignLength(e[1..], k, v);
    }
  }

  /** Writing a new key appends it, last in the key order. */
  lemma {:induction false} AssignAppends(e: Entries, keys: seq<string>, k: string, v: Json)
    requires KeysOf(e) == keys && k !in keys
    ensures Assign(e, k, v) == e + [(k, v)]
    ensures KeysOf(e + [(k, v)]) == keys + [k]
  {
    AssignFresh(e, k, v);
    KeysOfAppend(e, [(k, v)]);
  }

  /** Writing two new keys onto an array appends them in the order written. */
  lemma {:induction false} AssignTwo(e: Entries, keys: seq<string>, x: (string, Json), y: (string, Json))
    requires KeysOf(e) == keys && x.0 !in keys && y.0 !in keys && x.0 != y.0
    ensures Assign(Assign(e, x.0, x.1), y.0, y.1) == e + [x, y]
    ensures KeysOf(e + [x, y]) == keys + [x.0, y.0]
  {
    AssignAppends(e, keys, x.0, x.1);
    var e1 := e + [x];
    var keys1 := keys + [x.0];
    assert y.0 !in keys1;
    AssignAppends(e1, keys1, y.0, y.1);
    assert e1 + [y] == e + [x, y];
    assert keys1 + [y.0] == keys + [x.0, y.0];
  }

  /** Writing a key other than the first one leaves the first entry where it is. */
  lemma {:induction false} AssignCons(first: (string, Json), rest: Entries, k: string, v: Json)
    requires first.0 != k
    ensures Assign([first] + rest, k, v) == [first] + Assign(rest, k, v)
  {
    assert ([first] + rest)[1..] == rest;
  }

  /** Writing three different keys onto an empty array appends them in the order written. */
  lemma {:induction false} AssignThree(x: (string, Json), y: (string, Json), z: (string, Json))
    requires x.0 != y.0 && x.0 != z.0 && y.0 != z.0
    ensures Assign(Assign(Assign([], x.0, x.1), y.0, y.1), z.0, z.1) == [x, y, z]
  {
    var none: Entries := [];
    var a1 := Assign(none, x.0, x.1);
    assert a1 == [x];
    assert [x] == [x] + none;
    AssignCons(x, none, y.0, y.1);
    var a2 := Assign(a1, y.0, y.1);
    assert a2 == [x] + [y];
    assert [y] == [y] + none;
    AssignCons(y, none, z.0, z.1);
    assert Assign([y], z.0, z.1) == [y] + [z];
    AssignCons(x, [y], z.0, z.1);
    assert [x] + [y] == [x, y];
    assert Assign(a2, z.0, z.1) == [x] + ([y] + [z]);
    assert [x] + ([y] + [z]) == [x, y, z];
  }

  /** Three new keys written after a first one follow it in the order written. */
  lemma {:induction false} AssignThreeAfter(w: (string, Json), x: (string, Json), y: (string, Json), z: (string, Json))
    requires w.0 != x.0 && w.0 != y.0 && w.0 != z.0 && x.0 != y.0 && x.0 != z.0 && y.0 != z.0
    ensures Assign(Assign(Assign([w], x.0, x.1), y.0, y.1), z.0, z.1) == [w, x, y, z]
  {
    var none: Entries := [];
    assert [w][1..] == none;
    assert KeysOf([w]) == [w.0];
    AssignThreeAppends([w], [w.0], x, y, z);
    assert [w] + [x, y, z] == [w, x, y, z];
  }

  /** Writing three new keys onto an array appends them in the order written. */
  lemma {:induction false} AssignThreeAppends(e: Entries, keys: seq<string>, x: (string, Json), y: (string, Json), z: (string, Json))
    requires KeysOf(e) == keys && x.0 !in keys && y.0 !in keys && z.0 !in keys
    requires x.0 != y.0 && x.0 != z.0 && y.0 != z.0
    ensures Assign(Assign(Assign(e, x.0, x.1), y.0, y.1), z.0, z.1) == e + [x, y, z]
  {
    AssignTwo(e, keys, x, y);
    var e2 := e + [x, y];
    var keys2 := keys + [x.0, y.0];
    assert z.0 !in keys2;
    AssignAppends(e2, keys2, z.0, z.1);
    assert e2 + [(z.0, z.1)] == e + [x, y, z];
  }

  /** The last of two writes to one key wins, and the key keeps its first position. */
  lemma {:induction false} AssignAssign(e: Entries, k: string, v1: Json, v2: Json)
    ensures Assign(Assign(e, k, v1), k, v2) == Assign(e, k, v2)
    decreases |e|
  {
    if e != [] && e[0].0 != k {
      AssignAssign(e[1..], k, v1, v2);
    }
  }

  /** Writes to two different keys can be made in either order when both keys already exist. */
  lemma {:induction false} AssignCommute(e: Entries, k1: string, v1: Json, k2: string, v2: Json)
    requires k1 != k2 && k1 in KeysOf(e) && k2 in KeysOf(e)
    ensures Assign(Assign(e, k1, v1), k2, v2) == Assign(Assign(e, k2, v2), k1, v1)
    decreases |e|
  {
    if e[0].0 != k1 && e[0].0 != k2 {
      AssignCommute(e[1..], k1, v1, k2, v2);
    }
  }

  /** Assigning a key the array does not have appends it at the end. */
  lemma {:induction false} AssignFresh(e: Entries, k: string, v: Json)
    requires k !in KeysOf(e)
    ensures Assign(e, k, v) == e + [(k, v)]
    decreases |e|
  {
    if e != [] {
      assert KeysOf(e) == [e[0].0] + KeysOf(e[1..]);
      assert e[0].0 != k && k !in KeysOf(e[1..]);
      AssignFresh(e[1..], k, v);
      assert Assign(e, k, v) == [e[0]] + Assign(e[1..], k, v);
      assert [e[0]] + (e[1..] + [(k, v)]) == e + [(k, v)];
    }
  }

  lemma {:induction false} KeysOfAppend(a: Entries, b: Entries)
    ensures KeysOf(a + b) == KeysOf(a) + KeysOf(b)
    decreases |a|
  {
    if a == [] {
      assert a + b == b;
    } else {
      KeysOfAppend(a[1..], b);
      assert (a + b)[0] == a[0];
      assert (a + b)[1..] == a[1..] + b;
    }
  }

  /** No key of `b` is a key of `a`. */
  predicate NoneIn(b: Entries, a: Entries)
    decreases |b|
  {
    b == [] || (b[0].0 !in KeysOf(a) && NoneIn(b[1..], a))
  }

  /** `array_merge` of arrays with no key in common is concatenation. */
  lemma {:induction false} MergeDisjoint(a: Entries, b: Entries)
    requires DistinctKeys(b)
    requires NoneIn(b, a)
    ensures Merge(a, b) == a + b
    decreases |b|
  {
    if b != [] {
      MergeStep(a, b);
      MergeDisjoint(a + [b[0]], b[1..]);
      ShiftFirst(a, b);
    }
  }

  lemma ShiftFirst(a: Entries, b: Entries)
    requires b != []
    ensures a + [b[0]] + b[1..] == a + b
  {
    assert b == [b[0]] + b[1..];
  }

  lemma MergeStep(a: Entries, b: Entries)
    requires b != [] && DistinctKeys(b)
    requires NoneIn(b, a)
    ensures NoneIn(b[1..], a + [b[0]])
    ensures Merge(a, b) == Merge(a + [b[0]], b[1..])
  {
    AssignFresh(a, b[0].0, b[0].1);
    KeysOfAppend(a, [b[0]]);
    NoneInExtend(b[1..], a, b[0]);
  }

  lemma {:induction false} NoneInExtend(c: Entries, a: Entries, x: (string, Json))
    requires NoneIn(c, a) && x.0 !in KeysOf(c)
    requires KeysOf(a + [x]) == KeysOf(a) + [x.0]
    ensures NoneIn(c, a + [x])
    decreases |c|
  {
    if c != [] {
      NoneInExtend(c[1..], a, x);
    }
  }

  /** `$a[$k]` is absent or a list, so `$a[$k][] = $v` appends to it. */
  predicate ListOrAbsent(e: Entries, k: string) {
    Get(e, k).None? || Get(e, k).value.JList?
  }

  function ListAt(e: Entries, k: string): seq<Json>
    requires ListOrAbsent(e, k)
  {
    if Get(e, k).None? then [] else Get(e, k).value.items
  }

  /** `$a[$k][] = $v` */
  function Push(e: Entries, k: string, v: Json): (r: Entries)
    requires ListOrAbsent(e, k)
    ensures Get(r, k) == Some(JList(ListAt(e, k) + [v]))
    ensures forall k' | k' != k :: Get(r, k') == Get(e, k')
  {
    Assign(e, k, JList(ListAt(e, k) + [v]))
  }

  /** `array_merge($a, $b)` for arrays with string keys: `$b`'s entries are written over `$a` in order. */
  function Merge(a: Entries, b: Entries): Entries
    decreases |b|
  {
    if b == [] then a else Merge(Assign(a, b[0].0, b[0].1), b[1..])
  }

  /** After `array_merge`, a key reads from the second array when it has the key, else from the first. */
  lemma {:induction false} MergeGet(a: Entries, b: Entries, k: string)
    requires DistinctKeys(b)
    ensures Get(Merge(a, b), k) == if k in KeysOf(b) then Get(b, k) else Get(a, k)
    decreases |b|
  {
    if b != [] {
      MergeGet(Assign(a, b[0].0, b[0].1), b[1..], k);
    }
  }

  /** A PHP list seen as an array: keys `0`, `1`, … */
  function Indexed(l: seq<Json>): Entries {
    seq(|l|, i requires 0 <= i < |l| => (NatToDecimal(i), l[i]))
  }

  /** The values of a PHP array in order, as `foreach` and `array_map` visit them; `None` for a non-array. */
  function Items(j: Json): (r: Option<seq<Json>>)
    ensures r.Some? <==> j.JList? || j.JObj?
  {
    match j
    case JList(l) => Some(l)
    case JObj(e) => Some(seq(|e|, i requires 0 <= i < |e| => e[i].1))
    case _ => None
  }

  /** The array an `array`-typed parameter receives; anything else is a \TypeError. */
  function AsArray(v: Option<Json>, field: string): (r: Decoded<Entries>)
    ensures r.Ok? <==> v.Some? && (v.value.JObj? || v.value.JList?)
  {
    if v.Some? && v.value.JObj? then Ok(v.value.entries)
    else if v.Some? && v.value.JList? then Ok(Indexed(v.value.items))
    else Err(TypeError(field))
  }

  /** `(array)$x` */
  function ArrayCast(v: Option<Json>): Entries {
    match v
    case None => []
    case Some(JObj(e)) => e
    case Some(JList(l)) => Indexed(l)
    case Some(j) => Indexed([j])
  }

  /** How `if ($x)` and `(bool)$x` read a value. */
  predicate Truthy(j: Json) {
    match j
    case JNull => false
    case JBool(b) => b
    case JInt(i) => i != 0
    case JFloat(r) => r != 0.0
    case JStr(s) => TruthyString(s)
    case JList(l) => |l| > 0
    case JObj(e) => |e| > 0
  }

  /** `(int)$x`, where `None` is PHP null. */
  function IntCast(v: Option<Json>, field: string): (r: Decoded<int>)
    ensures v.Some? && v.value.JInt? ==> r == Ok(v.value.i)
    ensures r.Err? <==> v.Some? && v.value.JStr?
  {
    match v
    case None => Ok(0)
    case Some(JNull) => Ok(0)
    case Some(JBool(b)) => Ok(if b then 1 else 0)
    case Some(JInt(i)) => Ok(i)
    case Some(JFloat(r)) => Ok(if r >= 0.0 then r.Floor else -((-r).Floor))
    case Some(JStr(_)) => Err(Unmodelled(field))
    case Some(JList(l)) => Ok(if |l| == 0 then 0 else 1)
    case Some(JObj(e)) => Ok(if |e| == 0 then 0 else 1)
  }

  /** `(string)$x` */
  function StringCast(v: Option<Json>, field: string): (r: Decoded<string>)
    ensures v.Some? && v.value.JStr? ==> r == Ok(v.value.s)
    ensures v.Some? && v.value.JInt? ==> r == Ok(IntToDecimal(v.value.i))
    ensures r.Err? <==> v.Some? && v.value.JFloat?
  {
    match v
    case None => Ok("")
    case Some(JNull) => Ok("")
    case Some(JBool(b)) => Ok(if b then "1" else "")
    case Some(JInt(i)) => Ok(IntToDecimal(i))
    case Some(JFloat(_)) => Err(Unmodelled(field))
    case Some(JStr(s)) => Ok(s)
    case Some(JList(_)) => Ok("Array")
    case Some(JObj(_)) => Ok("Array")
  }

  /** `(float)$x` */
  function FloatCast(v: Option<Json>, field: string): (r: Decoded<real>)
    ensures v.Some? && v.value.JFloat? ==> r == Ok(v.value.r)
    ensures v.Some? && v.value.JInt? ==> r == Ok(v.value.i as real)
    ensures r.Err? <==> v.Some? && v.value.JStr?
  {
    match v
    case None => Ok(0.0)
    case Some(JNull) => Ok(0.0)
    case Some(JBool(b)) => Ok(if b then 1.0 else 0.0)
    case Some(JInt(i)) => Ok(i as real)
    case Some(JFloat(r)) => Ok(r)
    case Some(JStr(_)) => Err(Unmodelled(field))
    case Some(JList(l)) => Ok(if |l| == 0 then 0.0 else 1.0)
    case Some(JObj(e)) => Ok(if |e| == 0 then 0.0 else 1.0)
  }

  /** `$a[$k] ?? null` passed to a `?string` parameter under strict_types: a non-string is a \TypeError. */
  function OptString(e: Entries, k: string): (r: Decoded<Option<string>>)
    ensures r == Ok(None) <==> !Isset(e, k)
    ensures Isset(e, k) && Get(e, k).value.JStr? ==> r == Ok(Some(Get(e, k).value.s))
    ensures r.Err? ==> Isset(e, k) && !Get(e, k).value.JStr?
  {
    match Val(e, k)
    case None => Ok(None)
    case Some(JStr(s)) => Ok(Some(s))
    case Some(_) => Err(TypeError(k))
  }

  /** `isset($a[$k]) ? (int)$a[$k] : null` */
  function OptInt(e: Entries, k: string): (r: Decoded<Option<int>>)
    ensures r == Ok(None) <==> !Isset(e, k)
    ensures Isset(e, k) && Get(e, k).value.JInt? ==> r == Ok(Some(Get(e, k).value.i))
  {
    match Val(e, k)
    case None => Ok(None)
    case Some(j) =>
      var i :- IntCast(Some(j), k);
      Ok(Some(i))
  }

  /** `T::fromArray($x)` on one element: an `array` parameter, so a non-array is a \TypeError. */
  function DecodeItem<T>(j: Json, field: string, decode: Entries -> Decoded<T>): Decoded<T> {
    var e :- AsArray(Some(j), field);
    decode(e)
  }

  /** `array_map(fn($x) => T::fromArray($x), $items)`: every element decoded in order; the first failure is thrown. */
  function DecodeEach<T>(items: seq<Json>, field: string, decode: Entries -> Decoded<T>): (r: Decoded<seq<T>>)
    ensures r.Ok? <==> forall i | 0 <= i < |items| :: DecodeItem(items[i], field, decode).Ok?
    ensures r.Ok? ==> (|r.value| == |items| &&
      forall i | 0 <= i < |items| :: DecodeItem(items[i], field, decode) == Ok(r.value[i]))
    ensures r.Err? ==> exists i | 0 <= i < |items| ::
      DecodeItem(items[i], field, decode) == Err(r.error) &&
      forall j | 0 <= j < i :: DecodeItem(items[j], field, decode).Ok?
    decreases |items|
  {
    if items == [] then Ok([])
    else
      var head :- DecodeItem(items[0], field, decode);
      var tail :- DecodeEach(items[1..], field, decode);
      Ok([head] + tail)
  }

  /** `array_map(…, $v)` where `$v` may be null (no list) or a non-array (a \TypeError). */
  function DecodeList<T>(v: Option<Json>, field: string, decode: Entries -> Decoded<T>): (r: Decoded<seq<T>>)
    ensures v.None? ==> r == Ok([])
    ensures v.Some? && Items(v.value).None? ==> r == Err(TypeError(field))
    ensures v.Some? && Items(v.value).Some? ==> r == DecodeEach(Items(v.value).value, field, decode)
  {
    match v
    case None => Ok([])
    case Some(j) =>
      match Items(j)
      case None => Err(TypeError(field))
      case Some(items) => DecodeEach(items, field, decode)
  }

  /** `$a ?? $b`, where `a` already reads null as `None`. */
  function Coalesce(a: Option<Json>, b: Option<Json>): (r: Option<Json>)
    ensures a.Some? ==> r == a
    ensures a.None? ==> r == b
  {
    if a.Some? then a else b
  }

  /** `isset($a[$k]) ? T::fromArray($a[$k]) : null` */
  function DecodeIfSet<T>(e: Entries, k: string, decode: Entries -> Decoded<T>): (r: Decoded<Option<T>>)
    ensures r == Ok(None) <==> !Isset(e, k)
    ensures Isset(e, k) ==> (r.Ok? <==> DecodeItem(Get(e, k).value, k, decode).Ok?)
    ensures Isset(e, k) && r.Ok? ==> DecodeItem(Get(e, k).value, k, decode) == Ok(r.value.value)
  {
    if !Isset(e, k) then Ok(None)
    else
      var x :- DecodeItem(Get(e, k).value, k, decode);
      Ok(Some(x))
  }

  /** `isset($a[$k]) ? array_map(fn($x) => T::fromArray($x), $a[$k]) : null` */
  function DecodeListIfSet<T>(e: Entries, k: string, decode: Entries -> Decoded<T>): (r: Decoded<Option<seq<T>>>)
    ensures r == Ok(None) <==> !Isset(e, k)
    ensures Isset(e, k) && r.Ok? ==> Ok(r.value.value) == DecodeList(Get(e, k), k, decode)
    ensures Isset(e, k) && DecodeList(Get(e, k), k, decode).Ok? ==> r.Ok?
  {
    if !Isset(e, k) then Ok(None)
    else
      var xs :- DecodeList(Get(e, k), k, decode);
      Ok(Some(xs))
  }
}
