/**
 * The PHP string functions the core relies on: `sprintf('%d')`, `explode(' ', …)`,
 * `ltrim(…, '/')`, `strcasecmp` and the truthiness of a string. PHP strings are byte
 * strings; here they are `seq<char>`, which agrees with the byte view for everything
 * these functions look at (ASCII digits, spaces, slashes and letters).
 */
module PhpStrings {

  predicate IsDigit(c: char) {
    '0' <= c <= '9'
  }

  predicate AllDigits(s: string) {
    forall i | 0 <= i < |s| :: IsDigit(s[i])
  }

  function DigitValue(c: char): (d: nat)
    requires IsDigit(c)
    ensures d < 10
  {
    c as int - '0' as int
  }

  function Digit(d: nat): (c: char)
    requires d < 10
    ensures IsDigit(c) && DigitValue(c) == d
  {
    ('0' as int + d) as char
  }

  /** The digits `sprintf('%d', n)` prints for a non-negative `n`: no sign, no leading zero. */
  function NatToDecimal(n: nat): (s: string)
    ensures |s| >= 1 && AllDigits(s)
    ensures s[0] == '0' ==> s == "0"
    decreases n
  {
    if n < 10 then [Digit(n)] else NatToDecimal(n / 10) + [Digit(n % 10)]
  }

  /** A well-formed `%d` rendering: an optional minus sign followed by at least one digit. */
  predicate IsDecimal(s: string) {
    if |s| > 0 && s[0] == '-' then |s| > 1 && AllDigits(s[1..]) else |s| > 0 && AllDigits(s)
  }

  /** `sprintf('%d', i)`, also what `(string)` does to a PHP int. */
  function IntToDecimal(i: int): (s: string)
    ensures IsDecimal(s)
    ensures (i < 0) == (s[0] == '-')
  {
    if i < 0 then "-" + NatToDecimal(-i) else NatToDecimal(i)
  }

  /** Reads the digits back, most significant first. */
  function ParseNat(s: string): nat
    requires AllDigits(s)
    decreases |s|
  {
    if s == [] then 0 else 10 * ParseNat(s[..|s| - 1]) + DigitValue(s[|s| - 1])
  }

  function ParseInt(s: string): int
    requires IsDecimal(s)
  {
    if s[0] == '-' then -(ParseNat(s[1..]) as int) else ParseNat(s)
  }

  lemma {:induction false} ParseNatToDecimal(n: nat)
    ensures ParseNat(NatToDecimal(n)) == n
    decreases n
  {
    if n >= 10 {
      var s := NatToDecimal(n);
      ParseNatToDecimal(n / 10);
      assert s[..|s| - 1] == NatToDecimal(n / 10);
    }
  }

  /** The decimal rendering loses nothing: it parses back to the same integer. */
  lemma ParseIntToDecimal(i: int)
    ensures ParseInt(IntToDecimal(i)) == i
  {
    if i < 0 {
      assert IntToDecimal(i)[1..] == NatToDecimal(-i);
      ParseNatToDecimal(-i);
    } else {
      ParseNatToDecimal(i);
    }
  }

  /** Two different integers never print the same. */
  lemma IntToDecimalInjective(a: int, b: int)
    requires IntToDecimal(a) == IntToDecimal(b)
    ensures a == b
  {
    ParseIntToDecimal(a);
    ParseIntToDecimal(b);
  }

  /** `explode(' ', s)`: the pieces between single spaces, empty pieces included. */
  function Explode(s: string): (parts: seq<string>)
    ensures |parts| >= 1
    ensures forall k | 0 <= k < |parts| :: ' ' !in parts[k]
    decreases |s|
  {
    if s == [] then [""]
    else
      var rest := Explode(s[1..]);
      if s[0] == ' ' then [""] + rest
      else [[s[0]] + rest[0]] + rest[1..]
  }

  /** `implode(' ', parts)` */
  function Implode(parts: seq<string>): string
    decreases |parts|
  {
    if |parts| == 0 then ""
    else if |parts| == 1 then parts[0]
    else parts[0] + " " + Implode(parts[1..])
  }

  /** Splitting on spaces and joining with spaces gives the text back. */
  lemma {:induction false} ImplodeExplode(s: string)
    ensures Implode(Explode(s)) == s
    decreases |s|
  {
    if s != [] {
      var rest := Explode(s[1..]);
      ImplodeExplode(s[1..]);
      if s[0] == ' ' {
        assert Explode(s) == [""] + rest;
        assert Implode(Explode(s)) == "" + " " + Implode(rest);
      } else if |rest| == 1 {
        assert Explode(s) == [[s[0]] + rest[0]];
      } else {
        var parts := Explode(s);
        assert parts == [[s[0]] + rest[0]] + rest[1..];
        assert parts[1..] == rest[1..];
        assert Implode(rest) == rest[0] + " " + Implode(rest[1..]);
        calc {
          Implode(parts);
          ([s[0]] + rest[0]) + " " + Implode(rest[1..]);
          [s[0]] + (rest[0] + " " + Implode(rest[1..]));
          [s[0]] + s[1..];
        }
      }
    }
  }

  lemma {:induction false} ExplodeWord(a: string, t: string)
    requires ' ' !in a
    ensures Explode(a + " " + t) == [a] + Explode(t)
    ensures Explode(a) == [a]
    decreases |a|
  {
    if a == [] {
      assert a + " " + t == [' '] + t;
      assert ([' '] + t)[1..] == t;
    } else {
      ExplodeWord(a[1..], t);
      assert (a + " " + t)[1..] == a[1..] + " " + t;
      assert (a + " " + t)[0] == a[0];
      assert [a[0]] + a[1..] == a;
    }
  }

  /** Joining space-free pieces and splitting again gives the pieces back, in order. */
  lemma {:induction false} ExplodeImplode(parts: seq<string>)
    requires |parts| >= 1
    requires forall k | 0 <= k < |parts| :: ' ' !in parts[k]
    ensures Explode(Implode(parts)) == parts
    decreases |parts|
  {
    if |parts| == 1 {
      ExplodeWord(parts[0], "");
    } else {
      ExplodeImplode(parts[1..]);
      ExplodeWord(parts[0], Implode(parts[1..]));
      assert [parts[0]] + parts[1..] == parts;
    }
  }

  /** `ltrim(s, c)` with a one-character list: drops every leading `c`. */
  function LTrim(s: string, c: char): (r: string)
    ensures |r| <= |s| && r == s[|s| - |r|..]
    ensures r == [] || r[0] != c
    ensures forall i | 0 <= i < |s| - |r| :: s[i] == c
    decreases |s|
  {
    if s != [] && s[0] == c then LTrim(s[1..], c) else s
  }

  function AsciiLower(c: char): char {
    if 'A' <= c <= 'Z' then (c as int + 32) as char else c
  }

  function Lowered(s: string): (r: string)
    ensures |r| == |s|
    ensures forall i | 0 <= i < |s| :: r[i] == AsciiLower(s[i])
  {
    seq(|s|, i requires 0 <= i < |s| => AsciiLower(s[i]))
  }

  /** `strcasecmp(a, b) === 0`: equal up to ASCII letter case (PHP 8.2 folds ASCII only). */
  predicate StrCaseEquals(a: string, b: string)
    ensures StrCaseEquals(a, b) ==> |a| == |b|
    ensures a == b ==> StrCaseEquals(a, b)
  {
    Lowered(a) == Lowered(b)
  }

  /** How PHP's `if ($s)` reads a string: false exactly for `''` and `'0'`. */
  predicate TruthyString(s: string) {
    s != "" && s != "0"
  }
}
