/**
 * The parts of the PHP language the plugin leans on, modelled concretely:
 * the values that request parameters and `json_decode(..., true)` produce,
 * `empty()` on strings and values, `==` against a non-numeric string literal,
 * `strtoupper`, the int-to-string conversion, the `(int)` cast of a string,
 * and `explode` / `implode`.
 */
module Php {

  datatype Option<+T> = None | Some(value: T) {
    function GetOr(default: T): T {
      match this
      case Some(v) => v
      case None => default
    }
  }

  datatype Result<+R, +E> = Success(value: R) | Failure(error: E)

  /**
   * A PHP value. Lists and associative arrays alike are ordered sequences of
   * key/value entries (list keys are "0", "1", ...). A float is carried by the
   * string PHP prints for it.
   */
  datatype Value =
    | Null
    | Bool(b: bool)
    | Int(i: int)
    | Float(text: string)
    | Str(s: string)
    | Arr(entries: PhpArray)

  type PhpArray = seq<(string, Value)>

  /** `$v[$key]` on a read: the entry's value, or null when `$v` is no array or has no such key. */
  function Get(v: Value, key: string): Value {
    if v.Arr? then Lookup(v.entries, key) else Null
  }

  function Lookup(entries: PhpArray, key: string): Value {
    if entries == [] then Null
    else if entries[0].0 == key then entries[0].1
    else Lookup(entries[1..], key)
  }

  /** The first entry with a key decides a read of that key. */
  lemma {:induction false} LookupAt(entries: PhpArray, i: nat, key: string)
    requires i < |entries| && entries[i].0 == key
    requires forall j :: 0 <= j < i ==> entries[j].0 != key
    ensures Lookup(entries, key) == entries[i].1
  {
    if i > 0 {
      LookupAt(entries[1..], i - 1, key);
    }
  }

  /** `empty($s)` on a string: true for "" and for "0". */
  predicate IsEmptyString(s: string) {
    s == "" || s == "0"
  }

  /** `empty($v)` on any value. */
  predicate IsEmptyValue(v: Value) {
    match v
    case Null => true
    case Bool(b) => !b
    case Int(i) => i == 0
    case Float(t) => t == "0" || t == "-0"
    case Str(s) => IsEmptyString(s)
    case Arr(es) => es == []
  }

  /** `(string)$v`, the conversion `esc_html` and string parameters apply. */
  function ToPhpString(v: Value): string {
    match v
    case Null => ""
    case Bool(b) => if b then "1" else ""
    case Int(i) => IntToString(i)
    case Float(t) => t
    case Str(s) => s
    case Arr(_) => "Array"
  }

  /**
   * `$v == $s` in PHP 8 when `$s` is a NON-numeric string literal: null equals
   * only "", a boolean is compared with `(bool)$s`, a number is compared as its
   * string form, and an array never equals a string.
   */
  predicate LooseEqualsText(v: Value, s: string) {
    match v
    case Null => s == ""
    case Bool(b) => b == !IsEmptyString(s)
    case Int(i) => IntToString(i) == s
    case Float(t) => t == s
    case Str(x) => x == s
    case Arr(_) => false
  }

  /**
   * What arrives in a user function's `string` parameter in PHP's coercive
   * typing mode: scalars are converted, null and arrays raise a TypeError
   * (modelled as None).
   */
  function StringArgument(v: Value): Option<string> {
    match v
    case Null => None
    case Arr(_) => None
    case _ => Some(ToPhpString(v))
  }

  // ---------------------------------------------------------------------------
  // strtoupper (ASCII only, as in PHP 8.2 and later)

  function UpperChar(c: char): char {
    if 'a' <= c <= 'z' then (c as int - 32) as char else c
  }

  function StrToUpper(s: string): (u: string)
    ensures |u| == |s|
    ensures forall i :: 0 <= i < |s| ==> u[i] == UpperChar(s[i])
  {
    if s == [] then [] else [UpperChar(s[0])] + StrToUpper(s[1..])
  }

  /** Upper-casing twice changes nothing more. */
  lemma StrToUpperIdempotent(s: string)
    ensures StrToUpper(StrToUpper(s)) == StrToUpper(s)
  {
    var u := StrToUpper(s);
    assert forall i :: 0 <= i < |u| ==> UpperChar(u[i]) == u[i];
  }

  /** Every spelling of "post" signs as "POST". */
  lemma StrToUpperPost()
    ensures StrToUpper("post") == "POST"
    ensures StrToUpper("Post") == "POST"
    ensures StrToUpper("POST") == "POST"
  {
  }

  // ---------------------------------------------------------------------------
  // Integers as decimal strings

  predicate IsDigit(c: char) {
    '0' <= c <= '9'
  }

  predicate AllDigits(s: string) {
    forall i :: 0 <= i < |s| ==> IsDigit(s[i])
  }

  function DigitChar(d: nat): (c: char)
    requires d < 10
    ensures IsDigit(c)
  {
    ('0' as int + d) as char
  }

  function DigitValue(c: char): nat
    requires IsDigit(c)
  {
    c as int - '0' as int
  }

  /** The decimal digits of a natural number, most significant first. */
  function NatToDecimal(n: nat): (s: string)
    ensures |s| >= 1 && AllDigits(s)
  {
    if n < 10 then [DigitChar(n)] else NatToDecimal(n / 10) + [DigitChar(n % 10)]
  }

  /** PHP's conversion of an int to a string, as in `$time . ...` and `"$time"`. */
  function IntToString(n: int): string {
    if n < 0 then "-" + NatToDecimal(-n) else NatToDecimal(n)
  }

  /** The number a digit string denotes. */
  function DigitsValue(s: string): nat
    requires AllDigits(s)
  {
    if s == [] then 0 else DigitsValue(s[..|s| - 1]) * 10 + DigitValue(s[|s| - 1])
  }

  /** The longest prefix of `s` made of digits. */
  function LeadingDigits(s: string): (d: string)
    ensures AllDigits(d) && d <= s
  {
    if s != [] && IsDigit(s[0]) then [s[0]] + LeadingDigits(s[1..]) else []
  }

  predicate IsCastWhitespace(c: char) {
    c == ' ' || c == '\t' || c == '\n' || c == '\r' || c as int == 11 || c as int == 12
  }

  function TrimLeadingWhitespace(s: string): string {
    if s != [] && IsCastWhitespace(s[0]) then TrimLeadingWhitespace(s[1..]) else s
  }

  /**
   * The `(int)` cast of a string: leading whitespace is skipped, an optional
   * sign is read, then the longest run of digits; a string with no leading
   * digits casts to 0.
   */
  function IntCast(s: string): int {
    var t := TrimLeadingWhitespace(s);
    if t != [] && t[0] == '-' then 0 - DigitsValue(LeadingDigits(t[1..]))
    else if t != [] && t[0] == '+' then DigitsValue(LeadingDigits(t[1..]))
    else DigitsValue(LeadingDigits(t))
  }

  lemma {:induction false} DigitsValueOfDecimal(n: nat)
    ensures DigitsValue(NatToDecimal(n)) == n
  {
    if n >= 10 {
      var s := NatToDecimal(n / 10);
      var t := s + [DigitChar(n % 10)];
      DigitsValueOfDecimal(n / 10);
      assert t[..|t| - 1] == s;
      assert DigitValue(t[|t| - 1]) == n % 10;
    }
  }

  lemma {:induction false} LeadingDigitsOfDigits(s: string)
    requires AllDigits(s)
    ensures LeadingDigits(s) == s
  {
    if s != [] {
      LeadingDigitsOfDigits(s[1..]);
    }
  }

  /** Reading back the decimal form of any integer with `(int)` gives that integer. */
  lemma IntCastOfIntToString(n: int)
    ensures IntCast(IntToString(n)) == n
  {
    var d := NatToDecimal(if n < 0 then -n else n);
    DigitsValueOfDecimal(if n < 0 then -n else n);
    LeadingDigitsOfDigits(d);
    var s := IntToString(n);
    assert TrimLeadingWhitespace(s) == s;
    if n < 0 {
      assert s[1..] == d;
    } else {
      assert s[0] == d[0];
    }
  }

  // ---------------------------------------------------------------------------
  // explode / implode

  /** `explode($d, $s)` for a one-character delimiter. */
  function Explode(d: char, s: string): (parts: seq<string>)
    ensures |parts| >= 1
    ensures forall k :: 0 <= k < |parts| ==> d !in parts[k]
  {
    if s == [] then [[]]
    else
      var rest := Explode(d, s[1..]);
      if s[0] == d then [[]] + rest else [[s[0]] + rest[0]] + rest[1..]
  }

  /** `implode($sep, $parts)`. */
  function Implode(sep: string, parts: seq<string>): string {
    if parts == [] then ""
    else if |parts| == 1 then parts[0]
    else parts[0] + sep + Implode(sep, parts[1..])
  }

  /** Joining the pieces of `explode` with the same delimiter gives the string back. */
  lemma {:induction false} ImplodeExplode(d: char, s: string)
    ensures Implode([d], Explode(d, s)) == s
  {
    if s != [] {
      var rest := Explode(d, s[1..]);
      ImplodeExplode(d, s[1..]);
      if s[0] == d {
        assert Explode(d, s) == [[]] + rest;
        assert Implode([d], [[]] + rest) == [] + [d] + Implode([d], rest);
      } else if |rest| == 1 {
        assert Explode(d, s) == [[s[0]] + rest[0]];
      } else {
        assert Explode(d, s) == [[s[0]] + rest[0]] + rest[1..];
        assert Implode([d], rest) == rest[0] + [d] + Implode([d], rest[1..]);
      }
    }
  }

  /** `explode` cuts at the first delimiter and carries on with the rest. */
  lemma {:induction false} ExplodeAtFirst(d: char, a: string, b: string)
    requires d !in a
    ensures Explode(d, a + [d] + b) == [a] + Explode(d, b)
  {
    var s := a + [d] + b;
    if a == [] {
      assert s[1..] == b;
    } else {
      assert a[0] in a;
      assert s[1..] == a[1..] + [d] + b;
      ExplodeAtFirst(d, a[1..], b);
      assert [a[0]] + a[1..] == a;
    }
  }

  /** A string without the delimiter explodes to itself alone. */
  lemma {:induction false} ExplodeWithoutDelimiter(d: char, s: string)
    requires d !in s
    ensures Explode(d, s) == [s]
  {
    if s != [] {
      assert s[0] in s;
      ExplodeWithoutDelimiter(d, s[1..]);
      assert [s[0]] + s[1..] == s;
    }
  }
}
