/** The few JavaScript values and operators the ZoomBBOX strategy relies on,
    modelled exactly for the values that strategy meets: the detail level it
    caches (a number, or null/undefined/NaN), the coercions `+`, `-`,
    `Math.min`, `Math.max` and `==` apply to it, its conversion to a string,
    and `OpenLayers.Util.applyDefaults` on option objects. */
module JsValues {

  datatype Option<+T> = None | Some(value: T)

  /** The value held in the strategy's `level` field. It starts as `null`;
      a zoom missing from the level table yields `undefined`; arithmetic on
      `undefined` yields `NaN`; every other value is an integer. */
  datatype Level = Null | Undefined | NaN | L(n: int)
  {
    /** `if (level)`: null, undefined, NaN and 0 are falsy. */
    predicate Truthy() {
      L? && n != 0
    }

    /** The number `+` and `-` see: null becomes 0, undefined and NaN are NaN (None). */
    function ToNumber(): Option<int> {
      match this
      case Null => Some(0)
      case L(n) => Some(n)
      case _ => None
    }
  }

  /** JavaScript's loose `==` on levels: NaN equals nothing, null and
      undefined equal each other, numbers compare by value. */
  predicate LooseEquals(a: Level, b: Level) {
    (a.L? && b.L? && a.n == b.n) ||
    ((a.Null? || a.Undefined?) && (b.Null? || b.Undefined?))
  }

  function Min(x: int, y: int): int { if x < y then x else y }

  function Max(x: int, y: int): int { if x < y then y else x }

  /** `Math.min(level + 1, cap)`. */
  function IncreaseCapped(level: Level, cap: int): Level {
    match level.ToNumber()
    case Some(x) => L(Min(x + 1, cap))
    case None => NaN
  }

  /** `Math.max(level - 1, floor)`. */
  function DecreaseFloored(level: Level, floor: int): Level {
    match level.ToNumber()
    case Some(x) => L(Max(x - 1, floor))
    case None => NaN
  }

  // ---------------------------------------------------------------------
  // Number to string, as `'L' + level` performs it, and its inverse.
  // ---------------------------------------------------------------------

  predicate IsDigit(c: char) { '0' <= c <= '9' }

  predicate IsDigits(s: string) {
    forall i :: 0 <= i < |s| ==> IsDigit(s[i])
  }

  function DigitChar(d: nat): (c: char)
    requires d < 10
    ensures IsDigit(c) && c as int - '0' as int == d
  {
    (d + '0' as int) as char
  }

  /** The decimal digits of `n`, most significant first, without leading zeros. */
  function NatToString(n: nat): (s: string)
    ensures |s| > 0 && IsDigits(s)
    ensures n < 10 <==> |s| == 1
  {
    if n < 10 then [DigitChar(n)] else NatToString(n / 10) + [DigitChar(n % 10)]
  }

  /** What JavaScript's `String(x)` gives for an integer `x` (as far as its decimal form goes). */
  function IntToString(x: int): string {
    if x < 0 then "-" + NatToString(-x) else NatToString(x)
  }

  /** What `'L' + level` concatenates after the `L`. */
  function LevelToString(level: Level): string {
    match level
    case Null => "null"
    case Undefined => "undefined"
    case NaN => "NaN"
    case L(n) => IntToString(n)
  }

  /** The value of a string of decimal digits. */
  function DigitsValue(s: string): nat
    requires IsDigits(s)
  {
    if s == [] then 0 else 10 * DigitsValue(s[..|s| - 1]) + (s[|s| - 1] as int - '0' as int)
  }

  /** Reads back an optionally signed decimal integer; None for anything else. */
  function ParseInt(s: string): Option<int> {
    if |s| > 1 && s[0] == '-' && IsDigits(s[1..]) then var magnitude: int := DigitsValue(s[1..]); Some(-magnitude)
    else if |s| > 0 && IsDigits(s) then Some(DigitsValue(s))
    else None
  }

  lemma {:induction false} DigitsRoundTrip(n: nat)
    ensures DigitsValue(NatToString(n)) == n
  {
    if n >= 10 {
      var s := NatToString(n);
      var prefix := NatToString(n / 10);
      assert s == prefix + [DigitChar(n % 10)];
      assert s[..|s| - 1] == prefix;
      DigitsRoundTrip(n / 10);
    }
  }

  /** Reading back the decimal form of any integer gives that integer. */
  lemma {:induction false} IntRoundTrip(x: int)
    ensures ParseInt(IntToString(x)) == Some(x)
  {
    if x < 0 {
      NegativeRoundTrip(x);
    } else {
      var s := NatToString(x);
      assert IsDigit(s[0]);
      assert s[0] != '-';
      DigitsRoundTrip(x);
    }
  }

  lemma {:induction false} NegativeRoundTrip(x: int)
    requires x < 0
    ensures ParseInt(IntToString(x)) == Some(x)
  {
    var digits := NatToString(-x);
    var s := "-" + digits;
    assert s == IntToString(x);
    assert s[0] == '-' && |s| > 1;
    assert s[1..] == digits;
    DigitsRoundTrip(-x);
    assert DigitsValue(s[1..]) == -x;
  }

  // ---------------------------------------------------------------------
  // OpenLayers.Util.applyDefaults
  // ---------------------------------------------------------------------

  /** `applyDefaults(to, from)`: every key of `from` that `to` lacks is
      copied into `to`; keys `to` already has keep their value. */
  function ApplyDefaults<V>(to: map<string, V>, from: map<string, V>): (r: map<string, V>)
    ensures r.Keys == to.Keys + from.Keys
    ensures forall k :: k in to ==> r[k] == to[k]
    ensures forall k :: k in from && k !in to ==> r[k] == from[k]
  {
    map k | k in to.Keys + from.Keys :: if k in to then to[k] else from[k]
  }
}
