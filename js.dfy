/**
 * The fragment of JavaScript value semantics the finance client relies on:
 * `undefined` as an absent option, truthiness and the `||` fallback, number
 * rounding as ECMA-262 defines `Math.round` and `Math.ceil`, the white-space
 * set of `String.prototype.trim` and of the regular-expression class `\s`,
 * and ASCII case mapping.
 */
module Js {

  /** An optional value; `None` stands for `undefined` (a missing key). */
  datatype Option<+T> = None | Some(value: T)

  /** The settled state of one promise of `Promise.allSettled`. */
  datatype Settled<+T> = Fulfilled(value: T) | Rejected

  /** The outcome of awaiting a service call: its resolved value, or the thrown
      error's `message` (undefined when the thrown value has none). */
  datatype Outcome<+T> = Resolved(value: T) | Threw(message: Option<string>)

  /** A JSON-like scalar stored under a key of a plain JavaScript object. */
  datatype Value = Null | Bool(b: bool) | Num(n: int) | Str(s: string)

  /** A plain JavaScript object whose keys are not fixed in advance. Spreading
      `{...a, ...b}` is the map union `a + b` (keys of `b` win). */
  type Record = map<string, Value>

  /** ToBoolean (section 7.1.2 of ECMA-262) on the scalars above. */
  predicate Truthy(v: Value)
  {
    match v
    case Null => false
    case Bool(b) => b
    case Num(n) => n != 0
    case Str(s) => s != ""
  }

  /** `obj[key]`, which is `undefined` when the key is missing. */
  function Get(obj: Record, key: string): (r: Option<Value>)
    ensures r.Some? <==> key in obj
    ensures r.Some? ==> r.value == obj[key]
  {
    if key in obj then Some(obj[key]) else None
  }

  /** `x || fallback` for a possibly-undefined object property. */
  function ValueOr(x: Option<Value>, fallback: Value): (r: Value)
    ensures x.Some? && Truthy(x.value) ==> r == x.value
    ensures !(x.Some? && Truthy(x.value)) ==> r == fallback
  {
    if x.Some? && Truthy(x.value) then x.value else fallback
  }

  /** A possibly-undefined property is truthy when present and truthy. */
  predicate Present(x: Option<Value>)
  {
    x.Some? && Truthy(x.value)
  }

  /** `x || y` for possibly-undefined properties: when `x` is falsy the result
      is `y` itself, falsy or not. */
  function Or(x: Option<Value>, y: Option<Value>): (r: Option<Value>)
    ensures Present(x) ==> r == x
    ensures !Present(x) ==> r == y
  {
    if Present(x) then x else y
  }

  /** `x || fallback` for a possibly-undefined number: 0 and undefined are falsy
      (NaN, the third falsy number, does not arise over the integers). */
  function NumOr(x: Option<int>, fallback: int): (r: int)
    ensures x.Some? && x.value != 0 ==> r == x.value
    ensures x == None || x == Some(0) ==> r == fallback
  {
    if x.Some? && x.value != 0 then x.value else fallback
  }

  /** A possibly-undefined string is truthy when it is present and non-empty. */
  predicate StrTruthy(x: Option<string>)
  {
    x.Some? && x.value != ""
  }

  /** `x || y` for possibly-undefined strings: when both are falsy the result is
      `y` itself (so a chain `a || b || c` ends in `c`, even if `c` is undefined). */
  function StrOr(x: Option<string>, y: Option<string>): (r: Option<string>)
    ensures StrTruthy(x) ==> r == x
    ensures !StrTruthy(x) ==> r == y
  {
    if StrTruthy(x) then x else y
  }

  function Min(a: int, b: int): (r: int)
    ensures r <= a && r <= b && (r == a || r == b)
  {
    if a <= b then a else b
  }

  function Max(a: int, b: int): (r: int)
    ensures r >= a && r >= b && (r == a || r == b)
  {
    if a >= b then a else b
  }

  /** `Math.round` (section 21.3.2.28 of ECMA-262): the nearest integer, a tie
      going towards +infinity. */
  function MathRound(x: real): (r: int)
    ensures r as real - 0.5 <= x < r as real + 0.5
  {
    (x + 0.5).Floor
  }

  /** `Math.ceil` (section 21.3.2.10 of ECMA-262): the least integer not below x. */
  function MathCeil(x: real): (r: int)
    ensures x <= r as real < x + 1.0
  {
    -((-x).Floor)
  }

  lemma MulCancelLt(x: int, y: int, d: int)
    requires d > 0 && x * d < y * d
    ensures x < y
  {
    assert (y - x) * d > 0;
  }

  lemma MulLeMono(x: int, y: int, d: int)
    requires d >= 0 && x <= y
    ensures x * d <= y * d
  {
    assert (y - x) * d >= 0;
  }

  /** Integer division by a positive divisor is monotone in the dividend. */
  lemma DivMonotone(a: int, b: int, d: int)
    requires d > 0 && a <= b
    ensures a / d <= b / d
  {
    var qa, qb := a / d, b / d;
    assert qa * d <= a;
    assert b < (qb + 1) * d;
    MulCancelLt(qa, qb + 1, d);
  }

  lemma DivAtLeast(n: int, d: int, k: int)
    requires d > 0 && n >= k * d
    ensures n / d >= k
  {
    var q := n / d;
    assert n < (q + 1) * d;
    MulCancelLt(k, q + 1, d);
  }

  lemma DivBelow(n: int, d: int, k: int)
    requires d > 0 && n < k * d
    ensures n / d < k
  {
    var q := n / d;
    assert q * d <= n;
    MulCancelLt(q, k, d);
  }

  /** A real quotient is determined by its product with the divisor. */
  lemma QuotientUnique(y: real, n: real, d: real)
    requires d != 0.0 && y * d == n
    ensures y == n / d
  {
  }

  /** For a positive divisor, flooring the exact quotient is integer division. */
  lemma FloorOfQuotient(n: int, d: int)
    requires d > 0
    ensures (n as real / d as real).Floor == n / d
  {
    var q, r := n / d, n % d;
    assert n as real == q as real * d as real + r as real;
    var x := n as real / d as real;
    assert x * d as real == n as real;
    assert q as real * d as real <= x * d as real < (q + 1) as real * d as real;
  }

  /** `Math.round(n / d)` over the integers, for a positive divisor. */
  lemma RoundOfQuotient(n: int, d: int)
    requires d > 0
    ensures MathRound(n as real / d as real) == (2 * n + d) / (2 * d)
  {
    var x := n as real / d as real;
    assert x * d as real == n as real;
    assert (x + 0.5) * (2 * d) as real == (2 * n + d) as real;
    QuotientUnique(x + 0.5, (2 * n + d) as real, (2 * d) as real);
    FloorOfQuotient(2 * n + d, 2 * d);
  }

  /** `Math.round(n / d)` is the integer nearest to the quotient, halves rounding up. */
  lemma RoundedQuotientBounds(n: int, d: int)
    requires d > 0
    ensures var a := MathRound(n as real / d as real); (2 * a - 1) * d <= 2 * n < (2 * a + 1) * d
  {
    RoundOfQuotient(n, d);
    var a, m := (2 * n + d) / (2 * d), (2 * n + d) % (2 * d);
    assert 2 * n + d == a * (2 * d) + m && 0 <= m < 2 * d;
    assert (2 * a - 1) * d == a * (2 * d) - d && (2 * a + 1) * d == a * (2 * d) + d;
  }

  /** `Math.ceil(n / d)` over the integers, for a positive divisor. */
  lemma CeilOfQuotient(n: int, d: int)
    requires d > 0
    ensures MathCeil(n as real / d as real) == -((-n) / d)
  {
    var x := n as real / d as real;
    assert x * d as real == n as real;
    assert (-x) * d as real == (-n) as real;
    QuotientUnique(-x, (-n) as real, d as real);
    FloorOfQuotient(-n, d);
  }

  /** The characters matched by the regular-expression class `\s` and removed
      by `trim`: WhiteSpace and LineTerminator of section 12.2 and 12.3 of
      ECMA-262 (tab, vertical tab, form feed, space, no-break space, byte-order
      mark, the Zs category, and LF, CR, LS, PS). */
  predicate IsJsSpace(c: char)
  {
    || c == '\t' || c == '\n' || c == '\U{B}' || c == '\U{C}' || c == '\r'
    || c == ' ' || c == '\U{A0}' || c == '\U{1680}'
    || ('\U{2000}' <= c <= '\U{200A}')
    || c == '\U{2028}' || c == '\U{2029}' || c == '\U{202F}' || c == '\U{205F}'
    || c == '\U{3000}' || c == '\U{FEFF}'
  }

  predicate AllSpace(s: string)
  {
    forall i :: 0 <= i < |s| ==> IsJsSpace(s[i])
  }

  /** `s.trimStart()` */
  function TrimStart(s: string): (r: string)
    ensures |r| <= |s| && r == s[|s| - |r|..]
    ensures AllSpace(s[..|s| - |r|])
    ensures r == [] || !IsJsSpace(r[0])
  {
    if s != [] && IsJsSpace(s[0]) then
      var r := TrimStart(s[1..]);
      var skipped, rest := s[..|s| - |r|], s[1..][..|s[1..]| - |r|];
      forall k | 0 <= k < |skipped|
        ensures IsJsSpace(skipped[k])
      {
        if k > 0 {
          assert skipped[k] == rest[k - 1];
        }
      }
      r
    else s
  }

  /** `s.trimEnd()` */
  function TrimEnd(s: string): (r: string)
    ensures |r| <= |s| && r == s[..|r|]
    ensures AllSpace(s[|r|..])
    ensures r == [] || !IsJsSpace(r[|r| - 1])
  {
    if s != [] && IsJsSpace(s[|s| - 1]) then
      var r := TrimEnd(s[..|s| - 1]);
      var dropped, rest := s[|r|..], s[..|s| - 1][|r|..];
      forall k | 0 <= k < |dropped|
        ensures IsJsSpace(dropped[k])
      {
        if k < |rest| {
          assert dropped[k] == rest[k];
        }
      }
      r
    else s
  }

  /** `s.trim()`: removes leading and trailing JavaScript white space. */
  function Trim(s: string): (r: string)
    ensures exists i, j {:trigger s[i..j]} ::
      (0 <= i <= j <= |s| && r == s[i..j] && AllSpace(s[..i]) && AllSpace(s[j..]))
    ensures r == [] || (!IsJsSpace(r[0]) && !IsJsSpace(r[|r| - 1]))
  {
    var u := TrimStart(s);
    var r := TrimEnd(u);
    var i := |s| - |u|;
    var j := i + |r|;
    assert r == s[i..j];
    assert s[j..] == u[|r|..];
    assert 0 <= i <= j <= |s| && AllSpace(s[..i]) && AllSpace(s[j..]);
    r
  }

  /** A string with no white space at either end is its own trim. */
  lemma TrimFixed(s: string)
    requires s == [] || (!IsJsSpace(s[0]) && !IsJsSpace(s[|s| - 1]))
    ensures Trim(s) == s
  {
    assert TrimStart(s) == s;
    assert TrimEnd(s) == s;
  }

  /** Trimming is idempotent. */
  lemma TrimIdempotent(s: string)
    ensures Trim(Trim(s)) == Trim(s)
  {
    TrimFixed(Trim(s));
  }

  lemma {:induction false} TrimStartSkipsSpace(a: string, t: string)
    requires AllSpace(a)
    ensures TrimStart(a + t) == TrimStart(t)
  {
    if a != [] {
      assert (a + t)[0] == a[0] && IsJsSpace(a[0]);
      assert (a + t)[1..] == a[1..] + t;
      TrimStartSkipsSpace(a[1..], t);
      assert TrimStart(a + t) == TrimStart(a[1..] + t);
    } else {
      assert a + t == t;
    }
  }

  lemma {:induction false} TrimEndSkipsSpace(t: string, b: string)
    requires AllSpace(b)
    ensures TrimEnd(t + b) == TrimEnd(t)
  {
    if b != [] {
      var n := |b| - 1;
      assert (t + b)[|t + b| - 1] == b[n] && IsJsSpace(b[n]);
      assert (t + b)[..|t + b| - 1] == t + b[..n];
      TrimEndSkipsSpace(t, b[..n]);
      assert TrimEnd(t + b) == TrimEnd(t + b[..n]);
    } else {
      assert t + b == t;
    }
  }

  /** Trailing text survives `trimStart` untouched once a non-space is met. */
  lemma {:induction false} TrimStartAppend(s: string, b: string)
    requires AllSpace(b)
    ensures TrimStart(s) != [] ==> TrimStart(s + b) == TrimStart(s) + b
    ensures TrimStart(s) == [] ==> TrimStart(s + b) == []
  {
    if s == [] {
      AllSpaceTrimsAway(b);
    } else if IsJsSpace(s[0]) {
      assert (s + b)[1..] == s[1..] + b;
      TrimStartAppend(s[1..], b);
    }
  }

  lemma {:induction false} AllSpaceTrimsAway(b: string)
    requires AllSpace(b)
    ensures TrimStart(b) == []
  {
    if b != [] {
      AllSpaceTrimsAway(b[1..]);
    }
  }

  /** Surrounding white space never changes the trimmed string. */
  lemma TrimIgnoresPadding(a: string, s: string, b: string)
    requires AllSpace(a) && AllSpace(b)
    ensures Trim(a + s + b) == Trim(s)
  {
    var u := a + s + b;
    assert u == a + (s + b);
    TrimStartSkipsSpace(a, s + b);
    TrimStartAppend(s, b);
    var t := TrimStart(s);
    if t != [] {
      TrimEndSkipsSpace(t, b);
      calc {
        Trim(u);
        TrimEnd(TrimStart(u));
        TrimEnd(t + b);
        TrimEnd(t);
        Trim(s);
      }
    } else {
      calc {
        Trim(u);
        TrimEnd(TrimStart(u));
        TrimEnd([]);
        Trim(s);
      }
    }
  }


  predicate IsAsciiUpper(c: char) { 'A' <= c <= 'Z' }
  predicate IsAsciiLower(c: char) { 'a' <= c <= 'z' }
  predicate IsAsciiDigit(c: char) { '0' <= c <= '9' }

  /** `toUpperCase` restricted to the ASCII letters. */
  function ToUpperChar(c: char): (r: char)
    ensures IsAsciiLower(c) ==> IsAsciiUpper(r) && r as int == c as int - 32
    ensures !IsAsciiLower(c) ==> r == c
  {
    if IsAsciiLower(c) then (c as int - 32) as char else c
  }

  /** `toLowerCase` restricted to the ASCII letters. */
  function ToLowerChar(c: char): (r: char)
    ensures IsAsciiUpper(c) ==> IsAsciiLower(r) && r as int == c as int + 32
    ensures !IsAsciiUpper(c) ==> r == c
  {
    if IsAsciiUpper(c) then (c as int + 32) as char else c
  }

  function ToLower(s: string): (r: string)
    ensures |r| == |s|
    ensures forall i :: 0 <= i < |s| ==> r[i] == ToLowerChar(s[i])
  {
    seq(|s|, i requires 0 <= i < |s| => ToLowerChar(s[i]))
  }

  /** The decimal digits of a natural number, most significant first. */
  function NatToString(n: nat): (r: string)
    ensures r != [] && forall k :: 0 <= k < |r| ==> IsAsciiDigit(r[k])
  {
    var last := [('0' as int + n % 10) as char];
    if n < 10 then last else NatToString(n / 10) + last
  }

  /** `String(n)` for an integer number. */
  function IntToString(n: int): (r: string)
    ensures r != []
    ensures n < 0 <==> r[0] == '-'
  {
    if n < 0 then "-" + NatToString(-n) else NatToString(n)
  }

  /** The number a string of decimal digits denotes, most significant first. */
  function DigitsValue(s: string): nat
    requires forall k :: 0 <= k < |s| ==> IsAsciiDigit(s[k])
  {
    if s == [] then 0
    else
      assert IsAsciiDigit(s[|s| - 1]);
      DigitsValue(s[..|s| - 1]) * 10 + (s[|s| - 1] as int - '0' as int)
  }

  /** The number an optionally signed decimal numeral denotes. */
  function NumeralValue(s: string): int
    requires s != [] && s[0] == '-' ==> forall k :: 1 <= k < |s| ==> IsAsciiDigit(s[k])
    requires !(s != [] && s[0] == '-') ==> forall k :: 0 <= k < |s| ==> IsAsciiDigit(s[k])
  {
    if s != [] && s[0] == '-' then 0 - DigitsValue(s[1..]) as int else DigitsValue(s) as int
  }

  /** Reading the digits back gives the number. */
  lemma {:induction false} NatToStringRoundTrip(n: nat)
    ensures DigitsValue(NatToString(n)) == n
  {
    var s := NatToString(n);
    if n >= 10 {
      NatToStringRoundTrip(n / 10);
      assert s[..|s| - 1] == NatToString(n / 10);
    }
  }

  /** Reading the numeral back gives the integer. */
  lemma IntToStringRoundTrip(n: int)
    ensures NumeralValue(IntToString(n)) == n
  {
    if n < 0 {
      NatToStringRoundTrip(-n);
      assert IntToString(n)[1..] == NatToString(-n);
    } else {
      NatToStringRoundTrip(n);
    }
  }

  /** The UTF-16 code units of one character: two outside the Basic Multilingual Plane. */
  function CodeUnits(c: char): nat
  {
    if c as int >= 0x10000 then 2 else 1
  }

  /** `s.length`, which counts UTF-16 code units rather than characters. */
  function Utf16Length(s: string): (r: nat)
    ensures |s| <= r <= 2 * |s|
  {
    if s == [] then 0 else CodeUnits(s[0]) + Utf16Length(s[1..])
  }

  /** Within the Basic Multilingual Plane the length is the number of characters. */
  lemma {:induction false} Utf16LengthBmp(s: string)
    requires forall k :: 0 <= k < |s| ==> s[k] as int < 0x10000
    ensures Utf16Length(s) == |s|
  {
    if s != [] {
      Utf16LengthBmp(s[1..]);
    }
  }

  /** A character outside the Basic Multilingual Plane counts twice. */
  lemma AstralCountsTwice()
    ensures Utf16Length("\U{1F600}") == 2 && |"\U{1F600}"| == 1
  {
  }

  /** `s.includes(sub)` */
  predicate Includes(s: string, sub: string)
  {
    exists i | 0 <= i <= |s| - |sub| :: OccursAt(s, sub, i)
  }

  /** `sub` stands in `s` starting at index `i`. */
  predicate OccursAt(s: string, sub: string, i: int)
  {
    0 <= i <= |s| - |sub| && s[i..i + |sub|] == sub
  }
}
