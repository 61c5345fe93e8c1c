/** String and number helpers with the JavaScript semantics the front end relies on:
    truthiness of optional strings, Number-to-string for integers, Number.parseInt,
    and the String methods startsWith, endsWith, toLowerCase, split and includes. */
module Text {

  datatype Option<+T> = None | Some(value: T)

  /** JavaScript truthiness of a value that is either undefined or a string. */
  predicate Truthy(o: Option<string>) {
    o.Some? && o.value != ""
  }

  /** `o || fallback` where `o` is undefined or a string. */
  function OrElse(o: Option<string>, fallback: string): string {
    if Truthy(o) then o.value else fallback
  }

  /** `s || fallback` where `s` is a string. */
  function StringOr(s: string, fallback: string): string {
    if s != "" then s else fallback
  }

  // ---------------------------------------------------------------------------
  // Digits and radixes

  /** The value of `c` as a digit in `radix` (10 or 16 here), as parseInt reads it. */
  function DigitOf(c: char, radix: nat): Option<nat> {
    if '0' <= c <= '9' && (c as int - '0' as int) < radix then Some(c as int - '0' as int)
    else if 'a' <= c <= 'z' && (c as int - 'a' as int) + 10 < radix then Some(c as int - 'a' as int + 10)
    else if 'A' <= c <= 'Z' && (c as int - 'A' as int) + 10 < radix then Some(c as int - 'A' as int + 10)
    else None
  }

  predicate IsDigit(c: char) {
    '0' <= c <= '9'
  }

  predicate AllDigits(s: string) {
    forall i :: 0 <= i < |s| ==> IsDigit(s[i])
  }

  predicate AllRadixDigits(s: string, radix: nat) {
    forall i :: 0 <= i < |s| ==> DigitOf(s[i], radix).Some?
  }

  function DigitChar(d: nat): char
    requires d < 10
  {
    ('0' as int + d) as char
  }

  /** The number a string of digits denotes in `radix`, most significant digit first. */
  function ValueOf(s: string, radix: nat): nat
    requires AllRadixDigits(s, radix)
  {
    if s == [] then 0 else ValueOf(s[..|s| - 1], radix) * radix + DigitOf(s[|s| - 1], radix).value
  }

  /** Number.prototype.toString() of a non-negative integer: its decimal digits, no leading zero. */
  function Decimal(n: nat): (s: string)
    ensures 1 <= |s|
    ensures AllDigits(s)
    ensures s[0] == '0' ==> n == 0
  {
    if n < 10 then [DigitChar(n)] else Decimal(n / 10) + [DigitChar(n % 10)]
  }

  /** Number.prototype.toString() of an integer. */
  function IntText(i: int): string {
    if i < 0 then "-" + Decimal(-i) else Decimal(i)
  }

  /** Reading the decimal digits back gives the number: Decimal is a faithful encoding. */
  lemma {:induction false} DecimalValue(n: nat)
    ensures AllRadixDigits(Decimal(n), 10)
    ensures ValueOf(Decimal(n), 10) == n
  {
    var s := Decimal(n);
    if n >= 10 {
      DecimalValue(n / 10);
      assert s[..|s| - 1] == Decimal(n / 10);
    }
  }

  lemma DecimalInjective(m: nat, n: nat)
    requires Decimal(m) == Decimal(n)
    ensures m == n
  {
    DecimalValue(m);
    DecimalValue(n);
  }

  // ---------------------------------------------------------------------------
  // Number.parseInt

  /** The white-space and line-terminator characters that parseInt skips (StrWhiteSpaceChar). */
  predicate IsJsSpace(c: char) {
    c == ' ' || c == '\t' || c == '\n' || c == '\r' || c == '\U{000B}' || c == '\U{000C}'
    || c == '\U{00A0}' || c == '\U{FEFF}' || c == '\U{1680}' || ('\U{2000}' <= c <= '\U{200A}')
    || c == '\U{2028}' || c == '\U{2029}' || c == '\U{202F}' || c == '\U{205F}' || c == '\U{3000}'
  }

  function TrimStart(s: string): (r: string)
    ensures |r| <= |s| && r == s[|s| - |r|..]
    ensures r == [] || !IsJsSpace(r[0])
  {
    if s != [] && IsJsSpace(s[0]) then TrimStart(s[1..]) else s
  }

  /** The longest prefix of `s` made of digits in `radix`. */
  function LeadingDigits(s: string, radix: nat): (d: string)
    ensures |d| <= |s| && d == s[..|d|]
    ensures AllRadixDigits(d, radix)
    ensures |d| < |s| ==> DigitOf(s[|d|], radix).None?
  {
    if s != [] && DigitOf(s[0], radix).Some? then [s[0]] + LeadingDigits(s[1..], radix) else []
  }

  /** Number.parseInt(s) with no radix argument; None stands for NaN. Leading white space
      is skipped, one sign is read, a "0x"/"0X" prefix selects radix 16, and the longest run
      of digits that follows is read. */
  function ParseInt(s: string): Option<int> {
    var t := TrimStart(s);
    var negative := t != [] && t[0] == '-';
    var u := if t != [] && (t[0] == '-' || t[0] == '+') then t[1..] else t;
    var hex := |u| >= 2 && u[0] == '0' && (u[1] == 'x' || u[1] == 'X');
    var radix := if hex then 16 else 10;
    var digits := LeadingDigits(if hex then u[2..] else u, radix);
    if digits == [] then None
    else
      var v: int := ValueOf(digits, radix);
      Some(if negative then -v else v)
  }

  lemma {:induction false} LeadingDigitsOfDigits(s: string)
    requires AllDigits(s)
    ensures LeadingDigits(s, 10) == s
  {
    if s != [] {
      LeadingDigitsOfDigits(s[1..]);
    }
  }

  /** parseInt reads back what toString wrote. */
  lemma {:induction false} ParseIntDecimal(n: nat)
    ensures ParseInt(Decimal(n)) == Some(n)
  {
    var s := Decimal(n);
    assert IsDigit(s[0]) && !IsJsSpace(s[0]);
    assert TrimStart(s) == s;
    assert s[0] != '-' && s[0] != '+';
    assert |s| >= 2 ==> IsDigit(s[1]);
    LeadingDigitsOfDigits(s);
    DecimalValue(n);
  }

  // ---------------------------------------------------------------------------
  // String methods

  predicate StartsWith(s: string, prefix: string) {
    |prefix| <= |s| && s[..|prefix|] == prefix
  }

  predicate EndsWith(s: string, suffix: string) {
    |suffix| <= |s| && s[|s| - |suffix|..] == suffix
  }

  function LowerChar(c: char): char {
    if 'A' <= c <= 'Z' then (c as int - 'A' as int + 'a' as int) as char else c
  }

  /** String.prototype.toLowerCase, on the ASCII letters. */
  function ToLower(s: string): string {
    seq(|s|, i requires 0 <= i < |s| => LowerChar(s[i]))
  }

  /** The position of the first `c` in `s`, as indexOf finds it. */
  function IndexOf(s: string, c: char): (k: Option<nat>)
    ensures k.Some? ==> k.value < |s| && s[k.value] == c && c !in s[..k.value]
    ensures k.None? ==> c !in s
  {
    if s == [] then None
    else if s[0] == c then Some(0)
    else
      var k := IndexOf(s[1..], c);
      assert s == [s[0]] + s[1..];
      if k.Some? then (assert s[..k.value + 1] == [s[0]] + s[1..][..k.value]; Some(k.value + 1)) else None
  }

  /** String.prototype.split with a one-character separator. */
  function Split(s: string, sep: char): (parts: seq<string>)
    ensures |parts| >= 1
    ensures forall i :: 0 <= i < |parts| ==> sep !in parts[i]
    ensures |parts| == 1 <==> sep !in s
    decreases |s|
  {
    var found := IndexOf(s, sep);
    if found.None? then [s] else [s[..found.value]] + Split(s[found.value + 1..], sep)
  }

  /** Array.prototype.join with a one-character separator. */
  function Join(parts: seq<string>, sep: char): string {
    if parts == [] then ""
    else if |parts| == 1 then parts[0]
    else parts[0] + [sep] + Join(parts[1..], sep)
  }

  lemma Around(s: string, k: nat)
    requires k < |s|
    ensures s == s[..k] + [s[k]] + s[k + 1..]
  {
  }

  lemma JoinCons(a: string, rest: seq<string>, sep: char)
    requires |rest| >= 1
    ensures Join([a] + rest, sep) == a + [sep] + Join(rest, sep)
  {
    assert ([a] + rest)[1..] == rest;
  }

  /** Joining the pieces of a split gives back the string. */
  lemma {:induction false} JoinSplit(s: string, sep: char)
    ensures Join(Split(s, sep), sep) == s
    decreases |s|
  {
    var found := IndexOf(s, sep);
    if found.Some? {
      var k := found.value;
      var rest := Split(s[k + 1..], sep);
      JoinSplit(s[k + 1..], sep);
      JoinCons(s[..k], rest, sep);
      Around(s, k);
    }
  }

  /** Splitting a join of separator-free pieces gives back the pieces. */
  lemma {:induction false} SplitJoin(parts: seq<string>, sep: char)
    requires |parts| >= 1
    requires forall i :: 0 <= i < |parts| ==> sep !in parts[i]
    ensures Split(Join(parts, sep), sep) == parts
  {
    if |parts| > 1 {
      var s := Join(parts, sep);
      var p := parts[0];
      assert s == p + [sep] + Join(parts[1..], sep);
      assert s[|p|] == sep;
      assert s[..|p|] == p;
      assert IndexOf(s, sep) == Some(|p|);
      assert s[|p| + 1..] == Join(parts[1..], sep);
      SplitJoin(parts[1..], sep);
    }
  }

  /** `s.split(sep)[0]`: everything before the first separator. */
  function FirstSegment(s: string, sep: char): (r: string)
    ensures StartsWith(s, r) && sep !in r
    ensures |r| < |s| ==> s[|r|] == sep
  {
    JoinSplit(s, sep);
    var parts := Split(s, sep);
    if |parts| == 1 then parts[0] else
      var k := IndexOf(s, sep).value;
      assert parts[0] == s[..k];
      parts[0]
  }

  /** `r` is the part of `s` after its last `sep`: a separator-free suffix that is either
      all of `s` or preceded by `sep`. */
  predicate IsLastSegment(s: string, sep: char, r: string) {
    EndsWith(s, r) && sep !in r && (|r| < |s| ==> s[|s| - |r| - 1] == sep)
  }

  /** A character other than the separator extends the last segment. */
  lemma LastSegmentSnoc(init: string, c: char, sep: char, r: string)
    requires IsLastSegment(init, sep, r) && c != sep
    ensures IsLastSegment(init + [c], sep, r + [c])
  {
    var s, res := init + [c], r + [c];
    assert s[|s| - |res|..] == init[|init| - |r|..] + [c];
    if |res| < |s| {
      assert s[|s| - |res| - 1] == init[|init| - |r| - 1];
    }
  }

  /** `s.split(sep).pop()`: everything after the last separator. */
  function LastSegment(s: string, sep: char): (r: string)
    ensures IsLastSegment(s, sep, r)
    decreases |s|
  {
    if s == [] || s[|s| - 1] == sep then []
    else
      var init, c := s[..|s| - 1], s[|s| - 1];
      var r := LastSegment(init, sep);
      LastSegmentSnoc(init, c, sep, r);
      assert init + [c] == s;
      r + [c]
  }

  /** `s` holds `t` starting at position `i`. */
  predicate OccursAt(s: string, t: string, i: nat) {
    i + |t| <= |s| && s[i..i + |t|] == t
  }

  /** String.prototype.includes. */
  predicate Includes(s: string, t: string)
    decreases |s|
  {
    StartsWith(s, t) || (s != [] && Includes(s[1..], t))
  }

  lemma {:induction false} IncludesOccurs(s: string, t: string)
    ensures Includes(s, t) <==> exists i: nat :: OccursAt(s, t, i)
    decreases |s|
  {
    if StartsWith(s, t) {
      assert OccursAt(s, t, 0);
    } else if s == [] {
      assert forall i: nat :: !OccursAt(s, t, i);
    } else {
      IncludesOccurs(s[1..], t);
      if Includes(s[1..], t) {
        var i: nat :| OccursAt(s[1..], t, i);
        assert s[i + 1..i + 1 + |t|] == s[1..][i..i + |t|];
        assert OccursAt(s, t, i + 1);
      } else {
        forall i: nat ensures !OccursAt(s, t, i) {
          if i == 0 {
            assert |t| <= |s| ==> s[0..|t|] == s[..|t|];
          } else if i + |t| <= |s| {
            assert s[1..][i - 1..i - 1 + |t|] == s[i..i + |t|];
            assert !OccursAt(s[1..], t, i - 1);
          }
        }
      }
    }
  }
}
