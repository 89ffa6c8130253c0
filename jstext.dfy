/**
 * The JavaScript string and number built-ins that the rental client relies on:
 * `String.prototype.trim`, `toLowerCase` (on ASCII letters), `includes`,
 * `Number.parseInt(value, 10)` and `String(n)` on integers.
 */
module JsText {
  import opened Results

  /** The code points ECMAScript counts as WhiteSpace or LineTerminator:
      what `trim` strips and what `parseInt` skips before a number. */
  predicate IsSpace(c: char) {
    || c == '\t' || c == '\n' || c == '\U{000B}' || c == '\U{000C}' || c == '\r' || c == ' '
    || c == '\U{00A0}' || c == '\U{1680}' || ('\U{2000}' <= c <= '\U{200A}')
    || c == '\U{2028}' || c == '\U{2029}' || c == '\U{202F}' || c == '\U{205F}'
    || c == '\U{3000}' || c == '\U{FEFF}'
  }

  /** No white space at either end. */
  predicate Unpadded(s: string) {
    s == [] || (!IsSpace(s[0]) && !IsSpace(s[|s| - 1]))
  }

  /** The length of the longest all-white-space prefix of `s`. */
  function LeadingSpaces(s: string): (n: nat)
    ensures n <= |s|
    ensures forall i :: 0 <= i < n ==> IsSpace(s[i])
    ensures n == |s| || !IsSpace(s[n])
  {
    if |s| == 0 || !IsSpace(s[0]) then 0 else 1 + LeadingSpaces(s[1..])
  }

  /** The length of the longest all-white-space suffix of `s`. */
  function TrailingSpaces(s: string): (n: nat)
    ensures n <= |s|
    ensures forall i :: |s| - n <= i < |s| ==> IsSpace(s[i])
    ensures n == |s| || !IsSpace(s[|s| - n - 1])
  {
    if |s| == 0 || !IsSpace(s[|s| - 1]) then 0 else 1 + TrailingSpaces(s[..|s| - 1])
  }

  /** `s.trim()`: the slice of `s` left after removing white space from both ends. */
  function Trim(s: string): (r: string)
    ensures Unpadded(r)
    ensures |r| <= |s|
  {
    var t := s[LeadingSpaces(s)..];
    t[..|t| - TrailingSpaces(t)]
  }

  /** `trim` removes only white space: what it returns is the middle of `s`,
      with white space alone before and after it. */
  lemma TrimKeepsMiddle(s: string)
    ensures var n := LeadingSpaces(s);
      && n + |Trim(s)| <= |s|
      && Trim(s) == s[n..n + |Trim(s)|]
      && (forall i :: 0 <= i < n ==> IsSpace(s[i]))
      && (forall i :: n + |Trim(s)| <= i < |s| ==> IsSpace(s[i]))
  {
  }

  lemma TrimUnpadded(s: string)
    requires Unpadded(s)
    ensures Trim(s) == s
  {
    if s != [] {
      assert LeadingSpaces(s) == 0;
      assert TrailingSpaces(s) == 0;
    }
  }

  /** Trimming twice is trimming once. */
  lemma TrimIdempotent(s: string)
    ensures Trim(Trim(s)) == Trim(s)
  {
    TrimUnpadded(Trim(s));
  }

  /** `c.toLowerCase()` on a single character; only ASCII letters change. */
  function LowerChar(c: char): char {
    if 'A' <= c <= 'Z' then (c as int + 32) as char else c
  }

  /** `s.toLowerCase()`, restricted to ASCII case mapping. */
  function ToLower(s: string): (r: string)
    ensures |r| == |s|
  {
    seq(|s|, i requires 0 <= i < |s| => LowerChar(s[i]))
  }

  /** Lower-casing leaves no upper-case ASCII letter and changes nothing else. */
  lemma ToLowerLowers(s: string)
    ensures forall i :: 0 <= i < |s| ==> !('A' <= ToLower(s)[i] <= 'Z')
    ensures forall i :: 0 <= i < |s| && !('A' <= s[i] <= 'Z') ==> ToLower(s)[i] == s[i]
  {
  }

  const Upper: string := "ABCDEFGHIJKLMNOPQRSTUVWXYZ"
  const Lower: string := "abcdefghijklmnopqrstuvwxyz"

  /** Each upper-case ASCII letter becomes its own lower-case letter. */
  lemma LowerCharMapsLetters()
    ensures forall k :: 0 <= k < 26 ==> LowerChar(Upper[k]) == Lower[k]
  {
  }

  /** Lower-casing a text turns every capital into the matching small letter. */
  lemma ToLowerMapsLetters(s: string)
    ensures forall i, k :: 0 <= i < |s| && 0 <= k < 26 && s[i] == Upper[k] ==> ToLower(s)[i] == Lower[k]
  {
    LowerCharMapsLetters();
  }

  lemma ToLowerIdempotent(s: string)
    ensures ToLower(ToLower(s)) == ToLower(s)
  {
  }

  lemma ToLowerConcat(a: string, b: string)
    ensures ToLower(a + b) == ToLower(a) + ToLower(b)
  {
  }

  /** Lower-casing keeps white space and changes nothing else into white space. */
  lemma LowerKeepsSpaces(s: string)
    ensures forall i :: 0 <= i < |s| ==> (IsSpace(ToLower(s)[i]) <==> IsSpace(s[i]))
  {
  }

  lemma {:induction false} LeadingSpacesOfLower(s: string)
    ensures LeadingSpaces(ToLower(s)) == LeadingSpaces(s)
  {
    LowerKeepsSpaces(s);
  }

  lemma {:induction false} TrailingSpacesOfLower(s: string)
    ensures TrailingSpaces(ToLower(s)) == TrailingSpaces(s)
  {
    LowerKeepsSpaces(s);
  }

  lemma ToLowerDrop(s: string, i: nat)
    requires i <= |s|
    ensures ToLower(s)[i..] == ToLower(s[i..])
  {
  }

  lemma ToLowerTake(s: string, i: nat)
    requires i <= |s|
    ensures ToLower(s)[..i] == ToLower(s[..i])
  {
  }

  /** Trimming and ASCII lower-casing commute. */
  lemma TrimLowerCommute(s: string)
    ensures Trim(ToLower(s)) == ToLower(Trim(s))
  {
    var n := LeadingSpaces(s);
    LeadingSpacesOfLower(s);
    var t := s[n..];
    ToLowerDrop(s, n);
    TrailingSpacesOfLower(t);
    var m := TrailingSpaces(t);
    ToLowerTake(t, |t| - m);
  }

  /** `needle` occurs in `hay` starting at index `i`. */
  predicate OccursAt(hay: string, needle: string, i: int) {
    0 <= i && i + |needle| <= |hay| && hay[i..i + |needle|] == needle
  }

  /** `hay.includes(needle)`. */
  function Includes(hay: string, needle: string): (b: bool)
    ensures b <==> exists i :: OccursAt(hay, needle, i)
    decreases |hay|
  {
    if needle <= hay then
      assert OccursAt(hay, needle, 0);
      true
    else if |hay| == 0 then
      false
    else
      var b := Includes(hay[1..], needle);
      assert forall i :: OccursAt(hay[1..], needle, i) <==> OccursAt(hay, needle, i + 1);
      assert forall i :: OccursAt(hay, needle, i) ==> OccursAt(hay[1..], needle, i - 1);
      b
  }

  predicate IsDigit(c: char) {
    '0' <= c <= '9'
  }

  predicate AllDigits(s: string) {
    forall i :: 0 <= i < |s| ==> IsDigit(s[i])
  }

  function DigitValue(c: char): nat
    requires IsDigit(c)
  {
    assert '0' as int <= c as int;
    c as int - '0' as int
  }

  function DigitChar(d: nat): char
    requires d < 10
  {
    ('0' as int + d) as char
  }

  /** The length of the longest all-digit prefix of `s`. */
  function LeadingDigits(s: string): (n: nat)
    ensures n <= |s|
    ensures AllDigits(s[..n])
    ensures n == |s| || !IsDigit(s[n])
  {
    if |s| == 0 || !IsDigit(s[0]) then 0 else 1 + LeadingDigits(s[1..])
  }

  /** The value of a string of decimal digits, most significant first. */
  function DecimalValue(ds: string): nat
    requires AllDigits(ds)
  {
    if ds == [] then 0 else DecimalValue(ds[..|ds| - 1]) * 10 + DigitValue(ds[|ds| - 1])
  }

  /** The decimal digits of `n`, without leading zeros. */
  function Digits(n: nat): (s: string)
    ensures |s| > 0 && AllDigits(s)
  {
    if n < 10 then [DigitChar(n)] else Digits(n / 10) + [DigitChar(n % 10)]
  }

  /** `String(n)` for an integer `n`. */
  function IntToString(n: int): (s: string)
    ensures |s| > 0
    ensures s[0] == '-' <==> n < 0
    ensures AllDigits(if n < 0 then s[1..] else s)
  {
    if n < 0 then "-" + Digits(-n) else Digits(n)
  }

  /** The longest run of decimal digits at the front of `body`, read as a
      number; None when there is none. */
  function ParseDigits(body: string): (r: Option<nat>)
    ensures r.Some? <==> |body| > 0 && IsDigit(body[0])
  {
    var n := LeadingDigits(body);
    if n == 0 then None else Some(DecimalValue(body[..n]))
  }

  /** After an optional sign, `t` continues with a digit. */
  predicate StartsNumber(t: string) {
    var body := if |t| > 0 && (t[0] == '-' || t[0] == '+') then t[1..] else t;
    |body| > 0 && IsDigit(body[0])
  }

  /** An optional sign, then the digits. */
  function ParseSigned(t: string): (r: Option<int>)
    ensures r.Some? <==> StartsNumber(t)
    ensures r.Some? && r.value < 0 ==> t[0] == '-'
  {
    if |t| > 0 && t[0] == '-' then
      match ParseDigits(t[1..])
      case Some(m) => Some(0 - m)
      case None => None
    else if |t| > 0 && t[0] == '+' then ParseDigits(t[1..])
    else ParseDigits(t)
  }

  /** `Number.parseInt(s, 10)`: skip leading white space, read an optional sign,
      then the longest run of decimal digits; None stands for NaN (no digits). */
  function ParseInt(s: string): (r: Option<int>)
    ensures r.Some? <==> StartsNumber(s[LeadingSpaces(s)..])
    ensures r.Some? && r.value < 0 ==> LeadingSpaces(s) < |s| && s[LeadingSpaces(s)] == '-'
  {
    ParseSigned(s[LeadingSpaces(s)..])
  }

  lemma {:induction false} DecimalValueOfDigits(n: nat)
    ensures DecimalValue(Digits(n)) == n
  {
    if n >= 10 {
      var s := Digits(n);
      assert s[..|s| - 1] == Digits(n / 10);
      DecimalValueOfDigits(n / 10);
    }
  }

  /** The digit run of a digit string followed by a non-digit is that string. */
  lemma {:induction false} LeadingDigitsOfNumber(ds: string, rest: string)
    requires AllDigits(ds)
    requires rest == [] || !IsDigit(rest[0])
    ensures LeadingDigits(ds + rest) == |ds|
  {
    if ds != [] {
      assert (ds + rest)[1..] == ds[1..] + rest;
      LeadingDigitsOfNumber(ds[1..], rest);
    }
  }

  /** A digit string followed by a non-digit reads as the digit string's value. */
  lemma ParseDigitsOfNumber(ds: string, rest: string)
    requires ds != [] && AllDigits(ds)
    requires rest == [] || !IsDigit(rest[0])
    ensures ParseDigits(ds + rest) == Some(DecimalValue(ds))
  {
    LeadingDigitsOfNumber(ds, rest);
    assert (ds + rest)[..|ds|] == ds;
  }

  /** Text that starts with a minus sign or a digit has no white space to skip. */
  lemma ParseIntFromSignOrDigit(s: string)
    requires s != [] && (s[0] == '-' || IsDigit(s[0]))
    ensures ParseInt(s) == ParseSigned(s)
  {
    assert !IsSpace(s[0]);
  }

  lemma DropSign(sign: char, ds: string, rest: string)
    ensures ([sign] + ds + rest)[1..] == ds + rest
  {
  }

  /** A minus sign and a digit string read as the negated value. */
  lemma ParseSignedNegative(ds: string, rest: string)
    requires ds != [] && AllDigits(ds)
    requires rest == [] || !IsDigit(rest[0])
    ensures ParseSigned("-" + ds + rest) == Some(0 - DecimalValue(ds))
  {
    var t := "-" + ds + rest;
    DropSign('-', ds, rest);
    assert t == ['-'] + ds + rest;
    assert t[0] == '-' && t[1..] == ds + rest;
    ParseDigitsOfNumber(ds, rest);
  }

  /** A digit string without a sign reads as its value. */
  lemma ParseSignedUnsigned(ds: string, rest: string)
    requires ds != [] && AllDigits(ds)
    requires rest == [] || !IsDigit(rest[0])
    ensures ParseSigned(ds + rest) == Some(DecimalValue(ds))
  {
    ParseDigitsOfNumber(ds, rest);
    assert (ds + rest)[0] == ds[0];
  }

  /** The sign and digits `String(n)` writes read back as `n`. */
  lemma ParseSignedOfNumber(n: int, rest: string)
    requires rest == [] || !IsDigit(rest[0])
    ensures ParseSigned(IntToString(n) + rest) == Some(n)
  {
    var m: nat := if n < 0 then -n else n;
    var ds := Digits(m);
    DecimalValueOfDigits(m);
    if n < 0 {
      ParseSignedNegative(ds, rest);
      assert IntToString(n) == "-" + ds;
    } else {
      ParseSignedUnsigned(ds, rest);
    }
  }

  /** `parseInt` reads back the number `String(n)` wrote, ignoring whatever
      follows it once a non-digit is reached. */
  lemma ParseIntReadsLeadingNumber(n: int, rest: string)
    requires rest == [] || !IsDigit(rest[0])
    ensures ParseInt(IntToString(n) + rest) == Some(n)
  {
    var s := IntToString(n) + rest;
    ParseSignedOfNumber(n, rest);
    if n >= 0 {
      assert IsDigit(Digits(n)[0]);
    }
    ParseIntFromSignOrDigit(s);
  }

  lemma ParseIntOfIntToString(n: int)
    ensures ParseInt(IntToString(n)) == Some(n)
  {
    ParseIntReadsLeadingNumber(n, []);
    assert IntToString(n) + [] == IntToString(n);
  }

  /** A string without any digit is NaN to `parseInt`. */
  lemma ParseIntWithoutDigits(s: string)
    requires forall i :: 0 <= i < |s| ==> !IsDigit(s[i])
    ensures ParseInt(s) == None
  {
  }
}
