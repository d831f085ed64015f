/** The few JavaScript string and number operations the bot relies on, with their
    ECMAScript behaviour written out: `trim`, `toLowerCase`, `startsWith`, `includes`,
    `parseInt` without a radix, number-to-string, and the first match of the regular
    expression `/(\d+)/`. Strings are sequences of Unicode scalar values. */
module JsText {
  import opened Options

  /** JavaScript truthiness of a value that may be missing: a string is truthy when
      present and non-empty, a number when present and non-zero. */
  predicate Truthy(s: Option<string>) {
    s.Some? && s.value != ""
  }

  predicate TruthyNum(n: Option<int>) {
    n.Some? && n.value != 0
  }

  // ---------------------------------------------------------------------------
  // Whitespace and String.prototype.trim
  // ---------------------------------------------------------------------------

  /** The code points `trim` and `parseInt` skip: ECMAScript's WhiteSpace and
      LineTerminator productions. */
  predicate IsJsSpace(c: char) {
    c == ' ' || c == '\t' || c == '\n' || c == '\r' || c == '\U{0B}' || c == '\U{0C}'
    || c == '\U{A0}' || c == '\U{1680}' || ('\U{2000}' <= c <= '\U{200A}')
    || c == '\U{2028}' || c == '\U{2029}' || c == '\U{202F}' || c == '\U{205F}'
    || c == '\U{3000}' || c == '\U{FEFF}'
  }

  predicate AllSpace(s: string) {
    forall i :: 0 <= i < |s| ==> IsJsSpace(s[i])
  }

  /** Leading whitespace removed: the result is the longest suffix of `s` that does
      not start with whitespace. */
  function TrimStart(s: string): (r: string)
    ensures |r| <= |s| && r == s[|s| - |r|..]
    ensures r == [] || !IsJsSpace(r[0])
    ensures AllSpace(s[..|s| - |r|])
  {
    if |s| > 0 && IsJsSpace(s[0]) then TrimStart(s[1..]) else s
  }

  /** Trailing whitespace removed: the longest prefix of `s` that does not end with
      whitespace. */
  function TrimEnd(s: string): (r: string)
    ensures |r| <= |s| && r == s[..|r|]
    ensures r == [] || !IsJsSpace(r[|r| - 1])
    ensures AllSpace(s[|r|..])
  {
    if |s| > 0 && IsJsSpace(s[|s| - 1]) then
      var r := TrimEnd(s[..|s| - 1]);
      assert s[|r|..] == s[..|s| - 1][|r|..] + [s[|s| - 1]];
      r
    else s
  }

  /** String.prototype.trim. */
  function Trim(s: string): (r: string)
    ensures exists i, j :: 0 <= i <= j <= |s| && r == s[i..j] && AllSpace(s[..i]) && AllSpace(s[j..])
    ensures r == [] || (!IsJsSpace(r[0]) && !IsJsSpace(r[|r| - 1]))
  {
    var t := TrimStart(s);
    var r := TrimEnd(t);
    assert r == s[|s| - |t|..|s| - |t| + |r|];
    assert s[|s| - |t| + |r|..] == t[|r|..];
    r
  }

  lemma {:induction false} AllSpaceTrimStart(s: string)
    requires AllSpace(s)
    ensures TrimStart(s) == []
  {
    if |s| > 0 {
      AllSpaceTrimStart(s[1..]);
    }
  }

  /** `s.trim().length === 0` holds exactly when every character of `s` is whitespace. */
  lemma TrimEmptyIffAllSpace(s: string)
    ensures Trim(s) == [] <==> AllSpace(s)
  {
    var t := TrimStart(s);
    if AllSpace(s) {
      AllSpaceTrimStart(s);
    }
    if Trim(s) == [] {
      assert AllSpace(t[0..]) && t[0..] == t;
      assert s == s[..|s| - |t|] + t;
    }
  }

  /** Trimming twice is trimming once. */
  lemma TrimIdempotent(s: string)
    ensures Trim(Trim(s)) == Trim(s)
  {
    var r := Trim(s);
    assert TrimStart(r) == r;
    assert TrimEnd(r) == r;
  }

  // ---------------------------------------------------------------------------
  // String.prototype.toLowerCase (Latin and Cyrillic letters)
  // ---------------------------------------------------------------------------

  /** Lower-case mapping of one character for the Basic Latin and Cyrillic blocks. */
  function LowerChar(c: char): (d: char)
    ensures ('A' <= c <= 'Z' || 'А' <= c <= 'Я') ==> d as int == c as int + 32
    ensures 'Ѐ' <= c <= 'Џ' ==> d as int == c as int + 80
    ensures !('A' <= c <= 'Z' || 'Ѐ' <= c <= 'Я') ==> d == c
  {
    if 'A' <= c <= 'Z' || 'А' <= c <= 'Я' then (c as int + 32) as char
    else if 'Ѐ' <= c <= 'Џ' then (c as int + 80) as char
    else c
  }

  function ToLower(s: string): (r: string)
    ensures |r| == |s|
    ensures forall i :: 0 <= i < |s| ==> r[i] == LowerChar(s[i])
  {
    if s == [] then [] else [LowerChar(s[0])] + ToLower(s[1..])
  }

  /** Lower-casing is idempotent, so a lower-cased command compares equal to the
      lower-case literals the handlers test against. */
  lemma ToLowerIdempotent(s: string)
    ensures ToLower(ToLower(s)) == ToLower(s)
  {
    assert forall i :: 0 <= i < |s| ==> LowerChar(LowerChar(s[i])) == LowerChar(s[i]);
  }

  // ---------------------------------------------------------------------------
  // String.prototype.startsWith and String.prototype.includes
  // ---------------------------------------------------------------------------

  predicate StartsWith(s: string, prefix: string) {
    prefix <= s
  }

  /** `sub` occurs in `s` starting at index `i`. */
  predicate OccursAt(s: string, sub: string, i: int) {
    0 <= i && i + |sub| <= |s| && s[i..i + |sub|] == sub
  }

  /** String.prototype.includes: whether `sub` occurs in `s` at some position. */
  function Includes(s: string, sub: string): (b: bool)
    ensures b <==> exists i :: OccursAt(s, sub, i)
    decreases |s|
  {
    if sub <= s then
      assert OccursAt(s, sub, 0);
      true
    else if |s| <= |sub| then
      assert forall i :: !OccursAt(s, sub, i) by {
        forall i | 0 <= i <= |s| - |sub| ensures !OccursAt(s, sub, i) {
          assert i == 0 && s[i..i + |sub|] == s[..|sub|];
        }
      }
      false
    else
      var b := Includes(s[1..], sub);
      ShiftOccurs(s, sub);
      b
  }

  /** An occurrence in `s` is at index 0 or is an occurrence in `s[1..]` shifted by one. */
  lemma ShiftOccurs(s: string, sub: string)
    requires |s| > 0 && !(sub <= s)
    ensures (exists i :: OccursAt(s, sub, i)) <==> (exists i :: OccursAt(s[1..], sub, i))
  {
    forall i | OccursAt(s[1..], sub, i) ensures OccursAt(s, sub, i + 1) {
      assert s[i + 1..i + 1 + |sub|] == s[1..][i..i + |sub|];
    }
    assert !OccursAt(s, sub, 0);
    forall i | OccursAt(s, sub, i) ensures OccursAt(s[1..], sub, i - 1) {
      assert i != 0;
      assert s[i..i + |sub|] == s[1..][i - 1..i - 1 + |sub|];
    }
  }

  // ---------------------------------------------------------------------------
  // Digits, Number.prototype.toString and parseInt
  // ---------------------------------------------------------------------------

  /** `\d` of a JavaScript regular expression without the `u` flag. */
  predicate IsDigit(c: char) {
    '0' <= c <= '9'
  }

  predicate AllDigits(s: string) {
    forall i :: 0 <= i < |s| ==> IsDigit(s[i])
  }

  predicate HasDigit(s: string) {
    exists i :: 0 <= i < |s| && IsDigit(s[i])
  }

  /** The value of a digit character in the given radix (10 or 16), if it is one. */
  function DigitValue(c: char, radix: int): (d: Option<int>)
    ensures d.Some? ==> 0 <= d.value < radix
    ensures radix == 10 ==> (d.Some? <==> IsDigit(c))
    ensures radix == 10 && IsDigit(c) ==> d == Some(c as int - '0' as int)
  {
    if '0' <= c <= '9' && (c as int - '0' as int) < radix then Some(c as int - '0' as int)
    else if radix == 16 && 'a' <= c <= 'f' then Some(c as int - 'a' as int + 10)
    else if radix == 16 && 'A' <= c <= 'F' then Some(c as int - 'A' as int + 10)
    else None
  }

  /** Length of the longest prefix of `s` made of radix digits. */
  function DigitPrefixLen(s: string, radix: int): (n: nat)
    ensures n <= |s|
    ensures forall i :: 0 <= i < n ==> DigitValue(s[i], radix).Some?
    ensures n < |s| ==> DigitValue(s[n], radix).None?
  {
    if |s| > 0 && DigitValue(s[0], radix).Some? then 1 + DigitPrefixLen(s[1..], radix) else 0
  }

  /** The number a string of radix digits denotes, most significant digit first. */
  function DigitsValue(ds: string, radix: int): int
    requires forall i :: 0 <= i < |ds| ==> DigitValue(ds[i], radix).Some?
  {
    if ds == [] then 0
    else DigitsValue(ds[..|ds| - 1], radix) * radix + DigitValue(ds[|ds| - 1], radix).value
  }

  /** The unsigned part of `parseInt`: a `0x`/`0X` prefix switches to radix 16, then
      the longest digit prefix is read; `None` stands for `NaN` (no digits at all). */
  function ParseUnsigned(u: string): (r: Option<int>)
    ensures r.Some? ==> r.value >= 0
  {
    var hex := |u| >= 2 && u[0] == '0' && (u[1] == 'x' || u[1] == 'X');
    var radix := if hex then 16 else 10;
    var body := if hex then u[2..] else u;
    var n := DigitPrefixLen(body, radix);
    DigitsValueNonNegative(body[..n], radix);
    if n == 0 then None else Some(DigitsValue(body[..n], radix))
  }

  lemma {:induction false} DigitsValueNonNegative(ds: string, radix: int)
    requires radix > 0
    requires forall i :: 0 <= i < |ds| ==> DigitValue(ds[i], radix).Some?
    ensures DigitsValue(ds, radix) >= 0
  {
    if ds != [] {
      DigitsValueNonNegative(ds[..|ds| - 1], radix);
    }
  }

  /** `parseInt(s)` with no radix argument: leading whitespace skipped, then an
      optional sign, then the unsigned part. */
  function ParseInt(s: string): (r: Option<int>)
  {
    var t := TrimStart(s);
    if |t| > 0 && t[0] == '-' then
      match ParseUnsigned(t[1..])
      case Some(v) => Some(-v)
      case None => None
    else if |t| > 0 && t[0] == '+' then ParseUnsigned(t[1..])
    else ParseUnsigned(t)
  }

  /** Decimal digits of a natural number, without leading zeros. */
  function NatToString(n: nat): string {
    var d := ['0' + (n % 10) as char];
    if n < 10 then d else NatToString(n / 10) + d
  }

  /** `String(n)` for an integer. */
  function IntToString(n: int): string {
    if n < 0 then "-" + NatToString(-n) else NatToString(n)
  }

  /** The numeral is a non-empty string of decimal digits with no leading zero. */
  lemma {:induction false} NatToStringDigits(n: nat)
    ensures |NatToString(n)| >= 1 && AllDigits(NatToString(n))
    ensures |NatToString(n)| > 1 ==> NatToString(n)[0] != '0'
  {
    if n >= 10 {
      NatToStringDigits(n / 10);
      assert NatToString(n)[0] == NatToString(n / 10)[0];
    }
  }

  lemma {:induction false} NatToStringValue(n: nat)
    ensures DigitPrefixLen(NatToString(n), 10) == |NatToString(n)|
    ensures DigitsValue(NatToString(n), 10) == n
  {
    var s := NatToString(n);
    NatToStringDigits(n);
    DigitPrefixAll(s);
    if n >= 10 {
      NatToStringValue(n / 10);
      assert s[..|s| - 1] == NatToString(n / 10);
    }
  }

  lemma {:induction false} DigitPrefixAll(s: string)
    requires AllDigits(s)
    ensures DigitPrefixLen(s, 10) == |s|
  {
    if |s| > 0 {
      DigitPrefixAll(s[1..]);
    }
  }

  /** The unsigned part reads a decimal numeral back to its value. */
  lemma ParseUnsignedNat(m: nat)
    ensures ParseUnsigned(NatToString(m)) == Some(m)
  {
    NatToStringValue(m);
    NatToStringDigits(m);
    ParseUnsignedDecimal(NatToString(m));
  }

  /** A non-empty decimal numeral without a leading zero is read in radix 10, whole. */
  lemma ParseUnsignedDecimal(d: string)
    requires |d| >= 1 && AllDigits(d) && (|d| > 1 ==> d[0] != '0')
    ensures DigitPrefixLen(d, 10) == |d|
    ensures ParseUnsigned(d) == Some(DigitsValue(d, 10))
  {
    DigitPrefixAll(d);
    assert d[..|d|] == d;
  }

  /** Reading back the decimal text of a number gives the number: parseInt inverts
      number-to-string. */
  lemma ParseIntRoundTrip(n: int)
    ensures ParseInt(IntToString(n)) == Some(n)
  {
    var m := if n < 0 then -n else n;
    var s := IntToString(n);
    ParseUnsignedNat(m);
    NatToStringDigits(m);
    assert !IsJsSpace(s[0]);
    assert TrimStart(s) == s;
    if n < 0 {
      assert s[1..] == NatToString(m);
    } else {
      assert s == NatToString(m);
      assert s[0] != '-' && s[0] != '+';
    }
  }

  // ---------------------------------------------------------------------------
  // The first match of /(\d+)/
  // ---------------------------------------------------------------------------

  /** Index of the first decimal digit, or |s| when there is none. */
  function FirstDigitIndex(s: string): (k: nat)
    ensures k <= |s|
    ensures k < |s| ==> IsDigit(s[k])
    ensures forall i :: 0 <= i < k ==> !IsDigit(s[i])
  {
    if s == [] || IsDigit(s[0]) then 0 else 1 + FirstDigitIndex(s[1..])
  }

  /** The leftmost maximal run of decimal digits, which is what `/(\d+)/` captures. */
  function FirstDigitRun(s: string): (run: string)
    requires HasDigit(s)
    ensures exists i, j ::
              && 0 <= i < j <= |s| && run == s[i..j] && AllDigits(run)
              && (forall k :: 0 <= k < i ==> !IsDigit(s[k]))
              && (j == |s| || !IsDigit(s[j]))
  {
    var i := FirstDigitIndex(s);
    DigitRunAt(s, i);
    var j := i + DigitPrefixLen(s[i..], 10);
    assert (forall k :: 0 <= k < i ==> !IsDigit(s[k])) && (j == |s| || !IsDigit(s[j]));
    s[i..j]
  }

  /** The digit prefix of `s[i..]`, when `s[i]` is a digit, is a non-empty maximal run. */
  lemma DigitRunAt(s: string, i: nat)
    requires i < |s| && IsDigit(s[i])
    ensures var j := i + DigitPrefixLen(s[i..], 10);
            i < j <= |s| && AllDigits(s[i..j]) && (j == |s| || !IsDigit(s[j]))
  {
    var t := s[i..];
    var n := DigitPrefixLen(t, 10);
    var j := i + n;
    assert t[0] == s[i];
    assert DigitValue(t[0], 10).Some?;
    forall k | 0 <= k < n ensures IsDigit(s[i..j][k]) {
      assert s[i..j][k] == t[k];
      assert DigitValue(t[k], 10).Some?;
    }
    if j < |s| {
      assert s[j] == t[n];
    }
  }
}
