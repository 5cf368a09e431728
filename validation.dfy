/** The form validators of src/utils/helpers.js:191-215. */
module Validation {
  import opened Text
  import opened Seqs

  /** The MIME types `validateFileType` accepts. */
  const AllowedTypes: seq<string> := ["image/jpeg", "image/jpg", "image/png", "image/gif", "application/pdf"]

  /** `validateFileType(file)`, given `file.type`: only JPEG, PNG and GIF images and PDF documents pass. */
  function ValidateFileType(mimeType: string): (ok: bool)
    ensures ok <==> mimeType in AllowedTypes
    ensures ok ==> StartsWith(mimeType, "image/") || mimeType == "application/pdf"
  {
    mimeType == "image/jpeg" || mimeType == "image/jpg" || mimeType == "image/png"
    || mimeType == "image/gif" || mimeType == "application/pdf"
  }

  const DefaultMaxSizeMB: int := 5

  /** `validateFileSize(file, maxSizeMB)`, given `file.size` in bytes: at most `maxSizeMB` mebibytes. */
  function ValidateFileSize(size: int, maxSizeMB: int): (ok: bool)
    ensures ok <==> size <= maxSizeMB * 1048576
  {
    var maxSizeBytes := maxSizeMB * 1024 * 1024;
    size <= maxSizeBytes
  }

  /** A file that fits a limit fits every larger one; the default limit is 5 MiB (5242880 bytes). */
  lemma FileSizeMonotone(size: int, m: int, n: int)
    requires m <= n && ValidateFileSize(size, m)
    ensures ValidateFileSize(size, n)
    ensures ValidateFileSize(size, DefaultMaxSizeMB) <==> size <= 5242880
  {
  }

  // ---- validateEmail ----

  /** What `/^[^\s@]+@[^\s@]+\.[^\s@]+$/` matches: no white space anywhere, exactly one `@`, not first,
      and after it a `.` with at least one character on each side. */
  ghost predicate EmailShape(s: string) {
    (forall k :: 0 <= k < |s| ==> !IsWhitespace(s[k]))
    && exists i, j :: (0 < i && i + 1 < j && j + 1 < |s| && s[i] == '@' && s[j] == '.'
                      && forall k :: 0 <= k < |s| && k != i ==> s[k] != '@')
  }

  /** Index of the first `c` in `s`, or `|s|`. */
  function IndexOfChar(s: string, c: char): nat {
    FirstIndex(s, (x: char) => x == c)
  }

  /** `validateEmail(email)`, decided by one scan for the `@` and one look for an inner `.`. */
  function ValidateEmail(email: string): bool {
    var i := IndexOfChar(email, '@');
    && (forall k :: 0 <= k < |email| ==> !IsWhitespace(email[k]))
    && 0 < i < |email|
    && '@' !in email[i + 1..]
    && |email| - i >= 4
    && '.' in email[i + 2..|email| - 1]
  }

  /** The scan accepts exactly the strings the regular expression matches. */
  lemma EmailMeaning(email: string)
    ensures ValidateEmail(email) <==> EmailShape(email)
  {
    var i := IndexOfChar(email, '@');
    if ValidateEmail(email) {
      var d := email[i + 2..|email| - 1];
      var m :| 0 <= m < |d| && d[m] == '.';
      var j := i + 2 + m;
      assert email[j] == '.';
      forall k | 0 <= k < |email| && k != i ensures email[k] != '@' {
        if k > i { assert email[k] == email[i + 1..][k - i - 1]; }
      }
    }
    if EmailShape(email) {
      var a, b :| 0 < a && a + 1 < b && b + 1 < |email| && email[a] == '@' && email[b] == '.'
         && forall k :: 0 <= k < |email| && k != a ==> email[k] != '@';
      assert i == a;
      assert email[i + 2..|email| - 1][b - i - 2] == '.';
    }
  }

  // ---- validateRequired ----

  /** A form value as `validateRequired` may receive it. */
  datatype FieldValue = Null | Undefined | Text(s: string) | Number(n: int) | Bool(b: bool)

  /** `value.toString()` for the values modelled (integral numbers only). */
  function ToText(v: FieldValue): string
    requires !v.Null? && !v.Undefined?
  {
    match v
    case Text(s) => s
    case Number(n) => IntToString(n)
    case Bool(b) => if b then "true" else "false"
  }

  /** `validateRequired(value)`. */
  function ValidateRequired(value: FieldValue): bool {
    !value.Null? && !value.Undefined? && Trim(ToText(value)) != ""
  }

  /** A value is present unless it is `null`, `undefined` or a string of white space only
      (numbers and booleans always count as present). */
  lemma RequiredMeaning(value: FieldValue)
    ensures ValidateRequired(value) <==> !(value.Null? || value.Undefined? || (value.Text? && AllWhitespace(value.s)))
  {
    match value
    case Text(s) =>
      TrimEmptyIffAllWhitespace(s);
    case Number(n) =>
      NotAllWhitespace(IntToString(n), |IntToString(n)| - 1);
    case Bool(b) =>
      NotAllWhitespace(ToText(value), 0);
    case _ =>
  }

  /** A text with a character other than white space does not trim to nothing. */
  lemma NotAllWhitespace(t: string, k: int)
    requires 0 <= k < |t| && !IsWhitespace(t[k])
    ensures Trim(t) != ""
  {
    TrimEmptyIffAllWhitespace(t);
  }

  // ---- validateAmount ----

  /** A `parseFloat` result: NaN, a finite value, or ±Infinity. */
  datatype Parsed = NotANumber | Finite(value: real) | Infinite(negative: bool)

  /** Number of leading decimal digits of `s`. */
  function LeadingDigits(s: string): (n: nat)
    ensures n <= |s| && AllDigits(s[..n])
    ensures n < |s| ==> !IsDigit(s[n])
  {
    if s != [] && IsDigit(s[0]) then
      var n := 1 + LeadingDigits(s[1..]);
      assert s[..n] == [s[0]] + s[1..][..n - 1];
      n
    else 0
  }

  function Pow10(n: nat): (r: real)
    ensures r >= 1.0
  {
    if n == 0 then 1.0 else 10.0 * Pow10(n - 1)
  }

  /** The optional exponent `e`/`E`, sign and digits at the start of `s`; `0` when there is none. */
  function ExponentPart(s: string): int {
    if s != [] && (s[0] == 'e' || s[0] == 'E') then
      var r := s[1..];
      var negative := r != [] && r[0] == '-';
      var digits := if r != [] && (r[0] == '-' || r[0] == '+') then r[1..] else r;
      var n := LeadingDigits(digits);
      var magnitude: int := if n == 0 then 0 else ParseDigits(digits[..n]);
      if negative then -magnitude else magnitude
    else 0
  }

  /** The longest decimal literal at the start of `s`: digits, optionally `.` and digits, optionally an
      exponent; NaN when there is no digit before the exponent. */
  function ParseUnsigned(s: string): Parsed {
    if StartsWith(s, "Infinity") then Infinite(false) else ParseLiteral(s)
  }

  /** The decimal literal at the start of `s` (digits, optional fraction, optional exponent). */
  function ParseLiteral(s: string): Parsed {
    var n := LeadingDigits(s);
    var rest := s[n..];
    var hasPoint := rest != [] && rest[0] == '.';
    var frac := if hasPoint then rest[1..] else [];
    var m := LeadingDigits(frac);
    if n == 0 && m == 0 then NotANumber
    else
      var mantissa := ParseDigits(s[..n]) as real + ParseDigits(frac[..m]) as real / Pow10(m);
      var e := ExponentPart(if hasPoint then frac[m..] else rest);
      Finite(if e >= 0 then mantissa * Pow10(e) else mantissa / Pow10(-e))
  }

  function Negate(p: Parsed): Parsed {
    match p
    case NotANumber => NotANumber
    case Finite(v) => Finite(-v)
    case Infinite(neg) => Infinite(!neg)
  }

  /** `parseFloat(s)`: skips leading white space, reads an optional sign, then the longest literal. */
  function ParseFloat(s: string): Parsed {
    var t := TrimStart(s);
    if t != [] && t[0] == '-' then Negate(ParseUnsigned(t[1..]))
    else if t != [] && t[0] == '+' then ParseUnsigned(t[1..])
    else ParseUnsigned(t)
  }

  /** `validateAmount(amount)`: the parsed number is neither NaN nor zero. */
  function ValidateAmount(amount: string): bool {
    match ParseFloat(amount)
    case NotANumber => false
    case Finite(v) => v != 0.0
    case Infinite(_) => true
  }

  lemma {:induction false} LeadingDigitsAll(d: string)
    requires AllDigits(d)
    ensures LeadingDigits(d) == |d|
  {
    if d != [] {
      LeadingDigitsAll(d[1..]);
    }
  }

  /** A plain string of digits parses to its value. */
  lemma ParseUnsignedDigits(d: string)
    requires |d| >= 1 && AllDigits(d)
    ensures ParseUnsigned(d) == Finite(ParseDigits(d) as real)
  {
    NotInfinity(d);
    LiteralOfDigits(d);
  }

  lemma NotInfinity(d: string)
    requires d != [] && IsDigit(d[0])
    ensures !StartsWith(d, "Infinity")
  {
    if |d| >= 8 {
      assert d[..8][0] == d[0];
    }
  }

  lemma LiteralOfDigits(d: string)
    requires |d| >= 1 && AllDigits(d)
    ensures ParseLiteral(d) == Finite(ParseDigits(d) as real)
  {
    LeadingDigitsAll(d);
    var rest: string := d[|d|..];
    assert d[..|d|] == d && rest == [];
    assert LeadingDigits(rest) == 0 && ExponentPart(rest) == 0;
    assert ParseDigits(rest[..0]) == 0 && Pow10(0) == 1.0;
  }

  lemma ParseFloatDigitStart(t: string)
    requires t != [] && IsDigit(t[0])
    ensures ParseFloat(t) == ParseUnsigned(t)
  {
    assert TrimStart(t) == t;
  }

  lemma ParseFloatMinus(d: string)
    requires d != [] && IsDigit(d[0])
    ensures ParseFloat("-" + d) == Negate(ParseUnsigned(d))
  {
    var s := "-" + d;
    assert TrimStart(s) == s;
    assert s[1..] == d;
  }

  lemma ParseNonNegativeText(m: nat)
    ensures ParseFloat(IntToString(m)) == Finite(m as real)
  {
    var d := NatToString(m);
    ParseUnsignedDigits(d);
    ParseNatToString(m);
    ParseFloatDigitStart(d);
  }

  lemma ParseNegativeText(m: nat)
    requires m > 0
    ensures ParseFloat(IntToString(-(m as int))) == Finite(-(m as real))
  {
    var d := NatToString(m);
    ParseNatToString(m);
    ParseFloatMinusDigits(d);
    assert IntToString(-(m as int)) == "-" + d;
  }

  /** A minus sign followed by digits parses to the negated value of the digits. */
  lemma ParseFloatMinusDigits(d: string)
    requires |d| >= 1 && AllDigits(d)
    ensures ParseFloat("-" + d) == Finite(-(ParseDigits(d) as real))
  {
    ParseFloatMinus(d);
    ParseUnsignedDigits(d);
  }

  /** `parseFloat(String(n)) === n` for every integer, negative ones included. */
  lemma ParseIntegerText(n: int)
    ensures ParseFloat(IntToString(n)) == Finite(n as real)
  {
    if n < 0 {
      ParseNegativeText(-n);
    } else {
      ParseNonNegativeText(n);
    }
  }

  /** Hence an integer amount passes exactly when it is non-zero: negative amounts are accepted. */
  lemma AmountOfInteger(n: int)
    ensures ValidateAmount(IntToString(n)) <==> n != 0
  {
    ParseIntegerText(n);
  }

  /** Text with no digit at all (after white space and a sign), such as `""` or `"abc"`, is rejected. */
  lemma AmountNeedsDigits(amount: string)
    requires AllWhitespace(amount)
    ensures !ValidateAmount(amount)
  {
    TrimEmptyIffAllWhitespace(amount);
  }
}
