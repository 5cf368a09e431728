/** String helpers with the JavaScript semantics the tracker relies on: `trim`, `toLowerCase`,
    `includes`, `join`, `String(n)` for integers and `slice(-2)`. */
module Text {

  /** The white-space characters of `String.prototype.trim` and of the regular-expression class `\s`
      that this model recognises (ASCII white space, no-break space, byte-order mark, line and
      paragraph separators). */
  predicate IsWhitespace(c: char) {
    c == ' ' || c == '\t' || c == '\n' || c == '\r' || c == '\U{000B}' || c == '\U{000C}'
    || c == '\U{00A0}' || c == '\U{FEFF}' || c == '\U{2028}' || c == '\U{2029}'
  }

  predicate AllWhitespace(s: string) {
    forall i :: 0 <= i < |s| ==> IsWhitespace(s[i])
  }

  /** `s.trimStart()`: a suffix of `s`; everything dropped is white space and the result does not start with it. */
  function TrimStart(s: string): (r: string)
    ensures |r| <= |s| && r == s[|s| - |r|..]
    ensures AllWhitespace(s[..|s| - |r|])
    ensures r != [] ==> !IsWhitespace(r[0])
  {
    if s != [] && IsWhitespace(s[0]) then TrimStart(s[1..]) else s
  }

  /** `s.trimEnd()`: a prefix of `s`; everything dropped is white space and the result does not end with it. */
  function TrimEnd(s: string): (r: string)
    ensures |r| <= |s| && r == s[..|r|]
    ensures AllWhitespace(s[|r|..])
    ensures r != [] ==> !IsWhitespace(r[|r| - 1])
  {
    if s != [] && IsWhitespace(s[|s| - 1]) then TrimEnd(s[..|s| - 1]) else s
  }

  /** `s.trim()`. */
  function Trim(s: string): string {
    TrimEnd(TrimStart(s))
  }

  /** Trimming leaves nothing exactly when the string is all white space. */
  lemma TrimEmptyIffAllWhitespace(s: string)
    ensures Trim(s) == [] <==> AllWhitespace(s)
  {
    var a := TrimStart(s);
    if Trim(s) == [] {
      assert AllWhitespace(a[0..]);
      assert s == s[..|s| - |a|] + a;
    }
  }

  /** A trimmed string neither starts nor ends with white space, and trimming it again changes nothing. */
  lemma TrimIsIdempotent(s: string)
    ensures var t := Trim(s); t != [] ==> !IsWhitespace(t[0]) && !IsWhitespace(t[|t| - 1])
    ensures Trim(Trim(s)) == Trim(s)
  {
    var t := Trim(s);
    var a := TrimStart(s);
    if t != [] {
      assert t == a[..|t|];
    }
  }

  /** ASCII case mapping of `toLowerCase` (other scripts are left unchanged by this model). */
  function LowerChar(c: char): char {
    if 'A' <= c <= 'Z' then (c as int + 32) as char else c
  }

  function ToLower(s: string): (r: string)
    ensures |r| == |s|
    ensures forall i :: 0 <= i < |s| ==> r[i] == LowerChar(s[i])
  {
    seq(|s|, i requires 0 <= i < |s| => LowerChar(s[i]))
  }

  /** `s.startsWith(t)`. */
  predicate StartsWith(s: string, t: string) {
    |t| <= |s| && s[..|t|] == t
  }

  /** `s.includes(t)`: `t` occurs in `s` at some offset. */
  predicate Includes(s: string, t: string)
    decreases |s|
  {
    StartsWith(s, t) || (s != [] && Includes(s[1..], t))
  }

  lemma IncludesEmpty(s: string)
    ensures Includes(s, "")
  {
  }

  /** `t` occurs in `s` starting at offset `k`. */
  predicate OccursAt(s: string, t: string, k: int) {
    0 <= k <= |s| - |t| && s[k..k + |t|] == t
  }

  /** `Includes` holds exactly when `t` is found at some offset. */
  lemma {:induction false} IncludesAtOffset(s: string, t: string)
    ensures Includes(s, t) <==> exists k :: OccursAt(s, t, k)
    decreases |s|
  {
    if StartsWith(s, t) {
      assert OccursAt(s, t, 0);
    } else if s != [] {
      IncludesAtOffset(s[1..], t);
      if Includes(s[1..], t) {
        var k :| OccursAt(s[1..], t, k);
        assert OccursAt(s, t, k + 1);
      }
      if exists k :: OccursAt(s, t, k) {
        var k :| OccursAt(s, t, k);
        assert k != 0;
        assert OccursAt(s[1..], t, k - 1);
      }
    }
  }

  /** `cells.join(sep)`. */
  function Join(cells: seq<string>, sep: string): string {
    if cells == [] then ""
    else if |cells| == 1 then cells[0]
    else cells[0] + sep + Join(cells[1..], sep)
  }

  predicate IsDigit(c: char) {
    '0' <= c <= '9'
  }

  function DigitChar(d: int): (c: char)
    requires 0 <= d < 10
    ensures IsDigit(c)
  {
    ('0' as int + d) as char
  }

  function DigitValue(c: char): (d: nat)
    requires IsDigit(c)
    ensures d < 10 && DigitChar(d) == c
  {
    c as int - '0' as int
  }

  predicate AllDigits(s: string) {
    forall i :: 0 <= i < |s| ==> IsDigit(s[i])
  }

  /** Decimal digits of a natural number, most significant first, no leading zeros. */
  function NatToString(n: nat): (s: string)
    ensures |s| >= 1 && AllDigits(s)
    ensures |s| > 1 ==> s[0] != '0'
    ensures s[|s| - 1] == DigitChar(n % 10)
  {
    if n < 10 then [DigitChar(n)] else NatToString(n / 10) + [DigitChar(n % 10)]
  }

  /** `String(n)` for an integer `n`. */
  function IntToString(n: int): (s: string)
    ensures |s| >= 1
  {
    if n < 0 then "-" + NatToString(-n) else NatToString(n)
  }

  /** The value of a string of decimal digits (most significant first). */
  function ParseDigits(s: string): nat
    requires AllDigits(s)
  {
    if s == [] then 0 else ParseDigits(s[..|s| - 1]) * 10 + DigitValue(s[|s| - 1])
  }

  /** Reading back the digits of `n` gives `n`. */
  lemma {:induction false} ParseNatToString(n: nat)
    ensures ParseDigits(NatToString(n)) == n
  {
    if n >= 10 {
      ParseNatToString(n / 10);
      var s := NatToString(n);
      assert s[..|s| - 1] == NatToString(n / 10);
    }
  }

  /** `String` is injective on integers. */
  lemma IntToStringInjective(a: int, b: int)
    requires IntToString(a) == IntToString(b)
    ensures a == b
  {
    IntTextParts(a);
    IntTextParts(b);
    var s := IntToString(a);
    if a < 0 {
      NatToStringInjective(-a, -b, s[1..]);
    } else {
      NatToStringInjective(a, b, s);
    }
  }

  /** Two numbers with the same digits are equal. */
  lemma NatToStringInjective(m: nat, n: nat, s: string)
    requires NatToString(m) == s && NatToString(n) == s
    ensures m == n
  {
    ParseNatToString(m);
    ParseNatToString(n);
  }

  /** `String(n)` is a minus sign exactly for negative `n`, followed by the digits of `|n|`. */
  lemma IntTextParts(n: int)
    ensures var s := IntToString(n);
      && (s[0] == '-' <==> n < 0)
      && (n < 0 ==> s[1..] == NatToString(-n))
      && (n >= 0 ==> s == NatToString(n))
  {
    var s := IntToString(n);
    if n < 0 {
      assert s[1..] == NatToString(-n);
    } else {
      assert IsDigit(NatToString(n)[0]);
    }
  }

  /** `s.slice(-2)`: the last two characters, or the whole string when it is shorter. */
  function TakeLast2(s: string): (r: string)
    ensures |r| == if |s| >= 2 then 2 else |s|
  {
    if |s| >= 2 then s[|s| - 2..] else s
  }

  /** Euclidean division is determined by any quotient and remainder that rebuild `n`. */
  lemma DivUnique(n: int, d: int, q: int, r: int)
    requires d > 0 && 0 <= r < d && n == d * q + r
    ensures n / d == q && n % d == r
  {
    var k := n / d - q;
    assert d * k == r - n % d;
  }

  /** The tens digit of `n` is the units digit of `n / 10`. */
  lemma TensDigit(n: nat)
    ensures n / 10 % 10 == n % 100 / 10
  {
    var q, r := n / 100, n % 100;
    var r1, r0 := r / 10, r % 10;
    assert n == 100 * q + r;
    assert r == 10 * r1 + r0;
    DivUnique(n, 10, 10 * q + r1, r0);
    DivUnique(10 * q + r1, 10, q, r1);
  }

  /** For a number with at least two digits, `String(n).slice(-2)` is its tens and units digits. */
  lemma LastTwoDigits(n: int)
    requires n >= 10
    ensures TakeLast2(IntToString(n)) == [DigitChar(n % 100 / 10), DigitChar(n % 10)]
  {
    assert IntToString(n) == NatToString(n);
    LastTwoOfNatToString(n);
    TensDigit(n);
  }

  /** The last two characters of a number's text with at least two digits. */
  lemma LastTwoOfNatToString(n: nat)
    requires n >= 10
    ensures TakeLast2(NatToString(n)) == [DigitChar(n / 10 % 10), DigitChar(n % 10)]
  {
    var s := NatToString(n);
    var h := NatToString(n / 10);
    assert s == h + [DigitChar(n % 10)];
    assert TakeLast2(s) == [h[|h| - 1], s[|s| - 1]];
  }


}
