/**
 * The JavaScript string operations the portfolio code relies on, over `string`
 * (one `char` per Unicode scalar value): `trim`, truthiness of a trimmed string,
 * `includes`, `startsWith`, the ASCII case folding of a case-insensitive regular
 * expression, `String(n)` for a natural number and `padStart`.
 */
module JsText {

  /** WhiteSpace and LineTerminator code points of ECMAScript: what `String.prototype.trim` removes. */
  predicate IsJsWhitespace(c: char) {
    || c == '\t' || c == '\n' || c == '\U{000B}' || c == '\U{000C}' || c == '\r' || c == ' '
    || c == '\U{00A0}' || c == '\U{1680}' || ('\U{2000}' <= c <= '\U{200A}')
    || c == '\U{2028}' || c == '\U{2029}' || c == '\U{202F}' || c == '\U{205F}'
    || c == '\U{3000}' || c == '\U{FEFF}'
  }

  predicate AllWhitespace(s: string) {
    forall i :: 0 <= i < |s| ==> IsJsWhitespace(s[i])
  }

  /** The longest suffix of `s` that does not start with whitespace. */
  function TrimStart(s: string): (r: string)
    ensures |r| <= |s| && r == s[|s| - |r|..]
    ensures r != [] ==> !IsJsWhitespace(r[0])
  {
    if s != [] && IsJsWhitespace(s[0]) then TrimStart(s[1..]) else s
  }

  /** The longest prefix of `s` that does not end with whitespace. */
  function TrimEnd(s: string): (r: string)
    ensures |r| <= |s| && r == s[..|r|]
    ensures r != [] ==> !IsJsWhitespace(r[|r| - 1])
  {
    if s != [] && IsJsWhitespace(s[|s| - 1]) then TrimEnd(s[..|s| - 1]) else s
  }

  lemma {:induction false} TrimStartDropsWhitespace(s: string)
    ensures forall i :: 0 <= i < |s| - |TrimStart(s)| ==> IsJsWhitespace(s[i])
    decreases |s|
  {
    if s != [] && IsJsWhitespace(s[0]) {
      TrimStartDropsWhitespace(s[1..]);
      assert forall i :: 1 <= i < |s| ==> s[i] == s[1..][i - 1];
    }
  }

  lemma {:induction false} TrimEndDropsWhitespace(s: string)
    ensures forall i :: |TrimEnd(s)| <= i < |s| ==> IsJsWhitespace(s[i])
    decreases |s|
  {
    if s != [] && IsJsWhitespace(s[|s| - 1]) {
      TrimEndDropsWhitespace(s[..|s| - 1]);
      assert forall i :: 0 <= i < |s| - 1 ==> s[i] == s[..|s| - 1][i];
    }
  }

  /** Where `Trim(s)` starts inside `s`. */
  function TrimOffset(s: string): nat {
    |s| - |TrimStart(s)|
  }

  /** `s.trim()`: `s` without its leading and trailing whitespace. */
  function Trim(s: string): (r: string)
    ensures TrimOffset(s) + |r| <= |s| && r == s[TrimOffset(s)..TrimOffset(s) + |r|]
    ensures r != [] ==> !IsJsWhitespace(r[0]) && !IsJsWhitespace(r[|r| - 1])
  {
    TrimEnd(TrimStart(s))
  }

  /** What `trim` removes, on either side, is whitespace only. */
  lemma TrimRemovesWhitespace(s: string)
    ensures forall i :: 0 <= i < TrimOffset(s) ==> IsJsWhitespace(s[i])
    ensures forall i :: TrimOffset(s) + |Trim(s)| <= i < |s| ==> IsJsWhitespace(s[i])
  {
    var t := TrimStart(s);
    var k := TrimOffset(s);
    TrimStartDropsWhitespace(s);
    TrimEndDropsWhitespace(t);
    forall i | k + |Trim(s)| <= i < |s|
      ensures IsJsWhitespace(s[i])
    {
      assert s[i] == t[i - k];
    }
  }

  /** A string whose `trim()` is falsy: nothing but whitespace (see `BlankIffTrimEmpty`). */
  predicate IsBlank(s: string) {
    AllWhitespace(s)
  }

  /** `!s.trim()` holds exactly for the blank strings. */
  lemma BlankIffTrimEmpty(s: string)
    ensures IsBlank(s) <==> Trim(s) == []
  {
    var r := Trim(s);
    TrimRemovesWhitespace(s);
    if r != [] {
      assert r[0] == s[TrimOffset(s)];
    }
  }

  lemma TrimIdempotent(s: string)
    ensures Trim(Trim(s)) == Trim(s)
  {
    var r := Trim(s);
    if r != [] {
      assert TrimStart(r) == r;
      assert TrimEnd(r) == r;
    }
  }

  /** Trimming never cuts into a stretch that starts and ends with non-whitespace characters. */
  lemma TrimKeeps(s: string, lo: nat, hi: nat)
    requires lo < hi <= |s|
    requires !IsJsWhitespace(s[lo]) && !IsJsWhitespace(s[hi - 1])
    ensures TrimOffset(s) <= lo && hi <= TrimOffset(s) + |Trim(s)|
  {
    TrimRemovesWhitespace(s);
  }

  /** A slice of `x + t + y` that covers all of `t`. */
  lemma SliceAround<T>(x: seq<T>, t: seq<T>, y: seq<T>, a: nat, e: nat)
    requires a <= |x| && |x| + |t| <= e <= |x| + |t| + |y|
    ensures (x + t + y)[a..e] == x[a..] + t + y[..e - |x| - |t|]
  {
    var s := x + t + y;
    assert forall i :: a <= i < |x| ==> s[i] == x[i];
    assert forall i :: |x| <= i < |x| + |t| ==> s[i] == t[i - |x|];
    assert forall i :: |x| + |t| <= i < e ==> s[i] == y[i - |x| - |t|];
  }

  /** Trimming text around a stretch with non-whitespace ends removes only part of what surrounds it. */
  lemma TrimInFrame(x: string, t: string, y: string) returns (a: nat, c: nat)
    requires t != [] && !IsJsWhitespace(t[0]) && !IsJsWhitespace(t[|t| - 1])
    ensures a <= |x| && c <= |y| && Trim(x + t + y) == x[a..] + t + y[..c]
  {
    var s := x + t + y;
    var r := Trim(s);
    a := TrimOffset(s);
    assert a <= |x| && |x| + |t| <= a + |r| by {
      assert s[|x|] == t[0] && s[|x| + |t| - 1] == t[|t| - 1];
      TrimKeeps(s, |x|, |x| + |t|);
    }
    c := a + |r| - |x| - |t|;
    assert r == s[a..a + |r|];
    SliceAround(x, t, y, a, a + |r|);
  }

  /** Trimming text whose first and last characters are not whitespace, surrounded by whitespace only, yields that text. */
  lemma TrimSurrounded(a: string, t: string, b: string)
    requires AllWhitespace(a) && AllWhitespace(b)
    requires t != [] && !IsJsWhitespace(t[0]) && !IsJsWhitespace(t[|t| - 1])
    ensures Trim(a + t + b) == t
  {
    var p, c := TrimInFrame(a, t, b);
    var r := Trim(a + t + b);
    assert r == a[p..] + t + b[..c];
  }

  /** A non-empty string with nothing for `trim` to remove. */
  predicate Trimmed(s: string) {
    s != [] && !IsJsWhitespace(s[0]) && !IsJsWhitespace(s[|s| - 1])
  }

  /** A trimmed string is its own `trim()` and is not blank; the `trim()` of a non-blank string is trimmed. */
  lemma TrimmedFacts(s: string)
    ensures Trimmed(s) ==> Trim(s) == s && !IsBlank(s)
    ensures !IsBlank(s) ==> Trimmed(Trim(s))
  {
    if Trimmed(s) {
      TrimSurrounded([], s, []);
      assert [] + s + [] == s;
    }
    BlankIffTrimEmpty(s);
  }

  /** `sub` occurs in `s` starting at index `k`. */
  predicate OccursAt(s: string, sub: string, k: nat) {
    k + |sub| <= |s| && s[k..k + |sub|] == sub
  }

  /** `s.includes(sub)`, computed left to right. */
  predicate Includes(s: string, sub: string)
    decreases |s|
  {
    if |sub| > |s| then false
    else s[..|sub|] == sub || Includes(s[1..], sub)
  }

  lemma OccursShift(s: string, sub: string, k: nat)
    requires |s| >= 1
    ensures OccursAt(s[1..], sub, k) <==> OccursAt(s, sub, k + 1)
  {
    if k + 1 + |sub| <= |s| {
      assert s[1..][k..k + |sub|] == s[k + 1..k + 1 + |sub|];
    }
  }

  lemma {:induction false} IncludesIffOccurs(s: string, sub: string)
    ensures Includes(s, sub) <==> exists k: nat :: OccursAt(s, sub, k)
    decreases |s|
  {
    if |sub| <= |s| {
      assert s[..|sub|] == sub <==> OccursAt(s, sub, 0);
      if |s| >= 1 {
        IncludesIffOccurs(s[1..], sub);
        if Includes(s[1..], sub) {
          var k: nat :| OccursAt(s[1..], sub, k);
          OccursShift(s, sub, k);
        }
        if exists k: nat :: OccursAt(s, sub, k) {
          var k: nat :| OccursAt(s, sub, k);
          if k > 0 {
            OccursShift(s, sub, k - 1);
          }
        }
      }
    }
  }

  /** `s.startsWith(p)`. */
  predicate StartsWith(s: string, p: string) {
    |p| <= |s| && s[..|p|] == p
  }

  /**
   * The canonical form a case-insensitive, non-Unicode regular expression compares:
   * the upper case of a character, where a non-ASCII character never folds to ASCII.
   * Only ASCII letters are folded here, which is all the patterns of this model use.
   */
  function AsciiUpper(c: char): (r: char)
    ensures ('a' <= c <= 'z') ==> 'A' <= r <= 'Z'
    ensures !('a' <= c <= 'z') ==> r == c
  {
    if 'a' <= c <= 'z' then (c as int - 32) as char else c
  }

  /** The decimal digit `d` as a character. */
  function DigitChar(d: nat): (c: char)
    requires d < 10
    ensures '0' <= c <= '9' && c as int - '0' as int == d
  {
    ('0' as int + d) as char
  }

  predicate AllDigits(s: string) {
    forall i :: 0 <= i < |s| ==> '0' <= s[i] <= '9'
  }

  /** The value of a string of decimal digits (leading zeros allowed). */
  function DecimalValue(s: string): nat
    requires AllDigits(s)
  {
    if s == [] then 0 else DecimalValue(s[..|s| - 1]) * 10 + (s[|s| - 1] as int - '0' as int)
  }

  /** `String(n)` for a natural number: its decimal digits without leading zeros. */
  function DecimalString(n: nat): (r: string)
    ensures |r| >= 1 && AllDigits(r)
    ensures |r| > 1 ==> r[0] != '0'
    ensures n < 10 <==> |r| == 1
  {
    if n < 10 then [DigitChar(n)] else DecimalString(n / 10) + [DigitChar(n % 10)]
  }

  lemma {:induction false} DecimalRoundTrip(n: nat)
    ensures DecimalValue(DecimalString(n)) == n
  {
    if n >= 10 {
      DecimalRoundTrip(n / 10);
      var r := DecimalString(n);
      assert r[..|r| - 1] == DecimalString(n / 10);
    }
  }

  lemma {:induction false} LeadingZeros(z: string, s: string)
    requires forall i :: 0 <= i < |z| ==> z[i] == '0'
    requires AllDigits(s)
    ensures AllDigits(z + s) && DecimalValue(z + s) == DecimalValue(s)
    decreases |s|
  {
    if s == [] {
      assert z + s == z;
      ZerosValue(z);
    } else {
      var t := z + s;
      assert t[..|t| - 1] == z + s[..|s| - 1];
      LeadingZeros(z, s[..|s| - 1]);
    }
  }

  lemma {:induction false} ZerosValue(z: string)
    requires forall i :: 0 <= i < |z| ==> z[i] == '0'
    ensures AllDigits(z) && DecimalValue(z) == 0
  {
    if z != [] { ZerosValue(z[..|z| - 1]); }
  }

  /** `s.padStart(width, [fill])`: `s` preceded by enough `fill` to reach `width` characters. */
  function PadStart(s: string, width: nat, fill: char): (r: string)
    ensures |r| == if |s| >= width then |s| else width
    ensures r[|r| - |s|..] == s
    ensures forall i :: 0 <= i < |r| - |s| ==> r[i] == fill
  {
    if |s| >= width then s else seq(width - |s|, _ => fill) + s
  }
}
