/**
  C-level building blocks used throughout ssdp.c: fixed-width unsigned integers,
  NUL-terminated strings held in char buffers, strlcpy truncation, strcasecmp,
  the "%u" decimal conversion of printf and the atoi parser.
  A Dafny `string` stands for the characters of a C string before its terminator.
*/
module CText {

  datatype Option<+T> = None | Some(value: T)

  type uint8 = x: int | 0 <= x < 0x100
  type uint16 = x: int | 0 <= x < 0x1_0000
  type uint32 = x: int | 0 <= x < 0x1_0000_0000
  type uint64 = x: int | 0 <= x < 0x1_0000_0000_0000_0000

  const INT_MAX: int := 0x7FFF_FFFF
  const INT_MIN: int := -0x8000_0000

  function Min(a: int, b: int): int { if a <= b then a else b }

  /** The C string stored in a char buffer: every character before the first NUL. */
  function CStr(s: seq<char>): (r: string)
    ensures |r| <= |s| && r == s[..|r|]
    ensures '\0' !in r
    ensures |r| < |s| ==> s[|r|] == '\0'
  {
    if s == [] || s[0] == '\0' then [] else [s[0]] + CStr(s[1..])
  }

  /** A NUL-free prefix that ends at a NUL (or at the end) is the C string. */
  lemma CStrUnique(s: seq<char>, r: string)
    requires |r| <= |s| && r == s[..|r|] && '\0' !in r
    requires |r| < |s| ==> s[|r|] == '\0'
    ensures CStr(s) == r
  {
  }

  /** Writing a NUL at index k cuts the C string at k at the latest. */
  lemma CStrCut(s: seq<char>, k: nat)
    requires k < |s| && s[k] == '\0'
    ensures CStr(s) == CStr(s[..k])
  {
    var c := CStr(s[..k]);
    if |c| < k {
      CStrUnique(s, c);
    } else {
      CStrUnique(s, s[..k]);
    }
  }

  /** The characters kept by strlcpy/strlcat into a buffer of n + 1 chars. */
  function Truncate(s: string, n: nat): (r: string)
    ensures |r| == Min(|s|, n) && r == s[..|r|]
  {
    if |s| <= n then s else s[..n]
  }

  /** tolower in the C locale. */
  function Lower(c: char): char
  {
    if 'A' <= c <= 'Z' then (c as int + 32) as char else c
  }

  /** strcasecmp(a, b) == 0 */
  predicate CaseEqual(a: string, b: string)
  {
    |a| == |b| && forall i :: 0 <= i < |a| ==> Lower(a[i]) == Lower(b[i])
  }

  /** The length that ssdp.c adds to a buffer size for an optional string: strlen, or 1 for NULL. */
  function LenOrOne(o: Option<string>): (n: nat)
    ensures |OrEmpty(o)| <= n <= |OrEmpty(o)| + 1
  {
    if o.Some? then |o.value| else 1
  }

  /** The text printed for an optional string: the string, or "" for NULL. */
  function OrEmpty(o: Option<string>): string
  {
    if o.Some? then o.value else ""
  }

  predicate IsDigit(c: char) { '0' <= c <= '9' }

  predicate AllDigits(s: string) { forall i :: 0 <= i < |s| ==> IsDigit(s[i]) }

  function DigitChar(d: nat): (c: char)
    requires d < 10
    ensures IsDigit(c) && c as int - '0' as int == d
  {
    ('0' as int + d) as char
  }

  /** The "%u" conversion of printf. */
  function Dec(n: nat): (r: string)
    ensures |r| >= 1 && AllDigits(r)
  {
    if n < 10 then [DigitChar(n)] else Dec(n / 10) + [DigitChar(n % 10)]
  }

  function Pow10(k: nat): nat
  {
    if k == 0 then 1 else 10 * Pow10(k - 1)
  }

  /** A number below 10^k prints in at most k digits. */
  lemma {:induction false} DecLength(n: nat, k: nat)
    requires 1 <= k && n < Pow10(k)
    ensures |Dec(n)| <= k
  {
    if n >= 10 {
      assert k != 1;
      assert n / 10 < Pow10(k - 1);
      DecLength(n / 10, k - 1);
    }
  }

  lemma Uint16Digits(n: uint16)
    ensures |Dec(n)| <= 5
  {
    assert Pow10(5) == 100000 by {
      assert Pow10(1) == 10 && Pow10(2) == 100 && Pow10(3) == 1000 && Pow10(4) == 10000;
    }
    DecLength(n, 5);
  }

  lemma Uint32Digits(n: uint32)
    ensures |Dec(n)| <= 10
  {
    assert Pow10(10) == 10000000000 by {
      assert Pow10(1) == 10 && Pow10(2) == 100 && Pow10(3) == 1000 && Pow10(4) == 10000;
      assert Pow10(5) == 100000 && Pow10(6) == 1000000 && Pow10(7) == 10000000;
      assert Pow10(8) == 100000000 && Pow10(9) == 1000000000;
    }
    DecLength(n, 10);
  }

  /** isspace in the C locale: space, \t, \n, \v, \f, \r. */
  predicate IsSpace(c: char) { c == ' ' || '\t' <= c <= '\r' }

  /** The run of digits at the start of s. */
  function LeadingDigits(s: string): (r: string)
    ensures |r| <= |s| && r == s[..|r|] && AllDigits(r)
    ensures |r| < |s| ==> !IsDigit(s[|r|])
  {
    if s != [] && IsDigit(s[0]) then [s[0]] + LeadingDigits(s[1..]) else []
  }

  /** The value of a string of decimal digits, most significant first. */
  function DigitsValue(d: string): nat
    requires AllDigits(d)
  {
    if d == [] then 0 else 10 * DigitsValue(d[..|d| - 1]) + (d[|d| - 1] as int - '0' as int)
  }

  function SkipSpaces(s: string): (r: string)
    ensures |r| <= |s| && r == s[|s| - |r|..]
    ensures r != [] ==> !IsSpace(r[0])
  {
    if s != [] && IsSpace(s[0]) then SkipSpaces(s[1..]) else s
  }

  /**
    atoi: optional leading white space, an optional sign, then decimal digits.
    The value is the mathematical one; a result outside the range of int is
    undefined behaviour in C, which callers exclude.
  */
  function Atoi(s: string): int
  {
    var t := SkipSpaces(s);
    if t != [] && t[0] == '-' then 0 - DigitsValue(LeadingDigits(t[1..]))
    else if t != [] && t[0] == '+' then DigitsValue(LeadingDigits(t[1..]))
    else DigitsValue(LeadingDigits(t))
  }

  /** Text that does not start with a digit (after spaces and a sign) reads as 0. */
  lemma AtoiNonNumeric(s: string)
    requires var t := SkipSpaces(s);
             var u := if t != [] && (t[0] == '-' || t[0] == '+') then t[1..] else t;
             u == [] || !IsDigit(u[0])
    ensures Atoi(s) == 0
  {
  }

  /** atoi reads back what "%u" prints. */
  lemma {:induction false} DecValue(n: nat)
    ensures DigitsValue(Dec(n)) == n
  {
    if n >= 10 {
      var d := Dec(n);
      assert d[..|d| - 1] == Dec(n / 10);
      DecValue(n / 10);
    }
  }

  lemma {:induction false} LeadingDigitsAll(s: string)
    requires AllDigits(s)
    ensures LeadingDigits(s) == s
  {
    if s != [] {
      LeadingDigitsAll(s[1..]);
    }
  }

  lemma AtoiDigits(d: string)
    requires d != [] && AllDigits(d)
    ensures Atoi(d) == DigitsValue(d)
  {
    assert IsDigit(d[0]);
    assert SkipSpaces(d) == d;
    LeadingDigitsAll(d);
  }

  lemma AtoiDec(n: nat)
    ensures Atoi(Dec(n)) == n
  {
    AtoiDigits(Dec(n));
    DecValue(n);
  }
}
