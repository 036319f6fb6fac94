/** The string operations the source uses on dates, timestamps and query parameters:
    lexicographic comparison (how ISO-8601 timestamps order), `slice`, decimal
    rendering of integers, `padStart`, and `parseInt` with no radix. */
module Text {
  import opened Wrappers

  /** Lexicographic `a <= b` by character code. */
  predicate LexLe(a: string, b: string)
    decreases |a|
  {
    if |a| == 0 then true
    else if |b| == 0 then false
    else if a[0] < b[0] then true
    else if a[0] > b[0] then false
    else LexLe(a[1..], b[1..])
  }

  lemma {:induction false} LexLeTotal(a: string, b: string)
    ensures LexLe(a, b) || LexLe(b, a)
    decreases |a|
  {
    if |a| > 0 && |b| > 0 && a[0] == b[0] {
      LexLeTotal(a[1..], b[1..]);
    }
  }

  lemma {:induction false} LexLeTransitive(a: string, b: string, c: string)
    requires LexLe(a, b) && LexLe(b, c)
    ensures LexLe(a, c)
    decreases |a|
  {
    if |a| > 0 && |b| > 0 && |c| > 0 && a[0] == b[0] && b[0] == c[0] {
      LexLeTransitive(a[1..], b[1..], c[1..]);
    }
  }

  /** `s.slice(0, n)`: the first `n` characters, or all of a shorter string. */
  function Prefix(s: string, n: nat): (r: string)
    ensures |r| == if |s| < n then |s| else n
    ensures r <= s
  {
    if |s| < n then s else s[..n]
  }

  function DigitChar(d: nat): (c: char)
    requires d < 10
    ensures '0' <= c <= '9'
    ensures c as int == '0' as int + d
  {
    "0123456789"[d]
  }

  /** The decimal rendering of a natural number, as template literals print it. */
  function NatToString(n: nat): (s: string)
    ensures |s| >= 1
    ensures forall i :: 0 <= i < |s| ==> '0' <= s[i] <= '9'
    ensures s[0] == '0' ==> n == 0
    decreases n
  {
    if n < 10 then [DigitChar(n)] else NatToString(n / 10) + [DigitChar(n % 10)]
  }

  /** The decimal rendering of an integer; negative numbers get a leading '-'. */
  function IntToString(n: int): (s: string)
    ensures n >= 0 ==> s == NatToString(n)
    ensures n < 0 ==> s == "-" + NatToString(-n)
  {
    if n >= 0 then NatToString(n) else "-" + NatToString(-n)
  }

  /** `s.padStart(2, '0')`. */
  function PadStart2(s: string): (r: string)
    ensures |r| == if |s| >= 2 then |s| else 2
    ensures s <= r[|r| - |s|..] && r[|r| - |s|..] == s
  {
    if |s| >= 2 then s else seq(2 - |s|, _ => '0') + s
  }

  /** Value of a character as a digit in `base` (10 or 16), if it is one. */
  function DigitValue(c: char, base: nat): Option<nat>
  {
    if '0' <= c <= '9' && (c as int) - ('0' as int) < base then Some((c as int) - ('0' as int))
    else if base == 16 && 'a' <= c <= 'f' then Some((c as int) - ('a' as int) + 10)
    else if base == 16 && 'A' <= c <= 'F' then Some((c as int) - ('A' as int) + 10)
    else None
  }

  /** The length of the longest prefix of `s` made of digits in `base`. */
  function DigitRun(s: string, base: nat): (n: nat)
    ensures n <= |s|
    ensures forall i :: 0 <= i < n ==> DigitValue(s[i], base).Some?
    ensures n < |s| ==> DigitValue(s[n], base).None?
    decreases |s|
  {
    if |s| == 0 || DigitValue(s[0], base).None? then 0 else 1 + DigitRun(s[1..], base)
  }

  /** The number a run of digits denotes in `base`, most significant first. */
  function DigitsValue(s: string, base: nat): nat
    requires forall i :: 0 <= i < |s| ==> DigitValue(s[i], base).Some?
    decreases |s|
  {
    if |s| == 0 then 0
    else DigitsValue(s[..|s| - 1], base) * base + DigitValue(s[|s| - 1], base).value
  }

  predicate IsSpace(c: char) {
    c == ' ' || c == '\t' || c == '\n' || c == '\r' || c == '\U{0B}' || c == '\U{0C}'
  }

  function TrimStart(s: string): (r: string)
    ensures |r| <= |s| && r == s[|s| - |r|..]
    ensures |r| > 0 ==> !IsSpace(r[0])
    decreases |s|
  {
    if |s| > 0 && IsSpace(s[0]) then TrimStart(s[1..]) else s
  }

  /** The value of the longest run of `base` digits at the start of `body`, if any. */
  function LeadingValue(body: string, base: nat): (r: Option<nat>)
    ensures r.None? <==> DigitRun(body, base) == 0
  {
    var n := DigitRun(body, base);
    if n == 0 then None
    else
      var digits := body[..n];
      assert forall i :: 0 <= i < |digits| ==> digits[i] == body[i];
      Some(DigitsValue(digits, base))
  }

  /** Whether an unsigned numeral starts with the `0x` or `0X` prefix. */
  predicate HexPrefixed(u: string) {
    |u| >= 2 && u[0] == '0' && (u[1] == 'x' || u[1] == 'X')
  }

  /** `parseInt` of the text after the sign: base 16 after a `0x` prefix, else base 10. */
  function ParseUnsigned(u: string): Option<nat>
  {
    if HexPrefixed(u) then LeadingValue(u[2..], 16) else LeadingValue(u, 10)
  }

  /** `parseInt(s)` with no radix: leading white space, an optional sign, an optional
      `0x` prefix selecting base 16, then the longest run of digits. `None` stands for
      `NaN`, which is what a string without digits there yields. */
  function ParseInt(s: string): Option<int>
  {
    var t := TrimStart(s);
    if |t| > 0 && t[0] == '-' then
      match ParseUnsigned(t[1..])
      case Some(v) => Some(0 - v as int)
      case None => None
    else if |t| > 0 && t[0] == '+' then
      match ParseUnsigned(t[1..])
      case Some(v) => Some(v)
      case None => None
    else
      match ParseUnsigned(t)
      case Some(v) => Some(v)
      case None => None
  }

  lemma {:induction false} NatToStringDigits(n: nat)
    ensures DigitRun(NatToString(n), 10) == |NatToString(n)|
    ensures DigitsValue(NatToString(n), 10) == n
    decreases n
  {
    var s := NatToString(n);
    DigitRunAllDigits(s);
    if n >= 10 {
      NatToStringDigits(n / 10);
      assert s[..|s| - 1] == NatToString(n / 10);
    }
  }

  lemma {:induction false} DigitRunAllDigits(s: string)
    requires forall i :: 0 <= i < |s| ==> '0' <= s[i] <= '9'
    ensures DigitRun(s, 10) == |s|
    decreases |s|
  {
    if |s| > 0 {
      DigitRunAllDigits(s[1..]);
    }
  }

  /** `parseInt` reads back what template literals print: parsing the decimal rendering of
      a natural number gives that number. */
  lemma ParseIntNatToString(n: nat)
    ensures ParseInt(NatToString(n)) == Some(n)
  {
    NatToStringDigits(n);
    ParseIntOfDigits(NatToString(n));
  }

  /** A non-empty run of decimal digits, not starting `0x`, is read as its value. */
  lemma ParseIntOfDigits(s: string)
    requires |s| >= 1 && forall i :: 0 <= i < |s| ==> '0' <= s[i] <= '9'
    requires DigitRun(s, 10) == |s|
    ensures ParseInt(s) == Some(DigitsValue(s, 10) as int)
  {
    DigitsAreUnsigned(s);
    UnsignedIsParsed(s);
    LeadingWholeRun(s, 10);
  }

  lemma DigitsAreUnsigned(s: string)
    requires |s| >= 1 && forall i :: 0 <= i < |s| ==> '0' <= s[i] <= '9'
    ensures TrimStart(s) == s && s[0] != '-' && s[0] != '+'
    ensures ParseUnsigned(s) == LeadingValue(s, 10)
  {
    assert !IsSpace(s[0]);
    if |s| >= 2 {
      assert '0' <= s[1] <= '9';
    }
  }

  lemma UnsignedIsParsed(s: string)
    requires TrimStart(s) == s && |s| > 0 && s[0] != '-' && s[0] != '+'
    ensures ParseInt(s) == match ParseUnsigned(s) case Some(v) => Some(v as int) case None => None
  {
  }

  lemma LeadingWholeRun(s: string, base: nat)
    requires DigitRun(s, base) == |s| > 0
    ensures forall i :: 0 <= i < |s| ==> DigitValue(s[i], base).Some?
    ensures LeadingValue(s, base) == Some(DigitsValue(s, base))
  {
    assert s[..|s|] == s;
  }
}
