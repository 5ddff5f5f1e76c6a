/**
 * The few string operations of the Java and JavaScript runtimes that the
 * client relies on, written out: decimal rendering of a number, `String.trim`,
 * `String.equalsIgnoreCase`, truncating integer division, and the pieces of
 * regular-expression matching used to strip the callback wrapper.
 */
module Text {
  import opened Wrappers

  function DigitChar(d: nat): (c: char)
    requires d < 10
    ensures '0' <= c <= '9'
  {
    ('0' as int + d) as char
  }

  /** The decimal rendering of `n`, as Java's `"" + n`. */
  function Decimal(n: nat): (s: string)
    ensures 1 <= |s|
    ensures n < 10 <==> |s| == 1
    ensures forall i :: 0 <= i < |s| ==> '0' <= s[i] <= '9'
    ensures s[|s| - 1] == DigitChar(n % 10)
  {
    if n < 10 then [DigitChar(n)] else Decimal(n / 10) + [DigitChar(n % 10)]
  }

  /** Distinct numbers have distinct renderings, so a token names one start time. */
  lemma {:induction false} DecimalInjective(a: nat, b: nat)
    requires Decimal(a) == Decimal(b)
    ensures a == b
  {
    if a >= 10 && b >= 10 {
      var sa, sb := Decimal(a), Decimal(b);
      assert sa[..|sa| - 1] == Decimal(a / 10);
      assert sb[..|sb| - 1] == Decimal(b / 10);
      DecimalInjective(a / 10, b / 10);
      assert DigitChar(a % 10) == DigitChar(b % 10);
    } else if a < 10 && b < 10 {
      assert Decimal(a)[0] == DigitChar(a);
      assert Decimal(b)[0] == DigitChar(b);
    }
  }

  /** Java's `int` division, which truncates toward zero. */
  function JavaDiv(a: int, b: int): (q: int)
    requires b > 0
    ensures var r := a - q * b; (a >= 0 ==> 0 <= r < b) && (a < 0 ==> -b < r <= 0)
  {
    if a >= 0 then a / b else -((-a) / b)
  }

  /** Drops the leading characters up to U+0020, as the first half of `String.trim`. */
  function TrimStart(s: string): (r: string)
    ensures |r| <= |s| && r == s[|s| - |r|..]
    ensures r != [] ==> r[0] > ' '
    ensures forall i :: 0 <= i < |s| - |r| ==> s[i] <= ' '
  {
    if s != [] && s[0] <= ' ' then TrimStart(s[1..]) else s
  }

  /** Drops the trailing characters up to U+0020, as the second half of `String.trim`. */
  function TrimEnd(s: string): (r: string)
    ensures |r| <= |s| && r == s[..|r|]
    ensures r != [] ==> r[|r| - 1] > ' '
    ensures forall i :: |r| <= i < |s| ==> s[i] <= ' '
  {
    if s != [] && s[|s| - 1] <= ' ' then TrimEnd(s[..|s| - 1]) else s
  }

  /** Java's `String.trim`. */
  function Trim(s: string): (r: string)
    ensures r != [] ==> r[0] > ' ' && r[|r| - 1] > ' '
    ensures r == [] <==> forall i :: 0 <= i < |s| ==> s[i] <= ' '
    ensures s != [] && s[0] > ' ' && s[|s| - 1] > ' ' ==> r == s
  {
    TrimEnd(TrimStart(s))
  }

  /** How many characters `Trim` drops from the front of `s`. */
  function LeadingBlanks(s: string): (n: nat)
    ensures n <= |s|
    ensures forall k :: 0 <= k < n ==> s[k] <= ' '
    ensures n < |s| ==> s[n] > ' '
  {
    |s| - |TrimStart(s)|
  }

  /**
   * `Trim` keeps exactly the part of `s` between its leading and its trailing
   * run of characters up to U+0020.
   */
  lemma TrimIsInfix(s: string)
    ensures var i, r := LeadingBlanks(s), Trim(s);
            i + |r| <= |s| && r == s[i..i + |r|] && forall k :: i + |r| <= k < |s| ==> s[k] <= ' '
  {
    var u := TrimStart(s);
    var i := |s| - |u|;
    assert u == s[i..];
    forall k | i + |Trim(s)| <= k < |s| ensures s[k] <= ' ' {
      assert s[k] == u[k - i];
    }
  }

  /** ASCII lower-casing, all that `equalsIgnoreCase` needs for the texts compared here. */
  function LowerAscii(c: char): (l: char)
    ensures !('A' <= c <= 'Z') ==> l == c
  {
    if 'A' <= c <= 'Z' then (c as int + 32) as char else c
  }

  /** Java's `String.equalsIgnoreCase`, with case folding restricted to ASCII letters. */
  predicate EqualsIgnoreCase(a: string, b: string) {
    |a| == |b| && forall i :: 0 <= i < |a| ==> LowerAscii(a[i]) == LowerAscii(b[i])
  }

  /** The characters that JavaScript's `.` does not match. */
  predicate IsLineTerminator(c: char) {
    c == '\n' || c == '\r' || c == '\U{2028}' || c == '\U{2029}'
  }

  predicate NoLineTerminator(s: string) {
    forall i :: 0 <= i < |s| ==> !IsLineTerminator(s[i])
  }

  /** The longest prefix of `s` that `.*` can match: everything before the first line terminator. */
  function TakeLine(s: string): (r: string)
    ensures |r| <= |s| && r == s[..|r|]
    ensures NoLineTerminator(r)
    ensures |r| < |s| ==> IsLineTerminator(s[|r|])
  {
    if s == [] || IsLineTerminator(s[0]) then [] else [s[0]] + TakeLine(s[1..])
  }

  /** The index of the last occurrence of `c` in `s`, if any. */
  function LastIndexOf(s: string, c: char): (r: Option<nat>)
    ensures r.Some? ==> r.value < |s| && s[r.value] == c
    ensures r.Some? ==> forall k :: r.value < k < |s| ==> s[k] != c
    ensures r.None? ==> forall k :: 0 <= k < |s| ==> s[k] != c
  {
    if s == [] then None
    else if s[|s| - 1] == c then Some(|s| - 1)
    else LastIndexOf(s[..|s| - 1], c)
  }
}
