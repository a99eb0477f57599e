/**
 * The JavaScript string operations the extension relies on, written out on
 * sequences of characters.
 */
module Strings {
  import opened Common

  function LowerChar(c: char): (r: char)
  {
    if 'A' <= c <= 'Z' then (c as int + 32) as char else c
  }

  /**
   * ASCII lower-casing. For the comparisons the extension makes against
   * lower-case ASCII literals this agrees with `toLowerCase`.
   */
  function Lower(s: string): (r: string)
    ensures |r| == |s|
    ensures forall i :: 0 <= i < |s| ==> r[i] == LowerChar(s[i])
  {
    seq(|s|, i requires 0 <= i < |s| => LowerChar(s[i]))
  }

  /** The characters `String.prototype.trim` removes (white space and line terminators). */
  predicate IsJsSpace(c: char) {
    var k := c as int;
    k == 0x09 || k == 0x0A || k == 0x0B || k == 0x0C || k == 0x0D || k == 0x20 ||
    k == 0xA0 || k == 0x1680 || (0x2000 <= k <= 0x200A) || k == 0x2028 || k == 0x2029 ||
    k == 0x202F || k == 0x205F || k == 0x3000 || k == 0xFEFF
  }

  predicate AllSpace(s: string) {
    forall i :: 0 <= i < |s| ==> IsJsSpace(s[i])
  }

  /** Number of leading white-space characters. */
  function LeadingSpace(s: string): (n: nat)
    ensures n <= |s|
    ensures AllSpace(s[..n])
    ensures n < |s| ==> !IsJsSpace(s[n])
  {
    if s == [] || !IsJsSpace(s[0]) then 0
    else
      var n := 1 + LeadingSpace(s[1..]);
      assert s[..n] == [s[0]] + s[1..][..n - 1];
      n
  }

  /** Number of trailing white-space characters. */
  function TrailingSpace(s: string): (n: nat)
    ensures n <= |s|
    ensures AllSpace(s[|s| - n..])
    ensures n < |s| ==> !IsJsSpace(s[|s| - n - 1])
  {
    if s == [] || !IsJsSpace(s[|s| - 1]) then 0
    else
      var init := s[..|s| - 1];
      var n := 1 + TrailingSpace(init);
      var tail := s[|s| - n..];
      assert AllSpace(tail) by {
        forall k | 0 <= k < |tail|
          ensures IsJsSpace(tail[k])
        {
          if k < n - 1 {
            assert tail[k] == init[|init| - (n - 1)..][k];
          }
        }
      }
      n
  }

  /** `s.trim()`: the part of s between its leading and trailing white space. */
  function Trim(s: string): (r: string)
    ensures exists i, j :: 0 <= i <= j <= |s| && r == s[i..j] && AllSpace(s[..i]) && AllSpace(s[j..])
    ensures r != [] ==> !IsJsSpace(r[0]) && !IsJsSpace(r[|r| - 1])
    ensures r == [] <==> AllSpace(s)
  {
    var i := LeadingSpace(s);
    if i == |s| then
      assert s[..i] == s;
      assert s[0..0] == [] && AllSpace(s[0..]);
      []
    else
      var t := TrailingSpace(s[i..]);
      var j := |s| - t;
      assert s[i..][|s[i..]| - t..] == s[j..];
      assert !AllSpace(s) by { assert !IsJsSpace(s[i]); }
      s[i..j]
  }

  /** A string without white space at either end is its own trim. */
  lemma TrimOfTrimmed(s: string)
    requires s != [] ==> !IsJsSpace(s[0]) && !IsJsSpace(s[|s| - 1])
    ensures Trim(s) == s
  {
    if s != [] {
      assert LeadingSpace(s) == 0;
      assert s[0..] == s;
    }
  }

  /** Trimming twice is trimming once. */
  lemma TrimIdempotent(s: string)
    ensures Trim(Trim(s)) == Trim(s)
  {
    TrimOfTrimmed(Trim(s));
  }

  /** `s.split("").reverse().join("")`. */
  function Reverse(s: string): (r: string)
    ensures |r| == |s|
    ensures forall i :: 0 <= i < |s| ==> r[i] == s[|s| - 1 - i]
  {
    if s == [] then [] else Reverse(s[1..]) + [s[0]]
  }

  predicate HasPrefix(s: string, p: string) {
    |p| <= |s| && s[..|p|] == p
  }

  /** The index of the first occurrence of p in s. */
  function IndexOf(s: string, p: string): (r: Option<nat>)
    ensures r.Some? ==> r.value + |p| <= |s| && s[r.value..r.value + |p|] == p
    ensures r.Some? ==> HasPrefix(s[r.value..], p)
    ensures r.Some? ==> forall k :: 0 <= k < r.value ==> !HasPrefix(s[k..], p)
    ensures r.None? ==> forall k :: 0 <= k <= |s| ==> !HasPrefix(s[k..], p)
  {
    if HasPrefix(s, p) then Some(0)
    else if s == [] then None
    else
      match IndexOf(s[1..], p)
      case None =>
        assert forall k :: 1 <= k <= |s| ==> !HasPrefix(s[k..], p) by {
          forall k | 1 <= k <= |s|
            ensures !HasPrefix(s[k..], p)
          {
            assert s[k..] == s[1..][k - 1..];
          }
        }
        None
      case Some(i) =>
        assert forall k :: 1 <= k <= i ==> !HasPrefix(s[k..], p) by {
          forall k | 1 <= k <= i
            ensures !HasPrefix(s[k..], p)
          {
            assert s[k..] == s[1..][k - 1..];
          }
        }
        assert s[i + 1..] == s[1..][i..];
        Some(i + 1)
  }

  /** `s.replace(p, q)` with a string pattern: only the first occurrence is replaced. */
  function ReplaceFirst(s: string, p: string, q: string): (r: string)
  {
    match IndexOf(s, p)
    case None => s
    case Some(i) => s[..i] + q + s[i + |p|..]
  }

  /** Replacing the pattern with "" removes a leading occurrence of it. */
  lemma ReplaceFirstStripsPrefix(s: string, p: string)
    requires HasPrefix(s, p)
    ensures ReplaceFirst(s, p, "") == s[|p|..]
  {
    assert IndexOf(s, p) == Some(0);
  }

  /** Replacing a pattern that does not occur leaves the string as it is. */
  lemma ReplaceFirstAbsent(s: string, p: string, q: string)
    requires forall k :: 0 <= k <= |s| ==> !HasPrefix(s[k..], p)
    ensures ReplaceFirst(s, p, q) == s
  {
  }

  function DigitChar(d: nat): (c: char)
    requires d < 10
  {
    ('0' as int + d) as char
  }

  /** Decimal text of a natural number, as `String(n)` writes it. */
  function NatToString(n: nat): (r: string)
    ensures |r| >= 1
    ensures forall i :: 0 <= i < |r| ==> '0' <= r[i] <= '9'
    ensures |r| > 1 ==> r[0] != '0'
    decreases n
  {
    if n < 10 then [DigitChar(n)] else NatToString(n / 10) + [DigitChar(n % 10)]
  }

  function IntToString(i: int): (r: string)
    ensures r != []
  {
    if i < 0 then "-" + NatToString(-i) else NatToString(i)
  }

  /** `String(v)` of a stored value. */
  function JsString(v: Value): (r: string)
    ensures v.Str? ==> r == v.s
    ensures v.Num? ==> r == IntToString(v.n)
  {
    match v
    case Absent => "undefined"
    case Null => "null"
    case Num(n) => IntToString(n)
    case Str(s) => s
    case Bool(b) => if b then "true" else "false"
  }

  function DigitValue(c: char): nat
    requires '0' <= c <= '9'
  {
    c as int - '0' as int
  }

  /** The value of a string of decimal digits. */
  function DecimalValue(s: string): nat
    requires forall i :: 0 <= i < |s| ==> '0' <= s[i] <= '9'
  {
    if s == [] then 0 else 10 * DecimalValue(s[..|s| - 1]) + DigitValue(s[|s| - 1])
  }

  /** Reading back the decimal text of n gives n. */
  lemma {:induction false} NatToStringRoundTrip(n: nat)
    ensures DecimalValue(NatToString(n)) == n
    decreases n
  {
    if n >= 10 {
      var r := NatToString(n);
      NatToStringRoundTrip(n / 10);
      assert r[..|r| - 1] == NatToString(n / 10);
    }
  }

  predicate IsDigit(c: char) { '0' <= c <= '9' }

  /** Length of the run of decimal digits at the start of s. */
  function DigitRun(s: string): (n: nat)
    ensures n <= |s|
    ensures forall i :: 0 <= i < n ==> IsDigit(s[i])
    ensures n < |s| ==> !IsDigit(s[n])
  {
    if s == [] || !IsDigit(s[0]) then 0 else 1 + DigitRun(s[1..])
  }

  /**
   * `parseInt(s, 10)`: leading white space and an optional sign are skipped
   * and the longest run of digits is read; None stands for NaN (no digit).
   */
  function ParseInt(s: string): (r: Option<int>)
    ensures r.None? <==> DigitRun(SignedBody(Trim(s))) == 0
  {
    ParseTrimmed(Trim(s))
  }

  /** `parseInt` of a text whose leading white space is already skipped. */
  function ParseTrimmed(t: string): (r: Option<int>)
    ensures r.None? <==> DigitRun(SignedBody(t)) == 0
  {
    var body := SignedBody(t);
    var n := DigitRun(body);
    if n == 0 then None
    else if t[0] == '-' then Some(-(DecimalValue(body[..n]) as int))
    else Some(DecimalValue(body[..n]))
  }

  /** The text after an optional leading sign. */
  function SignedBody(t: string): (r: string)
    ensures t != [] && (t[0] == '-' || t[0] == '+') ==> r == t[1..]
    ensures !(t != [] && (t[0] == '-' || t[0] == '+')) ==> r == t
  {
    if t != [] && (t[0] == '-' || t[0] == '+') then t[1..] else t
  }

  /** `parseInt` skips the white space itself, so trimming first changes nothing. */
  lemma ParseIntOfTrimmed(s: string)
    ensures ParseInt(Trim(s)) == ParseInt(s)
  {
    TrimIdempotent(s);
  }

  /** The field text the options page writes for a stored number reads back as that number. */
  lemma ParseIntOfNatString(n: nat)
    ensures ParseInt(NatToString(n)) == Some(n)
  {
    var s := NatToString(n);
    TrimOfTrimmed(s);
    assert SignedBody(s) == s;
    assert DigitRun(s) == |s|;
    assert s[..|s|] == s;
    NatToStringRoundTrip(n);
  }

  /** Code-unit lexicographic order, the stand-in for `localeCompare`. */
  predicate LexLe(a: string, b: string)
    decreases |a|
  {
    a == [] || (b != [] && (a[0] < b[0] || (a[0] == b[0] && LexLe(a[1..], b[1..]))))
  }

  lemma {:induction false} LexLeTotal(a: string, b: string)
    ensures LexLe(a, b) || LexLe(b, a)
    decreases |a|
  {
    if a != [] && b != [] && a[0] == b[0] {
      LexLeTotal(a[1..], b[1..]);
    }
  }

  lemma {:induction false} LexLeTransitive(a: string, b: string, c: string)
    requires LexLe(a, b) && LexLe(b, c)
    ensures LexLe(a, c)
    decreases |a|
  {
    if a != [] && b != [] && c != [] && a[0] == b[0] && b[0] == c[0] {
      LexLeTransitive(a[1..], b[1..], c[1..]);
    }
  }

  lemma {:induction false} LexLeAntisymmetric(a: string, b: string)
    requires LexLe(a, b) && LexLe(b, a)
    ensures a == b
    decreases |a|
  {
    if a != [] && b != [] {
      LexLeAntisymmetric(a[1..], b[1..]);
      assert a == [a[0]] + a[1..] && b == [b[0]] + b[1..];
    }
  }
}
