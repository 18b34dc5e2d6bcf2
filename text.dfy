/** String helpers shared by every tool: Python's str.startswith / endswith,
    str.join, str(int) and str.strip(), written out on seq<char>. */
module Text {

  datatype Option<+T> = None | Some(value: T)

  /** Python `s.startswith(prefix)`. */
  predicate StartsWith(s: string, prefix: string) {
    |prefix| <= |s| && s[..|prefix|] == prefix
  }

  /** Python `s.endswith(suffix)`. */
  predicate EndsWith(s: string, suffix: string) {
    |suffix| <= |s| && s[|s| - |suffix|..] == suffix
  }

  /** Python `sep.join(parts)`. */
  function JoinWith(sep: string, parts: seq<string>): string
    decreases |parts|
  {
    if |parts| == 0 then ""
    else if |parts| == 1 then parts[0]
    else parts[0] + sep + JoinWith(sep, parts[1..])
  }

  /** Joining a longer list extends the joined shorter list. */
  lemma {:induction false} JoinWithPrefix(sep: string, a: seq<string>, b: seq<string>)
    ensures StartsWith(JoinWith(sep, a + b), JoinWith(sep, a))
    decreases |a|
  {
    if |a| == 0 {
    } else if |a| == 1 {
      if |b| > 0 {
        assert (a + b)[1..] == b;
      }
    } else {
      assert (a + b)[1..] == a[1..] + b;
      JoinWithPrefix(sep, a[1..], b);
    }
  }

  /** Index of the first `c` in `s`, or |s| when there is none. */
  function IndexOf(s: string, c: char): (i: nat)
    ensures i <= |s|
    ensures i < |s| ==> s[i] == c
    ensures forall j :: 0 <= j < i ==> s[j] != c
    decreases |s|
  {
    if |s| == 0 || s[0] == c then 0 else 1 + IndexOf(s[1..], c)
  }

  /** Python `s.split(c)` for a one-character separator: the text between
      consecutive separators, empty pieces kept. */
  function SplitOn(s: string, c: char): (parts: seq<string>)
    ensures |parts| >= 1
    ensures forall k :: 0 <= k < |parts| ==> c !in parts[k]
    decreases |s|
  {
    var i := IndexOf(s, c);
    if i == |s| then [s] else [s[..i]] + SplitOn(s[i + 1..], c)
  }

  lemma SplitOnNone(s: string, c: char)
    requires c !in s
    ensures SplitOn(s, c) == [s]
  {
  }

  /** The first occurrence is the one `IndexOf` finds. */
  lemma IndexOfFirst(s: string, c: char, i: nat)
    requires i < |s| && s[i] == c
    requires forall j :: 0 <= j < i ==> s[j] != c
    ensures IndexOf(s, c) == i
  {
  }

  lemma {:induction false} SplitOnConcat(x: string, y: string, c: char)
    ensures SplitOn(x + [c] + y, c) == SplitOn(x, c) + SplitOn(y, c)
    decreases |x|
  {
    var s := x + [c] + y;
    var i := IndexOf(x, c);
    assert forall j :: 0 <= j < |x| ==> s[j] == x[j];
    if i == |x| {
      IndexOfFirst(s, c, |x|);
      assert s[..|x|] == x;
      assert s[|x| + 1..] == y;
    } else {
      IndexOfFirst(s, c, i);
      assert s[..i] == x[..i];
      assert s[i + 1..] == x[i + 1..] + [c] + y;
      SplitOnConcat(x[i + 1..], y, c);
    }
  }

  /** Splitting undoes joining when no piece contains the separator. */
  lemma {:induction false} SplitJoinRoundTrip(parts: seq<string>, c: char)
    requires |parts| >= 1
    requires forall k :: 0 <= k < |parts| ==> c !in parts[k]
    ensures SplitOn(JoinWith([c], parts), c) == parts
    decreases |parts|
  {
    SplitOnNone(parts[0], c);
    if |parts| > 1 {
      SplitJoinRoundTrip(parts[1..], c);
      SplitOnConcat(parts[0], JoinWith([c], parts[1..]), c);
    }
  }

  predicate IsDigit(c: char) { '0' <= c <= '9' }

  function DigitChar(d: nat): (c: char)
    requires d < 10
    ensures IsDigit(c) && c as int - '0' as int == d
  {
    "0123456789"[d]
  }

  /** Python `str(n)` for a non-negative int: decimal digits, no leading zero. */
  function NatToString(n: nat): (s: string)
    ensures |s| >= 1
    ensures forall i :: 0 <= i < |s| ==> IsDigit(s[i])
    ensures |s| > 1 ==> s[0] != '0'
    decreases n
  {
    if n < 10 then [DigitChar(n)] else NatToString(n / 10) + [DigitChar(n % 10)]
  }

  /** The value of a string of decimal digits; the inverse of NatToString. */
  function DecimalValue(s: string): nat
    requires forall i :: 0 <= i < |s| ==> IsDigit(s[i])
    decreases |s|
  {
    if |s| == 0 then 0
    else
      var d := s[|s| - 1] as int - '0' as int;
      assert IsDigit(s[|s| - 1]);
      10 * DecimalValue(s[..|s| - 1]) + d
  }

  lemma {:induction false} NatToStringRoundTrip(n: nat)
    ensures DecimalValue(NatToString(n)) == n
    decreases n
  {
    if n >= 10 {
      var s := NatToString(n);
      assert s[..|s| - 1] == NatToString(n / 10);
      NatToStringRoundTrip(n / 10);
    }
  }

  /** Python `str(i)` (also what an f-string prints) for any int. */
  function IntToString(i: int): (s: string)
    ensures i < 0 <==> StartsWith(s, "-")
  {
    if i < 0 then "-" + NatToString(-i) else NatToString(i)
  }

  /** Python `str(b)` for a bool. */
  function BoolToString(b: bool): string {
    if b then "True" else "False"
  }

  /** The characters for which Python's `str.isspace()` holds. */
  predicate IsSpace(c: char) {
    c == ' ' || ('\t' <= c <= '\r') || ('\U{1C}' <= c <= '\U{1F}')
    || c == '\U{85}' || c == '\U{A0}' || c == '\U{1680}'
    || ('\U{2000}' <= c <= '\U{200A}') || c == '\U{2028}' || c == '\U{2029}'
    || c == '\U{202F}' || c == '\U{205F}' || c == '\U{3000}'
  }

  predicate AllSpace(s: string) {
    forall i :: 0 <= i < |s| ==> IsSpace(s[i])
  }

  /** Number of whitespace characters at the front of `s`. */
  function LeadingSpaces(s: string): (k: nat)
    ensures k <= |s|
    ensures AllSpace(s[..k])
    ensures k < |s| ==> !IsSpace(s[k])
    decreases |s|
  {
    if |s| == 0 || !IsSpace(s[0]) then 0
    else
      var k := 1 + LeadingSpaces(s[1..]);
      assert forall i :: 1 <= i < k ==> s[i] == s[1..][i - 1];
      k
  }

  /** Number of whitespace characters at the end of `s`. */
  function TrailingSpaces(s: string): (k: nat)
    ensures k <= |s|
    ensures AllSpace(s[|s| - k..])
    ensures k < |s| ==> !IsSpace(s[|s| - 1 - k])
    decreases |s|
  {
    if |s| == 0 || !IsSpace(s[|s| - 1]) then 0
    else
      var t := s[..|s| - 1];
      var k := 1 + TrailingSpaces(t);
      assert forall i :: |s| - k <= i < |s| - 1 ==> s[i] == t[i];
      k
  }

  /** Where Python's `s.strip()` cuts: everything before the first bound and
      after the second is whitespace, and what lies between neither starts
      nor ends with whitespace. */
  function StripBounds(s: string): (b: (nat, nat))
    ensures b.0 <= b.1 <= |s|
    ensures AllSpace(s[..b.0]) && AllSpace(s[b.1..])
    ensures b.0 < b.1 ==> !IsSpace(s[b.0]) && !IsSpace(s[b.1 - 1])
    ensures b.0 == b.1 ==> AllSpace(s)
  {
    var lead := LeadingSpaces(s);
    var rest := s[lead..];
    var trail := TrailingSpaces(rest);
    SuffixOfSuffix(s, lead, trail);
    if lead < |s| then
      assert rest[0] == s[lead];
      assert trail < |rest|;
      assert rest[|rest| - 1 - trail] == s[|s| - 1 - trail];
      (lead, |s| - trail)
    else
      WholePrefix(s, lead);
      (lead, lead)
  }

  lemma SuffixOfSuffix(s: string, lead: nat, trail: nat)
    requires lead <= |s| && trail <= |s| - lead
    ensures s[lead..][|s| - lead - trail..] == s[|s| - trail..]
  {
  }

  lemma WholePrefix(s: string, n: nat)
    requires n == |s| && AllSpace(s[..n])
    ensures AllSpace(s)
  {
    assert s[..n] == s;
  }

  /** Python `s.strip()`. */
  function Strip(s: string): string {
    var b := StripBounds(s);
    s[b.0..b.1]
  }

  /** Stripping leaves nothing exactly when the string is all whitespace. */
  lemma StripEmptyIff(s: string)
    ensures Strip(s) == [] <==> AllSpace(s)
  {
    var b := StripBounds(s);
    if b.0 < b.1 {
      assert !IsSpace(s[b.0]);
    }
  }
}
