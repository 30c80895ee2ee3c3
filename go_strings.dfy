/**
  The few pieces of Go's `strings` and `fmt` packages that scl relies on,
  modelled over `seq<char>`: substring containment (`strings.Contains`),
  suffix test (`strings.HasSuffix`), splitting on a one-character separator
  (`strings.Split`) with its inverse `Join`, whitespace trimming
  (`strings.TrimSpace`) and the decimal rendering of `fmt.Sprintf("%d", n)`
  for a non-negative n.
 */
module GoStrings {

  /** `p` occurs in `s` starting at index `i`. */
  predicate OccursAt(s: string, p: string, i: nat)
  {
    i + |p| <= |s| && s[i..i + |p|] == p
  }

  /**
    `strings.Contains(s, p)`: case-sensitive substring containment. The
    pattern is never longer than a string that contains it, and the empty
    pattern is contained everywhere; ContainsOccurs states what it means.
   */
  function Contains(s: string, p: string): (r: bool)
    ensures r ==> |p| <= |s|
    ensures p == [] ==> r
    decreases |s|
  {
    if |p| <= |s| && s[..|p|] == p then true
    else if s == [] then false
    else Contains(s[1..], p)
  }

  /** Contains holds exactly when the pattern occurs somewhere in the string. */
  lemma {:induction false} ContainsOccurs(s: string, p: string)
    ensures Contains(s, p) <==> exists i: nat :: OccursAt(s, p, i)
    decreases |s|
  {
    if |p| <= |s| && s[..|p|] == p {
      assert OccursAt(s, p, 0);
    } else if s == [] {
      assert forall i: nat :: !OccursAt(s, p, i);
    } else {
      ContainsOccurs(s[1..], p);
      assert forall i: nat :: OccursAt(s[1..], p, i) <==> OccursAt(s, p, i + 1);
      assert !OccursAt(s, p, 0);
      assert forall i: nat :: OccursAt(s, p, i) ==> i == 0 || OccursAt(s[1..], p, i - 1);
    }
  }

  /** The empty pattern is contained in every string. */
  lemma EmptyPatternContained(s: string)
    ensures Contains(s, "")
  {
  }

  /** `strings.HasSuffix(s, suffix)`. */
  function HasSuffix(s: string, suffix: string): (r: bool)
    ensures r <==> |suffix| <= |s| && forall k :: 0 <= k < |suffix| ==> s[|s| - |suffix| + k] == suffix[k]
  {
    |suffix| <= |s| && s[|s| - |suffix|..] == suffix
  }

  // ---------------------------------------------------------------------------
  // strings.Split / strings.Join on a one-character separator

  /** `strings.Split(s, [sep])`: the pieces between the separators, never empty. */
  function Split(s: string, sep: char): (parts: seq<string>)
    ensures |parts| >= 1
    ensures forall k :: 0 <= k < |parts| ==> sep !in parts[k]
    decreases |s|
  {
    if s == [] then [""]
    else
      var rest := Split(s[1..], sep);
      if s[0] == sep then
        [""] + rest
      else
        [[s[0]] + rest[0]] + rest[1..]
  }

  /** `strings.Join(parts, [sep])`. */
  function Join(parts: seq<string>, sep: char): string
  {
    if parts == [] then ""
    else if |parts| == 1 then parts[0]
    else parts[0] + [sep] + Join(parts[1..], sep)
  }

  /** Join undoes Split: joining the parts with the separator gives back the string. */
  lemma {:induction false} JoinSplit(s: string, sep: char)
    ensures Join(Split(s, sep), sep) == s
    decreases |s|
  {
    if s != [] {
      JoinSplit(s[1..], sep);
      var rest := Split(s[1..], sep);
      if s[0] != sep {
        assert [s[0]] + s[1..] == s;
      }
    }
  }

  /** A string without the separator is split into itself alone. */
  lemma {:induction false} SplitNoSeparator(s: string, sep: char)
    requires sep !in s
    ensures Split(s, sep) == [s]
    decreases |s|
  {
    if s != [] {
      SplitNoSeparator(s[1..], sep);
      assert [s[0]] + s[1..] == s;
    }
  }

  /** Splitting at the first separator: the text before it is the first part. */
  lemma {:induction false} SplitFirst(a: string, sep: char, b: string)
    requires sep !in a
    ensures Split(a + [sep] + b, sep) == [a] + Split(b, sep)
    decreases |a|
  {
    var s := a + [sep] + b;
    if a == [] {
      assert s == [sep] + b;
      assert s[1..] == b;
    } else {
      SplitFirst(a[1..], sep, b);
      assert s[1..] == a[1..] + [sep] + b;
      assert s[0] == a[0] && a[0] != sep;
      assert [a[0]] + a[1..] == a;
    }
  }

  /** Split undoes Join when no part holds the separator. */
  lemma {:induction false} SplitJoin(parts: seq<string>, sep: char)
    requires |parts| >= 1
    requires forall k :: 0 <= k < |parts| ==> sep !in parts[k]
    ensures Split(Join(parts, sep), sep) == parts
  {
    if |parts| == 1 {
      SplitNoSeparator(parts[0], sep);
    } else {
      SplitJoin(parts[1..], sep);
      SplitFirst(parts[0], sep, Join(parts[1..], sep));
      assert [parts[0]] + parts[1..] == parts;
    }
  }

  /** Splitting yields at least two parts exactly when the separator occurs. */
  lemma SplitHasTwoParts(s: string, sep: char)
    ensures |Split(s, sep)| >= 2 <==> sep in s
  {
    var parts := Split(s, sep);
    JoinSplit(s, sep);
    if |parts| == 1 {
      assert s == parts[0];
    } else {
      assert s == parts[0] + [sep] + Join(parts[1..], sep);
      assert s[|parts[0]|] == sep;
    }
  }

  // ---------------------------------------------------------------------------
  // strings.TrimSpace

  /** Go's `unicode.IsSpace`, the predicate `strings.TrimSpace` trims by. */
  predicate IsSpace(c: char)
  {
    c == '\t' || c == '\n' || c == '\U{000B}' || c == '\U{000C}' || c == '\r' || c == ' '
    || c == '\U{0085}' || c == '\U{00A0}' || c == '\U{1680}'
    || ('\U{2000}' <= c <= '\U{200A}')
    || c == '\U{2028}' || c == '\U{2029}' || c == '\U{202F}' || c == '\U{205F}' || c == '\U{3000}'
  }

  /** Every character of `s` is white space. */
  predicate AllSpace(s: string)
  {
    forall k :: 0 <= k < |s| ==> IsSpace(s[k])
  }

  /** The length of the white-space prefix of `s`. */
  function LeadingSpaces(s: string): (n: nat)
    ensures n <= |s| && AllSpace(s[..n])
    ensures n == |s| || !IsSpace(s[n])
  {
    if s == [] || !IsSpace(s[0]) then 0 else 1 + LeadingSpaces(s[1..])
  }

  /** The length of the white-space suffix of `s`. */
  function TrailingSpaces(s: string): (n: nat)
    ensures n <= |s| && AllSpace(s[|s| - n..])
    ensures n == |s| || !IsSpace(s[|s| - n - 1])
  {
    if s == [] || !IsSpace(s[|s| - 1]) then 0 else 1 + TrailingSpaces(s[..|s| - 1])
  }

  /**
    `strings.TrimSpace(s)`: `s` without its leading and trailing white space.
    The result sits in `s` after the leading white space, has only white
    space after it, and neither starts nor ends with white space.
   */
  function TrimSpace(s: string): (r: string)
    ensures var k := LeadingSpaces(s);
      k + |r| <= |s| && s[k..k + |r|] == r && AllSpace(s[..k]) && AllSpace(s[k + |r|..])
    ensures r == [] || (!IsSpace(r[0]) && !IsSpace(r[|r| - 1]))
  {
    var t := s[LeadingSpaces(s)..];
    t[..|t| - TrailingSpaces(t)]
  }

  /** Trimming a string surrounded only by white space gives back the string. */
  lemma TrimSpaceFramed(a: string, t: string, b: string)
    requires AllSpace(a) && AllSpace(b)
    requires t != [] && !IsSpace(t[0]) && !IsSpace(t[|t| - 1])
    ensures TrimSpace(a + t + b) == t
  {
    var s := a + t + b;
    var n := LeadingSpaces(s);
    assert s[|a|] == t[0];
    assert forall k :: 0 <= k < |a| ==> s[k] == a[k];
    assert n == |a|;
    var u := s[n..];
    assert u == t + b;
    var m := TrailingSpaces(u);
    assert u[|t| - 1] == t[|t| - 1];
    assert forall k :: 0 <= k < |b| ==> u[|t| + k] == b[k];
    assert m == |b|;
    assert u[..|u| - m] == t;
  }

  /** Trimming a line followed by its newline gives back the line. */
  lemma TrimSpaceNewline(t: string)
    requires t != [] && !IsSpace(t[0]) && !IsSpace(t[|t| - 1])
    ensures TrimSpace(t + "\n") == t
  {
    assert "" + t + "\n" == t + "\n";
    TrimSpaceFramed("", t, "\n");
  }

  /** Trimming a string made only of white space gives the empty string. */
  lemma TrimSpaceAllSpace(s: string)
    requires AllSpace(s)
    ensures TrimSpace(s) == ""
  {
    var r := TrimSpace(s);
    assert LeadingSpaces(s) == |s|;
  }

  // ---------------------------------------------------------------------------
  // fmt.Sprintf("%d", n) for n >= 0

  predicate IsDigit(c: char)
  {
    '0' <= c <= '9'
  }

  predicate AllDigits(s: string)
  {
    forall k :: 0 <= k < |s| ==> IsDigit(s[k])
  }

  function DigitChar(d: nat): (c: char)
    requires d < 10
    ensures IsDigit(c)
  {
    (48 + d) as char
  }

  /** The decimal rendering of `n`: digits only, no leading zero unless `n == 0`. */
  function Decimal(n: nat): (s: string)
    ensures |s| >= 1 && AllDigits(s)
    ensures s[0] == '0' <==> n == 0
    ensures n == 0 ==> s == "0"
  {
    if n < 10 then [DigitChar(n)] else Decimal(n / 10) + [DigitChar(n % 10)]
  }

  /** The number a string of decimal digits denotes. */
  function DecimalValue(s: string): nat
    requires AllDigits(s)
  {
    if s == [] then 0 else 10 * DecimalValue(s[..|s| - 1]) + (s[|s| - 1] as int - 48)
  }

  /** Reading the decimal rendering back gives the number. */
  lemma {:induction false} DecimalRoundTrip(n: nat)
    ensures DecimalValue(Decimal(n)) == n
  {
    var s := Decimal(n);
    if n >= 10 {
      DecimalRoundTrip(n / 10);
      assert s[..|s| - 1] == Decimal(n / 10);
    }
  }
}
