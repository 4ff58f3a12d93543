/** Character classes and string helpers shared by the strategy and the pipeline. */
module Text {
  import opened Wrappers

  /** Ruby's `\w`: an ASCII letter, digit or underscore. */
  predicate IsWordChar(c: char) {
    'a' <= c <= 'z' || 'A' <= c <= 'Z' || '0' <= c <= '9' || c == '_'
  }

  /** Ruby's `\d`: an ASCII digit. */
  predicate IsDigit(c: char) {
    '0' <= c <= '9'
  }

  predicate AllWordChars(s: string) {
    forall i :: 0 <= i < |s| ==> IsWordChar(s[i])
  }

  predicate AllDigits(s: string) {
    forall i :: 0 <= i < |s| ==> IsDigit(s[i])
  }

  /** The character classes a greedy run is taken over. */
  datatype CharClass = Word | Digit

  predicate InClass(c: char, k: CharClass) {
    match k
    case Word => IsWordChar(c)
    case Digit => IsDigit(c)
  }

  /** Length of the longest prefix of `s` whose characters are all in class `k`:
      what a greedy `\w+` or `\d+` consumes. */
  function LeadingRun(s: string, k: CharClass): (n: nat)
    ensures n <= |s|
    ensures forall i :: 0 <= i < n ==> InClass(s[i], k)
    ensures n < |s| ==> !InClass(s[n], k)
  {
    if s == [] || !InClass(s[0], k) then 0 else 1 + LeadingRun(s[1..], k)
  }

  /** The run is determined by where the class first fails: a prefix `w` of `s`
      whose characters are in the class, followed by a character that is not (or by
      the end), is exactly the run. */
  lemma LeadingRunIs(s: string, k: CharClass, w: string)
    requires w <= s
    requires forall i :: 0 <= i < |w| ==> InClass(w[i], k)
    requires |w| == |s| || !InClass(s[|w|], k)
    ensures LeadingRun(s, k) == |w|
  {
  }

  /** The leading run of digits of `s` (the capture of a greedy `(\d+)`). */
  function DigitRunPrefix(s: string): (ds: string)
    ensures AllDigits(ds) && ds <= s
    ensures |ds| == LeadingRun(s, Digit)
  {
    s[..LeadingRun(s, Digit)]
  }

  /** A digit run followed by a non-digit (or by nothing) is the whole capture. */
  lemma DigitRunPrefixOf(ds: string, rest: string)
    requires AllDigits(ds)
    requires rest == [] || !IsDigit(rest[0])
    ensures DigitRunPrefix(ds + rest) == ds
  {
    LeadingRunIs(ds + rest, Digit, ds);
  }

  function DigitValue(c: char): (d: nat)
    requires IsDigit(c)
    ensures d < 10
  {
    (c as int) - ('0' as int)
  }

  function Pow10(k: nat): (p: nat)
    ensures p >= 1
  {
    if k == 0 then 1 else 10 * Pow10(k - 1)
  }

  /** Ruby's String#to_i on a string of decimal digits: `k` digits denote a number
      below 10^k. */
  function DecimalValue(ds: string): (n: nat)
    requires AllDigits(ds)
    ensures n < Pow10(|ds|)
  {
    if ds == [] then 0 else 10 * DecimalValue(ds[..|ds| - 1]) + DigitValue(ds[|ds| - 1])
  }

  function DigitChar(d: nat): (c: char)
    requires d < 10
    ensures IsDigit(c) && DigitValue(c) == d
  {
    ((d as int) + ('0' as int)) as char
  }

  /** Ruby's Integer#to_s: the decimal digits of `n`, without leading zeros. */
  function DecimalDigits(n: nat): (ds: string)
    ensures AllDigits(ds) && |ds| > 0
    ensures |ds| > 1 ==> ds[0] != '0'
  {
    if n < 10 then [DigitChar(n)] else DecimalDigits(n / 10) + [DigitChar(n % 10)]
  }

  /** Reading back the digits of a number gives the number. */
  lemma {:induction false} DecimalRoundTrip(n: nat)
    ensures DecimalValue(DecimalDigits(n)) == n
  {
    var ds := DecimalDigits(n);
    if n >= 10 {
      DecimalRoundTrip(n / 10);
      assert ds[..|ds| - 1] == DecimalDigits(n / 10);
    }
  }

  /** `p` is a prefix of `t`, compared one character at a time (`HasPrefixIff`
      shows this is `p <= t`). */
  predicate HasPrefix(t: string, p: string)
    decreases |t|
    ensures HasPrefix(t, p) ==> |p| <= |t|
  {
    |p| == 0 || (|t| > 0 && t[0] == p[0] && HasPrefix(t[1..], p[1..]))
  }

  lemma {:induction false} HasPrefixIff(t: string, p: string)
    decreases |t|
    ensures HasPrefix(t, p) <==> p <= t
  {
    if |p| > 0 && |t| > 0 {
      HasPrefixIff(t[1..], p[1..]);
      if p <= t {
        assert t[1..][..|p| - 1] == p[1..];
      }
      if t[0] == p[0] && p[1..] <= t[1..] {
        assert t[..|p|] == [t[0]] + t[1..][..|p| - 1];
      }
    }
  }

  /** A prefix of a concatenation is its first part followed by a prefix of the rest. */
  lemma PrefixSplit(t: string, a: string, b: string)
    ensures HasPrefix(t, a + b) <==> HasPrefix(t, a) && HasPrefix(t[|a|..], b)
  {
    HasPrefixIff(t, a + b);
    HasPrefixIff(t, a);
    if |a| <= |t| {
      HasPrefixIff(t[|a|..], b);
      if a + b <= t {
        assert t[..|a|] == (a + b)[..|a|];
        assert t[|a|..][..|b|] == (a + b)[|a|..];
      }
      if a <= t && b <= t[|a|..] {
        assert t[..|a + b|] == t[..|a|] + t[|a|..][..|b|];
      }
    }
  }

  /** `key` occurs in `s`, tried at one start position after another. */
  predicate Occurs(key: string, s: string)
    decreases |s|
  {
    HasPrefix(s, key) || (s != [] && Occurs(key, s[1..]))
  }

  /** The search succeeds exactly when `key` is a prefix of some suffix of `s`. */
  lemma {:induction false} OccursIff(key: string, s: string)
    decreases |s|
    ensures Occurs(key, s) <==> exists i :: 0 <= i <= |s| && key <= s[i..]
  {
    HasPrefixIff(s, key);
    if HasPrefix(s, key) {
      assert s[0..] == s;
    } else if s == [] {
      forall i | 0 <= i <= |s| ensures !(key <= s[i..]) {
        assert s[i..] == s;
      }
    } else {
      OccursIff(key, s[1..]);
      if Occurs(key, s[1..]) {
        var j :| 0 <= j <= |s[1..]| && key <= s[1..][j..];
        assert s[1..][j..] == s[j + 1..];
      } else {
        forall i | 0 <= i <= |s| ensures !(key <= s[i..]) {
          if i == 0 {
            assert s[0..] == s;
          } else {
            assert s[i..] == s[1..][i - 1..];
          }
        }
      }
    }
  }

  /** Ruby's String#downcase on one character (ASCII letters only). */
  function LowerChar(c: char): char {
    if 'A' <= c <= 'Z' then ((c as int) + 32) as char else c
  }

  /** Ruby's String#downcase, character by character. */
  function Lower(s: string): (r: string)
    ensures |r| == |s|
    ensures forall i :: 0 <= i < |s| ==> r[i] == LowerChar(s[i])
  {
    if s == [] then [] else [LowerChar(s[0])] + Lower(s[1..])
  }

  /** Lowercasing leaves no ASCII upper-case letter behind, and lowercasing twice
      is lowercasing once. */
  lemma {:induction false} LowerIdempotent(s: string)
    ensures forall i :: 0 <= i < |s| ==> !('A' <= Lower(s)[i] <= 'Z')
    ensures Lower(Lower(s)) == Lower(s)
  {
    if s != [] {
      LowerIdempotent(s[1..]);
      assert Lower(s) == [LowerChar(s[0])] + Lower(s[1..]);
      assert Lower(Lower(s)) == [LowerChar(LowerChar(s[0]))] + Lower(Lower(s[1..]));
    }
  }

  /** ASCII whitespace, as Rails' String#blank? sees it. */
  predicate IsSpace(c: char) {
    c == ' ' || c == '\t' || c == '\n' || c == '\r' || c == '\U{B}' || c == '\U{C}'
  }

  /** Rails' String#blank?: empty or only whitespace. */
  predicate IsBlank(s: string) {
    forall i :: 0 <= i < |s| ==> IsSpace(s[i])
  }

  /** Rails' Object#present? on a possibly nil string: it holds a character that is
      not whitespace; exactly the strings that are not nil and not blank. */
  function IsPresent(s: Option<string>): (r: bool)
    ensures r <==> s.Some? && !IsBlank(s.value)
    ensures r ==> |s.value| > 0
  {
    s.Some? && exists i :: 0 <= i < |s.value| && !IsSpace(s.value[i])
  }

  /** The total length of a list of strings. */
  function TotalLength(lines: seq<string>): nat {
    if |lines| == 0 then 0 else |lines[0]| + TotalLength(lines[1..])
  }

  /** Ruby's Array#join: the strings in order with `sep` between neighbours. It
      starts with the first string and is as long as all the strings plus one
      separator per gap. */
  function Join(lines: seq<string>, sep: string): (r: string)
    ensures |lines| == 0 ==> r == ""
    ensures |lines| > 0 ==> lines[0] <= r
    ensures |lines| > 0 ==> |r| == TotalLength(lines) + (|lines| - 1) * |sep|
  {
    if |lines| == 0 then ""
    else if |lines| == 1 then lines[0]
    else
      var tail := Join(lines[1..], sep);
      lines[0] + sep + tail
  }
}
