/**
 * The few .NET string operations the cmdlets rely on, over `seq<char>`:
 * ordinal case-insensitive equality, `EndsWith`, `TrimEnd('.')`,
 * `IsNullOrEmpty`/`IsNullOrWhiteSpace` on nullable strings, and `Split`
 * on one separator character (with and without empty entries).
 */
module Text {
  import opened Results

  /** Upper-case folding of one character (ASCII letters only). */
  function FoldCase(c: char): char {
    if 'a' <= c <= 'z' then (c as int - 32) as char else c
  }

  /** `string.Equals(a, b, StringComparison.OrdinalIgnoreCase)` for non-null strings. */
  predicate EqualsIgnoreCase(a: string, b: string) {
    |a| == |b| && forall i | 0 <= i < |a| :: FoldCase(a[i]) == FoldCase(b[i])
  }

  lemma EqualsIgnoreCaseSymmetric(a: string, b: string)
    requires EqualsIgnoreCase(a, b)
    ensures EqualsIgnoreCase(b, a)
  {
  }

  lemma EqualsIgnoreCaseTransitive(a: string, b: string, c: string)
    requires EqualsIgnoreCase(a, b) && EqualsIgnoreCase(b, c)
    ensures EqualsIgnoreCase(a, c)
  {
  }

  /** `s.EndsWith(suffix)`, compared character by character. */
  predicate EndsWith(s: string, suffix: string) {
    |suffix| <= |s| && s[|s| - |suffix|..] == suffix
  }

  predicate EndsWithDot(s: string) {
    |s| > 0 && s[|s| - 1] == '.'
  }

  /**
   * `s.TrimEnd('.')`: removes every trailing dot. The result is the longest
   * prefix of `s` that does not end with a dot, and all that was cut off
   * were dots.
   */
  function TrimEndDots(s: string): (r: string)
    ensures !EndsWithDot(r)
    ensures r <= s
    ensures forall i | |r| <= i < |s| :: s[i] == '.'
    decreases |s|
  {
    if EndsWithDot(s) then TrimEndDots(s[..|s| - 1]) else s
  }

  /** Trimming twice is trimming once. */
  lemma {:induction false} TrimEndDotsIdempotent(s: string)
    ensures TrimEndDots(TrimEndDots(s)) == TrimEndDots(s)
  {
    var r := TrimEndDots(s);
    assert !EndsWithDot(r);
  }

  /** A name without a trailing dot is left as it is. */
  lemma {:induction false} TrimEndDotsKeepsUndotted(s: string)
    requires !EndsWithDot(s)
    ensures TrimEndDots(s) == s
  {
  }

  /** Trimming removes exactly the appended run of dots. */
  lemma {:induction false} TrimEndDotsOfDotted(s: string, n: nat)
    requires !EndsWithDot(s)
    ensures TrimEndDots(s + seq(n, _ => '.')) == s
    decreases n
  {
    var dots := seq(n, _ => '.');
    if n > 0 {
      var shorter := seq(n - 1, _ => '.');
      assert (s + dots)[..|s + dots| - 1] == s + shorter;
      TrimEndDotsOfDotted(s, n - 1);
    } else {
      assert s + dots == s;
    }
  }

  /** `char.IsWhiteSpace`, restricted to the ASCII white-space characters. */
  predicate IsWhiteSpace(c: char) {
    c == ' ' || c == '\t' || c == '\n' || c == '\r' || c == '\U{000C}' || c == '\U{000B}'
  }

  predicate IsNullOrEmpty(s: Option<string>) {
    s.None? || s.value == ""
  }

  predicate IsNullOrWhiteSpace(s: Option<string>) {
    s.None? || forall i | 0 <= i < |s.value| :: IsWhiteSpace(s.value[i])
  }

  /**
   * `s.Split(sep)`: the pieces between separators, empty pieces included,
   * so there is always one more piece than there are separators.
   */
  function Split(s: string, sep: char): (parts: seq<string>)
    ensures |parts| >= 1
    decreases |s|
  {
    if |s| == 0 then [""]
    else
      var rest := Split(s[1..], sep);
      if s[0] == sep then [""] + rest else [[s[0]] + rest[0]] + rest[1..]
  }

  /** No piece of a split contains the separator. */
  lemma {:induction false} SplitPiecesHaveNoSeparator(s: string, sep: char)
    ensures forall p | p in Split(s, sep) :: sep !in p
    decreases |s|
  {
    if |s| > 0 {
      SplitPiecesHaveNoSeparator(s[1..], sep);
    }
  }

  /** A string without the separator splits into itself. */
  lemma {:induction false} SplitWithoutSeparator(s: string, sep: char)
    requires sep !in s
    ensures Split(s, sep) == [s]
    decreases |s|
  {
    if |s| > 0 {
      assert sep !in s[1..];
      SplitWithoutSeparator(s[1..], sep);
      assert [s[0]] + s[1..] == s;
    }
  }

  /** Splitting around one separator splits each side independently. */
  lemma {:induction false} SplitAround(x: string, y: string, sep: char)
    ensures Split(x + [sep] + y, sep) == Split(x, sep) + Split(y, sep)
    decreases |x|
  {
    var s := x + [sep] + y;
    if |x| == 0 {
      assert s[1..] == y;
    } else {
      assert s[1..] == x[1..] + [sep] + y;
      SplitAround(x[1..], y, sep);
    }
  }

  /** The non-empty pieces, in order (`StringSplitOptions.RemoveEmptyEntries`). */
  function RemoveEmpty(parts: seq<string>): (r: seq<string>)
    ensures forall p | p in r :: p in parts && p != ""
    ensures forall p | p in parts && p != "" :: p in r
  {
    if |parts| == 0 then []
    else if parts[0] == "" then RemoveEmpty(parts[1..])
    else [parts[0]] + RemoveEmpty(parts[1..])
  }

  lemma {:induction false} RemoveEmptyAppend(x: seq<string>, y: seq<string>)
    ensures RemoveEmpty(x + y) == RemoveEmpty(x) + RemoveEmpty(y)
    decreases |x|
  {
    if |x| > 0 {
      assert (x + y)[1..] == x[1..] + y;
      RemoveEmptyAppend(x[1..], y);
    } else {
      assert x + y == y;
    }
  }

  function SplitNonEmpty(s: string, sep: char): seq<string> {
    RemoveEmpty(Split(s, sep))
  }
}
