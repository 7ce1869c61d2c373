/** The Python `str` built-ins the application relies on: whitespace, upper-casing,
    `strip`/`lstrip`/`rstrip`, `startswith`, substring search, `split`, and the
    conversions between integers and decimal text done by `int()` and f-strings. */
module PyStr {
  import opened Wrappers

  /** `str.isspace()`, which is also the set `\s` matches in a `str` regular expression. */
  predicate IsSpace(c: char) {
    || c == ' '
    || ('\t' <= c <= '\r')
    || ('\U{1C}' <= c <= '\U{1F}')
    || c == '\U{85}' || c == '\U{A0}' || c == '\U{1680}'
    || ('\U{2000}' <= c <= '\U{200A}')
    || c == '\U{2028}' || c == '\U{2029}' || c == '\U{202F}' || c == '\U{205F}' || c == '\U{3000}'
  }

  predicate AllSpace(s: string) {
    forall i :: 0 <= i < |s| ==> IsSpace(s[i])
  }

  predicate NoSpace(s: string) {
    forall i :: 0 <= i < |s| ==> !IsSpace(s[i])
  }

  /** `str.upper()` on one character: ASCII letters and the long s (which Python
      upper-cases to 'S'); every other character is left as it is. */
  function UpperChar(c: char): char {
    if 'a' <= c <= 'z' then (c as int - 32) as char
    else if c == '\U{17F}' then 'S'
    else c
  }

  function Upper(s: string): string {
    seq(|s|, i requires 0 <= i < |s| => UpperChar(s[i]))
  }

  /** The number of whitespace characters `s` starts with. */
  function LeadingSpaces(s: string): (n: nat)
    ensures n <= |s| && (n == |s| || !IsSpace(s[n]))
    ensures forall i :: 0 <= i < n ==> IsSpace(s[i])
    decreases |s|
  {
    if |s| > 0 && IsSpace(s[0]) then 1 + LeadingSpaces(s[1..]) else 0
  }

  /** The number of copies of `c` that `s` ends with. */
  function TrailingCount(s: string, c: char): (n: nat)
    ensures n <= |s| && (n == |s| || s[|s| - n - 1] != c)
    ensures forall i :: |s| - n <= i < |s| ==> s[i] == c
    decreases |s|
  {
    if |s| > 0 && s[|s| - 1] == c then 1 + TrailingCount(s[..|s| - 1], c) else 0
  }

  /** The number of whitespace characters `s` ends with. */
  function TrailingSpaces(s: string): (n: nat)
    ensures n <= |s| && (n == |s| || !IsSpace(s[|s| - n - 1]))
    ensures forall i :: |s| - n <= i < |s| ==> IsSpace(s[i])
    decreases |s|
  {
    if |s| > 0 && IsSpace(s[|s| - 1]) then 1 + TrailingSpaces(s[..|s| - 1]) else 0
  }

  /** `str.lstrip()`. */
  function TrimStart(s: string): string {
    s[LeadingSpaces(s)..]
  }

  /** `str.rstrip()`. */
  function TrimEnd(s: string): string {
    s[..|s| - TrailingSpaces(s)]
  }

  /** `str.strip()`. */
  function Strip(s: string): string {
    TrimEnd(TrimStart(s))
  }

  /** `str.rstrip(chars)` with a one-character `chars`: drops every trailing `c`. */
  function TrimEndChar(s: string, c: char): string {
    s[..|s| - TrailingCount(s, c)]
  }

  predicate StartsWith(s: string, prefix: string) {
    |prefix| <= |s| && s[..|prefix|] == prefix
  }

  /** Texts that start with different characters differ. */
  lemma FirstCharDiffers(a: string, x: string, b: string, y: string)
    requires |a| > 0 && |b| > 0 && a[0] != b[0]
    ensures a + x != b + y
  {
    assert (a + x)[0] == a[0];
    assert (b + y)[0] == b[0];
  }

  predicate OccursAt(s: string, pat: string, i: int) {
    0 <= i && i + |pat| <= |s| && s[i..i + |pat|] == pat
  }

  /** `str.find`: the index of the first occurrence of `pat`, if any. */
  function Find(s: string, pat: string): (r: Option<nat>)
    ensures r.Some? ==> OccursAt(s, pat, r.value)
    ensures r.Some? ==> forall j :: 0 <= j < r.value ==> !OccursAt(s, pat, j)
    ensures r.None? ==> forall j :: !OccursAt(s, pat, j)
    decreases |s|
  {
    if |s| < |pat| then None
    else if s[..|pat|] == pat then Some(0)
    else
      var rest := Find(s[1..], pat);
      ShiftOccurs(s, pat);
      match rest
      case None => None
      case Some(i) => Some(i + 1)
  }

  lemma ShiftOccurs(s: string, pat: string)
    requires |s| > 0
    ensures forall j :: 1 <= j ==> (OccursAt(s, pat, j) <==> OccursAt(s[1..], pat, j - 1))
  {
    forall j | 1 <= j ensures OccursAt(s, pat, j) <==> OccursAt(s[1..], pat, j - 1) {
      if j + |pat| <= |s| {
        assert s[1..][j - 1..j - 1 + |pat|] == s[j..j + |pat|];
      }
    }
  }

  predicate Contains(s: string, pat: string) {
    Find(s, pat).Some?
  }

  /** `s.split(sep, 1)` unpacked into two names: `None` when `sep` does not occur
      (Python raises `ValueError` there). */
  function SplitFirst(s: string, sep: string): (r: Option<(string, string)>)
    requires |sep| > 0
    ensures r.None? <==> !Contains(s, sep)
    ensures r.Some? ==> s == r.value.0 + sep + r.value.1 && !Contains(r.value.0, sep)
    ensures r.Some? ==> Find(s, sep) == Some(|r.value.0|)
  {
    match Find(s, sep)
    case None => None
    case Some(i) =>
      var before, after := s[..i], s[i + |sep|..];
      assert s == before + sep + after by { assert s[i..i + |sep|] == sep; }
      forall j ensures !OccursAt(before, sep, j) {
        if 0 <= j && j + |sep| <= |before| {
          assert before[j..j + |sep|] == s[j..j + |sep|];
          assert !OccursAt(s, sep, j);
        }
      }
      Some((before, after))
  }

  /** The first occurrence is the one with no occurrence before it. */
  lemma FindAt(s: string, pat: string, i: nat)
    requires OccursAt(s, pat, i)
    requires forall j :: 0 <= j < i ==> !OccursAt(s, pat, j)
    ensures Find(s, pat) == Some(i)
  {
  }

  /** A pattern cannot occur where its first character does not. */
  lemma FirstCharAbsent(s: string, pat: string, i: nat)
    requires |pat| > 0 && i <= |s| && pat[0] !in s[..i]
    ensures forall j :: 0 <= j < i ==> !OccursAt(s, pat, j)
  {
    forall j | 0 <= j < i ensures !OccursAt(s, pat, j) {
      if j + |pat| <= |s| {
        assert s[j..j + |pat|][0] == s[j];
        assert s[j] == s[..i][j];
      }
    }
  }

  /** A pattern whose first character is absent does not occur. */
  lemma AbsentNotContained(s: string, pat: string)
    requires |pat| > 0 && pat[0] !in s
    ensures !Contains(s, pat)
  {
    assert s[..|s|] == s;
    FirstCharAbsent(s, pat, |s|);
  }

  /** A character occurs exactly when the one-character text does. */
  lemma CharContained(s: string, c: char)
    ensures c in s <==> Contains(s, [c])
  {
    if c in s {
      var k :| 0 <= k < |s| && s[k] == c;
      assert s[k..k + 1] == [c];
      assert OccursAt(s, [c], k);
    } else {
      AbsentNotContained(s, [c]);
    }
  }

  /** Splitting `a + [c] + b` at `c` when `a` holds no `c`. */
  lemma SplitAtChar(a: string, c: char, b: string)
    requires c !in a
    ensures SplitFirst(a + [c] + b, [c]) == Some((a, b))
  {
    var s := a + [c] + b;
    assert s[..|a|] == a;
    FirstCharAbsent(s, [c], |a|);
    assert s[|a|..|a| + 1] == [c];
    FindAt(s, [c], |a|);
    assert s[|a| + 1..] == b;
  }

  /** `s.split(sep)` for a non-empty separator: the pieces between the
      non-overlapping occurrences of `sep`, scanned from the left. */
  function Split(s: string, sep: string): (parts: seq<string>)
    requires |sep| > 0
    ensures |parts| >= 1
    decreases |s|
  {
    match SplitFirst(s, sep)
    case None => [s]
    case Some((before, after)) => [before] + Split(after, sep)
  }

  function Join(parts: seq<string>, sep: string): string
    requires |parts| >= 1
  {
    if |parts| == 1 then parts[0] else parts[0] + sep + Join(parts[1..], sep)
  }

  /** Joining the pieces back with the separator gives the original string. */
  lemma {:induction false} SplitJoin(s: string, sep: string)
    requires |sep| > 0
    ensures Join(Split(s, sep), sep) == s
    decreases |s|
  {
    match SplitFirst(s, sep)
    case None =>
    case Some((before, after)) =>
      SplitJoin(after, sep);
      assert Split(s, sep)[1..] == Split(after, sep);
  }

  /** No piece of a split contains the separator. */
  lemma {:induction false} SplitPiecesFree(s: string, sep: string)
    requires |sep| > 0
    ensures forall k :: 0 <= k < |Split(s, sep)| ==> !Contains(Split(s, sep)[k], sep)
    decreases |s|
  {
    match SplitFirst(s, sep)
    case None =>
    case Some((before, after)) =>
      SplitPiecesFree(after, sep);
      assert Split(s, sep)[1..] == Split(after, sep);
  }

  /** Length of the longest prefix without whitespace. */
  function WordLength(s: string): (n: nat)
    ensures n <= |s| && NoSpace(s[..n])
    ensures n == |s| || IsSpace(s[n])
    decreases |s|
  {
    if |s| == 0 || IsSpace(s[0]) then 0 else 1 + WordLength(s[1..])
  }

  /** `str.split()` with no argument: the maximal runs of non-whitespace. */
  function Words(s: string): (ws: seq<string>)
    decreases |s|
  {
    var t := TrimStart(s);
    if t == [] then [] else [t[..WordLength(t)]] + Words(t[WordLength(t)..])
  }

  /** There are no words exactly when the string is all whitespace. */
  lemma NoWords(s: string)
    ensures Words(s) == [] <==> AllSpace(s)
  {
    var g := LeadingSpaces(s);
    if g == |s| {
      assert forall i :: 0 <= i < |s| ==> IsSpace(s[i]);
    } else {
      assert !IsSpace(s[g]);
    }
  }

  /** Every word is non-empty and holds no whitespace. */
  lemma {:induction false} WordIsWord(s: string, k: nat)
    requires k < |Words(s)|
    ensures |Words(s)[k]| > 0 && NoSpace(Words(s)[k])
    decreases |s|
  {
    var g := LeadingSpaces(s);
    var t := TrimStart(s);
    assert t != [];
    assert t[0] == s[g] && !IsSpace(t[0]);
    var n := WordLength(t);
    assert n > 0;
    var rest := Words(t[n..]);
    assert Words(s) == [t[..n]] + rest;
    if k > 0 {
      WordIsWord(t[n..], k - 1);
      assert Words(s)[k] == rest[k - 1];
    }
  }

  /** The leading whitespace of `gap + w` is `gap` when `w` starts with a
      non-space. */
  lemma {:induction false} LeadingSpacesAfterGap(gap: string, w: string)
    requires AllSpace(gap) && |w| > 0 && !IsSpace(w[0])
    ensures LeadingSpaces(gap + w) == |gap|
    decreases |gap|
  {
    if |gap| == 0 {
      assert gap + w == w;
    } else {
      assert (gap + w)[0] == gap[0];
      assert (gap + w)[1..] == gap[1..] + w;
      assert AllSpace(gap[1..]) by {
        forall i | 0 <= i < |gap[1..]| ensures IsSpace(gap[1..][i]) {
          assert gap[1..][i] == gap[i + 1];
        }
      }
      LeadingSpacesAfterGap(gap[1..], w);
    }
  }

  /** Whitespace followed by one word splits into that word alone. */
  lemma WordsOfWord(gap: string, w: string)
    requires AllSpace(gap) && |w| > 0 && NoSpace(w)
    ensures Words(gap + w) == [w]
  {
    var s := gap + w;
    LeadingSpacesAfterGap(gap, w);
    var t := TrimStart(s);
    assert t == w;
    var n := WordLength(t);
    assert n == |w|;
    assert Words(s) == [t[..n]] + Words(t[n..]);
    assert t[..n] == w && t[n..] == [];
  }

  /** The first word of `s` is what follows its leading whitespace, up to the next
      whitespace character or the end. */
  lemma FirstWord(s: string)
    requires Words(s) != []
    ensures var g := LeadingSpaces(s);
            var w := Words(s)[0];
            g + |w| <= |s| && s[g..g + |w|] == w
            && (g + |w| == |s| || IsSpace(s[g + |w|]))
  {
    var g := LeadingSpaces(s);
    var t := TrimStart(s);
    var n := WordLength(t);
    assert Words(s)[0] == t[..n];
    assert s[g..g + n] == t[..n];
  }

  // ---- decimal text ----

  function DigitChar(d: nat): (c: char)
    requires d < 10
    ensures '0' <= c <= '9' && c as int - '0' as int == d
  {
    ('0' as int + d) as char
  }

  predicate IsDigit(c: char) {
    '0' <= c <= '9'
  }

  /** The decimal text of a natural number, without leading zeros. */
  function NatToString(n: nat): (s: string)
    ensures |s| >= 1 && forall i :: 0 <= i < |s| ==> IsDigit(s[i])
    decreases n
  {
    if n < 10 then [DigitChar(n)] else NatToString(n / 10) + [DigitChar(n % 10)]
  }

  /** The text an f-string such as `f"{n}"` produces for an `int`. */
  function IntToString(i: int): (s: string)
    ensures |s| >= 1 && !IsSpace(s[0]) && !IsSpace(s[|s| - 1])
    ensures forall k :: 0 <= k < |s| ==> IsDigit(s[k]) || (k == 0 && s[k] == '-')
  {
    if i < 0 then "-" + NatToString(-i) else NatToString(i)
  }

  /** The value of a non-empty string of decimal digits; `None` for anything else. */
  function ParseDigits(s: string): (r: Option<nat>)
    ensures r.Some? <==> |s| >= 1 && forall i :: 0 <= i < |s| ==> IsDigit(s[i])
    decreases |s|
  {
    if |s| == 0 || !IsDigit(s[|s| - 1]) then None
    else if |s| == 1 then Some(s[0] as int - '0' as int)
    else match ParseDigits(s[..|s| - 1])
      case None => None
      case Some(v) => Some(10 * v + (s[|s| - 1] as int - '0' as int))
  }

  /** `int(s)`: optional surrounding whitespace, an optional sign, ASCII digits.
      `None` where Python raises `ValueError`. */
  function ParseInt(s: string): Option<int> {
    var t := Strip(s);
    if |t| > 0 && t[0] == '-' then
      match ParseDigits(t[1..])
      case None => None
      case Some(v) => Some(-(v as int))
    else if |t| > 0 && t[0] == '+' then
      match ParseDigits(t[1..])
      case None => None
      case Some(v) => Some(v)
    else
      match ParseDigits(t)
      case None => None
      case Some(v) => Some(v)
  }

  lemma {:induction false} ParseNatToString(n: nat)
    ensures ParseDigits(NatToString(n)) == Some(n)
    decreases n
  {
    if n >= 10 {
      ParseNatToString(n / 10);
      var s := NatToString(n);
      assert s[..|s| - 1] == NatToString(n / 10);
    }
  }

  /** A text with no whitespace at either end is its own strip. */
  lemma StripUnchanged(s: string)
    requires |s| > 0 && !IsSpace(s[0]) && !IsSpace(s[|s| - 1])
    ensures Strip(s) == s
  {
    assert LeadingSpaces(s) == 0;
    assert TrimStart(s) == s;
    assert TrailingSpaces(s) == 0;
  }

  /** `s.strip()` is empty exactly when `s` is all whitespace. */
  lemma StripEmpty(s: string)
    ensures Strip(s) == [] <==> AllSpace(s)
  {
    var n := LeadingSpaces(s);
    var t := TrimStart(s);
    if n < |s| {
      assert t[0] == s[n] && !IsSpace(t[0]);
      assert TrailingSpaces(t) < |t|;
    }
  }

  /** Formatting an integer and reading it back with `int()` gives the integer. */
  lemma ParseIntToString(i: int)
    ensures ParseInt(IntToString(i)) == Some(i)
  {
    var s := IntToString(i);
    StripUnchanged(s);
    if i < 0 {
      var n: nat := -i;
      var digits := NatToString(n);
      ParseNatToString(n);
      assert s == "-" + digits;
      assert s[0] == '-' && s[1..] == digits;
    } else {
      assert s == NatToString(i);
      assert IsDigit(s[0]);
      ParseNatToString(i);
    }
  }
}
