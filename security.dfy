/** The policy gate `SecurityManager.sanitize_input`: with DDL/DML disabled only
    statements that start with SELECT pass; with it enabled every statement passes
    unless a case-insensitive search finds one of three forbidden patterns. */
module Security {
  import opened PyStr

  /** `sql.upper().strip().startswith("SELECT")`: the read-statement test, used by
      the gate and again by the dispatcher. */
  predicate IsSelect(sql: string) {
    StartsWith(Strip(Upper(sql)), "SELECT")
  }

  /** The entries of `forbidden_patterns`. */
  datatype Pattern =
    | CommentAfterSemicolon   // ;\s*--
    | ExecCall                // EXEC\s
    | ExtendedProcedure       // XP_

  const ForbiddenPatterns: seq<Pattern> := [CommentAfterSemicolon, ExecCall, ExtendedProcedure]

  /** `\s*--` matched from position `j`: the greedy star takes every whitespace
      character; backtracking cannot find another match, since '-' is not whitespace. */
  function DashesAfterSpaces(s: string, j: nat): bool
    requires j <= |s|
    decreases |s| - j
  {
    if j < |s| && IsSpace(s[j]) then DashesAfterSpaces(s, j + 1)
    else j + 2 <= |s| && s[j] == '-' && s[j + 1] == '-'
  }

  /** Does the pattern match at position `i` of `s` under `re.IGNORECASE`?
      (None of E, X, C, P has a case variant outside ASCII.) */
  predicate MatchesAt(p: Pattern, s: string, i: nat)
    requires i <= |s|
  {
    match p
    case CommentAfterSemicolon => i < |s| && s[i] == ';' && DashesAfterSpaces(s, i + 1)
    case ExecCall => i + 5 <= |s| && Upper(s[i..i + 4]) == "EXEC" && IsSpace(s[i + 4])
    case ExtendedProcedure => i + 3 <= |s| && Upper(s[i..i + 3]) == "XP_"
  }

  /** `re.search`: the pattern matches at some position from `i` on. */
  function Search(p: Pattern, s: string, i: nat): bool
    requires i <= |s|
    decreases |s| - i
  {
    MatchesAt(p, s, i) || (i < |s| && Search(p, s, i + 1))
  }

  /** `any(re.search(p, sql, re.IGNORECASE) for p in patterns)`. */
  function AnyMatch(patterns: seq<Pattern>, sql: string): bool {
    |patterns| > 0 && (Search(patterns[0], sql, 0) || AnyMatch(patterns[1..], sql))
  }

  /** `SecurityManager.sanitize_input`, given the truth value of the session's
      `ddl_dml_enabled` slot. */
  function SanitizeInput(sql: string, ddlDmlEnabled: bool): bool {
    if !ddlDmlEnabled then IsSelect(sql) else !AnyMatch(ForbiddenPatterns, sql)
  }

  // ---- reference definitions of what the gate looks for ----

  /** `word` (upper case) appears at position `i` of `s`, ignoring case. */
  predicate WordAt(s: string, i: int, word: string) {
    0 <= i && i + |word| <= |s| && forall k :: 0 <= k < |word| ==> UpperChar(s[i + k]) == word[k]
  }

  /** From position `j`, only whitespace up to `m`, then "--" at `m`. */
  predicate DashesAt(s: string, j: int, m: int) {
    0 <= j <= m && m + 2 <= |s| && AllSpace(s[j..m]) && s[m] == '-' && s[m + 1] == '-'
  }

  /** A ';' at `i`, then nothing but whitespace, then "--" at `m`. */
  predicate CommentSpan(s: string, i: int, m: int) {
    0 <= i < |s| && s[i] == ';' && DashesAt(s, i + 1, m)
  }

  predicate ExecAt(s: string, i: int) {
    WordAt(s, i, "EXEC") && i + 4 < |s| && IsSpace(s[i + 4])
  }

  ghost predicate HasCommentAfterSemicolon(s: string) {
    exists i, m :: CommentSpan(s, i, m)
  }

  ghost predicate HasExecCall(s: string) {
    exists i :: ExecAt(s, i)
  }

  ghost predicate HasExtendedProcedure(s: string) {
    exists i :: WordAt(s, i, "XP_")
  }

  // ---- the gate against the reference definitions ----

  lemma {:induction false} DashesAfterSpacesFindsDashes(s: string, j: nat)
    requires j <= |s|
    ensures DashesAfterSpaces(s, j) <==> exists m :: DashesAt(s, j, m)
    decreases |s| - j
  {
    if j < |s| && IsSpace(s[j]) {
      DashesAfterSpacesFindsDashes(s, j + 1);
      if DashesAfterSpaces(s, j) {
        var m :| DashesAt(s, j + 1, m);
        assert s[j..m] == [s[j]] + s[j + 1..m];
        assert DashesAt(s, j, m);
      }
      if m :| DashesAt(s, j, m) {
        assert m != j;
        assert s[j + 1..m] == s[j..m][1..];
        assert DashesAt(s, j + 1, m);
      }
    } else {
      if DashesAfterSpaces(s, j) {
        assert DashesAt(s, j, j);
      }
      if m :| DashesAt(s, j, m) {
        assert m == j || IsSpace(s[j..m][0]);
      }
    }
  }

  lemma {:induction false} SearchFindsPosition(p: Pattern, s: string, i: nat)
    requires i <= |s|
    ensures Search(p, s, i) <==> exists k: nat :: i <= k <= |s| && MatchesAt(p, s, k)
    decreases |s| - i
  {
    if i < |s| {
      SearchFindsPosition(p, s, i + 1);
    }
  }

  lemma UpperSliceIsWord(s: string, i: nat, word: string)
    requires i + |word| <= |s|
    ensures Upper(s[i..i + |word|]) == word <==> WordAt(s, i, word)
  {
    var u := Upper(s[i..i + |word|]);
    if WordAt(s, i, word) {
      assert forall k :: 0 <= k < |word| ==> u[k] == word[k];
    }
    if u == word {
      assert forall k :: 0 <= k < |word| ==> UpperChar(s[i + k]) == u[k];
    }
  }

  lemma MatchesAtMeaning(s: string, i: nat)
    requires i <= |s|
    ensures MatchesAt(CommentAfterSemicolon, s, i) <==> exists m :: CommentSpan(s, i, m)
    ensures MatchesAt(ExecCall, s, i) <==> ExecAt(s, i)
    ensures MatchesAt(ExtendedProcedure, s, i) <==> WordAt(s, i, "XP_")
  {
    if i < |s| {
      DashesAfterSpacesFindsDashes(s, i + 1);
      if MatchesAt(CommentAfterSemicolon, s, i) {
        var m :| DashesAt(s, i + 1, m);
        assert CommentSpan(s, i, m);
      }
      if m :| CommentSpan(s, i, m) {
        assert DashesAt(s, i + 1, m);
      }
    }
    if i + 5 <= |s| {
      UpperSliceIsWord(s, i, "EXEC");
    }
    if i + 3 <= |s| {
      UpperSliceIsWord(s, i, "XP_");
    }
  }

  /** With DDL/DML enabled, a statement is rejected exactly when, anywhere and
      ignoring case, it holds ';' followed by optional whitespace and "--", or
      "EXEC" followed by a whitespace character, or "XP_". No keyword is checked. */
  lemma GateWhenEnabled(sql: string)
    ensures SanitizeInput(sql, true)
            <==> !(HasCommentAfterSemicolon(sql) || HasExecCall(sql) || HasExtendedProcedure(sql))
  {
    SearchFindsPosition(CommentAfterSemicolon, sql, 0);
    SearchFindsPosition(ExecCall, sql, 0);
    SearchFindsPosition(ExtendedProcedure, sql, 0);
    forall k: nat | k <= |sql| {
      MatchesAtMeaning(sql, k);
    }
    var rest := ForbiddenPatterns[1..];
    assert rest == [ExecCall, ExtendedProcedure];
    assert rest[1..] == [ExtendedProcedure];
    assert !AnyMatch(rest[1..][1..], sql);
    assert AnyMatch(rest[1..], sql) == Search(ExtendedProcedure, sql, 0);
    assert AnyMatch(rest, sql) == (Search(ExecCall, sql, 0) || Search(ExtendedProcedure, sql, 0));
    assert AnyMatch(ForbiddenPatterns, sql)
      <==> Search(CommentAfterSemicolon, sql, 0) || Search(ExecCall, sql, 0) || Search(ExtendedProcedure, sql, 0);
    if HasCommentAfterSemicolon(sql) {
      var i, m :| CommentSpan(sql, i, m);
      assert MatchesAt(CommentAfterSemicolon, sql, i);
    }
    if HasExecCall(sql) {
      var i :| ExecAt(sql, i);
      assert MatchesAt(ExecCall, sql, i);
    }
    if HasExtendedProcedure(sql) {
      var i :| WordAt(sql, i, "XP_");
      assert MatchesAt(ExtendedProcedure, sql, i);
    }
  }

  lemma UpperKeepsSpaces(c: char)
    ensures IsSpace(UpperChar(c)) <==> IsSpace(c)
  {
  }

  lemma {:induction false} UpperLeadingSpaces(s: string)
    ensures LeadingSpaces(Upper(s)) == LeadingSpaces(s)
    decreases |s|
  {
    if |s| > 0 {
      UpperKeepsSpaces(s[0]);
      assert Upper(s)[1..] == Upper(s[1..]);
      UpperLeadingSpaces(s[1..]);
    }
  }

  /** Trailing whitespace never affects a prefix that ends in a non-space character. */
  lemma TrimEndKeepsPrefix(t: string, prefix: string)
    requires |prefix| > 0 && !IsSpace(prefix[|prefix| - 1])
    ensures StartsWith(TrimEnd(t), prefix) <==> StartsWith(t, prefix)
  {
    var r := TrimEnd(t);
    if StartsWith(t, prefix) {
      assert !IsSpace(t[|prefix| - 1]);
      assert |r| >= |prefix|;
      assert r[..|prefix|] == t[..|prefix|];
    }
    if StartsWith(r, prefix) {
      assert t[..|prefix|] == r[..|prefix|];
    }
  }

  lemma UpperTailStartsWith(s: string, g: nat, word: string)
    requires g <= |s|
    ensures StartsWith(Upper(s)[g..], word) <==> WordAt(s, g, word)
  {
    if g + |word| <= |s| {
      assert Upper(s)[g..][..|word|] == Upper(s[g..g + |word|]);
      UpperSliceIsWord(s, g, word);
    }
  }

  /** With DDL/DML disabled, a statement passes exactly when its first six
      characters after the leading whitespace spell SELECT in any case; the
      forbidden patterns are not looked at. */
  lemma GateWhenDisabled(sql: string)
    ensures SanitizeInput(sql, false) <==> WordAt(sql, LeadingSpaces(sql), "SELECT")
  {
    var g := LeadingSpaces(sql);
    UpperLeadingSpaces(sql);
    var t := TrimStart(Upper(sql));
    assert t == Upper(sql)[g..];
    assert !IsSpace('T');
    TrimEndKeepsPrefix(t, "SELECT");
    UpperTailStartsWith(sql, g, "SELECT");
  }

  // ---- examples ----

  /** Case is ignored: a lower-case `select` statement passes with DDL/DML
      disabled, and the forbidden patterns are not checked, whatever follows. */
  lemma LowerCaseSelectPasses(rest: string)
    ensures SanitizeInput("select" + rest, false)
  {
    var s := "select" + rest;
    GateWhenDisabled(s);
    assert s[0] == 's';
    assert LeadingSpaces(s) == 0;
    forall k | 0 <= k < 6 ensures UpperChar(s[k]) == "SELECT"[k] {
      assert s[k] == "select"[k];
    }
  }

  /** With DDL/DML disabled anything that does not start with SELECT is refused. */
  lemma DropRejectedWhenDisabled(rest: string)
    ensures !SanitizeInput("DROP" + rest, false)
  {
    var s := "DROP" + rest;
    GateWhenDisabled(s);
    assert s[0] == 'D';
    assert LeadingSpaces(s) == 0;
    assert UpperChar(s[0]) != 'S';
  }

  /** With DDL/DML enabled any statement holding ';', whitespace and "--" is
      rejected, whatever its first keyword. */
  lemma PatternsCheckedWhenEnabled(head: string, gap: string, tail: string)
    requires AllSpace(gap)
    ensures !SanitizeInput(head + ";" + gap + "--" + tail, true)
  {
    var s := head + ";" + gap + "--" + tail;
    var i := |head|;
    var m := i + 1 + |gap|;
    assert s[i] == ';';
    assert s[i + 1..m] == gap;
    assert s[m] == '-' && s[m + 1] == '-';
    assert CommentSpan(s, i, m);
    GateWhenEnabled(s);
  }
}
