/** Post-processing of the replies of the language-model service in `GroqHandler`.
    The API call itself is outside the model: a reply is given as `Success(text)`
    with the message content, or `Failure(msg)` when the client raised. */
module GroqHandler {
  import opened Wrappers
  import opened PyStr

  type Reply = Result<string, string>

  const Backslash: char := '\\'

  /** `raw_output.replace("\\", "")`. */
  function CleanOutput(s: string): string
    decreases |s|
  {
    if |s| == 0 then []
    else (if s[0] == Backslash then [] else [s[0]]) + CleanOutput(s[1..])
  }

  /** The number of backslashes in `s`. */
  function BackslashCount(s: string): nat
    decreases |s|
  {
    if |s| == 0 then 0 else (if s[0] == Backslash then 1 else 0) + BackslashCount(s[1..])
  }

  predicate NoBackslash(s: string) {
    forall i :: 0 <= i < |s| ==> s[i] != Backslash
  }

  /** Cleaning leaves no backslash, and drops exactly the backslashes. */
  lemma {:induction false} CleanRemovesBackslashes(s: string)
    ensures NoBackslash(CleanOutput(s))
    ensures |CleanOutput(s)| == |s| - BackslashCount(s)
    decreases |s|
  {
    if |s| > 0 {
      CleanRemovesBackslashes(s[1..]);
      var head := if s[0] == Backslash then [] else [s[0]];
      assert CleanOutput(s) == head + CleanOutput(s[1..]);
    }
  }

  /** Cleaning works piece by piece: the other characters keep their order. */
  lemma {:induction false} CleanConcat(a: string, b: string)
    ensures CleanOutput(a + b) == CleanOutput(a) + CleanOutput(b)
    decreases |a|
  {
    if |a| > 0 {
      CleanConcat(a[1..], b);
      assert (a + b)[1..] == a[1..] + b;
    } else {
      assert a + b == b;
    }
  }

  /** A text without backslashes is left as it is, and only such a text. */
  lemma {:induction false} CleanUnchanged(s: string)
    ensures CleanOutput(s) == s <==> NoBackslash(s)
    decreases |s|
  {
    CleanRemovesBackslashes(s);
    if |s| > 0 {
      CleanUnchanged(s[1..]);
      if s[0] != Backslash {
        assert CleanOutput(s) == [s[0]] + CleanOutput(s[1..]);
        if NoBackslash(s) {
          assert NoBackslash(s[1..]) by {
            forall i | 0 <= i < |s[1..]| ensures s[1..][i] != Backslash {
              assert s[1..][i] == s[i + 1];
            }
          }
        }
        assert s == [s[0]] + s[1..];
      }
    }
  }

  /** `_clean_output` is idempotent. */
  lemma CleanIdempotent(s: string)
    ensures CleanOutput(CleanOutput(s)) == CleanOutput(s)
  {
    CleanRemovesBackslashes(s);
    CleanUnchanged(CleanOutput(s));
  }

  /** `generate_sql`: the stripped reply, cleaned, with no emptiness test; `None`
      when the client raised. */
  function GenerateSqlReply(reply: Reply): (r: Option<string>)
    ensures r.None? <==> reply.Failure?
    ensures r.Some? ==> NoBackslash(r.value) && r.value == CleanOutput(Strip(reply.value))
  {
    match reply
    case Failure(_) => None
    case Success(raw) => CleanRemovesBackslashes(Strip(raw)); Some(CleanOutput(Strip(raw)))
  }

  /** `analyze_data`: `None` when the client raised or the stripped reply is empty,
      and otherwise the stripped reply, cleaned. */
  function AnalyzeDataReply(reply: Reply): (r: Option<string>)
    ensures r.None? <==> reply.Failure? || Strip(reply.value) == []
    ensures r.Some? ==> NoBackslash(r.value) && |r.value| == |Strip(reply.value)| - BackslashCount(Strip(reply.value))
  {
    match reply
    case Failure(_) => None
    case Success(raw) =>
      var t := Strip(raw);
      if t == [] then None else CleanRemovesBackslashes(t); Some(CleanOutput(t))
  }

  /** The reply an analysis caller receives is the cleaned reply exactly when the
      stripped reply is non-empty. */
  lemma AnalyzeDataValue(raw: string)
    ensures Strip(raw) != [] ==> AnalyzeDataReply(Success(raw)) == Some(CleanOutput(Strip(raw)))
    ensures Strip(raw) != [] && NoBackslash(Strip(raw)) ==> AnalyzeDataReply(Success(raw)) == Some(Strip(raw))
  {
    CleanUnchanged(Strip(raw));
  }

  /** Emptiness is tested before cleaning: a reply made of backslashes alone gives
      the empty text, not `None`. */
  lemma BackslashReplyGivesEmptyText()
    ensures AnalyzeDataReply(Success("\\\\")) == Some("")
  {
    var s := "\\\\";
    assert !IsSpace(s[0]) && !IsSpace(s[1]);
    assert Strip(s) == s;
  }

  /** `generate_sql` has no emptiness test: a blank reply gives `Some("")`. */
  lemma BlankSqlReplyGivesEmptyText()
    ensures GenerateSqlReply(Success(" \n")) == Some("")
    ensures AnalyzeDataReply(Success(" \n")) == None
  {
    var s := " \n";
    assert IsSpace(s[0]) && IsSpace(s[1]);
    assert LeadingSpaces(s[1..]) == 1;
    assert LeadingSpaces(s) == 2;
  }
}
