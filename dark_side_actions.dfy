/**
  The X-ray helpers for a company website (app/dark-side-actions.ts): the
  model's X-ray query is cleaned of code fences and quotes, and every failure
  is replaced by one fixed message per function.
*/
module DarkSideActions {
  import opened Wrappers
  import opened JsStrings
  import opened Actions

  const XrayFailedMessage := "Er is een fout opgetreden bij het genereren van de X-ray zoekopdracht."
  const AnalysisFailedMessage := "Er is een fout opgetreden bij het analyseren van de teampagina."

  const Fence := "```"

  /** The characters `\w` matches. */
  predicate IsWordChar(c: char) {
    ('A' <= c <= 'Z') || ('a' <= c <= 'z') || ('0' <= c <= '9') || c == '_'
  }

  /** The characters of the class `["'`]`. */
  predicate IsQuote(c: char) {
    c == '"' || c == '\'' || c == '`'
  }

  /** A language tag: a run of `\w` characters. */
  predicate IsWord(s: string) {
    forall k :: 0 <= k < |s| ==> IsWordChar(s[k])
  }

  /** The first index at or after `from` that is not a word character, or `|s|`. */
  function SkipWordChars(s: string, from: nat): (j: nat)
    requires from <= |s|
    decreases |s| - from
    ensures from <= j <= |s|
    ensures j < |s| ==> !IsWordChar(s[j])
    ensures IsWord(s[from..j])
  {
    if from == |s| || !IsWordChar(s[from]) then from else SkipWordChars(s, from + 1)
  }

  lemma {:induction false} SkipWordCharsAt(s: string, from: nat, j: nat)
    requires from <= j <= |s|
    requires forall k :: from <= k < j ==> IsWordChar(s[k])
    requires j == |s| || !IsWordChar(s[j])
    ensures SkipWordChars(s, from) == j
    decreases j - from
  {
    if from < j {
      SkipWordCharsAt(s, from + 1, j);
    }
  }

  /** `.replace(/^```[\w]*\n?/, "")`: an opening fence, the longest run of
      word characters after it (the language tag) and then at most one
      newline are cut from the front; text without the fence is kept. */
  function StripOpeningFence(s: string): (r: string)
    ensures |r| <= |s| && r == s[|s| - |r|..]
    ensures !(|s| >= 3 && s[..3] == Fence) ==> r == s
    ensures |s| >= 3 && s[..3] == Fence ==>
              var j := SkipWordChars(s, 3);
              IsWord(s[3..j]) && (j == |s| || !IsWordChar(s[j]))
              && r == (if j < |s| && s[j] == '\n' then s[j + 1..] else s[j..])
  {
    if |s| >= 3 && s[..3] == Fence then
      var j := SkipWordChars(s, 3);
      if j < |s| && s[j] == '\n' then s[j + 1..] else s[j..]
    else s
  }

  /** `.replace(/```$/, "")`: a closing fence is cut from the end. */
  function StripClosingFence(s: string): (r: string)
    ensures |r| <= |s| && r == s[..|r|]
    ensures !(|s| >= 3 && s[|s| - 3..] == Fence) ==> r == s
    ensures |s| >= 3 && s[|s| - 3..] == Fence ==> |r| == |s| - 3
  {
    if |s| >= 3 && s[|s| - 3..] == Fence then s[..|s| - 3] else s
  }

  /** `.replace(/^["'`]/, "")` */
  function StripLeadingQuote(s: string): (r: string)
    ensures |r| <= |s| && r == s[|s| - |r|..]
    ensures |s| - |r| <= 1
    ensures |s| - |r| == 1 <==> (|s| > 0 && IsQuote(s[0]))
  {
    if |s| > 0 && IsQuote(s[0]) then s[1..] else s
  }

  /** `.replace(/["'`]$/, "")` */
  function StripTrailingQuote(s: string): (r: string)
    ensures |r| <= |s| && r == s[..|r|]
    ensures |s| - |r| <= 1
    ensures |s| - |r| == 1 <==> (|s| > 0 && IsQuote(s[|s| - 1]))
  {
    if |s| > 0 && IsQuote(s[|s| - 1]) then s[..|s| - 1] else s
  }

  /** The fence and quote removal of `generateXrayQuery`, applied to text
      that has already been trimmed. */
  function StripFencesAndQuotes(t: string): (r: string)
    ensures |r| <= |t|
    ensures exists a :: SliceAt(t, r, a)
    ensures (t == [] || (!IsQuote(t[0]) && !IsQuote(t[|t| - 1]))) ==> r == t
  {
    ChainIsSlice(t);
    ChainKeepsUnquoted(t);
    StripTrailingQuote(StripLeadingQuote(StripClosingFence(StripOpeningFence(t))))
  }

  lemma ChainIsSlice(t: string)
    ensures exists a :: SliceAt(t, StripTrailingQuote(StripLeadingQuote(StripClosingFence(StripOpeningFence(t)))), a)
  {
    var f1 := StripOpeningFence(t);
    var f2 := StripClosingFence(f1);
    var q1 := StripLeadingQuote(f2);
    var r := StripTrailingQuote(q1);
    SlicesCompose(t, f1, f2, q1, r);
  }

  /** The cleaning chain of `generateXrayQuery`. The result is a contiguous
      piece of the trimmed model text, never longer than it, and it is the
      trimmed text itself when that neither starts nor ends with a quote or
      backtick (a fence starts and ends with a backtick). */
  function CleanXrayOutput(text: string): (r: string)
    ensures |r| <= |Trim(text)|
    ensures exists a :: SliceAt(Trim(text), r, a)
    ensures (Trim(text) == [] || (!IsQuote(Trim(text)[0]) && !IsQuote(Trim(text)[|Trim(text)| - 1])))
            ==> r == Trim(text)
  {
    StripFencesAndQuotes(Trim(text))
  }

  /** `r` is the piece of `t` that starts at index `a`. */
  ghost predicate SliceAt(t: string, r: string, a: nat) {
    a + |r| <= |t| && r == t[a..a + |r|]
  }

  /** Cutting from the front, then the back, then the front, then the back
      leaves a contiguous piece. */
  lemma SlicesCompose(t: string, f1: string, f2: string, q1: string, r: string)
    requires |f1| <= |t| && f1 == t[|t| - |f1|..]
    requires |f2| <= |f1| && f2 == f1[..|f2|]
    requires |q1| <= |f2| && q1 == f2[|f2| - |q1|..]
    requires |r| <= |q1| && r == q1[..|r|]
    ensures SliceAt(t, r, (|t| - |f1|) + (|f2| - |q1|))
  {
    var a := (|t| - |f1|) + (|f2| - |q1|);
    forall k | 0 <= k < |r| ensures r[k] == t[a + k] {
      calc {
        r[k];
        q1[k];
        f2[|f2| - |q1| + k];
        f1[|f2| - |q1| + k];
        t[a + k];
      }
    }
  }

  lemma OpeningFenceNeedsBacktick(t: string)
    ensures (t == [] || !IsQuote(t[0])) ==> StripOpeningFence(t) == t
  {
    if |t| >= 3 {
      assert t[..3][0] == t[0];
    }
  }

  lemma ClosingFenceNeedsBacktick(t: string)
    ensures (t == [] || !IsQuote(t[|t| - 1])) ==> StripClosingFence(t) == t
  {
    if |t| >= 3 {
      assert t[|t| - 3..][2] == t[|t| - 1];
    }
  }

  /** The chain leaves text alone that neither starts nor ends with a quote or backtick. */
  lemma ChainKeepsUnquoted(t: string)
    ensures (t == [] || (!IsQuote(t[0]) && !IsQuote(t[|t| - 1])))
            ==> StripTrailingQuote(StripLeadingQuote(StripClosingFence(StripOpeningFence(t)))) == t
  {
    OpeningFenceNeedsBacktick(t);
    ClosingFenceNeedsBacktick(t);
  }

  /** Nothing trims again after the fences go, so a newline just before the
      closing fence survives: "```sql\n" + q + "\n```" cleans to q + "\n". */
  lemma NewlineBeforeClosingFenceSurvives(lang: string, q: string)
    requires IsWord(lang)
    requires q == [] || !IsQuote(q[0])
    ensures CleanXrayOutput(Fence + lang + "\n" + q + "\n```") == q + "\n"
  {
    FencedStripped(lang, q);
    CleanFenced(Fence + lang + "\n" + q + "\n```", q + "\n");
  }

  lemma FencedStripped(lang: string, q: string)
    requires IsWord(lang)
    requires q == [] || !IsQuote(q[0])
    ensures StripFencesAndQuotes(Fence + lang + "\n" + q + "\n```") == q + "\n"
  {
    FencedOpeningStep(lang, q);
    FencedClosingStep(q);
    QuotesKept(q + "\n");
  }

  /** Text between backticks is not trimmed, so only the strip chain acts. */
  lemma CleanFenced(text: string, r: string)
    requires |text| > 0 && text[0] == '`' && text[|text| - 1] == '`'
    requires StripFencesAndQuotes(text) == r
    ensures CleanXrayOutput(text) == r
  {
    TrimKeepsFenced(text);
  }

  lemma FencedOpeningStep(lang: string, q: string)
    requires IsWord(lang)
    ensures StripOpeningFence(Fence + lang + "\n" + q + "\n```") == q + "\n```"
  {
    assert Fence + lang + "\n" + q + "\n```" == Fence + lang + "\n" + (q + "\n```");
    OpeningFenceWithTag(lang, q + "\n```");
  }

  lemma FencedClosingStep(q: string)
    ensures StripClosingFence(q + "\n```") == q + "\n"
  {
    assert q + "\n```" == (q + "\n") + Fence;
    ClosingFenceCut(q + "\n");
  }

  lemma QuotesKept(f: string)
    requires |f| > 0 && !IsQuote(f[0]) && !IsQuote(f[|f| - 1])
    ensures StripTrailingQuote(StripLeadingQuote(f)) == f
  {
  }

  lemma TrimKeepsFenced(text: string)
    requires |text| > 0 && text[0] == '`' && text[|text| - 1] == '`'
    ensures Trim(text) == text
  {
  }

  lemma OpeningFenceWithTag(lang: string, rest: string)
    requires IsWord(lang)
    ensures StripOpeningFence(Fence + lang + "\n" + rest) == rest
  {
    var s := Fence + lang + "\n" + rest;
    assert s[..3] == Fence;
    SkipWordCharsAt(s, 3, 3 + |lang|);
    assert s[3 + |lang|] == '\n';
    assert s[3 + |lang| + 1..] == rest;
  }

  lemma ClosingFenceCut(f: string)
    ensures StripClosingFence(f + Fence) == f
  {
    var s := f + Fence;
    assert s[|s| - 3..] == Fence;
    assert s[..|s| - 3] == f;
  }

  /** `generateXrayQuery`: the cleaned model text, or the fixed X-ray message. */
  function GenerateXrayQuery(reply: ModelReply): (r: Result<string, string>)
    ensures r.Success? <==> reply.Completion?
    ensures reply.Completion? ==> r.value == CleanXrayOutput(reply.text)
    ensures reply.ModelFailure? ==> r.error == XrayFailedMessage
  {
    match reply
    case Completion(text) => Success(CleanXrayOutput(text))
    case ModelFailure(_) => Failure(XrayFailedMessage)
  }

  /** `analyzeTeamContent`: the model text unchanged, or the fixed analysis message. */
  function AnalyzeTeamContent(reply: ModelReply): (r: Result<string, string>)
    ensures r.Success? <==> reply.Completion?
    ensures reply.Completion? ==> r.value == reply.text
    ensures reply.ModelFailure? ==> r.error == AnalysisFailedMessage
  {
    match reply
    case Completion(text) => Success(text)
    case ModelFailure(_) => Failure(AnalysisFailedMessage)
  }
}
