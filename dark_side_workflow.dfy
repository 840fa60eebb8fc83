/**
  The three-step X-ray wizard (components/dark-side-workflow.tsx): a company
  domain gives an X-ray query (step 2), pasted team-page text gives an analysis
  (step 3), and a reset goes back to step 1.

  Each call of a server action arrives as the way its promise settled (see
  `ActionOutcome` for how a model reply settles); `alert`, the clipboard,
  `window.open` and the timer that clears `copied` are not modelled beyond the
  values they receive.
*/
module DarkSideWorkflow {
  import opened Wrappers
  import opened Actions
  import opened DarkSideActions
  import opened SearchUrls
  import opened UriEncoding

  /** How the promise of a server action settles for the client: a resolved
      string, or a rejection with the action's fixed message. */
  function ActionOutcome(r: Result<string, string>): (s: Settled<string>)
    ensures s.Resolved? <==> r.Success?
    ensures r.Success? ==> s.value == r.value
    ensures r.Failure? ==> s.errorMessage == Some(r.error)
  {
    match r
    case Success(v) => Resolved(v)
    case Failure(e) => Rejected(Some(e))
  }

  class Workflow {
    var step: nat
    var domain: string
    var isLoading: bool
    var xrayQuery: string
    var teamPageContent: string
    var teamAnalysis: string
    var copied: bool

    /** The wizard is always on one of its three steps. */
    predicate Valid()
      reads this
    {
      1 <= step <= 3
    }

    constructor()
      ensures Valid() && step == 1
      ensures domain == "" && xrayQuery == "" && teamPageContent == "" && teamAnalysis == ""
      ensures !isLoading && !copied
    {
      step := 1;
      domain := "";
      isLoading := false;
      xrayQuery := "";
      teamPageContent := "";
      teamAnalysis := "";
      copied := false;
    }

    method SetDomain(value: string)
      requires Valid()
      modifies this
      ensures Valid() && domain == value
      ensures step == old(step) && xrayQuery == old(xrayQuery) && teamPageContent == old(teamPageContent)
      ensures teamAnalysis == old(teamAnalysis) && isLoading == old(isLoading) && copied == old(copied)
    {
      domain := value;
    }

    method SetTeamPageContent(value: string)
      requires Valid()
      modifies this
      ensures Valid() && teamPageContent == value
      ensures step == old(step) && domain == old(domain) && xrayQuery == old(xrayQuery)
      ensures teamAnalysis == old(teamAnalysis) && isLoading == old(isLoading) && copied == old(copied)
    {
      teamPageContent := value;
    }

    /** `handleGenerateXrayQuery`, with `outcome` the settled call of
        `generateXrayQuery` for the domain: an empty domain changes nothing; a
        query moves to step 2; a rejection leaves step and query as they were. */
    method HandleGenerateXrayQuery(outcome: Settled<string>)
      requires Valid()
      modifies this
      ensures Valid()
      ensures old(domain) == "" ==> step == old(step) && xrayQuery == old(xrayQuery) && isLoading == old(isLoading)
      ensures old(domain) != "" && outcome.Resolved? ==> step == 2 && xrayQuery == outcome.value
      ensures old(domain) != "" && outcome.Rejected? ==> step == old(step) && xrayQuery == old(xrayQuery)
      ensures old(domain) != "" ==> !isLoading
      ensures domain == old(domain) && teamPageContent == old(teamPageContent)
      ensures teamAnalysis == old(teamAnalysis) && copied == old(copied)
    {
      if domain == "" {
        return;
      }
      isLoading := true;
      if outcome.Resolved? {
        xrayQuery := outcome.value;
        step := 2;
      }
      isLoading := false;
    }

    /** `handleAnalyzeTeamContent`: empty content changes nothing; an analysis
        moves to step 3; a rejection leaves step and analysis as they were. */
    method HandleAnalyzeTeamContent(outcome: Settled<string>)
      requires Valid()
      modifies this
      ensures Valid()
      ensures old(teamPageContent) == "" ==> step == old(step) && teamAnalysis == old(teamAnalysis) && isLoading == old(isLoading)
      ensures old(teamPageContent) != "" && outcome.Resolved? ==> step == 3 && teamAnalysis == outcome.value
      ensures old(teamPageContent) != "" && outcome.Rejected? ==> step == old(step) && teamAnalysis == old(teamAnalysis)
      ensures old(teamPageContent) != "" ==> !isLoading
      ensures domain == old(domain) && xrayQuery == old(xrayQuery) && teamPageContent == old(teamPageContent)
      ensures copied == old(copied)
    {
      if teamPageContent == "" {
        return;
      }
      isLoading := true;
      if outcome.Resolved? {
        teamAnalysis := outcome.value;
        step := 3;
      }
      isLoading := false;
    }

    /** `copyToClipboard`: the text handed to the clipboard, and the flag. */
    method CopyToClipboard(text: string) returns (clipboard: string)
      requires Valid()
      modifies this
      ensures Valid() && clipboard == text && copied
      ensures step == old(step) && domain == old(domain) && xrayQuery == old(xrayQuery)
      ensures teamPageContent == old(teamPageContent) && teamAnalysis == old(teamAnalysis) && isLoading == old(isLoading)
    {
      clipboard := text;
      copied := true;
    }

    /** The timer callback two seconds after a copy. */
    method ClearCopied()
      requires Valid()
      modifies this
      ensures Valid() && !copied
      ensures step == old(step) && domain == old(domain) && xrayQuery == old(xrayQuery)
      ensures teamPageContent == old(teamPageContent) && teamAnalysis == old(teamAnalysis) && isLoading == old(isLoading)
    {
      copied := false;
    }

    /** `openGoogleSearch`: the URL it opens, none for an empty query. */
    method OpenGoogleSearch() returns (url: Option<string>)
      ensures url.None? <==> xrayQuery == ""
      ensures url.Some? ==> url.value == GooglePrefix + EncodeUriComponent(xrayQuery)
      ensures url.Some? ==> url.value == GetSearchUrlAsWritten("linkedin", xrayQuery)[0].url
    {
      if xrayQuery == "" {
        return None;
      }
      return Some(GoogleSearchUrl(xrayQuery));
    }

    /** `resetWorkflow`: back to step 1 with every text cleared; `copied` and
        `isLoading` are left alone. */
    method ResetWorkflow()
      requires Valid()
      modifies this
      ensures Valid() && step == 1
      ensures domain == "" && xrayQuery == "" && teamPageContent == "" && teamAnalysis == ""
      ensures copied == old(copied) && isLoading == old(isLoading)
    {
      step := 1;
      domain := "";
      xrayQuery := "";
      teamPageContent := "";
      teamAnalysis := "";
    }
  }
}
