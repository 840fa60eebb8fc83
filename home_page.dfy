/**
  The home page (app/page.tsx): a free-text description of the wanted
  candidate becomes a Boolean search query for the chosen platform, with the
  search links for that query.

  The call of `GenerateBooleanAction` arrives as the way its promise settled.
  The clipboard, `window.open`, the timer that clears `copied` and the
  page-load animation flag are not modelled beyond the values they receive.
*/
module HomePage {
  import opened Wrappers
  import opened JsStrings
  import opened Actions
  import opened UriEncoding
  import opened SearchUrls

  const ErrorPrefix := "Fout: "
  const UnknownError := "Onbekende fout"

  class Home {
    var userInput: string
    var booleanQuery: string
    var explanation: string
    var isLoading: bool
    var platform: Platform
    var isError: bool
    var errorMessage: string
    var copied: bool
    /** Where the uploaded description came from. */
    var fileName: Option<string>

    /** An error never shows next to a query or an explanation. */
    predicate Valid()
      reads this
    {
      isError ==> booleanQuery == "" && explanation == ""
    }

    constructor()
      ensures Valid()
      ensures userInput == "" && booleanQuery == "" && explanation == "" && errorMessage == ""
      ensures !isLoading && platform == LinkedIn && !isError && !copied && fileName == None
    {
      userInput := "";
      booleanQuery := "";
      explanation := "";
      isLoading := false;
      platform := LinkedIn;
      isError := false;
      errorMessage := "";
      copied := false;
      fileName := None;
    }

    /** Typing in the description, or `handleSelectExample`. */
    method SetUserInput(value: string)
      requires Valid()
      modifies this
      ensures Valid() && userInput == value
      ensures booleanQuery == old(booleanQuery) && explanation == old(explanation) && isLoading == old(isLoading)
      ensures platform == old(platform) && isError == old(isError) && errorMessage == old(errorMessage)
      ensures copied == old(copied) && fileName == old(fileName)
    {
      userInput := value;
    }

    /** `handleUploadSuccess`: the uploaded text becomes the description. */
    method HandleUploadSuccess(content: string, source: string)
      requires Valid()
      modifies this
      ensures Valid() && userInput == content && fileName == Some(source)
      ensures booleanQuery == old(booleanQuery) && explanation == old(explanation) && isLoading == old(isLoading)
      ensures platform == old(platform) && isError == old(isError) && errorMessage == old(errorMessage)
      ensures copied == old(copied)
    {
      userInput := content;
      fileName := Some(source);
    }

    /** The platform tabs. */
    method SetPlatform(p: Platform)
      requires Valid()
      modifies this
      ensures Valid() && platform == p
      ensures userInput == old(userInput) && booleanQuery == old(booleanQuery) && explanation == old(explanation)
      ensures isLoading == old(isLoading) && isError == old(isError) && errorMessage == old(errorMessage)
      ensures copied == old(copied) && fileName == old(fileName)
    {
      platform := p;
    }

    /** `handleGenerate`, with `outcome` the settled call of
        `GenerateBooleanAction` on the request it returns. A blank description
        sends nothing and changes nothing. Otherwise a query response shows
        the query and its explanation (or none); an error response shows its
        message; a rejection shows a prefixed message; both errors clear the
        query and the explanation. */
    method HandleGenerate(outcome: Settled<QueryResponse>) returns (request: Option<(string, Platform)>)
      requires Valid()
      modifies this
      ensures Valid()
      ensures request.None? <==> Trim(old(userInput)) == ""
      ensures request.None? ==>
                booleanQuery == old(booleanQuery) && explanation == old(explanation) && isLoading == old(isLoading)
                && isError == old(isError) && errorMessage == old(errorMessage)
      ensures request.Some? ==> request.value == (old(userInput), old(platform)) && !isLoading
      ensures request.Some? && outcome.Resolved? && outcome.value.QueryOk? ==>
                !isError && booleanQuery == outcome.value.query
                && explanation == outcome.value.explanation.GetOr("") && errorMessage == old(errorMessage)
      ensures request.Some? && outcome.Resolved? && outcome.value.QueryError? ==>
                isError && errorMessage == outcome.value.message
      ensures request.Some? && outcome.Rejected? ==>
                isError && errorMessage == ErrorPrefix + outcome.errorMessage.GetOr(UnknownError)
      ensures userInput == old(userInput) && platform == old(platform)
      ensures copied == old(copied) && fileName == old(fileName)
    {
      if Trim(userInput) == "" {
        return None;
      }
      isLoading := true;
      booleanQuery := "";
      explanation := "";
      isError := false;
      request := Some((userInput, platform));
      match outcome {
        case Resolved(response) =>
          if response.QueryError? {
            isError := true;
            errorMessage := response.message;
            booleanQuery := "";
            explanation := "";
          } else {
            isError := false;
            booleanQuery := response.query;
            explanation := response.explanation.GetOr("");
          }
        case Rejected(message) =>
          isError := true;
          errorMessage := ErrorPrefix + message.GetOr(UnknownError);
          booleanQuery := "";
          explanation := "";
      }
      isLoading := false;
    }

    /** The generate button when the model itself answers with `reply`: the
        action never rejects, so the model's text is shown as the query
        without an explanation, or the action's fixed failure message is. */
    method GenerateWithModel(reply: ModelReply) returns (request: Option<(string, Platform)>)
      requires Valid()
      modifies this
      ensures Valid()
      ensures request.None? <==> Trim(old(userInput)) == ""
      ensures request.Some? && reply.Completion? ==> !isError && booleanQuery == reply.text && explanation == ""
      ensures request.Some? && reply.ModelFailure? ==>
                isError && errorMessage == GenerateFailedMessage && SearchLinks() == []
    {
      request := HandleGenerate(Resolved(GenerateBooleanAction(reply)));
    }

    /** `searchUrls`: no links without a query; otherwise the links of
        `getSearchUrl` as written for the platform: a Google X-ray search of
        the encoded query and, on LinkedIn, a Recruiter search whose keywords
        are the whole encoded query, site restriction included. An error
        always leaves the page without links. */
    function SearchLinks(): (links: seq<SearchLink>)
      reads this
      ensures booleanQuery == "" <==> links == []
      ensures booleanQuery != "" ==> links == GetSearchUrlAsWritten(platform.Name(), booleanQuery)
      ensures booleanQuery != "" ==>
                |links| == (if platform == LinkedIn then 2 else 1)
                && links[0] == SearchLink(GoogleName, GooglePrefix + EncodeUriComponent(booleanQuery))
      ensures booleanQuery != "" && platform == LinkedIn ==>
                links[1] == SearchLink(RecruiterName, RecruiterPrefix + EncodeUriComponent(booleanQuery))
      ensures Valid() && isError ==> links == []
    {
      if booleanQuery == "" then []
      else
        AsWrittenKeepsMarker(booleanQuery);
        GetSearchUrlAsWritten(platform.Name(), booleanQuery)
    }

    /** `copyToClipboard`: copies the generated query. */
    method CopyToClipboard() returns (clipboard: string)
      requires Valid()
      modifies this
      ensures Valid() && clipboard == old(booleanQuery) && copied
      ensures userInput == old(userInput) && booleanQuery == old(booleanQuery) && explanation == old(explanation)
      ensures isLoading == old(isLoading) && platform == old(platform) && isError == old(isError)
      ensures errorMessage == old(errorMessage) && fileName == old(fileName)
    {
      clipboard := booleanQuery;
      copied := true;
    }

    /** The timer callback two seconds after a copy. */
    method ClearCopied()
      requires Valid()
      modifies this
      ensures Valid() && !copied
      ensures userInput == old(userInput) && booleanQuery == old(booleanQuery) && explanation == old(explanation)
      ensures isLoading == old(isLoading) && platform == old(platform) && isError == old(isError)
      ensures errorMessage == old(errorMessage) && fileName == old(fileName)
    {
      copied := false;
    }

    /** `searchOnPlatform`: the URL to open, or nothing without a query. */
    method SearchOnPlatform(url: string) returns (opens: Option<string>)
      ensures opens.None? <==> booleanQuery == ""
      ensures opens.Some? ==> opens.value == url
    {
      if booleanQuery == "" {
        return None;
      }
      opens := Some(url);
    }
  }

  /** The description goes to the model as typed: surrounding whitespace
      only decides whether anything is sent, and is not trimmed away. */
  method PaddedInputSentAsTyped(ws: string, text: string) returns (request: Option<(string, Platform)>)
    requires AllWhitespace(ws) && text != [] && !IsWhitespace(text[0])
    ensures request == Some((ws + text + ws, LinkedIn))
  {
    var home := new Home();
    home.SetUserInput(ws + text + ws);
    assert (ws + text + ws)[|ws|] == text[0];
    request := home.HandleGenerate(Rejected(None));
  }

  /** A description of whitespace only never reaches the model. */
  method BlankInputSendsNothing(ws: string) returns (request: Option<(string, Platform)>)
    requires AllWhitespace(ws)
    ensures request == None
  {
    var home := new Home();
    home.SetUserInput(ws);
    request := home.HandleGenerate(Rejected(None));
  }
}
