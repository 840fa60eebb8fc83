# BLACKMAGIC recruiting assistant: a Dafny model of its core

BLACKMAGIC is a Next.js app for recruiters. It turns a free-text description of a
candidate into a Boolean search query with a hosted language model, offers
Google X-ray and LinkedIn Recruiter links for that query, and lets the user
refine, copy and save queries. It also scrapes Google for LinkedIn profiles,
mocks Facebook profile results, and runs a three-step X-ray wizard that derives
a query from a company domain and analyses pasted team pages.

This project models the logic of that app in Dafny:

- **Server actions**:
  - the query generators (`Actions`);
  - the X-ray cleaner and its error mapping (`DarkSideActions`);
  - the Google scraper's result extraction and pagination, the Facebook mock's relevance gate, ids and counts, and the `fetchResults` dispatch (`SearchActions`).
- **String helpers**:
  - the search-link builder (`SearchUrls`);
  - the JavaScript string built-ins the app relies on (`JsStrings`): `trim`, `indexOf`/`split`, `toLowerCase`, `split(/\s+/)`, decimal formatting;
  - `encodeURIComponent` (`UriEncoding`), written out as UTF-8 percent-encoding after section 19.2.6.4 of ECMA-262.
- **Saved searches**:
  - the stored list and its operations (`SavedSearchStore`);
  - the grouped and sorted view with its edit handlers (`SavedSearchesView`);
  - the save form (`SaveSearchForm`).
- **Client state machines**, one class per component, whose fields are the `useState` variables and whose methods are the handlers:
  - the X-ray wizard (`DarkSideWorkflow`);
  - the infinite-scroll results panel (`SearchResultsPanel`);
  - the editable query box (`EditableQuery`);
  - the home page (`HomePage`).

The model treats the language model, the network and `Math.random` as inputs:

- A model call is a `ModelReply`: its text or a failure.
- A server action as seen by the client is a `Settled` value: how its promise settled.
- A scraped Google page is a `GoogleReply`: the profile blocks it holds, or a failure.
- The random draws of the Facebook mock are a number `roll` in [0, 1) and a persona function.

Each asynchronous handler is modelled as one atomic step that receives the settled outcome of its call.

## Model

| member | source | states |
|---|---|---|
| Actions.GenerateBooleanAction | app/actions.ts:39-59 | the model text comes back unchanged as the query, with no explanation; any failure becomes the one fixed API_ERROR response |
| Actions.FineTuneQueryAction | app/actions.ts:61-96 | the same contract with the fine-tune failure message |
| JsStrings.Trim | app/dark-side-actions.ts:29 | `trim` removes only whitespace, only from the ends; it keeps a slice that neither starts nor ends with whitespace; the result is empty iff the text is all whitespace |
| JsStrings.BeforeFirst | app/search-actions.ts:62 | `split(sep)[0]` is the whole text when the separator does not occur; otherwise the prefix that ends exactly where the separator first occurs, with no earlier occurrence |
| JsStrings.AfterFirst | app/search-actions.ts:72-77 | `split(sep).slice(1).join(sep)` is empty when the separator does not occur; otherwise all the text after its first occurrence |
| JsStrings.CutBeforeSlash | app/search-actions.ts:62 | for a separator starting with '/', cutting at the first '/' gives the same text whether or not the text was first cut at the separator |
| JsStrings.IndexOfFrom | app/search-actions.ts:57 | the first occurrence at or after a position, or none at all |
| JsStrings.ToLower | app/search-actions.ts:137 | lower-casing keeps the length, leaves no upper-case ASCII letter, keeps every other character and moves each upper-case letter to its lower-case partner |
| JsStrings.ToLowerIdempotent | app/search-actions.ts:137 | lower-casing twice is lower-casing once |
| JsStrings.ToLowerOfLower | app/search-actions.ts:137 | text without upper-case letters is its own lower case |
| JsStrings.SplitWhitespace | app/search-actions.ts:137 | `split(/\s+/)` gives at least one token; no token holds whitespace; together the tokens are the text's non-whitespace characters in order |
| JsStrings.WordIsToken | app/search-actions.ts:137 | the split is maximal: every whole word of the text (whitespace or an end on both sides) is one of the tokens |
| JsStrings.TokenIsWord | app/search-actions.ts:137 | the split is sound: every non-empty token stands in the text as a whole word |
| JsStrings.SpacedNeverInToken | app/search-actions.ts:143-145 | a keyword that contains whitespace is never inside a whitespace-free token |
| JsStrings.NatToString | hooks/use-saved-searches.ts:45 | decimal formatting gives a non-empty string of digits, one digit exactly below 10 |
| JsStrings.NatToStringInjective | app/search-actions.ts:159 | different numbers format differently |
| JsStrings.SkipWhitespace | lib/search-urls.ts:12 | the `\s*` after the marker: the end of the whitespace run |
| UriEncoding.EncodeUriComponent | lib/search-urls.ts:2 | the result has only unreserved characters and '%', every '%' is followed by two upper-case hexadecimal digits, and the result is never shorter than the input |
| UriEncoding.PercentByteDecodes | lib/search-urls.ts:2 | reading the two digits of a byte's escape back gives the byte |
| UriEncoding.EncodeAppend | lib/search-urls.ts:2 | encoding works character by character: the encoding of a concatenation is the concatenation of the encodings |
| UriEncoding.EncodeUnreserved | lib/search-urls.ts:2 | text of unreserved characters is unchanged by encoding |
| UriEncoding.EncodedHasNoColonOrSlash | lib/search-urls.ts:2 | encoded text never holds ':' or '/' |
| SearchUrls.MarkerFrom | lib/search-urls.ts:12 | the first index where `site:linkedin.com/in` matches case-insensitively, or none |
| SearchUrls.StripMarker | lib/search-urls.ts:12 | text without a match is unchanged; otherwise the leftmost match and the whole whitespace run after it are cut out and the text on both sides is kept |
| SearchUrls.StripWithoutColon | lib/search-urls.ts:12 | text without ':' never matches the marker, so it is unchanged |
| SearchUrls.StripLeadingMarker | lib/search-urls.ts:12 | a query that starts with the marker in any letter case, followed by whitespace, is cut down to the rest |
| SearchUrls.GetSearchUrl | lib/search-urls.ts:1-23 | corrected builder: "linkedin" gives exactly two links and any other platform exactly one; the first is always the Google X-ray URL of the encoded query; the second is the Recruiter URL of the encoded query with the marker removed |
| SearchUrls.GetSearchUrlAsWritten | lib/search-urls.ts:1-23 | the builder as written: the Google link of the encoded query first, and for "linkedin" only a second Recruiter link whose keywords are the encoded query with the marker stripped from it |
| SearchUrls.AsWrittenKeepsMarker | lib/search-urls.ts:2-12 | as written, the Recruiter keywords are always the whole encoded query |
| SearchUrls.AsWrittenDiffersOnMarkedQuery | lib/search-urls.ts:12 | for every query that starts with the marker, the as-written Recruiter link differs from the intended one |
| SearchUrls.MarkedQueryExample | lib/search-urls.ts:12 | for "site:linkedin.com/in java", the intended keywords are "java" and the as-written keywords are the whole encoded query |
| DarkSideActions.SkipWordChars | app/dark-side-actions.ts:30 | the `[\w]*` run: the first non-word character at or after a position |
| DarkSideActions.StripOpeningFence | app/dark-side-actions.ts:30 | `^```[\w]*\n?` keeps text without a leading fence; otherwise it cuts the fence, the longest run of word characters after it and then one newline if there is one |
| DarkSideActions.StripClosingFence | app/dark-side-actions.ts:30 | `` ```$ `` cuts exactly three characters when the text ends with a fence, and nothing otherwise |
| DarkSideActions.StripLeadingQuote | app/dark-side-actions.ts:31 | removes one character, exactly when the text starts with `"`, `'` or a backtick |
| DarkSideActions.StripTrailingQuote | app/dark-side-actions.ts:31 | removes one character, exactly when the text ends with `"`, `'` or a backtick |
| DarkSideActions.StripFencesAndQuotes | app/dark-side-actions.ts:30-31 | the four replacements keep a contiguous slice of their input; text that neither starts nor ends with a quote character is unchanged |
| DarkSideActions.CleanXrayOutput | app/dark-side-actions.ts:29-31 | the cleaned text is a slice of the trimmed text and never longer than it; text whose trim has no quote character at either end comes back equal to its trim |
| DarkSideActions.OpeningFenceWithTag | app/dark-side-actions.ts:30 | an opening fence, a word-character language tag and a newline are removed together |
| DarkSideActions.NewlineBeforeClosingFenceSurvives | app/dark-side-actions.ts:29-31 | nothing trims again after the fences go, so the newline before a closing fence stays in the cleaned query |
| DarkSideActions.GenerateXrayQuery | app/dark-side-actions.ts:7-38 | success exactly when the model answers, with its cleaned text; any failure gives the fixed X-ray error message |
| DarkSideActions.AnalyzeTeamContent | app/dark-side-actions.ts:41-75 | success exactly when the model answers, with its text unchanged; any failure gives the fixed analysis error message |
| SearchActions.GoogleStart | app/search-actions.ts:26 | the offset is a multiple of ten, and dividing it by ten gives the page back |
| SearchActions.GooglePagesDistinct | app/search-actions.ts:26-29 | different pages give different Google URLs |
| SearchActions.ProfileId | app/search-actions.ts:62 | never empty: the text after the first "/in/" up to the next "/" when there is such text, and `result-<index>` exactly when there is no "/in/" or that text is empty |
| SearchActions.SecondField | app/search-actions.ts:62 | `split(sep)[1]` when the separator occurs: a prefix of the text after its first occurrence that holds no further separator |
| SearchActions.NoSepBeforeFirst | app/search-actions.ts:62 | the text before the first occurrence of a non-empty separator holds no separator |
| SearchActions.ProfileIdIsSplitChain | app/search-actions.ts:62 | the id is the literal chain `split("/in/")[1]?.split("/")[0] \|\| "result-<i>"` |
| SearchActions.ProfileIdOfCanonicalLink | app/search-actions.ts:62 | for `https://www.linkedin.com/in/<id>` followed by nothing or a path, the id is `<id>` |
| SearchActions.ProfileIdOfBareRoot | app/search-actions.ts:62 | a link that ends at "/in/" falls back to `result-<index>` |
| SearchActions.NameOf | app/search-actions.ts:69 | the name is a prefix of the heading and is empty only for an empty heading |
| SearchActions.TitleOf | app/search-actions.ts:72-77 | a heading with neither " - " nor " \| " has no title |
| SearchActions.NameWithoutDash | app/search-actions.ts:69-77 | without " - ", the name is the whole heading even when it holds " \| ", and the title is what follows the first " \| " |
| SearchActions.NameDashTitle | app/search-actions.ts:69-74 | with " - " not at the start, name + " - " + title rebuilds the heading |
| SearchActions.KeptResults | app/search-actions.ts:52-101 | the results of the first n blocks, never more than n |
| SearchActions.KeptResultsSound | app/search-actions.ts:57-59 | every kept result comes from a block whose link holds "linkedin.com/in/" |
| SearchActions.KeptResultsComplete | app/search-actions.ts:57-59 | every block whose link holds "linkedin.com/in/" gives a kept result |
| SearchActions.CollectGoogleResults | app/search-actions.ts:52-101 | the loop over the result blocks collects exactly the kept results, all LinkedIn profiles |
| SearchActions.FetchGoogleResults | app/search-actions.ts:17-117 | a failed or refused page gives no results and no next page; otherwise the kept results and whether a next-page link exists |
| SearchActions.Keywords | app/search-actions.ts:137 | at least one keyword, none holding whitespace, together holding all the non-whitespace text of the lower-cased query |
| SearchActions.WordIsKeyword | app/search-actions.ts:137 | every whole word of the lower-cased query is a keyword |
| SearchActions.KeywordIsWord | app/search-actions.ts:137 | every non-empty keyword is a whole word of the lower-cased query |
| SearchActions.RelevantIffListed | app/search-actions.ts:137-153 | the gate opens exactly when some keyword holds one of the listed words |
| SearchActions.EmptyHoldsNothing | app/search-actions.ts:137-145 | the empty keyword a leading or trailing space gives holds no listed word |
| SearchActions.ListedWordIsRelevant | app/search-actions.ts:137-153 | a query passes the gate when one of its whole words holds a listed job title, place or company |
| SearchActions.SeniorDeveloperIsRelevant | app/search-actions.ts:137-153 | "Senior Developer" passes the gate |
| SearchActions.DenHaagNeverMatches | app/search-actions.ts:137-145 | the location test gives the same answer with or without "den haag" in the list |
| SearchActions.NoListedWordIsIrrelevant | app/search-actions.ts:137-153 | a query none of whose whole words holds a listed job title, place or company fails the gate, padding included |
| SearchActions.ResultCount | app/search-actions.ts:156 | 3 to 5 results per page |
| SearchActions.FacebookIdInjective | app/search-actions.ts:159 | `fb-<page>-<i>` determines page and index |
| SearchActions.FetchFacebookResults | app/search-actions.ts:119-308 | an irrelevant query gives no results and no next page; a relevant one gives 3 to 5 results numbered from 0, with a next page exactly on pages 0 and 1 |
| SearchActions.FacebookIdsDistinct | app/search-actions.ts:158-159 | the ids on one page are pairwise distinct |
| SearchActions.FetchResults | app/search-actions.ts:310-328 | "linkedin" gives the kept results of the Google page, or nothing on a failure; "facebook" gives the mock's results, nothing for an irrelevant query, and 3 to 5 for a relevant one with a next page only on pages 0 and 1; each result is tagged with its platform; any other platform gives no results and no next page |
| SavedSearchStore.Overlay | hooks/use-saved-searches.ts:56-68 | the id is kept and the timestamp refreshed; each field takes the update when one is given and keeps its value otherwise |
| SavedSearchStore.UpdateById | hooks/use-saved-searches.ts:56-68 | length, order and every id are kept; records with another id are unchanged; records with the id are overlaid |
| SavedSearchStore.Without | hooks/use-saved-searches.ts:71-73 | a record is kept exactly when it was there and has another id |
| SavedSearchStore.WithoutAppend | hooks/use-saved-searches.ts:71-73 | deleting works piece by piece, so the kept records keep their order |
| SavedSearchStore.WithoutAbsent | hooks/use-saved-searches.ts:71-73 | deleting an id no record has changes nothing |
| SavedSearchStore.DeleteAfterUpdate | hooks/use-saved-searches.ts:56-73 | updating and then deleting an id is the same as only deleting it |
| SavedSearchStore.UpdateAbsent | hooks/use-saved-searches.ts:56-68 | an update of an id no record has changes nothing |
| SavedSearchStore.ByCategory | hooks/use-saved-searches.ts:82-84 | a record is returned exactly when it is in the list with that category |
| SavedSearchStore.InCategoriesAppend | hooks/use-saved-searches.ts:82-84 | filtering works piece by piece, so list order is kept |
| SavedSearchStore.FirstIndex | hooks/use-saved-searches.ts:76-79 | the index of the first record with a category |
| SavedSearchStore.Categories | hooks/use-saved-searches.ts:76-79 | no duplicates; a category is listed exactly when some record has it |
| SavedSearchStore.CategoriesInFirstOccurrenceOrder | hooks/use-saved-searches.ts:76-79 | categories come in the order of their first record, the insertion order of a `Set` |
| SavedSearchStore.CategoriesPartition | hooks/use-saved-searches.ts:76-84 | the groups of all categories together hold every record exactly once |
| SavedSearchStore.AddedCategoryListed | hooks/use-saved-searches.ts:43-53 | after an append the earlier categories stay in order, and the new category comes last if it is new |
| SavedSearchStore.Store.constructor | hooks/use-saved-searches.ts:14-40 | the store holds the list the load effect put in state |
| SavedSearchStore.Store.AddSavedSearch | hooks/use-saved-searches.ts:43-53 | exactly one record is appended, with id `search_<time>`, the given name and query, and "General" when no category is given; earlier records are unchanged |
| SavedSearchStore.Store.UpdateSavedSearch | hooks/use-saved-searches.ts:56-68 | the list becomes the update of the old list by id |
| SavedSearchStore.Store.DeleteSavedSearch | hooks/use-saved-searches.ts:71-73 | the list becomes the old list without the id |
| SavedSearchStore.Store.GetCategories | hooks/use-saved-searches.ts:76-79 | each present category exactly once |
| SavedSearchStore.Store.GetSearchesByCategory | hooks/use-saved-searches.ts:82-84 | exactly the records of that category |
| SavedSearchesView.LexLessIrreflexive | components/saved-searches.tsx:34 | the default sort order is irreflexive |
| SavedSearchesView.LexLessTransitive | components/saved-searches.tsx:34 | the default sort order is transitive |
| SavedSearchesView.LexLessTotal | components/saved-searches.tsx:34 | any two different strings are ordered |
| SavedSearchesView.Insert | components/saved-searches.tsx:34 | inserting into a sorted list keeps it strictly sorted and adds exactly the element |
| SavedSearchesView.SortStrings | components/saved-searches.tsx:34 | the sorted keys are strictly ascending and a permutation of the input |
| SavedSearchesView.SortedDistinct | components/saved-searches.tsx:34 | strictly sorted keys hold no duplicates |
| SavedSearchesView.ByCategoryAppend | components/saved-searches.tsx:26-31 | pushing a record extends only the group of its category |
| SavedSearchesView.GroupsStep | components/saved-searches.tsx:27-30 | one `forEach` step keeps the dictionary equal to the grouping of the records seen so far |
| SavedSearchesView.GroupByCategory | components/saved-searches.tsx:25-31 | corrected grouping: every category present has a key, and its group is exactly its records, in list order |
| SavedSearchesView.GroupsArePartition | components/saved-searches.tsx:25-31 | no group is empty; each record is in exactly the group of its category; every category present has a group |
| SavedSearchesView.SortedCategories | components/saved-searches.tsx:34 | strictly ascending, with exactly the categories present |
| SavedSearchesView.GroupByCategoryAsWritten | components/saved-searches.tsx:25-31 | the loop as written on a plain object throws exactly when some category is an inherited name; otherwise it groups correctly |
| SavedSearchesView.ConstructorCategoryCrashes | components/saved-searches.tsx:25-31 | a record in the category "constructor" makes the as-written loop throw, while the corrected one gives it its own group |
| SavedSearchesView.Render | components/saved-searches.tsx:25-60 | with the grouping as written: the render throws exactly when a record's category is an inherited key; otherwise an empty list shows the empty state and any other list the sorted categories, each with its group |
| SavedSearchesView.ConstructorCategoryPanel | components/saved-searches.tsx:25-60 | one record in the category "constructor" makes the whole panel throw |
| SavedSearchesView.Editor.constructor | components/saved-searches.tsx:20-22 | nothing is being edited |
| SavedSearchesView.Editor.HandleEdit | components/saved-searches.tsx:36-40 | the record's id is being edited, and its name and category fill the fields |
| SavedSearchesView.Editor.SetEditName | components/saved-searches.tsx:86 | only the name field changes |
| SavedSearchesView.Editor.SetEditCategory | components/saved-searches.tsx:97 | only the category field changes |
| SavedSearchesView.Editor.HandleSaveEdit | components/saved-searches.tsx:42-48 | sends only the name and the category for the id, and ends editing |
| SavedSearchesView.Editor.HandleCancelEdit | components/saved-searches.tsx:50-52 | ends editing and sends nothing |
| SavedSearchesView.EditUpdates | components/saved-searches.tsx:43-46 | an edit carries a name and a category and never a query |
| SavedSearchesView.UnchangedEditKeepsRecord | components/saved-searches.tsx:42-48 | saving an untouched edit changes only the record's timestamp |
| SavedSearchesView.SavedEditApplies | components/saved-searches.tsx:42-48 | a saved edit gives the record the new name and category and keeps its id and query |
| SaveSearchForm.FinalCategory | components/save-search-form.tsx:25 | the selected category outside new-category mode; in it, the trimmed new category, or "General" when that is blank |
| SaveSearchForm.NewCategoryIsClean | components/save-search-form.tsx:25 | a category made in new-category mode is never empty and never starts or ends with whitespace |
| SaveSearchForm.InitialCategory | components/save-search-form.tsx:18 | an existing category, the first one, when there are any; "General" when there are none |
| SaveSearchForm.Form.constructor | components/save-search-form.tsx:17-20 | an empty form on the initial category, in selection mode |
| SaveSearchForm.Form.CanSave | components/save-search-form.tsx:23 | saving is possible exactly when the name has a non-whitespace character |
| SaveSearchForm.Form.HandleSave | components/save-search-form.tsx:22-27 | a blank name saves nothing; otherwise the untrimmed name and the final category go to the caller |
| SaveSearchForm.Form.HandleAddCategory | components/save-search-form.tsx:29-31 | enters new-category mode and changes nothing else |
| SaveSearchForm.Form.CloseNewCategory | components/save-search-form.tsx:70 | returns to selection mode and changes nothing else |
| SaveSearchForm.Form.SetName | components/save-search-form.tsx:42 | only the name changes |
| SaveSearchForm.Form.SetCategory | components/save-search-form.tsx:80 | only the selected category changes |
| SaveSearchForm.Form.SetNewCategory | components/save-search-form.tsx:63 | only the new-category text changes |
| DarkSideWorkflow.ActionOutcome | app/dark-side-actions.ts:34-37 | a server action resolves exactly when its result is a success, and a failure rejects with the action's message |
| DarkSideWorkflow.Workflow.constructor | components/dark-side-workflow.tsx:28-34 | step 1, every text empty, not loading |
| DarkSideWorkflow.Workflow.SetDomain | components/dark-side-workflow.tsx:136 | only the domain changes |
| DarkSideWorkflow.Workflow.SetTeamPageContent | components/dark-side-workflow.tsx:249 | only the team-page text changes |
| DarkSideWorkflow.Workflow.HandleGenerateXrayQuery | components/dark-side-workflow.tsx:36-50 | an empty domain changes nothing; success stores the query and moves to step 2; failure keeps step and query; never left loading; the step stays in 1..3 |
| DarkSideWorkflow.Workflow.HandleAnalyzeTeamContent | components/dark-side-workflow.tsx:52-66 | empty content changes nothing; success stores the analysis and moves to step 3; failure keeps step and analysis; never left loading |
| DarkSideWorkflow.Workflow.CopyToClipboard | components/dark-side-workflow.tsx:68-72 | the given text is copied and `copied` is set; nothing else changes |
| DarkSideWorkflow.Workflow.ClearCopied | components/dark-side-workflow.tsx:71 | the timer clears `copied` and nothing else |
| DarkSideWorkflow.Workflow.OpenGoogleSearch | components/dark-side-workflow.tsx:74-77 | nothing opens without a query; otherwise the Google search of the encoded query, the first link `getSearchUrl` gives |
| DarkSideWorkflow.Workflow.ResetWorkflow | components/dark-side-workflow.tsx:79-85 | back to step 1 with domain, query, content and analysis empty; `copied` and loading untouched |
| SearchResultsPanel.Panel.constructor | components/search-results.tsx:30-34 | no results, page 0, more to come, no error |
| SearchResultsPanel.Panel.FetchMoreResults | components/search-results.tsx:39-61 | a no-op while loading or without a query; an empty first page sets the error and keeps results and page; otherwise the page is appended in order, `hasMore` is taken over and the page advances by one; a failure sets the error and keeps the results; never left loading; the record of the pages shown stays pages 0 to `page` - 1 when it was so before, and from any other state the fetch still runs |
| SearchResultsPanel.Panel.SetProps | components/search-results.tsx:22-28 | new props change only query, platform and open flag, in any state |
| SearchResultsPanel.Panel.ResetEffect | components/search-results.tsx:81-89 | corrected reset: a no-op when closed or without a query; with a fetch under way only the reset; otherwise it empties the results, asks for page 0 and shows that page, or the no-results or fetch error with an empty first page and more to come |
| SearchResultsPanel.Panel.ResetEffectAsWritten | components/search-results.tsx:81-89 | the reset as written: a no-op when closed or without a query; with a stale `loading` only the reset; otherwise it asks for the old page, sets the no-results error only when the old page was 0 and came back empty, files any other answer as page 0 and moves on to page 1, and sets the fetch error on a failure |
| SearchResultsPanel.StalePageExample | components/search-results.tsx:81-89 | after two pages of one query, opening another asks for page 2 as written and for page 0 as intended |
| SearchResultsPanel.StaleScrollContinues | components/search-results.tsx:39-89 | after the stale reset the next scroll asks for page 1 and shows page 2's results followed by page 1's |
| EditableQuery.QueryEditor.constructor | components/editable-query.tsx:17-22 | the copy starts as the query; a missing platform means LinkedIn |
| EditableQuery.QueryEditor.SyncQuery | components/editable-query.tsx:25-27 | the copy is reset to the prop exactly when the prop changes |
| EditableQuery.QueryEditor.StartEditing | components/editable-query.tsx:130 | enters edit mode and changes nothing else |
| EditableQuery.QueryEditor.SetEditedQuery | components/editable-query.tsx:72 | only the copy changes |
| EditableQuery.QueryEditor.HandleSaveEdit | components/editable-query.tsx:29-32 | the copy goes to the parent and edit mode ends |
| EditableQuery.QueryEditor.HandleCancelEdit | components/editable-query.tsx:34-37 | the copy is the query again, edit mode ends, and the parent hears nothing |
| EditableQuery.QueryEditor.CopyToClipboard | components/editable-query.tsx:39-43 | copies the committed query, not the copy |
| EditableQuery.QueryEditor.ClearCopied | components/editable-query.tsx:42 | the timer clears `copied` and nothing else |
| EditableQuery.QueryEditor.HandleFineTune | components/editable-query.tsx:45-65 | sends the copy and the platform; a refined query replaces the copy with no error shown; an error response shows its message and keeps the copy; a rejection shows "Fout bij fine-tuning: " and the message, or "Onbekende fout"; never left fine-tuning |
| EditableQuery.QueryEditor.FineTuneWithModel | components/editable-query.tsx:45-65 | with the model's own reply: its text becomes the copy, or the action's fixed failure message is shown |
| EditableQuery.CancelDiscardsEdit | components/editable-query.tsx:34-37 | editing and then cancelling shows the original query and leaves edit mode |
| EditableQuery.SaveRoundTrip | components/editable-query.tsx:25-32 | a saved edit that comes back as the new prop is both the query and the copy |
| EditableQuery.RefinedQueryAndProps | components/editable-query.tsx:25-27 | a refined copy survives a re-render with the same prop and is replaced by a different prop |
| HomePage.Home.constructor | app/page.tsx:14-21 | empty input, no query, LinkedIn, no error |
| HomePage.Home.SetUserInput | app/page.tsx:75-77 | only the description changes |
| HomePage.Home.HandleUploadSuccess | app/page.tsx:83-86 | the uploaded text becomes the description and its source is kept |
| HomePage.Home.SetPlatform | app/page.tsx:18 | only the platform changes |
| HomePage.Home.HandleGenerate | app/page.tsx:30-62 | a blank description sends nothing and changes nothing; otherwise the untrimmed description and the platform are sent; a query response shows the query and its explanation or ""; an error response shows its message; a rejection shows "Fout: " and the message, or "Onbekende fout"; errors empty the query and the explanation; never left loading; an error never shows beside a query |
| HomePage.Home.GenerateWithModel | app/page.tsx:30-62 | with the model's own reply: its text becomes the query with an empty explanation, or the fixed failure message shows and no link is offered |
| HomePage.Home.SearchLinks | app/page.tsx:80 | no links exactly when there is no query; otherwise the as-written links: the Google search of the encoded query and, for LinkedIn only, a Recruiter search whose keywords are the whole encoded query, site restriction included; an error shows no links |
| HomePage.Home.CopyToClipboard | app/page.tsx:64-68 | copies the generated query and sets `copied` |
| HomePage.Home.ClearCopied | app/page.tsx:67 | the timer clears `copied` and nothing else |
| HomePage.Home.SearchOnPlatform | app/page.tsx:70-73 | nothing opens without a query; otherwise the chosen link |
| HomePage.PaddedInputSentAsTyped | app/page.tsx:31-39 | a description with surrounding whitespace is sent with that whitespace |
| HomePage.BlankInputSendsNothing | app/page.tsx:31 | a whitespace-only description never reaches the model |

## Left out

- Language-model calls (`generateText`) are replaced by their replies (`ModelReply`) or by the way the server action settled (`Settled`). The prompts, model names and `console.error` logging are not modelled.
- The network is not modelled. This covers `fetch`, headers, the AbortController timeout and the cheerio selectors. A scraped Google page is a list of blocks (profile link, heading, snippet) plus the next-page flag. A refused response and a thrown error both become `GoogleFailed`.
- app/api/proxy/route.ts is not part of this model: it is scraping I/O plus a model call.
- SearchActions.FetchGoogleResults: the location regex and the image URL of a Google result are not modelled, and `SearchResult` has no `location` or `imageUrl` field.
- SearchActions.FetchFacebookResults: `Math.random` is reduced to its bounds.
  - `roll` stands for the draw that sets the count.
  - A persona function supplies the name, title and snippet of each mock result.
  - The randomised job, location, company and school texts are left out.
  - The `catch` is left out: in the model the mock body cannot throw.
- `localStorage` loading and saving, and JSON parsing, are not modelled. Each `Date.now()` reading is a parameter, and ids are not assumed to be unique.
- components/file-upload-textarea.tsx is browser file reading and a fetch to the proxy. Its only effect here is `HandleUploadSuccess`.
- Presentational components, JSX rendering, `alert`, the page-load animation flag and the IntersectionObserver scheduling are not modelled.
- The clipboard, `window.open` and `setTimeout` are reduced to the values they receive. `ClearCopied` is the timer callback.
- JsStrings.ToLower folds ASCII letters only. JavaScript's `toLowerCase` also maps a few non-ASCII characters onto ASCII ones: U+212A KELVIN SIGN becomes 'k' and U+0130 becomes "i" plus a combining dot. So a query such as "Rabobank" spelt with a Kelvin sign passes the Facebook gate in the app but not in SearchActions.IsRelevant.
- UriEncoding.EncodeUriComponent: a Dafny `char` is a Unicode scalar value, so the lone surrogates on which `encodeURIComponent` throws a `URIError` cannot occur in the model.
- SavedSearchesView.LexLess compares characters (code points), not UTF-16 code units. The two orders differ only between characters outside the Basic Multilingual Plane and those above U+E000.
- SavedSearchStore.Overlay: a JavaScript update object with a property explicitly set to `undefined` would blank the field. The model's `None` always keeps the old value.
- DarkSideWorkflow.Workflow.HandleGenerateXrayQuery: the handler receives the settled outcome. `ActionOutcome` and `DarkSideActions.GenerateXrayQuery` link that outcome to the model reply, but the two are not composed in one method.
- SearchResultsPanel.Panel.ResetEffectAsWritten: a fetch still in flight when the panel resets is not modelled; its late answer would be appended after the reset.
- Each asynchronous handler is one atomic step, so states in the middle of a call (such as `isLoading` while waiting) and interleaved clicks are not modelled.

## Findings

| source | as written | input that shows it | evidently intended | confidence | as-written member | corrected member |
|---|---|---|---|---|---|---|
| lib/search-urls.ts:2,12 | the `site:linkedin.com/in` marker is removed from the already-encoded query, in which ':' and '/' are escaped, so it never matches | query "site:linkedin.com/in java" with platform "linkedin" gives Recruiter keywords `site%3Alinkedin.com%2Fin%20java` | keywords "java": the marker is removed before encoding | high, not executed | SearchUrls.GetSearchUrlAsWritten, SearchUrls.AsWrittenDiffersOnMarkedQuery | SearchUrls.GetSearchUrl, SearchUrls.MarkedQueryExample |
| components/search-results.tsx:81-88 | the reset effect calls the `fetchMoreResults` of the current render, which still sees the old `page` (and `loading`), so it asks for the old page and files the answer as page 0 | scroll "java" through pages 0 and 1, then open the panel on "java developer": page 2 is requested | page 0 of the new query is requested after the reset | high, not executed | SearchResultsPanel.Panel.ResetEffectAsWritten, SearchResultsPanel.StalePageExample, SearchResultsPanel.StaleScrollContinues | SearchResultsPanel.Panel.ResetEffect |
| components/saved-searches.tsx:25-31 | grouping into a plain `{}` object: a category such as "constructor" or "__proto__" reads an inherited truthy value, so no array is created and `.push` throws | one saved search in the category "constructor" | every category gets its own group | medium, not executed | SavedSearchesView.GroupByCategoryAsWritten, SavedSearchesView.ConstructorCategoryCrashes | SavedSearchesView.GroupByCategory |
