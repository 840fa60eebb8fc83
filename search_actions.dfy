/**
  The result fetchers behind the results panel (app/search-actions.ts).
  LinkedIn results come from a Google X-ray search page: every result block
  whose profile link points at "linkedin.com/in/" becomes a result, its id and
  name and job title cut out of the link and the heading. Facebook results are
  simulated: a query without a job, place or company keyword gets nothing, any
  other gets three to five numbered results.

  The network, the HTML parser and `Math.random` are not modelled: the fetched
  Google page arrives already split into blocks from a `fetch` parameter, the
  random roll and the random persona texts are parameters.
*/
module SearchActions {
  import opened Wrappers
  import opened JsStrings
  import opened UriEncoding

  /** One result card; the optional location and image are not modelled. */
  datatype SearchResult = SearchResult(
    id: string, name: string, title: string, snippet: string,
    profileUrl: string, platform: string)

  /** What the parser reads from one `div.g` block: the href of its LinkedIn
      link, the text of its heading and of its description ("" when absent). */
  datatype GoogleBlock = GoogleBlock(profileUrl: string, fullTitle: string, snippet: string)

  /** The outcome of requesting one Google page: the parsed blocks and whether a
      "next" link was present, or a failed request (a thrown error or a status
      that is not ok). */
  datatype GoogleReply = GooglePage(blocks: seq<GoogleBlock>, hasNext: bool) | GoogleFailed

  /** The random texts of one simulated Facebook result. */
  datatype Persona = Persona(name: string, title: string, snippet: string)

  const GoogleSearchPrefix := "https://www.google.com/search?q="
  const ProfileMark := "linkedin.com/in/"
  const InSep := "/in/"
  const FacebookProfilePrefix := "https://facebook.com/profile/"

  // ---------------------------------------------------------------- Google

  /** The `start` parameter of result page `page`: ten results per page. */
  function GoogleStart(page: nat): (start: nat)
    ensures start % 10 == 0 && start / 10 == page
  {
    page * 10
  }

  function GooglePageUrl(query: string, page: nat): string {
    GoogleSearchPrefix + EncodeUriComponent(query) + "&start=" + NatToString(GoogleStart(page))
  }

  /** Different pages of one query are different requests. */
  lemma GooglePagesDistinct(query: string, p1: nat, p2: nat)
    requires p1 != p2
    ensures GooglePageUrl(query, p1) != GooglePageUrl(query, p2)
  {
    var prefix := GoogleSearchPrefix + EncodeUriComponent(query) + "&start=";
    SamePrefix(prefix, NatToString(GoogleStart(p1)), NatToString(GoogleStart(p2)));
    if NatToString(GoogleStart(p1)) == NatToString(GoogleStart(p2)) {
      NatToStringInjective(GoogleStart(p1), GoogleStart(p2));
    }
  }

  /** The block filter: the link is non-empty and points at a profile. */
  predicate IsProfileLink(url: string) {
    url != [] && Contains(url, ProfileMark)
  }

  /** The fallback id of the block with index `i`. */
  function FallbackId(i: nat): string {
    "result-" + NatToString(i)
  }

  /** `profileUrl.split("/in/")[1]?.split("/")[0] || "result-<i>"`. The part
      between the first and the second "/in/" is cut at its first '/'; since
      "/in/" itself holds a '/', that is the text after the first "/in/" up to
      the next '/'. Empty text, or no "/in/" at all, gives the fallback. */
  function ProfileId(url: string, i: nat): (id: string)
    ensures id != []
    ensures Contains(url, InSep) && BeforeFirst(AfterFirst(url, InSep), "/") != [] ==>
              id == BeforeFirst(AfterFirst(url, InSep), "/")
    ensures !Contains(url, InSep) || BeforeFirst(AfterFirst(url, InSep), "/") == [] ==>
              id == FallbackId(i)
  {
    if !Contains(url, InSep) then FallbackId(i)
    else
      var id := BeforeFirst(AfterFirst(url, InSep), "/");
      if id == [] then FallbackId(i) else id
  }

  /** `s.split(sep)[1]` when `sep` occurs: the text after the first `sep`
      up to the second one, or up to the end; it holds no `sep`. */
  function SecondField(s: string, sep: string): (r: string)
    requires Contains(s, sep) && sep != []
    ensures |BeforeFirst(s, sep)| + |sep| + |r| <= |s|
    ensures r == s[|BeforeFirst(s, sep)| + |sep|..][..|r|]
    ensures !Contains(r, sep)
  {
    NoSepBeforeFirst(AfterFirst(s, sep), sep);
    BeforeFirst(AfterFirst(s, sep), sep)
  }

  /** The text before the first `sep` holds no `sep`. */
  lemma NoSepBeforeFirst(s: string, sep: string)
    requires sep != []
    ensures !Contains(BeforeFirst(s, sep), sep)
  {
    var r := BeforeFirst(s, sep);
    forall j: nat ensures !OccursAt(r, sep, j) {
      if j + |sep| <= |r| && Contains(s, sep) {
        assert j < |r|;
        assert !OccursAt(s, sep, j);
        assert r[j..j + |sep|] == s[j..j + |sep|];
      }
    }
  }

  /** `ProfileId` is the source's chain read literally: the id is
      `split("/in/")[1]?.split("/")[0]` when that is non-empty, and the
      fallback when there is no "/in/" (so `[1]` is undefined) or it is
      empty. */
  lemma ProfileIdIsSplitChain(url: string, i: nat)
    ensures ProfileId(url, i)
            == if Contains(url, InSep) && BeforeFirst(SecondField(url, InSep), "/") != []
               then BeforeFirst(SecondField(url, InSep), "/")
               else FallbackId(i)
  {
    if Contains(url, InSep) {
      CutBeforeSlash(AfterFirst(url, InSep), InSep);
    }
  }

  const LinkedInProfileRoot := "https://www.linkedin.com/in/"

  /** In a canonical profile link, the first "/in/" is the one before the id. */
  lemma FirstInSepOfRoot(s: string)
    requires |s| >= |LinkedInProfileRoot| && s[..|LinkedInProfileRoot|] == LinkedInProfileRoot
    ensures IndexOf(s, InSep) == Some(|LinkedInProfileRoot| - |InSep|)
  {
    var k := |LinkedInProfileRoot| - |InSep|;
    assert s[k..k + |InSep|] == LinkedInProfileRoot[k..];
    forall j | 0 <= j < k ensures !OccursAt(s, InSep, j) {
      assert s[j] == LinkedInProfileRoot[j];
      assert s[j + 1] == LinkedInProfileRoot[j + 1];
      assert s[j..j + |InSep|][0] == s[j] && s[j..j + |InSep|][1] == s[j + 1];
    }
    IndexOfAt(s, InSep, k);
  }

  /** A link "https://www.linkedin.com/in/<id>" optionally followed by a path
      starting with '/' yields `<id>`, whatever the block index. */
  lemma ProfileIdOfCanonicalLink(id: string, rest: string, i: nat)
    requires id != [] && forall k :: 0 <= k < |id| ==> id[k] != '/'
    requires rest == [] || rest[0] == '/'
    ensures ProfileId(LinkedInProfileRoot + id + rest, i) == id
  {
    var s := LinkedInProfileRoot + id + rest;
    assert s[..|LinkedInProfileRoot|] == LinkedInProfileRoot;
    FirstInSepOfRoot(s);
    ContainsAt(s, InSep, |LinkedInProfileRoot| - |InSep|);
    assert AfterFirst(s, InSep) == id + rest;
    if rest == [] {
      assert id + rest == id;
      NoCharNoSplit(id, '/');
    } else {
      SplitAtChar(id, rest, '/');
    }
  }

  /** A bare profile root has an empty id part, so the index decides. */
  lemma ProfileIdOfBareRoot(i: nat)
    ensures ProfileId(LinkedInProfileRoot, i) == FallbackId(i)
  {
    FirstInSepOfRoot(LinkedInProfileRoot);
    ContainsAt(LinkedInProfileRoot, InSep, |LinkedInProfileRoot| - |InSep|);
    assert AfterFirst(LinkedInProfileRoot, InSep) == [];
  }

  /** `fullTitle.split(" - ")[0] || fullTitle.split(" | ")[0] || fullTitle`. */
  function NameOf(fullTitle: string): (name: string)
    ensures |name| <= |fullTitle| && name == fullTitle[..|name|]
    ensures name == [] <==> fullTitle == []
  {
    var dash := BeforeFirst(fullTitle, " - ");
    if dash != [] then dash
    else
      var bar := BeforeFirst(fullTitle, " | ");
      if bar != [] then bar else fullTitle
  }

  /** The text after the first " - ", else after the first " | ", else "". */
  function TitleOf(fullTitle: string): (title: string)
    ensures !Contains(fullTitle, " - ") && !Contains(fullTitle, " | ") ==> title == []
  {
    if Contains(fullTitle, " - ") then AfterFirst(fullTitle, " - ")
    else if Contains(fullTitle, " | ") then AfterFirst(fullTitle, " | ")
    else []
  }

  /** Without " - " the name is the whole heading, even when it holds " | ",
      while the job title is what follows the first " | ". */
  lemma NameWithoutDash(fullTitle: string)
    requires !Contains(fullTitle, " - ")
    ensures NameOf(fullTitle) == fullTitle
    ensures TitleOf(fullTitle) == AfterFirst(fullTitle, " | ")
  {
  }

  /** A heading with " - " somewhere after its start splits into a name and a
      title that put back together give the heading. */
  lemma NameDashTitle(fullTitle: string)
    requires Contains(fullTitle, " - ") && !OccursAt(fullTitle, " - ", 0)
    ensures NameOf(fullTitle) + " - " + TitleOf(fullTitle) == fullTitle
  {
    BeforeFirstEmpty(fullTitle, " - ");
    BeforeSepAfter(fullTitle, " - ");
  }

  /** The result for the kept block with index `i` among all blocks. */
  function GoogleResult(b: GoogleBlock, i: nat): SearchResult {
    SearchResult(ProfileId(b.profileUrl, i), NameOf(b.fullTitle), TitleOf(b.fullTitle),
                 b.snippet, b.profileUrl, "linkedin")
  }

  /** The results of the first `n` blocks, in block order. */
  function KeptResults(blocks: seq<GoogleBlock>, n: nat): (rs: seq<SearchResult>)
    requires n <= |blocks|
    ensures |rs| <= n
  {
    if n == 0 then []
    else
      var i := n - 1;
      KeptResults(blocks, i) + (if IsProfileLink(blocks[i].profileUrl) then [GoogleResult(blocks[i], i)] else [])
  }

  /** Every result comes from a kept block, with that block's index. */
  lemma {:induction false} KeptResultsSound(blocks: seq<GoogleBlock>, n: nat, r: SearchResult)
    requires n <= |blocks|
    requires r in KeptResults(blocks, n)
    ensures exists i :: 0 <= i < n && IsProfileLink(blocks[i].profileUrl) && r == GoogleResult(blocks[i], i)
  {
    var i := n - 1;
    if r !in KeptResults(blocks, i) {
      assert IsProfileLink(blocks[i].profileUrl) && r == GoogleResult(blocks[i], i);
    } else {
      KeptResultsSound(blocks, i, r);
    }
  }

  /** Every kept block gives a result. */
  lemma {:induction false} KeptResultsComplete(blocks: seq<GoogleBlock>, n: nat, i: nat)
    requires i < n <= |blocks|
    requires IsProfileLink(blocks[i].profileUrl)
    ensures GoogleResult(blocks[i], i) in KeptResults(blocks, n)
  {
    var m := n - 1;
    var prev := KeptResults(blocks, m);
    var r := GoogleResult(blocks[i], i);
    if i < m {
      KeptResultsComplete(blocks, m, i);
      InPrefix(prev, KeptResults(blocks, n), r);
    } else {
      assert KeptResults(blocks, n) == prev + [r];
    }
  }

  lemma InPrefix(prev: seq<SearchResult>, next: seq<SearchResult>, r: SearchResult)
    requires r in prev && |prev| <= |next| && prev == next[..|prev|]
    ensures r in next
  {
  }

  /** The block loop: blocks without a profile link are skipped. */
  method CollectGoogleResults(blocks: seq<GoogleBlock>) returns (results: seq<SearchResult>)
    ensures results == KeptResults(blocks, |blocks|)
    ensures forall r :: r in results ==> IsProfileLink(r.profileUrl) && r.platform == "linkedin"
  {
    results := [];
    var i := 0;
    while i < |blocks|
      invariant i <= |blocks|
      invariant results == KeptResults(blocks, i)
    {
      var b := blocks[i];
      if b.profileUrl != [] && Contains(b.profileUrl, ProfileMark) {
        results := results + [GoogleResult(b, i)];
      }
      i := i + 1;
    }
    forall r | r in results ensures IsProfileLink(r.profileUrl) && r.platform == "linkedin" {
      KeptResultsSound(blocks, |blocks|, r);
    }
  }

  /** `fetchGoogleResults`: request the page, keep the profile blocks; a failed
      request gives no results and no next page. */
  method FetchGoogleResults(query: string, page: nat, fetch: string -> GoogleReply)
    returns (results: seq<SearchResult>, hasMore: bool)
    ensures fetch(GooglePageUrl(query, page)).GoogleFailed? ==> results == [] && !hasMore
    ensures fetch(GooglePageUrl(query, page)).GooglePage? ==>
              var reply := fetch(GooglePageUrl(query, page));
              results == KeptResults(reply.blocks, |reply.blocks|) && hasMore == reply.hasNext
  {
    var reply := fetch(GooglePageUrl(query, page));
    match reply
    case GoogleFailed =>
      results, hasMore := [], false;
    case GooglePage(blocks, hasNext) =>
      results := CollectGoogleResults(blocks);
      hasMore := hasNext;
  }

  // -------------------------------------------------------------- Facebook

  const JobTitleKeywords := ["engineer", "developer", "manager", "designer", "verpleegkundige", "arts", "consultant"]
  const LocationKeywords := ["amsterdam", "rotterdam", "utrecht", "den haag", "eindhoven", "nederland"]
  const CompanyKeywords := ["google", "microsoft", "philips", "ing", "abn", "rabobank", "albert", "heijn"]

  /** `query.toLowerCase().split(/\s+/)`: whitespace-free pieces that
      together hold all the non-whitespace text of the lower-cased query
      (`WordIsKeyword` shows each whole word is one of them). */
  function Keywords(query: string): (ks: seq<string>)
    ensures |ks| >= 1 && forall k :: k in ks ==> NoWhitespace(k)
    ensures Concat(ks) == NonWhitespace(ToLower(query))
  {
    SplitWhitespace(ToLower(query))
  }

  /** `keywords.some((k) => words.some((w) => k.includes(w)))`. */
  predicate MatchesAny(keywords: seq<string>, words: seq<string>) {
    exists k, w :: k in keywords && w in words && Contains(k, w)
  }

  /** The relevance gate of the simulated Facebook search. */
  predicate IsRelevant(query: string) {
    var ks := Keywords(query);
    MatchesAny(ks, JobTitleKeywords) || MatchesAny(ks, LocationKeywords) || MatchesAny(ks, CompanyKeywords)
  }

  /** "den haag" holds a space, so no token ever matches it: the place test
      behaves as if the keyword were not in the list. */
  lemma DenHaagNeverMatches(query: string)
    ensures MatchesAny(Keywords(query), LocationKeywords)
            <==> MatchesAny(Keywords(query), ["amsterdam", "rotterdam", "utrecht", "eindhoven", "nederland"])
  {
    var ks := Keywords(query);
    var denHaag := "den haag";
    assert IsWhitespace(denHaag[3]);
    forall k | k in ks ensures !Contains(k, denHaag) {
      SpacedNeverInToken(k, denHaag);
    }
  }

  /** Every whole word of the lower-cased query is one of its keywords. */
  lemma WordIsKeyword(query: string, a: string, w: string, b: string)
    requires ToLower(query) == a + w + b && w != [] && NoWhitespace(w)
    requires a == [] || IsWhitespace(a[|a| - 1])
    requires b == [] || IsWhitespace(b[0])
    ensures w in Keywords(query)
  {
    WordIsToken(ToLower(query), a, w, b);
  }

  /** The gate lets a query through as soon as one of its whole words holds
      one of the listed job titles, places or companies. */
  lemma ListedWordIsRelevant(query: string, a: string, w: string, b: string, listed: string)
    requires ToLower(query) == a + w + b && w != [] && NoWhitespace(w)
    requires a == [] || IsWhitespace(a[|a| - 1])
    requires b == [] || IsWhitespace(b[0])
    requires listed in JobTitleKeywords || listed in LocationKeywords || listed in CompanyKeywords
    requires Contains(w, listed)
    ensures IsRelevant(query)
  {
    WordIsKeyword(query, a, w, b);
  }

  /** The concrete case: "Senior Developer" passes the gate through its
      second word, whatever the letter case. */
  lemma SeniorDeveloperIsRelevant()
    ensures IsRelevant("Senior Developer")
  {
    var low := "senior developer";
    assert ToLower("Senior Developer") == low;
    assert low == "senior " + "developer" + "";
    assert OccursAt("developer", "developer", 0);
    ContainsAt("developer", "developer", 0);
    ListedWordIsRelevant("Senior Developer", "senior ", "developer", "", "developer");
  }

  /** Every non-empty keyword is a whole word of the lower-cased query. */
  lemma KeywordIsWord(query: string, k: string)
    requires k in Keywords(query) && k != []
    ensures exists i: nat :: WordAt(ToLower(query), i, k)
  {
    TokenIsWord(ToLower(query), k);
  }

  /** Every listed job title, place and company. */
  const Listed := JobTitleKeywords + LocationKeywords + CompanyKeywords

  /** `w` holds one of the listed words. */
  predicate HoldsListed(w: string) {
    exists l :: l in Listed && Contains(w, l)
  }

  /** The gate is exactly "some keyword holds a listed word". */
  lemma RelevantIffListed(query: string)
    ensures IsRelevant(query) <==> exists k :: k in Keywords(query) && HoldsListed(k)
  {
  }

  /** An empty keyword holds none of the listed words. */
  lemma EmptyHoldsNothing()
    ensures !HoldsListed([])
  {
    forall l | l in Listed ensures !Contains([], l) {
      assert l != [];
    }
  }

  /** The gate shuts on a query none of whose whole words holds a listed job
      title, place or company. */
  lemma NoListedWordIsIrrelevant(query: string)
    requires forall i: nat, w :: WordAt(ToLower(query), i, w) && w != [] && NoWhitespace(w) ==> !HoldsListed(w)
    ensures !IsRelevant(query)
  {
    var ks := Keywords(query);
    forall k | k in ks ensures !HoldsListed(k) {
      if k == [] {
        EmptyHoldsNothing();
      } else {
        KeywordIsWord(query, k);
        var i: nat :| WordAt(ToLower(query), i, k);
      }
    }
    RelevantIffListed(query);
  }

  /** `3 + Math.floor(Math.random() * 3)` for a roll in [0, 1). */
  function ResultCount(roll: real): (count: nat)
    requires 0.0 <= roll < 1.0
    ensures 3 <= count <= 5
  {
    3 + (roll * 3.0).Floor
  }

  function FacebookId(page: nat, i: nat): string {
    "fb-" + NatToString(page) + "-" + NatToString(i)
  }

  /** Digits hold no '-', so the id can be read back: different positions give
      different ids. */
  lemma FacebookIdInjective(p1: nat, i1: nat, p2: nat, i2: nat)
    requires FacebookId(p1, i1) == FacebookId(p2, i2)
    ensures p1 == p2 && i1 == i2
  {
    var a, c := NatToString(p1), NatToString(p2);
    var b, d := NatToString(i1), NatToString(i2);
    SamePrefix("fb-", a + "-" + b, c + "-" + d);
    assert "fb-" + a + "-" + b == "fb-" + (a + "-" + b);
    assert "fb-" + c + "-" + d == "fb-" + (c + "-" + d);
    DashSplit(a, b, c, d);
    NatToStringInjective(p1, p2);
    NatToStringInjective(i1, i2);
  }

  lemma DashSplit(a: string, b: string, c: string, d: string)
    requires forall k :: 0 <= k < |a| ==> a[k] != '-'
    requires forall k :: 0 <= k < |c| ==> c[k] != '-'
    requires a + "-" + b == c + "-" + d
    ensures a == c && b == d
  {
    assert a + "-" + b == a + ("-" + b);
    assert c + "-" + d == c + ("-" + d);
    SplitAtChar(a, "-" + b, '-');
    SplitAtChar(c, "-" + d, '-');
  }

  function FacebookResult(page: nat, i: nat, p: Persona): SearchResult {
    var id := FacebookId(page, i);
    SearchResult(id, p.name, p.title, p.snippet, FacebookProfilePrefix + id, "facebook")
  }

  /** `fetchFacebookResults`: nothing for an irrelevant query; otherwise 3 to 5
      results numbered by page and position, and more pages while `page < 2`. */
  method FetchFacebookResults(query: string, page: nat, roll: real, persona: nat -> Persona)
    returns (results: seq<SearchResult>, hasMore: bool)
    requires 0.0 <= roll < 1.0
    ensures !IsRelevant(query) ==> results == [] && !hasMore
    ensures IsRelevant(query) ==> |results| == ResultCount(roll) && 3 <= |results| <= 5
    ensures IsRelevant(query) ==> hasMore == (page < 2)
    ensures forall i :: 0 <= i < |results| ==> results[i] == FacebookResult(page, i, persona(i))
  {
    if !IsRelevant(query) {
      return [], false;
    }
    var count := ResultCount(roll);
    results := [];
    var i := 0;
    while i < count
      invariant i <= count && |results| == i
      invariant forall j :: 0 <= j < i ==> results[j] == FacebookResult(page, j, persona(j))
    {
      results := results + [FacebookResult(page, i, persona(i))];
      i := i + 1;
    }
    hasMore := page < 2;
  }

  /** The ids of one Facebook page are pairwise distinct. */
  lemma FacebookIdsDistinct(page: nat, persona: nat -> Persona, results: seq<SearchResult>)
    requires forall i :: 0 <= i < |results| ==> results[i] == FacebookResult(page, i, persona(i))
    ensures forall i, j :: 0 <= i < j < |results| ==> results[i].id != results[j].id
  {
    forall i, j | 0 <= i < j < |results| ensures results[i].id != results[j].id {
      if results[i].id == results[j].id {
        FacebookIdInjective(page, i, page, j);
      }
    }
  }

  // -------------------------------------------------------------- dispatch

  /** `fetchResults`: LinkedIn goes to Google, Facebook to the simulation, and
      any other platform gets nothing. */
  method FetchResults(query: string, platform: string, page: nat,
                      fetch: string -> GoogleReply, roll: real, persona: nat -> Persona)
    returns (results: seq<SearchResult>, hasMore: bool)
    requires 0.0 <= roll < 1.0
    ensures platform == "linkedin" ==> forall r :: r in results ==> r.platform == "linkedin"
    ensures platform == "linkedin" && fetch(GooglePageUrl(query, page)).GooglePage? ==>
              var reply := fetch(GooglePageUrl(query, page));
              results == KeptResults(reply.blocks, |reply.blocks|) && hasMore == reply.hasNext
    ensures platform == "linkedin" && fetch(GooglePageUrl(query, page)).GoogleFailed? ==>
              results == [] && !hasMore
    ensures platform == "facebook" ==> forall r :: r in results ==> r.platform == "facebook"
    ensures platform == "facebook" ==>
              forall i :: 0 <= i < |results| ==> results[i] == FacebookResult(page, i, persona(i))
    ensures platform == "facebook" && IsRelevant(query) ==>
              |results| == ResultCount(roll) && 3 <= |results| <= 5 && hasMore == (page < 2)
    ensures platform == "facebook" && !IsRelevant(query) ==> results == [] && !hasMore
    ensures platform != "linkedin" && platform != "facebook" ==> results == [] && !hasMore
  {
    if platform == "linkedin" {
      results, hasMore := FetchGoogleResults(query, page, fetch);
      forall r | r in results ensures r.platform == "linkedin" {
        if fetch(GooglePageUrl(query, page)).GooglePage? {
          var blocks := fetch(GooglePageUrl(query, page)).blocks;
          KeptResultsSound(blocks, |blocks|, r);
        }
      }
    } else if platform == "facebook" {
      results, hasMore := FetchFacebookResults(query, page, roll, persona);
    } else {
      results, hasMore := [], false;
    }
  }
}
