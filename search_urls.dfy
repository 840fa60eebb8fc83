/**
  The links offered for a generated query (lib/search-urls.ts): a Google X-ray
  search for every platform and, for LinkedIn, also a LinkedIn Recruiter search.
*/
module SearchUrls {
  import opened Wrappers
  import opened JsStrings
  import opened UriEncoding

  datatype SearchLink = SearchLink(name: string, url: string)

  const GoogleName := "Google X-ray Search"
  const RecruiterName := "LinkedIn Recruiter (indien beschikbaar)"
  const GooglePrefix := "https://www.google.com/search?q="
  const RecruiterPrefix := "https://www.linkedin.com/talent/search?keywords="

  /** The site restriction an X-ray query starts with. */
  const Marker := "site:linkedin.com/in"

  /** The pattern `/site:linkedin\.com\/in/i` matches at index `i`. Under the
      `i` flag without `u`, a non-ASCII character never folds to an ASCII one,
      and the marker is all ASCII, so comparing the text with its ASCII
      letters lower-cased against the lower-case marker is exact. */
  predicate MarkerAt(s: string, i: nat) {
    i + |Marker| <= |s| && forall k :: 0 <= k < |Marker| ==> LowerChar(s[i + k]) == Marker[k]
  }

  /** The first index at or after `from` where the marker matches. */
  function MarkerFrom(s: string, from: nat): (r: Option<nat>)
    decreases |s| - from
    ensures r.Some? ==> from <= r.value && MarkerAt(s, r.value)
    ensures r.Some? ==> forall k :: from <= k < r.value ==> !MarkerAt(s, k)
    ensures r.None? ==> forall k :: from <= k ==> !MarkerAt(s, k)
  {
    if from + |Marker| > |s| then None
    else if MarkerAt(s, from) then Some(from)
    else MarkerFrom(s, from + 1)
  }

  /** `s.replace(/site:linkedin\.com\/in\s*\/i, "")`: without a match the text
      is kept; otherwise the leftmost match of the marker and the whole
      whitespace run right after it are cut out, and the text on either side
      is kept. */
  function StripMarker(s: string): (r: string)
    ensures MarkerFrom(s, 0).None? ==> r == s
    ensures MarkerFrom(s, 0).Some? ==>
              var i := MarkerFrom(s, 0).value;
              var j := SkipWhitespace(s, i + |Marker|);
              (forall k :: 0 <= k < i ==> !MarkerAt(s, k))
              && AllWhitespace(s[i + |Marker|..j]) && (j == |s| || !IsWhitespace(s[j]))
              && r == s[..i] + s[j..]
    ensures MarkerFrom(s, 0).Some? ==> |r| <= |s| - |Marker|
  {
    match MarkerFrom(s, 0)
    case None => s
    case Some(i) =>
      var j := SkipWhitespace(s, i + |Marker|);
      s[..i] + s[j..]
  }

  /** The marker holds a ':', so text without one is never changed. */
  lemma StripWithoutColon(s: string)
    requires forall k :: 0 <= k < |s| ==> s[k] != ':'
    ensures StripMarker(s) == s
  {
    forall k: nat ensures !MarkerAt(s, k) {
      NoMarkerWithoutColon(s, k);
    }
  }

  lemma NoMarkerWithoutColon(s: string, k: nat)
    requires forall k :: 0 <= k < |s| ==> s[k] != ':'
    ensures !MarkerAt(s, k)
  {
    assert Marker[4] == ':';
    if k + |Marker| <= |s| {
      assert LowerChar(s[k + 4]) != Marker[4];
    }
  }

  /** A query that starts with the marker (in any letter case), followed by
      whitespace and then `rest`, is stripped down to `rest`. */
  lemma StripLeadingMarker(m: string, ws: string, rest: string)
    requires |m| == |Marker| && MarkerAt(m, 0)
    requires AllWhitespace(ws)
    requires rest == [] || !IsWhitespace(rest[0])
    ensures StripMarker(m + ws + rest) == rest
  {
    var s := m + ws + rest;
    assert MarkerAt(s, 0) by {
      forall k | 0 <= k < |Marker| ensures LowerChar(s[k]) == Marker[k] {
        assert s[k] == m[k];
      }
    }
    var j := |Marker| + |ws|;
    assert s[|Marker|..j] == ws;
    assert j < |s| ==> s[j] == rest[0];
    SkipWhitespaceAt(s, |Marker|, j);
    assert s[j..] == rest;
  }

  function GoogleSearchUrl(query: string): string {
    GooglePrefix + EncodeUriComponent(query)
  }

  /** `getSearchUrl` as the function is evidently meant to work: the marker is
      cut from the query before it is encoded, so the Recruiter search gets the
      keywords without the site restriction. */
  function GetSearchUrl(platform: string, query: string): (links: seq<SearchLink>)
    ensures platform == "linkedin" ==> |links| == 2
    ensures platform != "linkedin" ==> |links| == 1
    ensures links[0] == SearchLink(GoogleName, GooglePrefix + EncodeUriComponent(query))
    ensures platform == "linkedin" ==>
              links[1] == SearchLink(RecruiterName, RecruiterPrefix + EncodeUriComponent(StripMarker(query)))
  {
    var google := SearchLink(GoogleName, GoogleSearchUrl(query));
    if platform == "linkedin" then
      [google, SearchLink(RecruiterName, RecruiterPrefix + EncodeUriComponent(StripMarker(query)))]
    else
      [google]
  }

  /** `getSearchUrl` as written: the marker is cut from the ENCODED query. */
  function GetSearchUrlAsWritten(platform: string, query: string): (links: seq<SearchLink>)
    ensures platform == "linkedin" ==> |links| == 2
    ensures platform != "linkedin" ==> |links| == 1
    ensures links[0] == SearchLink(GoogleName, GooglePrefix + EncodeUriComponent(query))
    ensures platform == "linkedin" ==>
              links[1] == SearchLink(RecruiterName, RecruiterPrefix + StripMarker(EncodeUriComponent(query)))
  {
    var encoded := EncodeUriComponent(query);
    var google := SearchLink(GoogleName, GooglePrefix + encoded);
    if platform == "linkedin" then
      [google, SearchLink(RecruiterName, RecruiterPrefix + StripMarker(encoded))]
    else
      [google]
  }

  /** As written, the Recruiter keywords are always the whole encoded query:
      encoding escapes ':' and '/', so the marker can never match. */
  lemma AsWrittenKeepsMarker(query: string)
    ensures GetSearchUrlAsWritten("linkedin", query)[1].url
            == RecruiterPrefix + EncodeUriComponent(query)
  {
    EncodedHasNoColonOrSlash(query);
    StripWithoutColon(EncodeUriComponent(query));
  }

  /** For every query that starts with the marker, the as-written Recruiter
      link differs from the intended one: its keywords are longer. */
  lemma AsWrittenDiffersOnMarkedQuery(m: string, ws: string, rest: string)
    requires |m| == |Marker| && MarkerAt(m, 0)
    requires AllWhitespace(ws)
    requires rest == [] || !IsWhitespace(rest[0])
    ensures GetSearchUrlAsWritten("linkedin", m + ws + rest)[1]
            != GetSearchUrl("linkedin", m + ws + rest)[1]
  {
    var q := m + ws + rest;
    AsWrittenKeepsMarker(q);
    StripLeadingMarker(m, ws, rest);
    EncodeAppend(m + ws, rest);
    var asWritten := RecruiterPrefix + EncodeUriComponent(q);
    var intended := RecruiterPrefix + EncodeUriComponent(rest);
    assert |asWritten| > |intended|;
  }

  /** The concrete case: for "site:linkedin.com/in java" the intended keywords
      are "java", while as written they are the whole encoded query. */
  lemma MarkedQueryExample()
    ensures GetSearchUrl("linkedin", "site:linkedin.com/in java")[1].url
            == RecruiterPrefix + "java"
    ensures GetSearchUrlAsWritten("linkedin", "site:linkedin.com/in java")[1].url
            == RecruiterPrefix + EncodeUriComponent("site:linkedin.com/in java")
  {
    var m := "site:linkedin.com/in";
    assert MarkerAt(m, 0);
    assert "site:linkedin.com/in java" == m + " " + "java";
    StripLeadingMarker(m, " ", "java");
    EncodeUnreserved("java");
    AsWrittenKeepsMarker("site:linkedin.com/in java");
  }
}
