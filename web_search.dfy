/** The web searcher's query shaping and result post-processing. The HTTP
    requests and the regular expressions that pull result links out of the
    search page are inputs: the engine maps the query it is sent to the list of
    (href, link text) matches found in the answer, or to None when the request
    fails; page fetches map a URL to the page text left after tag removal, or
    to None when the request fails. */
module WebSearch {
  import opened Text
  import Config

  /** The terms whose presence in the query suppresses the hint suffix. */
  const GamingTerms: seq<string> := ["guide", "walkthrough", "tips", "how to", "strategy"]
  const HintSuffix: string := " guide walkthrough tips"

  predicate HasGamingTerm(query: string) {
    exists k :: 0 <= k < |GamingTerms| && Contains(Lower(query), GamingTerms[k])
  }

  /** The query with the game name in front of it, when there is a (non-empty) game name. */
  function WithGame(query: string, gameName: Option<string>): string {
    if Truthy(gameName) then gameName.value + " " + query else query
  }

  /** The query `search_game_hints` sends: the game name in front, and the hint
      suffix at the end exactly when the query itself (not the game name)
      contains none of the gaming terms. */
  function EnhanceQuery(query: string, gameName: Option<string>): string {
    var base := WithGame(query, gameName);
    if HasGamingTerm(query) then base else base + HintSuffix
  }

  /** The enhanced query starts with the game prefix and the query, and ends
      with the hint suffix exactly when the query has no gaming term. */
  lemma EnhanceQueryShape(query: string, gameName: Option<string>)
    ensures var r := EnhanceQuery(query, gameName);
            && (Truthy(gameName) ==> gameName.value + " " + query <= r)
            && (!Truthy(gameName) ==> query <= r)
            && (HasGamingTerm(query) ==> |r| == |WithGame(query, gameName)|)
            && (!HasGamingTerm(query) ==> |r| == |WithGame(query, gameName)| + |HintSuffix|
                                          && r[|r| - |HintSuffix|..] == HintSuffix)
  {
    var base := WithGame(query, gameName);
    if !HasGamingTerm(query) {
      var r := base + HintSuffix;
      assert r[|r| - |HintSuffix|..] == HintSuffix;
      assert base <= r;
    }
  }

  lemma LowerHintSuffix()
    ensures Lower(HintSuffix) == HintSuffix
    ensures Contains(HintSuffix, "guide")
  {
    assert "guide" <= HintSuffix[1..];
  }

  lemma {:induction false} HasGamingTermInRight(a: string, b: string)
    requires HasGamingTerm(b)
    ensures HasGamingTerm(a + b)
  {
    var k :| 0 <= k < |GamingTerms| && Contains(Lower(b), GamingTerms[k]);
    LowerAppend(a, b);
    ContainsInRight(Lower(a), Lower(b), GamingTerms[k]);
  }

  /** Whatever the inputs, the query sent to the engine mentions a gaming term. */
  lemma EnhancedHasGamingTerm(query: string, gameName: Option<string>)
    ensures HasGamingTerm(EnhanceQuery(query, gameName))
  {
    var base := WithGame(query, gameName);
    if HasGamingTerm(query) {
      if Truthy(gameName) {
        HasGamingTermInRight(gameName.value + " ", query);
        assert base == (gameName.value + " ") + query;
      }
    } else {
      LowerHintSuffix();
      assert GamingTerms[0] == "guide";
      assert HasGamingTerm(HintSuffix);
      HasGamingTermInRight(base, HintSuffix);
    }
  }

  /** Enhancing an already enhanced query (without a game name) changes nothing. */
  lemma EnhanceIdempotent(query: string)
    ensures EnhanceQuery(EnhanceQuery(query, None), None) == EnhanceQuery(query, None)
  {
    EnhancedHasGamingTerm(query, None);
  }

  /** The game name never influences the suffix: with any game name the
      enhanced query is the game prefix followed by what the query alone gives. */
  lemma SuffixIgnoresGame(query: string, gameName: Option<string>)
    ensures EnhanceQuery(query, gameName)
            == (if Truthy(gameName) then gameName.value + " " else "") + EnhanceQuery(query, None)
  {
    if Truthy(gameName) && !HasGamingTerm(query) {
      assert gameName.value + " " + query + HintSuffix == (gameName.value + " ") + (query + HintSuffix);
    }
  }

  /** The query `search_specific_game_guide` builds before searching. */
  function GuideQuery(gameName: string, specificQuery: string): string {
    gameName + " " + specificQuery + " guide walkthrough"
  }

  /** The guide query already says "guide", so it never gets the hint suffix,
      and `search_game_hints` puts the game name in front a second time. */
  lemma GuideQueryRepeatsGame(gameName: string, specificQuery: string)
    ensures EnhanceQuery(GuideQuery(gameName, specificQuery), Some(gameName))
            == if gameName == "" then GuideQuery(gameName, specificQuery)
               else gameName + " " + GuideQuery(gameName, specificQuery)
  {
    var q := GuideQuery(gameName, specificQuery);
    var tail := " guide walkthrough";
    assert Lower(tail) == tail;
    assert "guide" <= tail[1..];
    assert GamingTerms[0] == "guide";
    assert HasGamingTerm(tail);
    assert q == (gameName + " " + specificQuery) + tail;
    HasGamingTermInRight(gameName + " " + specificQuery, tail);
  }

  /** One `(href, link text)` match of the result-link pattern. */
  datatype Match = Match(href: string, text: string)

  datatype SearchResult = SearchResult(title: string, url: string, snippet: string)

  const RedirectPrefix: string := "/l/?uddg="
  const SnippetPrefix: string := "Search result: "

  /** `url.replace('/l/?uddg=', '').split('&')[0]` */
  function CleanUrl(href: string): (u: string)
    ensures '&' !in u
    ensures u <= RemoveAll(href, RedirectPrefix)
  {
    BeforeFirst(RemoveAll(href, RedirectPrefix), '&')
  }

  /** A direct link, without the redirect prefix and without `&`, is kept as it is. */
  lemma CleanUrlKeepsDirect(href: string)
    requires '&' !in href && !Contains(href, RedirectPrefix)
    ensures CleanUrl(href) == href
  {
    RemoveAllAbsent(href, RedirectPrefix);
    assert RemoveAll(href, RedirectPrefix) == href;
  }

  /** A redirect link loses its prefix and everything from the first `&`. */
  lemma CleanUrlRedirect(t: string)
    requires !Contains(t, RedirectPrefix)
    ensures CleanUrl(RedirectPrefix + t) == BeforeFirst(t, '&')
  {
    RemoveAllLeading(RedirectPrefix, t);
    RemoveAllAbsent(t, RedirectPrefix);
  }

  /** `re.sub(r'<[^>]*>', '', s)`: every `<` with a later `>` is dropped
      together with everything up to and including the first such `>`. */
  function StripTags(s: string): (r: string)
    ensures |r| <= |s|
    ensures '<' !in s ==> r == s
    decreases |s|
  {
    if s == [] then []
    else if s[0] == '<' && '>' in s[1..] then
      StripTags(s[1..][|BeforeFirst(s[1..], '>')| + 1..])
    else
      [s[0]] + StripTags(s[1..])
  }

  /** `re.sub(r'<[^>]*>', '', title).strip()` */
  function CleanTitle(text: string): (t: string)
    ensures IsStripped(t)
  {
    Strip(StripTags(text))
  }

  /** The filter `if url and title and not url.startswith('/')`. */
  predicate Usable(url: string, title: string) {
    url != "" && title != "" && url[0] != '/'
  }

  /** What every parsed result satisfies. */
  predicate WellFormed(r: SearchResult) {
    Usable(r.url, r.title) && '&' !in r.url && IsStripped(r.title) && r.snippet == SnippetPrefix + r.title
  }

  /** What one match contributes to the parsed results. */
  function Entry(m: Match): (e: seq<SearchResult>)
    ensures |e| <= 1
    ensures e != [] <==> Usable(CleanUrl(m.href), CleanTitle(m.text))
    ensures e != [] ==> e[0].url == CleanUrl(m.href) && e[0].title == CleanTitle(m.text)
    ensures e != [] ==> WellFormed(e[0])
  {
    var url := CleanUrl(m.href);
    var title := CleanTitle(m.text);
    if Usable(url, title) then [SearchResult(title, url, SnippetPrefix + title)] else []
  }

  /** The results the parsing loop collects from a list of matches, in match order. */
  function Parsed(ms: seq<Match>): (rs: seq<SearchResult>)
    ensures |rs| <= |ms|
  {
    if ms == [] then [] else Parsed(ms[..|ms| - 1]) + Entry(ms[|ms| - 1])
  }

  /** Every parsed result passes the filter, has a cleaned URL and a stripped title. */
  lemma {:induction false} ParsedWellFormed(ms: seq<Match>)
    ensures forall k :: 0 <= k < |Parsed(ms)| ==> WellFormed(Parsed(ms)[k])
  {
    if ms != [] {
      var prev, e := Parsed(ms[..|ms| - 1]), Entry(ms[|ms| - 1]);
      ParsedWellFormed(ms[..|ms| - 1]);
      assert Parsed(ms) == prev + e;
      assert forall k :: |prev| <= k < |prev + e| ==> (prev + e)[k] == e[k - |prev|];
    }
  }

  /** Parsing keeps match order: two lists of matches parse to the two result
      lists one after the other. */
  lemma {:induction false} ParsedConcat(a: seq<Match>, b: seq<Match>)
    ensures Parsed(a + b) == Parsed(a) + Parsed(b)
  {
    if b == [] {
      assert a + b == a;
    } else {
      var c, m := b[..|b| - 1], b[|b| - 1];
      assert (a + b)[..|a + b| - 1] == a + c;
      assert b[..|b| - 1] == c;
      ParsedConcat(a, c);
    }
  }

  /** Parsing splits around any match: what comes before it, what it
      contributes, and what comes after it. */
  lemma ParsedAround(pre: seq<Match>, m: Match, post: seq<Match>)
    ensures Parsed(pre + [m] + post) == Parsed(pre) + Entry(m) + Parsed(post)
  {
    ParsedConcat(pre + [m], post);
    assert Parsed(pre + [m]) == Parsed(pre) + Entry(m) by {
      assert (pre + [m])[..|pre|] == pre;
    }
  }

  lemma SplitAt<T>(s: seq<T>, i: nat)
    requires i < |s|
    ensures s == s[..i] + [s[i]] + s[i + 1..]
  {
    assert s[i..] == [s[i]] + s[i + 1..];
  }

  /** No usable match is lost: every match whose cleaned URL and title pass
      the filter gives a result carrying that URL and title. */
  lemma ParsedKeepsUsable(ms: seq<Match>, i: nat)
    requires i < |ms|
    ensures Usable(CleanUrl(ms[i].href), CleanTitle(ms[i].text)) ==>
              var t := CleanTitle(ms[i].text);
              SearchResult(t, CleanUrl(ms[i].href), SnippetPrefix + t) in Parsed(ms)
  {
    SplitAt(ms, i);
    ParsedAround(ms[..i], ms[i], ms[i + 1..]);
    if Usable(CleanUrl(ms[i].href), CleanTitle(ms[i].text)) {
      assert Parsed(ms)[|Parsed(ms[..i])|] == Entry(ms[i])[0];
    }
  }

  lemma ParsedStep(ms: seq<Match>, i: nat)
    requires i < |ms|
    ensures Parsed(ms[..i + 1]) == Parsed(ms[..i]) + Entry(ms[i])
  {
    assert ms[..i + 1][..i] == ms[..i];
  }

  /** `_parse_duckduckgo_results`, given the matches of the result-link pattern. */
  method ParseResults(matches: seq<Match>) returns (results: seq<SearchResult>)
    ensures results == Parsed(Take(matches, Config.MaxSearchResults))
    ensures |results| <= Config.MaxSearchResults
    ensures forall k :: 0 <= k < |results| ==> WellFormed(results[k])
  {
    var todo := Take(matches, Config.MaxSearchResults);
    results := [];
    for i := 0 to |todo|
      invariant results == Parsed(todo[..i])
    {
      ParsedStep(todo, i);
      var url := CleanUrl(todo[i].href);
      var title := CleanTitle(todo[i].text);
      assert Entry(todo[i]) == if Usable(url, title) then [SearchResult(title, url, SnippetPrefix + title)] else [];
      if url != "" && title != "" && url[0] != '/' {
        results := results + [SearchResult(title, url, SnippetPrefix + title)];
      }
    }
    assert todo[..|todo|] == todo;
    ParsedWellFormed(todo);
  }

  /** The search engine: the matches found in the answer to a query, or None when the request fails. */
  type Engine = string -> Option<seq<Match>>

  /** The results `search_game_hints` returns for a query: nothing when the
      request fails, otherwise the parsed results. */
  function Searched(query: string, gameName: Option<string>, engine: Engine): (rs: seq<SearchResult>)
    ensures |rs| <= Config.MaxSearchResults
    ensures engine(EnhanceQuery(query, gameName)).None? ==> rs == []
  {
    match engine(EnhanceQuery(query, gameName))
    case None => []
    case Some(ms) => Parsed(Take(ms, Config.MaxSearchResults))
  }

  /** Every searched result is well formed. */
  lemma SearchedWellFormed(query: string, gameName: Option<string>, engine: Engine)
    ensures forall k :: 0 <= k < |Searched(query, gameName, engine)| ==> WellFormed(Searched(query, gameName, engine)[k])
  {
    var answer := engine(EnhanceQuery(query, gameName));
    if answer.Some? {
      ParsedWellFormed(Take(answer.value, Config.MaxSearchResults));
    }
  }

  /** `_duckduckgo_search` */
  method DuckDuckGoSearch(query: string, engine: Engine) returns (results: seq<SearchResult>)
    ensures engine(query).None? ==> results == []
    ensures engine(query).Some? ==> results == Parsed(Take(engine(query).value, Config.MaxSearchResults))
  {
    var answer := engine(query);
    if answer.None? {
      return [];
    }
    var parsed := ParseResults(answer.value);
    results := Take(parsed, Config.MaxSearchResults);
  }

  /** `search_game_hints` */
  method SearchGameHints(query: string, gameName: Option<string>, engine: Engine) returns (results: seq<SearchResult>)
    ensures results == Searched(query, gameName, engine)
  {
    var enhanced := EnhanceQuery(query, gameName);
    results := DuckDuckGoSearch(enhanced, engine);
  }

  /** Page fetches: the text of the page at a URL after tag removal, or None when the request fails. */
  type Pages = string -> Option<string>

  const PageLimit: nat := 2000

  /** `get_page_content`: the first 2000 characters, stripped; None when the fetch failed. */
  function PageContent(fetched: Option<string>): (r: Option<string>)
    ensures r.None? <==> fetched.None?
    ensures r.Some? ==> |r.value| <= PageLimit && IsStripped(r.value)
  {
    if fetched.None? then None else Some(Strip(Take(fetched.value, PageLimit)))
  }

  /** How many results `search_specific_game_guide` looks at. */
  const GuideLimit: nat := 3
  const ExcerptLimit: nat := 500

  /** The relevance test: some word of the lowercased specific query occurs in the lowercased content. */
  predicate Relevant(content: string, specificQuery: string) {
    exists w :: w in Words(Lower(specificQuery)) && Contains(Lower(content), w)
  }

  function Bound(rs: seq<SearchResult>): nat {
    if |rs| < GuideLimit then |rs| else GuideLimit
  }

  /** Result `i` has non-empty page content that is relevant to the query. */
  predicate Hit(rs: seq<SearchResult>, i: nat, specificQuery: string, pages: Pages) {
    i < |rs| && Truthy(PageContent(pages(rs[i].url)))
    && Relevant(PageContent(pages(rs[i].url)).value, specificQuery)
  }

  /** The first hit among the first three results, at or after `i`. */
  function FirstHit(rs: seq<SearchResult>, specificQuery: string, pages: Pages, i: nat): (w: Option<nat>)
    ensures w.Some? ==> i <= w.value < Bound(rs) && Hit(rs, w.value, specificQuery, pages)
                        && forall j :: i <= j < w.value ==> !Hit(rs, j, specificQuery, pages)
    ensures w.None? ==> forall j :: i <= j < Bound(rs) ==> !Hit(rs, j, specificQuery, pages)
    decreases Bound(rs) - i
  {
    if i >= Bound(rs) then None
    else if Hit(rs, i, specificQuery, pages) then Some(i)
    else FirstHit(rs, specificQuery, pages, i + 1)
  }

  predicate NoHitBefore(rs: seq<SearchResult>, n: nat, specificQuery: string, pages: Pages) {
    forall j :: 0 <= j < n ==> !Hit(rs, j, specificQuery, pages)
  }

  lemma NoHitExtend(rs: seq<SearchResult>, n: nat, specificQuery: string, pages: Pages)
    requires NoHitBefore(rs, n, specificQuery, pages) && !Hit(rs, n, specificQuery, pages)
    ensures NoHitBefore(rs, n + 1, specificQuery, pages)
  {
  }

  function Titles(rs: seq<SearchResult>): (ts: seq<string>)
    ensures |ts| == |rs| && forall i :: 0 <= i < |rs| ==> ts[i] == rs[i].title
  {
    seq(|rs|, i requires 0 <= i < |rs| => rs[i].title)
  }

  const GuidesPrefix: string := "Found relevant guides: "

  /** The answer of `search_specific_game_guide` once the results are known:
      none without results; an excerpt of the first hit among the first three;
      otherwise the titles of the first three results. */
  function GuideAnswer(rs: seq<SearchResult>, specificQuery: string, pages: Pages): (r: Option<string>)
    ensures r.None? <==> rs == []
    ensures rs != [] && FirstHit(rs, specificQuery, pages, 0).None? ==>
              r.value == GuidesPrefix + Join(Titles(Take(rs, GuideLimit)), ", ")
              && |Titles(Take(rs, GuideLimit))| <= GuideLimit
    ensures FirstHit(rs, specificQuery, pages, 0).Some? ==>
              var i := FirstHit(rs, specificQuery, pages, 0).value;
              var content := PageContent(pages(rs[i].url)).value;
              r.value == "From " + rs[i].title + ": " + Take(content, ExcerptLimit) + "..."
              && |Take(content, ExcerptLimit)| <= ExcerptLimit
  {
    if rs == [] then None
    else match FirstHit(rs, specificQuery, pages, 0)
      case Some(i) =>
        var content := PageContent(pages(rs[i].url)).value;
        Some("From " + rs[i].title + ": " + Take(content, ExcerptLimit) + "...")
      case None =>
        Some(GuidesPrefix + Join(Titles(Take(rs, GuideLimit)), ", "))
  }

  /** `search_specific_game_guide` */
  method SearchSpecificGameGuide(gameName: string, specificQuery: string, engine: Engine, pages: Pages)
    returns (r: Option<string>)
    ensures r == GuideAnswer(Searched(GuideQuery(gameName, specificQuery), Some(gameName), engine), specificQuery, pages)
  {
    var query := GuideQuery(gameName, specificQuery);
    var results := SearchGameHints(query, Some(gameName), engine);
    if results == [] {
      return None;
    }
    var top := Take(results, GuideLimit);
    for i := 0 to |top|
      invariant NoHitBefore(results, i, specificQuery, pages)
    {
      assert top[i] == results[i];
      var content := PageContent(pages(top[i].url));
      if Truthy(content) {
        if Relevant(content.value, specificQuery) {
          assert Hit(results, i, specificQuery, pages);
          return Some("From " + top[i].title + ": " + Take(content.value, ExcerptLimit) + "...");
        }
      }
      NoHitExtend(results, i, specificQuery, pages);
    }
    var titles := Titles(top);
    r := Some(GuidesPrefix + Join(titles, ", "));
  }
}
