/** The backend server's request handling: the `/query` fallback chain, the
    `/screenshot` reply, and the game-context bookkeeping of the automatic
    screenshot analysis. The language model is an input: whether it is
    configured, and what an analysis call returned (None when it failed). */
module Server {
  import opened Text
  import opened Screenshots
  import opened WebSearch
  import Config

  datatype Body = Answer(response: string) | Notice(message: string) | Failure(error: string)

  /** An HTTP status and the JSON body sent with it. */
  datatype Reply = Reply(status: nat, body: Body)

  /** The JSON body of a `/query` request as the handler reads it. `Unreadable`
      stands for a body that makes the handler raise before the query is known
      (no JSON object, or a `query` that is not a string), with the text of the
      exception; `Json(None)` is an object without a `query` key. */
  datatype QueryRequest = Unreadable(reason: string) | Json(query: Option<string>)

  const EmptyQueryError: string := "Empty query"
  const HelpfulPrefix: string := "Found helpful information:\n\n"
  const ResourcesPrefix: string := "Found these resources:\n"
  const Bullet: string := "\U{2022} "
  const NotFoundMessage: string :=
    "Sorry, I couldn't find specific information for your query. Try rephrasing your question."
  const UnavailableMessage: string :=
    "I'm unable to process your request right now. Please check your internet connection and API keys."
  const CapturedMessage: string := "Screenshot captured successfully"
  const CaptureFailedError: string := "Failed to capture screenshot"
  const ContentLimit: nat := 800
  const ResourceLimit: nat := 3

  /** `data.get('query', '').strip()` */
  function QueryText(request: QueryRequest): (t: string)
    requires request.Json?
    ensures IsStripped(t)
    ensures request.query.None? ==> t == ""
  {
    Strip(if request.query.Some? then request.query.value else "")
  }

  /** One line per result: a bullet and the title. */
  function Bullets(rs: seq<SearchResult>): (lines: seq<string>)
    ensures |lines| == |rs|
    ensures forall i :: 0 <= i < |rs| ==> lines[i] == Bullet + rs[i].title
  {
    seq(|rs|, i requires 0 <= i < |rs| => Bullet + rs[i].title)
  }

  /** The answer the web-search block produces; never empty. */
  function WebAnswer(results: seq<SearchResult>, pages: Pages): (a: string)
    ensures a != ""
    ensures results == [] ==> a == NotFoundMessage
  {
    if results != [] then
      var content := PageContent(pages(results[0].url));
      if Truthy(content) then HelpfulPrefix + Take(content.value, ContentLimit) + "..."
      else ResourcesPrefix + Join(Bullets(Take(results, ResourceLimit)), "\n")
    else NotFoundMessage
  }

  /** The two answers built from search results: at most 800 characters of the
      first page's content, or at most three bulleted titles, one per line. */
  lemma WebAnswerShapes(results: seq<SearchResult>, pages: Pages)
    requires results != []
    ensures var content := PageContent(pages(results[0].url));
            && (Truthy(content) ==>
                  exists excerpt :: |excerpt| <= ContentLimit && excerpt <= content.value
                                    && WebAnswer(results, pages) == HelpfulPrefix + excerpt + "...")
            && (!Truthy(content) ==>
                  exists lines :: |lines| <= ResourceLimit && |lines| <= |results|
                                  && (forall i :: 0 <= i < |lines| ==> lines[i] == Bullet + results[i].title)
                                  && WebAnswer(results, pages) == ResourcesPrefix + Join(lines, "\n"))
  {
    var content := PageContent(pages(results[0].url));
    if Truthy(content) {
      var excerpt := Take(content.value, ContentLimit);
      assert WebAnswer(results, pages) == HelpfulPrefix + excerpt + "...";
    } else {
      var top := Take(results, ResourceLimit);
      var lines := Bullets(top);
      assert forall i :: 0 <= i < |lines| ==> top[i] == results[i];
      assert WebAnswer(results, pages) == ResourcesPrefix + Join(lines, "\n");
    }
  }

  /** The answer to a non-empty query: the screenshot analysis when the model is
      configured, a screenshot is available and the analysis is non-empty;
      otherwise the answer of the web search for the query and the current game. */
  function QueryAnswer(query: string, llmEnabled: bool, shot: Option<string>, analysis: Option<string>,
                       game: Option<string>, engine: Engine, pages: Pages): (a: string)
    ensures a != ""
    ensures llmEnabled && Truthy(shot) && Truthy(analysis) ==> a == analysis.value
  {
    if llmEnabled && Truthy(shot) && Truthy(analysis) then analysis.value
    else WebAnswer(Searched(query, game, engine), pages)
  }

  /** The analysis result plays no part unless the model is configured and a
      screenshot is available. */
  lemma AnalysisNeedsModelAndShot(query: string, llmEnabled: bool, shot: Option<string>,
                                  a1: Option<string>, a2: Option<string>,
                                  game: Option<string>, engine: Engine, pages: Pages)
    requires !(llmEnabled && Truthy(shot))
    ensures QueryAnswer(query, llmEnabled, shot, a1, game, engine, pages)
            == QueryAnswer(query, llmEnabled, shot, a2, game, engine, pages)
  {
  }

  /** `/screenshot`: the reply and whether an automatic analysis is started. */
  function ScreenshotReply(path: Option<string>, llmEnabled: bool): (r: (Reply, bool))
    ensures r.0.status == 200 <==> Truthy(path)
    ensures r.0.status != 200 ==> r.0 == Reply(500, Failure(CaptureFailedError))
    ensures r.0.status == 200 ==> r.0.body == Notice(CapturedMessage)
    ensures r.1 <==> Truthy(path) && llmEnabled
  {
    if Truthy(path) then (Reply(200, Notice(CapturedMessage)), llmEnabled)
    else (Reply(500, Failure(CaptureFailedError)), false)
  }

  /** The length filter on the stripped first group of a name pattern. */
  predicate Fits(group: Option<string>) {
    group.Some? && 2 < |Strip(group.value)| < 50
  }

  predicate NoFitBefore(groups: seq<Option<string>>, n: nat) {
    forall j :: 0 <= j < n && j < |groups| ==> !Fits(groups[j])
  }

  /** The first pattern, from `i` on, whose match passes the length filter. */
  function FirstFit(groups: seq<Option<string>>, i: nat): (w: Option<nat>)
    ensures w.Some? ==> i <= w.value < |groups| && Fits(groups[w.value])
                        && forall j :: i <= j < w.value ==> !Fits(groups[j])
    ensures w.None? ==> forall j :: i <= j < |groups| ==> !Fits(groups[j])
    decreases |groups| - i
  {
    if i >= |groups| then None
    else if Fits(groups[i]) then Some(i)
    else FirstFit(groups, i + 1)
  }

  /** The game name `_extract_game_name` returns: the stripped first group of
      the first pattern whose match passes the length filter. */
  function GameName(groups: seq<Option<string>>): (r: Option<string>)
    ensures r.Some? ==> 3 <= |r.value| <= 49 && IsStripped(r.value)
    ensures r.None? <==> forall j :: 0 <= j < |groups| ==> !Fits(groups[j])
  {
    match FirstFit(groups, 0)
    case Some(i) => Some(Strip(groups[i].value))
    case None => None
  }

  /** `_extract_game_name`. `groups[k]` is the first group of the first match of
      the k-th name pattern in the analysis text, or None when it does not match. */
  method ExtractGameName(groups: seq<Option<string>>) returns (name: Option<string>)
    ensures name == GameName(groups)
    ensures name.Some? ==> 3 <= |name.value| <= 49 && IsStripped(name.value)
  {
    for i := 0 to |groups|
      invariant NoFitBefore(groups, i)
    {
      if groups[i].Some? {
        var candidate := Strip(groups[i].value);
        if |candidate| > 2 && |candidate| < 50 {
          assert FirstFit(groups, 0) == Some(i);
          return Some(candidate);
        }
      }
      assert !Fits(groups[i]);
    }
    assert FirstFit(groups, 0).None?;
    name := None;
  }

  class BackendServer {
    const screens: ScreenshotManager
    /** Whether the language-model processor could be created (an API key is set). */
    const llmEnabled: bool
    var currentGame: Option<string>

    ghost predicate Valid()
      reads this, screens
    {
      screens.Valid()
    }

    /** `__init__`: an empty history capped at `MAX_SCREENSHOTS`, continuous capture started. */
    constructor (llmEnabled: bool)
      ensures Valid() && fresh(screens) && this.llmEnabled == llmEnabled && currentGame == None
      ensures screens.cap == Config.MaxScreenshots && screens.screenshots == [] && screens.isCapturing
    {
      var manager := new ScreenshotManager(Config.MaxScreenshots);
      var _ := manager.StartContinuousCapture();
      screens := manager;
      this.llmEnabled := llmEnabled;
      currentGame := None;
    }

    /** `/query`. `files` are the files on disk, `analysis` what the screenshot
        analysis would return, `textAnswer` what the text-only model call would
        return; the reply never depends on `textAnswer`. */
    method HandleQuery(request: QueryRequest, files: set<string>, analysis: Option<string>,
                       engine: Engine, pages: Pages, textAnswer: Option<string>) returns (reply: Reply)
      ensures request.Unreadable? ==> reply == Reply(500, Failure(request.reason))
      ensures request.Json? && QueryText(request) == "" ==> reply == Reply(400, Failure(EmptyQueryError))
      ensures request.Json? && QueryText(request) != "" ==>
                reply == Reply(200, Answer(QueryAnswer(QueryText(request), llmEnabled, screens.ForAnalysis(files),
                                                       analysis, currentGame, engine, pages)))
    {
      if request.Unreadable? {
        return Reply(500, Failure(request.reason));
      }
      var query := Strip(if request.query.Some? then request.query.value else "");
      if query == "" {
        return Reply(400, Failure(EmptyQueryError));
      }
      var shot := screens.ForAnalysis(files);
      var response: Option<string> := None;
      if llmEnabled && Truthy(shot) {
        response := analysis;
      }
      if !Truthy(response) {
        var results := SearchGameHints(query, currentGame, engine);
        if results != [] {
          var content := PageContent(pages(results[0].url));
          if Truthy(content) {
            response := Some(HelpfulPrefix + Take(content.value, ContentLimit) + "...");
          } else {
            response := Some(ResourcesPrefix + Join(Bullets(Take(results, ResourceLimit)), "\n"));
          }
        } else {
          response := Some(NotFoundMessage);
        }
      }
      if !Truthy(response) && llmEnabled {
        response := textAnswer;
      }
      if !Truthy(response) {
        response := Some(UnavailableMessage);
      }
      reply := Reply(200, Answer(response.value));
    }

    /** `/screenshot`: takes a screenshot; `autoAnalyze` says whether the
        background analysis is started. `taken` is the path handed to the analysis. */
    method HandleScreenshot(capture: Capture, files: set<string>, removeRaises: bool)
      returns (reply: Reply, autoAnalyze: bool, taken: Option<string>)
      requires Valid()
      modifies screens`screenshots
      ensures Valid()
      ensures (reply, autoAnalyze) == ScreenshotReply(taken, llmEnabled)
      ensures capture.CaptureFailed? ==> taken == None && screens.screenshots == old(screens.screenshots)
      ensures capture.Saved? ==> screens.screenshots == Admit(old(screens.screenshots), capture.path, screens.cap)
      ensures capture.Saved? ==>
                taken == (var e := Evicted(old(screens.screenshots), capture.path, screens.cap);
                          if e.Some? && e.value in files && removeRaises then None else Some(capture.path))
    {
      var path, _ := screens.TakeScreenshot(capture, files, removeRaises);
      taken := path;
      reply, autoAnalyze := ScreenshotReply(path, llmEnabled).0, ScreenshotReply(path, llmEnabled).1;
    }

    /** `_auto_analyze_screenshot`, given what the analysis returned and the
        name-pattern groups found in it. When the analysis is non-empty the
        current game is overwritten, with None when no name is found.
        `reported` says whether a detected game is passed on. */
    method AutoAnalyzeScreenshot(analysis: Option<string>, groups: seq<Option<string>>)
      returns (reported: bool)
      modifies this`currentGame
      ensures Truthy(analysis) ==> currentGame == GameName(groups)
      ensures !Truthy(analysis) ==> currentGame == old(currentGame)
      ensures reported <==> Truthy(analysis) && GameName(groups).Some?
    {
      reported := false;
      if Truthy(analysis) {
        currentGame := ExtractGameName(groups);
        if Truthy(currentGame) {
          reported := true;
        }
      }
    }
  }
}
