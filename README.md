# Overlay gaming assistant: verified model of its core logic

The overlay gaming assistant is a desktop overlay. It captures screenshots of a
running game and answers questions about the game. A Python backend answers a
query in one of two ways: with a multimodal language-model analysis of the
latest screenshot, or with a DuckDuckGo search for hints and walkthroughs. An
Electron renderer sends the queries, shows the answers and keeps the settings
form.

This project models the sequential logic beneath that plumbing, in four parts:

- `screenshots.dfy` (module `Screenshots`) is the backend's bounded screenshot
  history, a class `ScreenshotManager`. It is a FIFO list of file paths capped
  at `MAX_SCREENSHOTS`. It has a continuous-capture flag and an age-based
  cleanup. For a history with no path listed twice, the cleanup is proved to
  agree with a reference filter; a path listed more than once loses only its
  first listing, because its file is gone by the time the loop reaches the
  others.
- `web_search.dfy` (module `WebSearch`) covers several steps of the web
  searcher:
  - query enhancement: the game name prefix and the gaming-term suffix;
  - result post-processing: URL cleaning, title cleaning, the filter and the cap;
  - page-content truncation;
  - the guide selection of `search_specific_game_guide` and its fallback.
- `server.dfy` (module `Server`) is the backend server, a class
  `BackendServer`. It covers the `/query` fallback chain and the `/screenshot`
  reply. It also covers the current-game update of the automatic analysis and
  the ordered pattern/length filter of `_extract_game_name`.
- `renderer.dfy` (module `Renderer`) is the renderer's `GameAssistant` class.
  It covers the single-flight busy flag around `processQuery` and
  `takeScreenshot`, and the mapping of backend outcomes to a message and a
  status tag. It also covers the settings merge and the derivation of the
  interval and always-on-top controls.

Two support files complete the project:

- `text.dfy` (module `Text`) holds the Python and JavaScript string operations
  the code relies on: `strip`, `lower`, `split()`, `in`, slicing, `join`,
  `replace(pat, '')`, `split(c)[0]` and truthiness.
- `config.dfy` (module `Config`) holds the two constants used.

Every asynchronous renderer handler is modelled in two steps:

- `Begin…` is the code before the `await`. It checks and sets the busy flag.
- `Complete…` is the code after the `await`. It receives an `Outcome`: the call
  threw, or it returned an answer whose `error`, `response` and `message`
  fields may be absent.

The class field `awaiting` records which call is suspended. `Valid()` states
that the busy flag is set exactly while a call is suspended.

Everything outside the program is an input to the model:

- the screen capture;
- the file system, as the set of existing paths and a creation-time function;
- the clock;
- the search engine, as a function from query to the list of result-link matches;
- page fetches, as a function from URL to page text;
- the language model, as an optional result.

Times and file ages are `real` seconds, as the floats of `time.time()` and
`os.path.getctime` are, so an age of 3600.5 s counts as expired.

## Model

| member | source | states |
|---|---|---|
| Screenshots.Admit | src/backend/screenshot_manager.py:37-41 | a saved path goes last; the list grows when under the cap; at the cap, exactly index 0 is dropped and the rest keep their order; the list never exceeds the cap |
| Screenshots.Evicted | src/backend/screenshot_manager.py:38-39 | an entry is evicted iff the list was at the cap; the evicted entry is the old head |
| Screenshots.RemoveFirst | src/backend/screenshot_manager.py:93 | `list.remove` drops the first occurrence when the item is present; for an absent item the model returns the list unchanged where Python raises `ValueError`, a case the cleanup never reaches |
| Screenshots.Expired | src/backend/screenshot_manager.py:88-91 | definition of the cleanup's test: the file exists and `now - created(p)` exceeds 3600 s |
| Screenshots.Sweep | src/backend/screenshot_manager.py:87-93 | the cleanup loop as written, over the copy of the list: an entry whose file exists and is more than 3600 s old has its file deleted and its first listing removed; its properties are `SweepShrinks`, `SweepDistinct` and `CleanupRemovesExactlyExpired` |
| Screenshots.Fresh | src/backend/screenshot_manager.py:87-93 | reference filter: its result holds exactly the entries that are not expired |
| Screenshots.SweepShrinks | src/backend/screenshot_manager.py:87-93 | the cleanup never grows the list, and it only deletes files |
| Screenshots.CleanupRemovesExactlyExpired | src/backend/screenshot_manager.py:87-93 | with no path listed twice, the cleanup as written keeps, in order, exactly the entries whose file is missing or at most 3600 s old |
| Screenshots.CleanupKeepsSecondCopy | src/backend/screenshot_manager.py:87-93 | a path listed twice loses one listing and its file; the second listing survives because its file is already gone |
| Screenshots.SweepDistinct | src/backend/screenshot_manager.py:87-93 | the invariant of the cleanup loop: the decided prefix followed by the filtered remainder |
| Screenshots.ScreenshotManager.constructor | src/backend/screenshot_manager.py:14-17 | an empty history with the given cap and capture off; directory creation is I/O and left out |
| Screenshots.ScreenshotManager.TakeScreenshot | src/backend/screenshot_manager.py:25-48 | a failed capture changes nothing and returns None; a saved capture updates the list by `Admit`; the evicted file is deleted if it exists; a raising delete makes the call return None; a returned path is `Latest()`; the cap bound is kept |
| Screenshots.ScreenshotManager.StartContinuousCapture | src/backend/screenshot_manager.py:50-58 | idempotent: afterwards the flag is set, and a thread is started only if the flag was clear |
| Screenshots.ScreenshotManager.StopContinuousCapture | src/backend/screenshot_manager.py:60-65 | the flag is clear afterwards |
| Screenshots.ScreenshotManager.Latest | src/backend/screenshot_manager.py:73-75 | None exactly when the list is empty, else the last entry |
| Screenshots.ScreenshotManager.ForAnalysis | src/backend/screenshot_manager.py:77-82 | the latest path only when it is non-empty and its file exists, else None |
| Screenshots.ScreenshotManager.CleanupOldScreenshots | src/backend/screenshot_manager.py:84-93 | the loop over a copy of the list computes `Sweep`; the cap bound is kept |
| WebSearch.HasGamingTerm | src/backend/web_searcher.py:24-25 | definition: one of the five gaming terms occurs in the lowercased query |
| WebSearch.WithGame | src/backend/web_searcher.py:19-21 | definition: `f"{game_name} {query}"` when the game name is truthy, else the query |
| WebSearch.EnhanceQuery | src/backend/web_searcher.py:19-26 | definition of the query sent; its properties are `EnhanceQueryShape`, `EnhancedHasGamingTerm`, `EnhanceIdempotent` and `SuffixIgnoresGame` |
| WebSearch.EnhanceQueryShape | src/backend/web_searcher.py:16-26 | with a game name, the query starts with `game + " " + query`; `" guide walkthrough tips"` is appended iff the query itself contains no gaming term |
| WebSearch.EnhancedHasGamingTerm | src/backend/web_searcher.py:24-26 | every enhanced query contains a gaming term |
| WebSearch.EnhanceIdempotent | src/backend/web_searcher.py:19-26 | enhancing an enhanced query again, with no game name, changes nothing |
| WebSearch.SuffixIgnoresGame | src/backend/web_searcher.py:19-26 | the enhanced query is the game prefix followed by the query enhanced without a game: the suffix decision never looks at the game name |
| WebSearch.GuideQueryRepeatsGame | src/backend/web_searcher.py:101-102 | the guide query gets no suffix, and a non-empty game name is put in front a second time |
| WebSearch.GuideQuery | src/backend/web_searcher.py:101 | definition: game name, specific query and `" guide walkthrough"`, space-separated; `GuideQueryRepeatsGame` states what is searched |
| WebSearch.CleanUrl | src/backend/web_searcher.py:65 | the cleaned URL has no `&` and is a prefix of `href.replace('/l/?uddg=', '')`; `CleanUrlRedirect` and `CleanUrlKeepsDirect` give its value for redirect and direct links |
| WebSearch.CleanUrlRedirect | src/backend/web_searcher.py:65 | a redirect link `/l/?uddg=` + `t`, with no further redirect prefix in `t`, cleans to the part of `t` before the first `&` |
| WebSearch.CleanUrlKeepsDirect | src/backend/web_searcher.py:65 | an href with neither the redirect prefix nor `&` is kept as it is |
| WebSearch.StripTags | src/backend/web_searcher.py:66 | the text never grows, and a text without `<` is kept as it is; the definition drops each `<` that has a later `>` through the first such `>`, which is exactly what `<[^>]*>` matches |
| WebSearch.CleanTitle | src/backend/web_searcher.py:66 | the title carries no surrounding whitespace |
| WebSearch.Usable | src/backend/web_searcher.py:68 | definition of the filter: URL and title non-empty and the URL not starting with `/` |
| WebSearch.Entry | src/backend/web_searcher.py:64-73 | a match yields a result iff its cleaned URL and title pass the filter; the result carries that cleaned URL and title, has no `&` in its URL and has snippet `"Search result: " + title` |
| WebSearch.Parsed | src/backend/web_searcher.py:63-73 | there are no more results than matches |
| WebSearch.ParsedWellFormed | src/backend/web_searcher.py:63-73 | every parsed result has a non-empty URL without `&` that does not start with `/`, a non-empty stripped title, and snippet `"Search result: " + title` |
| WebSearch.ParsedConcat | src/backend/web_searcher.py:63-73 | parsing keeps match order |
| WebSearch.ParsedAround | src/backend/web_searcher.py:63-73 | the results are those of the matches before a match, then that match's entry, then those of the matches after it |
| WebSearch.ParsedKeepsUsable | src/backend/web_searcher.py:64-73 | no usable match is lost: each match whose cleaned URL and title pass the filter gives a result with those values |
| WebSearch.ParseResults | src/backend/web_searcher.py:52-75 | the loop computes `Parsed` of the first `MAX_SEARCH_RESULTS` matches, so it returns at most five well-formed results |
| WebSearch.Searched | src/backend/web_searcher.py:16-29 | at most five results; none when the request fails |
| WebSearch.SearchedWellFormed | src/backend/web_searcher.py:16-29 | every searched result is well formed |
| WebSearch.DuckDuckGoSearch | src/backend/web_searcher.py:31-50 | `[]` on failure, else the capped parsed results |
| WebSearch.SearchGameHints | src/backend/web_searcher.py:16-29 | searches the enhanced query, giving `Searched` |
| WebSearch.PageContent | src/backend/web_searcher.py:77-97 | None exactly when the fetch failed; otherwise at most 2000 characters with no surrounding whitespace |
| WebSearch.Relevant | src/backend/web_searcher.py:112 | definition: some word of the lowercased specific query occurs in the lowercased content |
| WebSearch.Hit | src/backend/web_searcher.py:109-112 | definition: the result's page content is truthy and `Relevant` to the specific query |
| WebSearch.FirstHit | src/backend/web_searcher.py:108-113 | the first index among the first three results whose content is non-empty and contains a query word |
| WebSearch.GuideAnswer | src/backend/web_searcher.py:104-115 | None iff there are no results; the first hit wins, cut to 500 characters plus `"..."`; otherwise at most three titles joined with `", "` |
| WebSearch.SearchSpecificGameGuide | src/backend/web_searcher.py:99-115 | the loop with its early return computes `GuideAnswer` of the searched results |
| WebSearch.Titles | src/backend/web_searcher.py:115 | the titles of the results, in order |
| Text.Strip | src/backend/backend_server.py:50 | the stripped text has no surrounding whitespace and is no longer than the input |
| Text.StripIsInfix | src/backend/backend_server.py:172 | `strip()` returns the infix left after cutting whitespace, and only whitespace, from the two ends |
| Text.Truthy | src/backend/backend_server.py:63 | definition of Python truthiness for an optional string: present and non-empty |
| Text.Contains | src/backend/web_searcher.py:25 | definition of `t in s`: `t` occurs at some offset of `s` |
| Text.Take | src/backend/web_searcher.py:63 | `s[:n]` is a prefix of `s` of length `min(n, len(s))` |
| Text.RemoveAll | src/backend/web_searcher.py:65 | `replace(pat, '')` never lengthens the string; `RemoveAllAbsent` gives its value on a string without `pat` |
| Text.BeforeFirst | src/backend/web_searcher.py:65 | `split(c)[0]` is a prefix without `c`; it is shorter than the string iff `c` occurs, and then `c` comes right after it |
| Text.Lower | src/backend/web_searcher.py:25 | `lower()` keeps the length and lowercases each character |
| Text.RemoveAllLeading | src/backend/web_searcher.py:65 | `replace(pat, '')` drops an occurrence of `pat` at the start and continues on the rest |
| Text.RemoveAllAbsent | src/backend/web_searcher.py:65 | `replace(pat, '')` leaves a string without `pat` unchanged |
| Text.Words | src/backend/web_searcher.py:112 | definition of `split()`: the maximal runs of non-whitespace; `WordsAreWords` states its properties |
| Text.Join | src/backend/web_searcher.py:115 | definition of `sep.join(parts)`: the parts with `sep` between consecutive ones |
| Text.WordsAreWords | src/backend/web_searcher.py:112 | `split()` yields non-empty words without whitespace, and none exactly for a blank string |
| Server.QueryText | src/backend/backend_server.py:50 | the query field, or `""` when it is absent, stripped of surrounding whitespace |
| Server.Bullets | src/backend/backend_server.py:78 | one `"• " + title` line per result, in order |
| Server.WebAnswer | src/backend/backend_server.py:68-80 | the web-search block always gives a non-empty response; with no results it is the apology message |
| Server.WebAnswerShapes | src/backend/backend_server.py:72-78 | an answer with content uses at most 800 characters of it plus `"..."`; otherwise it lists at most three bulleted titles, one per line |
| Server.QueryAnswer | src/backend/backend_server.py:60-87 | the answer is never empty; with the model configured, a screenshot and a non-empty analysis, it is that analysis |
| Server.AnalysisNeedsModelAndShot | src/backend/backend_server.py:63-65 | the analysis plays no part unless the model is configured and a screenshot is available |
| Server.ScreenshotReply | src/backend/backend_server.py:98-115 | 200 with the success message iff a path was captured, else 500 with the capture error; auto-analysis iff captured and the model is configured |
| Server.GameName | src/backend/backend_server.py:169-176 | None iff no pattern's group passes the length filter; otherwise a stripped name of 3 to 49 characters |
| Server.Fits | src/backend/backend_server.py:172-173 | definition: the pattern matched and its stripped group has more than 2 and fewer than 50 characters |
| Server.FirstFit | src/backend/backend_server.py:169-174 | patterns are tried in order; one that fails the length filter falls through to the next |
| Server.ExtractGameName | src/backend/backend_server.py:159-176 | the loop with its early return computes `GameName` |
| Server.BackendServer.constructor | src/backend/backend_server.py:18-39 | an empty history capped at 10 with capture started, and no current game |
| Server.BackendServer.HandleQuery | src/backend/backend_server.py:46-93 | an unreadable body gives 500 with the error text; an empty stripped query gives 400 `Empty query`; otherwise 200 with `QueryAnswer`, which is non-empty and independent of the text-only model call, so that call and the default message are never used |
| Server.BackendServer.HandleScreenshot | src/backend/backend_server.py:95-119 | takes a screenshot through the manager and replies with `ScreenshotReply` of the returned path; a saved capture is handed on, and answered 200, unless an evicted file exists and its delete raises, in which case the reply is 500 |
| Server.BackendServer.AutoAnalyzeScreenshot | src/backend/backend_server.py:130-151 | a non-empty analysis overwrites the current game with the extracted name, even with None; otherwise nothing changes; a detected game is reported |
| Renderer.ValueTruthy | renderer/script.js:199 | definition of JavaScript truthiness for a settings value: a non-zero number, `true`, or a non-empty string |
| Renderer.SettingTruthy | renderer/script.js:143 | definition: the key is present and its value is truthy; an absent key is `undefined` |
| Renderer.FirstTruthy | renderer/script.js:114 | the JavaScript or-chain over the answer fields: the first truthy candidate, else the fallback |
| Renderer.QueryFeedback | renderer/script.js:107-120 | tag `error` iff the call threw or returned a truthy error; a thrown call shows the retry message; an error shows `"Error: " + error`; otherwise `response`, then `message`, then `No response received`, with tag ready |
| Renderer.ScreenshotFeedback | renderer/script.js:132-152 | tag `error` iff the call threw or returned an error; the follow-up prompt is scheduled iff the call succeeded and an API key is set |
| Renderer.IntervalSeconds | renderer/script.js:199 | the stored interval in milliseconds divided by 1000, with 30000 standing in for an absent or falsy value, so 30 is shown then |
| Renderer.AlwaysOnTopShown | renderer/script.js:205 | unchecked exactly when the setting is the value `false` |
| Renderer.NewSettings | renderer/script.js:213-217 | the form object has exactly the three keys |
| Renderer.Merge | renderer/script.js:221 | the keys of both maps; the update wins, and all other keys keep their value |
| Renderer.IntervalRoundTrip | renderer/script.js:199-215 | saved integer seconds are shown again unchanged, except 0, which shows 30 |
| Renderer.AlwaysOnTopRoundTrip | renderer/script.js:205-216 | a saved checkbox is shown again unchanged |
| Renderer.GameAssistant.constructor | renderer/script.js:2-6 | not busy, nothing pending, empty settings, modal closed; the `init()` call is left out |
| Renderer.GameAssistant.BeginQuery | renderer/script.js:100-105 | a no-op iff the query is empty or busy; otherwise the flag is set and the status and the `Thinking...` response are shown |
| Renderer.GameAssistant.CompleteQuery | renderer/script.js:107-123 | shows `QueryFeedback` of the outcome and always clears the busy flag |
| Renderer.GameAssistant.ProcessQuery | renderer/script.js:100-124 | with no interleaving: nothing changes for an empty query or while busy; otherwise the outcome's feedback is shown and the flag is clear |
| Renderer.GameAssistant.BeginScreenshot | renderer/script.js:126-130 | a no-op iff busy; otherwise the flag is set and `Taking screenshot...` is shown |
| Renderer.GameAssistant.CompleteScreenshot | renderer/script.js:132-155 | shows `ScreenshotFeedback` of the outcome, returns the scheduled follow-up query, and always clears the busy flag |
| Renderer.GameAssistant.UpdateSettingsUI | renderer/script.js:196-205 | the interval and checkbox controls show `IntervalSeconds` and `AlwaysOnTopShown` of the settings |
| Renderer.GameAssistant.SaveSettings | renderer/script.js:208-228 | on success, the settings become the merge with the three form keys, the modal closes and the success text is shown; on failure, the settings are untouched and the failure text is shown |

## Left out

- I/O is not modelled: screen capture, file writes and deletes, HTTP requests, the language-model calls and Flask's JSON plumbing. Their results are inputs.
- The regular expressions are not modelled. These are the result-link and snippet patterns, the tag, script and style patterns of `get_page_content`, and the game-name patterns. They are replaced by the match lists or match groups they would produce.
- `WebSearch.PageContent`: takes the page text after tag removal and whitespace collapsing as its input. It models only the 2000-character cut and the strip.
- `Text.Lower`: lowercases ASCII letters only, not the full Unicode case mapping of Python's `str.lower`.
- Page fetches are deterministic per URL (`Pages` is a function). `search_specific_game_guide` fetches once per result, and two of the first three results can clean to the same URL (`/l/?uddg=X&rut=1` and `/l/?uddg=X&rut=2` both give `X`); the model then gives both fetches the same outcome, where the network might not.
- Threads and timers are not modelled: `_capture_loop`, the daemon thread running the automatic analysis, `setTimeout`, and `join(timeout=1)`. The renderer's interleaving is reduced to the two-step handlers; `GameAssistant.CompleteScreenshot` returns the follow-up query instead of scheduling it.
- `_send_auto_analysis_result` only logs, and logging and `print` are left out.
- The `/health` and `/status` routes are left out; they only report fields.
- `Screenshots.ScreenshotManager.CleanupOldScreenshots`: a raising `os.remove` ends the real loop early; the model assumes deletes succeed. `list.remove` never raises here: an entry is removed only while its file exists, and the file is deleted at the same time, so the entry is always still listed.
- `Server.BackendServer.HandleScreenshot`: the generic 500 reply with the exception text is not modelled. `take_screenshot` catches every exception itself, so that branch is reached only when the handler's own `print` calls or the start of the analysis thread raise, which are left out with the rest of the I/O and threads.
- Renderer values use JavaScript truthiness for numbers, booleans and strings. Numbers are `real`, so `NaN`, which JavaScript treats as falsy, does not arise. Other type coercions are not modelled: a non-numeric truthy interval gives `None` in `Renderer.IntervalSeconds`.
- Overlay opacity and its rounding, `Math.round(… * 100)`, are floating-point and left out. `Renderer.NewSettings` stores the exact quotient.
- `init`, `loadSettings`, the event-listener setup, `showResponse`, `clearResponse`, `escapeHtml` and the DOM itself are left out. Only the texts and control values the handlers write are kept.
- The Electron main process and the IPC bridge (`src/frontend/main.js`, `src/frontend/preload.js`) are not part of this model.
- The Whisper transcription endpoint (`src/backend/transcribe_audio.py`) is not part of this model.
- `renderer/script.js` has no voice-recording code, so the model has none.
