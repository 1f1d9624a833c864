/** The overlay window's request governor and settings form. A call to the
    backend is split in two steps: the part before the `await` (which checks and
    sets the busy flag) and the part after it, which receives the outcome of the
    call. Between the two steps other handlers may run; the `awaiting` field
    records which call is suspended. The DOM is reduced to the texts and values
    the handlers write. */
module Renderer {
  import opened Text

  /** The status indicator's class. */
  datatype Tag = Processing | Ready | Error

  /** A settings value, as far as the renderer tells them apart. */
  datatype Value = Num(n: real) | Flag(b: bool) | Str(s: string)

  /** JavaScript truthiness of a settings value. */
  predicate ValueTruthy(v: Value) {
    match v
    case Num(n) => n != 0.0
    case Flag(b) => b
    case Str(s) => s != ""
  }

  /** `settings[key]` is truthy; an absent key is `undefined`, which is falsy. */
  predicate SettingTruthy(settings: map<string, Value>, key: string) {
    key in settings && ValueTruthy(settings[key])
  }

  /** The fields of a backend answer that the renderer reads; an absent field is None. */
  datatype Answer = Answer(error: Option<string>, response: Option<string>, message: Option<string>)

  /** How an awaited backend call ended: it threw, or it returned an answer. */
  datatype Outcome = Threw | Returned(answer: Answer)

  /** What a handler leaves on screen: the response text, the status text and the status tag. */
  datatype Feedback = Feedback(shown: string, status: string, tag: Tag)

  /** The suspended `await`, if any. */
  datatype Pending = Idle | AwaitingQuery | AwaitingScreenshot

  const ThinkingText: string := "Thinking..."
  const NoResponseText: string := "No response received"
  const QueryFailedText: string := "Failed to process your request. Please try again."
  const ScreenshotFailedText: string := "Failed to take screenshot. Please try again."
  const ScreenshotDoneText: string := "Screenshot captured successfully!"
  const FollowUpPrompt: string := "What game is this and what am I currently doing?"
  const SavedText: string := "Settings saved successfully!"
  const SaveFailedText: string := "Failed to save settings. Please try again."

  /** JavaScript `a || b || … || fallback` over optional strings: the first truthy candidate. */
  function FirstTruthy(candidates: seq<Option<string>>, fallback: string): (r: string)
    ensures (forall i :: 0 <= i < |candidates| ==> !Truthy(candidates[i])) ==> r == fallback
    ensures forall i :: (0 <= i < |candidates| && Truthy(candidates[i])
                         && forall j :: 0 <= j < i ==> !Truthy(candidates[j])) ==> r == candidates[i].value
  {
    if candidates == [] then fallback
    else if Truthy(candidates[0]) then candidates[0].value
    else FirstTruthy(candidates[1..], fallback)
  }

  /** What `processQuery` shows once the backend call has ended. */
  function QueryFeedback(o: Outcome): (f: Feedback)
    ensures f.tag == Error <==> o.Threw? || Truthy(o.answer.error)
    ensures f.tag != Processing && f.shown != ""
    ensures f.status == if f.tag == Error then "Error" else "Ready"
    ensures o.Threw? ==> f.shown == QueryFailedText
    ensures o.Returned? && Truthy(o.answer.error) ==> f.shown == "Error: " + o.answer.error.value
    ensures f.tag == Ready ==> f.shown == FirstTruthy([o.answer.response, o.answer.message], NoResponseText)
  {
    match o
    case Threw => Feedback(QueryFailedText, "Error", Error)
    case Returned(a) =>
      if Truthy(a.error) then Feedback("Error: " + a.error.value, "Error", Error)
      else Feedback(FirstTruthy([a.response, a.message], NoResponseText), "Ready", Ready)
  }

  /** What `takeScreenshot` shows once the backend call has ended, and the
      query it schedules: the follow-up prompt, only on success and only when
      an API key is configured. */
  function ScreenshotFeedback(o: Outcome, apiKey: bool): (r: (Feedback, Option<string>))
    ensures r.0.tag == Error <==> o.Threw? || Truthy(o.answer.error)
    ensures r.0.tag != Processing && r.0.shown != ""
    ensures r.1.Some? <==> r.0.tag == Ready && apiKey
    ensures r.1.Some? ==> r.1.value == FollowUpPrompt
    ensures o.Returned? && Truthy(o.answer.error) ==> r.0.shown == "Screenshot failed: " + o.answer.error.value
  {
    match o
    case Threw => (Feedback(ScreenshotFailedText, "Screenshot failed", Error), None)
    case Returned(a) =>
      if Truthy(a.error) then (Feedback("Screenshot failed: " + a.error.value, "Screenshot failed", Error), None)
      else (Feedback(ScreenshotDoneText, "Screenshot captured", Ready), if apiKey then Some(FollowUpPrompt) else None)
  }

  const DefaultIntervalMs: real := 30000.0

  /** The interval slider's value in `updateSettingsUI`:
      `(settings.screenshotInterval || 30000) / 1000`; None when the stored value
      is truthy but not a number (JavaScript's coercion is not modelled). */
  function IntervalSeconds(settings: map<string, Value>): (r: Option<real>)
    ensures !SettingTruthy(settings, "screenshotInterval") ==> r == Some(30.0)
    ensures SettingTruthy(settings, "screenshotInterval") && settings["screenshotInterval"].Num? ==>
              r == Some(settings["screenshotInterval"].n / 1000.0)
  {
    if SettingTruthy(settings, "screenshotInterval") then
      match settings["screenshotInterval"]
      case Num(ms) => Some(ms / 1000.0)
      case _ => None
    else Some(DefaultIntervalMs / 1000.0)
  }

  /** The always-on-top checkbox in `updateSettingsUI`: `settings.alwaysOnTop !== false`. */
  function AlwaysOnTopShown(settings: map<string, Value>): (checked: bool)
    ensures !checked <==> "alwaysOnTop" in settings && settings["alwaysOnTop"] == Flag(false)
  {
    !("alwaysOnTop" in settings && settings["alwaysOnTop"] == Flag(false))
  }

  /** The object `saveSettings` builds from the form. */
  function NewSettings(opacityPercent: int, intervalSeconds: int, alwaysOnTop: bool): (m: map<string, Value>)
    ensures m.Keys == {"overlayOpacity", "screenshotInterval", "alwaysOnTop"}
  {
    map["overlayOpacity" := Num(opacityPercent as real / 100.0),
        "screenshotInterval" := Num((intervalSeconds * 1000) as real),
        "alwaysOnTop" := Flag(alwaysOnTop)]
  }

  /** `{ ...current, ...update }`: the keys of both, values of `update` winning. */
  function Merge(current: map<string, Value>, update: map<string, Value>): (r: map<string, Value>)
    ensures r.Keys == current.Keys + update.Keys
    ensures forall k :: k in update ==> r[k] == update[k]
    ensures forall k :: k in current && k !in update ==> r[k] == current[k]
  {
    current + update
  }

  /** Saving `s` seconds and showing the form again gives back `s`, except for
      0, which is falsy and so shows the 30-second default. */
  lemma IntervalRoundTrip(settings: map<string, Value>, opacityPercent: int, s: int, alwaysOnTop: bool)
    ensures IntervalSeconds(Merge(settings, NewSettings(opacityPercent, s, alwaysOnTop)))
            == if s != 0 then Some(s as real) else Some(30.0)
  {
    var m := Merge(settings, NewSettings(opacityPercent, s, alwaysOnTop));
    assert m["screenshotInterval"] == Num((s * 1000) as real);
  }

  /** Saving the checkbox and showing the form again gives back the checkbox. */
  lemma AlwaysOnTopRoundTrip(settings: map<string, Value>, opacityPercent: int, s: int, alwaysOnTop: bool)
    ensures AlwaysOnTopShown(Merge(settings, NewSettings(opacityPercent, s, alwaysOnTop))) == alwaysOnTop
  {
    var m := Merge(settings, NewSettings(opacityPercent, s, alwaysOnTop));
    assert m["alwaysOnTop"] == Flag(alwaysOnTop);
  }

  class GameAssistant {
    var isProcessing: bool
    var awaiting: Pending
    var settings: map<string, Value>
    /** The response area's text. */
    var shown: string
    var statusText: string
    var statusTag: Tag
    var modalOpen: bool
    var intervalSlider: Option<real>
    var alwaysOnTopBox: bool

    /** The busy flag is set exactly while a backend call is suspended. */
    ghost predicate Valid()
      reads this
    {
      isProcessing <==> awaiting != Idle
    }

    constructor ()
      ensures Valid() && !isProcessing && settings == map[] && !modalOpen
    {
      isProcessing := false;
      awaiting := Idle;
      settings := map[];
      shown := "";
      statusText := "";
      statusTag := Ready;
      modalOpen := false;
      intervalSlider := None;
      alwaysOnTopBox := false;
    }

    /** `processQuery` up to its `await`: a no-op for an empty query or while busy. */
    method BeginQuery(query: string) returns (accepted: bool)
      requires Valid()
      modifies this`isProcessing, this`awaiting, this`shown, this`statusText, this`statusTag
      ensures Valid()
      ensures accepted <==> query != "" && !old(isProcessing)
      ensures !accepted ==> unchanged(this)
      ensures accepted ==> isProcessing && awaiting == AwaitingQuery && shown == ThinkingText
                           && statusText == "Processing..." && statusTag == Processing
    {
      if query == "" || isProcessing {
        return false;
      }
      isProcessing := true;
      awaiting := AwaitingQuery;
      statusText, statusTag := "Processing...", Processing;
      shown := ThinkingText;
      accepted := true;
    }

    /** `processQuery` after its `await`, including the `finally` that clears the busy flag. */
    method CompleteQuery(outcome: Outcome)
      requires Valid() && awaiting == AwaitingQuery
      modifies this`isProcessing, this`awaiting, this`shown, this`statusText, this`statusTag
      ensures Valid() && !isProcessing && awaiting == Idle
      ensures Feedback(shown, statusText, statusTag) == QueryFeedback(outcome)
    {
      var f := QueryFeedback(outcome);
      shown := f.shown;
      statusText, statusTag := f.status, f.tag;
      isProcessing := false;
      awaiting := Idle;
    }

    /** `processQuery` when nothing else runs during its `await`. */
    method ProcessQuery(query: string, outcome: Outcome)
      requires Valid()
      modifies this`isProcessing, this`awaiting, this`shown, this`statusText, this`statusTag
      ensures Valid()
      ensures query == "" || old(isProcessing) ==> unchanged(this)
      ensures query != "" && !old(isProcessing) ==>
                !isProcessing && Feedback(shown, statusText, statusTag) == QueryFeedback(outcome)
    {
      var accepted := BeginQuery(query);
      if accepted {
        CompleteQuery(outcome);
      }
    }

    /** `takeScreenshot` up to its `await`: a no-op while busy. */
    method BeginScreenshot() returns (accepted: bool)
      requires Valid()
      modifies this`isProcessing, this`awaiting, this`statusText, this`statusTag
      ensures Valid()
      ensures accepted <==> !old(isProcessing)
      ensures !accepted ==> unchanged(this)
      ensures accepted ==> isProcessing && awaiting == AwaitingScreenshot
                           && statusText == "Taking screenshot..." && statusTag == Processing
    {
      if isProcessing {
        return false;
      }
      isProcessing := true;
      awaiting := AwaitingScreenshot;
      statusText, statusTag := "Taking screenshot...", Processing;
      accepted := true;
    }

    /** `takeScreenshot` after its `await`. `followUp` is the query handed to
        `setTimeout`, which later goes through `processQuery` and its guard. */
    method CompleteScreenshot(outcome: Outcome) returns (followUp: Option<string>)
      requires Valid() && awaiting == AwaitingScreenshot
      modifies this`isProcessing, this`awaiting, this`shown, this`statusText, this`statusTag
      ensures Valid() && !isProcessing && awaiting == Idle
      ensures (Feedback(shown, statusText, statusTag), followUp)
              == ScreenshotFeedback(outcome, SettingTruthy(settings, "openaiApiKey"))
    {
      var r := ScreenshotFeedback(outcome, SettingTruthy(settings, "openaiApiKey"));
      statusText, statusTag := r.0.status, r.0.tag;
      shown := r.0.shown;
      followUp := r.1;
      isProcessing := false;
      awaiting := Idle;
    }

    /** The interval and always-on-top part of `updateSettingsUI`. */
    method UpdateSettingsUI()
      modifies this`intervalSlider, this`alwaysOnTopBox
      ensures intervalSlider == IntervalSeconds(settings)
      ensures alwaysOnTopBox == AlwaysOnTopShown(settings)
    {
      intervalSlider := IntervalSeconds(settings);
      alwaysOnTopBox := AlwaysOnTopShown(settings);
    }

    /** `saveSettings` with the form's values; `stored` says whether the update call succeeded. */
    method SaveSettings(opacityPercent: int, intervalSeconds: int, alwaysOnTop: bool, stored: bool)
      modifies this`settings, this`modalOpen, this`shown
      ensures stored ==> settings == Merge(old(settings), NewSettings(opacityPercent, intervalSeconds, alwaysOnTop))
                         && !modalOpen && shown == SavedText
      ensures !stored ==> settings == old(settings) && modalOpen == old(modalOpen) && shown == SaveFailedText
    {
      var update := NewSettings(opacityPercent, intervalSeconds, alwaysOnTop);
      if stored {
        settings := Merge(settings, update);
        modalOpen := false;
        shown := SavedText;
      } else {
        shown := SaveFailedText;
      }
    }
  }

  /** A query typed while a screenshot call is suspended is dropped; the
      follow-up query scheduled by a successful screenshot is accepted once
      the screenshot call has ended. */
  method SingleFlightScenario(typed: string, shot: Outcome)
    requires typed != ""
    requires shot.Returned? && !Truthy(shot.answer.error)
  {
    var app := new GameAssistant();
    app.settings := map["openaiApiKey" := Str("key")];
    var started := app.BeginScreenshot();
    assert started;
    var second := app.BeginQuery(typed);
    assert !second && app.awaiting == AwaitingScreenshot;
    var followUp := app.CompleteScreenshot(shot);
    assert followUp == Some(FollowUpPrompt) && app.statusTag == Ready;
    var third := app.BeginQuery(followUp.value);
    assert third && app.shown == ThinkingText;
  }
}
