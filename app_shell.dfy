/** The application shell (app/App.tsx): error normalisation, the state the
    shell keeps across screens, its handlers, and which screen, overlay and
    navigation bar it shows. `JSON.stringify` is a parameter. */
module AppShell {
  import opened Wrappers
  import opened Js
  import opened Api

  /** `getErrorMessage`: a string as is; for an object, a string `detail`,
      else a string `message`, else its JSON text; 'Unknown error' for
      everything else, null included. */
  function GetErrorMessage(error: JsValue, stringify: JsValue -> string): (m: string)
    ensures error.Str? ==> m == error.s
    ensures !error.Str? && !error.Obj? ==> m == "Unknown error"
    ensures error.Obj? && Property(error, "detail").Str? ==> m == Property(error, "detail").s
    ensures error.Obj? && !Property(error, "detail").Str? && Property(error, "message").Str? ==>
      m == Property(error, "message").s
    ensures error.Obj? && !Property(error, "detail").Str? && !Property(error, "message").Str? ==>
      m == stringify(error)
  {
    match error
    case Str(s) => s
    case Obj(_) =>
      var detail := Property(error, "detail");
      var message := Property(error, "message");
      if detail.Str? then detail.s
      else if message.Str? then message.s
      else stringify(error)
    case _ => "Unknown error"
  }

  /** A server error body with a string `detail` yields that text whatever
      else it holds, and the text of a structured error is only reached
      through its `message` field when `detail` is not a string. */
  lemma DetailWinsOverMessage(detail: string, message: string, stringify: JsValue -> string)
    ensures GetErrorMessage(Obj(map["detail" := Str(detail), "message" := Str(message)]), stringify) == detail
    ensures GetErrorMessage(Obj(map["message" := Str(message)]), stringify) == message
  {
    var both := Obj(map["detail" := Str(detail), "message" := Str(message)]);
    assert Property(both, "detail") == Str(detail);
    var one := Obj(map["message" := Str(message)]);
    assert "detail" !in one.fields;
  }

  /** The heading text used when a response reports failure without text. */
  const AnalysisFailed: string := "分析失败"

  /** The text shown when something other than an `Error` is thrown. */
  const NetworkFallback: string := "网络错误，请确保后端服务已启动"

  /** What V8 throws for `response.success` when the body is `null` or
      `undefined`: the message names which of the two it was. */
  function SuccessReadFailure(response: JsValue): string
    requires response.Null? || response.Undefined?
  {
    "Cannot read properties of " + ToText(response) + " (reading 'success')"
  }

  /** What the `try` block of `handleRecordingFinish` does with the upload's
      outcome: `None` when it stores `response.data`, otherwise the text it
      puts in `error` (`err.message` for an `Error`, the fallback otherwise). */
  function OutcomeError(outcome: Result<JsValue, Thrown>, stringify: JsValue -> string): (e: Option<string>)
    ensures e.None? <==>
      outcome.Success? && !outcome.value.Null? && !outcome.value.Undefined?
      && Truthy(Property(outcome.value, "success"))
    ensures outcome.Failure? && outcome.error.AnError? ==> e == Some(outcome.error.message)
    ensures outcome.Failure? && outcome.error.NotAnError? ==> e == Some(NetworkFallback)
    ensures outcome.Success? && e.Some? ==> e.value != ""
  {
    match outcome
    case Failure(AnError(message)) => Some(message)
    case Failure(NotAnError(_)) => Some(NetworkFallback)
    case Success(response) =>
      if response.Null? || response.Undefined? then Some(SuccessReadFailure(response))
      else if Truthy(Property(response, "success")) then None
      else
        var m := GetErrorMessage(Property(response, "error"), stringify);
        Some(if m == "" then AnalysisFailed else m)
  }

  /** Every upload failure shows the thrown error's own message: the
      fallback for non-`Error` values is never taken for them. */
  lemma UploadFailureShowsItsMessage(reply: Reply, stringify: JsValue -> string)
    requires AnalyzeAudio(reply).Failure?
    ensures OutcomeError(AnalyzeAudio(reply), stringify) == Some(AnalyzeAudio(reply).error.message)
  {
  }

  /** The screens `renderContent` can show. */
  datatype View = ErrorView(message: string) | AnalyzingView | ResultsView(data: JsValue) | HomeView | Placeholder(tab: string)

  /** The shell's `useState` fields. `error` is null or a string. */
  class App {
    var currentTab: string
    var showRecording: bool
    var analysisResult: JsValue
    var isAnalyzing: bool
    var error: Option<string>

    constructor ()
      ensures currentTab == "home" && !showRecording && analysisResult == Null
      ensures !isAnalyzing && error == None
    {
      currentTab, showRecording, analysisResult, isAnalyzing, error := "home", false, Null, false, None;
    }

    /** `error` is truthy: set and not empty. */
    predicate HasError()
      reads this
    {
      error.Some? && error.value != ""
    }

    /** `renderContent`: error, then loading, then results, then the home
        tab, then a placeholder for other tabs. */
    function Content(): (v: View)
      reads this
      ensures v.ErrorView? <==> HasError()
      ensures v.AnalyzingView? <==> !HasError() && isAnalyzing
      ensures v.ResultsView? <==> !HasError() && !isAnalyzing && Truthy(analysisResult)
      ensures v.HomeView? <==> !HasError() && !isAnalyzing && !Truthy(analysisResult) && currentTab == "home"
    {
      if HasError() then ErrorView(error.value)
      else if isAnalyzing then AnalyzingView
      else if Truthy(analysisResult) then ResultsView(analysisResult)
      else if currentTab == "home" then HomeView
      else Placeholder(currentTab)
    }

    /** The recording overlay is mounted while `showRecording` is set and no
        analysis runs. */
    predicate RecordingOverlayVisible()
      reads this
    {
      showRecording && !isAnalyzing
    }

    /** The navigation bar: no result, no analysis, no overlay, no error. */
    predicate NavBarVisible()
      reads this
    {
      !Truthy(analysisResult) && !isAnalyzing && !showRecording && !HasError()
    }

    /** `handleSave`: back to the tabs with nothing pending. */
    method HandleSave()
      modifies this
      ensures analysisResult == Null && !showRecording && error == None
      ensures isAnalyzing == old(isAnalyzing) && currentTab == old(currentTab)
      ensures !isAnalyzing ==> NavBarVisible()
    {
      analysisResult := Null;
      showRecording := false;
      error := None;
    }

    /** The results screen's `onBack`. */
    method OnBack()
      modifies this
      ensures analysisResult == Null && !isAnalyzing
      ensures showRecording == old(showRecording) && error == old(error) && currentTab == old(currentTab)
      ensures !HasError() ==> Content() == (if currentTab == "home" then HomeView else Placeholder(currentTab))
    {
      analysisResult := Null;
      isAnalyzing := false;
    }

    /** The error screen's button. */
    method DismissError()
      modifies this
      ensures error == None
      ensures showRecording == old(showRecording) && analysisResult == old(analysisResult)
      ensures isAnalyzing == old(isAnalyzing) && currentTab == old(currentTab)
    {
      error := None;
    }

    /** The home screen's record button. */
    method OnRecordStart()
      modifies this
      ensures showRecording && !NavBarVisible()
      ensures analysisResult == old(analysisResult) && isAnalyzing == old(isAnalyzing)
      ensures error == old(error) && currentTab == old(currentTab)
    {
      showRecording := true;
    }

    /** The recording overlay's `onClose`. */
    method OnRecordingClose()
      modifies this
      ensures !showRecording && !RecordingOverlayVisible()
      ensures analysisResult == old(analysisResult) && isAnalyzing == old(isAnalyzing)
      ensures error == old(error) && currentTab == old(currentTab)
    {
      showRecording := false;
    }

    /** The navigation bar's `onTabChange`. */
    method TabChange(tab: string)
      modifies this
      ensures currentTab == tab
      ensures showRecording == old(showRecording) && analysisResult == old(analysisResult)
      ensures isAnalyzing == old(isAnalyzing) && error == old(error)
    {
      currentTab := tab;
    }

    /** The synchronous start of `handleRecordingFinish`: while the upload is
        awaited the loading screen shows, with neither overlay nor navigation
        bar. */
    method BeginAnalysis()
      modifies this
      ensures isAnalyzing && !showRecording && error == None
      ensures analysisResult == old(analysisResult) && currentTab == old(currentTab)
      ensures Content() == AnalyzingView && !RecordingOverlayVisible() && !NavBarVisible()
    {
      isAnalyzing := true;
      showRecording := false;
      error := None;
    }

    /** The rest of `handleRecordingFinish` once the upload settled: store the
        result or the error, and in every case end the analysis. */
    method FinishAnalysis(outcome: Result<JsValue, Thrown>, stringify: JsValue -> string)
      modifies this
      ensures !isAnalyzing
      ensures showRecording == old(showRecording) && currentTab == old(currentTab)
      ensures OutcomeError(outcome, stringify).None? ==>
        analysisResult == Property(outcome.value, "data") && error == old(error)
      ensures OutcomeError(outcome, stringify).Some? ==>
        analysisResult == old(analysisResult) && error == OutcomeError(outcome, stringify)
    {
      var e := OutcomeError(outcome, stringify);
      if e.None? {
        analysisResult := Property(outcome.value, "data");
      } else {
        error := e;
      }
      isAnalyzing := false;
    }

    /** `handleRecordingFinish`, with the upload's outcome as a parameter. */
    method HandleRecordingFinish(outcome: Result<JsValue, Thrown>, stringify: JsValue -> string)
      modifies this
      ensures !isAnalyzing && !showRecording && currentTab == old(currentTab)
      ensures OutcomeError(outcome, stringify).None? ==>
        analysisResult == Property(outcome.value, "data") && error == None
      ensures OutcomeError(outcome, stringify).Some? ==>
        analysisResult == old(analysisResult) && error == OutcomeError(outcome, stringify)
    {
      BeginAnalysis();
      FinishAnalysis(outcome, stringify);
    }
  }

  /** The navigation bar shows exactly over the tab screens, and only when
      the recording overlay is closed. */
  lemma NavBarOnlyOverTabs(app: App)
    ensures app.NavBarVisible() <==>
      (app.Content().HomeView? || app.Content().Placeholder?) && !app.showRecording
  {
  }

  /** The overlay never covers the loading screen. */
  lemma OverlayNeverDuringAnalysis(app: App)
    ensures app.RecordingOverlayVisible() ==> app.Content() != AnalyzingView
  {
  }
}
