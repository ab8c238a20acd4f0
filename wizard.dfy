/**
 * The page's five-step wizard: upload, exploratory analysis, predictive modelling,
 * the testing screen and the results. The page object holds the current step, the
 * loaded data and the last forecast; the handlers move forward, `GoBack` one step back.
 */
module Wizard {
  import opened Records

  datatype AppStep = Upload | Analysis | Modeling | PythonTesting | Results

  /** The order of the steps, shared by the progress header and by `goBack`. */
  const StepOrder: seq<AppStep> := [Upload, Analysis, Modeling, PythonTesting, Results]

  /** `indexOf`: the first position of `x` in `s`, or -1 when it is absent. */
  function IndexOf(s: seq<AppStep>, x: AppStep): (r: int)
    ensures r == -1 <==> x !in s
    ensures r != -1 ==> 0 <= r < |s| && s[r] == x && x !in s[..r]
  {
    if s == [] then -1
    else if s[0] == x then 0
    else
      var r := IndexOf(s[1..], x);
      assert r != -1 ==> s[..r + 1] == [s[0]] + s[1..][..r];
      if r == -1 then -1 else r + 1
  }

  /** `getStepIndex` / `stepOrder.indexOf`, which every step is found by. */
  function StepIndex(step: AppStep): (i: nat)
    ensures i < |StepOrder| && StepOrder[i] == step
  {
    IndexOf(StepOrder, step)
  }

  /** `((currentStepIndex + 1) / steps.length) * 100`: one fifth of the bar per step reached. */
  function Progress(step: AppStep): (p: real)
    ensures p in {20.0, 40.0, 60.0, 80.0, 100.0}
    ensures p == 100.0 <==> step == Results
  {
    ((StepIndex(step) + 1) as real / (|StepOrder| as real)) * 100.0
  }

  /** The bar grows with every step forward. */
  lemma {:induction false} ProgressMonotone(a: AppStep, b: AppStep)
    ensures StepIndex(a) < StepIndex(b) <==> Progress(a) < Progress(b)
  {
    var i, j := StepIndex(a), StepIndex(b);
    assert Progress(a) == (i + 1) as real * 20.0;
    assert Progress(b) == (j + 1) as real * 20.0;
  }

  /** The step `goBack` moves to: the previous one in the order, and none before the first. */
  function PreviousStep(step: AppStep): (r: AppStep)
    ensures step == Upload ==> r == Upload
    ensures step != Upload ==> StepIndex(r) + 1 == StepIndex(step)
  {
    var i := IndexOf(StepOrder, step);
    if i > 0 then StepOrder[i - 1] else step
  }

  /** Going back from any step but the first takes exactly one fifth from the bar. */
  lemma {:induction false} PreviousStepProgress(step: AppStep)
    requires step != Upload
    ensures Progress(PreviousStep(step)) == Progress(step) - 20.0
  {
    var i := StepIndex(step);
    assert Progress(step) == (i + 1) as real * 20.0;
    assert Progress(PreviousStep(step)) == i as real * 20.0;
  }

  /** `isActive`: the header marks the current step. */
  predicate IsActive(current: AppStep, step: AppStep)
  {
    current == step
  }

  /** `isCompleted`: the header marks the steps before the current one. */
  predicate IsCompleted(current: AppStep, index: int)
  {
    index < StepIndex(current)
  }

  /**
   * Exactly one step of the header is active, the current one; the completed ones are those
   * listed before it, so the active one is not completed.
   */
  lemma {:induction false} HeaderMarks(current: AppStep)
    ensures forall i :: 0 <= i < |StepOrder| ==> (IsActive(current, StepOrder[i]) <==> i == StepIndex(current))
    ensures forall i :: 0 <= i < |StepOrder| ==> (IsCompleted(current, i) <==> StepIndex(StepOrder[i]) < StepIndex(current))
    ensures !IsCompleted(current, StepIndex(current))
  {
    forall i | 0 <= i < |StepOrder| ensures StepIndex(StepOrder[i]) == i {
      assert StepOrder[StepIndex(StepOrder[i])] == StepOrder[i];
    }
  }

  /** The back button is shown on every step but the first. */
  predicate ShowsBackButton(current: AppStep)
  {
    current != Upload
  }

  /** Whenever the back button is shown, pressing it moves the wizard. */
  lemma {:induction false} BackButtonMoves(current: AppStep)
    ensures ShowsBackButton(current) <==> PreviousStep(current) != current
  {
    if current != Upload {
      assert StepIndex(PreviousStep(current)) != StepIndex(current);
    }
  }

  /** The page state. */
  class App {
    var currentStep: AppStep
    /** `null` until data is loaded. */
    var processedData: Option<seq<HistoricalRow>>
    var forecastData: seq<ForecastRecord>

    /** The page starts at the upload step with nothing loaded. */
    constructor()
      ensures currentStep == Upload && processedData == None && forecastData == []
    {
      currentStep := Upload;
      processedData := None;
      forecastData := [];
    }

    /** `handleDataLoaded`: keeps the data and moves to the analysis. */
    method HandleDataLoaded(data: seq<HistoricalRow>)
      modifies this
      ensures currentStep == Analysis && processedData == Some(data) && forecastData == old(forecastData)
    {
      processedData := Some(data);
      currentStep := Analysis;
    }

    /** `handleStartModeling`. */
    method HandleStartModeling()
      modifies this
      ensures currentStep == Modeling
      ensures processedData == old(processedData) && forecastData == old(forecastData)
    {
      currentStep := Modeling;
    }

    /** `handleStartPythonTesting`. */
    method HandleStartPythonTesting()
      modifies this
      ensures currentStep == PythonTesting
      ensures processedData == old(processedData) && forecastData == old(forecastData)
    {
      currentStep := PythonTesting;
    }

    /** `handleForecastGenerated`: keeps the forecast and moves to the results. */
    method HandleForecastGenerated(forecast: seq<ForecastRecord>)
      modifies this
      ensures currentStep == Results && forecastData == forecast && processedData == old(processedData)
    {
      forecastData := forecast;
      currentStep := Results;
    }

    /** `goBack`: looks up the current step's index and steps back one, staying put at the upload. */
    method GoBack()
      modifies this
      ensures currentStep == PreviousStep(old(currentStep))
      ensures old(currentStep) == Upload ==> currentStep == Upload
      ensures old(currentStep) != Upload ==> StepIndex(currentStep) + 1 == StepIndex(old(currentStep))
      ensures processedData == old(processedData) && forecastData == old(forecastData)
    {
      var currentIndex := IndexOf(StepOrder, currentStep);
      if currentIndex > 0 {
        currentStep := StepOrder[currentIndex - 1];
      }
    }

    /** The section rendered below the header: a step other than the upload also needs its data. */
    predicate ShowsSection(step: AppStep)
      reads this
    {
      currentStep == step
      && match step
         case Upload => true
         case Analysis | Modeling | PythonTesting => processedData.Some?
         case Results => |forecastData| > 0
    }
  }

  /** One section at most is rendered at a time, and only the current step's. */
  lemma {:induction false} OneSectionAtATime(app: App, a: AppStep, b: AppStep)
    requires app.ShowsSection(a) && app.ShowsSection(b)
    ensures a == b && a == app.currentStep
  {
  }

  /**
   * Generating a forecast from either generator screen and then going back lands on the
   * testing screen, whichever screen the forecast came from.
   */
  method ForecastThenBack(app: App, forecast: seq<ForecastRecord>)
    modifies app
    ensures app.currentStep == PythonTesting && app.forecastData == forecast
    ensures app.processedData == old(app.processedData)
  {
    app.HandleForecastGenerated(forecast);
    app.GoBack();
  }

  /**
   * The whole forward path: loading data, starting the modelling and generating a forecast
   * ends on a non-empty results screen exactly when the forecast is not empty.
   */
  method ForwardPath(data: seq<HistoricalRow>, forecast: seq<ForecastRecord>) returns (shown: bool)
    ensures shown <==> forecast != []
  {
    var app := new App();
    app.HandleDataLoaded(data);
    app.HandleStartModeling();
    assert app.ShowsSection(Modeling);
    app.HandleForecastGenerated(forecast);
    shown := app.ShowsSection(Results);
  }
}
