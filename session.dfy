// The submit step of the page and the session state it keeps between reruns.
// The premium predictor is an opaque function of the profile that either
// returns a premium or fails with a cause; its inference is not part of this
// model.

module Session {
  import opened Profiles
  import opened Risk

  datatype Option<T> = None | Some(value: T)

  /** What the premium predictor gives back: a value, or the cause of the
      exception it raised. */
  datatype Outcome<T> = Ok(value: T) | Failed(cause: string)

  /** A premium together with the risk level computed beside it. */
  datatype Prediction = Prediction(premium: real, level: RiskLevel)

  /** What the page shows after a submit. */
  datatype Display =
    | ResultCard(premium: real, levelLabel: string, levelColour: string)
    | ErrorBanner(message: string)

  const ERROR_PREFIX := "Prediction failed: "

  /** One evaluation: forward the prediction outcome, and only when it
      succeeded classify the profile's risk. A failure carries no level. */
  function Evaluate(p: Profile, predicted: Outcome<real>): (r: Outcome<Prediction>)
    ensures r.Ok? <==> predicted.Ok?
    ensures r.Ok? ==> r.value.premium == predicted.value && r.value.level == ProfileRiskLevel(p)
    ensures r.Failed? ==> r.cause == predicted.cause
  {
    match predicted
    case Ok(premium) => Ok(Prediction(premium, LevelOf(ProfileRiskScore(p))))
    case Failed(cause) => Failed(cause)
  }

  /** The page's output for an evaluation: a result card with the premium
      and the level's word and colour, or an error banner made of the
      error prefix followed by the cause. */
  function Render(r: Outcome<Prediction>): (d: Display)
    ensures d.ResultCard? <==> r.Ok?
    ensures r.Ok? ==>
      d.premium == r.value.premium &&
      d.levelLabel == r.value.level.Label() && d.levelColour == r.value.level.Colour()
    ensures r.Failed? ==>
      |d.message| == |ERROR_PREFIX| + |r.cause| &&
      d.message[..|ERROR_PREFIX|] == ERROR_PREFIX && d.message[|ERROR_PREFIX|..] == r.cause
  {
    match r
    case Ok(prediction) =>
      ResultCard(prediction.premium, prediction.level.Label(), prediction.level.Colour())
    case Failed(cause) => ErrorBanner(ERROR_PREFIX + cause)
  }

  /** Evaluating a profile shows a result card exactly when the predictor
      succeeds, with the level that the four risk fields alone determine;
      otherwise it shows the predictor's cause behind the error prefix. */
  lemma RenderedEvaluation(p: Profile, q: Profile, predicted: Outcome<real>)
    requires p.smoking == q.smoking && p.medicalHistory == q.medicalHistory
    requires p.bmi == q.bmi && p.age == q.age
    ensures Render(Evaluate(p, predicted)).ResultCard? <==> predicted.Ok?
    ensures Render(Evaluate(p, predicted)) == Render(Evaluate(q, predicted))
    ensures predicted.Failed? ==>
      Render(Evaluate(p, predicted)) == ErrorBanner(ERROR_PREFIX + predicted.cause)
  {
    LevelIgnoresOtherFields(p, q);
  }

  /** The session keys the page uses; None is a key not yet in the session. */
  datatype SessionValues = SessionValues(showPrediction: Option<bool>, predictionValue: Option<real>)

  /** The page's initialisation, run on every rerun: each key is set to its
      initial value only when it is absent. */
  function Initialized(v: SessionValues): (r: SessionValues)
    ensures r.showPrediction.Some? && r.predictionValue.Some?
    ensures v.showPrediction.Some? ==> r.showPrediction == v.showPrediction
    ensures v.predictionValue.Some? ==> r.predictionValue == v.predictionValue
    ensures v.showPrediction.None? ==> r.showPrediction == Some(false)
    ensures v.predictionValue.None? ==> r.predictionValue == Some(0.0)
  {
    SessionValues(
      if v.showPrediction.None? then Some(false) else v.showPrediction,
      if v.predictionValue.None? then Some(0.0) else v.predictionValue)
  }

  /** The session after a submit: the prediction is marked shown before the
      predictor runs, and the stored premium changes only when it succeeds. */
  function AfterSubmit(v: SessionValues, predicted: Outcome<real>): (r: SessionValues)
    ensures r.showPrediction == Some(true)
    ensures predicted.Ok? ==> r.predictionValue == Some(predicted.value)
    ensures predicted.Failed? ==> r.predictionValue == v.predictionValue
  {
    SessionValues(
      Some(true),
      match predicted
      case Ok(premium) => Some(premium)
      case Failed(_) => v.predictionValue)
  }

  /** Rerunning the initialisation changes nothing, whether it follows a
      previous initialisation or a submit. */
  lemma InitializedIdempotent(v: SessionValues, predicted: Outcome<real>)
    ensures Initialized(Initialized(v)) == Initialized(v)
    ensures Initialized(AfterSubmit(Initialized(v), predicted)) == AfterSubmit(Initialized(v), predicted)
  {
  }

  /** A failed submit after a successful one keeps the earlier premium, and
      still marks the prediction shown. */
  lemma FailureKeepsEarlierPremium(v: SessionValues, premium: real, cause: string)
    ensures AfterSubmit(AfterSubmit(v, Ok(premium)), Failed(cause)) ==
      SessionValues(Some(true), Some(premium))
  {
  }

  /** The browser session: the two keys the page reads and writes. */
  class SessionState {
    var showPrediction: Option<bool>
    var predictionValue: Option<real>

    function Values(): SessionValues
      reads this
    {
      SessionValues(showPrediction, predictionValue)
    }

    /** A new session holds neither key. */
    constructor ()
      ensures Values() == SessionValues(None, None)
    {
      showPrediction := None;
      predictionValue := None;
    }

    /** The initialisation at the top of the page. */
    method Initialize()
      modifies this
      ensures Values() == Initialized(old(Values()))
    {
      if showPrediction.None? {
        showPrediction := Some(false);
      }
      if predictionValue.None? {
        predictionValue := Some(0.0);
      }
    }

    /** The predict button: mark the prediction shown, ask the predictor, and
        only on success store the premium and classify the risk. */
    method Submit(p: Profile, predict: Profile -> Outcome<real>) returns (shown: Display)
      modifies this
      ensures Values() == AfterSubmit(old(Values()), predict(p))
      ensures shown == Render(Evaluate(p, predict(p)))
    {
      showPrediction := Some(true);
      var predicted := predict(p);
      match predicted
      case Ok(premium) =>
        predictionValue := Some(premium);
        var score := ComputeRiskScore(p.smoking, p.medicalHistory, p.bmi, p.age);
        var level := LevelOf(score);
        shown := ResultCard(premium, level.Label(), level.Colour());
      case Failed(cause) =>
        shown := ErrorBanner(ERROR_PREFIX + cause);
    }
  }
}
