/**
 * The backend's AutoML service and its `/automl/fit` endpoint: the request
 * is checked for shape, the number of cross-validation folds is clamped to
 * the sample count, each candidate model is cross-validated, and the first
 * candidate with the highest mean score wins.
 */
module BackendAutoml {
  import opened Wrappers
  import opened Seqs

  // ---------------------------------------------------------------------------
  // services/automl.py
  // ---------------------------------------------------------------------------

  datatype Task = Classification | Regression

  function TaskName(t: Task): string {
    match t
    case Classification => "classification"
    case Regression => "regression"
  }

  /** The candidate models, by name, in the order they are tried. */
  const Classifiers: seq<string> := ["LogisticRegression", "RandomForest", "SVC"]
  const Regressors: seq<string> := ["Ridge", "RandomForest", "SVR"]

  function Candidates(task: Task): (names: seq<string>)
    ensures |names| == 3
  {
    if task == Classification then Classifiers else Regressors
  }

  /** `scoring or "accuracy"` / `scoring or "r2"`: a missing or empty scoring takes the default for the kind of problem. */
  function ResolvedScoring(task: Task, scoring: Option<string>): (s: string)
    ensures s != ""
    ensures scoring.Some? && scoring.value != "" ==> s == scoring.value
    ensures (scoring.None? || scoring == Some("")) ==> s == (if task == Classification then "accuracy" else "r2")
  {
    if scoring.Some? && scoring.value != "" then scoring.value
    else if task == Classification then "accuracy" else "r2"
  }

  /** A score as Python holds it: a real number or NaN. */
  datatype Float = Real(value: real) | NaN

  /** Every fold has a real score. */
  predicate AllReal(scores: seq<Float>) {
    forall i :: 0 <= i < |scores| ==> scores[i].Real?
  }

  /** The sum of the real fold scores. */
  function Sum(scores: seq<Float>): real {
    if scores == [] then 0.0
    else (if scores[0].Real? then scores[0].value else 0.0) + Sum(scores[1..])
  }

  /**
   * `float(np.mean(scores))`: NaN as soon as one fold score is NaN, and for
   * no folds at all; otherwise the arithmetic mean.
   */
  function Mean(scores: seq<Float>): (m: Float)
    ensures m.Real? <==> scores != [] && AllReal(scores)
  {
    if scores != [] && AllReal(scores) then Real(Sum(scores) / |scores| as real) else NaN
  }

  /**
   * What cross-validating one pipeline gives: its fold scores, where a fold
   * whose fit failed scores NaN (scikit-learn's `error_score`), or an
   * exception. The scikit-learn computation itself is a parameter of the
   * model.
   */
  datatype Evaluation = Scored(cvScores: seq<Float>) | Raised

  /** One entry of `all_results`. */
  datatype ModelResult = ModelResult(model: string, meanScore: Float, cvScores: seq<Float>)

  /** `best_score`: minus infinity until some candidate has a real mean score. */
  datatype BestScore = NegInfinity | Score(value: real)

  datatype Selection = Selection(bestModel: Option<string>, bestScore: BestScore, task: Task, scoring: string, allResults: seq<ModelResult>)

  /** `mean_score > best_score`: never true for NaN. */
  predicate Beats(m: Float, best: BestScore) {
    m.Real? && (best.NegInfinity? || m.value > best.value)
  }

  /** Cross-validation of one candidate, with the folds and scoring in use. */
  type Evaluator = (string, int, string) -> Evaluation

  /** A candidate that did not raise and whose mean score is a real number. */
  predicate Usable(e: Evaluation) {
    e.Scored? && Mean(e.cvScores).Real?
  }

  function Succeeds(evaluate: Evaluator, cv: int, scoring: string): string -> bool {
    (name: string) => evaluate(name, cv, scoring).Scored?
  }

  function ResultOf(evaluate: Evaluator, cv: int, scoring: string): string -> ModelResult {
    (name: string) =>
      var e := evaluate(name, cv, scoring);
      var scores := if e.Scored? then e.cvScores else [];
      ModelResult(name, Mean(scores), scores)
  }

  /** The results of the candidates whose evaluation did not raise, in candidate order. */
  function AllResults(names: seq<string>, evaluate: Evaluator, cv: int, scoring: string): seq<ModelResult> {
    Map(Filter(names, Succeeds(evaluate, cv, scoring)), ResultOf(evaluate, cv, scoring))
  }

  /** No result has a real mean score. */
  predicate NoneScored(results: seq<ModelResult>) {
    forall i :: 0 <= i < |results| ==> results[i].meanScore.NaN?
  }

  /**
   * The best model is the first result with the highest real mean score
   * (later ties and NaN means do not replace it); when no result has a real
   * mean there is no best model and the best score is minus infinity.
   */
  ghost predicate IsFirstBest(results: seq<ModelResult>, bestModel: Option<string>, bestScore: BestScore) {
    if NoneScored(results) then bestModel.None? && bestScore.NegInfinity?
    else exists i :: 0 <= i < |results| && IsBestAt(results, i, bestModel, bestScore)
  }

  ghost predicate IsBestAt(results: seq<ModelResult>, i: int, bestModel: Option<string>, bestScore: BestScore)
    requires 0 <= i < |results|
  {
    && results[i].meanScore.Real?
    && bestModel == Some(results[i].model)
    && bestScore == Score(results[i].meanScore.value)
    && (forall j :: 0 <= j < i ==> results[j].meanScore.NaN? || results[j].meanScore.value < results[i].meanScore.value)
    && (forall j :: i < j < |results| ==> results[j].meanScore.NaN? || results[j].meanScore.value <= results[i].meanScore.value)
  }

  /** What `select_best_model` returns for a task, fold count and scoring. */
  ghost predicate IsSelection(r: Selection, task: Task, cv: int, scoring: Option<string>, evaluate: Evaluator) {
    var s := ResolvedScoring(task, scoring);
    && r.task == task
    && r.scoring == s
    && r.allResults == AllResults(Candidates(task), evaluate, cv, s)
    && IsFirstBest(r.allResults, r.bestModel, r.bestScore)
  }

  /** `select_best_model`: every candidate is tried in order; one that raises is skipped. */
  method SelectBestModel(task: Task, cv: int, scoring: Option<string>, evaluate: Evaluator) returns (r: Selection)
    ensures IsSelection(r, task, cv, scoring, evaluate)
  {
    var candidates := Candidates(task);
    var s := ResolvedScoring(task, scoring);
    var bestName: Option<string> := None;
    var bestScore := NegInfinity;
    var results: seq<ModelResult> := [];
    ghost var bestIndex := -1;
    for k := 0 to |candidates|
      invariant results == AllResults(candidates[..k], evaluate, cv, s)
      invariant -1 <= bestIndex < |results|
      invariant bestIndex == -1 ==> NoneScored(results) && bestName.None? && bestScore.NegInfinity?
      invariant bestIndex >= 0 ==> IsBestAt(results, bestIndex, bestName, bestScore)
    {
      var name := candidates[k];
      AllResultsStep(candidates, k, evaluate, cv, s);
      var e := evaluate(name, cv, s);
      if e.Scored? {
        var meanScore := Mean(e.cvScores);
        var entry := ModelResult(name, meanScore, e.cvScores);
        BestStep(results, entry, bestIndex, bestName, bestScore);
        if Beats(meanScore, bestScore) {
          bestScore := Score(meanScore.value);
          bestName := Some(name);
          bestIndex := |results|;
        }
        results := results + [entry];
      }
    }
    assert candidates[..|candidates|] == candidates;
    r := Selection(bestName, bestScore, task, s, results);
  }

  /** One more candidate adds its result exactly when its evaluation does not raise. */
  lemma AllResultsStep(names: seq<string>, k: int, evaluate: Evaluator, cv: int, scoring: string)
    requires 0 <= k < |names|
    ensures AllResults(names[..k + 1], evaluate, cv, scoring) ==
      AllResults(names[..k], evaluate, cv, scoring)
      + (if evaluate(names[k], cv, scoring).Scored? then [ResultOf(evaluate, cv, scoring)(names[k])] else [])
  {
    var ok := Succeeds(evaluate, cv, scoring);
    assert names[..k + 1][..k] == names[..k];
    var kept := Filter(names[..k], ok);
    if ok(names[k]) {
      assert Filter(names[..k + 1], ok) == kept + [names[k]];
      MapAppend(kept, [names[k]], ResultOf(evaluate, cv, scoring));
    } else {
      assert Filter(names[..k + 1], ok) == kept;
    }
  }

  /**
   * A strictly higher real mean score takes over; an equal or lower one, or
   * NaN, leaves the best where it was (or absent).
   */
  lemma BestStep(results: seq<ModelResult>, entry: ModelResult, i: int, bestModel: Option<string>, bestScore: BestScore)
    requires -1 <= i < |results|
    requires i == -1 ==> NoneScored(results) && bestScore.NegInfinity?
    requires i >= 0 ==> IsBestAt(results, i, bestModel, bestScore)
    ensures Beats(entry.meanScore, bestScore) ==> IsBestAt(results + [entry], |results|, Some(entry.model), Score(entry.meanScore.value))
    ensures !Beats(entry.meanScore, bestScore) && i == -1 ==> NoneScored(results + [entry])
    ensures !Beats(entry.meanScore, bestScore) && i >= 0 ==> IsBestAt(results + [entry], i, bestModel, bestScore)
  {
    var next := results + [entry];
    if i >= 0 {
      forall j | 0 <= j < |results| ensures results[j].meanScore.NaN? || results[j].meanScore.value <= results[i].meanScore.value {
        if j < i {
          assert results[j].meanScore.NaN? || results[j].meanScore.value < results[i].meanScore.value;
        }
      }
    }
  }

  /**
   * The best model is one of the candidates for the kind of problem, and one
   * with a real mean score; there is none, and the best score stays minus
   * infinity, exactly when every candidate raised or has a NaN mean.
   */
  lemma SelectionSpec(r: Selection, task: Task, cv: int, scoring: Option<string>, evaluate: Evaluator)
    requires IsSelection(r, task, cv, scoring, evaluate)
    ensures |r.allResults| <= |Candidates(task)|
    ensures r.bestModel.Some? ==> r.bestModel.value in Candidates(task)
    ensures r.bestModel.Some? ==> Usable(evaluate(r.bestModel.value, cv, r.scoring))
    ensures r.bestModel.None? <==> r.bestScore.NegInfinity?
    ensures r.bestModel.None? <==> forall name :: name in Candidates(task) ==> !Usable(evaluate(name, cv, r.scoring))
  {
    var names := Candidates(task);
    var ok := Succeeds(evaluate, cv, r.scoring);
    var kept := Filter(names, ok);
    FilterSpec(names, ok);
    if r.bestModel.Some? {
      var i :| 0 <= i < |r.allResults| && IsBestAt(r.allResults, i, r.bestModel, r.bestScore);
      var name := kept[i];
      assert name in names && ok(name);
    }
    if forall name :: name in names ==> !Usable(evaluate(name, cv, r.scoring)) {
      forall i | 0 <= i < |r.allResults| ensures r.allResults[i].meanScore.NaN? {
        assert kept[i] in names;
      }
    } else {
      var name :| name in names && Usable(evaluate(name, cv, r.scoring));
      var k :| 0 <= k < |names| && names[k] == name;
      assert name in kept;
      var i :| 0 <= i < |kept| && kept[i] == name;
      assert r.allResults[i].meanScore.Real?;
    }
  }

  /**
   * The selection can be written as JSON (Starlette refuses NaN and
   * infinite floats): there is a best score, and every mean and fold score
   * is a real number.
   */
  predicate JsonSafe(r: Selection) {
    && r.bestScore.Score?
    && forall i :: 0 <= i < |r.allResults| ==> r.allResults[i].meanScore.Real? && AllReal(r.allResults[i].cvScores)
  }

  /**
   * A selection can be written as JSON exactly when some candidate is usable
   * and every candidate either raised or is usable.
   */
  lemma JsonSafeSpec(r: Selection, task: Task, cv: int, scoring: Option<string>, evaluate: Evaluator)
    requires IsSelection(r, task, cv, scoring, evaluate)
    ensures JsonSafe(r) <==>
      (exists name :: name in Candidates(task) && Usable(evaluate(name, cv, r.scoring)))
      && (forall name :: name in Candidates(task) ==> evaluate(name, cv, r.scoring).Raised? || Usable(evaluate(name, cv, r.scoring)))
  {
    SelectionSpec(r, task, cv, scoring, evaluate);
    var names := Candidates(task);
    var ok := Succeeds(evaluate, cv, r.scoring);
    var kept := Filter(names, ok);
    FilterSpec(names, ok);
    if forall name :: name in names ==> evaluate(name, cv, r.scoring).Raised? || Usable(evaluate(name, cv, r.scoring)) {
      forall i | 0 <= i < |r.allResults| ensures r.allResults[i].meanScore.Real? && AllReal(r.allResults[i].cvScores) {
        assert kept[i] in names && ok(kept[i]);
      }
    } else {
      var name :| name in names && !evaluate(name, cv, r.scoring).Raised? && !Usable(evaluate(name, cv, r.scoring));
      var k :| 0 <= k < |names| && names[k] == name;
      assert name in kept;
      var i :| 0 <= i < |kept| && kept[i] == name;
      assert r.allResults[i].meanScore.NaN?;
    }
  }

  // ---------------------------------------------------------------------------
  // routers/automl.py
  // ---------------------------------------------------------------------------

  /** The body of a fit request; `cv` defaults to 3 when the field is left out. */
  datatype FitRequest = FitRequest(features: seq<seq<real>>, target: seq<real>, task: Task, cv: Option<int>, scoring: Option<string>)

  datatype FitResponse = Fitted(result: Selection) | HttpError(status: int, detail: string)

  const InternalServerError := "Internal Server Error"

  const ShapeError := "features must be 2D array, target 1D array, same length and at least 2 samples."

  /** Every row has the length of the first, so that the rows form a matrix. */
  predicate Rectangular(features: seq<seq<real>>) {
    forall i :: 0 <= i < |features| ==> |features[i]| == |features[0]|
  }

  /**
   * The shape check on the request: features that do not form a matrix
   * cannot be converted at all (an unhandled server error); otherwise the
   * request is rejected unless there are as many targets as rows and at
   * least two rows. An empty feature list is one-dimensional, which the
   * sample count already rules out.
   */
  function ShapeCheck(features: seq<seq<real>>, target: seq<real>): (r: Option<FitResponse>)
    ensures r.None? <==> Rectangular(features) && |features| == |target| && |features| >= 2
    ensures r.Some? ==> r.value.HttpError? && (r.value.status == 400 <==> Rectangular(features))
  {
    if !Rectangular(features) then Some(HttpError(500, InternalServerError))
    else if |features| != |target| || |features| < 2 then Some(HttpError(400, ShapeError))
    else None
  }

  function Max(a: int, b: int): int { if a >= b then a else b }

  /** `min(req.cv or 3, max(2, len(X) // 2))`. */
  function EffectiveCv(cv: Option<int>, n: nat): int {
    Min(if cv.Some? && cv.value != 0 then cv.value else 3, Max(2, n / 2))
  }

  /**
   * The fold count never exceeds half the samples (or 2), a missing or zero
   * fold count means 3 before clamping, and the result is at least 2 unless
   * the request asked for fewer.
   */
  lemma EffectiveCvSpec(cv: Option<int>, n: nat)
    ensures EffectiveCv(cv, n) <= Max(2, n / 2)
    ensures (cv.None? || cv == Some(0)) ==> EffectiveCv(cv, n) == Min(3, Max(2, n / 2))
    ensures (cv.None? || cv == Some(0) || cv.value >= 2) ==> EffectiveCv(cv, n) >= 2
    ensures cv.Some? && 2 <= cv.value <= n / 2 ==> EffectiveCv(cv, n) == cv.value
  {
  }

  /**
   * `automl_fit`: shape check, then model selection with the clamped fold
   * count. The selection is answered as JSON, which fails with a server
   * error when its best score is minus infinity or a score is NaN.
   */
  method AutomlFit(req: FitRequest, evaluate: Evaluator) returns (resp: FitResponse)
    ensures ShapeCheck(req.features, req.target).Some? ==> resp == ShapeCheck(req.features, req.target).value
    ensures resp.Fitted? ==> IsSelection(resp.result, req.task, EffectiveCv(req.cv, |req.features|), req.scoring, evaluate) && JsonSafe(resp.result)
    ensures ShapeCheck(req.features, req.target).None? ==>
      var cv, s := EffectiveCv(req.cv, |req.features|), ResolvedScoring(req.task, req.scoring);
      && (resp.Fitted? <==>
          (exists name :: name in Candidates(req.task) && Usable(evaluate(name, cv, s)))
          && (forall name :: name in Candidates(req.task) ==> evaluate(name, cv, s).Raised? || Usable(evaluate(name, cv, s))))
      && (resp.HttpError? ==> resp == HttpError(500, InternalServerError))
  {
    var check := ShapeCheck(req.features, req.target);
    if check.Some? {
      return check.value;
    }
    var cv := EffectiveCv(req.cv, |req.features|);
    var r := SelectBestModel(req.task, cv, req.scoring, evaluate);
    JsonSafeSpec(r, req.task, cv, req.scoring, evaluate);
    if JsonSafe(r) {
      return Fitted(r);
    }
    return HttpError(500, InternalServerError);
  }
}
