/**
 * The analysis run of the optimizer application: which profile and data
 * it analyses (a parsed upload or the industry's demonstration data),
 * which AutoML result it shows (the server's, when it names a model with
 * a finite score, or the built-in simulation), and the top-five model
 * ranking it displays.
 *
 * The AutoML server's reply and the uploaded file's text are parameters;
 * the waits between steps are not modelled.
 */
module AppPlatform {
  import opened Wrappers
  import opened Seqs
  import opened MesTypes
  import opened CsvParser
  import BackendAutoml
  import Analysis

  // ---------------------------------------------------------------------------
  // Demonstration profiles and data
  // ---------------------------------------------------------------------------

  /** `getMockProfileForIndustry`: the profile analysed when no file was parsed. */
  function MockProfile(industry: Industry): (p: DataProfile)
    ensures p.noiseLevel == 0.15 && p.seasonality && p.missingValues == 24
    ensures p.dataTypes == map["Sensor" := "Continuous", "State" := "Categorical"]
    ensures 4 <= |p.features| <= 5 && 5200 <= p.recordsCount <= 12500
  {
    var types := map["Sensor" := "Continuous", "State" := "Categorical"];
    match industry
    case Electronics =>
      DataProfile(["Temperature", "Pressure", "Vibration", "Spindle_Speed", "Torque"], 8500, 0.15, true, 24, types)
    case Automotive =>
      DataProfile(["State", "Torque", "Spindle_Speed", "Sensor"], 12000, 0.15, true, 24, types)
    case Pharmaceutical =>
      DataProfile(["State", "Sensor", "Temperature", "Pressure"], 5200, 0.15, true, 24, types)
    case FoodBeverage =>
      DataProfile(["Temperature", "Pressure", "Sensor", "State"], 6800, 0.15, true, 24, types)
    case Semiconductor =>
      DataProfile(["Temperature", "Pressure", "Vibration", "Spindle_Speed", "Torque"], 12500, 0.15, true, 24, types)
  }

  /**
   * Different industries get different profiles (the record counts differ),
   * so the recommendations can differ by industry; Semiconductor shares its
   * feature list with Electronics.
   */
  lemma MockProfilesDiffer(i: Industry, j: Industry)
    ensures i != j ==> MockProfile(i).recordsCount != MockProfile(j).recordsCount
    ensures MockProfile(Semiconductor).features == MockProfile(Electronics).features
  {
  }

  /** The fixed 10 x 5 feature matrix sent when no file was parsed. */
  const MockFeatures: seq<seq<real>> := [
    [1.0, 2.0, 3.0, 4.0, 5.0], [2.0, 3.0, 4.0, 5.0, 6.0], [1.0, 1.0, 2.0, 2.0, 3.0], [3.0, 4.0, 5.0, 6.0, 7.0],
    [2.0, 2.0, 3.0, 4.0, 4.0], [4.0, 5.0, 6.0, 7.0, 8.0], [1.0, 3.0, 3.0, 5.0, 5.0], [5.0, 6.0, 7.0, 8.0, 9.0],
    [2.0, 4.0, 4.0, 6.0, 6.0], [6.0, 7.0, 8.0, 9.0, 10.0]]

  /** The alternating 0/1 target sent with it. */
  const MockTarget: seq<real> := [0.0, 1.0, 0.0, 1.0, 0.0, 1.0, 0.0, 1.0, 0.0, 1.0]

  // ---------------------------------------------------------------------------
  // The input of a run
  // ---------------------------------------------------------------------------

  /** What a run analyses, and the parse error it shows (None clears it). */
  datatype RunInput = RunInput(profile: DataProfile, features: seq<seq<real>>, target: seq<real>, parseError: Option<string>)

  /** The start of `runAnalysis`: the upload's text, when there is one, is parsed; a failure keeps the demonstration data. */
  function PrepareInput(industry: Industry, upload: Option<string>, parseNum: string -> Option<real>): RunInput {
    var mock := RunInput(MockProfile(industry), MockFeatures, MockTarget, None);
    match upload
    case None => mock
    case Some(text) =>
      match ParseCsv(text, parseNum)
      case Success(features, target, profile) => RunInput(profile, features, target, None)
      case Failure(error) => mock.(parseError := Some(error))
  }

  /**
   * A successful parse replaces profile, matrix and target together and
   * clears the error; otherwise the industry's profile and the fixed data
   * are used, with the parse error shown exactly when a file failed.
   */
  lemma PrepareInputSpec(industry: Industry, upload: Option<string>, parseNum: string -> Option<real>)
    ensures var r := PrepareInput(industry, upload, parseNum);
      if upload.Some? && ParseCsv(upload.value, parseNum).Success? then
        var p := ParseCsv(upload.value, parseNum);
        r == RunInput(p.profile, p.features, p.target, None)
      else
        && r.profile == MockProfile(industry) && r.features == MockFeatures && r.target == MockTarget
        && (r.parseError.Some? <==> upload.Some?)
        && (upload.Some? ==> r.parseError == Some(ParseCsv(upload.value, parseNum).error))
  {
  }

  /**
   * Whatever the upload, the matrix and target a run sends pass the AutoML
   * endpoint's shape check: rows of one width, one target per row, and at
   * least two rows; so the request the application sends (classification,
   * `cv` 3) is never answered with an HTTP error.
   */
  lemma InputPassesShapeCheck(industry: Industry, upload: Option<string>, parseNum: string -> Option<real>)
    ensures var r := PrepareInput(industry, upload, parseNum);
      && BackendAutoml.ShapeCheck(r.features, r.target).None?
      && BackendAutoml.EffectiveCv(Some(3), |r.features|) >= 2
  {
    var r := PrepareInput(industry, upload, parseNum);
    if upload.Some? && ParseCsv(upload.value, parseNum).Success? {
      ParseCsvSuccess(upload.value, parseNum);
      assert BackendAutoml.Rectangular(r.features);
    } else {
      assert BackendAutoml.Rectangular(MockFeatures);
    }
  }

  // ---------------------------------------------------------------------------
  // The AutoML result shown
  // ---------------------------------------------------------------------------

  /** A JSON number: finite, or not (`NaN`, `Infinity`). */
  datatype Num = Finite(value: real) | NonFinite

  /** One entry of `all_results`. */
  datatype ModelScore = ModelScore(model: string, meanScore: real)

  /** The AutoML result as the application receives and shows it; absent members are `None`. */
  datatype FitResult = FitResult(
    bestModel: Option<string>,
    bestScore: Num,
    task: string,
    scoring: string,
    allResults: Option<seq<ModelScore>>,
    preprocessing: Option<seq<string>>,
    visualization: Option<seq<string>>)

  /** The client's answer: the server's result, or an error message ("" when no server is configured). */
  datatype FitReply = FitOk(data: FitResult) | FitErr(error: string)

  const DefaultPreprocessing: seq<string> := ["StandardScaler", "결측치 중앙값 대체", "이상치 IQR 클리핑"]
  const DefaultVisualization: seq<string> := ["산점도", "상관관계 행렬", "히트맵"]

  /** The reason shown when the server answered without a usable model. */
  const NoModelReason := "모델 도출 결과가 없어 시뮬레이션 결과를 표시합니다."

  /** The simulated result shown whenever the server's is not used. */
  const MockResult := FitResult(
    Some("RandomForest"), Finite(0.92), "classification", "accuracy",
    Some([ModelScore("RandomForest", 0.92), ModelScore("XGBoost", 0.89), ModelScore("LightGBM", 0.87),
          ModelScore("LogisticRegression", 0.82), ModelScore("SVM", 0.79)]),
    Some(DefaultPreprocessing), Some(DefaultVisualization))

  /** `list?.length ? list : defaults` */
  function OrDefault(list: Option<seq<string>>, defaults: seq<string>): seq<string> {
    if list.Some? && |list.value| > 0 then list.value else defaults
  }

  /** The result shown and the fallback reason set (None leaves it cleared). */
  datatype AutomlOutcome = AutomlOutcome(result: FitResult, fallbackReason: Option<string>)

  /** Whether the server's result is used. */
  predicate Usable(reply: FitReply) {
    reply.FitOk? && reply.data.bestModel.Some? && reply.data.bestScore.Finite?
  }

  /** The AutoML step of `runAnalysis`. */
  function ChooseAutoml(reply: FitReply): AutomlOutcome {
    match reply
    case FitOk(data) =>
      if data.bestModel.Some? && data.bestScore.Finite? then
        AutomlOutcome(data.(preprocessing := Some(OrDefault(data.preprocessing, DefaultPreprocessing)),
                            visualization := Some(OrDefault(data.visualization, DefaultVisualization))), None)
      else AutomlOutcome(MockResult, Some(NoModelReason))
    case FitErr(error) =>
      AutomlOutcome(MockResult, if error != "" then Some(error) else None)
  }

  /**
   * The server's result is shown exactly when it names a model with a
   * finite score, with only its empty or missing method lists replaced by
   * the defaults; otherwise the simulation is shown. The reason is set
   * for an unusable result and for a failure with a message, and to that
   * message. Whatever is shown names a model with a finite score and has
   * non-empty method lists.
   */
  lemma ChooseAutomlSpec(reply: FitReply)
    ensures var o := ChooseAutoml(reply);
      && (Usable(reply) ==>
            o.fallbackReason.None?
            && o.result.(preprocessing := reply.data.preprocessing, visualization := reply.data.visualization) == reply.data
            && (reply.data.preprocessing.Some? && reply.data.preprocessing.value != [] ==> o.result.preprocessing == reply.data.preprocessing)
            && (reply.data.visualization.Some? && reply.data.visualization.value != [] ==> o.result.visualization == reply.data.visualization)
            && (reply.data.preprocessing.None? || reply.data.preprocessing.value == [] ==> o.result.preprocessing == Some(DefaultPreprocessing))
            && (reply.data.visualization.None? || reply.data.visualization.value == [] ==> o.result.visualization == Some(DefaultVisualization)))
      && (!Usable(reply) ==> o.result == MockResult)
      && (o.fallbackReason.Some? <==> (reply.FitOk? && !Usable(reply)) || (reply.FitErr? && reply.error != ""))
      && (reply.FitErr? && reply.error != "" ==> o.fallbackReason == Some(reply.error))
      && o.result.bestModel.Some? && o.result.bestScore.Finite?
      && o.result.preprocessing.Some? && |o.result.preprocessing.value| > 0
      && o.result.visualization.Some? && |o.result.visualization.value| > 0
  {
  }

  // ---------------------------------------------------------------------------
  // The ranking
  // ---------------------------------------------------------------------------

  function MeanScore(m: ModelScore): real { m.meanScore }

  /** What is ranked: `all_results`, or the best model alone when it is absent. */
  function RankingSource(r: FitResult): seq<ModelScore>
    requires r.bestModel.Some? && r.bestScore.Finite?
  {
    if r.allResults.Some? then r.allResults.value else [ModelScore(r.bestModel.value, r.bestScore.value)]
  }

  const RankingSize: nat := 5

  /** The ranking list: sorted by mean score, best first, at most five. */
  function Ranking(source: seq<ModelScore>): seq<ModelScore> {
    Take(SortDesc(source, MeanScore), RankingSize)
  }

  /** The ranking a shown result gets: the best model alone without a result list, otherwise at most five entries. */
  function RankingOf(r: FitResult): (ranking: seq<ModelScore>)
    requires r.bestModel.Some? && r.bestScore.Finite?
    ensures r.allResults.None? ==> ranking == [ModelScore(r.bestModel.value, r.bestScore.value)]
    ensures |ranking| == Min(RankingSize, |RankingSource(r)|)
  {
    var source := RankingSource(r);
    RankingSpec(source);
    Ranking(source)
  }

  /**
   * The ranking holds the five best entries (all of them when there are
   * fewer), best first: each is an entry of the source, the first has the
   * highest score, and every entry left out scores no more than the last
   * one shown.
   */
  lemma {:induction false} RankingSpec(source: seq<ModelScore>)
    ensures var r := Ranking(source);
      && |r| == Min(RankingSize, |source|)
      && SortedDesc(r, MeanScore)
      && (forall i :: 0 <= i < |r| ==> r[i] in source)
      && (forall x :: x in source ==> x.meanScore <= r[0].meanScore)
      && (forall x :: x in source && x !in r ==> x.meanScore <= r[|r| - 1].meanScore)
  {
    SortDescSorted(source, MeanScore);
    TopOfSorted(source, SortDesc(source, MeanScore), RankingSize);
  }

  /** The first `n` entries of a sorted rearrangement of `source` are its `n` best. */
  lemma TopOfSorted(source: seq<ModelScore>, sorted: seq<ModelScore>, n: nat)
    requires multiset(sorted) == multiset(source) && SortedDesc(sorted, MeanScore) && n > 0
    ensures var r := Take(sorted, n);
      && |r| == Min(n, |source|)
      && SortedDesc(r, MeanScore)
      && (forall i :: 0 <= i < |r| ==> r[i] in source)
      && (forall x :: x in source ==> x.meanScore <= r[0].meanScore)
      && (forall x :: x in source && x !in r ==> x.meanScore <= r[|r| - 1].meanScore)
  {
    var r := Take(sorted, n);
    SameElements(sorted, source);
    SortedPrefix(sorted, Min(n, |sorted|), MeanScore);
    forall x | x in source ensures x.meanScore <= r[0].meanScore && (x !in r ==> x.meanScore <= r[|r| - 1].meanScore) {
      var k :| 0 <= k < |sorted| && sorted[k] == x;
      if k < |r| {
        assert r[k] == x;
      }
    }
  }

  /**
   * Entries with equal scores keep their order in the ranking: the sort is
   * stable, so of a group of equal scores the earliest ones are shown.
   */
  lemma RankingStable(source: seq<ModelScore>, v: real)
    ensures Filter(SortDesc(source, MeanScore), KeyIs(MeanScore, v)) == Filter(source, KeyIs(MeanScore, v))
  {
    SortDescStable(source, MeanScore, v);
  }

  // ---------------------------------------------------------------------------
  // The run
  // ---------------------------------------------------------------------------

  /** The first half of `runAnalysis`: the demonstration data, replaced by a successful parse of the upload. */
  method LoadInput(industry: Industry, upload: Option<string>, parseNum: string -> Option<real>)
    returns (profile: DataProfile, features: seq<seq<real>>, target: seq<real>, parseError: Option<string>)
    ensures RunInput(profile, features, target, parseError) == PrepareInput(industry, upload, parseNum)
  {
    profile := MockProfile(industry);
    features := MockFeatures;
    target := MockTarget;
    parseError := None;
    if upload.Some? {
      var parsed := ParseCsv(upload.value, parseNum);
      if parsed.Success? {
        profile, features, target := parsed.profile, parsed.features, parsed.target;
      } else {
        parseError := Some(parsed.error);
      }
    }
  }

  /**
   * `runAnalysis`: prepares the input, picks the AutoML result to show,
   * ranks its models and matches the profile against the ontology.
   */
  method RunAnalysis(industry: Industry, upload: Option<string>, parseNum: string -> Option<real>,
                     reply: FitReply, ontology: seq<MesFunction>)
    returns (profile: DataProfile, parseError: Option<string>, automl: AutomlOutcome,
             ranking: seq<ModelScore>, matches: seq<Analysis.Match>)
    ensures var input := PrepareInput(industry, upload, parseNum);
      && profile == input.profile && parseError == input.parseError
      && BackendAutoml.ShapeCheck(input.features, input.target).None?
    ensures automl == ChooseAutoml(reply)
    ensures automl.result.bestModel.Some? && automl.result.bestScore.Finite?
    ensures ranking == RankingOf(automl.result)
    ensures matches == Analysis.Ranked(industry, profile, ontology)
  {
    var features, target;
    profile, features, target, parseError := LoadInput(industry, upload, parseNum);
    InputPassesShapeCheck(industry, upload, parseNum);
    automl := ChooseAutoml(reply);
    ChooseAutomlSpec(reply);
    ranking := RankingOf(automl.result);
    var summary, suggestions;
    matches, summary, suggestions := Analysis.AnalyzeDataAndMatch(industry, profile, ontology);
  }
}
