/**
 * The rule-based matching engine of the ontology platform: every MES
 * function of an ontology is scored against a data profile, the matches are
 * sorted by score and given positional priorities, and a short list of
 * data-augmentation suggestions is chosen.
 */
module Analysis {
  import opened Wrappers
  import opened Seqs
  import opened Strings
  import opened MesTypes

  // ---------------------------------------------------------------------------
  // Feature names and hints
  // ---------------------------------------------------------------------------

  /** The hint table: the MES functions a canonical feature name points to. */
  function Hints(canonical: string): Option<seq<string>> {
    if canonical == "Temperature" || canonical == "Pressure" || canonical == "Vibration" then Some(["F003", "F002"])
    else if canonical == "Spindle_Speed" then Some(["F004", "F001"])
    else if canonical == "Torque" then Some(["F003", "F004"])
    else if canonical == "Sensor" then Some(["F003", "F001", "F002"])
    else if canonical == "State" then Some(["F001", "F004", "F006"])
    else None
  }

  /** The synonym table: normalised column name to canonical feature name. */
  function Canonical(normalized: string): Option<string> {
    if normalized == "temperature" || normalized == "temp" then Some("Temperature")
    else if normalized == "pressure" then Some("Pressure")
    else if normalized == "vibration" || normalized == "vib" then Some("Vibration")
    else if normalized == "spindle_speed" || normalized == "spindle" || normalized == "speed" then Some("Spindle_Speed")
    else if normalized == "torque" then Some("Torque")
    else if normalized == "sensor" then Some("Sensor")
    else if normalized == "state" || normalized == "wip" || normalized == "quality" then Some("State")
    else None
  }

  /** Trim, lower-case, and turn every run of white space into one `_`. */
  function Normalize(feat: string): string {
    CollapseSpaces(ToLower(Trim(feat)), '_')
  }

  /** A normalised name holds no white space and no upper-case letter. */
  lemma NormalizeSpec(feat: string)
    ensures forall k :: 0 <= k < |Normalize(feat)| ==> !IsSpace(Normalize(feat)[k]) && !IsUpper(Normalize(feat)[k])
  {
    var lowered := ToLower(Trim(feat));
    CollapseSpacesSpec(lowered, '_');
    forall x | x in lowered ensures !IsUpper(x) {
      var k :| 0 <= k < |lowered| && lowered[k] == x;
    }
  }

  /** Normalising a normalised name changes nothing. */
  lemma NormalizeIdempotent(feat: string)
    ensures Normalize(Normalize(feat)) == Normalize(feat)
  {
    var n := Normalize(feat);
    NormalizeSpec(feat);
    TrimNoSpaceAtEnds(n);
    assert ToLower(n) == n;
    CollapseSpacesNoSpace(n, '_');
  }

  /**
   * The hints of a profile feature: its normalised name is looked up among the
   * synonyms, and a name without a synonym is looked up as it was written.
   */
  function HintsForFeature(feat: string): Option<seq<string>> {
    Hints(Canonical(Normalize(feat)).GetOr(feat))
  }

  /** Two names with the same normalised form and a synonym get the same hints. */
  lemma HintsIgnoreCaseAndSpacing(a: string, b: string)
    requires Normalize(a) == Normalize(b) && Canonical(Normalize(a)).Some?
    ensures HintsForFeature(a) == HintsForFeature(b)
  {
  }

  /** The hints of any feature name only ever name functions of the built-in ontology. */
  lemma HintsNameOntologyFunctions(feat: string)
    ensures HintsForFeature(feat).Some? ==>
      forall id :: id in HintsForFeature(feat).value ==> exists f :: f in MesOntology && f.id == id
  {
    var h := HintsForFeature(feat);
    if h.Some? {
      forall id | id in h.value ensures exists f :: f in MesOntology && f.id == id {
        var k :| 0 <= k < |h.value| && h.value[k] == id;
        var i := if id == "F001" then 0 else if id == "F002" then 1 else if id == "F003" then 2
                 else if id == "F004" then 3 else if id == "F005" then 4 else 5;
        assert MesOntology[i].id == id;
      }
    }
  }

  // ---------------------------------------------------------------------------
  // Scoring one function
  // ---------------------------------------------------------------------------

  datatype Match = Match(functionId: string, score: real, rationale: string, priority: int)

  function MatchScore(m: Match): real { m.score }
  function MatchId(m: Match): string { m.functionId }
  function FunctionId(f: MesFunction): string { f.id }

  /** "The hints of this feature name the function `id`". */
  function Mentions(id: string): string -> bool {
    feat => var h := HintsForFeature(feat); h.Some? && id in h.value
  }

  /** The bonus for continuous sensor data, which applies to F001, F002 and F003 only. */
  predicate SensorBonus(profile: DataProfile, id: string) {
    "Sensor" in profile.dataTypes && profile.dataTypes["Sensor"] == "Continuous"
    && (id == "F001" || id == "F002" || id == "F003")
  }

  /** The reasons recorded for function `id`: the features hinting at it, then the sensor reason. */
  function Reasons(profile: DataProfile, id: string): seq<string> {
    Filter(profile.features, Mentions(id))
    + (if SensorBonus(profile, id) then ["Continuous sensor data"] else [])
  }

  /**
   * The score before scaling: 0.5, plus 0.12 per feature whose hints name the
   * function (a repeated feature counts each time), plus 0.08 for the sensor bonus.
   */
  function RawScore(profile: DataProfile, id: string): (r: real)
    ensures 0.5 <= r <= 0.5 + 0.12 * |profile.features| as real + 0.08
  {
    0.5 + 0.12 * Count(profile.features, Mentions(id)) as real
    + (if SensorBonus(profile, id) then 0.08 else 0.0)
  }

  function RealMin(a: real, b: real): real { if a <= b then a else b }
  function RealMax(a: real, b: real): real { if a >= b then a else b }

  /** Share of non-missing values, `max(0, 100 - missing) / 100`. */
  function Completeness(profile: DataProfile): (c: real)
    ensures 0.0 <= c
    ensures 0 <= profile.missingValues ==> c <= 1.0
  {
    RealMax(0.0, (100 - profile.missingValues) as real) / 100.0
  }

  /** `Math.min(1, score * signalStrength * (0.9 + completeness * 0.1))` */
  function Scale(score: real, signalStrength: real, completeness: real): real {
    RealMin(1.0, score * signalStrength * (0.9 + completeness * 0.1))
  }

  /** The raw score scaled by signal strength (one minus noise) and completeness, capped at 1. */
  function FinalScore(profile: DataProfile, id: string): real {
    Scale(RawScore(profile, id), 1.0 - profile.noiseLevel, Completeness(profile))
  }

  /** `Math.round(x * 100) / 100`: the nearest multiple of 1/100. */
  function Round2(x: real): (r: real)
    ensures x - 1.0 / 200.0 < r <= x + 1.0 / 200.0
    ensures 0.0 <= x <= 1.0 ==> 0.0 <= r <= 1.0
  {
    Round(x * 100.0) as real / 100.0
  }

  /** The priority the threshold rule gives a score (later overwritten by position). */
  function ThresholdPriority(score: real): int {
    if score >= 0.7 then 1 else if score >= 0.5 then 2 else 3
  }

  /** The rationale sentence: the first three reasons when there are any, else a generic sentence. */
  function Rationale(industry: Industry, profile: DataProfile, name: string, reasons: seq<string>): string {
    if |reasons| > 0 then "Data profile (" + Join(Take(reasons, 3), ", ") + ") aligns with " + name + "."
    else
      "General fit for " + IndustryName(industry) + " and current data scale ("
      + IntToString(profile.recordsCount) + " records)."
  }

  /** The match recorded for one function, before sorting. */
  function ScoreOne(industry: Industry, profile: DataProfile, f: MesFunction): Match {
    var s := FinalScore(profile, f.id);
    Match(f.id, Round2(s), Rationale(industry, profile, f.name, Reasons(profile, f.id)), ThresholdPriority(s))
  }

  /** If the noise level is a fraction, every score lies in [0, 1], before and after rounding. */
  lemma ScoreInUnitInterval(industry: Industry, profile: DataProfile, f: MesFunction)
    requires 0.0 <= profile.noiseLevel <= 1.0
    ensures 0.0 <= FinalScore(profile, f.id) <= 1.0
    ensures 0.0 <= ScoreOne(industry, profile, f).score <= 1.0
  {
    ScaledScoreInUnitInterval(RawScore(profile, f.id), 1.0 - profile.noiseLevel, Completeness(profile));
  }

  lemma ScaledScoreInUnitInterval(raw: real, signal: real, completeness: real)
    requires 0.0 <= raw && 0.0 <= signal && 0.0 <= completeness
    ensures 0.0 <= Scale(raw, signal, completeness) <= 1.0
  {
    MulNonneg(raw, signal);
    MulNonneg(raw * signal, 0.9 + completeness * 0.1);
  }

  lemma MulNonneg(a: real, b: real)
    requires 0.0 <= a && 0.0 <= b
    ensures 0.0 <= a * b
  {
  }

  // ---------------------------------------------------------------------------
  // Sorting and priorities
  // ---------------------------------------------------------------------------

  /** Priority by position after sorting: first 1, second 2, every other 3. */
  function PositionalPriority(i: nat): int {
    [1, 2, 3][Min(i, 2)]
  }

  function AssignPriorities(ms: seq<Match>): (r: seq<Match>)
    ensures |r| == |ms|
    ensures forall i :: 0 <= i < |ms| ==> r[i] == ms[i].(priority := PositionalPriority(i))
  {
    seq(|ms|, i requires 0 <= i < |ms| => ms[i].(priority := PositionalPriority(i)))
  }

  /** One match per function, in ontology order. */
  function Scored(industry: Industry, profile: DataProfile, ontology: seq<MesFunction>): (r: seq<Match>)
    ensures |r| == |ontology|
    ensures forall k :: 0 <= k < |ontology| ==> r[k] == ScoreOne(industry, profile, ontology[k])
  {
    seq(|ontology|, k requires 0 <= k < |ontology| => ScoreOne(industry, profile, ontology[k]))
  }

  /** The matches in the order the engine returns them: stably sorted by score, descending. */
  function Sorted(industry: Industry, profile: DataProfile, ontology: seq<MesFunction>): seq<Match> {
    SortDesc(Scored(industry, profile, ontology), MatchScore)
  }

  /** The final match list. */
  function Ranked(industry: Industry, profile: DataProfile, ontology: seq<MesFunction>): seq<Match> {
    AssignPriorities(Sorted(industry, profile, ontology))
  }

  /** One match per ontology function: the match ids are a rearrangement of the ontology ids. */
  lemma RankedIsPermutationOfOntology(industry: Industry, profile: DataProfile, ontology: seq<MesFunction>)
    ensures |Ranked(industry, profile, ontology)| == |ontology|
    ensures multiset(Map(Ranked(industry, profile, ontology), MatchId)) == multiset(Map(ontology, FunctionId))
  {
    var scored := Scored(industry, profile, ontology);
    var sorted := Sorted(industry, profile, ontology);
    var ranked := Ranked(industry, profile, ontology);
    assert Map(scored, MatchId) == Map(ontology, FunctionId);
    MapPermutation(sorted, scored, MatchId);
    assert Map(ranked, MatchId) == Map(sorted, MatchId);
  }

  /** Scores never increase along the returned list. */
  lemma RankedIsSortedByScore(industry: Industry, profile: DataProfile, ontology: seq<MesFunction>)
    ensures forall i, j :: 0 <= i < j < |Ranked(industry, profile, ontology)| ==>
      Ranked(industry, profile, ontology)[j].score <= Ranked(industry, profile, ontology)[i].score
  {
    SortDescSorted(Scored(industry, profile, ontology), MatchScore);
  }

  /** Matches with equal scores keep the order of their functions in the ontology. */
  lemma SortKeepsOntologyOrderOnTies(industry: Industry, profile: DataProfile, ontology: seq<MesFunction>, v: real)
    ensures Filter(Sorted(industry, profile, ontology), KeyIs(MatchScore, v))
         == Filter(Scored(industry, profile, ontology), KeyIs(MatchScore, v))
  {
    SortDescStable(Scored(industry, profile, ontology), MatchScore, v);
  }

  /**
   * Priorities depend on position only: 1, then 2, then 3 for the rest. They
   * never decrease, and the threshold priority is always overwritten.
   */
  lemma RankedPriorities(industry: Industry, profile: DataProfile, ontology: seq<MesFunction>)
    ensures var r := Ranked(industry, profile, ontology);
      (forall i :: 0 <= i < |r| ==> r[i].priority == (if i == 0 then 1 else if i == 1 then 2 else 3))
      && (forall i, j :: 0 <= i < j < |r| ==> r[i].priority <= r[j].priority)
      && (forall i :: 0 <= i < |r| ==>
            r[i].functionId == Sorted(industry, profile, ontology)[i].functionId
            && r[i].score == Sorted(industry, profile, ontology)[i].score)
  {
  }

  /** With a fractional noise level every returned score lies in [0, 1]. */
  lemma RankedScoresInUnitInterval(industry: Industry, profile: DataProfile, ontology: seq<MesFunction>)
    requires 0.0 <= profile.noiseLevel <= 1.0
    ensures forall m :: m in Ranked(industry, profile, ontology) ==> 0.0 <= m.score <= 1.0
  {
    var sorted := Sorted(industry, profile, ontology);
    ScoredInUnitInterval(industry, profile, ontology);
    forall m | m in sorted ensures 0.0 <= m.score <= 1.0 {
      assert m in multiset(sorted);
    }
  }

  lemma ScoredInUnitInterval(industry: Industry, profile: DataProfile, ontology: seq<MesFunction>)
    requires 0.0 <= profile.noiseLevel <= 1.0
    ensures forall m :: m in Scored(industry, profile, ontology) ==> 0.0 <= m.score <= 1.0
  {
    var scored := Scored(industry, profile, ontology);
    forall m | m in scored ensures 0.0 <= m.score <= 1.0 {
      var k :| 0 <= k < |scored| && scored[k] == m;
      ScoreInUnitInterval(industry, profile, ontology[k]);
    }
  }

  // ---------------------------------------------------------------------------
  // Summary
  // ---------------------------------------------------------------------------

  /** `ontology.find(o => o.id === id)`: the first function with the id. */
  function Find(ontology: seq<MesFunction>, id: string): (r: Option<MesFunction>)
    ensures r.Some? ==> r.value in ontology && r.value.id == id
    ensures r.None? ==> forall f :: f in ontology ==> f.id != id
    ensures r.Some? ==> exists k :: 0 <= k < |ontology| && ontology[k] == r.value
                                    && forall j :: 0 <= j < k ==> ontology[j].id != id
  {
    if ontology == [] then None
    else if ontology[0].id == id then Some(ontology[0])
    else Find(ontology[1..], id)
  }

  /** The first word of the function's name; empty when there is none or no such function. */
  function FirstWord(ontology: seq<MesFunction>, id: string): string {
    match Find(ontology, id)
    case None => ""
    case Some(f) => Split(f.name, ' ')[0]
  }

  function NonEmpty(s: string): bool { s != "" }

  lemma FirstWordsHaveNoSpace(ontology: seq<MesFunction>, matches: seq<Match>)
    ensures forall k :: 0 <= k < |matches| ==> ' ' !in FirstWord(ontology, matches[k].functionId)
  {
  }

  /** The names cited in the summary: first words of the two best matches, blanks dropped. */
  function TopNames(ontology: seq<MesFunction>, matches: seq<Match>): (r: seq<string>)
    ensures |r| <= 2
    ensures forall k :: 0 <= k < |r| ==> r[k] != "" && ' ' !in r[k]
  {
    var words := seq(Min(2, |matches|), k requires 0 <= k < Min(2, |matches|) => FirstWord(ontology, matches[k].functionId));
    FilterSpec(words, NonEmpty);
    FirstWordsHaveNoSpace(ontology, matches);
    Filter(words, NonEmpty)
  }

  function Summary(industry: Industry, profile: DataProfile, ontology: seq<MesFunction>, matches: seq<Match>): string {
    var names := Join(TopNames(ontology, matches), ", ");
    var head := "산업데이터 " + IntToString(|profile.features|) + "개 피처, " + IntToString(profile.recordsCount)
      + "건 기준으로 필요기능–표준기능 매칭을 수행했습니다. ";
    if names != "" then
      head + IndustryName(industry) + " 도메인에 맞는 상위 추천: " + names
      + ". 데이터 품질과 결측 수준을 반영한 우선순위를 제안합니다."
    else
      head + "데이터 품질과 결측 수준을 반영하여 " + IndustryName(industry)
      + " 도메인에 맞는 MES 기능 우선순위를 제안합니다."
  }

  // ---------------------------------------------------------------------------
  // Augmentation suggestions
  // ---------------------------------------------------------------------------

  const SeasonalityTip := "시계열 집계 추가로 계절성 반영 (증강분석 활용)"
  const SpcTip := "주요 센서 채널 SPC 한계값 검토"
  const PdmTip := "보전 이력 데이터 보강으로 PdM 정확도 향상"
  const MissingTip := "결측치 보강으로 매칭 품질 향상"
  const TraceTip := "추적성 데이터 확보 시 이력 추적 기능 추천"
  const ScheduleTip := "일정·설비 상태 데이터 보강으로 동적 스케줄링 추천"
  const GenericTip := "데이터 품질·채널 보강 시 매칭 정확도 향상"

  /** Ids of the (at most three) best matches. */
  function TopIds(matches: seq<Match>): set<string> {
    set k | 0 <= k < Min(3, |matches|) :: matches[k].functionId
  }

  /** `if (cond) pool.push(tip)` */
  function PushIf(pool: seq<string>, cond: bool, tip: string): seq<string> {
    if cond then pool + [tip] else pool
  }

  /** The candidate suggestions, in the order they are pushed. */
  function Pool(profile: DataProfile, top: set<string>): seq<string> {
    var p1 := PushIf([], profile.seasonality, SeasonalityTip);
    var p2 := PushIf(p1, "F002" in top, SpcTip);
    var p3 := PushIf(p2, "F003" in top, PdmTip);
    var p4 := PushIf(p3, profile.missingValues > 10, MissingTip);
    var p5 := PushIf(p4, "F005" in top, TraceTip);
    var p6 := PushIf(p5, "F004" in top, ScheduleTip);
    p6 + [GenericTip]
  }

  /** The suggestions: the pool without repeats, first three kept. */
  function Suggestions(profile: DataProfile, matches: seq<Match>): seq<string> {
    Take(Unique(Pool(profile, TopIds(matches))), 3)
  }

  lemma PoolHasNoDuplicates(profile: DataProfile, top: set<string>)
    ensures NoDup(Pool(profile, top))
  {
    // the tips start with different characters, so no two are equal
    var s0 := {SeasonalityTip};
    var s1 := s0 + {SpcTip};
    var s2 := s1 + {PdmTip};
    var s3 := s2 + {MissingTip};
    var s4 := s3 + {TraceTip};
    var s5 := s4 + {ScheduleTip};
    assert SpcTip !in s0 by { assert SpcTip[0] != SeasonalityTip[0]; }
    assert PdmTip !in s1 by { assert PdmTip[0] !in {SeasonalityTip[0], SpcTip[0]}; }
    assert MissingTip !in s2 by { assert MissingTip[0] !in {SeasonalityTip[0], SpcTip[0], PdmTip[0]}; }
    assert TraceTip !in s3 by { assert TraceTip[0] !in {SeasonalityTip[0], SpcTip[0], PdmTip[0], MissingTip[0]}; }
    assert ScheduleTip !in s4 by { assert ScheduleTip[0] !in {SeasonalityTip[0], SpcTip[0], PdmTip[0], MissingTip[0], TraceTip[0]}; }
    assert GenericTip !in s5 by { assert GenericTip[0] !in {SeasonalityTip[0], SpcTip[0], PdmTip[0], MissingTip[0], TraceTip[0], ScheduleTip[0]}; }
    var p1 := PushIf([], profile.seasonality, SeasonalityTip);
    PushIfFresh([], profile.seasonality, SeasonalityTip, {});
    var p2 := PushIf(p1, "F002" in top, SpcTip);
    PushIfFresh(p1, "F002" in top, SpcTip, s0);
    var p3 := PushIf(p2, "F003" in top, PdmTip);
    PushIfFresh(p2, "F003" in top, PdmTip, s1);
    var p4 := PushIf(p3, profile.missingValues > 10, MissingTip);
    PushIfFresh(p3, profile.missingValues > 10, MissingTip, s2);
    var p5 := PushIf(p4, "F005" in top, TraceTip);
    PushIfFresh(p4, "F005" in top, TraceTip, s3);
    var p6 := PushIf(p5, "F004" in top, ScheduleTip);
    PushIfFresh(p5, "F004" in top, ScheduleTip, s4);
    PushIfFresh(p6, true, GenericTip, s5);
  }

  /** Pushing a tip that is not yet among the earlier ones keeps the pool free of repeats. */
  lemma PushIfFresh(pool: seq<string>, cond: bool, tip: string, before: set<string>)
    requires NoDup(pool) && (forall x :: x in pool ==> x in before) && tip !in before
    ensures NoDup(PushIf(pool, cond, tip))
    ensures forall x :: x in PushIf(pool, cond, tip) ==> x in before + {tip}
  {
  }

  /**
   * The suggestions are at most three, never empty, free of repeats, the
   * first three entries of the pool in pool order, and begin with the
   * seasonality suggestion whenever the data is seasonal.
   */
  lemma SuggestionsSpec(profile: DataProfile, matches: seq<Match>)
    ensures var r := Suggestions(profile, matches);
      && 1 <= |r| <= 3
      && NoDup(r)
      && r == Take(Pool(profile, TopIds(matches)), 3)
      && (profile.seasonality ==> r[0] == SeasonalityTip)
  {
    var pool := Pool(profile, TopIds(matches));
    PoolHasNoDuplicates(profile, TopIds(matches));
    UniqueOfNoDup(pool);
  }

  /** `buildAugmentationSuggestions`: pushes the pool, then keeps first occurrences through a seen-set. */
  method BuildAugmentationSuggestions(profile: DataProfile, sortedMatches: seq<Match>) returns (r: seq<string>)
    ensures r == Suggestions(profile, sortedMatches)
  {
    var top := TopIds(sortedMatches);
    var pool: seq<string> := [];
    if profile.seasonality {
      pool := pool + [SeasonalityTip];
    }
    ghost var p1 := pool;
    if "F002" in top {
      pool := pool + [SpcTip];
    }
    assert pool == PushIf(p1, "F002" in top, SpcTip);
    ghost var p2 := pool;
    if "F003" in top {
      pool := pool + [PdmTip];
    }
    assert pool == PushIf(p2, "F003" in top, PdmTip);
    ghost var p3 := pool;
    if profile.missingValues > 10 {
      pool := pool + [MissingTip];
    }
    assert pool == PushIf(p3, profile.missingValues > 10, MissingTip);
    ghost var p4 := pool;
    if "F005" in top {
      pool := pool + [TraceTip];
    }
    assert pool == PushIf(p4, "F005" in top, TraceTip);
    ghost var p5 := pool;
    if "F004" in top {
      pool := pool + [ScheduleTip];
    }
    assert pool == PushIf(p5, "F004" in top, ScheduleTip);
    pool := pool + [GenericTip];
    assert pool == Pool(profile, top);
    var kept := KeepFirstOccurrences(pool);
    r := Take(kept, 3);
  }

  /** The `filter` with a `seen` set: keeps each string the first time it appears. */
  method KeepFirstOccurrences(pool: seq<string>) returns (kept: seq<string>)
    ensures kept == Unique(pool)
  {
    var seen: set<string> := {};
    kept := [];
    for i := 0 to |pool|
      invariant kept == Unique(pool[..i])
      invariant forall x :: x in seen <==> x in pool[..i]
    {
      assert pool[..i + 1] == pool[..i] + [pool[i]];
      if pool[i] !in seen {
        seen := seen + {pool[i]};
        kept := kept + [pool[i]];
      }
    }
    assert pool[..|pool|] == pool;
  }

  // ---------------------------------------------------------------------------
  // The whole analysis
  // ---------------------------------------------------------------------------

  /**
   * The body of the scoring loop for one function: accumulates the score and
   * the reasons over the profile features, adds the sensor bonus, scales and
   * caps the score, and records the match with its threshold priority.
   */
  method ScoreFunction(industry: Industry, profile: DataProfile, fn: MesFunction, signalStrength: real, completeness: real)
    returns (m: Match)
    requires signalStrength == 1.0 - profile.noiseLevel
    requires completeness == Completeness(profile)
    ensures m == ScoreOne(industry, profile, fn)
  {
    var hintScore, hinted := AccumulateHints(profile, fn.id);
    var raw, reasons := AddSensorBonus(profile, fn.id, hintScore, hinted);
    var score := Scale(raw, signalStrength, completeness);
    ScaledRawScore(profile, fn.id, raw, signalStrength, completeness);
    var rationale := Rationale(industry, profile, fn.name, reasons);
    m := Match(fn.id, Round2(score), rationale, ThresholdPriority(score));
    ScoreOneOf(industry, profile, fn, reasons, score, m);
  }

  /** The sensor bonus step of the scoring loop: 0.08 and a reason when the bonus applies. */
  method AddSensorBonus(profile: DataProfile, id: string, hintScore: real, hinted: seq<string>)
    returns (raw: real, reasons: seq<string>)
    requires hinted == Filter(profile.features, Mentions(id))
    requires hintScore == 0.5 + 0.12 * |hinted| as real
    ensures raw == RawScore(profile, id)
    ensures reasons == Reasons(profile, id)
  {
    HintsThenBonus(profile, id, hinted, hintScore);
    raw, reasons := hintScore, hinted;
    if SensorBonus(profile, id) {
      raw := raw + 0.08;
      reasons := reasons + ["Continuous sensor data"];
    }
  }

  /** The match for a function is built from its final score and its reasons. */
  lemma ScoreOneOf(industry: Industry, profile: DataProfile, fn: MesFunction, reasons: seq<string>, final: real, m: Match)
    requires reasons == Reasons(profile, fn.id) && final == FinalScore(profile, fn.id)
    requires m == Match(fn.id, Round2(final), Rationale(industry, profile, fn.name, reasons), ThresholdPriority(final))
    ensures m == ScoreOne(industry, profile, fn)
  {
  }

  /** Scaling the raw score by the profile's signal strength and completeness gives the final score. */
  lemma ScaledRawScore(profile: DataProfile, id: string, raw: real, signalStrength: real, completeness: real)
    requires raw == RawScore(profile, id)
    requires signalStrength == 1.0 - profile.noiseLevel && completeness == Completeness(profile)
    ensures Scale(raw, signalStrength, completeness) == FinalScore(profile, id)
  {
  }

  /** The hinted features and their score, followed by the sensor bonus, give the reasons and the raw score. */
  lemma HintsThenBonus(profile: DataProfile, id: string, hinted: seq<string>, score: real)
    requires hinted == Filter(profile.features, Mentions(id))
    requires score == 0.5 + 0.12 * |hinted| as real
    ensures (if SensorBonus(profile, id) then score + 0.08 else score) == RawScore(profile, id)
    ensures (if SensorBonus(profile, id) then hinted + ["Continuous sensor data"] else hinted) == Reasons(profile, id)
  {
    if !SensorBonus(profile, id) {
      assert hinted + [] == hinted;
    }
  }

  /** The loop over the profile features: 0.12 and a reason for every feature whose hints name `id`. */
  method AccumulateHints(profile: DataProfile, id: string) returns (score: real, reasons: seq<string>)
    ensures reasons == Filter(profile.features, Mentions(id))
    ensures score == 0.5 + 0.12 * |reasons| as real
  {
    score := 0.5;
    reasons := [];
    for j := 0 to |profile.features|
      invariant reasons == Filter(profile.features[..j], Mentions(id))
      invariant score == 0.5 + 0.12 * |reasons| as real
    {
      var feat := profile.features[j];
      FilterPrefixStep(profile.features, j, Mentions(id));
      var hinted := HintsForFeature(feat);
      if hinted.Some? && id in hinted.value {
        score := score + 0.12;
        reasons := reasons + [feat];
      }
    }
    assert profile.features[..|profile.features|] == profile.features;
  }

  /**
   * `analyzeDataAndMatch`: scores each function, sorts the matches stably by
   * score, overwrites the priorities by position, and builds the summary and
   * the suggestions.
   */
  method AnalyzeDataAndMatch(industry: Industry, profile: DataProfile, ontology: seq<MesFunction>)
    returns (matches: seq<Match>, summary: string, suggestions: seq<string>)
    ensures matches == Ranked(industry, profile, ontology)
    ensures summary == Summary(industry, profile, ontology, matches)
    ensures suggestions == Suggestions(profile, matches)
  {
    matches := ScoreAll(industry, profile, ontology);
    matches := SortDesc(matches, MatchScore);
    matches := OverwritePriorities(matches);
    summary := Summary(industry, profile, ontology, matches);
    suggestions := BuildAugmentationSuggestions(profile, matches);
  }

  /** The scoring loop: one match per ontology function, in ontology order. */
  method ScoreAll(industry: Industry, profile: DataProfile, ontology: seq<MesFunction>) returns (matches: seq<Match>)
    ensures matches == Scored(industry, profile, ontology)
  {
    var signalStrength := 1.0 - profile.noiseLevel;
    var completeness := Completeness(profile);
    matches := [];
    for i := 0 to |ontology|
      invariant |matches| == i
      invariant forall k :: 0 <= k < i ==> matches[k] == ScoreOne(industry, profile, ontology[k])
    {
      var m := ScoreFunction(industry, profile, ontology[i], signalStrength, completeness);
      matches := matches + [m];
    }
  }

  /** The priority loop: the counter `p` walks the sorted matches and `priorityOrder` caps at 3. */
  method OverwritePriorities(sorted: seq<Match>) returns (matches: seq<Match>)
    ensures matches == AssignPriorities(sorted)
  {
    matches := sorted;
    var priorityOrder := [1, 2, 3];
    var p := 0;
    for i := 0 to |matches|
      invariant p == i
      invariant |matches| == |sorted|
      invariant forall k :: 0 <= k < i ==> matches[k] == sorted[k].(priority := PositionalPriority(k))
      invariant forall k :: i <= k < |matches| ==> matches[k] == sorted[k]
    {
      matches := matches[i := matches[i].(priority := priorityOrder[Min(p, |priorityOrder| - 1)])];
      p := p + 1;
    }
  }
}
