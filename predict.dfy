/** The decision logic of the predictor script `predict.py`: species
    validation, the feature row, the baseline estimate, the what-if
    recommendations and the drying curve. The fitted regressor is the
    parameter `model` (`None` stands for a call that raises) and `np.sqrt`
    is the parameter `sqrt`. */
module Predict {
  import opened Wrappers
  import opened Numerics
  import Sorting
  import GenerateData

  /** Species-specific drying advice, with the `"Default"` entry used for any other species. */
  const SpeciesTips: map<string, string> := map[
    "Oak, Red" :=
      "[TIP] High risk of checking & honeycombing. Requires slow initial drying (low temp <45°C, high humidity >70%) especially above FSP (~30% MC). Use end coating. Increase temp slowly only after MC drops below 25%.",
    "Oak, White" :=
      "[TIP] Very slow drying, similar risks to Red Oak but slightly more prone to surface checks. Use mild schedule (low temp, high humidity). Good airflow is crucial. Use end coating.",
    "Maple, Sugar (Hard)" :=
      "[TIP] Prone to discoloration (sticker stain, chemical stain) if humidity is high for too long. Needs moderate temp (~50-60°C) and good airflow. Can check if dried too fast.",
    "Maple, Red (Soft)" :=
      "[TIP] Dries faster than Hard Maple but also prone to sticker stain. Keep humidity moderate (~60-65%) and ensure good airflow. Avoid high initial temps.",
    "Ash, White" :=
      "[TIP] Relatively easy to dry but can develop brown stain if humidity is too high initially. Use moderate schedule. Good airflow prevents staining.",
    "Birch, Yellow" :=
      "[TIP] Moderate drying speed. Prone to surface checking and end splitting if temp increases too rapidly. Careful control needed.",
    "Walnut, Black" :=
      "[TIP] Best color achieved with slower drying, especially air-drying first. Kiln drying needs moderate temps (<50°C initially) to prevent darkening or graying. Low risk of checking.",
    "Pine, Southern" :=
      "[TIP] Dries fast but high risk of warping, twisting, and checking around knots. Needs good stacking, weights on top, and moderate temps. Watch for blue stain.",
    "Pine, White" :=
      "[TIP] Dries very easily and quickly with low degrade risk. Main concern is blue stain if kept wet for too long or if humidity is too high. Low temps (<45°C) recommended.",
    "Pine, Ponderosa" :=
      "[INFO] Ponderosa Pine dries easily but can be prone to brown stain (enzymatic) especially in thicker stock. Requires prompt handling after cutting and good airflow. Can warp.",
    "Douglas Fir" :=
      "[TIP] Dries well, relatively fast. Thicker dimensions (>5cm) have high risk of internal checking (honeycombing) if dried too aggressively. Use milder schedule for thick stock.",
    "Spruce" :=
      "[TIP] Spruce dries quickly but is prone to knots loosening or splitting, especially if over-dried. Watch for checking around knots.",
    "Cedar, Western Red" :=
      "[INFO] Very stable, dries easily with minimal shrinkage or degrade. Low temps are sufficient. Can collapse if temps are too high when wet.",
    "Teak" :=
      "[INFO] Teak is naturally oily and very stable. Dries relatively slowly but with very low risk of defects. Moderate schedule is fine.",
    "Mahogany" :=
      "[INFO] Mahogany generally dries well with low shrinkage and minimal defects. Can be prone to internal stresses (casehardening) if dried too fast.",
    "Default" :=
      "[INFO] General best practices apply: ensure good airflow between boards using properly spaced stickers, use weights on top of the stack to minimize warping, and seal end grain if possible to prevent rapid moisture loss and end checks. Monitor moisture content regularly."

  ]

  const DefaultTipKey: string := "Default"

  /** The gravity table of the predictor. Its keys are not the species the regressor
      is trained on (see `TrainedSpeciesUseFallbacks`). */
  const SpeciesGravity: map<string, real> := map[
    "Pine, Southern" := 0.55, "Pine, White" := 0.36, "Pine, Ponderosa" := 0.43,
    "Oak, White" := 0.73, "Oak, Red" := 0.67, "Maple, Sugar (Hard)" := 0.67,
    "Maple, Red (Soft)" := 0.58, "Douglas Fir" := 0.50, "Cedar, Western Red" := 0.36,
    "Ash, White" := 0.65, "Birch, Yellow" := 0.67, "Walnut, Black" := 0.59,
    "Teak" := 0.66, "Mahogany" := 0.59, "Spruce" := 0.43
  ]

  /** Gravity used for a species missing from the table. */
  const DefaultGravity: real := 0.5

  /** The model's input columns, in the order of `training_features`. */
  const FeatureColumns: seq<string> := [
    "Species", "Thickness_cm", "Specific_Gravity",
    "Initial_Moisture", "Target_Moisture", "Temperature_C", "Humidity_RH"
  ]

  /** The command-line query. */
  datatype Query = Query(species: string, thicknessCm: real, initialMc: real, targetMc: real,
                         tempC: real, humidityRh: real)

  /** `input_data_dict`: the query with its looked-up specific gravity. */
  datatype InputRecord = InputRecord(species: string, thicknessCm: real, specificGravity: real,
                                     initialMoisture: real, targetMoisture: real,
                                     temperatureC: real, humidityRh: real)

  /** The one-row frame handed to the model, columns in `FeatureColumns` order. The
      species is categorical over the saved vocabulary: its code is its position
      there, and -1 (a missing value) when it is not a category. */
  datatype FeatureRow = FeatureRow(speciesCode: int, thicknessCm: real, specificGravity: real,
                                   initialMoisture: real, targetMoisture: real,
                                   temperatureC: real, humidityRh: real)

  /** Position of `s` in `vocab`, or -1. */
  function IndexOf(vocab: seq<string>, s: string): (r: int)
    ensures r == -1 <==> s !in vocab
    ensures r != -1 ==> 0 <= r < |vocab| && vocab[r] == s
                        && forall j :: 0 <= j < r ==> vocab[j] != s
  {
    if vocab == [] then -1
    else if vocab[0] == s then 0
    else
      var r := IndexOf(vocab[1..], s);
      if r == -1 then -1 else r + 1
  }

  /** `SPECIES_GRAVITY_MAP.get(species, 0.5)`. */
  function GravityFor(species: string): (g: real)
    ensures species in SpeciesGravity ==> g == SpeciesGravity[species]
    ensures species !in SpeciesGravity ==> g == DefaultGravity
  {
    if species in SpeciesGravity then SpeciesGravity[species] else DefaultGravity
  }

  /** `SPECIES_TIPS.get(species, SPECIES_TIPS["Default"])`. */
  function TipFor(species: string): (tip: string)
    ensures species in SpeciesTips ==> tip == SpeciesTips[species]
    ensures species !in SpeciesTips ==> tip == SpeciesTips[DefaultTipKey]
  {
    if species in SpeciesTips then SpeciesTips[species] else SpeciesTips[DefaultTipKey]
  }

  /** The gravity the predictor uses lies in the physical range of wood, whatever the species. */
  lemma GravityInRange(species: string)
    ensures 0.36 <= GravityFor(species) <= 0.73
  {
  }

  /** No species of the generator's table is a key of the predictor's gravity or tip tables,
      so every species the regressor knows is predicted with gravity 0.5 and the default advice. */
  lemma TrainedSpeciesUseFallbacks(species: string)
    requires species in GenerateData.SpeciesList
    ensures species !in SpeciesGravity && species !in SpeciesTips
    ensures GravityFor(species) == DefaultGravity
    ensures TipFor(species) == SpeciesTips[DefaultTipKey]
  {
    TrainedSpeciesHaveNoGravity(species);
    TrainedSpeciesHaveNoTip(species);
  }

  lemma TrainedSpeciesHaveNoGravity(species: string)
    requires species in GenerateData.SpeciesList
    ensures species !in SpeciesGravity
  {
  }

  lemma TrainedSpeciesHaveNoTip(species: string)
    requires species in GenerateData.SpeciesList
    ensures species !in SpeciesTips
  {
  }

  /** The predictor's input columns are the generator's columns without the label. */
  lemma FeatureColumnsMatchDataset()
    ensures GenerateData.DatasetColumns == FeatureColumns + ["Drying_Time_Hours"]
  {
  }

  /** `input_data_dict` for a query. */
  function BaselineInput(q: Query): (rec: InputRecord)
    ensures rec.species == q.species && rec.thicknessCm == q.thicknessCm
    ensures rec.specificGravity == GravityFor(q.species)
    ensures rec.initialMoisture == q.initialMc && rec.targetMoisture == q.targetMc
    ensures rec.temperatureC == q.tempC && rec.humidityRh == q.humidityRh
  {
    InputRecord(q.species, q.thicknessCm, GravityFor(q.species), q.initialMc, q.targetMc, q.tempC, q.humidityRh)
  }

  /** `create_input_df(rec)`. */
  function CreateInputDf(vocab: seq<string>, rec: InputRecord): (row: FeatureRow)
    ensures rec.species in vocab ==> 0 <= row.speciesCode < |vocab| && vocab[row.speciesCode] == rec.species
    ensures rec.species !in vocab ==> row.speciesCode == -1
    ensures row.thicknessCm == rec.thicknessCm && row.specificGravity == rec.specificGravity
    ensures row.initialMoisture == rec.initialMoisture && row.targetMoisture == rec.targetMoisture
    ensures row.temperatureC == rec.temperatureC && row.humidityRh == rec.humidityRh
  {
    FeatureRow(IndexOf(vocab, rec.species), rec.thicknessCm, rec.specificGravity,
               rec.initialMoisture, rec.targetMoisture, rec.temperatureC, rec.humidityRh)
  }

  /** Two records that name categories of the vocabulary get the same row exactly when they are equal. */
  lemma CreateInputDfInjective(vocab: seq<string>, a: InputRecord, b: InputRecord)
    requires a.species in vocab && b.species in vocab
    ensures CreateInputDf(vocab, a) == CreateInputDf(vocab, b) <==> a == b
  {
  }

  // ---- What-if analysis ----

  const TempStep: real := 5.0
  const HumidityStep: real := 10.0
  const MinimumHours: real := 0.1
  /** Savings must exceed this many hours to be recommended. */
  const SavingsThreshold: real := 1.0

  datatype Scenario = RaiseTemperature | LowerHumidity

  /** One recommendation: the hours it saves and the change it suggests (the printed text is left out). */
  datatype Recommendation = Recommendation(savings: real, scenario: Scenario)

  /** The what-if section: the ranked recommendations, or a model call that raised. */
  datatype WhatIf = Ranked(recs: seq<Recommendation>) | WhatIfFailed

  /** Negated savings: sorting ascending by it is `sort(key=savings, reverse=True)`. */
  function NegSavings(r: Recommendation): real {
    -r.savings
  }

  /** The input with the temperature raised by 5 degrees, everything else kept. When the
      scenario runs, the raised temperature stays below 60 degrees. */
  function TempUpRecord(rec: InputRecord): (r: InputRecord)
    ensures r.temperatureC == rec.temperatureC + TempStep
    ensures r.(temperatureC := rec.temperatureC) == rec
    ensures TempScenarioRuns(rec) ==> r.temperatureC < 60.0
  {
    rec.(temperatureC := rec.temperatureC + TempStep)
  }

  /** The input with the humidity lowered by 10 points, everything else kept. When the
      scenario runs, the lowered humidity stays above 20 %. */
  function HumidityDownRecord(rec: InputRecord): (r: InputRecord)
    ensures r.humidityRh == rec.humidityRh - HumidityStep
    ensures r.(humidityRh := rec.humidityRh) == rec
    ensures HumidityScenarioRuns(rec) ==> r.humidityRh > 20.0
  {
    rec.(humidityRh := rec.humidityRh - HumidityStep)
  }

  /** Hours saved against the baseline by a scenario whose raw prediction is `predicted`. They
      never exceed the baseline less 0.1 hours, and savings worth recommending mean a raw
      prediction more than an hour below the baseline. */
  function Savings(baseline: real, predicted: real): (s: real)
    ensures s <= baseline - MinimumHours
    ensures predicted >= MinimumHours ==> s == baseline - predicted
    ensures predicted <= MinimumHours ==> s == baseline - MinimumHours
    ensures s > SavingsThreshold ==> predicted < baseline - SavingsThreshold
  {
    baseline - Max(MinimumHours, predicted)
  }

  /** The temperature scenario runs only below 55 degrees. */
  predicate TempScenarioRuns(rec: InputRecord)
    ensures TempScenarioRuns(rec) <==> rec.temperatureC + TempStep < 60.0
  {
    rec.temperatureC < 55.0
  }

  /** The humidity scenario runs only above 30 %. */
  predicate HumidityScenarioRuns(rec: InputRecord)
    ensures HumidityScenarioRuns(rec) <==> rec.humidityRh - HumidityStep > 20.0
  {
    rec.humidityRh > 30.0
  }

  predicate HasScenario(recs: seq<Recommendation>, s: Scenario) {
    exists i :: 0 <= i < |recs| && recs[i].scenario == s
  }

  /** The rows the what-if section sends to the model, in order: the temperature scenario when
      it runs, then the humidity scenario when it runs and the first call did not raise. */
  function WhatIfQueries(model: FeatureRow -> Option<real>, vocab: seq<string>, rec: InputRecord): (q: seq<FeatureRow>)
    ensures |q| <= 2
    ensures q == [] <==> !TempScenarioRuns(rec) && !HumidityScenarioRuns(rec)
    ensures TempScenarioRuns(rec) ==> q[0] == CreateInputDf(vocab, TempUpRecord(rec))
    ensures !TempScenarioRuns(rec) && HumidityScenarioRuns(rec) ==> q == [CreateInputDf(vocab, HumidityDownRecord(rec))]
    ensures |q| == 2 ==> model(q[0]).Some? && q[1] == CreateInputDf(vocab, HumidityDownRecord(rec))
  {
    var tempRow := CreateInputDf(vocab, TempUpRecord(rec));
    var humRow := CreateInputDf(vocab, HumidityDownRecord(rec));
    var tempRaised := TempScenarioRuns(rec) && model(tempRow).None?;
    (if TempScenarioRuns(rec) then [tempRow] else [])
    + (if HumidityScenarioRuns(rec) && !tempRaised then [humRow] else [])
  }

  /** What the ranked recommendations promise, given whether each scenario ran and what its call
      returned: at most one recommendation per scenario, each saving more than an hour and at most
      baseline - 0.1 hours, present exactly when its scenario ran and saved more than an hour,
      ordered by descending savings with a tie in scenario order. */
  ghost predicate RankedOk(baseline: real, tempRuns: bool, tempPredicted: Option<real>,
                           humRuns: bool, humPredicted: Option<real>, recs: seq<Recommendation>)
  {
    && |recs| <= 2
    && (forall i :: 0 <= i < |recs| ==> SavingsThreshold < recs[i].savings <= baseline - MinimumHours)
    && (forall i, j :: 0 <= i < j < |recs| ==> recs[i].savings >= recs[j].savings)
    && (forall i, j :: 0 <= i < j < |recs| ==> recs[i].scenario != recs[j].scenario)
    && (forall i :: 0 <= i < |recs| && recs[i].scenario == RaiseTemperature ==>
          tempPredicted.Some? && recs[i].savings == Savings(baseline, tempPredicted.value))
    && (forall i :: 0 <= i < |recs| && recs[i].scenario == LowerHumidity ==>
          humPredicted.Some? && recs[i].savings == Savings(baseline, humPredicted.value))
    && (HasScenario(recs, RaiseTemperature) <==>
          tempRuns && tempPredicted.Some? && Savings(baseline, tempPredicted.value) > SavingsThreshold)
    && (HasScenario(recs, LowerHumidity) <==>
          humRuns && humPredicted.Some? && Savings(baseline, humPredicted.value) > SavingsThreshold)
    && (|recs| == 2 && recs[0].savings == recs[1].savings ==> recs[0].scenario == RaiseTemperature)
  }

  /** What the what-if section promises for its model calls and its outcome. */
  ghost predicate IsWhatIfResult(model: FeatureRow -> Option<real>, vocab: seq<string>, rec: InputRecord,
                                 baseline: real, outcome: WhatIf, queries: seq<FeatureRow>)
  {
    && queries == WhatIfQueries(model, vocab, rec)
    // a call that raises abandons the section
    && (outcome.WhatIfFailed? <==> exists i :: 0 <= i < |queries| && model(queries[i]).None?)
    && (outcome.Ranked? ==>
          RankedOk(baseline, TempScenarioRuns(rec), model(CreateInputDf(vocab, TempUpRecord(rec))),
                   HumidityScenarioRuns(rec), model(CreateInputDf(vocab, HumidityDownRecord(rec))), outcome.recs))
  }

  /** The recommendation a scenario contributes before ranking: one when it ran, its call
      returned, and it saves more than an hour. */
  function Candidate(baseline: real, runs: bool, predicted: Option<real>, s: Scenario): (c: seq<Recommendation>)
    ensures |c| <= 1
    ensures forall x :: x in c ==> x.scenario == s && SavingsThreshold < x.savings <= baseline - MinimumHours
  {
    if runs && predicted.Some? && Savings(baseline, predicted.value) > SavingsThreshold
    then [Recommendation(Savings(baseline, predicted.value), s)]
    else []
  }

  /** `recommendations.sort(key=lambda x: x[0], reverse=True)` on the at most two
      recommendations: the same recommendations, by descending savings, a tie kept in order. */
  lemma RankRecommendations(u: seq<Recommendation>)
    requires |u| <= 2
    ensures var r := Sorting.SortBy(u, NegSavings);
      && (|u| <= 1 ==> r == u)
      && (|u| == 2 ==> r == (if u[0].savings >= u[1].savings then u else [u[1], u[0]]))
  {
    if |u| == 2 {
      assert u == [u[0], u[1]];
      Sorting.SortByPair(u[0], u[1], NegSavings);
    } else {
      Sorting.SortByShort(u, NegSavings);
    }
  }

  /** With no scenario recommending, the ranking is empty. */
  lemma RankedNone(baseline: real, tempRuns: bool, tempPredicted: Option<real>,
                   humRuns: bool, humPredicted: Option<real>)
    requires Candidate(baseline, tempRuns, tempPredicted, RaiseTemperature) == []
    requires Candidate(baseline, humRuns, humPredicted, LowerHumidity) == []
    ensures RankedOk(baseline, tempRuns, tempPredicted, humRuns, humPredicted, [])
  {
    assert !HasScenario([], RaiseTemperature) && !HasScenario([], LowerHumidity);
  }

  /** With only one scenario recommending, the ranking is that one recommendation. */
  lemma RankedTempOnly(baseline: real, tempRuns: bool, tempPredicted: Option<real>,
                       humRuns: bool, humPredicted: Option<real>, x: Recommendation)
    requires Candidate(baseline, tempRuns, tempPredicted, RaiseTemperature) == [x]
    requires Candidate(baseline, humRuns, humPredicted, LowerHumidity) == []
    ensures RankedOk(baseline, tempRuns, tempPredicted, humRuns, humPredicted, [x])
  {
    assert [x][0].scenario == RaiseTemperature;
  }

  lemma RankedHumidityOnly(baseline: real, tempRuns: bool, tempPredicted: Option<real>,
                           humRuns: bool, humPredicted: Option<real>, y: Recommendation)
    requires Candidate(baseline, tempRuns, tempPredicted, RaiseTemperature) == []
    requires Candidate(baseline, humRuns, humPredicted, LowerHumidity) == [y]
    ensures RankedOk(baseline, tempRuns, tempPredicted, humRuns, humPredicted, [y])
  {
    assert [y][0].scenario == LowerHumidity;
  }

  /** With both scenarios recommending, the larger saving comes first and a tie keeps the
      temperature scenario first. */
  lemma RankedBoth(baseline: real, tempRuns: bool, tempPredicted: Option<real>,
                   humRuns: bool, humPredicted: Option<real>, x: Recommendation, y: Recommendation)
    requires Candidate(baseline, tempRuns, tempPredicted, RaiseTemperature) == [x]
    requires Candidate(baseline, humRuns, humPredicted, LowerHumidity) == [y]
    ensures x.savings >= y.savings ==> RankedOk(baseline, tempRuns, tempPredicted, humRuns, humPredicted, [x, y])
    ensures x.savings < y.savings ==> RankedOk(baseline, tempRuns, tempPredicted, humRuns, humPredicted, [y, x])
  {
    assert [x, y][0].scenario == RaiseTemperature && [x, y][1].scenario == LowerHumidity;
    assert [y, x][1].scenario == RaiseTemperature && [y, x][0].scenario == LowerHumidity;
  }

  /** Ranking the two scenario candidates gives recommendations with every promised property. */
  lemma RankCandidates(baseline: real, tempRuns: bool, tempPredicted: Option<real>,
                       humRuns: bool, humPredicted: Option<real>)
    ensures RankedOk(baseline, tempRuns, tempPredicted, humRuns, humPredicted,
                     Sorting.SortBy(Candidate(baseline, tempRuns, tempPredicted, RaiseTemperature)
                                    + Candidate(baseline, humRuns, humPredicted, LowerHumidity), NegSavings))
  {
    var t := Candidate(baseline, tempRuns, tempPredicted, RaiseTemperature);
    var h := Candidate(baseline, humRuns, humPredicted, LowerHumidity);
    var u := t + h;
    RankRecommendations(u);
    var r := Sorting.SortBy(u, NegSavings);
    if t == [] && h == [] {
      assert u == [];
      assert r == [];
      RankedNone(baseline, tempRuns, tempPredicted, humRuns, humPredicted);
    } else if t == [] {
      assert u == [h[0]];
      assert r == [h[0]];
      RankedHumidityOnly(baseline, tempRuns, tempPredicted, humRuns, humPredicted, h[0]);
    } else if h == [] {
      assert u == [t[0]];
      assert r == [t[0]];
      RankedTempOnly(baseline, tempRuns, tempPredicted, humRuns, humPredicted, t[0]);
    } else if t[0].savings >= h[0].savings {
      assert u == [t[0], h[0]];
      assert r == [t[0], h[0]];
      RankedBoth(baseline, tempRuns, tempPredicted, humRuns, humPredicted, t[0], h[0]);
    } else {
      assert u == [t[0], h[0]];
      assert r == [h[0], t[0]];
      RankedBoth(baseline, tempRuns, tempPredicted, humRuns, humPredicted, t[0], h[0]);
    }
  }

  /** The outcome of the what-if section as a function of its inputs. */
  function WhatIfOutcome(model: FeatureRow -> Option<real>, vocab: seq<string>, rec: InputRecord,
                         baseline: real): (r: WhatIf)
    ensures r.WhatIfFailed? ==>
      || (TempScenarioRuns(rec) && model(CreateInputDf(vocab, TempUpRecord(rec))).None?)
      || (HumidityScenarioRuns(rec) && model(CreateInputDf(vocab, HumidityDownRecord(rec))).None?)
    ensures r.Ranked? ==>
      && |r.recs| <= 2
      && forall x :: x in r.recs ==> SavingsThreshold < x.savings <= baseline - MinimumHours
  {
    var tempPredicted := model(CreateInputDf(vocab, TempUpRecord(rec)));
    var humPredicted := model(CreateInputDf(vocab, HumidityDownRecord(rec)));
    if TempScenarioRuns(rec) && tempPredicted.None? then WhatIfFailed
    else if HumidityScenarioRuns(rec) && humPredicted.None? then WhatIfFailed
    else
      var candidates := Candidate(baseline, TempScenarioRuns(rec), tempPredicted, RaiseTemperature)
                        + Candidate(baseline, HumidityScenarioRuns(rec), humPredicted, LowerHumidity);
      Sorting.SortByKeepsMembers(candidates, NegSavings);
      Ranked(Sorting.SortBy(candidates, NegSavings))
  }

  /** The what-if outcome fails exactly when one of its model calls raises, and otherwise ranks
      the recommendations as promised. */
  lemma WhatIfOutcomeSound(model: FeatureRow -> Option<real>, vocab: seq<string>, rec: InputRecord, baseline: real)
    ensures IsWhatIfResult(model, vocab, rec, baseline, WhatIfOutcome(model, vocab, rec, baseline),
                           WhatIfQueries(model, vocab, rec))
  {
    WhatIfFailsOnRaise(model, vocab, rec, baseline);
    var tempRow := CreateInputDf(vocab, TempUpRecord(rec));
    var humRow := CreateInputDf(vocab, HumidityDownRecord(rec));
    if WhatIfOutcome(model, vocab, rec, baseline).Ranked? {
      RankCandidates(baseline, TempScenarioRuns(rec), model(tempRow), HumidityScenarioRuns(rec), model(humRow));
    }
  }

  /** The what-if outcome fails exactly when one of the model calls it makes raises. */
  lemma WhatIfFailsOnRaise(model: FeatureRow -> Option<real>, vocab: seq<string>, rec: InputRecord, baseline: real)
    ensures var queries := WhatIfQueries(model, vocab, rec);
      WhatIfOutcome(model, vocab, rec, baseline).WhatIfFailed? <==>
        exists i :: 0 <= i < |queries| && model(queries[i]).None?
  {
    var queries := WhatIfQueries(model, vocab, rec);
    var tempRow := CreateInputDf(vocab, TempUpRecord(rec));
    var humRow := CreateInputDf(vocab, HumidityDownRecord(rec));
    var tempRuns := TempScenarioRuns(rec);
    var humRuns := HumidityScenarioRuns(rec);
    if tempRuns && model(tempRow).None? {
      assert queries == [tempRow];
      assert model(queries[0]).None?;
    } else if humRuns && model(humRow).None? {
      assert queries == (if tempRuns then [tempRow] else []) + [humRow];
      assert model(queries[|queries| - 1]).None?;
    } else {
      assert queries == (if tempRuns then [tempRow] else []) + (if humRuns then [humRow] else []);
      forall i | 0 <= i < |queries| ensures model(queries[i]).Some? {
        assert queries[i] == tempRow || queries[i] == humRow;
      }
    }
  }

  /** One scenario of the section: ask the model for the perturbed row, give up when it raises,
      and otherwise keep the recommendation when it saves more than an hour. */
  method TryScenario(model: FeatureRow -> Option<real>, row: FeatureRow, baseline: real, s: Scenario,
                     recommendations: seq<Recommendation>)
    returns (failed: bool, extended: seq<Recommendation>)
    ensures failed <==> model(row).None?
    ensures !failed ==> extended == recommendations + Candidate(baseline, true, model(row), s)
  {
    extended := recommendations;
    var predicted := model(row);
    if predicted.None? {
      return true, extended;
    }
    failed := false;
    var newTime := Max(MinimumHours, predicted.value);
    var savings := baseline - newTime;
    if savings > SavingsThreshold {
      extended := extended + [Recommendation(savings, s)];
    }
  }

  /** Section 7 of the script: up to two perturbed predictions, kept when they save more
      than an hour, ranked by descending savings. */
  method WhatIfAnalysis(model: FeatureRow -> Option<real>, vocab: seq<string>, rec: InputRecord, baseline: real)
    returns (outcome: WhatIf, queries: seq<FeatureRow>)
    ensures outcome == WhatIfOutcome(model, vocab, rec, baseline)
    ensures queries == WhatIfQueries(model, vocab, rec)
  {
    var recommendations: seq<Recommendation> := [];
    queries := [];
    var failed: bool;
    if TempScenarioRuns(rec) {
      var tempUp := CreateInputDf(vocab, TempUpRecord(rec));
      queries := queries + [tempUp];
      failed, recommendations := TryScenario(model, tempUp, baseline, RaiseTemperature, recommendations);
      if failed {
        return WhatIfFailed, queries;
      }
    }
    if HumidityScenarioRuns(rec) {
      var humDown := CreateInputDf(vocab, HumidityDownRecord(rec));
      queries := queries + [humDown];
      failed, recommendations := TryScenario(model, humDown, baseline, LowerHumidity, recommendations);
      if failed {
        return WhatIfFailed, queries;
      }
    }
    assert recommendations
        == Candidate(baseline, TempScenarioRuns(rec), model(CreateInputDf(vocab, TempUpRecord(rec))), RaiseTemperature)
         + Candidate(baseline, HumidityScenarioRuns(rec), model(CreateInputDf(vocab, HumidityDownRecord(rec))), LowerHumidity);
    recommendations := Sorting.SortBy(recommendations, NegSavings);
    outcome := Ranked(recommendations);
  }

  // ---- Drying curve ----

  const CurvePoints: nat := 10

  /** The presentation curve: elapsed hours and moisture content, point by point. */
  datatype Curve = Curve(timeLabels: seq<real>, moistureValues: seq<real>)

  /** `np.sqrt` on [0, 1] as the model sees it: values in [0, 1], non-decreasing. */
  ghost predicate UnitSqrt(sqrt: real -> real) {
    && (forall x :: 0.0 <= x <= 1.0 ==> 0.0 <= sqrt(x) <= 1.0)
    && (forall x, y :: 0.0 <= x <= y <= 1.0 ==> sqrt(x) <= sqrt(y))
  }

  /** An interior point of the curve: the square-root moisture-loss profile at fraction k/9. */
  function CurveValue(sqrt: real -> real, initialMc: real, targetMc: real, k: nat): (v: real)
    ensures k == 0 && sqrt(0.0) == 0.0 ==> v == initialMc
    ensures k == 9 && sqrt(1.0) == 1.0 ==> v == targetMc
    ensures UnitSqrt(sqrt) && targetMc <= initialMc && k <= 9 ==> targetMc <= v <= initialMc
  {
    ProfileLossWithinGap(sqrt, initialMc, targetMc, k as real / 9.0);
    initialMc - (initialMc - targetMc) * sqrt(k as real / 9.0)
  }

  /** The unrounded curve: evenly spaced times from 0 to the baseline, the square-root
      profile at the interior points, the two endpoints pinned. */
  ghost predicate IsProfile(sqrt: real -> real, baseline: real, initialMc: real, targetMc: real,
                            times: seq<real>, moisture: seq<real>) {
    && |times| == CurvePoints && |moisture| == CurvePoints
    && (forall k :: 0 <= k < CurvePoints ==> times[k] == baseline * (k as real) / 9.0)
    && moisture[0] == initialMc
    && moisture[CurvePoints - 1] == targetMc
    && (forall k :: 0 < k < CurvePoints - 1 ==> moisture[k] == CurveValue(sqrt, initialMc, targetMc, k))
  }

  /** `[round(float(v), 1) for v in values]`. */
  function RoundAll(values: seq<real>): (r: seq<real>)
    ensures |r| == |values|
    ensures forall k :: 0 <= k < |values| ==> r[k] == Round1(values[k])
  {
    seq(|values|, k requires 0 <= k < |values| => Round1(values[k]))
  }

  /** What the curve section promises: the profile, each value rounded to one decimal. */
  ghost predicate IsCurve(sqrt: real -> real, baseline: real, initialMc: real, targetMc: real, c: Curve) {
    && |c.timeLabels| == CurvePoints && |c.moistureValues| == CurvePoints
    && (forall k :: 0 <= k < CurvePoints ==> c.timeLabels[k] == Round1(baseline * (k as real) / 9.0))
    && c.moistureValues[0] == Round1(initialMc)
    && c.moistureValues[CurvePoints - 1] == Round1(targetMc)
    && (forall k :: 0 < k < CurvePoints - 1 ==> c.moistureValues[k] == Round1(CurveValue(sqrt, initialMc, targetMc, k)))
  }

  lemma RoundedProfile(sqrt: real -> real, baseline: real, initialMc: real, targetMc: real,
                       times: seq<real>, moisture: seq<real>)
    requires IsProfile(sqrt, baseline, initialMc, targetMc, times, moisture)
    ensures IsCurve(sqrt, baseline, initialMc, targetMc, Curve(RoundAll(times), RoundAll(moisture)))
  {
  }

  /** An interior point of a descending profile lies between target and initial moisture, and
      the profile does not rise from one fraction to a later one. */
  lemma CurveValueBetween(sqrt: real -> real, initialMc: real, targetMc: real, i: nat, j: nat)
    requires UnitSqrt(sqrt) && targetMc <= initialMc && i <= j <= 9
    ensures targetMc <= CurveValue(sqrt, initialMc, targetMc, i) <= initialMc
    ensures CurveValue(sqrt, initialMc, targetMc, j) <= CurveValue(sqrt, initialMc, targetMc, i)
  {
    var d := initialMc - targetMc;
    var xi := i as real / 9.0;
    var xj := j as real / 9.0;
    assert 0.0 <= xi <= xj <= 1.0;
    var si := sqrt(xi);
    var sj := sqrt(xj);
    assert 0.0 <= si <= sj <= 1.0;
    ScaleMonotone(0.0, si, d);
    ScaleMonotone(si, 1.0, d);
    ScaleMonotone(si, sj, d);
    assert 0.0 <= si * d <= d;
    assert CurveValue(sqrt, initialMc, targetMc, i) == initialMc - si * d;
    assert CurveValue(sqrt, initialMc, targetMc, j) == initialMc - sj * d;
  }

  /** For a board that is wetter than its target, the curve stays between the rounded target and
      initial moisture and never rises. */
  lemma CurveDescends(sqrt: real -> real, baseline: real, initialMc: real, targetMc: real, c: Curve)
    requires IsCurve(sqrt, baseline, initialMc, targetMc, c) && UnitSqrt(sqrt) && targetMc <= initialMc
    ensures forall k :: 0 <= k < CurvePoints ==> Round1(targetMc) <= c.moistureValues[k] <= Round1(initialMc)
    ensures forall i, j :: 0 <= i < j < CurvePoints ==> c.moistureValues[j] <= c.moistureValues[i]
  {
    Round1Monotone(targetMc, initialMc);
    forall k | 0 < k < CurvePoints - 1
      ensures Round1(targetMc) <= c.moistureValues[k] <= Round1(initialMc)
    {
      CurveValueBetween(sqrt, initialMc, targetMc, k, k);
      var v := CurveValue(sqrt, initialMc, targetMc, k);
      Round1Monotone(targetMc, v);
      Round1Monotone(v, initialMc);
    }
    forall i, j | 0 <= i < j < CurvePoints
      ensures c.moistureValues[j] <= c.moistureValues[i]
    {
      if 0 < i && j < CurvePoints - 1 {
        CurveValueBetween(sqrt, initialMc, targetMc, i, j);
        Round1Monotone(CurveValue(sqrt, initialMc, targetMc, j), CurveValue(sqrt, initialMc, targetMc, i));
      }
    }
  }

  /** `np.linspace(0, baseline, num=10)[k]`. */
  function TimePoint(baseline: real, k: nat): (t: real)
    ensures t == baseline * (k as real) / 9.0
    ensures 0.0 < baseline && k <= 9 ==> 0.0 <= t <= baseline
  {
    var step := baseline / 9.0;
    var t := (k as real) * step;
    assert t == baseline * (k as real) / 9.0;
    if 0.0 < baseline && k <= 9 then
      ScaleMonotone(0.0, k as real, step);
      ScaleMonotone(k as real, 9.0, step);
      assert 9.0 * step == baseline;
      t
    else t
  }

  /** The vectorised moisture formula at elapsed time `t`. Up to the baseline, a board wetter
      than its target sits between target and initial moisture. */
  function MoistureAt(sqrt: real -> real, baseline: real, initialMc: real, targetMc: real, t: real): (m: real)
    requires baseline != 0.0
    ensures UnitSqrt(sqrt) && targetMc <= initialMc && 0.0 < baseline && t <= baseline ==>
      targetMc <= m <= initialMc
  {
    var x := Max(0.0, t / baseline);
    assert 0.0 < baseline && t <= baseline ==> t / baseline <= 1.0;
    ProfileLossWithinGap(sqrt, initialMc, targetMc, x);
    initialMc - (initialMc - targetMc) * sqrt(x)
  }

  /** The moisture lost along the square-root profile at a fraction in [0, 1] is at most the
      whole gap between initial and target moisture. */
  lemma ProfileLossWithinGap(sqrt: real -> real, initialMc: real, targetMc: real, x: real)
    ensures UnitSqrt(sqrt) && targetMc <= initialMc && 0.0 <= x <= 1.0 ==>
      0.0 <= (initialMc - targetMc) * sqrt(x) <= initialMc - targetMc
  {
    if UnitSqrt(sqrt) && targetMc <= initialMc && 0.0 <= x <= 1.0 {
      var d := initialMc - targetMc;
      var s := sqrt(x);
      assert 0.0 <= s <= 1.0;
      FractionOfGap(s, d);
      assert (initialMc - targetMc) * sqrt(x) == d * s;
    }
  }

  /** A fraction in [0, 1] of a non-negative gap lies between 0 and the gap. */
  lemma FractionOfGap(s: real, d: real)
    requires 0.0 <= s <= 1.0 && d >= 0.0
    ensures 0.0 <= d * s <= d
  {
    ScaleMonotone(0.0, s, d);
    ScaleMonotone(s, 1.0, d);
    assert d * s == s * d;
  }

  lemma TimePointRatio(baseline: real, k: nat)
    requires baseline > 0.0
    ensures TimePoint(baseline, k) == baseline * (k as real) / 9.0
    ensures TimePoint(baseline, k) / baseline == k as real / 9.0
  {
  }

  /** The arrays the section computes form the profile. */
  lemma ComputedProfile(sqrt: real -> real, baseline: real, initialMc: real, targetMc: real,
                        times: seq<real>, moisture: seq<real>)
    requires baseline > 0.0
    requires |times| == CurvePoints && |moisture| == CurvePoints
    requires forall k :: 0 <= k < CurvePoints - 1 ==> times[k] == TimePoint(baseline, k)
    requires times[CurvePoints - 1] == baseline
    requires moisture[0] == initialMc && moisture[CurvePoints - 1] == targetMc
    requires forall k :: 0 < k < CurvePoints - 1 ==>
      moisture[k] == MoistureAt(sqrt, baseline, initialMc, targetMc, times[k])
    ensures IsProfile(sqrt, baseline, initialMc, targetMc, times, moisture)
  {
    forall k | 0 <= k < CurvePoints
      ensures times[k] == baseline * (k as real) / 9.0
      ensures 0 < k < CurvePoints - 1 ==> moisture[k] == CurveValue(sqrt, initialMc, targetMc, k)
    {
      TimePointRatio(baseline, k);
    }
  }

  /** Section "Generate and Print Graph Data": 10 evenly spaced times from 0 to the
      baseline, the square-root profile, the two endpoints pinned, every value rounded to one
      decimal. */
  method DryingCurve(sqrt: real -> real, baseline: real, initialMc: real, targetMc: real)
    returns (curve: Option<Curve>)
    ensures curve.None? <==> baseline <= 0.0
    ensures curve.Some? ==> IsCurve(sqrt, baseline, initialMc, targetMc, curve.value)
  {
    if baseline <= 0.0 {
      return None;  // "Baseline time must be positive to generate graph."
    }
    var timePoints := new real[CurvePoints];
    forall k | 0 <= k < CurvePoints {
      timePoints[k] := TimePoint(baseline, k);
    }
    timePoints[CurvePoints - 1] := baseline;
    var moisturePoints := new real[CurvePoints];
    forall k | 0 <= k < CurvePoints {
      moisturePoints[k] := MoistureAt(sqrt, baseline, initialMc, targetMc, timePoints[k]);
    }
    moisturePoints[0] := initialMc;
    moisturePoints[CurvePoints - 1] := targetMc;
    var times := timePoints[..];
    var moisture := moisturePoints[..];
    ComputedProfile(sqrt, baseline, initialMc, targetMc, times, moisture);
    RoundedProfile(sqrt, baseline, initialMc, targetMc, times, moisture);
    curve := Some(Curve(RoundAll(times), RoundAll(moisture)));
  }

  // ---- The whole script ----

  /** Everything printed after a successful baseline. */
  datatype Analysis = Analysis(whatIf: WhatIf, thickBoard: bool, tip: string, curve: Option<Curve>)

  /** The script's outcome: a rejected species (listing the valid ones), or the baseline
      (0 when the model call raised) with the analysis built on it and every row sent to the model. */
  datatype PredictionReport =
    | UnknownSpecies(known: seq<string>)
    | Report(baseline: real, analysis: Option<Analysis>, queries: seq<FeatureRow>)

  /** Boards thicker than this get the "thick board" note. */
  const ThickBoardCm: real := 5.0

  /** Sections 3 to 7 of `predict.py` for one (parsed) query against a loaded model and vocabulary. */
  method RunPredictor(model: FeatureRow -> Option<real>, sqrt: real -> real, vocab: seq<string>, q: Query)
    returns (report: PredictionReport)
    ensures report.UnknownSpecies? <==> q.species !in vocab
    ensures report.UnknownSpecies? ==> report.known == vocab
    ensures report.Report? ==>
      var rec := BaselineInput(q);
      var row := CreateInputDf(vocab, rec);
      && 1 <= |report.queries| && report.queries[0] == row
      && (model(row).None? ==> report.baseline == 0.0 && report.analysis.None? && report.queries == [row])
      && (model(row).Some? ==>
            && report.baseline == Max(MinimumHours, model(row).value)
            && report.analysis.Some?
            && report.analysis.value.whatIf == WhatIfOutcome(model, vocab, rec, report.baseline)
            && report.queries[1..] == WhatIfQueries(model, vocab, rec)
            && report.analysis.value.thickBoard == (q.thicknessCm > ThickBoardCm)
            && report.analysis.value.tip == TipFor(q.species)
            && report.analysis.value.curve.Some?
            && IsCurve(sqrt, report.baseline, q.initialMc, q.targetMc, report.analysis.value.curve.value))
  {
    if q.species !in vocab {
      return UnknownSpecies(vocab);
    }
    var rec := BaselineInput(q);
    var baselineRow := CreateInputDf(vocab, rec);
    var predicted := model(baselineRow);
    var baselineTime: real;
    if predicted.Some? {
      baselineTime := Max(MinimumHours, predicted.value);
    } else {
      baselineTime := 0.0;
    }
    if baselineTime > 0.0 {
      var whatIf, whatIfQueries := WhatIfAnalysis(model, vocab, rec, baselineTime);
      var tip := TipFor(q.species);
      var curve := DryingCurve(sqrt, baselineTime, q.initialMc, q.targetMc);
      report := Report(baselineTime, Some(Analysis(whatIf, q.thicknessCm > ThickBoardCm, tip, curve)),
                       [baselineRow] + whatIfQueries);
      assert report.queries[1..] == whatIfQueries;
    } else {
      report := Report(baselineTime, None, [baselineRow]);
    }
  }
}
