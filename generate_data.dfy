/** The synthetic physics simulator and the training-set generator of
    `generate_data.py`. `thickness ** 1.5` is the parameter `pow15`; the random
    draws are the fields of the samples handed to the generator. */
module GenerateData {
  import opened Numerics

  /** Specific gravity of the species the generator draws from (the keys are the
      species the regressor is trained on). */
  const SpeciesGravity: map<string, real> := map[
    "Teak (Sagwan)" := 0.66,
    "Sal" := 0.85,
    "Sheesham (Indian Rosewood)" := 0.78,
    "Mango" := 0.60,
    "Deodar (Himalayan Cedar)" := 0.50,
    "Chir Pine" := 0.53,
    "Neem" := 0.68,
    "Babul" := 0.80,
    "Sissoo" := 0.75,
    "Haldu" := 0.65,
    "Indian Laurel (Asna)" := 0.75,
    "Marandi (Red Meranti type)" := 0.55
  ]

  /** `list(SPECIES_GRAVITY_MAP.keys())`, in insertion order. */
  const SpeciesList: seq<string> := [
    "Teak (Sagwan)", "Sal", "Sheesham (Indian Rosewood)", "Mango",
    "Deodar (Himalayan Cedar)", "Chir Pine", "Neem", "Babul", "Sissoo", "Haldu",
    "Indian Laurel (Asna)", "Marandi (Red Meranti type)"
  ]

  /** The columns of the generated table, in the order of the row dictionary. */
  const DatasetColumns: seq<string> := [
    "Species", "Thickness_cm", "Specific_Gravity", "Initial_Moisture",
    "Target_Moisture", "Temperature_C", "Humidity_RH", "Drying_Time_Hours"
  ]

  /** Moisture fractions below this count as "already dry". */
  const Tolerance: real := 0.001
  /** Additive floor of the drying power. */
  const PowerFloor: real := 0.05
  /** Empirical scale factor from resistance over power to hours. */
  const CalibrationConstant: real := 70.0
  /** Smallest drying time reported when drying is needed. */
  const MinimumHours: real := 0.1

  /** What `calculate_drying_time` returns or raises. */
  datatype SimOutcome =
    | Hours(hours: real)
      /** `drying_power == 0.0`: the division on the time line raises `ZeroDivisionError`. */
    | ZeroDivision
      /** `thickness < 0`: `thickness ** 1.5` is a complex number and `max` raises `TypeError`. */
    | ComplexThickness

  /** The moisture to remove, as a fraction: the gap between the two percentages over 100. It is
      below the tolerance exactly when the gap is below a tenth of a percentage point. */
  function MoistureToRemove(initialMc: real, targetMc: real): (m: real)
    ensures m * 100.0 == initialMc - targetMc
    ensures m < Tolerance <==> initialMc - targetMc < 0.1
  {
    initialMc / 100.0 - targetMc / 100.0
  }

  /** The drying power of the air: more than its floor in warm air that is not saturated. */
  function DryingPower(tempC: real, humidityRh: real): (p: real)
    ensures tempC > 0.0 && humidityRh < 100.0 ==> p > PowerFloor
  {
    var warmth := tempC / 10.0;
    var dryness := 1.0 - humidityRh / 100.0;
    assert warmth > 0.0 && dryness > 0.0 ==> warmth * dryness > 0.0;
    warmth * dryness + PowerFloor
  }

  /** Saturated or freezing air has only the floor of drying power. */
  lemma SaturatedOrFreezingAirHasFloorPower(tempC: real, humidityRh: real)
    ensures DryingPower(tempC, 100.0) == PowerFloor
    ensures DryingPower(0.0, humidityRh) == PowerFloor
  {
  }

  /** `thickness ** 1.5` as the model sees it: non-negative and non-decreasing on the non-negative reals. */
  ghost predicate MonotonePow(pow15: real -> real) {
    && (forall x :: 0.0 <= x ==> 0.0 <= pow15(x))
    && (forall x, y :: 0.0 <= x <= y ==> pow15(x) <= pow15(y))
  }

  /** `calculate_drying_time(thickness, specific_gravity, initial_mc, target_mc, temp_c, humidity_rh)`. */
  function CalculateDryingTime(pow15: real -> real, thickness: real, specificGravity: real,
                               initialMc: real, targetMc: real, tempC: real, humidityRh: real): (r: SimOutcome)
    ensures r == Hours(0.0) <==> MoistureToRemove(initialMc, targetMc) < Tolerance
    ensures r.Hours? ==> r.hours == 0.0 || r.hours >= MinimumHours
    ensures MoistureToRemove(initialMc, targetMc) >= Tolerance ==>
              (r.ZeroDivision? <==> DryingPower(tempC, humidityRh) == 0.0)
    ensures MoistureToRemove(initialMc, targetMc) >= Tolerance && DryingPower(tempC, humidityRh) != 0.0 ==>
              (r.ComplexThickness? <==> thickness < 0.0)
  {
    var moistureToRemove := MoistureToRemove(initialMc, targetMc);
    if moistureToRemove < Tolerance then Hours(0.0)
    else
      var dryingPower := DryingPower(tempC, humidityRh);
      if dryingPower == 0.0 then ZeroDivision
      else if thickness < 0.0 then ComplexThickness
      else
        var woodResistance := specificGravity * pow15(thickness);
        var timeHours := (woodResistance * moistureToRemove / dryingPower) * CalibrationConstant;
        Hours(Max(MinimumHours, timeHours))
  }

  /** The unclamped time of the formula, for drying that is needed. */
  function RawHours(pow15: real -> real, thickness: real, specificGravity: real,
                    initialMc: real, targetMc: real, tempC: real, humidityRh: real): real
    requires DryingPower(tempC, humidityRh) != 0.0
  {
    (specificGravity * pow15(thickness) * MoistureToRemove(initialMc, targetMc)
      / DryingPower(tempC, humidityRh)) * CalibrationConstant
  }

  /** With air that is not colder than 0 degrees and not wetter than 100 %, the drying power is at least its floor. */
  lemma DryingPowerAtLeastFloor(tempC: real, humidityRh: real)
    requires tempC >= 0.0 && humidityRh <= 100.0
    ensures DryingPower(tempC, humidityRh) >= PowerFloor > 0.0
  {
    var a := tempC / 10.0;
    var b := 1.0 - humidityRh / 100.0;
    assert a >= 0.0 && b >= 0.0;
    assert a * b >= 0.0;
  }

  /** Once drying is needed and the power is positive, the result is the clamped formula. */
  lemma NeededDrying(pow15: real -> real, thickness: real, specificGravity: real,
                     initialMc: real, targetMc: real, tempC: real, humidityRh: real)
    requires MoistureToRemove(initialMc, targetMc) >= Tolerance
    requires DryingPower(tempC, humidityRh) > 0.0 && thickness >= 0.0
    ensures CalculateDryingTime(pow15, thickness, specificGravity, initialMc, targetMc, tempC, humidityRh)
         == Hours(Max(MinimumHours, RawHours(pow15, thickness, specificGravity, initialMc, targetMc, tempC, humidityRh)))
  {
  }

  lemma QuotientAntitone(n: real, p: real, q: real)
    requires n >= 0.0 && 0.0 < p <= q
    ensures n / q <= n / p
  {
    var x := n / p;
    var y := n / q;
    assert x * p == n && y * q == n;
    assert x >= 0.0;
    ScaleMonotone(p, q, x);
    assert y * q <= x * q;
  }

  /** The result does not decrease as the wood gets denser. */
  lemma MonotoneInGravity(pow15: real -> real, thickness: real, sg1: real, sg2: real,
                          initialMc: real, targetMc: real, tempC: real, humidityRh: real)
    requires MonotonePow(pow15) && thickness >= 0.0 && sg1 <= sg2
    requires DryingPower(tempC, humidityRh) > 0.0
    ensures var r1 := CalculateDryingTime(pow15, thickness, sg1, initialMc, targetMc, tempC, humidityRh);
            var r2 := CalculateDryingTime(pow15, thickness, sg2, initialMc, targetMc, tempC, humidityRh);
            r1.Hours? && r2.Hours? && r1.hours <= r2.hours
  {
    var m := MoistureToRemove(initialMc, targetMc);
    if m >= Tolerance {
      var p := DryingPower(tempC, humidityRh);
      var k := pow15(thickness) * m / p * CalibrationConstant;
      assert k >= 0.0;
      assert RawHours(pow15, thickness, sg1, initialMc, targetMc, tempC, humidityRh) == sg1 * k;
      assert RawHours(pow15, thickness, sg2, initialMc, targetMc, tempC, humidityRh) == sg2 * k;
      if sg1 >= 0.0 {
        ScaleMonotone(sg1, sg2, k);
      } else if sg2 >= 0.0 {
        assert sg1 * k <= 0.0;
      } else {
        ScaleMonotone(-sg2, -sg1, k);
      }
    }
  }

  /** The result does not decrease as the board gets thicker. */
  lemma MonotoneInThickness(pow15: real -> real, th1: real, th2: real, specificGravity: real,
                            initialMc: real, targetMc: real, tempC: real, humidityRh: real)
    requires MonotonePow(pow15) && 0.0 <= th1 <= th2 && specificGravity >= 0.0
    requires DryingPower(tempC, humidityRh) > 0.0
    ensures var r1 := CalculateDryingTime(pow15, th1, specificGravity, initialMc, targetMc, tempC, humidityRh);
            var r2 := CalculateDryingTime(pow15, th2, specificGravity, initialMc, targetMc, tempC, humidityRh);
            r1.Hours? && r2.Hours? && r1.hours <= r2.hours
  {
    var m := MoistureToRemove(initialMc, targetMc);
    if m >= Tolerance {
      var p := DryingPower(tempC, humidityRh);
      var k := specificGravity * m / p * CalibrationConstant;
      assert k >= 0.0;
      assert RawHours(pow15, th1, specificGravity, initialMc, targetMc, tempC, humidityRh) == pow15(th1) * k;
      assert RawHours(pow15, th2, specificGravity, initialMc, targetMc, tempC, humidityRh) == pow15(th2) * k;
      ScaleMonotone(pow15(th1), pow15(th2), k);
    }
  }

  /** The result does not decrease as the initial moisture content rises. */
  lemma MonotoneInInitialMoisture(pow15: real -> real, thickness: real, specificGravity: real,
                                  mc1: real, mc2: real, targetMc: real, tempC: real, humidityRh: real)
    requires MonotonePow(pow15) && thickness >= 0.0 && specificGravity >= 0.0 && mc1 <= mc2
    requires DryingPower(tempC, humidityRh) > 0.0
    ensures var r1 := CalculateDryingTime(pow15, thickness, specificGravity, mc1, targetMc, tempC, humidityRh);
            var r2 := CalculateDryingTime(pow15, thickness, specificGravity, mc2, targetMc, tempC, humidityRh);
            r1.Hours? && r2.Hours? && r1.hours <= r2.hours
  {
    var m1 := MoistureToRemove(mc1, targetMc);
    var m2 := MoistureToRemove(mc2, targetMc);
    if m1 >= Tolerance {
      var p := DryingPower(tempC, humidityRh);
      var k := specificGravity * pow15(thickness) / p * CalibrationConstant;
      assert k >= 0.0;
      assert RawHours(pow15, thickness, specificGravity, mc1, targetMc, tempC, humidityRh) == m1 * k;
      assert RawHours(pow15, thickness, specificGravity, mc2, targetMc, tempC, humidityRh) == m2 * k;
      ScaleMonotone(m1, m2, k);
    }
  }

  /** A larger drying power never gives a longer clamped time for the same work. */
  lemma ClampedTimeAntitone(n: real, p1: real, p2: real)
    requires n >= 0.0 && 0.0 < p1 <= p2
    ensures Max(MinimumHours, (n / p2) * CalibrationConstant) <= Max(MinimumHours, (n / p1) * CalibrationConstant)
  {
    QuotientAntitone(n, p1, p2);
    ScaleMonotone(n / p2, n / p1, CalibrationConstant);
  }

  /** Below saturation, the drying power does not decrease as the air warms. */
  lemma PowerMonotoneInTemperature(t1: real, t2: real, humidityRh: real)
    requires t1 <= t2 && humidityRh < 100.0
    ensures DryingPower(t1, humidityRh) <= DryingPower(t2, humidityRh)
  {
    ScaleMonotone(t1 / 10.0, t2 / 10.0, 1.0 - humidityRh / 100.0);
  }

  /** In air that is not below 0 degrees, the drying power does not increase with humidity. */
  lemma PowerAntitoneInHumidity(tempC: real, h1: real, h2: real)
    requires h1 <= h2 && tempC >= 0.0
    ensures DryingPower(tempC, h2) <= DryingPower(tempC, h1)
  {
    ScaleMonotone(1.0 - h2 / 100.0, 1.0 - h1 / 100.0, tempC / 10.0);
  }

  /** The work to do, `specific_gravity * thickness ** 1.5 * moisture_to_remove`, is not negative. */
  lemma WorkNonNegative(pow15: real -> real, thickness: real, specificGravity: real, m: real)
    requires MonotonePow(pow15) && thickness >= 0.0 && specificGravity >= 0.0 && m >= 0.0
    ensures specificGravity * pow15(thickness) * m >= 0.0
  {
    ScaleMonotone(0.0, specificGravity, pow15(thickness));
    ScaleMonotone(0.0, specificGravity * pow15(thickness), m);
  }

  /** For the same wood and moisture, a climate with more drying power never gives a longer time. */
  lemma AntitoneInPower(pow15: real -> real, thickness: real, specificGravity: real,
                        initialMc: real, targetMc: real, t1: real, h1: real, t2: real, h2: real)
    requires MonotonePow(pow15) && thickness >= 0.0 && specificGravity >= 0.0
    requires 0.0 < DryingPower(t1, h1) <= DryingPower(t2, h2)
    ensures var r1 := CalculateDryingTime(pow15, thickness, specificGravity, initialMc, targetMc, t1, h1);
            var r2 := CalculateDryingTime(pow15, thickness, specificGravity, initialMc, targetMc, t2, h2);
            r1.Hours? && r2.Hours? && r2.hours <= r1.hours
  {
    var r1 := CalculateDryingTime(pow15, thickness, specificGravity, initialMc, targetMc, t1, h1);
    var r2 := CalculateDryingTime(pow15, thickness, specificGravity, initialMc, targetMc, t2, h2);
    var m := MoistureToRemove(initialMc, targetMc);
    if m >= Tolerance {
      var n := specificGravity * pow15(thickness) * m;
      var p1 := DryingPower(t1, h1);
      var p2 := DryingPower(t2, h2);
      assert n >= 0.0 by {
        WorkNonNegative(pow15, thickness, specificGravity, m);
      }
      assert r1 == Hours(Max(MinimumHours, (n / p1) * CalibrationConstant)) by {
        NeededDrying(pow15, thickness, specificGravity, initialMc, targetMc, t1, h1);
        assert RawHours(pow15, thickness, specificGravity, initialMc, targetMc, t1, h1) == (n / p1) * CalibrationConstant;
      }
      assert r2 == Hours(Max(MinimumHours, (n / p2) * CalibrationConstant)) by {
        NeededDrying(pow15, thickness, specificGravity, initialMc, targetMc, t2, h2);
        assert RawHours(pow15, thickness, specificGravity, initialMc, targetMc, t2, h2) == (n / p2) * CalibrationConstant;
      }
      ClampedTimeAntitone(n, p1, p2);
    } else {
      assert r1 == Hours(0.0) && r2 == Hours(0.0);
    }
  }

  /** Below saturation, warmer air never lengthens the drying time. */
  lemma AntitoneInTemperature(pow15: real -> real, thickness: real, specificGravity: real,
                              initialMc: real, targetMc: real, t1: real, t2: real, humidityRh: real)
    requires MonotonePow(pow15) && thickness >= 0.0 && specificGravity >= 0.0
    requires t1 <= t2 && humidityRh < 100.0 && DryingPower(t1, humidityRh) > 0.0
    ensures var r1 := CalculateDryingTime(pow15, thickness, specificGravity, initialMc, targetMc, t1, humidityRh);
            var r2 := CalculateDryingTime(pow15, thickness, specificGravity, initialMc, targetMc, t2, humidityRh);
            r1.Hours? && r2.Hours? && r2.hours <= r1.hours
  {
    PowerMonotoneInTemperature(t1, t2, humidityRh);
    AntitoneInPower(pow15, thickness, specificGravity, initialMc, targetMc, t1, humidityRh, t2, humidityRh);
  }

  /** In air that is not below 0 degrees, more humid air never shortens the drying time. */
  lemma MonotoneInHumidity(pow15: real -> real, thickness: real, specificGravity: real,
                           initialMc: real, targetMc: real, tempC: real, h1: real, h2: real)
    requires MonotonePow(pow15) && thickness >= 0.0 && specificGravity >= 0.0
    requires h1 <= h2 && tempC >= 0.0 && DryingPower(tempC, h2) > 0.0
    ensures var r1 := CalculateDryingTime(pow15, thickness, specificGravity, initialMc, targetMc, tempC, h1);
            var r2 := CalculateDryingTime(pow15, thickness, specificGravity, initialMc, targetMc, tempC, h2);
            r1.Hours? && r2.Hours? && r1.hours <= r2.hours
  {
    PowerAntitoneInHumidity(tempC, h1, h2);
    AntitoneInPower(pow15, thickness, specificGravity, initialMc, targetMc, tempC, h2, tempC, h1);
  }

  /** Every species the generator can choose has a gravity in the table. */
  lemma SpeciesListInTable(species: string)
    requires species in SpeciesList
    ensures species in SpeciesGravity
    ensures 0.5 <= SpeciesGravity[species] <= 0.85
  {
  }

  // ---- The generator ----

  /** Number of rows generated. */
  const NRows: nat := 10000

  /** The random draws behind one row, after their `round(..., 1)`: the species
      chosen, thickness, initial and target moisture, temperature, humidity and,
      for a forced row, the amount `initial_mc` is set below the target. */
  datatype Sample = Sample(species: string, thicknessCm: real, initialMc: real, targetMc: real,
                           tempC: real, humidityRh: real, dryOffset: real)

  /** The ranges the generator draws from. */
  ghost predicate SampleInRange(s: Sample)
    ensures SampleInRange(s) ==> s.targetMc < s.initialMc && MoistureToRemove(s.initialMc, s.targetMc) >= Tolerance
  {
    && s.species in SpeciesList
    && 1.5 <= s.thicknessCm <= 12.0
    && 35.0 <= s.initialMc <= 120.0
    && 8.0 <= s.targetMc <= 15.0
    && 25.0 <= s.tempC <= 45.0
    && 40.0 <= s.humidityRh <= 95.0
    && 0.1 <= s.dryOffset <= 5.0
  }

  /** One row of the generated table, columns in `DatasetColumns` order. */
  datatype TrainingRow = TrainingRow(species: string, thicknessCm: real, specificGravity: real,
                                     initialMoisture: real, targetMoisture: real,
                                     temperatureC: real, humidityRh: real, dryingTimeHours: real)

  /** Row `i` is one of the first 1 % that are forced to be already dry. */
  predicate ForcedDry(i: nat)
    ensures ForcedDry(i) <==> i < 100
  {
    (i as real) < (NRows as real) * 0.01
  }

  /** The `initial_mc` of a forced row: the target less the offset, but not below 5 %. */
  function ForcedInitialMc(s: Sample): (mc: real)
    ensures mc >= 5.0 && (mc == 5.0 || mc == s.targetMc - s.dryOffset)
    ensures s.dryOffset > 0.0 && s.targetMc > 5.0 ==> mc < s.targetMc
  {
    Max(5.0, s.targetMc - s.dryOffset)
  }

  /** A forced row starts below its target, so it needs no drying. */
  lemma ForcedRowIsDry(pow15: real -> real, s: Sample, specificGravity: real)
    requires SampleInRange(s)
    ensures ForcedInitialMc(s) < s.targetMc
    ensures CalculateDryingTime(pow15, s.thicknessCm, specificGravity, ForcedInitialMc(s),
                                s.targetMc, s.tempC, s.humidityRh) == Hours(0.0)
  {
  }

  /** The drying power over the generator's climate ranges is bounded away from zero. */
  lemma SampleClimateDries(s: Sample)
    requires SampleInRange(s)
    ensures DryingPower(s.tempC, s.humidityRh) >= PowerFloor
  {
    DryingPowerAtLeastFloor(s.tempC, s.humidityRh);
  }

  /** Row `i` of the table for one sample: the species' gravity from the table, the forced
      `initial_mc` for the first 1 %, and the rounded drying time of the physics model. */
  function GeneratedRow(pow15: real -> real, i: nat, s: Sample): (row: TrainingRow)
    requires SampleInRange(s)
    ensures && row.species == s.species
            && row.species in SpeciesGravity
            && row.specificGravity == SpeciesGravity[row.species]
            && row.thicknessCm == s.thicknessCm
            && row.targetMoisture == s.targetMc
            && row.temperatureC == s.tempC
            && row.humidityRh == s.humidityRh
            && row.initialMoisture == (if ForcedDry(i) then ForcedInitialMc(s) else s.initialMc)
    ensures var r := CalculateDryingTime(pow15, row.thicknessCm, row.specificGravity, row.initialMoisture,
                                         row.targetMoisture, row.temperatureC, row.humidityRh);
            r.Hours? && row.dryingTimeHours == Round2(r.hours)
    ensures (row.dryingTimeHours == 0.0 <==> MoistureToRemove(row.initialMoisture, row.targetMoisture) < Tolerance)
            && (row.dryingTimeHours == 0.0 || row.dryingTimeHours >= MinimumHours)
    ensures ForcedDry(i) ==> row.initialMoisture < row.targetMoisture && row.dryingTimeHours == 0.0
  {
    SpeciesListInTable(s.species);
    var specificGravity := SpeciesGravity[s.species];
    var initialMc := if ForcedDry(i) then ForcedInitialMc(s) else s.initialMc;
    ForcedRowIsDry(pow15, s, specificGravity);
    SampleClimateDries(s);
    var outcome := CalculateDryingTime(pow15, s.thicknessCm, specificGravity, initialMc,
                                       s.targetMc, s.tempC, s.humidityRh);
    Round2KeepsDryingBounds(outcome.hours);
    TrainingRow(s.species, s.thicknessCm, specificGravity, initialMc, s.targetMc,
                s.tempC, s.humidityRh, Round2(outcome.hours))
  }

  /** The loop of `generate_data.py`: one row per sample, the first 1 % forced dry,
      each labelled with `round(calculate_drying_time(...), 2)`. */
  method GenerateRows(pow15: real -> real, samples: seq<Sample>) returns (data: seq<TrainingRow>)
    requires |samples| == NRows
    requires forall i :: 0 <= i < |samples| ==> SampleInRange(samples[i])
    ensures |data| == NRows
    ensures forall i :: 0 <= i < |data| ==>
      && data[i].species == samples[i].species
      && data[i].species in SpeciesGravity
      && data[i].specificGravity == SpeciesGravity[data[i].species]
      && data[i].thicknessCm == samples[i].thicknessCm
      && data[i].targetMoisture == samples[i].targetMc
      && data[i].temperatureC == samples[i].tempC
      && data[i].humidityRh == samples[i].humidityRh
      && data[i].initialMoisture == (if ForcedDry(i) then ForcedInitialMc(samples[i]) else samples[i].initialMc)
    ensures forall i :: 0 <= i < |data| ==>
      var r := CalculateDryingTime(pow15, data[i].thicknessCm, data[i].specificGravity, data[i].initialMoisture,
                                   data[i].targetMoisture, data[i].temperatureC, data[i].humidityRh);
      r.Hours? && data[i].dryingTimeHours == Round2(r.hours)
    ensures forall i :: 0 <= i < |data| ==>
      (data[i].dryingTimeHours == 0.0 <==> MoistureToRemove(data[i].initialMoisture, data[i].targetMoisture) < Tolerance)
      && (data[i].dryingTimeHours == 0.0 || data[i].dryingTimeHours >= MinimumHours)
    ensures forall i :: 0 <= i < |data| && ForcedDry(i) ==>
      data[i].initialMoisture < data[i].targetMoisture && data[i].dryingTimeHours == 0.0
  {
    data := [];
    for i := 0 to NRows
      invariant |data| == i
      invariant forall j :: 0 <= j < i ==> data[j] == GeneratedRow(pow15, j, samples[j])
    {
      var sample := samples[i];
      var species := sample.species;
      SpeciesListInTable(species);
      var specificGravity := SpeciesGravity[species];
      var initialMc := sample.initialMc;
      if ForcedDry(i) {
        initialMc := sample.targetMc - sample.dryOffset;
        initialMc := Max(5.0, initialMc);
      }
      SampleClimateDries(sample);
      var outcome := CalculateDryingTime(pow15, sample.thicknessCm, specificGravity, initialMc,
                                         sample.targetMc, sample.tempC, sample.humidityRh);
      var row := TrainingRow(species, sample.thicknessCm, specificGravity, initialMc, sample.targetMc,
                             sample.tempC, sample.humidityRh, Round2(outcome.hours));
      assert row == GeneratedRow(pow15, i, sample);
      data := data + [row];
    }
  }
}
