/** The nutrition calculator: resting and daily energy requirement, water
    intake, and the activity-factor table keyed by status code. */
module DailyCalories {

  /** The status codes the chat accepts, `str(i)` for `i` in `1..13`. */
  const StatusCodes: seq<string> :=
    ["1", "2", "3", "4", "5", "6", "7", "8", "9", "10", "11", "12", "13"]

  /** Activity-factor intervals in status-code order: entry `k` belongs to
      code `k + 1`. */
  const AfTable: seq<(real, real)> := [
    (2.5, 3.0),  // developing puppy, under 4 months
    (2.0, 2.5),  // developing puppy, 4 months to 1 year
    (1.4, 1.6),  // neutered adult, 1-7 years
    (1.6, 1.8),  // intact adult, 1-7 years
    (1.2, 1.4),  // adult on a mild diet
    (1.0, 1.2),  // adult on a strict diet
    (1.6, 2.0),  // underweight adult
    (1.2, 1.4),  // lightly active
    (2.0, 2.5),  // highly active
    (1.2, 1.4),  // senior
    (1.8, 2.0),  // pregnant
    (2.2, 2.5),  // lactating
    (1.0, 1.5)   // sick adult
  ]

  /** The interval used for every key the dictionary does not hold. */
  const DefaultAf: (real, real) := (1.6, 1.8)

  /** The lookup dictionary itself. */
  const AfDict: map<string, (real, real)> := map[
    "1" := (2.5, 3.0), "2" := (2.0, 2.5), "3" := (1.4, 1.6),
    "4" := (1.6, 1.8), "5" := (1.2, 1.4), "6" := (1.0, 1.2),
    "7" := (1.6, 2.0), "8" := (1.2, 1.4), "9" := (2.0, 2.5),
    "10" := (1.2, 1.4), "11" := (1.8, 2.0), "12" := (2.2, 2.5),
    "13" := (1.0, 1.5)
  ]

  /** An activity-factor interval of the calculator's range. */
  predicate OrderedFactor(af: (real, real)) {
    1.0 <= af.0 <= af.1 <= 3.0
  }

  /** `get_AF_for_status`: the tabulated interval, or the default for any
      other key; it never fails. */
  function GetAfForStatus(status: string): (af: (real, real))
    ensures OrderedFactor(af)
    ensures status !in StatusCodes ==> af == DefaultAf
    ensures forall k | 0 <= k < |StatusCodes| :: status == StatusCodes[k] ==> af == AfTable[k]
  {
    if status in AfDict then AfDict[status] else DefaultAf
  }

  /** `calculate_RER`: `70 * weight ** 0.75`, with no check on the weight. */
  function CalculateRER(weight: real, pow34: real -> real): (rer: real)
    ensures pow34(weight) >= 0.0 <==> rer >= 0.0
  {
    70.0 * pow34(weight)
  }

  /** `calculate_DER`: the resting requirement scaled by an activity factor. */
  function CalculateDER(rer: real, af: real): (der: real)
    ensures rer >= 0.0 && af >= 1.0 ==> der >= rer
    ensures rer >= 0.0 && af <= 1.0 ==> der <= rer
  {
    rer * af
  }

  /** `calculate_water_intake`: 50 to 60 ml per kilogram. */
  function CalculateWaterIntake(weight: real): (range: (real, real))
    ensures weight >= 0.0 ==> range.0 <= range.1
    ensures 5.0 * range.1 == 6.0 * range.0
    ensures (range.0 > 0.0 <==> weight > 0.0) && (range.0 == 0.0 <==> weight == 0.0)
  {
    (weight * 50.0, weight * 60.0)
  }

  /** The targets the chat reports: RER, the DER interval and the water
      interval. */
  datatype Targets = Targets(rer: real, derMin: real, derMax: real, waterMin: real, waterMax: real)

  /** The targets for a weight and a status code, as the nutrition step and
      the web forms compute them. */
  function ComputeTargets(weight: real, status: string, pow34: real -> real): (t: Targets)
    ensures pow34(weight) >= 0.0 ==> 0.0 <= t.rer <= t.derMin <= t.derMax <= 3.0 * t.rer
    ensures weight >= 0.0 ==> 0.0 <= t.waterMin <= t.waterMax
    ensures t.rer == 70.0 * pow34(weight)
    ensures t.derMin == CalculateDER(t.rer, GetAfForStatus(status).0)
    ensures t.derMax == CalculateDER(t.rer, GetAfForStatus(status).1)
    ensures t.waterMin == 50.0 * weight && t.waterMax == 60.0 * weight
  {
    var rer := CalculateRER(weight, pow34);
    var af := GetAfForStatus(status);
    var water := CalculateWaterIntake(weight);
    FactorsScale(rer, af);
    Targets(rer, CalculateDER(rer, af.0), CalculateDER(rer, af.1), water.0, water.1)
  }

  /** Scaling a non-negative requirement by the ends of an ordered factor
      interval keeps the order, between one and three times the requirement. */
  lemma FactorsScale(rer: real, af: (real, real))
    ensures rer >= 0.0 && OrderedFactor(af) ==> rer <= rer * af.0 <= rer * af.1 <= 3.0 * rer
  {
    if rer >= 0.0 && OrderedFactor(af) {
      assert rer * (af.0 - 1.0) >= 0.0;
      assert rer * (af.1 - af.0) >= 0.0;
      assert rer * (3.0 - af.1) >= 0.0;
    }
  }

  // ---------------------------------------------------------------------
  // Table properties.
  // ---------------------------------------------------------------------

  /** The dictionary holds exactly the accepted status codes, so the chat's
      range check and the dictionary agree. */
  lemma KnownCodesAreExactlyTheKeys(status: string)
    ensures status in StatusCodes <==> status in AfDict
  {
  }

  /** Every other key falls back to `(1.6, 1.8)`. */
  lemma DefaultFactor()
    ensures GetAfForStatus("0") == DefaultAf
    ensures GetAfForStatus("14") == DefaultAf
    ensures GetAfForStatus("abc") == DefaultAf
    ensures GetAfForStatus("") == DefaultAf
  {
  }

  /** Every pair in the table is an ordered interval within `[1.0, 3.0]`. */
  lemma TableOrdered()
    ensures forall k | 0 <= k < |AfTable| :: OrderedFactor(AfTable[k])
  {
  }

  /** The DER interval is ordered whenever the RER is non-negative. */
  lemma DerRangeOrdered(rer: real, status: string)
    requires rer >= 0.0
    ensures CalculateDER(rer, GetAfForStatus(status).0) <= CalculateDER(rer, GetAfForStatus(status).1)
  {
  }

  /** DER is linear in both arguments. */
  lemma DerLinear(rer: real, rer': real, af: real, af': real, c: real)
    ensures CalculateDER(rer, c * af) == c * CalculateDER(rer, af)
    ensures CalculateDER(rer, af + af') == CalculateDER(rer, af) + CalculateDER(rer, af')
    ensures CalculateDER(c * rer, af) == c * CalculateDER(rer, af)
    ensures CalculateDER(rer + rer', af) == CalculateDER(rer, af) + CalculateDER(rer', af)
  {
  }

  /** The water interval is linear in the weight: scaling or adding weights
      scales or adds both ends. With `WaterAtTenKilograms` this fixes the
      rates at 50 and 60 ml per kilogram. */
  lemma WaterLinear(weight: real, weight': real, c: real)
    ensures CalculateWaterIntake(c * weight).0 == c * CalculateWaterIntake(weight).0
    ensures CalculateWaterIntake(c * weight).1 == c * CalculateWaterIntake(weight).1
    ensures CalculateWaterIntake(weight + weight').0 == CalculateWaterIntake(weight).0 + CalculateWaterIntake(weight').0
    ensures CalculateWaterIntake(weight + weight').1 == CalculateWaterIntake(weight).1 + CalculateWaterIntake(weight').1
  {
  }

  /** The water interval at ten kilograms. */
  lemma WaterAtTenKilograms()
    ensures CalculateWaterIntake(10.0) == (500.0, 600.0)
  {
  }
}
