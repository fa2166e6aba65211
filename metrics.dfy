/** The body-composition charts of the web front end: BMI and skeletal-muscle ratio, the
    sex-specific (low, normal, high) band tables, and the colour decision that places a
    value against the normal band. */
module BodyMetrics {
  import opened Plan

  /** Body-mass index: weight in kg over the square of height in metres. */
  function Bmi(p: Profile): (r: real)
    requires p.height > 0.0
    ensures r * ((p.height / 100.0) * (p.height / 100.0)) == p.weight
  {
    var metres := p.height / 100.0;
    assert metres * metres > 0.0;
    p.weight / (metres * metres)
  }

  /** Skeletal-muscle mass as a percentage of body weight. */
  function MuscleRatio(p: Profile): (r: real)
    requires p.weight > 0.0
    ensures r * p.weight == p.muscleMass * 100.0
  {
    (p.muscleMass / p.weight) * 100.0
  }

  datatype Band = Low | Normal | High

  /** A band on the chart's axis, from `start` to `end`. */
  datatype Span = Span(start: real, end: real)

  /** The three bands of one chart, keyed "낮음", "정상" and "높음". */
  datatype BandTable = BandTable(low: Span, normal: Span, high: Span)

  /** BMI bands, the same for both sexes. */
  function BmiBands(sex: Sex): BandTable
  {
    BandTable(Span(0.0, 18.5), Span(18.5, 25.0), Span(25.0, 40.0))
  }

  /** Body-fat percentage bands. */
  function BodyFatBands(sex: Sex): BandTable
  {
    match sex
    case Male => BandTable(Span(0.0, 10.0), Span(10.0, 20.0), Span(20.0, 50.0))
    case Female => BandTable(Span(0.0, 18.0), Span(18.0, 28.0), Span(28.0, 50.0))
  }

  /** Skeletal-muscle ratio bands. */
  function MuscleBands(sex: Sex): BandTable
  {
    match sex
    case Male => BandTable(Span(0.0, 37.0), Span(37.0, 50.0), Span(50.0, 100.0))
    case Female => BandTable(Span(0.0, 30.0), Span(30.0, 45.0), Span(45.0, 100.0))
  }

  /** The bands tile the axis from 0 without gaps: each band ends where the next starts,
      and each band has positive width. */
  predicate Contiguous(t: BandTable)
  {
    && t.low.start == 0.0
    && t.low.start < t.low.end == t.normal.start < t.normal.end == t.high.start < t.high.end
  }

  /** Every table, for either sex, is contiguous; this is what the stacked background
      bars of the chart rely on. */
  lemma TablesContiguous(sex: Sex)
    ensures Contiguous(BmiBands(sex)) && Contiguous(BodyFatBands(sex)) && Contiguous(MuscleBands(sex))
  {
  }

  /** The thresholds per sex: BMI 18.5/25 for both; body fat 10/20 male, 18/28 female;
      muscle ratio 37/50 male, 30/45 female. */
  lemma Thresholds(sex: Sex)
    ensures BmiBands(sex).normal == Span(18.5, 25.0)
    ensures BodyFatBands(sex).normal == if sex == Male then Span(10.0, 20.0) else Span(18.0, 28.0)
    ensures MuscleBands(sex).normal == if sex == Male then Span(37.0, 50.0) else Span(30.0, 45.0)
  {
  }

  /** The colour decision: below the normal band's start is low, above its end is high,
      and everything from start to end, boundaries included, is normal. */
  function Classify(value: real, t: BandTable): (b: Band)
    ensures b == Low <==> value < t.normal.start
    ensures b == High <==> t.normal.start <= value && value > t.normal.end
    ensures b == Normal <==> t.normal.start <= value <= t.normal.end
  {
    if value < t.normal.start then Low
    else if value > t.normal.end then High
    else Normal
  }

  function BandRank(b: Band): nat
  {
    match b
    case Low => 0
    case Normal => 1
    case High => 2
  }

  /** A larger value never falls in a lower band. */
  lemma ClassifyMonotone(v1: real, v2: real, t: BandTable)
    requires t.normal.start <= t.normal.end
    requires v1 <= v2
    ensures BandRank(Classify(v1, t)) <= BandRank(Classify(v2, t))
  {
  }

  /** The bar colour for each band: orange, red and green. */
  function BarColour(b: Band): string
  {
    match b
    case Low => "rgba(255, 152, 0, 0.9)"
    case High => "rgba(244, 67, 54, 0.9)"
    case Normal => "rgba(76, 175, 80, 0.9)"
  }

  /** The bar's colour tells the band: orange exactly below the normal band, red exactly
      above it, green exactly within it; no two bands share a colour. */
  lemma BarColourDecision(value: real, t: BandTable)
    ensures BarColour(Classify(value, t)) == "rgba(255, 152, 0, 0.9)" <==> value < t.normal.start
    ensures BarColour(Classify(value, t)) == "rgba(244, 67, 54, 0.9)" <==> t.normal.start <= value && value > t.normal.end
    ensures BarColour(Classify(value, t)) == "rgba(76, 175, 80, 0.9)" <==> t.normal.start <= value <= t.normal.end
    ensures forall b1, b2 :: BarColour(b1) == BarColour(b2) ==> b1 == b2
  {
    assert "rgba(255, 152, 0, 0.9)"[6] != "rgba(244, 67, 54, 0.9)"[6];
    assert "rgba(255, 152, 0, 0.9)"[5] != "rgba(76, 175, 80, 0.9)"[5];
    assert "rgba(244, 67, 54, 0.9)"[5] != "rgba(76, 175, 80, 0.9)"[5];
  }

  /** The three bands the charts show for one profile. */
  datatype Chart = Chart(bmi: Band, bodyFat: Band, muscle: Band)

  /** Each chart's band against the thresholds of the profile's sex: BMI 18.5 to 25 for
      both sexes, body fat 10 to 20 % (male) or 18 to 28 % (female), muscle ratio 37 to
      50 % (male) or 30 to 45 % (female), both ends counted as normal. */
  function BodyChart(p: Profile): (c: Chart)
    requires p.height > 0.0 && p.weight > 0.0
    ensures c.bmi == Low <==> Bmi(p) < 18.5
    ensures c.bmi == Normal <==> 18.5 <= Bmi(p) <= 25.0
    ensures c.bmi == High <==> Bmi(p) > 25.0
    ensures var (lo, hi) := if p.sex == Male then (10.0, 20.0) else (18.0, 28.0);
            && (c.bodyFat == Low <==> p.bodyFat < lo)
            && (c.bodyFat == Normal <==> lo <= p.bodyFat <= hi)
            && (c.bodyFat == High <==> p.bodyFat > hi)
    ensures var (lo, hi) := if p.sex == Male then (37.0, 50.0) else (30.0, 45.0);
            && (c.muscle == Low <==> MuscleRatio(p) < lo)
            && (c.muscle == Normal <==> lo <= MuscleRatio(p) <= hi)
            && (c.muscle == High <==> MuscleRatio(p) > hi)
  {
    Chart(Classify(Bmi(p), BmiBands(p.sex)),
          Classify(p.bodyFat, BodyFatBands(p.sex)),
          Classify(MuscleRatio(p), MuscleBands(p.sex)))
  }

  /** The form's defaults (164 cm, 57 kg, female) with both optional inputs switched on at
      their preset values (26 % fat, 25 kg muscle), the same values the terminal fixes, are
      normal on all three charts: BMI about 21.2, muscle ratio about 43.9 %. */
  lemma DefaultProfileChart()
    ensures BodyChart(Profile(164.0, 57.0, 25, Female, 26.0, 25.0)) == Chart(Normal, Normal, Normal)
  {
    var p := Profile(164.0, 57.0, 25, Female, 26.0, 25.0);
    assert 18.5 <= Bmi(p) <= 25.0;
    assert 30.0 <= MuscleRatio(p) <= 45.0;
  }
}
