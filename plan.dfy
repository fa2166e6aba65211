/** The vocabulary both front ends share: sex, the five goal labels, the three training
    environments and the body profile handed to the planning engine. */
module Plan {
  import Text

  /** The profile's `gender` field; the front ends compare it with "남성" (male). */
  datatype Sex = Male | Female

  function SexLabel(s: Sex): string
  {
    match s
    case Male => "남성"
    case Female => "여성"
  }

  /** How the nutrition and chart code reads the gender text: exactly "남성" is male,
      any other text is treated as female. */
  function SexOfLabel(text: string): (s: Sex)
    ensures s == Male <==> text == "남성"
  {
    if text == "남성" then Male else Female
  }

  lemma SexLabelRoundTrip(s: Sex)
    ensures SexOfLabel(SexLabel(s)) == s
  {
  }

  /** The five goals offered by the form and the terminal menu. */
  datatype Goal = WeightLoss | MuscleGain | Recomposition | Fitness | Maintenance

  /** The goal text the planner receives. */
  function GoalLabel(g: Goal): string
  {
    match g
    case WeightLoss => LossKeyword
    case MuscleGain => GainKeyword
    case Recomposition => CombinedLabel
    case Fitness => "체력 향상"
    case Maintenance => "건강 유지"
  }

  const LossKeyword: string := "체중 감량"
  const GainKeyword: string := "근육 증가"
  const CombinedLabel: string := "체중 감량 + 근육 증가"

  /** `"체중 감량" in goal`. */
  predicate ContainsLoss(g: Goal)
  {
    Text.Contains(GoalLabel(g), LossKeyword)
  }

  /** `"근육 증가" in goal`. */
  predicate ContainsGain(g: Goal)
  {
    Text.Contains(GoalLabel(g), GainKeyword)
  }

  /** `"체중 감량 + 근육 증가" in goal`. */
  predicate ContainsCombined(g: Goal)
  {
    Text.Contains(GoalLabel(g), CombinedLabel)
  }

  /** Each label's text occurs in itself. */
  lemma ContainsSelf(s: string)
    ensures Text.Contains(s, s)
  {
    assert Text.OccursAt(s, s, 0);
    Text.ContainsAt(s, s, 0);
  }

  /** The substring tests on the five labels: the fat-loss keyword occurs exactly in
      "체중 감량" and the combined label, the muscle-gain keyword exactly in "근육 증가"
      and the combined label, and the combined label only in itself. */
  lemma {:induction false} GoalKeywords(g: Goal)
    ensures ContainsLoss(g) <==> g == WeightLoss || g == Recomposition
    ensures ContainsGain(g) <==> g == MuscleGain || g == Recomposition
    ensures ContainsCombined(g) <==> g == Recomposition
  {
    match g
    case WeightLoss =>
      ContainsSelf(LossKeyword);
      Text.NotContainsWithoutFirstChar(LossKeyword, GainKeyword);
      assert |CombinedLabel| > |LossKeyword|;
      Text.ContainsIffOccurs(LossKeyword, CombinedLabel);
    case MuscleGain =>
      ContainsSelf(GainKeyword);
      Text.NotContainsWithoutFirstChar(GainKeyword, LossKeyword);
      Text.ContainsIffOccurs(GainKeyword, CombinedLabel);
    case Recomposition =>
      ContainsSelf(CombinedLabel);
      assert Text.OccursAt(CombinedLabel, LossKeyword, 0);
      Text.ContainsAt(CombinedLabel, LossKeyword, 0);
      assert Text.OccursAt(CombinedLabel, GainKeyword, 8);
      Text.ContainsAt(CombinedLabel, GainKeyword, 8);
    case Fitness =>
      Text.ContainsIffOccurs("체력 향상", LossKeyword);
      assert "체력 향상"[1] != LossKeyword[1];
      Text.NotContainsWithoutFirstChar("체력 향상", GainKeyword);
      Text.ContainsIffOccurs("체력 향상", CombinedLabel);
    case Maintenance =>
      Text.NotContainsWithoutFirstChar("건강 유지", LossKeyword);
      Text.NotContainsWithoutFirstChar("건강 유지", GainKeyword);
      Text.ContainsIffOccurs("건강 유지", CombinedLabel);
  }

  /** The three environment labels. */
  datatype Environment = Gym | HomeWithEquipment | HomeBodyweight

  function EnvironmentLabel(e: Environment): string
  {
    match e
    case Gym => "헬스장"
    case HomeWithEquipment => "홈트레이닝 (장비 있음)"
    case HomeBodyweight => "홈트레이닝 (장비 없음)"
  }

  /** The six pain areas. */
  datatype PainArea = NeckShoulder | LowerBack | Knee | Wrist | Elbow | Ankle

  function PainAreaLabel(a: PainArea): string
  {
    match a
    case NeckShoulder => "목/어깨"
    case LowerBack => "허리"
    case Knee => "무릎"
    case Wrist => "손목"
    case Elbow => "팔꿈치"
    case Ankle => "발목"
  }

  /** The body profile: height in cm, weight in kg, age in years, body-fat percentage and
      skeletal-muscle mass in kg (both present; the optional case is not modelled). */
  datatype Profile = Profile(height: real, weight: real, age: int, sex: Sex,
                             bodyFat: real, muscleMass: real)
}
