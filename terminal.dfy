/** The terminal front end's reading of its answers: each prompt's line is stripped and
    either accepted, giving the value the plan is built from, or rejected, in which case
    the prompt is asked again. */
module TerminalInput {
  import Text
  import opened Numerals
  import opened Plan
  import opened Wrappers
  import opened Seqs

  /** Why a line was rejected: `int()` raised ValueError, or the number is outside the
      prompt's range. */
  datatype Rejection = NotANumber | OutOfRange

  datatype Reading<T> = Accepted(value: T) | Rejected(reason: Rejection)

  /** `int()` strips the line again, which changes nothing. */
  lemma ParseStripped(line: string)
    ensures ParseInt(Text.Strip(line)) == ParseInt(line)
  {
    Text.StripIdempotent(line);
  }

  /** A number prompt: the stripped line read by `int()` and checked against `lo..hi`,
      both ends included. */
  function ReadNumber(line: string, lo: int, hi: int): (r: Reading<int>)
    ensures r.Accepted? <==> ParseInt(line).Some? && lo <= ParseInt(line).value <= hi
    ensures r.Accepted? ==> r.value == ParseInt(line).value
    ensures r == Rejected(NotANumber) <==> ParseInt(line).None?
  {
    var parsed := ParseInt(Text.Strip(line));
    ParseStripped(line);
    if parsed.None? then Rejected(NotANumber)
    else if lo <= parsed.value <= hi then Accepted(parsed.value)
    else Rejected(OutOfRange)
  }

  /** The age prompt accepts whole years from 10 to 100. */
  function ReadAge(line: string): (r: Reading<int>)
    ensures r.Accepted? <==> ParseInt(line).Some? && 10 <= ParseInt(line).value <= 100
    ensures r.Accepted? ==> r.value == ParseInt(line).value
  {
    ReadNumber(line, 10, 100)
  }

  /** The weekly-frequency prompt accepts 3 to 7 sessions. */
  function ReadFrequency(line: string): (r: Reading<int>)
    ensures r.Accepted? <==> ParseInt(line).Some? && 3 <= ParseInt(line).value <= 7
    ensures r.Accepted? ==> r.value == ParseInt(line).value
  {
    ReadNumber(line, 3, 7)
  }

  /** The session-length prompt accepts 30 to 120 minutes. */
  function ReadDuration(line: string): (r: Reading<int>)
    ensures r.Accepted? <==> ParseInt(line).Some? && 30 <= ParseInt(line).value <= 120
    ensures r.Accepted? ==> r.value == ParseInt(line).value
  {
    ReadNumber(line, 30, 120)
  }

  /** Typing a number in the decimal form Python prints it in is accepted exactly when the
      number is in range, and gives that number back. */
  lemma ReadShownNumber(n: int, lo: int, hi: int)
    ensures ReadNumber(ShowInt(n), lo, hi) == if lo <= n <= hi then Accepted(n) else Rejected(OutOfRange)
  {
    ParseShowRoundTrip(n);
  }

  /** The ages, frequencies and durations the prompts let through are exactly the ranges
      10..100, 3..7 and 30..120. */
  lemma PromptRanges(n: int)
    ensures ReadAge(ShowInt(n)).Accepted? <==> 10 <= n <= 100
    ensures ReadFrequency(ShowInt(n)).Accepted? <==> 3 <= n <= 7
    ensures ReadDuration(ShowInt(n)).Accepted? <==> 30 <= n <= 120
  {
    ParseShowRoundTrip(n);
  }

  /** The gender prompt: "남", "M" or "m" is male, "여", "F" or "f" female, anything else
      is asked again. The plan then receives `SexLabel` of the answer. */
  function NormaliseGender(line: string): (r: Option<Sex>)
    ensures r == Some(Male) <==> Text.Strip(line) in {"남", "M", "m"}
    ensures r == Some(Female) <==> Text.Strip(line) in {"여", "F", "f"}
    ensures r.None? <==> Text.Strip(line) !in {"남", "여", "M", "F", "m", "f"}
  {
    var answer := Text.Strip(line);
    if answer in ["남", "여", "M", "F", "m", "f"] then
      if answer in ["남", "M", "m"] then Some(Male) else Some(Female)
    else None
  }

  /** The goal menu. */
  const GoalMenu: map<int, Goal> :=
    map[1 := WeightLoss, 2 := MuscleGain, 3 := Recomposition, 4 := Fitness, 5 := Maintenance]

  lemma GoalMenuKey(n: int)
    requires 1 <= n <= 5
    ensures n in GoalMenu
  {
  }

  /** The goal prompt: a number from 1 to 5, looked up in the menu. */
  function ReadGoalChoice(line: string): (r: Reading<Goal>)
    ensures r.Accepted? <==> ParseInt(line).Some? && 1 <= ParseInt(line).value <= 5
    ensures r.Accepted? ==> ParseInt(line).value in GoalMenu && r.value == GoalMenu[ParseInt(line).value]
    ensures r == Rejected(NotANumber) <==> ParseInt(line).None?
  {
    var choice := ReadNumber(line, 1, 5);
    if choice.Accepted? then GoalMenuKey(choice.value); Accepted(GoalMenu[choice.value])
    else Rejected(choice.reason)
  }

  /** Every goal is offered under exactly one number, and the texts are those the
      planner reads. */
  lemma GoalMenuOneToOne()
    ensures GoalMenu.Keys == {1, 2, 3, 4, 5}
    ensures GoalMenu.Values == {WeightLoss, MuscleGain, Recomposition, Fitness, Maintenance}
    ensures forall m, n :: m in GoalMenu && n in GoalMenu && GoalMenu[m] == GoalMenu[n] ==> m == n
    ensures GoalLabel(GoalMenu[1]) == "체중 감량" && GoalLabel(GoalMenu[2]) == "근육 증가"
    ensures GoalLabel(GoalMenu[3]) == "체중 감량 + 근육 증가" && GoalLabel(GoalMenu[4]) == "체력 향상"
    ensures GoalLabel(GoalMenu[5]) == "건강 유지"
  {
    assert GoalMenu[1] == WeightLoss && GoalMenu[2] == MuscleGain && GoalMenu[3] == Recomposition;
    assert GoalMenu[4] == Fitness && GoalMenu[5] == Maintenance;
  }

  /** The environment menu. */
  const EnvironmentMenu: map<int, Environment> := map[1 := Gym, 2 := HomeWithEquipment, 3 := HomeBodyweight]

  lemma EnvironmentMenuKey(n: int)
    requires 1 <= n <= 3
    ensures n in EnvironmentMenu
  {
  }

  /** The environment prompt: a number from 1 to 3, looked up in the menu. */
  function ReadEnvironmentChoice(line: string): (r: Reading<Environment>)
    ensures r.Accepted? <==> ParseInt(line).Some? && 1 <= ParseInt(line).value <= 3
    ensures r.Accepted? ==> ParseInt(line).value in EnvironmentMenu && r.value == EnvironmentMenu[ParseInt(line).value]
    ensures r == Rejected(NotANumber) <==> ParseInt(line).None?
  {
    var choice := ReadNumber(line, 1, 3);
    if choice.Accepted? then EnvironmentMenuKey(choice.value); Accepted(EnvironmentMenu[choice.value])
    else Rejected(choice.reason)
  }

  /** Every environment is offered under exactly one number. */
  lemma EnvironmentMenuOneToOne()
    ensures EnvironmentMenu.Keys == {1, 2, 3}
    ensures EnvironmentMenu.Values == {Gym, HomeWithEquipment, HomeBodyweight}
    ensures forall m, n :: m in EnvironmentMenu && n in EnvironmentMenu && EnvironmentMenu[m] == EnvironmentMenu[n] ==> m == n
    ensures EnvironmentLabel(EnvironmentMenu[1]) == "헬스장"
    ensures EnvironmentLabel(EnvironmentMenu[2]) == "홈트레이닝 (장비 있음)"
    ensures EnvironmentLabel(EnvironmentMenu[3]) == "홈트레이닝 (장비 없음)"
  {
    assert EnvironmentMenu[1] == Gym && EnvironmentMenu[2] == HomeWithEquipment && EnvironmentMenu[3] == HomeBodyweight;
  }

  /** The answers that count as "yes" to the pain question. */
  const YesAnswers: set<string> := {"예", "y", "yes", "Y", "YES", "네"}

  predicate AnswersYes(line: string)
  {
    Text.Strip(line) in YesAnswers
  }

  /** The area numbers of the pain menu. */
  const AreaMenu: map<string, PainArea> :=
    map["1" := NeckShoulder, "2" := LowerBack, "3" := Knee, "4" := Wrist, "5" := Elbow, "6" := Ankle]

  /** One comma-separated token, stripped and looked up; an unknown token is dropped. */
  function AreaOf(token: string): (r: Option<PainArea>)
    ensures r.Some? <==> Text.Strip(token) in AreaMenu
    ensures r.Some? ==> r.value == AreaMenu[Text.Strip(token)]
  {
    var number := Text.Strip(token);
    if number in AreaMenu then Some(AreaMenu[number]) else None
  }

  /** The areas a list of tokens names, in token order, repeats kept. */
  function AreasOf(tokens: seq<string>): seq<PainArea>
  {
    FilterMap(AreaOf, tokens)
  }

  /** The tokens the selection line splits into. */
  function Tokens(selections: string): seq<string>
  {
    Text.Split(Text.Strip(selections), ',')
  }

  /** The areas of two runs of tokens are those of the first run followed by those of the
      second: order and repeats are kept. */
  lemma AreasOfAppend(a: seq<string>, b: seq<string>)
    ensures AreasOf(a + b) == AreasOf(a) + AreasOf(b)
  {
    FilterMapAppend(AreaOf, a, b);
  }

  /** The area-collecting loop over the tokens of the selection line: each token is
      stripped and, when it is a menu number, its area is appended. */
  method CollectAreas(tokens: seq<string>) returns (areas: seq<PainArea>)
    ensures areas == AreasOf(tokens)
  {
    areas := [];
    for i := 0 to |tokens|
      invariant areas == AreasOf(tokens[..i])
    {
      var area := AreaOf(tokens[i]);
      FilterMapSnoc(AreaOf, tokens, i);
      if area.Some? {
        areas := areas + [area.value];
      }
    }
    assert tokens[..|tokens|] == tokens;
  }

  /** The pain step: the area list stays empty unless the first answer is a "yes", in
      which case it holds the areas the comma-separated selection line names. */
  method AskPainAreas(answer: string, selections: string) returns (areas: seq<PainArea>)
    ensures !AnswersYes(answer) ==> areas == []
    ensures AnswersYes(answer) ==> areas == AreasOf(Tokens(selections))
  {
    areas := [];
    if Text.Strip(answer) in YesAnswers {
      areas := CollectAreas(Tokens(selections));
    }
  }

  /** No more areas than tokens, hence at most one more than the commas in the line. */
  lemma SelectionBound(selections: string)
    ensures |AreasOf(Tokens(selections))| <= Text.Count(Text.Strip(selections), ',') + 1
  {
    Text.SplitJoin(Text.Strip(selections), ',');
  }

  /** Each area in the list comes from some token that names it, and every token that is
      a menu number contributes its area. */
  lemma AreasFromTokens(tokens: seq<string>, a: PainArea)
    ensures a in AreasOf(tokens) <==> exists i :: 0 <= i < |tokens| && AreaOf(tokens[i]) == Some(a)
  {
    FilterMapMembers(AreaOf, tokens, a);
  }

  /** Spaces around a number are ignored. */
  lemma PaddedToken()
    ensures AreaOf(" 3") == Some(Knee)
  {
    assert " 3"[1..] == "3";
    assert Text.TrimStart("3") == "3";
    assert Text.TrimStart(" 3") == "3";
    assert Text.TrimEnd("3") == "3";
    assert Text.Strip(" 3") == "3";
  }

  /** The menu's keys are the one-character texts "1" to "6". */
  lemma AreaMenuKeys(k: string)
    ensures k in AreaMenu <==> |k| == 1 && '1' <= k[0] <= '6'
  {
    assert AreaMenu.Keys == {"1", "2", "3", "4", "5", "6"};
    if |k| == 1 && '1' <= k[0] <= '6' {
      assert k == [k[0]];
    }
  }

  /** The menu offers each of the six areas under one number, with the label the summary
      prints for it. */
  lemma AreaMenuLabels()
    ensures AreaMenu.Values == {NeckShoulder, LowerBack, Knee, Wrist, Elbow, Ankle}
    ensures PainAreaLabel(AreaMenu["1"]) == "목/어깨" && PainAreaLabel(AreaMenu["2"]) == "허리"
    ensures PainAreaLabel(AreaMenu["3"]) == "무릎" && PainAreaLabel(AreaMenu["4"]) == "손목"
    ensures PainAreaLabel(AreaMenu["5"]) == "팔꿈치" && PainAreaLabel(AreaMenu["6"]) == "발목"
    ensures forall a, b :: PainAreaLabel(a) == PainAreaLabel(b) ==> a == b
  {
    assert AreaMenu["1"] == NeckShoulder && AreaMenu["2"] == LowerBack && AreaMenu["3"] == Knee;
    assert AreaMenu["4"] == Wrist && AreaMenu["5"] == Elbow && AreaMenu["6"] == Ankle;
  }

  /** A token names an area exactly when, stripped, it is a single digit from 1 to 6;
      words, other numbers and empty tokens are dropped. */
  lemma AreaTokens(token: string)
    ensures AreaOf(token).Some? <==> |Text.Strip(token)| == 1 && '1' <= Text.Strip(token)[0] <= '6'
  {
    AreaMenuKeys(Text.Strip(token));
  }

  /** A word and a number outside the menu name no area. */
  lemma UnknownTokens()
    ensures AreaOf("x") == None
    ensures AreaOf("7") == None
  {
    Text.StripUnpadded("x");
    Text.StripUnpadded("7");
    AreaMenuKeys("x");
    AreaMenuKeys("7");
  }

  /** A repeated number is kept twice. */
  lemma RepeatedSelection()
    ensures AreasOf(["3", "3"]) == [Knee, Knee]
  {
    Text.StripUnpadded("3");
    FilterMapAppend(AreaOf, ["3"], ["3"]);
    assert ["3", "3"] == ["3"] + ["3"];
    assert ["3"][1..] == [];
  }

  /** The profile the terminal front end builds: height, weight, body fat and muscle mass
      are fixed at 164 cm, 57 kg, 26 % and 25 kg; only age and sex come from the prompts. */
  function TerminalProfile(age: int, sex: Sex): (p: Profile)
    ensures p.height == 164.0 && p.weight == 57.0
    ensures p.bodyFat == 26.0 && p.muscleMass == 25.0
    ensures p.age == age && p.sex == sex
  {
    Profile(164.0, 57.0, age, sex, 26.0, 25.0)
  }
}
