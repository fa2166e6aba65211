/** The strength part of the first day's schedule on the web front end: of the day's
    exercise records, those carrying a repetition count are split into large-muscle and
    small-muscle lists by keyword match on the name, to be shown large first. */
module StrengthGrouping {
  import Text
  import opened Seqs

  /** One record of a day plan, as the planner builds it: its name (key "이름") and the
      set of keys the record carries; the values are not inspected by the grouping. */
  datatype Exercise = Exercise(name: string, keys: set<string>)

  /** Only strength entries carry the repetition key "횟수". */
  predicate HasReps(e: Exercise)
  {
    "횟수" in e.keys
  }

  /** The keywords that mark a compound, large-muscle lift. */
  const LargeMuscleKeywords: seq<string> :=
    ["스쿼트", "데드리프트", "레그 프레스", "런지", "벤치 프레스", "풀업", "친업",
     "랫 풀다운", "로우", "힙 쓰러스트", "프론트 스쿼트"]

  /** `any(keyword in name for keyword in large_muscle_keywords)`. */
  predicate IsLargeMuscle(name: string)
  {
    exists i :: 0 <= i < |LargeMuscleKeywords| && Text.Contains(name, LargeMuscleKeywords[i])
  }

  predicate IsLargeStrength(e: Exercise)
  {
    HasReps(e) && IsLargeMuscle(e.name)
  }

  predicate IsSmallStrength(e: Exercise)
  {
    HasReps(e) && !IsLargeMuscle(e.name)
  }

  /** The large-muscle list the loop builds, as a selection from the day. */
  function LargeMuscleExercises(day: seq<Exercise>): seq<Exercise>
  {
    Filter(IsLargeStrength, day)
  }

  /** The small-muscle list the loop builds, as a selection from the day. */
  function SmallMuscleExercises(day: seq<Exercise>): seq<Exercise>
  {
    Filter(IsSmallStrength, day)
  }

  /** The grouping loop: walk the day in order, skip records without a repetition count,
      append each remaining record to the large list when its name holds a keyword and
      to the small list otherwise. */
  method GroupStrength(day: seq<Exercise>) returns (large: seq<Exercise>, small: seq<Exercise>)
    ensures large == LargeMuscleExercises(day)
    ensures small == SmallMuscleExercises(day)
  {
    large, small := [], [];
    for i := 0 to |day|
      invariant large == Filter(IsLargeStrength, day[..i])
      invariant small == Filter(IsSmallStrength, day[..i])
    {
      var exercise := day[i];
      FilterSnoc(IsLargeStrength, day, i);
      FilterSnoc(IsSmallStrength, day, i);
      if HasReps(exercise) {
        var isLarge := IsLargeMuscle(exercise.name);
        if isLarge {
          large := large + [exercise];
        } else {
          small := small + [exercise];
        }
      }
    }
    assert day[..|day|] == day;
  }

  /** A record is in the large list exactly when it is in the day, carries a repetition
      count and its name holds a keyword; in the small list exactly when it is in the day,
      carries a repetition count and its name holds none. So the lists are disjoint and a
      record without a repetition count is in neither. */
  lemma GroupingMembers(day: seq<Exercise>, e: Exercise)
    ensures e in LargeMuscleExercises(day) <==> e in day && HasReps(e) && IsLargeMuscle(e.name)
    ensures e in SmallMuscleExercises(day) <==> e in day && HasReps(e) && !IsLargeMuscle(e.name)
    ensures !(e in LargeMuscleExercises(day) && e in SmallMuscleExercises(day))
  {
    FilterMembers(IsLargeStrength, day, e);
    FilterMembers(IsSmallStrength, day, e);
  }

  /** Together the two lists hold the day's strength records, each as often as the day has
      it: the multiset union is the selection of records with a repetition count. */
  lemma GroupingPartition(day: seq<Exercise>)
    ensures multiset(LargeMuscleExercises(day)) + multiset(SmallMuscleExercises(day))
         == multiset(Filter(HasReps, day))
  {
    var large := (e: Exercise) => IsLargeMuscle(e.name);
    var small := (e: Exercise) => !IsLargeMuscle(e.name);
    FilterFilter(HasReps, large, IsLargeStrength, day);
    FilterFilter(HasReps, small, IsSmallStrength, day);
    FilterPartition(large, small, Filter(HasReps, day));
  }

  /** Each list keeps the records in the order the day lists them. */
  lemma GroupingKeepsOrder(day: seq<Exercise>)
    ensures IsSubsequence(LargeMuscleExercises(day), day)
    ensures IsSubsequence(SmallMuscleExercises(day), day)
  {
    FilterIsSubsequence(IsLargeStrength, day);
    FilterIsSubsequence(IsSmallStrength, day);
  }

  /** The last keyword adds nothing: every name holding "프론트 스쿼트" already holds
      "스쿼트", so the first ten keywords classify every name alike. */
  lemma FrontSquatKeywordRedundant(name: string)
    ensures IsLargeMuscle(name) <==>
            exists i :: 0 <= i < |LargeMuscleKeywords| - 1 && Text.Contains(name, LargeMuscleKeywords[i])
  {
    var front := LargeMuscleKeywords[10];
    if Text.Contains(name, front) {
      assert Text.OccursAt(front, LargeMuscleKeywords[0], 4);
      Text.ContainsAt(front, LargeMuscleKeywords[0], 4);
      Text.ContainsTransitive(name, front, LargeMuscleKeywords[0]);
    }
  }
}
