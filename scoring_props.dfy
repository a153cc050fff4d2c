/**
 Properties of the scoring engine: bounds of the score, monotonicity in every
 answer, the choice of the top time waster, the diagnostic thresholds, and
 the agreement between the normalisation tables and the catalog.
 */
module ScoringProps {
  import opened Catalog
  import opened Scoring

  // ---------------------------------------------------------------------------
  // Normalisation against the catalog

  /** The table that normalises a button question has exactly its labels as keys. */
  lemma TableKeysAreOptions(qi: nat)
    requires qi < |Questions| && Questions[qi].Buttons?
    ensures TableFor(Questions[qi].id).Keys == set o | o in Questions[qi].options
  {
    ButtonQuestions(qi);
  }

  /** The labels of a button question, in catalog order, have strictly increasing weights. */
  lemma TableIncreasing(qi: nat, i: nat, j: nat)
    requires qi < |Questions| && Questions[qi].Buttons?
    requires i < j < |Questions[qi].options|
    ensures Questions[qi].options[i] in TableFor(Questions[qi].id)
    ensures Questions[qi].options[j] in TableFor(Questions[qi].id)
    ensures TableFor(Questions[qi].id)[Questions[qi].options[i]] < TableFor(Questions[qi].id)[Questions[qi].options[j]]
  {
    ButtonQuestions(qi);
  }

  /** An answer that is not one of a button question's labels normalises to 0. */
  lemma UnmappedIsZero(qi: nat, a: Answer)
    requires qi < |Questions| && Questions[qi].Buttons?
    requires !ValidAnswer(Questions[qi], a)
    ensures Lookup(TableFor(Questions[qi].id), a) == 0
  {
    ButtonQuestions(qi);
  }

  /** The button questions of the catalog, with their labels. */
  lemma ButtonQuestions(qi: nat)
    requires qi < |Questions| && Questions[qi].Buttons?
    ensures qi == 1 ==> Questions[qi].id == "platform_count" && TableFor(Questions[qi].id) == PlatformTable
    ensures qi == 4 ==> Questions[qi].id == "content_pace" && TableFor(Questions[qi].id) == PaceTable
    ensures qi == 5 ==> Questions[qi].id == "boundary_setting" && TableFor(Questions[qi].id) == BoundaryTable
    ensures qi == 6 ==> Questions[qi].id == "repurposing_usage" && TableFor(Questions[qi].id) == RepurposingTable
    ensures qi == 1 || qi == 4 || qi == 5 || qi == 6
  {
  }

  /** A store with no answers at all still gets a result: every factor is 0. */
  lemma EmptyStore()
    ensures Normalise(map[]) == Factors(0, 0, 0, 0, 0, 0, 0, 0)
    ensures CalculateBurnout(map[]).score == 10
  {
    var empty: Responses := map[];
    var f := Normalise(empty);
    assert f == Factors(0, 0, 0, 0, 0, 0, 0, 0);
    assert Raw(f) == 10;
    assert CalculateBurnout(empty).score == Score(f);
  }

  // ---------------------------------------------------------------------------
  // Bounds

  /** With every question answered within the catalog's bounds, the raw score lies in [18, 164]. */
  lemma {:induction false} ScoreBoundsWhenWellFormed(r: Responses)
    requires WellFormed(r)
    ensures 18 <= Raw(Normalise(r)) <= 164
    ensures 18 <= CalculateBurnout(r).score <= 100
  {
    var f := Normalise(r);
    assert ValidAnswer(Questions[0], r[Questions[0].id]);
    assert ValidAnswer(Questions[1], r[Questions[1].id]);
    assert ValidAnswer(Questions[2], r[Questions[2].id]);
    assert ValidAnswer(Questions[3], r[Questions[3].id]);
    assert ValidAnswer(Questions[4], r[Questions[4].id]);
    assert ValidAnswer(Questions[5], r[Questions[5].id]);
    assert ValidAnswer(Questions[6], r[Questions[6].id]);
    assert ValidAnswer(Questions[7], r[Questions[7].id]);
    assert 1 <= f.dailyHours <= 12;
    assert 10 <= f.manualTasks <= 90;
    assert 1 <= f.incomeStress <= 10;
    assert 0 <= f.revenueStreams <= 5;
    assert 1 <= f.platformCount;
    assert 1 <= f.repurposing;
  }

  /** The score is clamped above only: a negative daily-hours answer can drive it below 0. */
  lemma ScoreHasNoLowerClamp(r: Responses, n: int)
    requires r == map["daily_hours" := Num(n)]
    ensures n < 45 ==> CalculateBurnout(r).score == 2 * n + 10
    ensures n < -5 ==> CalculateBurnout(r).score < 0
  {
    var f := Normalise(r);
    assert f.dailyHours == n;
    assert f.platformCount == 0 && f.contentPace == 0 && f.boundaries == 0 && f.repurposing == 0;
    assert f.manualTasks == 0 && f.incomeStress == 0 && f.revenueStreams == 0;
    assert Raw(f) == 2 * n + 10;
  }

  // ---------------------------------------------------------------------------
  // Monotonicity

  /** `g` is at least as bad as `f` in every factor (fewer revenue streams is worse). */
  predicate Dominates(f: Factors, g: Factors)
  {
    && f.dailyHours <= g.dailyHours
    && f.platformCount <= g.platformCount
    && f.manualTasks <= g.manualTasks
    && f.incomeStress <= g.incomeStress
    && f.contentPace <= g.contentPace
    && f.boundaries <= g.boundaries
    && f.repurposing <= g.repurposing
    && g.revenueStreams <= f.revenueStreams
  }

  lemma ScoreMonotone(f: Factors, g: Factors)
    requires Dominates(f, g)
    ensures Raw(f) <= Raw(g)
    ensures Score(f) <= Score(g)
  {
  }

  /** Moving the daily-hours, manual-tasks or income-stress slider up never lowers the score. */
  lemma SliderMonotone(r: Responses, id: string, n: int, m: int)
    requires id == "daily_hours" || id == "manual_tasks" || id == "income_stress"
    requires n <= m
    ensures CalculateBurnout(r[id := Num(n)]).score <= CalculateBurnout(r[id := Num(m)]).score
  {
    NormaliseUpdate(r, id, Num(n));
    NormaliseUpdate(r, id, Num(m));
    ScoreMonotone(Normalise(r[id := Num(n)]), Normalise(r[id := Num(m)]));
  }

  /** Moving the revenue-streams slider up never raises the score. */
  lemma RevenueAntitone(r: Responses, n: int, m: int)
    requires n <= m
    ensures CalculateBurnout(r["revenue_streams" := Num(m)]).score
         <= CalculateBurnout(r["revenue_streams" := Num(n)]).score
  {
    NormaliseUpdate(r, "revenue_streams", Num(n));
    NormaliseUpdate(r, "revenue_streams", Num(m));
    ScoreMonotone(Normalise(r["revenue_streams" := Num(m)]), Normalise(r["revenue_streams" := Num(n)]));
  }

  /** Choosing a later button label never lowers the score. */
  lemma ChoiceMonotone(r: Responses, qi: nat, i: nat, j: nat)
    requires qi < |Questions| && Questions[qi].Buttons?
    requires i <= j < |Questions[qi].options|
    ensures CalculateBurnout(r[Questions[qi].id := Label(Questions[qi].options[i])]).score
         <= CalculateBurnout(r[Questions[qi].id := Label(Questions[qi].options[j])]).score
  {
    var q := Questions[qi];
    if i < j {
      TableIncreasing(qi, i, j);
    }
    UpdateButtonDominates(r, qi, Label(q.options[i]), Label(q.options[j]));
    ScoreMonotone(Normalise(r[q.id := Label(q.options[i])]), Normalise(r[q.id := Label(q.options[j])]));
  }

  /** Changing one button answer to one with a larger weight changes only that factor, upwards. */
  lemma UpdateButtonDominates(r: Responses, qi: nat, a: Answer, b: Answer)
    requires qi < |Questions| && Questions[qi].Buttons?
    requires Lookup(TableFor(Questions[qi].id), a) <= Lookup(TableFor(Questions[qi].id), b)
    ensures Dominates(Normalise(r[Questions[qi].id := a]), Normalise(r[Questions[qi].id := b]))
  {
    var id := Questions[qi].id;
    ButtonQuestions(qi);
    NormaliseUpdate(r, id, a);
    NormaliseUpdate(r, id, b);
  }

  /** Answering one question changes only the factor read from that question's id. */
  lemma NormaliseUpdate(r: Responses, id: string, a: Answer)
    ensures var f, g := Normalise(r), Normalise(r[id := a]);
      && g.dailyHours == (if id == "daily_hours" then SliderValue(a) else f.dailyHours)
      && g.platformCount == (if id == "platform_count" then Lookup(TableFor(id), a) else f.platformCount)
      && g.manualTasks == (if id == "manual_tasks" then SliderValue(a) else f.manualTasks)
      && g.incomeStress == (if id == "income_stress" then SliderValue(a) else f.incomeStress)
      && g.contentPace == (if id == "content_pace" then Lookup(TableFor(id), a) else f.contentPace)
      && g.boundaries == (if id == "boundary_setting" then Lookup(TableFor(id), a) else f.boundaries)
      && g.repurposing == (if id == "repurposing_usage" then Lookup(TableFor(id), a) else f.repurposing)
      && g.revenueStreams == (if id == "revenue_streams" then SliderValue(a) else f.revenueStreams)
  {
  }

  // ---------------------------------------------------------------------------
  // Top time waster

  lemma FactorNamesDistinct()
    ensures Distinct(FactorNames)
  {
  }

  /**
   `TopWaster` names the factor at index `k` exactly when `k` holds the
   maximum factor score and every later factor scores strictly less: a tie
   goes to the later-declared factor.
   */
  lemma {:induction false} TopWasterIsLastMaximum(f: Factors, k: nat)
    requires k < |FactorNames|
    ensures TopWaster(f) == FactorNames[k] <==>
              (&& (forall j :: 0 <= j < |FactorNames| ==> FactorScores(f)[j] <= FactorScores(f)[k])
               && (forall j :: k < j < |FactorNames| ==> FactorScores(f)[j] < FactorScores(f)[k]))
  {
    var s := FactorScores(f);
    var t := TopIndex(s);
    FactorNamesDistinct();
    if TopWaster(f) == FactorNames[k] {
      assert t == k;
    }
    if (forall j :: 0 <= j < |s| ==> s[j] <= s[k]) && (forall j :: k < j < |s| ==> s[j] < s[k]) {
      assert t == k;
    }
  }

  // ---------------------------------------------------------------------------
  // Diagnostics

  /** Each diagnostic is a three-way classification of one normalised factor. */
  lemma {:induction false} DiagnosticThresholds(r: Responses)
    ensures var f, leak := Normalise(r), CalculateBurnout(r).timeLeak;
      && (leak.platforms == PlatformsHigh <==> f.platformCount > 2)
      && (leak.platforms == PlatformsOk <==> f.platformCount <= 2)
      && (leak.manual == ManualCritical <==> f.manualTasks > 60)
      && (leak.manual == ManualHigh <==> 40 < f.manualTasks <= 60)
      && (leak.manual == ManualOk <==> f.manualTasks <= 40)
      && (leak.boundaries == BoundariesCritical <==> f.boundaries > 3)
      && (leak.boundaries == BoundariesHigh <==> 1 < f.boundaries <= 3)
      && (leak.boundaries == BoundariesOk <==> f.boundaries <= 1)
      && (leak.revenue == RevenueCritical <==> f.revenueStreams < 1)
      && (leak.revenue == RevenueHigh <==> f.revenueStreams == 1)
      && (leak.revenue == RevenueOk <==> f.revenueStreams >= 2)
  {
  }

  // ---------------------------------------------------------------------------
  // Worked example

  const WorstCase: Responses := map[
    "daily_hours" := Num(9),
    "platform_count" := Label("7+"),
    "manual_tasks" := Num(70),
    "income_stress" := Num(8),
    "content_pace" := Label("Constantly"),
    "boundary_setting" := Label("Never"),
    "repurposing_usage" := Label("Never"),
    "revenue_streams" := Num(0)
  ]

  /** Raw 136 clamps to 100; manual processes (75) beat the other four factors. */
  lemma WorstCaseExample()
    ensures Raw(Normalise(WorstCase)) == 136
    ensures CalculateBurnout(WorstCase) == BurnoutResult(
      100, "Manual Content Processes",
      TimeLeak(PlatformsHigh, ManualCritical, BoundariesCritical, RevenueCritical),
      Stats(9, 4, 0))
  {
    var f := Normalise(WorstCase);
    assert f == Factors(9, 4, 70, 8, 5, 5, 4, 0);
    assert FactorScores(f) == [20, 75, 15, 26, 10];
    TopWasterIsLastMaximum(f, 1);
  }
}
