/**
 The scoring engine of the burnout assessment (`calculateBurnout`): it reads
 eight answers from the response store, turns each into a small integer, and
 derives the burnout score, the factor that wastes the most time, four
 diagnostics and three echoed statistics.  Everything here is integer
 arithmetic; the source's `Math.round(x / 100 * 100)` is the identity on the
 integers it is applied to.
 */
module Scoring {
  import opened Catalog

  // ---------------------------------------------------------------------------
  // Normalisation of the answers

  /** `parseInt(answer) || 0` on a slider answer: a missing answer gives 0. */
  function SliderValue(a: Answer): int
  {
    if a.Num? then a.n else 0
  }

  const PlatformTable: map<string, int> := map["1-2" := 1, "3-4" := 2, "5-6" := 3, "7+" := 4]
  const PaceTable: map<string, int> := map["Not at all" := 0, "Sometimes" := 2, "Often" := 4, "Constantly" := 5]
  const BoundaryTable: map<string, int> :=
    map["Yes, strict" := 0, "Somewhat" := 2, "Rarely" := 4, "Never" := 5]
  const RepurposingTable: map<string, int> :=
    map["Fully optimized" := 1, "Some repurposing" := 2, "Minimal" := 3, "Never" := 4]

  /** `table[answer] || 0`: a label outside the table, or no label at all, gives 0. */
  function Lookup(table: map<string, int>, a: Answer): int
  {
    if a.Label? && a.s in table then table[a.s] else 0
  }

  /** The eight normalised factors the score is computed from. */
  datatype Factors = Factors(
    dailyHours: int,
    platformCount: int,
    manualTasks: int,
    incomeStress: int,
    contentPace: int,
    boundaries: int,
    repurposing: int,
    revenueStreams: int)

  /**
   The normalisation step.  The label-valued factors can only take the values
   of their tables, or 0.
   */
  function Normalise(r: Responses): (f: Factors)
    ensures 0 <= f.platformCount <= 4
    ensures 0 <= f.contentPace <= 5
    ensures 0 <= f.boundaries <= 5
    ensures 0 <= f.repurposing <= 4
  {
    Factors(
      SliderValue(AnswerOf(r, "daily_hours")),
      Lookup(TableFor("platform_count"), AnswerOf(r, "platform_count")),
      SliderValue(AnswerOf(r, "manual_tasks")),
      SliderValue(AnswerOf(r, "income_stress")),
      Lookup(TableFor("content_pace"), AnswerOf(r, "content_pace")),
      Lookup(TableFor("boundary_setting"), AnswerOf(r, "boundary_setting")),
      Lookup(TableFor("repurposing_usage"), AnswerOf(r, "repurposing_usage")),
      SliderValue(AnswerOf(r, "revenue_streams")))
  }

  /** The table that normalises the labels of a button question, by id. */
  function TableFor(id: string): map<string, int>
  {
    if id == "platform_count" then PlatformTable
    else if id == "content_pace" then PaceTable
    else if id == "boundary_setting" then BoundaryTable
    else if id == "repurposing_usage" then RepurposingTable
    else map[]
  }

  // ---------------------------------------------------------------------------
  // Score

  /** The weighted raw score. */
  function Raw(f: Factors): int
  {
    f.dailyHours * 2 + f.platformCount * 2 + f.manualTasks + f.incomeStress + f.contentPace
      + f.boundaries + f.repurposing * 3 + (5 - f.revenueStreams) * 2
  }

  /** The normalised score: the raw score clamped above at 100, and not below. */
  function Score(f: Factors): (s: int)
    ensures s <= 100
    ensures s <= Raw(f)
    ensures s == Raw(f) || s == 100
  {
    if Raw(f) < 100 then Raw(f) else 100
  }

  // ---------------------------------------------------------------------------
  // Top time waster

  /** The factor names in the order the source declares them. */
  const FactorNames: seq<string> := [
    "Platform Management Overhead",
    "Manual Content Processes",
    "Lack of Boundaries",
    "Income Instability Anxiety",
    "Constant Posting Pressure"
  ]

  /** The five factor scores, in the order of `FactorNames`. */
  function FactorScores(f: Factors): (s: seq<int>)
    ensures |s| == |FactorNames|
  {
    [ f.platformCount * 3 + f.repurposing * 2,
      f.manualTasks + (if f.dailyHours > 6 then 5 else 0),
      f.boundaries * 3,
      f.incomeStress * 2 + (if f.revenueStreams < 2 then 10 else 0),
      f.contentPace * 2 ]
  }

  /**
   The index that `keys.reduce((a, b) => s[a] > s[b] ? a : b)` returns: the
   accumulator survives only when strictly greater, so the result is the LAST
   index holding the maximum.
   */
  function TopIndex(s: seq<int>): (k: nat)
    requires |s| > 0
    ensures k < |s|
    ensures forall j :: 0 <= j < |s| ==> s[j] <= s[k]
    ensures forall j :: k < j < |s| ==> s[j] < s[k]
  {
    if |s| == 1 then 0
    else
      var a := TopIndex(s[..|s| - 1]);
      if s[a] > s[|s| - 1] then a else |s| - 1
  }

  /** The name of the top time waster. */
  function TopWaster(f: Factors): (name: string)
    ensures name in FactorNames
  {
    FactorNames[TopIndex(FactorScores(f))]
  }

  // ---------------------------------------------------------------------------
  // Diagnostics

  const PlatformsCritical := "Critical: Too many platforms unmanaged"
  const PlatformsHigh := "High: Multiple platforms bleeding time"
  const PlatformsOk := "Manageable"
  const ManualCritical := "Critical: Over 60% manual work"
  const ManualHigh := "High: Significant manual overhead"
  const ManualOk := "Okay"
  const BoundariesCritical := "Critical: No work/life separation"
  const BoundariesHigh := "High: Weak boundaries"
  const BoundariesOk := "Good"
  const RevenueCritical := "Critical: Algorithm-dependent income"
  const RevenueHigh := "High: Income too concentrated"
  const RevenueOk := "Diversified"

  datatype TimeLeak = TimeLeak(platforms: string, manual: string, boundaries: string, revenue: string)

  datatype Stats = Stats(dailyHours: int, platformCount: int, revenueStreams: int)

  /** The record `calculateBurnout` returns. */
  datatype BurnoutResult = BurnoutResult(score: int, topWaster: string, timeLeak: TimeLeak, stats: Stats)

  function Diagnose(f: Factors): TimeLeak
  {
    TimeLeak(
      if f.platformCount > 4 then PlatformsCritical else if f.platformCount > 2 then PlatformsHigh else PlatformsOk,
      if f.manualTasks > 60 then ManualCritical else if f.manualTasks > 40 then ManualHigh else ManualOk,
      if f.boundaries > 3 then BoundariesCritical else if f.boundaries > 1 then BoundariesHigh else BoundariesOk,
      if f.revenueStreams < 1 then RevenueCritical else if f.revenueStreams < 2 then RevenueHigh else RevenueOk)
  }

  /** `calculateBurnout` over the response store. */
  function CalculateBurnout(r: Responses): (res: BurnoutResult)
    ensures res.score <= 100
    ensures res.topWaster in FactorNames
    ensures res.timeLeak.platforms != PlatformsCritical
    ensures res.stats == Stats(Normalise(r).dailyHours, Normalise(r).platformCount, Normalise(r).revenueStreams)
  {
    var f := Normalise(r);
    BurnoutResult(Score(f), TopWaster(f), Diagnose(f), Stats(f.dailyHours, f.platformCount, f.revenueStreams))
  }
}
