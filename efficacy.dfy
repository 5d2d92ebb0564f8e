/**
  The NEUROGEN-X efficacy scorer of the dashboard: a dose of nanorobots
  (millions), an AI optimisation level and the regenerative-neuron toggle are
  turned into one efficacy percentage, capped at 100.

  Every value the scorer produces is a whole number of quarters (the dose is
  an integer divided by 4 and every bonus is an integer), so the model uses
  exact `real` arithmetic; `ScoreQuarters` is an all-integer reference
  definition proved equal to it.
 */
module Efficacy {

  /** Range and default of the dose slider. */
  const MinDose: int := 10
  const MaxDose: int := 300
  const DefaultDose: int := 100

  /** The options of the AI level select box, in display order; the first is the default. */
  const AiLevels: seq<string> := ["Low", "Medium", "High"]

  /** The regeneration checkbox starts ticked. */
  const DefaultRegen: bool := true

  /** The efficacy ceiling. */
  const Cap: real := 100.0

  predicate InSliderRange(dose: int) {
    MinDose <= dose <= MaxDose
  }

  /** Bonus of the `if`/`elif` chain on the AI level; there is no `else`, so
      every other string adds nothing. */
  function AiBonus(ai: string): real {
    if ai == "Medium" then 10.0
    else if ai == "High" then 20.0
    else 0.0
  }

  /** Bonus of the regeneration toggle. */
  function RegenBonus(regen: bool): real {
    if regen then 5.0 else 0.0
  }

  /** The efficacy before the cap: 60 plus a quarter of the dose plus both bonuses. */
  function Uncapped(dose: int, ai: string, regen: bool): real {
    60.0 + dose as real / 4.0 + AiBonus(ai) + RegenBonus(regen)
  }

  /** Python's `min(a, b)`: `a` unless `b` is strictly smaller. */
  function Min(a: real, b: real): (m: real)
    ensures m <= a && m <= b
    ensures m == a || m == b
  {
    if b < a then b else a
  }

  /** The efficacy of NEUROGEN-X, in closed form. */
  function Score(dose: int, ai: string, regen: bool): real {
    Min(Uncapped(dose, ai, regen), Cap)
  }

  /** The scorer as the dashboard runs it: one running value, bumped step by
      step, then capped. */
  method ComputeEfficacy(dose: int, ai: string, regen: bool) returns (efficacy: real)
    ensures efficacy == Score(dose, ai, regen)
    ensures efficacy <= Cap
  {
    var base := 60.0 + dose as real / 4.0;
    if ai == "Medium" {
      base := base + 10.0;
    } else if ai == "High" {
      base := base + 20.0;
    }
    if regen {
      base := base + 5.0;
    }
    efficacy := if Cap < base then Cap else base;
  }

  // ---------------------------------------------------------------------
  // An all-integer reference: the same score counted in quarters.

  function AiBonusQuarters(ai: string): int {
    if ai == "Medium" then 40 else if ai == "High" then 80 else 0
  }

  function ScoreQuarters(dose: int, ai: string, regen: bool): int {
    var q := 240 + dose + AiBonusQuarters(ai) + (if regen then 20 else 0);
    if q > 400 then 400 else q
  }

  /** The value of `q` quarters. */
  function Quarters(q: int): real {
    q as real / 4.0
  }

  /** The score is exactly its quarter count divided by 4: no rounding is involved. */
  lemma ScoreIsQuarters(dose: int, ai: string, regen: bool)
    ensures Score(dose, ai, regen) == Quarters(ScoreQuarters(dose, ai, regen))
  {
  }

  /** Hence every score is a whole number of quarters. */
  lemma ScoreIsWholeQuarters(dose: int, ai: string, regen: bool)
    ensures exists q: int :: Score(dose, ai, regen) == Quarters(q)
  {
    ScoreIsQuarters(dose, ai, regen);
  }

  // ---------------------------------------------------------------------
  // Properties of the score.

  /** The AI bonus is 10 exactly for "Medium", 20 exactly for "High" and 0 for every other string. */
  lemma AiBonusCases(ai: string)
    ensures AiBonus(ai) == 10.0 <==> ai == "Medium"
    ensures AiBonus(ai) == 20.0 <==> ai == "High"
    ensures AiBonus(ai) == 0.0 <==> ai != "Medium" && ai != "High"
  {
  }

  /** Any level other than "Medium" or "High" scores as "Low" does. */
  lemma OtherLevelsScoreAsLow(dose: int, ai: string, regen: bool)
    requires ai != "Medium" && ai != "High"
    ensures Score(dose, ai, regen) == Score(dose, "Low", regen)
    ensures Score(dose, ai, regen) == Min(60.0 + dose as real / 4.0 + RegenBonus(regen), Cap)
  {
  }

  /** The score never exceeds 100, whatever the inputs. */
  lemma ScoreAtMostCap(dose: int, ai: string, regen: bool)
    ensures Score(dose, ai, regen) <= Cap
  {
  }

  /** Over the slider range the score lies in [62.5, 100], for any level string. */
  lemma ScoreInRange(dose: int, ai: string, regen: bool)
    requires InSliderRange(dose)
    ensures 62.5 <= Score(dose, ai, regen) <= Cap
  {
  }

  /** Both ends of that range are reached. */
  lemma ScoreRangeIsTight()
    ensures Score(MinDose, "Low", false) == 62.5
    ensures Score(MaxDose, "Low", false) == Cap
  {
  }

  /** The cap engages only when the uncapped sum is above 100; otherwise the sum is the score. */
  lemma ClampOnlyAboveCap(dose: int, ai: string, regen: bool)
    ensures Uncapped(dose, ai, regen) <= Cap ==> Score(dose, ai, regen) == Uncapped(dose, ai, regen)
    ensures Uncapped(dose, ai, regen) > Cap ==> Score(dose, ai, regen) == Cap < Uncapped(dose, ai, regen)
    ensures Score(dose, ai, regen) == Cap <==> Uncapped(dose, ai, regen) >= Cap
  {
  }

  /** With level and toggle fixed, a larger dose never lowers the score. */
  lemma MonotoneInDose(d1: int, d2: int, ai: string, regen: bool)
    requires d1 <= d2
    ensures Score(d1, ai, regen) <= Score(d2, ai, regen)
  {
  }

  /** The position of a level in the Low < Medium < High order; any other string ranks as Low. */
  function Rank(ai: string): nat {
    if ai == "Medium" then 1 else if ai == "High" then 2 else 0
  }

  /** Raising the AI level never lowers the score. */
  lemma MonotoneInAi(dose: int, a1: string, a2: string, regen: bool)
    requires Rank(a1) <= Rank(a2)
    ensures Score(dose, a1, regen) <= Score(dose, a2, regen)
  {
  }

  /** Switching the regeneration module on never lowers the score. */
  lemma MonotoneInRegen(dose: int, ai: string)
    ensures Score(dose, ai, false) <= Score(dose, ai, true)
  {
  }

  /** Worked values: 100/Low/off gives 85, 10/Medium/off gives 72.5, 300/High/on
      and 299/High/on both hit the cap. */
  lemma WorkedExamples()
    ensures Score(100, "Low", false) == 85.0
    ensures Score(10, "Medium", false) == 72.5
    ensures Uncapped(300, "High", true) == 160.0 && Score(300, "High", true) == Cap
    ensures Uncapped(299, "High", true) == 159.75 && Score(299, "High", true) == Cap
  {
  }

  /** The widgets' defaults (dose 100, the first level "Low", toggle on) give 90. */
  lemma DefaultScenario()
    ensures InSliderRange(DefaultDose)
    ensures Score(DefaultDose, AiLevels[0], DefaultRegen) == 90.0
  {
  }
}
