# NEUROGEN-X efficacy scorer and treatment catalogue

A Dafny model of the only computation in the NEUROGEN-X dashboard
(`neurogenx_advanced_app.py`). The dashboard reads three widget values:

- a nanorobot dose from an integer slider limited to 10..300, default 100;
- an AI optimisation level from a select box offering "Low", "Medium" and "High", default "Low";
- a checkbox for the regenerative neuron module, ticked by default.

From these it computes the NEUROGEN-X efficacy, `60 + dose/4`, plus 10 for
"Medium", plus 20 for "High", plus 5 when the module is on, capped at 100. It
then merges that value into a fixed, ordered catalogue of four treatments
that the table and both charts display.

Two modules:

- `Efficacy` (`efficacy.dfy`) holds the scorer. `Score` is the closed form
  `min(60 + dose/4 + AiBonus + RegenBonus, 100)`. `ComputeEfficacy` is the
  scorer as the script runs it: one running value, bumped step by step, then
  passed through Python's `min`. Its postcondition ties it to `Score`.
  `ScoreQuarters` is an all-integer reference that counts the same score in
  quarters. Every value is an exact quarter, so exact `real` arithmetic loses
  nothing against the source's floats. The AI level stays a `string`, as in
  the source, so the model can show that every string other than "Medium"
  or "High" adds nothing.
- `Treatments` (`treatments.dfy`) holds the catalogue. The Python dictionary
  literal becomes its rows in insertion order (`Catalogue`). `ToMap` gives
  the name-keyed dictionary view, in which a later key wins, as in a
  dictionary literal. `Comparison` feeds the scorer's output into the
  catalogue.

The code does not check its inputs. An out-of-range dose is ruled out only
by the slider. An unknown level string simply adds 0. The catalogue accepts
any efficacy value. So the model has no error results. The slider range
appears as a precondition only where a property needs it (the lower bound
62.5, and the [0, 100] range of the table).

## Model

| member | source | states |
|---|---|---|
| `Efficacy.ComputeEfficacy` | neurogenx_advanced_app.py:20-27 | the step-by-step computation (the base value, the `if`/`elif` bonus, the regeneration bonus, then `min`) equals the closed form `Score`, and never exceeds 100 |
| `Efficacy.Min` | neurogenx_advanced_app.py:27 | Python's `min` of two numbers is one of them and is no larger than either |
| `Efficacy.ScoreIsQuarters` | neurogenx_advanced_app.py:20-27 | the real-valued score equals the integer quarter count `min(240 + dose + 4*bonuses, 400)` divided by 4 |
| `Efficacy.ScoreIsWholeQuarters` | neurogenx_advanced_app.py:20-27 | every score is a whole number of quarters, so no rounding is involved |
| `Efficacy.AiBonusCases` | neurogenx_advanced_app.py:21-24 | the AI bonus is 10 exactly for "Medium", 20 exactly for "High", and 0 exactly for every other string |
| `Efficacy.OtherLevelsScoreAsLow` | neurogenx_advanced_app.py:21-24 | any level other than "Medium" or "High" scores exactly as "Low": `min(60 + dose/4 + regen bonus, 100)` |
| `Efficacy.ScoreAtMostCap` | neurogenx_advanced_app.py:27 | the score never exceeds 100, for any dose, level and toggle |
| `Efficacy.ScoreInRange` | neurogenx_advanced_app.py:15-27 | for every slider dose in 10..300 and any level, the score lies in [62.5, 100] |
| `Efficacy.ScoreRangeIsTight` | neurogenx_advanced_app.py:15-27 | both ends of that range are reached: dose 10 with "Low" and no module gives 62.5, dose 300 gives 100 |
| `Efficacy.ClampOnlyAboveCap` | neurogenx_advanced_app.py:20-27 | the score equals the uncapped sum when that sum is at most 100, and is 100 when the sum is above; it is 100 exactly when the sum is at least 100 |
| `Efficacy.MonotoneInDose` | neurogenx_advanced_app.py:20-27 | with level and toggle fixed, a larger dose never lowers the score |
| `Efficacy.MonotoneInAi` | neurogenx_advanced_app.py:21-24 | moving up the order Low < Medium < High never lowers the score; unknown strings rank as Low |
| `Efficacy.MonotoneInRegen` | neurogenx_advanced_app.py:25-26 | turning the regeneration module on never lowers the score |
| `Efficacy.WorkedExamples` | neurogenx_advanced_app.py:20-27 | 100/Low/off gives 85; 10/Medium/off gives 72.5; 300/High/on (uncapped 160) and 299/High/on (uncapped 159.75) both give 100 |
| `Efficacy.DefaultScenario` | neurogenx_advanced_app.py:15-27 | the widget defaults (dose 100, the first option "Low", module on) lie in range and give 90 |
| `Treatments.ToMap` | neurogenx_advanced_app.py:30-35 | the dictionary built from the rows has exactly the rows' names as keys, and each key maps to a row of that name |
| `Treatments.ToMapAt` | neurogenx_advanced_app.py:30-35 | when names are distinct, the dictionary holds every row under its own name |
| `Treatments.CatalogueShape` | neurogenx_advanced_app.py:30-35 | the catalogue has exactly four rows in fixed order, each with its name, efficacy, cost and issues: Quinacrine 0 / 500, Gold Nanoparticles 48 / 35000, ASO Therapy 70 / 300000, and NEUROGEN-X last with the computed efficacy, cost 8000 and "None in simulations" |
| `Treatments.CatalogueNamesDistinct` | neurogenx_advanced_app.py:30-35 | the four names are distinct, so the dictionary has four entries |
| `Treatments.CatalogueLookup` | neurogenx_advanced_app.py:30-35 | looking up "NEUROGEN-X" gives the row with the computed efficacy; each comparator's name gives its fixed row |
| `Treatments.OnlyNeurogenxVaries` | neurogenx_advanced_app.py:30-35 | two computed efficacies give the same first three rows and the same keys; the NEUROGEN-X rows differ only in efficacy; every other key maps to the same row |
| `Treatments.ComparisonInRange` | neurogenx_advanced_app.py:15-35 | for every slider scenario the table has four rows, every efficacy lies in [0, 100], and the last row carries the score |

## Left out

- Page setup, title, sidebar widgets, columns, subheaders and markdown text (lines 6-17 and 43-81): these are UI calls into Streamlit. Only the ranges and defaults of the three widgets are modelled.
- The pandas DataFrame built from the dictionary, with its transpose, index reset, renaming and styled formatting (lines 38-40 and 64): these are a change of representation. The ordered rows and `ToMap` carry their content.
- The matplotlib bar charts, their colours, axis limits and log scale (lines 47-60): these are rendering only.
- Floating-point representation: the model uses exact reals. Every value is a multiple of 0.25 well inside float precision, so this loses nothing. The source's `min` returns the integer `100` rather than the float `100.0` when the cap engages, and the dictionary literal holds the comparator efficacies as the integers `0`, `48` and `70`, which the model holds as the reals `0.0`, `48.0` and `70.0`. In each case the values are numerically equal and the one-decimal percentage display is the same, so the model does not distinguish integer from float.
- Input rejection: an out-of-range dose or an unknown level raises no error in the code. The model follows the code and has no error results.
- Purity and idempotence of the scorer: a Dafny function is deterministic by construction, so no lemma states this.
