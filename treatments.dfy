/**
  The comparison catalogue of the dashboard: an ordered mapping from treatment
  name to efficacy, cost per patient and known issues. Three rows are fixed;
  the NEUROGEN-X row, last, carries the efficacy the scorer computed.

  The mapping is kept as its rows in insertion order (the order the table and
  the charts show); `ToMap` gives the same rows as a name-keyed map.
 */
module Treatments {
  import Efficacy

  datatype Treatment = Treatment(name: string, efficacy: real, cost: nat, issues: string)

  const NeurogenxName: string := "NEUROGEN-X"

  /** The three comparator therapies, in order. */
  const Comparators: seq<Treatment> := [
    Treatment("Quinacrine", 0.0, 500, "Liver toxicity, no efficacy"),
    Treatment("Gold Nanoparticles (MIT, 2024)", 48.0, 35000, "Immune response, tissue accumulation"),
    Treatment("ASO Therapy (NIH, 2023)", 70.0, 300000, "Prevents but does not cure")
  ]

  function NeurogenxRow(efficacy: real): Treatment {
    Treatment(NeurogenxName, efficacy, 8000, "None in simulations")
  }

  /** The catalogue with the computed NEUROGEN-X efficacy merged in last. */
  function Catalogue(neurogenx: real): seq<Treatment> {
    Comparators + [NeurogenxRow(neurogenx)]
  }

  /** The catalogue the dashboard builds for one scenario. */
  function Comparison(dose: int, ai: string, regen: bool): seq<Treatment> {
    Catalogue(Efficacy.Score(dose, ai, regen))
  }

  predicate DistinctNames(rows: seq<Treatment>) {
    forall i, j :: 0 <= i < j < |rows| ==> rows[i].name != rows[j].name
  }

  predicate EfficacyInRange(t: Treatment) {
    0.0 <= t.efficacy <= 100.0
  }

  function Names(rows: seq<Treatment>): set<string> {
    set i | 0 <= i < |rows| :: rows[i].name
  }

  /** The rows as a dictionary: a later row overrides an earlier one with the same name. */
  function ToMap(rows: seq<Treatment>): (m: map<string, Treatment>)
    ensures m.Keys == Names(rows)
    ensures forall k :: k in m ==> m[k].name == k
  {
    if rows == [] then map[]
    else
      var init := rows[..|rows| - 1];
      var last := rows[|rows| - 1];
      assert Names(rows) == Names(init) + {last.name} by {
        assert forall i :: 0 <= i < |init| ==> init[i] == rows[i];
      }
      ToMap(init)[last.name := last]
  }

  /** When names are distinct, every row is what the dictionary holds under its name. */
  lemma {:induction false} ToMapAt(rows: seq<Treatment>, i: int)
    requires DistinctNames(rows)
    requires 0 <= i < |rows|
    ensures rows[i].name in ToMap(rows)
    ensures ToMap(rows)[rows[i].name] == rows[i]
  {
    if i < |rows| - 1 {
      var init := rows[..|rows| - 1];
      assert init[i] == rows[i];
      ToMapAt(init, i);
    }
  }

  // ---------------------------------------------------------------------
  // Properties of the catalogue.

  /** Exactly four rows, in a fixed order, with the fixed figures, NEUROGEN-X last. */
  lemma CatalogueShape(e: real)
    ensures |Catalogue(e)| == 4
    ensures Catalogue(e)[0] == Treatment("Quinacrine", 0.0, 500, "Liver toxicity, no efficacy")
    ensures Catalogue(e)[1] ==
      Treatment("Gold Nanoparticles (MIT, 2024)", 48.0, 35000, "Immune response, tissue accumulation")
    ensures Catalogue(e)[2] == Treatment("ASO Therapy (NIH, 2023)", 70.0, 300000, "Prevents but does not cure")
    ensures Catalogue(e)[3] == NeurogenxRow(e)
    ensures Catalogue(e)[3] == Treatment("NEUROGEN-X", e, 8000, "None in simulations")
  {
  }

  /** No two rows share a name, so the dictionary loses nothing. */
  lemma CatalogueNamesDistinct(e: real)
    ensures DistinctNames(Catalogue(e))
    ensures |ToMap(Catalogue(e))| == 4
  {
    var rows := Catalogue(e);
    assert Names(rows) == {rows[0].name, rows[1].name, rows[2].name, rows[3].name};
  }

  /** Looking NEUROGEN-X up in the dictionary gives the computed efficacy. */
  lemma CatalogueLookup(e: real)
    ensures NeurogenxName in ToMap(Catalogue(e))
    ensures ToMap(Catalogue(e))[NeurogenxName] == NeurogenxRow(e)
    ensures forall i :: 0 <= i < 3 ==> ToMap(Catalogue(e))[Comparators[i].name] == Comparators[i]
  {
    var rows := Catalogue(e);
    CatalogueNamesDistinct(e);
    ToMapAt(rows, 3);
    forall i | 0 <= i < 3
      ensures ToMap(rows)[Comparators[i].name] == Comparators[i]
    {
      ToMapAt(rows, i);
    }
  }

  /** The computed efficacy changes the NEUROGEN-X row and nothing else. */
  lemma OnlyNeurogenxVaries(e1: real, e2: real)
    ensures Catalogue(e1)[..3] == Catalogue(e2)[..3] == Comparators
    ensures Catalogue(e2)[3] == Catalogue(e1)[3].(efficacy := e2)
    ensures ToMap(Catalogue(e1)).Keys == ToMap(Catalogue(e2)).Keys
    ensures forall k :: k in ToMap(Catalogue(e1)) && k != NeurogenxName ==>
      ToMap(Catalogue(e1))[k] == ToMap(Catalogue(e2))[k]
  {
    assert Catalogue(e1)[..3] == Comparators;
    assert Catalogue(e2)[..3] == Comparators;
  }

  /** For every scenario on the widgets, every efficacy in the table lies in [0, 100]. */
  lemma ComparisonInRange(dose: int, ai: string, regen: bool)
    requires Efficacy.InSliderRange(dose)
    ensures |Comparison(dose, ai, regen)| == 4
    ensures forall i :: 0 <= i < |Comparison(dose, ai, regen)| ==>
      EfficacyInRange(Comparison(dose, ai, regen)[i])
    ensures Comparison(dose, ai, regen)[3].efficacy == Efficacy.Score(dose, ai, regen)
  {
    Efficacy.ScoreInRange(dose, ai, regen);
  }
}
