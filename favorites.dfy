/**
 * The nutrition comparison chart's helpers (FavoritesView.swift): picking
 * one nutrition field, and the largest grande-size value that bar lengths
 * are scaled against.
 */
module Favorites {
  import opened Wrappers
  import opened Drinks
  import Seqs

  /** The fields the chart can compare. */
  datatype NutritionType = Calories | Caffeine | Sugar | Fat | Protein

  /** `nutritionValue(for:from:)`. */
  function NutritionValue(t: NutritionType, n: Nutrition): real
  {
    match t
    case Calories => n.calories as real
    case Caffeine => n.caffeine as real
    case Sugar => n.sugar
    case Fat => n.fat
    case Protein => n.protein
  }

  /** Each type selects its own field; the integer fields keep their value. */
  lemma NutritionValueSelectsField(n: Nutrition)
    ensures NutritionValue(Calories, n) == n.calories as real
    ensures NutritionValue(Caffeine, n) == n.caffeine as real
    ensures NutritionValue(Sugar, n) == n.sugar
    ensures NutritionValue(Fat, n) == n.fat
    ensures NutritionValue(Protein, n) == n.protein
  {
  }

  /** The `compactMap` closure of `maxNutritionValue`: the grande value, if the drink has one. */
  function GrandeValue(t: NutritionType, d: Drink): Option<real>
  {
    match d.nutritionGrande
    case None => None
    case Some(n) => Some(NutritionValue(t, n))
  }

  /** `maxNutritionValue(for:in:)`: the largest grande value, or 1.0 when there is none. */
  function MaxNutritionValue(t: NutritionType, drinks: seq<Drink>): real
  {
    Seqs.Max(Seqs.CompactMap(drinks, d => GrandeValue(t, d))).GetOr(1.0)
  }

  /**
   * With some grande entry in the list the result is one drink's grande value
   * and no drink's grande value exceeds it; with none, it is 1.0.
   */
  lemma MaxNutritionValueSpec(t: NutritionType, drinks: seq<Drink>)
    ensures (forall i :: 0 <= i < |drinks| ==> drinks[i].nutritionGrande.None?) ==>
      MaxNutritionValue(t, drinks) == 1.0
    ensures forall i :: 0 <= i < |drinks| && drinks[i].nutritionGrande.Some? ==>
      NutritionValue(t, drinks[i].nutritionGrande.value) <= MaxNutritionValue(t, drinks)
    ensures (exists i :: 0 <= i < |drinks| && drinks[i].nutritionGrande.Some?) ==>
      exists i :: 0 <= i < |drinks| && drinks[i].nutritionGrande.Some?
        && MaxNutritionValue(t, drinks) == NutritionValue(t, drinks[i].nutritionGrande.value)
  {
    var value := d => GrandeValue(t, d);
    var vs := Seqs.CompactMap(drinks, value);
    assert MaxNutritionValue(t, drinks) == Seqs.Max(vs).GetOr(1.0);
    Seqs.CompactMapMembers(drinks, value);
    if vs == [] {
      forall i | 0 <= i < |drinks| ensures drinks[i].nutritionGrande.None? {
        assert drinks[i] in drinks;
      }
    } else {
      var m := Seqs.Max(vs).value;
      forall i | 0 <= i < |drinks| && drinks[i].nutritionGrande.Some?
        ensures NutritionValue(t, drinks[i].nutritionGrande.value) <= m
      {
        assert drinks[i] in drinks;
        assert value(drinks[i]).value in vs;
      }
      var d :| d in drinks && value(d) == Some(m);
      var i :| 0 <= i < |drinks| && drinks[i] == d;
      assert drinks[i].nutritionGrande.Some?;
    }
  }

  /** The chart reads only grande entries: tall and venti entries never change the maximum. */
  lemma {:induction false} MaxNutritionValueReadsOnlyGrande(t: NutritionType, a: seq<Drink>, b: seq<Drink>)
    requires |a| == |b|
    requires forall i :: 0 <= i < |a| ==> a[i].nutritionGrande == b[i].nutritionGrande
    ensures MaxNutritionValue(t, a) == MaxNutritionValue(t, b)
  {
    Seqs.CompactMapAgrees(a, b, d => GrandeValue(t, d));
  }
}
