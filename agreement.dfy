/**
 * How the three implementations of aggregation relate. Given rolls that show
 * the same symbols, the `diceroller` crate's totals and the web model's
 * sparse normal form agree on every symbol except Light Side and Dark Side,
 * which only the crate cancels against each other; the `swrpgdiceroller`
 * crate, which has no Force die, agrees with the web model exactly.
 */
module Agreement {
  import opened Dice
  import ScriptModels
  import Models
  import DiceRoller
  import SwrpgDiceRoller

  /** Two counts of an opposed pair are fixed by their difference once one of them is 0. */
  lemma PairFixed(x: nat, y: nat, x': nat, y': nat)
    requires x == 0 || y == 0
    requires x' == 0 || y' == 0
    requires x as int - y as int == x' as int - y' as int
    ensures x == x' && y == y'
  {
  }

  /** The crate's totals read the same as the web model's dense normal form, Light Side and Dark Side aside. */
  lemma CrateCounts(rolls: seq<DiceRoller.DieRoll>, results: seq<ScriptModels.DieResult>, s: Symbol)
    requires DiceRoller.RollSymbols(rolls) == ScriptModels.Symbols(results)
    requires s != LightSide && s != DarkSide
    ensures DiceRoller.Count(DiceRoller.Totals(rolls), s) == ScriptModels.DenseNormalForm(results).Get(s)
  {
    var m, dense := DiceRoller.Totals(rolls), ScriptModels.DenseNormalForm(results);
    DiceRoller.TotalsStored(rolls);
    DiceRoller.TotalsCounts(rolls);
    PairFixed(dense.success, dense.failure, DiceRoller.Count(m, Success), DiceRoller.Count(m, Failure));
    PairFixed(dense.advantage, dense.threat, DiceRoller.Count(m, Advantage), DiceRoller.Count(m, Threat));
  }

  /** The web model's sparse normal form stores only totals of at least 1. */
  lemma SparsePositive(results: seq<ScriptModels.DieResult>)
    ensures DiceRoller.Positive(Models.SparseNormalForm(results))
  {
    var sparse := Models.SparseNormalForm(results);
    assert Models.Positive(sparse);
  }

  /** Two maps that read the same on `s` still do once Light Side and Dark Side are removed. */
  lemma RestrictedCount(m: map<Symbol, nat>, n: map<Symbol, nat>, s: Symbol)
    requires s != LightSide && s != DarkSide ==> DiceRoller.Count(m, s) == DiceRoller.Count(n, s)
    ensures DiceRoller.Count(m - {LightSide, DarkSide}, s) == DiceRoller.Count(n - {LightSide, DarkSide}, s)
  {
  }

  /** The crate's totals and the sparse normal form read the same, Light Side and Dark Side set aside. */
  lemma CrateRestrictedCount(rolls: seq<DiceRoller.DieRoll>, results: seq<ScriptModels.DieResult>, s: Symbol)
    requires DiceRoller.RollSymbols(rolls) == ScriptModels.Symbols(results)
    ensures DiceRoller.Count(DiceRoller.Totals(rolls) - {LightSide, DarkSide}, s)
      == DiceRoller.Count(Models.SparseNormalForm(results) - {LightSide, DarkSide}, s)
  {
    var m, sparse := DiceRoller.Totals(rolls), Models.SparseNormalForm(results);
    if s != LightSide && s != DarkSide {
      CrateCounts(rolls, results, s);
      assert Models.NormalizedPoolResult(sparse).Get(s) == ScriptModels.DenseNormalForm(results).Get(s);
    }
    RestrictedCount(m, sparse, s);
  }

  /**
   * `diceroller` and the web model: the same totals once the Light Side and
   * Dark Side keys are set aside.
   */
  lemma CrateAgreesWithWeb(rolls: seq<DiceRoller.DieRoll>, results: seq<ScriptModels.DieResult>)
    requires DiceRoller.RollSymbols(rolls) == ScriptModels.Symbols(results)
    ensures DiceRoller.Totals(rolls) - {LightSide, DarkSide} == Models.SparseNormalForm(results) - {LightSide, DarkSide}
  {
    var m := DiceRoller.Totals(rolls) - {LightSide, DarkSide};
    var n := Models.SparseNormalForm(results) - {LightSide, DarkSide};
    DiceRoller.TotalsStored(rolls);
    SparsePositive(results);
    forall s ensures DiceRoller.Count(m, s) == DiceRoller.Count(n, s) {
      CrateRestrictedCount(rolls, results, s);
    }
    DiceRoller.SameCounts(m, n);
  }

  /** The older crate's totals read the same as the sparse normal form. */
  lemma SwrpgCount(rolls: seq<SwrpgDiceRoller.DieRoll>, results: seq<ScriptModels.DieResult>, s: Symbol)
    requires SwrpgDiceRoller.RollSymbols(rolls) == ScriptModels.Symbols(results)
    ensures DiceRoller.Count(SwrpgDiceRoller.Totals(rolls), s) == DiceRoller.Count(Models.SparseNormalForm(results), s)
  {
    var m := SwrpgDiceRoller.Totals(rolls);
    var syms := SwrpgDiceRoller.RollSymbols(rolls);
    var sparse := Models.SparseNormalForm(results);
    var dense := ScriptModels.DenseNormalForm(results);
    SwrpgDiceRoller.TotalsMeaning(rolls);
    SwrpgDiceRoller.NoForceTally(syms);
    PairFixed(dense.success, dense.failure, DiceRoller.Count(m, Success), DiceRoller.Count(m, Failure));
    PairFixed(dense.advantage, dense.threat, DiceRoller.Count(m, Advantage), DiceRoller.Count(m, Threat));
    assert Models.NormalizedPoolResult(sparse).Get(s) == dense.Get(s);
    AllSymbolsComplete(s);
  }

  /** `swrpgdiceroller` and the web model: exactly the same totals. */
  lemma SwrpgAgreesWithWeb(rolls: seq<SwrpgDiceRoller.DieRoll>, results: seq<ScriptModels.DieResult>)
    requires SwrpgDiceRoller.RollSymbols(rolls) == ScriptModels.Symbols(results)
    ensures SwrpgDiceRoller.Totals(rolls) == Models.SparseNormalForm(results)
  {
    SwrpgDiceRoller.TotalsMeaning(rolls);
    SparsePositive(results);
    forall s ensures DiceRoller.Count(SwrpgDiceRoller.Totals(rolls), s) == DiceRoller.Count(Models.SparseNormalForm(results), s) {
      SwrpgCount(rolls, results, s);
    }
    DiceRoller.SameCounts(SwrpgDiceRoller.Totals(rolls), Models.SparseNormalForm(results));
  }
}
