/**
 * The narrative dice shared by both TypeScript model files and the
 * `diceroller` crate: the eight symbols, the shape of a die face, the seven
 * die kinds with their face tables, and how rolled symbols are counted.
 * The three sources declare these identically.
 */
module Dice {

  datatype Symbol = Success | Advantage | Failure | Threat | Triumph | Despair | LightSide | DarkSide

  const AllSymbols: set<Symbol> := {Success, Advantage, Failure, Threat, Triumph, Despair, LightSide, DarkSide}

  lemma AllSymbolsComplete(s: Symbol)
    ensures s in AllSymbols
  {
  }

  /** One face of a die: blank, one symbol, or a pair (TypeScript `null | Symbol | [Symbol, Symbol]`). */
  datatype Side = Blank | One(symbol: Symbol) | Two(first: Symbol, second: Symbol)

  /** The symbols a face shows, in the order they are printed. */
  function SideSymbols(side: Side): (r: seq<Symbol>)
    ensures |r| <= 2
    ensures side.Blank? <==> |r| == 0
    ensures side.One? <==> |r| == 1
    ensures side.One? ==> r[0] == side.symbol
    ensures side.Two? ==> r[0] == side.first && r[1] == side.second
  {
    match side
    case Blank => []
    case One(s) => [s]
    case Two(a, b) => [a, b]
  }

  /** Declared in this order; Rust derives the ordering of its `Die` enum from it. */
  datatype DieKind = Ability | Proficiency | Difficulty | Challange | Boost | Setback | Force

  /** The symbols printed anywhere on a die of the given kind. */
  function Vocabulary(kind: DieKind): set<Symbol>
  {
    match kind
    case Ability => {Success, Advantage}
    case Proficiency => {Success, Advantage, Triumph}
    case Difficulty => {Failure, Threat}
    case Challange => {Failure, Threat, Despair}
    case Boost => {Success, Advantage}
    case Setback => {Failure, Threat}
    case Force => {LightSide, DarkSide}
  }

  /** The faces of each kind of die, entry by entry. */
  function FaceTable(kind: DieKind): (sides: seq<Side>)
    ensures kind in {Ability, Difficulty} ==> |sides| == 8
    ensures kind in {Proficiency, Challange, Force} ==> |sides| == 12
    ensures kind in {Boost, Setback} ==> |sides| == 6
    ensures forall i | 0 <= i < |sides| :: forall s <- SideSymbols(sides[i]) :: s in Vocabulary(kind)
  {
    match kind
    case Ability => [
      Blank, One(Success), Two(Success, Success), One(Advantage),
      Two(Advantage, Advantage), One(Success), Two(Advantage, Success), One(Advantage)]
    case Proficiency => [
      Blank, One(Success), One(Success), One(Triumph),
      Two(Success, Success), Two(Success, Success), Two(Advantage, Advantage), Two(Advantage, Advantage),
      One(Advantage), Two(Success, Advantage), Two(Success, Advantage), Two(Success, Advantage)]
    case Difficulty => [
      Blank, Two(Failure, Failure), One(Threat), Two(Failure, Threat),
      Two(Threat, Threat), One(Threat), One(Failure), One(Threat)]
    case Challange => [
      Blank, One(Failure), One(Failure), One(Threat),
      One(Threat), One(Despair), Two(Threat, Threat), Two(Threat, Threat),
      Two(Failure, Failure), Two(Failure, Failure), Two(Failure, Threat), Two(Failure, Threat)]
    case Boost => [
      Blank, Blank, One(Success), One(Advantage),
      Two(Success, Advantage), Two(Advantage, Advantage)]
    case Setback => [
      Blank, Blank, One(Failure), One(Failure),
      One(Threat), One(Threat)]
    case Force => [
      One(LightSide), One(LightSide), One(DarkSide), One(DarkSide),
      One(DarkSide), One(DarkSide), One(DarkSide), One(DarkSide),
      Two(LightSide, LightSide), Two(LightSide, LightSide), Two(LightSide, LightSide), Two(DarkSide, DarkSide)]
  }

  /**
   * How much one rolled `x` adds to the counter of `s`: one to its own
   * counter, and a Triumph also one to Success, a Despair also one to Failure.
   */
  function Hits(x: Symbol, s: Symbol): nat
  {
    (if x == s then 1 else 0)
    + (if x == Triumph && s == Success then 1 else 0)
    + (if x == Despair && s == Failure then 1 else 0)
  }

  /** The counter of `s` after the symbols of `syms` have been counted one by one. */
  function Tally(syms: seq<Symbol>, s: Symbol): nat
  {
    if |syms| == 0 then 0
    else Tally(syms[..|syms| - 1], s) + Hits(syms[|syms| - 1], s)
  }

  /** A counter holds the occurrences of its own symbol, plus the promoted Triumphs or Despairs. */
  lemma {:induction false} TallyOccurrences(syms: seq<Symbol>, s: Symbol)
    ensures Tally(syms, s) == multiset(syms)[s]
      + (if s == Success then multiset(syms)[Triumph] else 0)
      + (if s == Failure then multiset(syms)[Despair] else 0)
  {
    if |syms| > 0 {
      var init := syms[..|syms| - 1];
      TallyOccurrences(init, s);
      assert syms == init + [syms[|syms| - 1]];
    }
  }

  /** Every Triumph is also a Success and every Despair also a Failure. */
  lemma TallyPromotion(syms: seq<Symbol>)
    ensures Tally(syms, Success) >= Tally(syms, Triumph)
    ensures Tally(syms, Failure) >= Tally(syms, Despair)
  {
    TallyOccurrences(syms, Success);
    TallyOccurrences(syms, Triumph);
    TallyOccurrences(syms, Failure);
    TallyOccurrences(syms, Despair);
  }

  /** Counting one more symbol adds its hits and nothing else. */
  lemma TallySnoc(syms: seq<Symbol>, x: Symbol, s: Symbol)
    ensures Tally(syms + [x], s) == Tally(syms, s) + Hits(x, s)
  {
    assert (syms + [x])[..|syms|] == syms;
  }
}
