/**
 * The `swrpgdiceroller` crate: the older Rust dice roller without the Force
 * die. Its `Symbol` and `Die` enums are the first six variants of those of
 * `diceroller`, with the same face tables, so they are modelled as subsets
 * of the shared vocabulary; the pool and the totals are this crate's own.
 * It cancels only Success/Failure and Advantage/Threat, and its `Display`
 * writes lower-case words each followed by a space.
 */
module SwrpgDiceRoller {
  import opened Dice
  import opened Seqs
  import opened Text
  import opened Wrappers
  import DiceRoller

  /** This crate's `Symbol`: no Light Side or Dark Side. */
  type SwrpgSymbol = s: Symbol | s != LightSide && s != DarkSide witness Success

  /** This crate's `Die`: no Force die. */
  type SwrpgDie = d: DieKind | d != Force witness Ability

  /** This crate's `Side`: blank, or one or two of its own symbols. */
  type SwrpgSide = side: Side | forall s <- SideSymbols(side) :: s != LightSide && s != DarkSide witness Blank

  /** The declaration order of `Die`, which its derived `Ord` compares by. */
  function Rank(d: SwrpgDie): (r: nat)
    ensures r < 6
  {
    DiceRoller.Rank(d)
  }

  lemma RankInjective()
    ensures forall x: SwrpgDie, y: SwrpgDie | Rank(x) == Rank(y) :: x == y
  {
    DiceRoller.RankInjective();
  }

  /** `DieRoll`: a die and the side it landed on. */
  datatype DieRoll = DieRoll(die: SwrpgDie, side: SwrpgSide)
  {
    function Symbols(): (syms: seq<Symbol>)
      ensures |syms| <= 2
      ensures syms == [] <==> side.Blank?
      ensures forall s <- syms :: s != LightSide && s != DarkSide
    {
      SideSymbols(side)
    }

    /** `aggregate()`: the totals of this one roll. */
    method Aggregate() returns (a: AggregatedSymbols)
      ensures fresh(a) && a.totals == Totals([this]) && DiceRoller.Positive(a.totals) && SwrpgKeys(a.totals)
    {
      a := new AggregatedSymbols([this]);
    }
  }

  /**
   * `Die::roll`, with the random number drawn passed in as `r`: the side at
   * `r` modulo the number of sides; no side of these six dice shows a Light
   * Side or Dark Side.
   */
  function RollDie(die: SwrpgDie, r: nat): (roll: DieRoll)
    ensures roll.die == die
    ensures roll.side == FaceTable(die)[r % |FaceTable(die)|]
    ensures forall s <- roll.Symbols() :: s in Vocabulary(die) && s != LightSide && s != DarkSide
  {
    var sides := FaceTable(die);
    var side := sides[r % |sides|];
    assert forall s <- SideSymbols(side) :: s in Vocabulary(die);
    DieRoll(die, side)
  }

  /** `PoolRoll`: the rolls of a pool's dice, in pool order. */
  datatype PoolRoll = PoolRoll(diceRolls: seq<DieRoll>)
  {
    /** `aggregate()`: the totals of all rolls. */
    method Aggregate() returns (a: AggregatedSymbols)
      ensures fresh(a) && a.totals == Totals(diceRolls) && DiceRoller.Positive(a.totals) && SwrpgKeys(a.totals)
    {
      a := new AggregatedSymbols(diceRolls);
    }
  }

  /** `Pool`: a vector of dice, sorted after every construction and addition. */
  class Pool {
    var dice: seq<SwrpgDie>

    ghost predicate Valid()
      reads this
    {
      SortedBy(dice, Rank)
    }

    /** `Pool::new`: takes the dice and sorts them. */
    constructor (dice: seq<SwrpgDie>)
      ensures Valid() && multiset(this.dice) == multiset(dice)
    {
      this.dice := dice;
      new;
      SortDice();
    }

    /** `Pool::empty`. */
    constructor Empty()
      ensures Valid() && dice == []
    {
      dice := [];
    }

    /** `add`: pushes the die and sorts again. */
    method Add(die: SwrpgDie)
      modifies this
      ensures Valid()
      ensures multiset(dice) == multiset(old(dice)) + multiset{die}
    {
      dice := dice + [die];
      SortDice();
    }

    /** `remove`: deletes the first die equal to `die`, if there is one. */
    method Remove(die: SwrpgDie)
      modifies this
      requires Valid()
      ensures Valid()
      ensures dice == RemoveFirst(old(dice), die)
    {
      var pos := Position(dice, die);
      match pos
      case Some(p) =>
        assert p == IndexOf(dice, die);
        RemoveAtSorted(dice, p, Rank);
        dice := RemoveAt(dice, p);
      case None =>
    }

    /** `clear`. */
    method Clear()
      modifies this
      ensures Valid() && IsEmpty()
    {
      dice := [];
    }

    /** `roll`: one roll per die, in pool order; `rs[i]` is the random number drawn for die `i`. */
    function Roll(rs: seq<nat>): (pr: PoolRoll)
      reads this
      requires |rs| == |dice|
      ensures |pr.diceRolls| == |dice|
      ensures forall i | 0 <= i < |dice| :: pr.diceRolls[i] == RollDie(dice[i], rs[i]) && pr.diceRolls[i].die == dice[i]
    {
      var ds := dice;
      PoolRoll(seq(|ds|, i requires 0 <= i < |ds| => RollDie(ds[i], rs[i])))
    }

    /** `is_empty`. */
    predicate IsEmpty(): (b: bool)
      reads this
      ensures b <==> dice == []
    {
      |dice| == 0
    }

    /** `sort_dice`: `slice::sort`, a stable sort by `Ord`. */
    method SortDice()
      modifies this
      ensures Valid()
      ensures multiset(dice) == multiset(old(dice))
      ensures dice == SortBy(old(dice), Rank)
    {
      dice := SortBy(dice, Rank);
    }
  }

  /** Sorting by `Ord` is the only way to arrange a pool's dice in ascending order. */
  lemma SortIsUnique(s: seq<SwrpgDie>, t: seq<SwrpgDie>)
    requires SortedBy(t, Rank) && multiset(t) == multiset(s)
    ensures t == SortBy(s, Rank)
  {
    RankInjective();
    SortedPermutationUnique(t, SortBy(s, Rank), Rank);
  }

  /** Adding a die and removing it again leaves a sorted pool as it was. */
  lemma AddRemove(dice: seq<SwrpgDie>, die: SwrpgDie)
    requires SortedBy(dice, Rank)
    ensures RemoveFirst(SortBy(dice + [die], Rank), die) == dice
  {
    RankInjective();
    AddRemoveSorted(dice, die, Rank);
  }

  /** The symbols of all rolls, roll by roll. */
  function RollSymbols(rolls: seq<DieRoll>): (syms: seq<Symbol>)
    ensures forall s <- syms :: s != LightSide && s != DarkSide
  {
    if |rolls| == 0 then []
    else RollSymbols(rolls[..|rolls| - 1]) + rolls[|rolls| - 1].Symbols()
  }

  lemma RollSymbolsSnoc(rolls: seq<DieRoll>, i: nat)
    requires i < |rolls|
    ensures RollSymbols(rolls[..i + 1]) == RollSymbols(rolls[..i]) + rolls[i].Symbols()
  {
    assert rolls[..i + 1][..i] == rolls[..i];
  }

  /** The totals `AggregatedSymbols::new` leaves: only Success/Failure and Advantage/Threat are cancelled. */
  function Totals(rolls: seq<DieRoll>): map<Symbol, nat>
  {
    DiceRoller.Cancel(DiceRoller.Cancel(DiceRoller.Raw(RollSymbols(rolls)), Success, Failure), Advantage, Threat)
  }

  /** Rolls of this crate never count a Light Side or Dark Side. */
  lemma NoForceTally(syms: seq<Symbol>)
    requires forall s <- syms :: s != LightSide && s != DarkSide
    ensures Tally(syms, LightSide) == 0 && Tally(syms, DarkSide) == 0
  {
    TallyOccurrences(syms, LightSide);
    TallyOccurrences(syms, DarkSide);
    assert LightSide !in syms && DarkSide !in syms;
    assert LightSide !in multiset(syms) && DarkSide !in multiset(syms);
  }

  /**
   * What the totals mean: every stored total is at least 1; Success/Failure
   * and Advantage/Threat never both have a key and keep the difference of
   * their tallies; Triumph and Despair hold their own tallies; no key is a
   * Light Side or Dark Side.
   */
  lemma TotalsMeaning(rolls: seq<DieRoll>)
    ensures var m, syms := Totals(rolls), RollSymbols(rolls);
      && DiceRoller.Positive(m) && SwrpgKeys(m)
      && !(Success in m && Failure in m) && !(Advantage in m && Threat in m)
      && DiceRoller.Count(m, Success) as int - DiceRoller.Count(m, Failure) as int
         == Tally(syms, Success) as int - Tally(syms, Failure) as int
      && DiceRoller.Count(m, Advantage) as int - DiceRoller.Count(m, Threat) as int
         == Tally(syms, Advantage) as int - Tally(syms, Threat) as int
      && DiceRoller.Count(m, Triumph) == Tally(syms, Triumph) && DiceRoller.Count(m, Despair) == Tally(syms, Despair)
  {
    var syms := RollSymbols(rolls);
    var raw := DiceRoller.Raw(syms);
    var m1 := DiceRoller.Cancel(raw, Success, Failure);
    var m := DiceRoller.Cancel(m1, Advantage, Threat);
    NoForceTally(syms);
    assert LightSide !in raw && DarkSide !in raw;
    assert Success in m <==> Success in m1;
    assert Failure in m <==> Failure in m1;
    assert DiceRoller.Count(m, Success) == DiceRoller.Count(m1, Success);
    assert DiceRoller.Count(m, Failure) == DiceRoller.Count(m1, Failure);
  }

  /** Every key is one of this crate's symbols. */
  ghost predicate SwrpgKeys(m: map<Symbol, nat>)
  {
    LightSide !in m && DarkSide !in m
  }

  /** `AggregatedSymbols`: totals per symbol, in a map that holds only the symbols counted. */
  class AggregatedSymbols {
    var totals: map<Symbol, nat>

    /**
     * `AggregatedSymbols::new`: counts every symbol of every roll with `inc`,
     * a Triumph also as a Success and a Despair also as a Failure, then
     * cancels Success/Failure and Advantage/Threat.
     */
    constructor (rolls: seq<DieRoll>)
      ensures totals == Totals(rolls) && DiceRoller.Positive(totals) && SwrpgKeys(totals)
    {
      totals := map[];
      new;
      CountAll(rolls);
      Normalize(Success, Failure);
      Normalize(Advantage, Threat);
      TotalsMeaning(rolls);
    }

    /** The nested loop of `new`: counts every symbol of every roll into empty totals. */
    method CountAll(rolls: seq<DieRoll>)
      modifies this
      requires totals == map[]
      ensures totals == DiceRoller.Raw(RollSymbols(rolls))
    {
      DiceRoller.RawEmpty();
      for i := 0 to |rolls|
        invariant totals == DiceRoller.Raw(RollSymbols(rolls[..i]))
      {
        CountRoll(RollSymbols(rolls[..i]), rolls[i].Symbols());
        RollSymbolsSnoc(rolls, i);
      }
      assert rolls[..|rolls|] == rolls;
    }

    /** The inner loop of `new`: counts the symbols of one roll on top of those counted before. */
    method CountRoll(ghost done: seq<Symbol>, syms: seq<Symbol>)
      modifies this
      requires totals == DiceRoller.Raw(done)
      ensures totals == DiceRoller.Raw(done + syms)
    {
      assert done + syms[..0] == done;
      for j := 0 to |syms|
        invariant totals == DiceRoller.Raw(done + syms[..j])
      {
        DiceRoller.RawPrefixStep(done, syms, j);
        CountSymbol(syms[j]);
      }
      assert syms[..|syms|] == syms;
    }

    /** The body of the inner loop of `new`: `inc` the symbol, and Success for a Triumph or Failure for a Despair. */
    method CountSymbol(sym: Symbol)
      modifies this
      ensures totals == DiceRoller.Step(old(totals), sym)
    {
      match sym
      case Triumph =>
        Inc(Triumph);
        Inc(Success);
      case Despair =>
        Inc(Despair);
        Inc(Failure);
      case s =>
        Inc(s);
    }

    /** `inc`: inserts 1, or one more than the stored total. */
    method Inc(s: Symbol)
      modifies this
      ensures totals == DiceRoller.Bump(old(totals), s)
    {
      totals := totals[s := match DiceRoller.Lookup(totals, s) case None => 1 case Some(c) => c + 1];
    }

    /** `normalize`. */
    method Normalize(left: Symbol, right: Symbol)
      modifies this
      ensures totals == DiceRoller.Cancel(old(totals), left, right)
    {
      if left in totals && right in totals {
        if totals[left] == totals[right] {
          totals := totals - {left};
          totals := totals - {right};
        } else if totals[left] > totals[right] {
          totals := totals[left := totals[left] - totals[right]];
          totals := totals - {right};
        } else {
          totals := totals[right := totals[right] - totals[left]];
          totals := totals - {left};
        }
      }
    }

    /**
     * `Display`: "<blank>" for no totals; otherwise one `write!` per stored
     * symbol, in the order Success, Failure, Advantage, Threat, Triumph,
     * Despair, each word followed by a space.
     */
    method Display() returns (text: string)
      ensures text == Rendered(totals)
    {
      if |totals| == 0 {
        return "<blank>";
      }
      text := "";
      text := WriteCount(text, totals, Success, "success", "successes");
      assert text == Word(totals, Success, "success", "successes");
      text := WriteCount(text, totals, Failure, "failure", "failures");
      text := WriteCount(text, totals, Advantage, "advantage", "advantages");
      text := WriteCount(text, totals, Threat, "threat", "threats");
      text := WriteCount(text, totals, Triumph, "triumph", "triumphs");
      text := WriteCount(text, totals, Despair, "despair", "despairs");
    }
  }

  /** One `match self.totals.get(..)` of `Display`: writes "1 <singular> " or "<count> <plural> ". */
  method WriteCount(text: string, totals: map<Symbol, nat>, s: Symbol, singular: string, plural: string)
    returns (text': string)
    ensures text' == text + Word(totals, s, singular, plural)
  {
    text' := text;
    match DiceRoller.Lookup(totals, s)
    case Some(1) => text' := text' + "1 " + singular + " ";
    case Some(c) => text' := text' + NatToString(c) + " " + plural + " ";
    case None =>
  }

  /** What `Display` writes for one symbol: nothing when absent, else the count, the noun and a space. */
  function Word(totals: map<Symbol, nat>, s: Symbol, singular: string, plural: string): string
  {
    if s !in totals then ""
    else if totals[s] == 1 then "1 " + singular + " "
    else NatToString(totals[s]) + " " + plural + " "
  }

  /** The text `Display` writes. */
  function Rendered(totals: map<Symbol, nat>): string
  {
    if |totals| == 0 then "<blank>"
    else
      Word(totals, Success, "success", "successes") + Word(totals, Failure, "failure", "failures")
      + Word(totals, Advantage, "advantage", "advantages") + Word(totals, Threat, "threat", "threats")
      + Word(totals, Triumph, "triumph", "triumphs") + Word(totals, Despair, "despair", "despairs")
  }

  /** Empty, or a text that opens with a digit and ends with a space. */
  ghost predicate Spaced(t: string)
  {
    t == "" || (IsDigit(t[0]) && t[|t| - 1] == ' ')
  }

  lemma WordShape(totals: map<Symbol, nat>, s: Symbol, singular: string, plural: string)
    ensures var w := Word(totals, s, singular, plural); Spaced(w) && (w == "" <==> s !in totals)
  {
    if s in totals && totals[s] != 1 {
      var n := NatToString(totals[s]);
      assert (n + " " + plural + " ")[0] == n[0];
    }
  }

  lemma SpacedConcat(a: string, b: string)
    requires Spaced(a) && Spaced(b)
    ensures Spaced(a + b) && (a + b == "" <==> a == "" && b == "")
  {
    if a != "" {
      assert (a + b)[0] == a[0];
    }
    if b != "" {
      assert (a + b)[|a + b| - 1] == b[|b| - 1];
    }
  }

  /**
   * "<blank>" stands exactly for no totals; any other text opens with a
   * count and ends with the space written after the last word.
   */
  lemma RenderedShape(totals: map<Symbol, nat>)
    requires SwrpgKeys(totals)
    ensures Rendered(totals) == "<blank>" <==> |totals| == 0
    ensures |totals| > 0 ==> var t := Rendered(totals); |t| > 0 && IsDigit(t[0]) && t[|t| - 1] == ' '
  {
    if |totals| > 0 {
      var k :| k in totals;
      AllSymbolsComplete(k);
      var w1 := Word(totals, Success, "success", "successes");
      var w2 := Word(totals, Failure, "failure", "failures");
      var w3 := Word(totals, Advantage, "advantage", "advantages");
      var w4 := Word(totals, Threat, "threat", "threats");
      var w5 := Word(totals, Triumph, "triumph", "triumphs");
      var w6 := Word(totals, Despair, "despair", "despairs");
      WordShape(totals, Success, "success", "successes");
      WordShape(totals, Failure, "failure", "failures");
      WordShape(totals, Advantage, "advantage", "advantages");
      WordShape(totals, Threat, "threat", "threats");
      WordShape(totals, Triumph, "triumph", "triumphs");
      WordShape(totals, Despair, "despair", "despairs");
      SpacedConcat(w1, w2);
      SpacedConcat(w1 + w2, w3);
      SpacedConcat(w1 + w2 + w3, w4);
      SpacedConcat(w1 + w2 + w3 + w4, w5);
      SpacedConcat(w1 + w2 + w3 + w4 + w5, w6);
      assert Rendered(totals) == w1 + w2 + w3 + w4 + w5 + w6;
    }
  }

  /** The order in which `Display` writes the symbols. */
  const DisplayOrder: seq<Symbol> := [Success, Failure, Advantage, Threat, Triumph, Despair]

  /** The word `Display` writes after a count of 1. */
  function Singular(s: Symbol): string
    requires s != LightSide && s != DarkSide
  {
    if s == Success then "success"
    else if s == Failure then "failure"
    else if s == Advantage then "advantage"
    else if s == Threat then "threat"
    else if s == Triumph then "triumph"
    else "despair"
  }

  /** The word `Display` writes after any other count: "successes", or the singular with an "s". */
  function Plural(s: Symbol): string
    requires s != LightSide && s != DarkSide
  {
    if s == Success then "successes" else Singular(s) + "s"
  }

  /** What `Display` writes for a stored symbol: "1 <singular> ", or "<count> <plural> ". */
  function WordOf(totals: map<Symbol, nat>, s: Symbol): string
    requires s != LightSide && s != DarkSide
  {
    if DiceRoller.Count(totals, s) == 1 then "1 " + Singular(s) + " "
    else NatToString(DiceRoller.Count(totals, s)) + " " + Plural(s) + " "
  }

  /** No symbol of `syms` is one this crate leaves out. */
  predicate NoSides(syms: seq<Symbol>)
  {
    forall k | 0 <= k < |syms| :: syms[k] != LightSide && syms[k] != DarkSide
  }

  /** Filtering keeps a sequence free of the left-out symbols. */
  lemma {:induction false} FilterNoSides(order: seq<Symbol>, keep: set<Symbol>)
    requires NoSides(order)
    ensures NoSides(Filter(order, keep))
  {
    if |order| > 0 {
      var init, last := order[..|order| - 1], order[|order| - 1];
      assert init + [last] == order;
      FilterNoSides(init, keep);
      FilterSnoc(init, last, keep);
    }
  }

  /** The word of each of `syms`, in order. */
  function WordsOf(totals: map<Symbol, nat>, syms: seq<Symbol>): (ws: seq<string>)
    requires NoSides(syms)
    ensures |ws| == |syms|
    ensures forall k | 0 <= k < |syms| :: ws[k] == WordOf(totals, syms[k])
  {
    seq(|syms|, k requires 0 <= k < |syms| => WordOf(totals, syms[k]))
  }

  /**
   * The text of `Display` for some totals: the piece of each symbol in the
   * order success, failure, advantage, threat, triumph, despair, written one
   * after the other (`PiecesAreWords` turns this into the words of the
   * stored symbols only).
   */
  lemma RenderedInOrder(totals: map<Symbol, nat>)
    ensures |totals| > 0 ==> Rendered(totals) == Pieces(totals, DisplayOrder)
  {
    RenderedAsPieces(totals);
    DisplayPieces(totals);
  }

  /** The pieces of the display order, one symbol after the other. */
  lemma DisplayPieces(totals: map<Symbol, nat>)
    ensures Pieces(totals, DisplayOrder) == Piece(totals, Success) + Piece(totals, Failure)
      + Piece(totals, Advantage) + Piece(totals, Threat) + Piece(totals, Triumph) + Piece(totals, Despair)
  {
    var o1 := [Success];
    var o2 := o1 + [Failure];
    var o3 := o2 + [Advantage];
    var o4 := o3 + [Threat];
    var o5 := o4 + [Triumph];
    var o6 := o5 + [Despair];
    assert o6 == DisplayOrder;
    PiecesOne(totals, Success);
    PiecesSnoc(totals, o1, Failure);
    PiecesSnoc(totals, o2, Advantage);
    PiecesSnoc(totals, o3, Threat);
    PiecesSnoc(totals, o4, Triumph);
    PiecesSnoc(totals, o5, Despair);
  }

  /** Each `match` of `Display` writes one piece. */
  lemma RenderedAsPieces(totals: map<Symbol, nat>)
    ensures |totals| > 0 ==>
      Rendered(totals) == Piece(totals, Success) + Piece(totals, Failure) + Piece(totals, Advantage)
        + Piece(totals, Threat) + Piece(totals, Triumph) + Piece(totals, Despair)
  {
    PieceIsWord(totals, Success, "success", "successes");
    PieceIsWord(totals, Failure, "failure", "failures");
    PieceIsWord(totals, Advantage, "advantage", "advantages");
    PieceIsWord(totals, Threat, "threat", "threats");
    PieceIsWord(totals, Triumph, "triumph", "triumphs");
    PieceIsWord(totals, Despair, "despair", "despairs");
  }

  /** The pieces of the symbols of `order`, written one after the other. */
  function Pieces(totals: map<Symbol, nat>, order: seq<Symbol>): string
    requires NoSides(order)
  {
    if |order| == 0 then ""
    else Pieces(totals, order[..|order| - 1]) + Piece(totals, order[|order| - 1])
  }

  lemma PiecesOne(totals: map<Symbol, nat>, s: Symbol)
    requires s != LightSide && s != DarkSide
    ensures Pieces(totals, [s]) == Piece(totals, s)
  {
    assert [s][..0] == [];
  }

  lemma PiecesSnoc(totals: map<Symbol, nat>, order: seq<Symbol>, s: Symbol)
    requires s != LightSide && s != DarkSide
    requires NoSides(order)
    ensures Pieces(totals, order + [s]) == Pieces(totals, order) + Piece(totals, s)
  {
    assert (order + [s])[..|order|] == order;
  }

  /** Writing every piece of an order is writing the words of its stored symbols, in that order. */
  lemma {:induction false} PiecesAreWords(totals: map<Symbol, nat>, order: seq<Symbol>)
    requires NoSides(order)
    ensures NoSides(Filter(order, totals.Keys))
    ensures Pieces(totals, order) == Concat(WordsOf(totals, Filter(order, totals.Keys)))
  {
    FilterNoSides(order, totals.Keys);
    if |order| == 0 {
      assert WordsOf(totals, []) == [];
    } else {
      var init, s := order[..|order| - 1], order[|order| - 1];
      assert init + [s] == order;
      PiecesAreWords(totals, init);
      WordsSnoc(totals, init, s);
    }
  }

  /** What `Display` writes for one symbol of this crate: its word when it is stored, else nothing. */
  function Piece(totals: map<Symbol, nat>, s: Symbol): string
    requires s != LightSide && s != DarkSide
  {
    if s in totals then WordOf(totals, s) else ""
  }

  /** One `match` of `Display` writes the symbol's piece. */
  lemma PieceIsWord(totals: map<Symbol, nat>, s: Symbol, singular: string, plural: string)
    requires s != LightSide && s != DarkSide
    requires singular == Singular(s) && plural == Plural(s)
    ensures Piece(totals, s) == Word(totals, s, singular, plural)
  {
  }

  /** One more symbol in the order adds its piece. */
  lemma WordsSnoc(totals: map<Symbol, nat>, order: seq<Symbol>, s: Symbol)
    requires s != LightSide && s != DarkSide
    requires NoSides(order)
    ensures NoSides(Filter(order, totals.Keys)) && NoSides(Filter(order + [s], totals.Keys))
    ensures Concat(WordsOf(totals, Filter(order + [s], totals.Keys)))
      == Concat(WordsOf(totals, Filter(order, totals.Keys))) + Piece(totals, s)
  {
    FilterSnoc(order, s, totals.Keys);
    FilterNoSides(order, totals.Keys);
    FilterNoSides(order + [s], totals.Keys);
    var front := Filter(order, totals.Keys);
    var words := WordsOf(totals, front);
    if s in totals {
      WordsOfAppend(totals, front, [s]);
      var last := WordsOf(totals, [s]);
      assert last == [WordOf(totals, s)];
      ConcatSnoc(words, last);
    } else {
      assert front + [] == front;
    }
  }

  lemma WordsOfAppend(totals: map<Symbol, nat>, a: seq<Symbol>, b: seq<Symbol>)
    requires NoSides(a)
    requires NoSides(b)
    ensures WordsOf(totals, a + b) == WordsOf(totals, a) + WordsOf(totals, b)
  {
    var l, r := WordsOf(totals, a + b), WordsOf(totals, a) + WordsOf(totals, b);
    forall k | 0 <= k < |l| ensures l[k] == r[k] {
      if k < |a| {
        assert (a + b)[k] == a[k];
      } else {
        assert (a + b)[k] == b[k - |a|];
      }
    }
  }
}
