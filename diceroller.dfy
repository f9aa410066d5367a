/**
 * The `diceroller` crate: the same eight symbols, seven dice and face tables
 * as the web model (module `Dice`), a pool kept sorted by die, and
 * aggregated totals kept in a map that stores only keys with a count.
 */
module DiceRoller {
  import opened Dice
  import opened Seqs
  import opened Text
  import opened Wrappers

  /** The declaration order of `Die`, which its derived `Ord` compares by. */
  function Rank(d: DieKind): (r: nat)
    ensures r < 7
    ensures r == 6 <==> d == Force
  {
    match d
    case Ability => 0
    case Proficiency => 1
    case Difficulty => 2
    case Challange => 3
    case Boost => 4
    case Setback => 5
    case Force => 6
  }

  /** `Ord` on `Die` is total: two dice of one rank are the same die. */
  lemma RankInjective()
    ensures forall x: DieKind, y: DieKind | Rank(x) == Rank(y) :: x == y
  {
    forall x: DieKind, y: DieKind | Rank(x) == Rank(y) ensures x == y {
      match x
      case Ability =>
      case Proficiency =>
      case Difficulty =>
      case Challange =>
      case Boost =>
      case Setback =>
      case Force =>
    }
  }

  /** `DieRoll`: a die and the side it landed on. */
  datatype DieRoll = DieRoll(die: DieKind, side: Side)
  {
    function Symbols(): (syms: seq<Symbol>)
      ensures |syms| <= 2
      ensures syms == [] <==> side.Blank?
    {
      SideSymbols(side)
    }

    /** `aggregate()`: the totals of this one roll. */
    method Aggregate() returns (a: AggregatedSymbols)
      ensures fresh(a) && a.totals == Totals([this]) && Positive(a.totals)
    {
      a := new AggregatedSymbols([this]);
    }
  }

  /**
   * `Die::roll`, with the random number drawn passed in as `r`: the side at
   * `r` modulo the number of sides.
   */
  function RollDie(die: DieKind, r: nat): (roll: DieRoll)
    ensures roll.die == die
    ensures roll.side in FaceTable(die)
    ensures roll.side == FaceTable(die)[r % |FaceTable(die)|]
    ensures forall s <- roll.Symbols() :: s in Vocabulary(die)
  {
    var sides := FaceTable(die);
    DieRoll(die, sides[r % |sides|])
  }

  /** `PoolRoll`: the rolls of a pool's dice, in pool order. */
  datatype PoolRoll = PoolRoll(diceRolls: seq<DieRoll>)
  {
    /** `aggregate()`: the totals of all rolls. */
    method Aggregate() returns (a: AggregatedSymbols)
      ensures fresh(a) && a.totals == Totals(diceRolls) && Positive(a.totals)
    {
      a := new AggregatedSymbols(diceRolls);
    }
  }

  /** `Pool`: a vector of dice, sorted after every construction and addition. */
  class Pool {
    var dice: seq<DieKind>

    ghost predicate Valid()
      reads this
    {
      SortedBy(dice, Rank)
    }

    /** `Pool::new`: takes the dice and sorts them. */
    constructor (dice: seq<DieKind>)
      ensures Valid() && multiset(this.dice) == multiset(dice)
    {
      this.dice := dice;
      new;
      SortDice();
    }

    /** `Pool::empty`. */
    constructor Empty()
      ensures Valid() && dice == []
    {
      dice := [];
    }

    /** `add`: pushes the die and sorts again. */
    method Add(die: DieKind)
      modifies this
      ensures Valid()
      ensures multiset(dice) == multiset(old(dice)) + multiset{die}
    {
      dice := dice + [die];
      SortDice();
    }

    /** `remove`: deletes the first die equal to `die`, if there is one. */
    method Remove(die: DieKind)
      modifies this
      requires Valid()
      ensures Valid()
      ensures dice == RemoveFirst(old(dice), die)
    {
      var pos := Position(dice, die);
      match pos
      case Some(p) =>
        assert p == IndexOf(dice, die);
        RemoveAtSorted(dice, p, Rank);
        dice := RemoveAt(dice, p);
      case None =>
    }

    /** `clear`. */
    method Clear()
      modifies this
      ensures Valid() && IsEmpty()
    {
      dice := [];
    }

    /** `roll`: one roll per die, in pool order; `rs[i]` is the random number drawn for die `i`. */
    function Roll(rs: seq<nat>): (pr: PoolRoll)
      reads this
      requires |rs| == |dice|
      ensures |pr.diceRolls| == |dice|
      ensures forall i | 0 <= i < |dice| :: pr.diceRolls[i] == RollDie(dice[i], rs[i]) && pr.diceRolls[i].die == dice[i]
    {
      var ds := dice;
      PoolRoll(seq(|ds|, i requires 0 <= i < |ds| => RollDie(ds[i], rs[i])))
    }

    /** `is_empty`. */
    predicate IsEmpty(): (b: bool)
      reads this
      ensures b <==> dice == []
    {
      |dice| == 0
    }

    /**
     * `sort_dice`: `slice::sort`, a stable sort by `Ord`; the dice come out
     * in ascending declaration order.
     */
    method SortDice()
      modifies this
      ensures Valid()
      ensures multiset(dice) == multiset(old(dice))
      ensures dice == SortBy(old(dice), Rank)
    {
      dice := SortBy(dice, Rank);
    }
  }

  /** Sorting by `Ord` is the only way to arrange a pool's dice in ascending order. */
  lemma SortIsUnique(s: seq<DieKind>, t: seq<DieKind>)
    requires SortedBy(t, Rank) && multiset(t) == multiset(s)
    ensures t == SortBy(s, Rank)
  {
    RankInjective();
    SortedPermutationUnique(t, SortBy(s, Rank), Rank);
  }

  /** Adding a die to a sorted pool inserts it in place. */
  lemma AddInserts(dice: seq<DieKind>, die: DieKind)
    requires SortedBy(dice, Rank)
    ensures SortBy(dice + [die], Rank) == InsertBy(die, dice, Rank)
  {
    SortIsUnique(dice + [die], InsertBy(die, dice, Rank));
  }

  /** Adding a die and removing it again leaves a sorted pool as it was. */
  lemma AddRemove(dice: seq<DieKind>, die: DieKind)
    requires SortedBy(dice, Rank)
    ensures RemoveFirst(SortBy(dice + [die], Rank), die) == dice
  {
    RankInjective();
    AddRemoveSorted(dice, die, Rank);
  }

  /** `HashMap::get`. */
  function Lookup(m: map<Symbol, nat>, s: Symbol): (r: Option<nat>)
    ensures r.Some? <==> s in m
    ensures r.Some? ==> r.value == m[s]
  {
    if s in m then Some(m[s]) else None
  }

  /** The count stored under `s`, 0 when the key is absent. */
  function Count(m: map<Symbol, nat>, s: Symbol): nat
  {
    if s in m then m[s] else 0
  }

  /** Stored totals are at least 1. */
  ghost predicate Positive(m: map<Symbol, nat>)
  {
    forall s <- m.Keys :: m[s] >= 1
  }

  /** Two maps holding only positive totals are equal when every count is. */
  lemma SameCounts(m1: map<Symbol, nat>, m2: map<Symbol, nat>)
    requires Positive(m1) && Positive(m2)
    requires forall s :: Count(m1, s) == Count(m2, s)
    ensures m1 == m2
  {
    forall s ensures s in m1 <==> s in m2 {
      assert Count(m1, s) == Count(m2, s);
    }
    forall s | s in m1 ensures m1[s] == m2[s] {
      assert Count(m1, s) == Count(m2, s);
    }
  }

  /** The symbols of all rolls, roll by roll. */
  function RollSymbols(rolls: seq<DieRoll>): (syms: seq<Symbol>)
    ensures |syms| <= 2 * |rolls|
    ensures syms == [] <==> forall k | 0 <= k < |rolls| :: rolls[k].side.Blank?
  {
    if |rolls| == 0 then []
    else RollSymbols(rolls[..|rolls| - 1]) + rolls[|rolls| - 1].Symbols()
  }

  lemma RollSymbolsSnoc(rolls: seq<DieRoll>, i: nat)
    requires i < |rolls|
    ensures RollSymbols(rolls[..i + 1]) == RollSymbols(rolls[..i]) + rolls[i].Symbols()
  {
    assert rolls[..i + 1][..i] == rolls[..i];
  }

  /** The totals before cancelling: the tally of every symbol that has one. */
  function Raw(syms: seq<Symbol>): (m: map<Symbol, nat>)
    ensures Positive(m)
    ensures forall s :: Count(m, s) == Tally(syms, s)
  {
    var m := map s | s in AllSymbols && Tally(syms, s) > 0 :: Tally(syms, s);
    assert forall s :: Count(m, s) == Tally(syms, s) by {
      forall s ensures Count(m, s) == Tally(syms, s) {
        AllSymbolsComplete(s);
      }
    }
    m
  }

  /** Nothing counted, nothing stored. */
  lemma RawEmpty()
    ensures Raw([]) == map[]
  {
    SameCounts(Raw([]), map[]);
  }

  /** `inc` on a map value: one more under `s`. */
  function Bump(m: map<Symbol, nat>, s: Symbol): map<Symbol, nat>
  {
    m[s := Count(m, s) + 1]
  }

  /** What the inner loop of `AggregatedSymbols::new` does for one symbol. */
  function Step(m: map<Symbol, nat>, x: Symbol): map<Symbol, nat>
  {
    match x
    case Triumph => Bump(Bump(m, Triumph), Success)
    case Despair => Bump(Bump(m, Despair), Failure)
    case _ => Bump(m, x)
  }

  /** Counting one more symbol into the raw totals is one loop step. */
  lemma RawSnoc(syms: seq<Symbol>, x: Symbol)
    ensures Raw(syms + [x]) == Step(Raw(syms), x)
  {
    var after := Step(Raw(syms), x);
    forall s ensures Count(after, s) == Tally(syms + [x], s) {
      TallySnoc(syms, x, s);
      StepCount(Raw(syms), x, s);
    }
    StepPositive(Raw(syms), x);
    SameCounts(Raw(syms + [x]), after);
  }

  /** Counting the next symbol of a roll is one loop step. */
  lemma RawPrefixStep(done: seq<Symbol>, syms: seq<Symbol>, j: nat)
    requires j < |syms|
    ensures Raw(done + syms[..j + 1]) == Step(Raw(done + syms[..j]), syms[j])
  {
    assert done + syms[..j + 1] == done + syms[..j] + [syms[j]];
    RawSnoc(done + syms[..j], syms[j]);
  }

  /** One loop step adds the hits of the symbol to each count. */
  lemma StepCount(m: map<Symbol, nat>, x: Symbol, s: Symbol)
    ensures Count(Step(m, x), s) == Count(m, s) + Hits(x, s)
  {
  }

  lemma StepPositive(m: map<Symbol, nat>, x: Symbol)
    requires Positive(m)
    ensures Positive(Step(m, x))
  {
  }

  /**
   * `normalize(left, right)` on a map value: only when both keys are
   * present, equal totals are both removed, and otherwise the larger keeps
   * the difference and the smaller is removed.
   */
  function Cancel(m: map<Symbol, nat>, left: Symbol, right: Symbol): (c: map<Symbol, nat>)
    ensures !(left in m && right in m) ==> c == m
    ensures left in m && right in m ==> !(left in c && right in c)
    ensures forall s | s != left && s != right :: (s in c <==> s in m) && Count(c, s) == Count(m, s)
    ensures left != right ==> Count(c, left) as int - Count(c, right) as int == Count(m, left) as int - Count(m, right) as int
    ensures Positive(m) ==> Positive(c)
  {
    if left in m && right in m then
      if m[left] == m[right] then m - {left} - {right}
      else if m[left] > m[right] then m[left := m[left] - m[right]] - {right}
      else m[right := m[right] - m[left]] - {left}
    else m
  }

  /** The totals `AggregatedSymbols::new` leaves for a list of rolls. */
  function Totals(rolls: seq<DieRoll>): map<Symbol, nat>
  {
    Cancel(Cancel(Cancel(Raw(RollSymbols(rolls)), Success, Failure), Advantage, Threat), LightSide, DarkSide)
  }

  /**
   * What the totals mean: every stored total is at least 1; no opposed pair
   * has both keys; each pair keeps the difference of the tallies; Triumph and
   * Despair hold their own tallies.
   */
  lemma TotalsMeaning(rolls: seq<DieRoll>)
    ensures var m, syms := Totals(rolls), RollSymbols(rolls);
      && Positive(m)
      && !(Success in m && Failure in m) && !(Advantage in m && Threat in m) && !(LightSide in m && DarkSide in m)
      && Count(m, Success) as int - Count(m, Failure) as int == Tally(syms, Success) as int - Tally(syms, Failure) as int
      && Count(m, Advantage) as int - Count(m, Threat) as int == Tally(syms, Advantage) as int - Tally(syms, Threat) as int
      && Count(m, LightSide) as int - Count(m, DarkSide) as int == Tally(syms, LightSide) as int - Tally(syms, DarkSide) as int
      && Count(m, Triumph) == Tally(syms, Triumph) && Count(m, Despair) == Tally(syms, Despair)
  {
    TotalsStored(rolls);
    TotalsCounts(rolls);
  }

  lemma TotalsStored(rolls: seq<DieRoll>)
    ensures var m := Totals(rolls);
      Positive(m) && !(Success in m && Failure in m) && !(Advantage in m && Threat in m) && !(LightSide in m && DarkSide in m)
  {
    var raw := Raw(RollSymbols(rolls));
    var m1 := Cancel(raw, Success, Failure);
    var m2 := Cancel(m1, Advantage, Threat);
    var m := Cancel(m2, LightSide, DarkSide);
    assert Success in m <==> Success in m1;
    assert Failure in m <==> Failure in m1;
    assert Advantage in m <==> Advantage in m2;
    assert Threat in m <==> Threat in m2;
  }

  lemma TotalsCounts(rolls: seq<DieRoll>)
    ensures var m, syms := Totals(rolls), RollSymbols(rolls);
      && Count(m, Success) as int - Count(m, Failure) as int == Tally(syms, Success) as int - Tally(syms, Failure) as int
      && Count(m, Advantage) as int - Count(m, Threat) as int == Tally(syms, Advantage) as int - Tally(syms, Threat) as int
      && Count(m, LightSide) as int - Count(m, DarkSide) as int == Tally(syms, LightSide) as int - Tally(syms, DarkSide) as int
      && Count(m, Triumph) == Tally(syms, Triumph) && Count(m, Despair) == Tally(syms, Despair)
  {
    CancelsKeepCounts(Raw(RollSymbols(rolls)));
  }

  /** The three cancellations keep each pair's difference and leave Triumph and Despair alone. */
  lemma CancelsKeepCounts(raw: map<Symbol, nat>)
    ensures var m := Cancel(Cancel(Cancel(raw, Success, Failure), Advantage, Threat), LightSide, DarkSide);
      && Count(m, Success) as int - Count(m, Failure) as int == Count(raw, Success) as int - Count(raw, Failure) as int
      && Count(m, Advantage) as int - Count(m, Threat) as int == Count(raw, Advantage) as int - Count(raw, Threat) as int
      && Count(m, LightSide) as int - Count(m, DarkSide) as int == Count(raw, LightSide) as int - Count(raw, DarkSide) as int
      && Count(m, Triumph) == Count(raw, Triumph) && Count(m, Despair) == Count(raw, Despair)
  {
    var m1 := Cancel(raw, Success, Failure);
    var m2 := Cancel(m1, Advantage, Threat);
    var m := Cancel(m2, LightSide, DarkSide);
    assert Count(m, Success) == Count(m1, Success) && Count(m, Failure) == Count(m1, Failure);
    assert Count(m, Advantage) == Count(m2, Advantage) && Count(m, Threat) == Count(m2, Threat);
    assert Count(m, Triumph) == Count(raw, Triumph) && Count(m, Despair) == Count(raw, Despair);
  }

  /**
   * A Triumph against a Failure: the promoted Success cancels the Failure,
   * and the Triumph itself stays.
   */
  lemma TriumphOutlivesItsSuccess()
    ensures Totals([DieRoll(Proficiency, One(Triumph)), DieRoll(Difficulty, One(Failure))]) == map[Triumph := 1]
  {
    var rolls := [DieRoll(Proficiency, One(Triumph)), DieRoll(Difficulty, One(Failure))];
    assert rolls[..1] == [rolls[0]];
    assert RollSymbols([rolls[0]]) == [Triumph];
    TriumphAgainstFailure(rolls);
  }

  /** Any rolls showing a Triumph and then a Failure total to a lone Triumph. */
  lemma TriumphAgainstFailure(rolls: seq<DieRoll>)
    requires RollSymbols(rolls) == [Triumph, Failure]
    ensures Totals(rolls) == map[Triumph := 1]
  {
    TotalsStored(rolls);
    forall s ensures Count(Totals(rolls), s) == Count(map[Triumph := 1], s) {
      TriumphAgainstFailureCount(rolls, s);
    }
    SameCounts(Totals(rolls), map[Triumph := 1]);
  }

  lemma TriumphAgainstFailureCount(rolls: seq<DieRoll>, s: Symbol)
    requires RollSymbols(rolls) == [Triumph, Failure]
    ensures Count(Totals(rolls), s) == if s == Triumph then 1 else 0
  {
    TotalsStored(rolls);
    TotalsCounts(rolls);
    TallyOfTwo(Triumph, Failure, Success);
    TallyOfTwo(Triumph, Failure, Failure);
    TallyOfTwo(Triumph, Failure, Advantage);
    TallyOfTwo(Triumph, Failure, Threat);
    TallyOfTwo(Triumph, Failure, Triumph);
    TallyOfTwo(Triumph, Failure, Despair);
    TallyOfTwo(Triumph, Failure, LightSide);
    TallyOfTwo(Triumph, Failure, DarkSide);
    AllSymbolsComplete(s);
  }

  lemma TallyOfTwo(a: Symbol, b: Symbol, s: Symbol)
    ensures Tally([a, b], s) == Hits(a, s) + Hits(b, s)
  {
    TallySnoc([], a, s);
    TallySnoc([a], b, s);
    assert [] + [a] == [a] && [a] + [b] == [a, b];
  }

  /** `AggregatedSymbols`: totals per symbol, in a map that holds only the symbols counted. */
  class AggregatedSymbols {
    var totals: map<Symbol, nat>

    /**
     * `AggregatedSymbols::new`: counts every symbol of every roll with `inc`,
     * a Triumph also as a Success and a Despair also as a Failure, then
     * cancels Success/Failure, Advantage/Threat and Light Side/Dark Side.
     */
    constructor (rolls: seq<DieRoll>)
      ensures totals == Totals(rolls) && Positive(totals)
    {
      totals := map[];
      new;
      CountAll(rolls);
      Normalize(Success, Failure);
      Normalize(Advantage, Threat);
      Normalize(LightSide, DarkSide);
    }

    /** The nested loop of `new`: counts every symbol of every roll into empty totals. */
    method CountAll(rolls: seq<DieRoll>)
      modifies this
      requires totals == map[]
      ensures totals == Raw(RollSymbols(rolls))
    {
      RawEmpty();
      for i := 0 to |rolls|
        invariant totals == Raw(RollSymbols(rolls[..i]))
      {
        CountRoll(RollSymbols(rolls[..i]), rolls[i].Symbols());
        RollSymbolsSnoc(rolls, i);
      }
      assert rolls[..|rolls|] == rolls;
    }

    /** The inner loop of `new`: counts the symbols of one roll on top of those counted before. */
    method CountRoll(ghost done: seq<Symbol>, syms: seq<Symbol>)
      modifies this
      requires totals == Raw(done)
      ensures totals == Raw(done + syms)
    {
      assert done + syms[..0] == done;
      for j := 0 to |syms|
        invariant totals == Raw(done + syms[..j])
      {
        RawPrefixStep(done, syms, j);
        CountSymbol(syms[j]);
      }
      assert syms[..|syms|] == syms;
    }

    /** The body of the inner loop of `new`: `inc` the symbol, and Success for a Triumph or Failure for a Despair. */
    method CountSymbol(sym: Symbol)
      modifies this
      ensures totals == Step(old(totals), sym)
    {
      match sym
      case Triumph =>
        Inc(Triumph);
        Inc(Success);
      case Despair =>
        Inc(Despair);
        Inc(Failure);
      case s =>
        Inc(s);
    }

    /** `inc`: inserts 1, or one more than the stored total. */
    method Inc(s: Symbol)
      modifies this
      ensures totals == Bump(old(totals), s)
    {
      totals := totals[s := match Lookup(totals, s) case None => 1 case Some(c) => c + 1];
    }

    /** `normalize`. */
    method Normalize(left: Symbol, right: Symbol)
      modifies this
      ensures totals == Cancel(old(totals), left, right)
    {
      if left in totals && right in totals {
        if totals[left] == totals[right] {
          totals := totals - {left};
          totals := totals - {right};
        } else if totals[left] > totals[right] {
          totals := totals[left := totals[left] - totals[right]];
          totals := totals - {right};
        } else {
          totals := totals[right := totals[right] - totals[left]];
          totals := totals - {left};
        }
      }
    }

    /**
     * `Display`: "<blank>" for no totals; otherwise the count of each stored
     * symbol, in the order Success, Failure, Advantage, Threat, Triumph,
     * Despair, Light Side, Dark Side, joined with ", ".
     */
    method Display() returns (text: string)
      ensures text == Rendered(totals)
    {
      if |totals| == 0 {
        return "<blank>";
      }
      var elements: seq<string> := [];
      elements := PushCount(elements, totals, Success, "Success", "Successes");
      assert elements == Element(totals, Success, "Success", "Successes");
      elements := PushCount(elements, totals, Failure, "Failure", "Failures");
      elements := PushCount(elements, totals, Advantage, "Advantage", "Advantages");
      elements := PushCount(elements, totals, Threat, "Threat", "Threats");
      elements := PushCount(elements, totals, Triumph, "Triumph", "Triumphs");
      elements := PushCount(elements, totals, Despair, "Despair", "Despairs");
      elements := PushCount(elements, totals, LightSide, "Light Side", "Light Side");
      elements := PushCount(elements, totals, DarkSide, "Dark Side", "Dark Side");
      text := Join(elements, ", ");
    }
  }

  /** One `match self.totals.get(..)` of `Display`: pushes "1 <singular>" or "<count> <plural>". */
  method PushCount(elements: seq<string>, totals: map<Symbol, nat>, s: Symbol, singular: string, plural: string)
    returns (elements': seq<string>)
    ensures elements' == elements + Element(totals, s, singular, plural)
  {
    elements' := elements;
    match Lookup(totals, s)
    case Some(1) => elements' := elements' + ["1 " + singular];
    case Some(c) => elements' := elements' + [NatToString(c) + " " + plural];
    case None =>
  }

  /** The text element of one symbol: none when absent, else the count and the noun. */
  function Element(totals: map<Symbol, nat>, s: Symbol, singular: string, plural: string): seq<string>
  {
    if s !in totals then []
    else if totals[s] == 1 then ["1 " + singular]
    else [NatToString(totals[s]) + " " + plural]
  }

  /** An element is there exactly for a stored symbol, and it opens with a digit. */
  lemma ElementShape(totals: map<Symbol, nat>, s: Symbol, singular: string, plural: string)
    ensures var e := Element(totals, s, singular, plural);
      |e| <= 1 && (e == [] <==> s !in totals) && (e != [] ==> |e[0]| > 0 && IsDigit(e[0][0]))
  {
    if s in totals && totals[s] != 1 {
      var n := NatToString(totals[s]);
      assert (n + " " + plural)[0] == n[0];
    }
  }

  /** The elements of `Display`, in its order. */
  function Elements(totals: map<Symbol, nat>): seq<string>
  {
    Element(totals, Success, "Success", "Successes") + Element(totals, Failure, "Failure", "Failures")
    + Element(totals, Advantage, "Advantage", "Advantages") + Element(totals, Threat, "Threat", "Threats")
    + Element(totals, Triumph, "Triumph", "Triumphs") + Element(totals, Despair, "Despair", "Despairs")
    + Element(totals, LightSide, "Light Side", "Light Side") + Element(totals, DarkSide, "Dark Side", "Dark Side")
  }

  /** The text `Display` writes. */
  function Rendered(totals: map<Symbol, nat>): string
  {
    if |totals| == 0 then "<blank>" else Join(Elements(totals), ", ")
  }

  /** "<blank>" stands exactly for no totals; any other text opens with a count. */
  lemma RenderedShape(totals: map<Symbol, nat>)
    ensures Rendered(totals) == "<blank>" <==> |totals| == 0
    ensures |totals| > 0 ==> |Rendered(totals)| > 0 && IsDigit(Rendered(totals)[0])
  {
    if |totals| > 0 {
      var es := Elements(totals);
      FirstElement(totals);
      JoinStart(es, ", ");
      assert Rendered(totals)[0] == es[0][0];
    }
  }

  /** Stored totals give at least one element, and the first opens with a digit. */
  lemma FirstElement(totals: map<Symbol, nat>)
    requires |totals| > 0
    ensures var es := Elements(totals); |es| > 0 && |es[0]| > 0 && IsDigit(es[0][0])
  {
    var k :| k in totals;
    AllSymbolsComplete(k);
    ElementShape(totals, Success, "Success", "Successes");
    ElementShape(totals, Failure, "Failure", "Failures");
    ElementShape(totals, Advantage, "Advantage", "Advantages");
    ElementShape(totals, Threat, "Threat", "Threats");
    ElementShape(totals, Triumph, "Triumph", "Triumphs");
    ElementShape(totals, Despair, "Despair", "Despairs");
    ElementShape(totals, LightSide, "Light Side", "Light Side");
    ElementShape(totals, DarkSide, "Dark Side", "Dark Side");
  }

  /** The order in which `Display` writes the symbols. */
  const DisplayOrder: seq<Symbol> := [Success, Failure, Advantage, Threat, Triumph, Despair, LightSide, DarkSide]

  /** The noun `Display` writes after a count of 1. */
  function Singular(s: Symbol): string
  {
    match s
    case Success => "Success"
    case Failure => "Failure"
    case Advantage => "Advantage"
    case Threat => "Threat"
    case Triumph => "Triumph"
    case Despair => "Despair"
    case LightSide => "Light Side"
    case DarkSide => "Dark Side"
  }

  /** The noun `Display` writes after any other count: an "s" or "es" added, except for Light Side and Dark Side. */
  function Plural(s: Symbol): string
  {
    match s
    case Success => "Successes"
    case LightSide => "Light Side"
    case DarkSide => "Dark Side"
    case _ => Singular(s) + "s"
  }

  /** The text element of a stored symbol: "1 <singular>", or "<count> <plural>". */
  function ElementOf(totals: map<Symbol, nat>, s: Symbol): string
  {
    if Count(totals, s) == 1 then "1 " + Singular(s) else NatToString(Count(totals, s)) + " " + Plural(s)
  }

  /** The text element of each of `syms`, in order. */
  function ElementsOf(totals: map<Symbol, nat>, syms: seq<Symbol>): (es: seq<string>)
    ensures |es| == |syms|
    ensures forall k | 0 <= k < |syms| :: es[k] == ElementOf(totals, syms[k])
  {
    seq(|syms|, k requires 0 <= k < |syms| => ElementOf(totals, syms[k]))
  }

  /**
   * The text of `Display`: "<blank>" for no totals, otherwise one element
   * for each stored symbol, taken in the order Success, Failure, Advantage,
   * Threat, Triumph, Despair, Light Side, Dark Side, joined with ", ".
   */
  lemma RenderedInOrder(totals: map<Symbol, nat>)
    ensures Elements(totals) == ElementsOf(totals, Filter(DisplayOrder, totals.Keys))
    ensures |totals| > 0 ==> Rendered(totals) == Join(ElementsOf(totals, Filter(DisplayOrder, totals.Keys)), ", ")
  {
    var o1 := [Success];
    var o2 := o1 + [Failure];
    var o3 := o2 + [Advantage];
    var o4 := o3 + [Threat];
    var o5 := o4 + [Triumph];
    var o6 := o5 + [Despair];
    var o7 := o6 + [LightSide];
    var o8 := o7 + [DarkSide];
    assert o8 == DisplayOrder;
    ElementsSnoc(totals, [], Success, "Success", "Successes");
    ElementsSnoc(totals, o1, Failure, "Failure", "Failures");
    ElementsSnoc(totals, o2, Advantage, "Advantage", "Advantages");
    ElementsSnoc(totals, o3, Threat, "Threat", "Threats");
    ElementsSnoc(totals, o4, Triumph, "Triumph", "Triumphs");
    ElementsSnoc(totals, o5, Despair, "Despair", "Despairs");
    ElementsSnoc(totals, o6, LightSide, "Light Side", "Light Side");
    ElementsSnoc(totals, o7, DarkSide, "Dark Side", "Dark Side");
    var keys := totals.Keys;
    assert Filter([], keys) == [] && [] + [Success] == o1;
    var e1 := Element(totals, Success, "Success", "Successes");
    var e2 := Element(totals, Failure, "Failure", "Failures");
    var e3 := Element(totals, Advantage, "Advantage", "Advantages");
    var e4 := Element(totals, Threat, "Threat", "Threats");
    var e5 := Element(totals, Triumph, "Triumph", "Triumphs");
    var e6 := Element(totals, Despair, "Despair", "Despairs");
    var e7 := Element(totals, LightSide, "Light Side", "Light Side");
    var e8 := Element(totals, DarkSide, "Dark Side", "Dark Side");
    assert ElementsOf(totals, Filter(o1, keys)) == e1;
    assert ElementsOf(totals, Filter(o8, keys)) == e1 + e2 + e3 + e4 + e5 + e6 + e7 + e8;
  }

  /** One more symbol in the order adds the element `Display` pushes for it. */
  lemma ElementsSnoc(totals: map<Symbol, nat>, order: seq<Symbol>, s: Symbol, singular: string, plural: string)
    requires singular == Singular(s) && plural == Plural(s)
    ensures ElementsOf(totals, Filter(order + [s], totals.Keys))
      == ElementsOf(totals, Filter(order, totals.Keys)) + Element(totals, s, singular, plural)
  {
    FilterSnoc(order, s, totals.Keys);
    var piece := if s in totals.Keys then [s] else [];
    ElementsOfAppend(totals, Filter(order, totals.Keys), piece);
    ElementPiece(totals, s, singular, plural);
  }

  lemma ElementsOfAppend(totals: map<Symbol, nat>, a: seq<Symbol>, b: seq<Symbol>)
    ensures ElementsOf(totals, a + b) == ElementsOf(totals, a) + ElementsOf(totals, b)
  {
    var l, r := ElementsOf(totals, a + b), ElementsOf(totals, a) + ElementsOf(totals, b);
    forall k | 0 <= k < |l| ensures l[k] == r[k] {
      if k < |a| {
        assert (a + b)[k] == a[k];
      } else {
        assert (a + b)[k] == b[k - |a|];
      }
    }
  }

  /** The element `Display` pushes for a symbol: its element exactly when it is stored. */
  lemma ElementPiece(totals: map<Symbol, nat>, s: Symbol, singular: string, plural: string)
    requires singular == Singular(s) && plural == Plural(s)
    ensures ElementsOf(totals, if s in totals.Keys then [s] else []) == Element(totals, s, singular, plural)
  {
  }
}
