/**
 * The model layer of the TypeScript app (`src/script/models`): dice, die
 * results, the immutable pool and a pool's result with its dense
 * normalisation. `src/models` repeats this code and only differs in
 * normalisation; see module `Models`.
 */
module ScriptModels {
  import opened Dice
  import opened Seqs

  /**
   * A die. TypeScript's static getters (`Die.Ability`, ...) build a new
   * object on every access, and the private constructor pairs the kind
   * with its face table, so the faces are fixed by the kind while two dice
   * of one kind are still two different objects.
   */
  class Die {
    const kind: DieKind

    constructor (kind: DieKind)
      ensures this.kind == kind
    {
      this.kind := kind;
    }

    function Sides(): seq<Side>
    {
      FaceTable(kind)
    }

    /**
     * `roll()` with the face index `pick` that `Math.floor(Math.random() * length)`
     * would produce.
     */
    function Roll(pick: nat): (r: DieResult)
      requires pick < |Sides()|
      ensures |r.symbols| <= 2
      ensures r.symbols == SideSymbols(Sides()[pick])
      ensures forall s <- r.symbols :: s in Vocabulary(kind)
    {
      var side := Sides()[pick];
      if side.Blank? then DieResult.Blank()
      else if side.Two? then DieResult([side.first, side.second])
      else DieResult([side.symbol])
    }
  }

  datatype DieResult = DieResult(symbols: seq<Symbol>)
  {
    static function Blank(): (r: DieResult)
      ensures |r.symbols| == 0
    {
      DieResult([])
    }
  }

  /** An immutable pool: every operation returns a new pool. */
  datatype Pool = Pool(dice: seq<Die>)
  {
    static function Empty(): (p: Pool)
      ensures p.IsEmpty()
    {
      Pool([])
    }

    /** The `empty` getter. */
    predicate IsEmpty(): (b: bool)
      ensures b <==> dice == []
    {
      |dice| == 0
    }

    /** Appends `die` at the end; the pool is not re-sorted. */
    function AddDie(die: Die): (p: Pool)
      ensures |p.dice| == |dice| + 1
      ensures p.dice[..|dice|] == dice && p.dice[|dice|] == die
    {
      Pool(dice + [die])
    }

    /**
     * `splice(indexOf(die), 1)` on a copy: removes the first entry that is
     * the very object `die`; when there is none, `indexOf` yields -1 and the
     * splice removes the last die.
     */
    function RemoveDie(die: Die): (p: Pool)
      ensures die in dice ==> p.dice == RemoveAt(dice, IndexOf(dice, die))
      ensures die !in dice && |dice| > 0 ==> p.dice == dice[..|dice| - 1]
      ensures |dice| == 0 ==> p.dice == []
    {
      Pool(SpliceOne(dice, IndexOf(dice, die)))
    }

    /** Rolls every die with its own face index; one result per die, in pool order. */
    function Roll(picks: seq<nat>): (r: PoolResult)
      requires |picks| == |dice|
      requires forall i | 0 <= i < |dice| :: picks[i] < |dice[i].Sides()|
      ensures |r.dieResults| == |dice|
      ensures forall i | 0 <= i < |dice| :: r.dieResults[i] == dice[i].Roll(picks[i])
    {
      PoolResult(seq(|dice|, i requires 0 <= i < |dice| => dice[i].Roll(picks[i])))
    }
  }

  /** Adding a die and removing that same object again gives back the same dice, as a multiset. */
  lemma AddRemoveRoundTrip(p: Pool, d: Die)
    ensures multiset(p.AddDie(d).RemoveDie(d).dice) == multiset(p.dice)
    ensures d !in p.dice ==> p.AddDie(d).RemoveDie(d) == p
  {
    var q := p.AddDie(d);
    assert q.dice == p.dice + [d];
    assert d in q.dice;
    var i := IndexOf(q.dice, d);
    if d !in p.dice {
      assert i == |p.dice|;
    }
  }

  /** Removing a die taken from the pool itself removes exactly that entry, when entries are distinct objects. */
  lemma RemoveOwnEntry(p: Pool, i: nat)
    requires i < |p.dice|
    requires forall j, k | 0 <= j < k < |p.dice| :: p.dice[j] != p.dice[k]
    ensures p.RemoveDie(p.dice[i]).dice == RemoveAt(p.dice, i)
  {
    var j := IndexOf(p.dice, p.dice[i]);
    assert p.dice[j] == p.dice[i];
  }

  /**
   * A record with one count per symbol (TypeScript's `{success: 0, advantage: 0, ...}`,
   * read and written as `record[symbol]`).
   */
  datatype Counts = Counts(success: nat, advantage: nat, triumph: nat, failure: nat,
                           threat: nat, despair: nat, lightside: nat, darkside: nat)
  {
    function Get(s: Symbol): nat
    {
      match s
      case Success => success
      case Advantage => advantage
      case Triumph => triumph
      case Failure => failure
      case Threat => threat
      case Despair => despair
      case LightSide => lightside
      case DarkSide => darkside
    }

    /** `record[s] = n`: only the count of `s` changes. */
    function With(s: Symbol, n: nat): (c: Counts)
      ensures c.Get(s) == n
      ensures forall t | t != s :: c.Get(t) == Get(t)
    {
      match s
      case Success => this.(success := n)
      case Advantage => this.(advantage := n)
      case Triumph => this.(triumph := n)
      case Failure => this.(failure := n)
      case Threat => this.(threat := n)
      case Despair => this.(despair := n)
      case LightSide => this.(lightside := n)
      case DarkSide => this.(darkside := n)
    }
  }

  const Zeroes := Counts(0, 0, 0, 0, 0, 0, 0, 0)

  datatype PoolResult = PoolResult(dieResults: seq<DieResult>)
  {
    /**
     * `aggregate()`: one counter per symbol, all starting at 0; each rolled
     * symbol bumps its own counter, a Triumph also Success, a Despair also
     * Failure.
     */
    method Aggregate() returns (counts: Counts)
      ensures forall s :: counts.Get(s) == Tally(Symbols(dieResults), s)
      ensures counts.success >= counts.triumph && counts.failure >= counts.despair
    {
      var syms := Symbols(dieResults);
      counts := Zeroes;
      var i := 0;
      while i < |syms|
        invariant 0 <= i <= |syms|
        invariant forall t :: counts.Get(t) == Tally(syms[..i], t)
      {
        var s := syms[i];
        counts := counts.With(s, counts.Get(s) + 1);
        if s == Triumph {
          counts := counts.With(Success, counts.Get(Success) + 1);
        } else if s == Despair {
          counts := counts.With(Failure, counts.Get(Failure) + 1);
        }
        assert syms[..i + 1] == syms[..i] + [s];
        forall t ensures counts.Get(t) == Tally(syms[..i + 1], t) {
          TallySnoc(syms[..i], s, t);
        }
        i := i + 1;
      }
      assert syms[..i] == syms;
      TallyPromotion(syms);
    }

    /**
     * `normalize()`: starts with all eight keys at 0, lets the larger of
     * Success/Failure and of Advantage/Threat keep the difference, and copies
     * the positive Triumph, Despair, Light Side and Dark Side counts.
     */
    method Normalize() returns (result: Counts)
      ensures result == DenseNormalForm(dieResults)
    {
      var aggregates := Aggregate();
      result := Zeroes;
      result := ApplyDelta(aggregates, result, Success, Failure);
      result := ApplyDelta(aggregates, result, Advantage, Threat);
      result := CopyPositive(aggregates, result, Triumph);
      result := CopyPositive(aggregates, result, Despair);
      result := CopyPositive(aggregates, result, LightSide);
      result := CopyPositive(aggregates, result, DarkSide);
    }
  }

  /**
   * The `applyDelta` closure of `normalize()`: the larger of the two counts
   * gets the difference written to its key; on a tie nothing is written.
   */
  method ApplyDelta(aggregates: Counts, result: Counts, left: Symbol, right: Symbol)
    returns (updated: Counts)
    requires left != right && result.Get(left) == 0 && result.Get(right) == 0
    ensures updated.Get(left) == Net(aggregates.Get(left), aggregates.Get(right))
    ensures updated.Get(right) == Net(aggregates.Get(right), aggregates.Get(left))
    ensures forall t | t != left && t != right :: updated.Get(t) == result.Get(t)
  {
    updated := result;
    if aggregates.Get(left) > aggregates.Get(right) {
      updated := updated.With(left, aggregates.Get(left) - aggregates.Get(right));
    } else if aggregates.Get(left) < aggregates.Get(right) {
      updated := updated.With(right, aggregates.Get(right) - aggregates.Get(left));
    }
  }

  /** The `copyPositive` closure of `normalize()`: writes a positive count to its key. */
  method CopyPositive(aggregates: Counts, result: Counts, s: Symbol) returns (updated: Counts)
    requires result.Get(s) == 0
    ensures updated.Get(s) == aggregates.Get(s)
    ensures forall t | t != s :: updated.Get(t) == result.Get(t)
  {
    updated := result;
    if aggregates.Get(s) > 0 {
      updated := updated.With(s, aggregates.Get(s));
    }
  }

  /** `flatMap(r => r.symbols)`: every rolled symbol, die by die. */
  function Symbols(results: seq<DieResult>): (syms: seq<Symbol>)
    ensures results == [] ==> syms == []
    ensures forall i | 0 <= i < |results| :: forall s <- results[i].symbols :: s in syms
    ensures forall s <- syms :: exists i :: 0 <= i < |results| && s in results[i].symbols
  {
    if |results| == 0 then []
    else Symbols(results[..|results| - 1]) + results[|results| - 1].symbols
  }

  /** The net count of one side of an opposed pair: what is left after cancelling 1:1. */
  function Net(mine: nat, theirs: nat): nat
  {
    if mine > theirs then mine - theirs else 0
  }

  /**
   * The dense normal form: all eight keys; of each opposed pair the one with
   * the larger count keeps the difference and the other is 0; Triumph,
   * Despair, Light Side and Dark Side are the plain counts.
   */
  function DenseNormalForm(results: seq<DieResult>): (m: Counts)
    ensures var syms := Symbols(results);
      && m.success as int - m.failure as int == Tally(syms, Success) as int - Tally(syms, Failure) as int
      && (m.success == 0 || m.failure == 0)
      && m.advantage as int - m.threat as int == Tally(syms, Advantage) as int - Tally(syms, Threat) as int
      && (m.advantage == 0 || m.threat == 0)
      && m.triumph == Tally(syms, Triumph) && m.despair == Tally(syms, Despair)
      && m.lightside == Tally(syms, LightSide) && m.darkside == Tally(syms, DarkSide)
  {
    var syms := Symbols(results);
    var success, failure := Tally(syms, Success), Tally(syms, Failure);
    var advantage, threat := Tally(syms, Advantage), Tally(syms, Threat);
    Counts(Net(success, failure), Net(advantage, threat), Tally(syms, Triumph),
           Net(failure, success), Net(threat, advantage), Tally(syms, Despair),
           Tally(syms, LightSide), Tally(syms, DarkSide))
  }

  /** The dense normal form, computed from how often each symbol was rolled. */
  lemma DenseByOccurrences(results: seq<DieResult>, syms: seq<Symbol>)
    requires Symbols(results) == syms
    ensures var n := multiset(syms);
      DenseNormalForm(results)
      == Counts(Net(n[Success] + n[Triumph], n[Failure] + n[Despair]), Net(n[Advantage], n[Threat]), n[Triumph],
                Net(n[Failure] + n[Despair], n[Success] + n[Triumph]), Net(n[Threat], n[Advantage]), n[Despair],
                n[LightSide], n[DarkSide])
  {
    forall s {
      TallyOccurrences(syms, s);
    }
  }

  /** Two die results roll, in order, the symbols of the first and then of the second. */
  lemma SymbolsOfTwo(a: DieResult, b: DieResult)
    ensures Symbols([a, b]) == a.symbols + b.symbols
  {
    assert [a, b][..1] == [a];
    assert [a][..0] == [];
    assert Symbols([a]) == a.symbols;
  }

  /** Unit-test outcome: two Successes against one Failure leave one Success. */
  lemma SuccessOutweighsFailure()
    ensures DenseNormalForm([DieResult([Success, Success]), DieResult([Failure])]) == Zeroes.(success := 1)
  {
    Scenario([Success, Success], [Failure]);
  }

  /** Unit-test outcome: two Failures against one Success leave one Failure. */
  lemma FailureOutweighsSuccess()
    ensures DenseNormalForm([DieResult([Failure, Failure]), DieResult([Success])]) == Zeroes.(failure := 1)
  {
    Scenario([Failure, Failure], [Success]);
  }

  /** Unit-test outcome: two Advantages against one Threat leave one Advantage. */
  lemma AdvantageOutweighsThreat()
    ensures DenseNormalForm([DieResult([Advantage, Advantage]), DieResult([Threat])]) == Zeroes.(advantage := 1)
  {
    Scenario([Advantage, Advantage], [Threat]);
  }

  /** Unit-test outcome: two Threats against one Advantage leave one Threat. */
  lemma ThreatOutweighsAdvantage()
    ensures DenseNormalForm([DieResult([Threat, Threat]), DieResult([Advantage])]) == Zeroes.(threat := 1)
  {
    Scenario([Threat, Threat], [Advantage]);
  }

  /** Unit-test outcome: a Success and a Triumph against one Failure leave one Success and the Triumph. */
  lemma TriumphCountsAsSuccess()
    ensures DenseNormalForm([DieResult([Success, Triumph]), DieResult([Failure])]) == Zeroes.(success := 1, triumph := 1)
  {
    Scenario([Success, Triumph], [Failure]);
  }

  /** Unit-test outcome: a Failure and a Despair against one Success leave one Failure and the Despair. */
  lemma DespairCountsAsFailure()
    ensures DenseNormalForm([DieResult([Failure, Despair]), DieResult([Success])]) == Zeroes.(failure := 1, despair := 1)
  {
    Scenario([Failure, Despair], [Success]);
  }

  /** A two-die result, computed from the occurrences of its symbols. */
  lemma Scenario(a: seq<Symbol>, b: seq<Symbol>)
    ensures var n := multiset(a + b);
      DenseNormalForm([DieResult(a), DieResult(b)])
      == Counts(Net(n[Success] + n[Triumph], n[Failure] + n[Despair]), Net(n[Advantage], n[Threat]), n[Triumph],
                Net(n[Failure] + n[Despair], n[Success] + n[Triumph]), Net(n[Threat], n[Advantage]), n[Despair],
                n[LightSide], n[DarkSide])
  {
    SymbolsOfTwo(DieResult(a), DieResult(b));
    DenseByOccurrences([DieResult(a), DieResult(b)], a + b);
  }
}
