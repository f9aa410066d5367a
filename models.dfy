/**
 * The later TypeScript model layer (`src/models`). Its dice, pool, pool
 * result and `aggregate()` are the same code as in `src/script/models` and
 * are taken from module `ScriptModels`; what differs is `normalize()`, which
 * here returns a sparse record behind getters, and the `format()` text.
 */
module Models {
  import opened Dice
  import opened Text
  import Seqs
  import ScriptModels

  /**
   * `NormalizedPoolResultImpl`: a record that may lack keys. Its getters
   * (`success`, `advantage`, ...) read an absent key as 0.
   */
  datatype NormalizedPoolResult = NormalizedPoolResult(data: map<Symbol, nat>)
  {
    function Get(s: Symbol): (n: nat)
      ensures s in data ==> n == data[s]
      ensures s !in data ==> n == 0
    {
      if s in data then data[s] else 0
    }

    /**
     * The phrase of every symbol with a positive count, in the order
     * Success, Advantage, Triumph, Failure, Threat, Despair, Light Side, Dark Side.
     */
    function Phrases(): (ps: seq<string>)
      ensures |ps| <= 8
      ensures forall p <- ps :: |p| > 0
      ensures Get(Success) > 0 ==> |ps| > 0 && ps[0] == Phrase(Get(Success), "Success", "es")[0]
    {
      Phrase(Get(Success), "Success", "es") + Phrase(Get(Advantage), "Advantage", "s")
      + Phrase(Get(Triumph), "Triumph", "s") + Phrase(Get(Failure), "Failure", "s")
      + Phrase(Get(Threat), "Threat", "s") + Phrase(Get(Despair), "Despair", "s")
      + Phrase(Get(LightSide), "Light Side", "s") + Phrase(Get(DarkSide), "Dark Side", "s")
    }

    /**
     * `format()`: appends the phrase of each positive count, preceded by
     * ", " once the text is not empty.
     */
    method Format() returns (text: string)
      ensures text == Join(Phrases(), ", ")
      ensures text == "" <==> forall s :: Get(s) == 0
    {
      ghost var parts: seq<string> := [];
      text := "";
      if Get(Success) > 0 {
        var phrase := NatToString(Get(Success)) + " " + "Success" + (if Get(Success) > 1 then "es" else "");
        text := text + phrase;
        parts := Phrase(Get(Success), "Success", "es");
      }
      text, parts := AppendPhrase(text, parts, Get(Advantage), "Advantage", "s");
      text, parts := AppendPhrase(text, parts, Get(Triumph), "Triumph", "s");
      text, parts := AppendPhrase(text, parts, Get(Failure), "Failure", "s");
      text, parts := AppendPhrase(text, parts, Get(Threat), "Threat", "s");
      text, parts := AppendPhrase(text, parts, Get(Despair), "Despair", "s");
      text, parts := AppendPhrase(text, parts, Get(LightSide), "Light Side", "s");
      text, parts := AppendPhrase(text, parts, Get(DarkSide), "Dark Side", "s");
      assert parts == Phrases();
      JoinEmpty(parts, ", ");
      PhrasesEmpty(this);
    }
  }

  /** There are no phrases exactly when every count reads as 0. */
  lemma PhrasesEmpty(n: NormalizedPoolResult)
    ensures n.Phrases() == [] <==> forall s :: n.Get(s) == 0
  {
    if n.Phrases() == [] {
      forall s ensures n.Get(s) == 0 {
        AllSymbolsComplete(s);
      }
    }
  }

  /** The order in which `format()` lists the symbols. */
  const FormatOrder: seq<Symbol> := [Success, Advantage, Triumph, Failure, Threat, Despair, LightSide, DarkSide]

  /** The noun `format()` writes for a symbol. */
  function Noun(s: Symbol): string
  {
    match s
    case Success => "Success"
    case Advantage => "Advantage"
    case Triumph => "Triumph"
    case Failure => "Failure"
    case Threat => "Threat"
    case Despair => "Despair"
    case LightSide => "Light Side"
    case DarkSide => "Dark Side"
  }

  /** The phrase of one symbol with a positive count: "es" after "Success", "s" after the others, and only above 1. */
  function PhraseOf(s: Symbol, count: nat): string
  {
    NatToString(count) + " " + Noun(s) + (if count > 1 then (if s == Success then "es" else "s") else "")
  }

  /** The symbols whose getter reads a positive count. */
  function Counted(n: NormalizedPoolResult): (c: set<Symbol>)
    ensures forall s :: s in c <==> n.Get(s) > 0
  {
    var c := set s | s in AllSymbols && n.Get(s) > 0;
    assert forall s :: s in c <==> n.Get(s) > 0 by {
      forall s ensures s in c <==> n.Get(s) > 0 {
        AllSymbolsComplete(s);
      }
    }
    c
  }

  /** The phrase of each of `syms`, in order. */
  function PhrasesOf(n: NormalizedPoolResult, syms: seq<Symbol>): (ps: seq<string>)
    ensures |ps| == |syms|
    ensures forall k | 0 <= k < |syms| :: ps[k] == PhraseOf(syms[k], n.Get(syms[k]))
  {
    seq(|syms|, k requires 0 <= k < |syms| => PhraseOf(syms[k], n.Get(syms[k])))
  }

  /**
   * The phrases of `format()`: one for each symbol with a positive count,
   * taken in the order Success, Advantage, Triumph, Failure, Threat,
   * Despair, Light Side, Dark Side; so the k-th phrase is that of the k-th
   * such symbol.
   */
  lemma PhrasesInOrder(n: NormalizedPoolResult)
    ensures n.Phrases() == PhrasesOf(n, Seqs.Filter(FormatOrder, Counted(n)))
  {
    PhrasesAsList(n);
    PhraseListCounted(n, FormatOrder);
  }

  /** The phrase (none for a zero count) of each symbol of `order`, one after the other. */
  function PhraseList(n: NormalizedPoolResult, order: seq<Symbol>): seq<string>
  {
    if |order| == 0 then []
    else
      var s := order[|order| - 1];
      PhraseList(n, order[..|order| - 1]) + Phrase(n.Get(s), Noun(s), if s == Success then "es" else "s")
  }

  lemma PhraseListSnoc(n: NormalizedPoolResult, order: seq<Symbol>, s: Symbol, noun: string, plural: string)
    requires noun == Noun(s) && plural == if s == Success then "es" else "s"
    ensures PhraseList(n, order + [s]) == PhraseList(n, order) + Phrase(n.Get(s), noun, plural)
  {
    assert (order + [s])[..|order|] == order;
  }

  /** Listing the phrases of an order keeps exactly those of its counted symbols. */
  lemma {:induction false} PhraseListCounted(n: NormalizedPoolResult, order: seq<Symbol>)
    ensures PhraseList(n, order) == PhrasesOf(n, Seqs.Filter(order, Counted(n)))
  {
    if |order| > 0 {
      var init, s := order[..|order| - 1], order[|order| - 1];
      assert init + [s] == order;
      PhraseListCounted(n, init);
      PhrasesSnoc(n, init, s, if s == Success then "es" else "s");
    } else {
      assert PhrasesOf(n, []) == [];
    }
  }

  /** `format()` lists the phrase of each symbol of the format order, one after the other. */
  lemma PhrasesAsList(n: NormalizedPoolResult)
    ensures n.Phrases() == PhraseList(n, FormatOrder)
  {
    FrontPhrases(n);
    BackPhrases(n);
  }

  lemma FrontPhrases(n: NormalizedPoolResult)
    ensures PhraseList(n, [Success, Advantage, Triumph, Failure])
      == Phrase(n.Get(Success), "Success", "es") + Phrase(n.Get(Advantage), "Advantage", "s")
      + Phrase(n.Get(Triumph), "Triumph", "s") + Phrase(n.Get(Failure), "Failure", "s")
  {
    var o1 := [Success];
    var o2 := o1 + [Advantage];
    var o3 := o2 + [Triumph];
    var o4 := o3 + [Failure];
    assert o4 == [Success, Advantage, Triumph, Failure];
    var p1 := Phrase(n.Get(Success), "Success", "es");
    assert [] + [Success] == o1 && [] + p1 == p1;
    PhraseListSnoc(n, [], Success, "Success", "es");
    PhraseListSnoc(n, o1, Advantage, "Advantage", "s");
    PhraseListSnoc(n, o2, Triumph, "Triumph", "s");
    PhraseListSnoc(n, o3, Failure, "Failure", "s");
  }

  lemma BackPhrases(n: NormalizedPoolResult)
    ensures PhraseList(n, FormatOrder)
      == PhraseList(n, [Success, Advantage, Triumph, Failure])
      + Phrase(n.Get(Threat), "Threat", "s") + Phrase(n.Get(Despair), "Despair", "s")
      + Phrase(n.Get(LightSide), "Light Side", "s") + Phrase(n.Get(DarkSide), "Dark Side", "s")
  {
    var o4 := [Success, Advantage, Triumph, Failure];
    var o5 := o4 + [Threat];
    var o6 := o5 + [Despair];
    var o7 := o6 + [LightSide];
    var o8 := o7 + [DarkSide];
    assert o8 == FormatOrder;
    PhraseListSnoc(n, o4, Threat, "Threat", "s");
    PhraseListSnoc(n, o5, Despair, "Despair", "s");
    PhraseListSnoc(n, o6, LightSide, "Light Side", "s");
    PhraseListSnoc(n, o7, DarkSide, "Dark Side", "s");
  }

  lemma PhrasesAllCounted(n: NormalizedPoolResult)
    requires forall s :: n.Get(s) > 0
    ensures |n.Phrases()| == |FormatOrder|
    ensures forall k | 0 <= k < |FormatOrder| :: n.Phrases()[k] == PhraseOf(FormatOrder[k], n.Get(FormatOrder[k]))
  {
    PhrasesInOrder(n);
    Seqs.FilterAll(FormatOrder, Counted(n));
  }

  /** One more symbol in the order adds the phrase `format()` writes for it. */
  lemma PhrasesSnoc(n: NormalizedPoolResult, order: seq<Symbol>, s: Symbol, plural: string)
    requires plural == if s == Success then "es" else "s"
    ensures PhrasesOf(n, Seqs.Filter(order + [s], Counted(n)))
      == PhrasesOf(n, Seqs.Filter(order, Counted(n))) + Phrase(n.Get(s), Noun(s), plural)
  {
    Seqs.FilterSnoc(order, s, Counted(n));
    var piece := if s in Counted(n) then [s] else [];
    PhrasesOfAppend(n, Seqs.Filter(order, Counted(n)), piece);
    PhrasePiece(n, s, plural);
  }

  lemma PhrasesOfAppend(n: NormalizedPoolResult, a: seq<Symbol>, b: seq<Symbol>)
    ensures PhrasesOf(n, a + b) == PhrasesOf(n, a) + PhrasesOf(n, b)
  {
    var l, r := PhrasesOf(n, a + b), PhrasesOf(n, a) + PhrasesOf(n, b);
    forall k | 0 <= k < |l| ensures l[k] == r[k] {
      if k < |a| {
        assert (a + b)[k] == a[k];
      } else {
        assert (a + b)[k] == b[k - |a|];
      }
    }
  }

  /** The block of `format()` for one symbol writes its phrase exactly when its count is positive. */
  lemma PhrasePiece(n: NormalizedPoolResult, s: Symbol, plural: string)
    requires plural == if s == Success then "es" else "s"
    ensures PhrasesOf(n, if s in Counted(n) then [s] else []) == Phrase(n.Get(s), Noun(s), plural)
  {
  }

  /** "<count> <noun>", with the plural suffix when the count exceeds 1; nothing for a zero count. */
  function Phrase(count: nat, noun: string, plural: string): (r: seq<string>)
    ensures |r| <= 1
    ensures r == [] <==> count == 0
    ensures forall p <- r :: |p| > 0
  {
    if count > 0 then [NatToString(count) + " " + noun + (if count > 1 then plural else "")] else []
  }

  /**
   * One block of `format()`: `if (count > 0) { if (s.length > 0) s += ", "; s += phrase }`,
   * with the phrases written so far as a ghost.
   */
  method AppendPhrase(text: string, ghost parts: seq<string>, count: nat, noun: string, plural: string)
    returns (text': string, ghost parts': seq<string>)
    requires text == Join(parts, ", ") && forall p <- parts :: |p| > 0
    ensures parts' == parts + Phrase(count, noun, plural)
    ensures text' == Join(parts', ", ") && forall p <- parts' :: |p| > 0
  {
    text', parts' := text, parts;
    if count > 0 {
      JoinEmpty(parts, ", ");
      if |text'| > 0 {
        text' := text' + ", ";
      }
      var phrase := NatToString(count) + " " + noun + (if count > 1 then plural else "");
      text' := text' + phrase;
      parts' := parts + [phrase];
      assert parts'[..|parts'| - 1] == parts;
    }
  }

  /** Joining non-empty parts gives the empty text only when there are no parts. */
  lemma JoinEmpty(parts: seq<string>, sep: string)
    requires forall p <- parts :: |p| > 0
    ensures Join(parts, sep) == "" <==> parts == []
  {
    if parts != [] {
      JoinStart(parts, sep);
    }
  }

  /** A sparse record only holds positive counts. */
  ghost predicate Positive(m: map<Symbol, nat>)
  {
    forall s <- m.Keys :: m[s] > 0
  }

  /** Two sparse records that read the same through the getters are the same record. */
  lemma SameReadings(m1: map<Symbol, nat>, m2: map<Symbol, nat>)
    requires Positive(m1) && Positive(m2)
    requires forall s :: NormalizedPoolResult(m1).Get(s) == NormalizedPoolResult(m2).Get(s)
    ensures m1 == m2
  {
    forall s ensures s in m1 <==> s in m2 {
      assert NormalizedPoolResult(m1).Get(s) == NormalizedPoolResult(m2).Get(s);
    }
    forall s | s in m1 ensures m1[s] == m2[s] {
      assert NormalizedPoolResult(m1).Get(s) == NormalizedPoolResult(m2).Get(s);
    }
  }

  /**
   * The sparse normal form: the dense normal form of `src/script/models`
   * without its zero entries.
   */
  function SparseNormalForm(results: seq<ScriptModels.DieResult>): (m: map<Symbol, nat>)
    ensures Positive(m)
    ensures !(Success in m && Failure in m) && !(Advantage in m && Threat in m)
    ensures forall s :: NormalizedPoolResult(m).Get(s) == ScriptModels.DenseNormalForm(results).Get(s)
  {
    var dense := ScriptModels.DenseNormalForm(results);
    var m := map s | s in AllSymbols && dense.Get(s) > 0 :: dense.Get(s);
    assert forall s :: NormalizedPoolResult(m).Get(s) == dense.Get(s) by {
      forall s ensures NormalizedPoolResult(m).Get(s) == dense.Get(s) {
        AllSymbolsComplete(s);
      }
    }
    m
  }

  /**
   * `normalize()`: starts from an empty record, writes the difference of
   * each opposed pair under the larger one's key, and copies the positive
   * Triumph, Despair, Light Side and Dark Side counts.
   */
  method Normalize(r: ScriptModels.PoolResult) returns (n: NormalizedPoolResult)
    ensures n.data == SparseNormalForm(r.dieResults)
  {
    var aggregates := r.Aggregate();
    var result: map<Symbol, nat> := map[];
    result := ApplyDelta(aggregates, result, Success, Failure);
    result := ApplyDelta(aggregates, result, Advantage, Threat);
    result := CopyPositive(aggregates, result, Triumph);
    result := CopyPositive(aggregates, result, Despair);
    result := CopyPositive(aggregates, result, LightSide);
    result := CopyPositive(aggregates, result, DarkSide);
    n := NormalizedPoolResult(result);
    WritesAreSparse(aggregates, r.dieResults);
  }

  /** The entry the `applyDelta` closure writes: the difference, under the larger count's key. */
  function Delta(aggregates: ScriptModels.Counts, left: Symbol, right: Symbol): (d: map<Symbol, nat>)
    ensures d.Keys <= {left, right} && Positive(d)
    ensures !(left in d && right in d)
    ensures left in d <==> aggregates.Get(left) > aggregates.Get(right)
    ensures right in d <==> aggregates.Get(left) < aggregates.Get(right)
    ensures left in d ==> d[left] == aggregates.Get(left) - aggregates.Get(right)
    ensures right in d ==> d[right] == aggregates.Get(right) - aggregates.Get(left)
  {
    if aggregates.Get(left) > aggregates.Get(right) then map[left := aggregates.Get(left) - aggregates.Get(right)]
    else if aggregates.Get(left) < aggregates.Get(right) then map[right := aggregates.Get(right) - aggregates.Get(left)]
    else map[]
  }

  /** The entry the `copyPositive` closure writes: the count, when positive. */
  function Copy(aggregates: ScriptModels.Counts, s: Symbol): (d: map<Symbol, nat>)
    ensures d.Keys <= {s} && Positive(d) && (s in d <==> aggregates.Get(s) > 0)
    ensures s in d ==> d[s] == aggregates.Get(s)
  {
    if aggregates.Get(s) > 0 then map[s := aggregates.Get(s)] else map[]
  }

  /** The `applyDelta` closure. */
  method ApplyDelta(aggregates: ScriptModels.Counts, result: map<Symbol, nat>, left: Symbol, right: Symbol)
    returns (updated: map<Symbol, nat>)
    ensures updated == result + Delta(aggregates, left, right)
  {
    updated := result;
    if aggregates.Get(left) > aggregates.Get(right) {
      updated := updated[left := aggregates.Get(left) - aggregates.Get(right)];
    } else if aggregates.Get(left) < aggregates.Get(right) {
      updated := updated[right := aggregates.Get(right) - aggregates.Get(left)];
    }
  }

  /** The `copyPositive` closure. */
  method CopyPositive(aggregates: ScriptModels.Counts, result: map<Symbol, nat>, s: Symbol)
    returns (updated: map<Symbol, nat>)
    ensures updated == result + Copy(aggregates, s)
  {
    updated := result;
    if aggregates.Get(s) > 0 {
      updated := updated[s := aggregates.Get(s)];
    }
  }

  /** Everything `normalize()` writes, in order, into the empty record. */
  function Writes(aggregates: ScriptModels.Counts): map<Symbol, nat>
  {
    map[] + Delta(aggregates, Success, Failure) + Delta(aggregates, Advantage, Threat)
    + Copy(aggregates, Triumph) + Copy(aggregates, Despair)
    + Copy(aggregates, LightSide) + Copy(aggregates, DarkSide)
  }

  /** The count each getter should read after `normalize()`. */
  function Expected(aggregates: ScriptModels.Counts, s: Symbol): nat
  {
    match s
    case Success => ScriptModels.Net(aggregates.Get(Success), aggregates.Get(Failure))
    case Failure => ScriptModels.Net(aggregates.Get(Failure), aggregates.Get(Success))
    case Advantage => ScriptModels.Net(aggregates.Get(Advantage), aggregates.Get(Threat))
    case Threat => ScriptModels.Net(aggregates.Get(Threat), aggregates.Get(Advantage))
    case _ => aggregates.Get(s)
  }

  /** A getter reads the later of two records where it has a key there, the earlier one otherwise. */
  lemma GetUnion(m1: map<Symbol, nat>, m2: map<Symbol, nat>, s: Symbol)
    ensures NormalizedPoolResult(m1 + m2).Get(s)
      == if s in m2 then m2[s] else NormalizedPoolResult(m1).Get(s)
  {
  }

  lemma WritesRead(aggregates: ScriptModels.Counts, s: Symbol)
    ensures NormalizedPoolResult(Writes(aggregates)).Get(s) == Expected(aggregates, s)
  {
    var d1 := map[] + Delta(aggregates, Success, Failure);
    var d2 := d1 + Delta(aggregates, Advantage, Threat);
    var c1 := d2 + Copy(aggregates, Triumph);
    var c2 := c1 + Copy(aggregates, Despair);
    var c3 := c2 + Copy(aggregates, LightSide);
    GetUnion(c3, Copy(aggregates, DarkSide), s);
    GetUnion(c2, Copy(aggregates, LightSide), s);
    GetUnion(c1, Copy(aggregates, Despair), s);
    GetUnion(d2, Copy(aggregates, Triumph), s);
    GetUnion(d1, Delta(aggregates, Advantage, Threat), s);
    GetUnion(map[], Delta(aggregates, Success, Failure), s);
  }

  lemma WritesPositive(aggregates: ScriptModels.Counts)
    ensures Positive(Writes(aggregates))
  {
    var d1 := map[] + Delta(aggregates, Success, Failure);
    var d2 := d1 + Delta(aggregates, Advantage, Threat);
    var c1 := d2 + Copy(aggregates, Triumph);
    var c2 := c1 + Copy(aggregates, Despair);
    var c3 := c2 + Copy(aggregates, LightSide);
    PositiveUnion(map[], Delta(aggregates, Success, Failure));
    PositiveUnion(d1, Delta(aggregates, Advantage, Threat));
    PositiveUnion(d2, Copy(aggregates, Triumph));
    PositiveUnion(c1, Copy(aggregates, Despair));
    PositiveUnion(c2, Copy(aggregates, LightSide));
    PositiveUnion(c3, Copy(aggregates, DarkSide));
  }

  lemma PositiveUnion(m1: map<Symbol, nat>, m2: map<Symbol, nat>)
    requires Positive(m1) && Positive(m2)
    ensures Positive(m1 + m2)
  {
  }

  /** The counts the getters should read are those of the dense normal form. */
  lemma ExpectedIsDense(aggregates: ScriptModels.Counts, results: seq<ScriptModels.DieResult>, s: Symbol)
    requires forall t :: aggregates.Get(t) == Tally(ScriptModels.Symbols(results), t)
    ensures Expected(aggregates, s) == ScriptModels.DenseNormalForm(results).Get(s)
  {
  }

  /**
   * What `normalize()` writes, starting from the aggregates of a roll, is
   * the sparse normal form of that roll.
   */
  lemma WritesAreSparse(aggregates: ScriptModels.Counts, results: seq<ScriptModels.DieResult>)
    requires forall t :: aggregates.Get(t) == Tally(ScriptModels.Symbols(results), t)
    ensures Writes(aggregates) == SparseNormalForm(results)
  {
    var sparse := SparseNormalForm(results);
    WritesPositive(aggregates);
    forall s ensures NormalizedPoolResult(Writes(aggregates)).Get(s) == NormalizedPoolResult(sparse).Get(s) {
      WritesRead(aggregates, s);
      ExpectedIsDense(aggregates, results, s);
    }
    SameReadings(Writes(aggregates), sparse);
  }

  /** `format()` of two Successes and a Triumph. */
  lemma FormatExample()
    ensures Join(NormalizedPoolResult(map[Success := 2, Triumph := 1]).Phrases(), ", ") == "2 Successes, 1 Triumph"
  {
    var n := NormalizedPoolResult(map[Success := 2, Triumph := 1]);
    TwoSuccesses();
    OneTriumph();
    assert n.Get(Advantage) == 0 && n.Get(Failure) == 0 && n.Get(Threat) == 0;
    assert n.Get(Despair) == 0 && n.Get(LightSide) == 0 && n.Get(DarkSide) == 0;
    assert n.Phrases() == ["2 Successes", "1 Triumph"];
  }

  lemma TwoSuccesses()
    ensures Phrase(2, "Success", "es") == ["2 Successes"]
  {
    assert NatToString(2) == [DigitChar(2)] == "2";
    assert "2" + " " + "Success" + "es" == "2 Successes";
  }

  lemma OneTriumph()
    ensures Phrase(1, "Triumph", "s") == ["1 Triumph"]
  {
    assert NatToString(1) == [DigitChar(1)] == "1";
    assert "1" + " " + "Triumph" + "" == "1 Triumph";
  }
}
