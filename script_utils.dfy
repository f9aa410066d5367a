/**
 * The URL-hash codec of `src/script/utils` (and, identically, `src/utils`):
 * one character per die kind, and the start-up code that rebuilds a pool
 * from the hash of the page address.
 */
module ScriptUtils {
  import opened Wrappers
  import opened Dice
  import opened ScriptModels

  /** The characters that stand for a die kind. */
  const KindChars := "APDCBSF"

  /** `dieKindToChar`. */
  function DieKindToChar(k: DieKind): (c: char)
    ensures c in KindChars
  {
    match k
    case Ability => 'A'
    case Proficiency => 'P'
    case Difficulty => 'D'
    case Challange => 'C'
    case Boost => 'B'
    case Setback => 'S'
    case Force => 'F'
  }

  /** `charToDieKind`: any character other than the seven codes throws. */
  function CharToDieKind(c: char): (r: Result<DieKind, string>)
    ensures r.Err? <==> c !in KindChars
    ensures r.Ok? ==> DieKindToChar(r.value) == c
    ensures r.Err? ==> r.error == "invalid die kind character: " + [c]
  {
    match c
    case 'A' => Ok(Ability)
    case 'P' => Ok(Proficiency)
    case 'D' => Ok(Difficulty)
    case 'C' => Ok(Challange)
    case 'B' => Ok(Boost)
    case 'S' => Ok(Setback)
    case 'F' => Ok(Force)
    case _ => Err("invalid die kind character: " + [c])
  }

  /** Decoding the code of a kind gives back that kind. */
  lemma KindRoundTrip(k: DieKind)
    ensures CharToDieKind(DieKindToChar(k)) == Ok(k)
  {
    match k
    case Ability =>
    case Proficiency =>
    case Difficulty =>
    case Challange =>
    case Boost =>
    case Setback =>
    case Force =>
  }

  /** No two kinds share a code. */
  lemma DieKindToCharInjective(k1: DieKind, k2: DieKind)
    ensures DieKindToChar(k1) == DieKindToChar(k2) ==> k1 == k2
  {
    KindRoundTrip(k1);
    KindRoundTrip(k2);
  }

  /** `poolToUrlHash`: the code of every die, in pool order. */
  function PoolToUrlHash(p: Pool): (h: string)
    ensures |h| == |p.dice|
    ensures forall i | 0 <= i < |h| :: h[i] == DieKindToChar(p.dice[i].kind)
  {
    Encode(p.dice)
  }

  function Encode(dice: seq<Die>): (h: string)
    ensures |h| == |dice|
    ensures forall i | 0 <= i < |h| :: h[i] == DieKindToChar(dice[i].kind)
  {
    if |dice| == 0 then ""
    else Encode(dice[..|dice| - 1]) + [DieKindToChar(dice[|dice| - 1].kind)]
  }

  /** The kind of every die, in pool order. */
  function Kinds(dice: seq<Die>): (ks: seq<DieKind>)
    ensures |ks| == |dice|
  {
    seq(|dice|, i requires 0 <= i < |dice| => dice[i].kind)
  }

  /** The characters of `h` that are codes of a kind, in order. */
  function ValidCodes(h: string): (v: string)
    ensures |v| <= |h|
  {
    if |h| == 0 then ""
    else ValidCodes(h[..|h| - 1]) + (if h[|h| - 1] in KindChars then [h[|h| - 1]] else "")
  }

  /** The kinds a hash decodes to: the valid codes in order, the other characters dropped. */
  function DecodeKinds(h: string): (ks: seq<DieKind>)
    ensures |ks| <= |h|
    ensures |ks| == |h| <==> forall i | 0 <= i < |h| :: h[i] in KindChars
  {
    if |h| == 0 then []
    else
      var init := h[..|h| - 1];
      var rest := DecodeKinds(init);
      assert forall i | 0 <= i < |init| :: init[i] == h[i];
      match CharToDieKind(h[|h| - 1])
      case Ok(k) => rest + [k]
      case Err(_) => rest
  }

  /** The decoded kinds are the valid codes of the hash, each turned into its kind, in order. */
  lemma {:induction false} DecodeKindsInOrder(h: string)
    ensures |DecodeKinds(h)| == |ValidCodes(h)|
    ensures forall j | 0 <= j < |DecodeKinds(h)| :: DieKindToChar(DecodeKinds(h)[j]) == ValidCodes(h)[j]
  {
    if |h| > 0 {
      DecodeKindsInOrder(h[..|h| - 1]);
    }
  }

  /** Decoding the hash of a pool gives back the kinds of its dice, in order. */
  lemma {:induction false} HashRoundTrip(dice: seq<Die>)
    ensures DecodeKinds(Encode(dice)) == Kinds(dice)
  {
    if |dice| > 0 {
      var init := dice[..|dice| - 1];
      var last := dice[|dice| - 1];
      HashRoundTrip(init);
      var h := Encode(dice);
      assert h == Encode(init) + [DieKindToChar(last.kind)];
      assert h[..|h| - 1] == Encode(init);
      KindRoundTrip(last.kind);
      assert DecodeKinds(h) == DecodeKinds(Encode(init)) + [last.kind];
      KindsSnoc(dice);
    }
  }

  lemma KindsSnoc(dice: seq<Die>)
    requires |dice| > 0
    ensures Kinds(dice) == Kinds(dice[..|dice| - 1]) + [dice[|dice| - 1].kind]
  {
  }

  /**
   * Start-up: every character of the hash (without its leading `#`) is
   * turned into a kind; a fresh die of that kind is appended to the pool,
   * and a character that throws is skipped.
   */
  method DecodeHash(h: string) returns (p: Pool)
    ensures Kinds(p.dice) == DecodeKinds(h)
    ensures forall d <- p.dice :: fresh(d)
  {
    p := Pool.Empty();
    for i := 0 to |h|
      invariant Kinds(p.dice) == DecodeKinds(h[..i])
      invariant forall d <- p.dice :: fresh(d)
    {
      assert h[..i + 1][..i] == h[..i];
      match CharToDieKind(h[i])
      case Ok(k) =>
        var d := new Die(k);
        assert Kinds(p.dice + [d]) == Kinds(p.dice) + [k];
        p := p.AddDie(d);
      case Err(_) =>
    }
    assert h[..|h|] == h;
  }

  /** Reloading the page at the hash of a pool rebuilds a pool of the same kinds, in order. */
  method Reload(p: Pool) returns (q: Pool)
    ensures Kinds(q.dice) == Kinds(p.dice)
  {
    q := DecodeHash(PoolToUrlHash(p));
    HashRoundTrip(p.dice);
  }
}
