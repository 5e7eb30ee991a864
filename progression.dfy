/**
 * The progression tracker: experience points roll over into levels at a
 * fixed threshold. `Award` is the closed-form meaning of one call of
 * `add_xp`; the loop that computes it step by step is `Leveler.App.AddXp`.
 */
module Progression {

  /** Experience needed for one level. */
  const Threshold: int := 60

  /** The persisted pair: experience points and level. */
  datatype Progress = Progress(xp: int, level: int)

  /** Total progress measured in experience points. */
  function Total(p: Progress): int
  {
    Threshold * p.level + p.xp
  }

  /** Experience lies in [0, Threshold). */
  predicate Normal(p: Progress)
  {
    0 <= p.xp < Threshold
  }

  /** The state a fresh profile starts in (no saved file). */
  const Start: Progress := Progress(0, 1)

  /**
   * Adding `amount` experience: the total is conserved, experience ends below
   * the threshold (and non-negative whenever the sum is), and the level only
   * moves when the sum reaches the threshold.
   */
  function Award(p: Progress, amount: int): (r: Progress)
    ensures Total(r) == Total(p) + amount
    ensures r.xp < Threshold
    ensures r.level >= p.level
    ensures p.xp + amount >= 0 ==> Normal(r)
    ensures p.xp + amount < Threshold ==> r == Progress(p.xp + amount, p.level)
  {
    var t := p.xp + amount;
    if t < Threshold then Progress(t, p.level)
    else Progress(t % Threshold, p.level + t / Threshold)
  }

  /**
   * For a non-negative sum the level rises by exactly the number of whole
   * thresholds in it and experience keeps the remainder.
   */
  lemma AwardNonNegative(p: Progress, amount: int)
    requires p.xp + amount >= 0
    ensures Award(p, amount).level == p.level + (p.xp + amount) / Threshold
    ensures Award(p, amount).xp == (p.xp + amount) % Threshold
  {
  }

  /** A normal state is left unchanged by an award of nothing. */
  lemma AwardZero(p: Progress)
    requires p.xp < Threshold
    ensures Award(p, 0) == p
  {
  }

  /** Two awards in a row are one award of the sum (the second non-negative). */
  lemma AwardTwice(p: Progress, a: int, b: int)
    requires b >= 0
    ensures Award(Award(p, a), b) == Award(p, a + b)
  {
  }

  /** Sum of a sequence of awards. */
  function Sum(amounts: seq<int>): int
  {
    if amounts == [] then 0 else amounts[0] + Sum(amounts[1..])
  }

  /** Awards applied one after another, first to last. */
  function AwardAll(p: Progress, amounts: seq<int>): Progress
    decreases amounts
  {
    if amounts == [] then p else AwardAll(Award(p, amounts[0]), amounts[1..])
  }

  predicate AllNonNegative(amounts: seq<int>)
  {
    forall i :: 0 <= i < |amounts| ==> amounts[i] >= 0
  }

  lemma {:induction false} SumNonNegative(amounts: seq<int>)
    requires AllNonNegative(amounts)
    ensures Sum(amounts) >= 0
  {
    if amounts != [] {
      SumNonNegative(amounts[1..]);
    }
  }

  /**
   * Any sequence of non-negative awards, starting below the threshold, ends
   * where a single award of their sum ends.
   */
  lemma {:induction false} AwardAllIsAwardOfSum(p: Progress, amounts: seq<int>)
    requires p.xp < Threshold
    requires AllNonNegative(amounts)
    ensures AwardAll(p, amounts) == Award(p, Sum(amounts))
    decreases amounts
  {
    if amounts == [] {
      AwardZero(p);
    } else {
      var rest := amounts[1..];
      assert AllNonNegative(rest);
      AwardAllIsAwardOfSum(Award(p, amounts[0]), rest);
      SumNonNegative(rest);
      AwardTwice(p, amounts[0], Sum(rest));
    }
  }

  /**
   * From a fresh profile, after any sequence of non-negative awards the level
   * is 1 + total / 60 and the experience is total % 60.
   */
  lemma FromStart(amounts: seq<int>)
    requires AllNonNegative(amounts)
    ensures AwardAll(Start, amounts) == Progress(Sum(amounts) % Threshold, 1 + Sum(amounts) / Threshold)
  {
    AwardAllIsAwardOfSum(Start, amounts);
    SumNonNegative(amounts);
  }

  /** `n` awards of one point each. */
  function Ones(n: nat): (s: seq<int>)
    ensures |s| == n && AllNonNegative(s)
  {
    if n == 0 then [] else [1] + Ones(n - 1)
  }

  lemma {:induction false} SumOnes(n: nat)
    ensures Sum(Ones(n)) == n
  {
    if n > 0 {
      assert Ones(n)[1..] == Ones(n - 1);
      SumOnes(n - 1);
    }
  }

  /**
   * Awarding one point `n` times equals awarding `n` points at once; from a
   * normal state, `ThresholdTicksOneLevel` gives the case n = 60.
   */
  lemma UnitAwards(p: Progress, n: nat)
    requires p.xp < Threshold
    ensures AwardAll(p, Ones(n)) == Award(p, n)
  {
    AwardAllIsAwardOfSum(p, Ones(n));
    SumOnes(n);
  }

  /**
   * As many one-point ticks as the threshold, from a normal state, are
   * exactly one whole level.
   */
  lemma ThresholdTicksOneLevel(p: Progress, n: nat)
    requires Normal(p) && n == Threshold
    ensures AwardAll(p, Ones(n)) == Progress(p.xp, p.level + 1)
  {
    UnitAwards(p, n);
    AwardOneLevel(p);
  }

  /** Awarding exactly the threshold to a normal state raises the level by one. */
  lemma AwardOneLevel(p: Progress)
    requires Normal(p)
    ensures Award(p, Threshold) == Progress(p.xp, p.level + 1)
  {
  }
}
