/**
 * The regret-matching node of counterfactual regret minimisation
 * (inc/node.h, src/node.cpp): per action a regret sum, a strategy and a
 * strategy sum, two visit counters and the mask of the actions that are
 * valid at the node. The floats of the source are reals here, so nothing
 * about rounding is modelled.
 */
module Nodes {
  import opened Actions

  // ---------------------------------------------------------------- sums and vectors

  /** The sum of the entries, added from the first to the last as the loops of the node do. */
  function Sum(xs: seq<real>): real
  {
    if xs == [] then 0.0 else Sum(xs[..|xs| - 1]) + xs[|xs| - 1]
  }

  /** The mask entries as reals, as static_cast<float> gives them. */
  function Reals(mask: seq<int>): (rs: seq<real>)
    ensures |rs| == |mask| && forall i :: 0 <= i < |mask| ==> rs[i] == mask[i] as real
  {
    if mask == [] then [] else Reals(mask[..|mask| - 1]) + [mask[|mask| - 1] as real]
  }

  /** Every entry divided by c. */
  function Divide(xs: seq<real>, c: real): (ys: seq<real>)
    requires c != 0.0
    ensures |ys| == |xs| && forall i :: 0 <= i < |xs| ==> ys[i] == xs[i] / c
  {
    if xs == [] then [] else Divide(xs[..|xs| - 1], c) + [xs[|xs| - 1] / c]
  }

  /** The entry-wise sum of two vectors. */
  function Add(xs: seq<real>, ys: seq<real>): (zs: seq<real>)
    requires |xs| == |ys|
    ensures |zs| == |xs| && forall i :: 0 <= i < |xs| ==> zs[i] == xs[i] + ys[i]
  {
    if xs == [] then [] else Add(xs[..|xs| - 1], ys[..|ys| - 1]) + [xs[|xs| - 1] + ys[|ys| - 1]]
  }

  /** n copies of c. */
  function Constant(n: nat, c: real): (xs: seq<real>)
    ensures |xs| == n && forall i :: 0 <= i < n ==> xs[i] == c
  {
    if n == 0 then [] else Constant(n - 1, c) + [c]
  }

  /** Sums distribute over a division. */
  lemma {:induction false} SumDivide(xs: seq<real>, c: real)
    requires c != 0.0
    ensures Sum(Divide(xs, c)) == Sum(xs) / c
  {
    if xs != [] {
      var n := |xs| - 1;
      SumDivide(xs[..n], c);
      assert Divide(xs, c)[..n] == Divide(xs[..n], c);
      DivideAdd(Sum(xs[..n]), xs[n], c);
    }
  }

  /** a / c + b / c == (a + b) / c. */
  lemma DivideAdd(a: real, b: real, c: real)
    requires c != 0.0
    ensures a / c + b / c == (a + b) / c
  {
  }

  /** A non-negative number over a positive one is non-negative. */
  lemma DivideNonNegative(x: real, c: real)
    requires x >= 0.0 && c > 0.0
    ensures x / c >= 0.0 && (x == 0.0 ==> x / c == 0.0)
  {
  }

  /** A number over itself is 1. */
  lemma DivideSelf(c: real)
    requires c != 0.0
    ensures c / c == 1.0
  {
  }

  /** Sums distribute over an entry-wise sum. */
  lemma {:induction false} SumAdd(xs: seq<real>, ys: seq<real>)
    requires |xs| == |ys|
    ensures Sum(Add(xs, ys)) == Sum(xs) + Sum(ys)
  {
    if xs != [] {
      var n := |xs| - 1;
      SumAdd(xs[..n], ys[..n]);
      assert Add(xs, ys)[..n] == Add(xs[..n], ys[..n]);
    }
  }

  /** n copies of c sum to n times c. */
  lemma {:induction false} SumConstant(n: nat, c: real)
    ensures Sum(Constant(n, c)) == n as real * c
  {
    if n > 0 {
      SumConstant(n - 1, c);
      assert Constant(n, c)[..n - 1] == Constant(n - 1, c);
    }
  }

  /** A sum of non-negative entries is non-negative, and positive when some entry is. */
  lemma {:induction false} SumNonNegative(xs: seq<real>)
    requires forall i :: 0 <= i < |xs| ==> xs[i] >= 0.0
    ensures Sum(xs) >= 0.0
    ensures (exists i :: 0 <= i < |xs| && xs[i] > 0.0) ==> Sum(xs) > 0.0
  {
    if xs != [] {
      var n := |xs| - 1;
      assert forall i :: 0 <= i < n ==> xs[..n][i] == xs[i];
      SumNonNegative(xs[..n]);
    }
  }

  // ---------------------------------------------------------------- regret matching

  /** The positive part of a regret: get_strategy counts a regret only when it is above 0. */
  function Positive(r: real): real
  {
    if r > 0.0 then r else 0.0
  }

  /**
   * The weight get_strategy gives an action: its regret times its mask
   * entry when the regret is above 0, otherwise 0. It is never negative,
   * it is 0 for a masked action, and it is the positive part of the regret
   * for a valid action.
   */
  function Weight(r: real, m: int): (x: real)
    requires m >= 0
    ensures x >= 0.0 && x == Positive(r) * m as real
    ensures m == 0 || r <= 0.0 ==> x == 0.0
    ensures m == 1 ==> x == Positive(r)
  {
    if r > 0.0 then r * m as real else 0.0
  }

  /** The weights of get_strategy's first loop. */
  function Weights(regrets: seq<real>, mask: seq<int>): (w: seq<real>)
    requires |regrets| == |mask| && forall i :: 0 <= i < |mask| ==> mask[i] >= 0
    ensures |w| == |regrets| && forall i :: 0 <= i < |w| ==> w[i] == Weight(regrets[i], mask[i])
  {
    if regrets == [] then []
    else
      var n := |regrets| - 1;
      Weights(regrets[..n], mask[..n]) + [Weight(regrets[n], mask[n])]
  }

  /** A mask of uint8_t entries with some valid action. */
  predicate SomeValid(mask: seq<int>)
  {
    (forall i :: 0 <= i < |mask| ==> 0 <= mask[i] < 0x100) && exists i :: 0 <= i < |mask| && mask[i] > 0
  }

  /** The mask entries of a mask with some valid action sum to more than 0: the fallback divides by a positive valid_sum. */
  lemma ValidSumPositive(mask: seq<int>)
    requires SomeValid(mask)
    ensures Sum(Reals(mask)) > 0.0
  {
    var i :| 0 <= i < |mask| && mask[i] > 0;
    assert Reals(mask)[i] > 0.0;
    SumNonNegative(Reals(mask));
  }

  /**
   * get_strategy: the weights normalised by their sum when that sum is
   * positive; otherwise the mask normalised by its sum, the uniform
   * distribution over the valid actions for a 0/1 mask.
   */
  function Strategy(regrets: seq<real>, mask: seq<int>): (s: seq<real>)
    requires |regrets| == |mask| && SomeValid(mask)
    ensures |s| == |mask|
  {
    var w := Weights(regrets, mask);
    var total := Sum(w);
    if total <= 0.0 then
      ValidSumPositive(mask);
      Divide(Reals(mask), Sum(Reals(mask)))
    else Divide(w, total)
  }

  /**
   * The strategy is a probability distribution over the actions: every
   * entry is non-negative, the entries sum to 1, and an action the mask
   * rules out gets probability 0.
   */
  lemma StrategyDistribution(regrets: seq<real>, mask: seq<int>)
    requires |regrets| == |mask| && SomeValid(mask)
    ensures var s := Strategy(regrets, mask);
      && Sum(s) == 1.0
      && forall i :: 0 <= i < |s| ==> s[i] >= 0.0 && (mask[i] == 0 ==> s[i] == 0.0)
  {
    var w := Weights(regrets, mask);
    var total := Sum(w);
    var xs := if total <= 0.0 then Reals(mask) else w;
    assert Strategy(regrets, mask) == Divide(xs, Sum(xs)) by {
      ValidSumPositive(mask);
    }
    assert Sum(xs) > 0.0 by {
      ValidSumPositive(mask);
    }
    forall i | 0 <= i < |xs| ensures xs[i] >= 0.0 && (mask[i] == 0 ==> xs[i] == 0.0) {
    }
    NormalisedDistribution(xs);
  }

  /** Non-negative entries with a positive sum, divided by that sum: non-negative, 0 where the entry is 0, summing to 1. */
  lemma NormalisedDistribution(xs: seq<real>)
    requires Sum(xs) > 0.0 && forall i :: 0 <= i < |xs| ==> xs[i] >= 0.0
    ensures var ys := Divide(xs, Sum(xs));
      && Sum(ys) == 1.0
      && forall i :: 0 <= i < |xs| ==> ys[i] >= 0.0 && (xs[i] == 0.0 ==> ys[i] == 0.0)
  {
    var c := Sum(xs);
    var ys := Divide(xs, c);
    assert Sum(ys) == 1.0 by {
      SumDivide(xs, c);
      DivideSelf(c);
    }
    forall i | 0 <= i < |xs| ensures ys[i] >= 0.0 && (xs[i] == 0.0 ==> ys[i] == 0.0) {
      assert ys[i] == xs[i] / c;
      DivideNonNegative(xs[i], c);
    }
  }

  /**
   * Regret matching: with positive weight in total, each action's
   * probability is its weight over the total, so an action with a regret
   * of 0 or less gets 0, and of two valid actions (mask entry 1) the one
   * with the greater positive regret gets the greater probability.
   */
  lemma StrategyMatchesRegrets(regrets: seq<real>, mask: seq<int>)
    requires |regrets| == |mask| && SomeValid(mask)
    requires Sum(Weights(regrets, mask)) > 0.0
    ensures var s, total := Strategy(regrets, mask), Sum(Weights(regrets, mask));
      forall i :: 0 <= i < |s| ==>
        && s[i] == Weight(regrets[i], mask[i]) / total
        && (regrets[i] <= 0.0 ==> s[i] == 0.0)
    ensures var s := Strategy(regrets, mask);
      forall i, j :: 0 <= i < |s| && 0 <= j < |s| && mask[i] == 1 && mask[j] == 1 && regrets[i] > regrets[j] && regrets[i] > 0.0 ==>
        s[i] > s[j]
  {
    var w := Weights(regrets, mask);
    var s, total := Strategy(regrets, mask), Sum(w);
    NormalisedDistribution(w);
    forall i, j | 0 <= i < |s| && 0 <= j < |s| && mask[i] == 1 && mask[j] == 1 && regrets[i] > regrets[j] && regrets[i] > 0.0
      ensures s[i] > s[j]
    {
      DivideMonotone(w[i], w[j], total);
    }
  }

  /** Dividing by a positive number keeps a strict order. */
  lemma DivideMonotone(x: real, y: real, c: real)
    requires x > y && c > 0.0
    ensures x / c > y / c
  {
    assert x / c - y / c == (x - y) / c;
  }

  /**
   * The fallback: without positive weight the strategy gives each action
   * its mask entry over the sum of the mask, so every valid action of a
   * 0/1 mask gets the same probability.
   */
  lemma StrategyFallback(regrets: seq<real>, mask: seq<int>)
    requires |regrets| == |mask| && SomeValid(mask)
    requires Sum(Weights(regrets, mask)) <= 0.0
    ensures var s := Strategy(regrets, mask);
      && Sum(Reals(mask)) > 0.0
      && (forall i :: 0 <= i < |s| ==> s[i] == mask[i] as real / Sum(Reals(mask)))
      && forall i, j :: 0 <= i < |s| && 0 <= j < |s| && mask[i] == mask[j] ==> s[i] == s[j]
  {
    ValidSumPositive(mask);
  }

  // ---------------------------------------------------------------- the average strategy

  /** get_average_strategy: the strategy sums over their total when it is positive, otherwise 1/6 for every action. */
  function Average(sums: seq<real>): (s: seq<real>)
    ensures |s| == |sums|
  {
    var total := Sum(sums);
    if total > 0.0 then Divide(sums, total) else Constant(|sums|, 1.0 / N_ACTIONS as real)
  }

  /**
   * The average strategy of six actions sums to 1 in both branches, and it
   * is a probability distribution whenever the strategy sums are
   * non-negative, as the sums of distributions are.
   */
  lemma AverageDistribution(sums: seq<real>)
    requires |sums| == N_ACTIONS
    ensures Sum(Average(sums)) == 1.0
    ensures (forall i :: 0 <= i < |sums| ==> sums[i] >= 0.0) ==> forall i :: 0 <= i < |sums| ==> Average(sums)[i] >= 0.0
  {
    var total := Sum(sums);
    if total > 0.0 {
      SumDivide(sums, total);
    } else {
      SumConstant(N_ACTIONS, 1.0 / N_ACTIONS as real);
    }
  }

  /** Adding a probability distribution to non-negative strategy sums keeps them non-negative and adds 1 to their total. */
  lemma AddDistribution(sums: seq<real>, strategy: seq<real>)
    requires |sums| == |strategy|
    requires forall i :: 0 <= i < |sums| ==> sums[i] >= 0.0 && strategy[i] >= 0.0
    requires Sum(strategy) == 1.0
    ensures var next := Add(sums, strategy);
      Sum(next) == Sum(sums) + 1.0 && forall i :: 0 <= i < |next| ==> next[i] >= 0.0
  {
    SumAdd(sums, strategy);
  }

  // ---------------------------------------------------------------- the node

  class Node {
    const regretSum: array<real>      // m_regret_sum
    const strategy: array<real>       // m_strategy
    const strategySum: array<real>    // m_strategy_sum
    var visits: int                   // m_visits
    var visits2: int                  // m_visits_2
    const mask: array<int>            // m_valid_action_mask

    /** Six slots per vector, three different vectors, and a mask of uint8_t entries. */
    ghost predicate Valid()
      reads this, mask
    {
      && regretSum.Length == N_ACTIONS && strategy.Length == N_ACTIONS
      && strategySum.Length == N_ACTIONS && mask.Length == N_ACTIONS
      && regretSum != strategy && regretSum != strategySum && strategy != strategySum
      && forall i :: 0 <= i < N_ACTIONS ==> 0 <= mask[i] < 0x100
    }

    /**
     * Node(): regrets and strategy sums 0, the strategy 1/6 for each action,
     * both counters 0. The mask, which the source leaves uninitialised,
     * starts with no valid action.
     */
    constructor ()
      ensures Valid() && fresh(regretSum) && fresh(strategy) && fresh(strategySum) && fresh(mask)
      ensures regretSum[..] == Constant(N_ACTIONS, 0.0) && strategySum[..] == Constant(N_ACTIONS, 0.0)
      ensures strategy[..] == Constant(N_ACTIONS, 1.0 / N_ACTIONS as real) && Sum(strategy[..]) == 1.0
      ensures visits == 0 && visits2 == 0 && mask[..] == [0, 0, 0, 0, 0, 0]
    {
      var r := new real[N_ACTIONS];
      var s := new real[N_ACTIONS];
      var t := new real[N_ACTIONS];
      for i := 0 to N_ACTIONS
        invariant forall k :: 0 <= k < i ==> r[k] == 0.0
        invariant forall k :: 0 <= k < i ==> s[k] == 1.0 / N_ACTIONS as real
        invariant forall k :: 0 <= k < i ==> t[k] == 0.0
      {
        r[i] := 0.0;
        s[i] := 1.0 / N_ACTIONS as real;
        t[i] := 0.0;
      }
      assert r[..] == Constant(N_ACTIONS, 0.0);
      assert t[..] == Constant(N_ACTIONS, 0.0);
      assert s[..] == Constant(N_ACTIONS, 1.0 / N_ACTIONS as real);
      SumConstant(N_ACTIONS, 1.0 / N_ACTIONS as real);
      var m := new int[N_ACTIONS](_ => 0);
      assert m[..] == [0, 0, 0, 0, 0, 0];
      regretSum, strategy, strategySum, mask := r, s, t, m;
      visits, visits2 := 0, 0;
    }

    /**
     * get_strategy: the regret-matching distribution of the node's regrets
     * under its mask. It needs a valid action: with none, the source divides
     * 0 by 0.
     */
    function GetStrategy(): (s: seq<real>)
      reads this, regretSum, mask
      requires Valid() && SomeValid(mask[..])
      ensures |s| == N_ACTIONS && Sum(s) == 1.0
      ensures forall i :: 0 <= i < N_ACTIONS ==> s[i] >= 0.0 && (mask[i] == 0 ==> s[i] == 0.0)
    {
      StrategyDistribution(regretSum[..], mask[..]);
      Strategy(regretSum[..], mask[..])
    }

    /** update_avg_strategy: the given vector is added entry by entry to the strategy sums; nothing else changes. */
    method UpdateAvgStrategy(s: seq<real>)
      requires Valid() && |s| == N_ACTIONS
      modifies strategySum
      ensures Valid()
      ensures strategySum[..] == Add(old(strategySum[..]), s)
      ensures Sum(strategySum[..]) == Sum(old(strategySum[..])) + Sum(s)
    {
      ghost var before := strategySum[..];
      for i := 0 to N_ACTIONS
        invariant forall k :: 0 <= k < N_ACTIONS ==> strategySum[k] == if k < i then before[k] + s[k] else before[k]
      {
        strategySum[i] := strategySum[i] + s[i];
      }
      assert strategySum[..] == Add(before, s);
      SumAdd(before, s);
    }

    /** get_average_strategy: a distribution over the six actions in every case. */
    function GetAverageStrategy(): (s: seq<real>)
      reads this, strategySum
      requires strategySum.Length == N_ACTIONS
      ensures |s| == N_ACTIONS && Sum(s) == 1.0
      ensures (forall i :: 0 <= i < N_ACTIONS ==> strategySum[i] >= 0.0) ==> forall i :: 0 <= i < N_ACTIONS ==> s[i] >= 0.0
    {
      AverageDistribution(strategySum[..]);
      Average(strategySum[..])
    }

    /** inc_visits: the first counter goes up by one. */
    method IncVisits()
      modifies this`visits
      ensures visits == old(visits) + 1
    {
      visits := visits + 1;
    }

    /** inc_visits2: the second counter goes up by one. */
    method IncVisits2()
      modifies this`visits2
      ensures visits2 == old(visits2) + 1
    {
      visits2 := visits2 + 1;
    }

    /** get_visits: the visit counter that inc_visits advances. */
    function GetVisits(): (v: int)
      reads this
      ensures v == visits
    {
      visits
    }

    /** get_visits2: the second visit counter that inc_visits2 advances. */
    function GetVisits2(): (v: int)
      reads this
      ensures v == visits2
    {
      visits2
    }

    /** update_regret_sum: f times the action's mask entry is added to its regret; no other regret changes. */
    method UpdateRegretSum(idx: int, f: real)
      requires Valid() && 0 <= idx < N_ACTIONS
      modifies regretSum
      ensures Valid()
      ensures regretSum[..] == old(regretSum[..])[idx := old(regretSum[idx]) + f * mask[idx] as real]
      ensures mask[idx] == 0 ==> regretSum[..] == old(regretSum[..])
    {
      regretSum[idx] := regretSum[idx] + f * mask[idx] as real;
    }

    /** get_regrets: a copy of the regret sums. */
    function GetRegrets(): (r: seq<real>)
      reads this, regretSum, mask
      requires Valid()
      ensures |r| == N_ACTIONS && forall i :: 0 <= i < N_ACTIONS ==> r[i] == regretSum[i]
    {
      regretSum[..]
    }

    /** set_mask: the mask is replaced by a copy of m. */
    method SetMask(m: seq<int>)
      requires Valid() && |m| == N_ACTIONS && forall i :: 0 <= i < N_ACTIONS ==> 0 <= m[i] < 0x100
      modifies mask
      ensures Valid() && mask[..] == m && GetValidActions() == m
    {
      forall i | 0 <= i < N_ACTIONS {
        mask[i] := m[i];
      }
    }

    /** get_valid_actions: a copy of the mask. */
    function GetValidActions(): (m: seq<int>)
      reads this, mask
      requires Valid()
      ensures |m| == N_ACTIONS && forall i :: 0 <= i < N_ACTIONS ==> m[i] == mask[i]
    {
      mask[..]
    }
  }
}
