/**
 * What a box is, abstractly: its colour, its initial weight and the tokens it
 * has absorbed, in order. Its weight and its scores are functions of these.
 * The classes in module Boxes keep their fields equal to these functions.
 */
module BoxSpec {
  import opened Pairing

  datatype Color = Green | Blue

  /** The abstract state of one box. */
  datatype BoxView = BoxView(color: Color, initial: real, tokens: seq<u32>)

  /** The sum of a sequence of tokens, as an exact integer. */
  function Sum(s: seq<u32>): nat
  {
    if s == [] then 0 else Sum(s[..|s| - 1]) + s[|s| - 1]
  }

  /** The smallest absorbed token (the blue box's `min_weight_`). */
  function MinOf(s: seq<u32>): (m: u32)
    requires s != []
    ensures m in s
    ensures forall i :: 0 <= i < |s| ==> m <= s[i]
  {
    if |s| == 1 then s[0]
    else
      var m := MinOf(s[..|s| - 1]);
      assert forall i :: 0 <= i < |s| - 1 ==> s[..|s| - 1][i] == s[i];
      if s[|s| - 1] < m then s[|s| - 1] else m
  }

  /** The largest absorbed token (the blue box's `max_weight_`). */
  function MaxOf(s: seq<u32>): (m: u32)
    requires s != []
    ensures m in s
    ensures forall i :: 0 <= i < |s| ==> s[i] <= m
  {
    if |s| == 1 then s[0]
    else
      var m := MaxOf(s[..|s| - 1]);
      assert forall i :: 0 <= i < |s| - 1 ==> s[..|s| - 1][i] == s[i];
      if s[|s| - 1] > m then s[|s| - 1] else m
  }

  /** Square of the mean of every token a green box has absorbed. */
  function GreenScore(s: seq<u32>): (r: real)
    requires s != []
    ensures r >= 0.0
  {
    var mean := Sum(s) as real / |s| as real;
    mean * mean
  }

  /** The pairing of the smallest and the largest token a blue box has absorbed. */
  function BlueScore(s: seq<u32>): (r: real)
    requires s != []
    ensures 0.0 <= r < TwoTo32 as real
  {
    CantorPairing(MinOf(s), MaxOf(s)) as real
  }

  /** The score a box of colour `c` reports once it holds tokens `s`. */
  function ScoreOf(c: Color, s: seq<u32>): (r: real)
    requires s != []
    ensures r >= 0.0
  {
    match c
    case Green => GreenScore(s)
    case Blue => BlueScore(s)
  }

  /** A box's weight: its initial weight plus every token it has absorbed. */
  function WeightOf(v: BoxView): (w: real)
    ensures w >= v.initial
  {
    v.initial + Sum(v.tokens) as real
  }

  /**
   * A box absorbing token `t`: its new state and the score it reports. The
   * box keeps its colour and initial weight, gains exactly the token at the
   * end of its history, and reports a score that is never negative.
   */
  function Absorb(v: BoxView, t: u32): (r: (BoxView, real))
    ensures r.0.color == v.color && r.0.initial == v.initial
    ensures r.0.tokens == v.tokens + [t]
    ensures r.1 == ScoreOf(v.color, r.0.tokens) >= 0.0
  {
    var tokens := v.tokens + [t];
    (v.(tokens := tokens), ScoreOf(v.color, tokens))
  }

  /** Absorbing raises the box's weight by exactly the token. */
  lemma AbsorbRaisesWeight(v: BoxView, t: u32)
    ensures WeightOf(Absorb(v, t).0) == WeightOf(v) + t as real
  {
    assert (v.tokens + [t])[..|v.tokens|] == v.tokens;
  }

  /**
   * Appending one token raises the sum by that token and moves the extremes
   * only when the token passes them: the blue box's running minimum and
   * maximum, which start at the sentinels, agree with recomputing them.
   */
  lemma AppendOne(s: seq<u32>, t: u32)
    ensures Sum(s + [t]) == Sum(s) + t
    ensures var m := if s == [] then U32Max else MinOf(s); MinOf(s + [t]) == if t < m then t else m
    ensures var m := if s == [] then 0 else MaxOf(s); MaxOf(s + [t]) == if t > m then t else m
  {
    assert (s + [t])[..|s|] == s;
  }

  /**
   * The green box averages every token it has absorbed, not only the three
   * most recent: 10, 20, 30, 40 score (100 / 4)^2 = 625, whereas the mean
   * of the last three would give 900.
   */
  lemma GreenScoreOfFourTokens()
    ensures GreenScore([10, 20, 30, 40]) == 625.0
    ensures GreenScore([20, 30, 40]) == 900.0
  {
    assert Sum([10, 20, 30, 40]) == 100 by {
      assert [10, 20, 30, 40][..3] == [10, 20, 30];
      assert [10, 20, 30][..2] == [10, 20];
      assert [10, 20][..1] == [10];
      assert [10][..0] == [];
    }
    assert Sum([20, 30, 40]) == 90 by {
      assert [20, 30, 40][..2] == [20, 30];
      assert [20, 30][..1] == [20];
      assert [20][..0] == [];
    }
  }

  /** After absorbing 5, 10, 15, 20 a blue box pairs 5 with 20: 345. */
  lemma BlueScoreOfFourTokens()
    ensures BlueScore([5, 10, 15, 20]) == CantorPairing(5, 20) as real == 345.0
  {
    var s: seq<u32> := [5, 10, 15, 20];
    assert MinOf(s) == 5;
    assert MaxOf(s) == 20;
  }
}
