/**
 * The boxes as objects whose fields are updated in place.
 *
 * The source has an abstract `Box` holding `weight_`, and two subclasses
 * that override the virtual `absorb`: `GreenBox` with its vector of tokens,
 * `BlueBox` with its smallest and largest token. Here one class `Box` holds
 * the fields of both, and the constant `color` records which subclass an
 * object was made as; `Absorb` dispatches on it as the virtual call does.
 */
module Boxes {
  import opened Pairing
  import opened BoxSpec

  /**
   * The score computation of `GreenBox::absorb`: `std::accumulate` adds the
   * recorded tokens from 0.0, the sum is divided by their count, and the
   * mean is squared.
   */
  method SquaredMean(ws: seq<u32>) returns (score: real)
    requires ws != []
    ensures score == GreenScore(ws)
  {
    var sum := 0.0;
    var i := 0;
    while i < |ws|
      invariant 0 <= i <= |ws|
      invariant sum == Sum(ws[..i]) as real
    {
      assert ws[..i + 1][..i] == ws[..i];
      sum := sum + ws[i] as real;
      i := i + 1;
    }
    assert ws[..i] == ws;
    var mean := sum / |ws| as real;
    score := mean * mean;
  }

  /**
   * The fields of a box agree with its history: the weight is the initial
   * weight plus every token, a green box records every token and leaves the
   * extremes at their sentinels, and a blue box records nothing and keeps
   * the extremes of its tokens, or the sentinels while it has none.
   */
  ghost predicate Tracks(color: Color, initial: real, tokens: seq<u32>,
                         weight: real, weights: seq<u32>, lo: u32, hi: u32)
  {
    && weight == initial + Sum(tokens) as real
    && if color == Green then
         weights == tokens && lo == U32Max && hi == 0
       else if tokens == [] then
         weights == [] && lo == U32Max && hi == 0
       else
         weights == [] && lo == MinOf(tokens) && hi == MaxOf(tokens)
  }

  /** Absorbing a token as `BlueBox::absorb` does keeps the fields in agreement with the history. */
  lemma BlueAbsorbTracks(initial: real, tokens: seq<u32>, weight: real, lo: u32, hi: u32, t: u32)
    requires Tracks(Blue, initial, tokens, weight, [], lo, hi)
    ensures var lo', hi' := (if t < lo then t else lo), (if t > hi then t else hi);
      && Tracks(Blue, initial, tokens + [t], weight + t as real, [], lo', hi')
      && lo' == MinOf(tokens + [t]) && hi' == MaxOf(tokens + [t])
  {
    AppendOne(tokens, t);
  }

  /** Absorbing a token as `GreenBox::absorb` does keeps the fields in agreement with the history. */
  lemma GreenAbsorbTracks(initial: real, tokens: seq<u32>, weight: real, lo: u32, hi: u32, t: u32)
    requires Tracks(Green, initial, tokens, weight, tokens, lo, hi)
    ensures Tracks(Green, initial, tokens + [t], weight + t as real, tokens + [t], lo, hi)
  {
    AppendOne(tokens, t);
  }

  class Box {
    /** Which subclass this box is: `GreenBox` or `BlueBox`. */
    const color: Color
    /** The weight the box was made with. */
    ghost const initial: real
    /** Every token absorbed so far, oldest first. */
    ghost var tokens: seq<u32>
    /** `weight_`: the box's total weight. */
    var weight: real
    /** `GreenBox::weights_`; a blue box leaves it empty. */
    var weights: seq<u32>
    /** `BlueBox::min_weight_`, starting at the largest `uint32_t`. */
    var minWeight: u32
    /** `BlueBox::max_weight_`, starting at 0. */
    var maxWeight: u32

    ghost predicate Valid()
      reads this
    {
      Tracks(color, initial, tokens, weight, weights, minWeight, maxWeight)
    }

    /** The abstract state of the box. */
    ghost function View(): BoxView
      reads this
    {
      BoxView(color, initial, tokens)
    }

    /** `Box::makeGreenBox`: a green box of the given weight that has absorbed nothing. */
    constructor MakeGreen(initialWeight: real)
      ensures Valid() && View() == BoxView(Green, initialWeight, [])
      ensures weight == initialWeight && weights == []
    {
      color := Green;
      initial := initialWeight;
      tokens := [];
      weight := initialWeight;
      weights := [];
      minWeight := U32Max;
      maxWeight := 0;
    }

    /**
     * `Box::makeBlueBox`: a blue box of the given weight whose extremes start
     * at the sentinels, the largest `uint32_t` for the minimum and 0 for the
     * maximum.
     */
    constructor MakeBlue(initialWeight: real)
      ensures Valid() && View() == BoxView(Blue, initialWeight, [])
      ensures weight == initialWeight && minWeight == U32Max && maxWeight == 0
    {
      color := Blue;
      initial := initialWeight;
      tokens := [];
      weight := initialWeight;
      weights := [];
      minWeight := U32Max;
      maxWeight := 0;
    }

    /** `Box::operator<`: this box is strictly lighter than `other`. */
    predicate LighterThan(other: Box)
      reads this, other
    {
      weight < other.weight
    }

    /**
     * `GreenBox::absorb`: record the token, add it to the weight, and score
     * the square of the mean of every recorded token.
     */
    method AbsorbGreen(token: u32) returns (score: real)
      requires Valid() && color == Green
      modifies this
      ensures Valid()
      ensures tokens == old(tokens) + [token] && weights == tokens
      ensures weight == old(weight) + token as real
      ensures minWeight == old(minWeight) && maxWeight == old(maxWeight)
      ensures score == GreenScore(tokens)
    {
      GreenAbsorbTracks(initial, tokens, weight, minWeight, maxWeight, token);
      tokens := tokens + [token];
      weights := weights + [token];
      weight := weight + token as real;
      score := SquaredMean(weights);
    }

    /**
     * `BlueBox::absorb`: add the token to the weight, lower the minimum or
     * raise the maximum when the token passes them, and score the pairing of
     * the two.
     */
    method AbsorbBlue(token: u32) returns (score: real)
      requires Valid() && color == Blue
      modifies this
      ensures Valid()
      ensures tokens == old(tokens) + [token] && weights == old(weights)
      ensures weight == old(weight) + token as real
      ensures minWeight == (if token < old(minWeight) then token else old(minWeight))
      ensures maxWeight == (if token > old(maxWeight) then token else old(maxWeight))
      ensures minWeight == MinOf(tokens) && maxWeight == MaxOf(tokens)
      ensures score == CantorPairing(minWeight, maxWeight) as real == BlueScore(tokens)
    {
      BlueAbsorbTracks(initial, tokens, weight, minWeight, maxWeight, token);
      tokens := tokens + [token];
      weight := weight + token as real;
      if token < minWeight {
        minWeight := token;
      }
      if token > maxWeight {
        maxWeight := token;
      }
      score := CantorPairing(minWeight, maxWeight) as real;
    }

    /** The virtual call `box->absorb(token)`: the box takes the token as `BoxSpec.Absorb` says. */
    method Absorb(token: u32) returns (score: real)
      requires Valid()
      modifies this
      ensures Valid()
      ensures tokens == old(tokens) + [token] && weight == old(weight) + token as real
      ensures score == ScoreOf(color, tokens)
      ensures (View(), score) == BoxSpec.Absorb(old(View()), token)
    {
      if color == Green {
        score := AbsorbGreen(token);
      } else {
        score := AbsorbBlue(token);
      }
    }
  }
}
