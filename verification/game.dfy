/**
 * The game on objects: a player takes a turn by finding the first lightest
 * box with `std::min_element` and letting it absorb the token, and `play`
 * runs a whole game on four freshly made boxes. Each is proved to do what
 * module GameSpec says on values.
 */
module Game {
  import opened Pairing
  import opened BoxSpec
  import opened Boxes
  import opened GameSpec

  /** No box appears twice in `boxes` (each `std::unique_ptr` owns its box). */
  predicate Distinct(boxes: seq<Box>)
  {
    forall i, j :: 0 <= i < j < |boxes| ==> boxes[i] != boxes[j]
  }

  /**
   * The boxes hold the abstract states `views`, in order, each keeping its
   * invariant.
   */
  ghost predicate Holds(boxes: seq<Box>, views: seq<BoxView>)
    reads boxes
  {
    && |boxes| == |views|
    && forall i :: 0 <= i < |boxes| ==> boxes[i].Valid() && boxes[i].View() == views[i]
  }

  /**
   * `std::min_element` with `*a < *b`: the scan keeps the first box seen and
   * replaces it only by a strictly lighter one, so it stops at the first
   * lightest box.
   */
  method FirstLightest(boxes: seq<Box>, ghost views: seq<BoxView>) returns (k: nat)
    requires |boxes| > 0 && Holds(boxes, views)
    ensures IsFirstLightest(views, k)
  {
    k := 0;
    var i := 1;
    while i < |boxes|
      invariant 1 <= i <= |boxes| && k < i
      invariant forall j :: 0 <= j < i ==> WeightOf(views[k]) <= WeightOf(views[j])
      invariant forall j :: 0 <= j < k ==> WeightOf(views[k]) < WeightOf(views[j])
    {
      if boxes[i].LighterThan(boxes[k]) {
        k := i;
      }
      i := i + 1;
    }
  }

  class Player {
    /** `score_`: the sum of the scores of every box this player has fed. */
    var score: real

    constructor ()
      ensures score == 0.0
    {
      score := 0.0;
    }

    /** `Player::getScore`. */
    function GetScore(): real
      reads this
    {
      score
    }

    /**
     * `Player::takeTurn`: the first lightest box absorbs the token, every
     * other box is left as it was, and the player's score grows by the score
     * the box reports, exactly as `GameSpec.Turn` says.
     */
    method TakeTurn(token: u32, boxes: seq<Box>, ghost views: seq<BoxView>)
      requires |boxes| > 0 && Holds(boxes, views) && Distinct(boxes)
      modifies this, boxes
      ensures Holds(boxes, Turn(views, token).0)
      ensures score == old(score) + Turn(views, token).1
      ensures score >= old(score)
    {
      var k := FirstLightest(boxes, views);
      TurnChangesOnlyLightest(views, token, k);
      var gain := boxes[k].Absorb(token);
      score := score + gain;
    }
  }

  /** The boxes of `play`: green 0.0, green 0.1, blue 0.2 and blue 0.3, in this order. */
  method NewBoxes() returns (boxes: seq<Box>)
    ensures fresh(boxes)
    ensures Holds(boxes, InitialBoxes) && Distinct(boxes)
  {
    var green0 := new Box.MakeGreen(0.0);
    var green1 := new Box.MakeGreen(0.1);
    var blue2 := new Box.MakeBlue(0.2);
    var blue3 := new Box.MakeBlue(0.3);
    boxes := [green0, green1, blue2, blue3];
    assert forall b | b in boxes :: b == green0 || b == green1 || b == blue2 || b == blue3;
    DistinctFour(green0, green1, blue2, blue3);
    HoldsFour(green0, green1, blue2, blue3, InitialBoxes);
  }

  lemma HoldsFour(a: Box, b: Box, c: Box, d: Box, views: seq<BoxView>)
    requires |views| == 4
    requires a.Valid() && b.Valid() && c.Valid() && d.Valid()
    requires a.View() == views[0] && b.View() == views[1] && c.View() == views[2] && d.View() == views[3]
    ensures Holds([a, b, c, d], views)
  {
  }

  lemma DistinctFour(a: Box, b: Box, c: Box, d: Box)
    requires a != b && a != c && a != d && b != c && b != d && c != d
    ensures Distinct([a, b, c, d])
  {
  }

  /**
   * `play`: two green boxes of weight 0.0 and 0.1 and two blue boxes of
   * weight 0.2 and 0.3, in this order, and two players; player A takes the
   * tokens at even positions and player B those at odd ones, in input order.
   * The result is the pair of their scores.
   */
  method Play(tokens: seq<u32>) returns (a: real, b: real)
    ensures (a, b) == FinalScores(tokens)
    ensures a >= 0.0 && b >= 0.0
  {
    var playerA := new Player();
    var playerB := new Player();
    var boxes := NewBoxes();
    ghost var g := GameState(InitialBoxes, 0.0, 0.0);
    var i := 0;
    while i < |tokens|
      invariant 0 <= i <= |tokens| && g == GameAfter(tokens[..i])
      invariant Holds(boxes, g.boxes)
      invariant playerA.score == g.scoreA && playerB.score == g.scoreB
    {
      PlayTurn(i, tokens[i], boxes, playerA, playerB, g);
      Advance(tokens, i);
      g := Step(g, i, tokens[i]);
      i := i + 1;
    }
    assert tokens[..i] == tokens;
    a, b := playerA.GetScore(), playerB.GetScore();
    ScoresNonNegative(tokens);
  }

  /**
   * One pass of the loop of `play`: turn `i` goes to player A when `i` is
   * even and to player B when it is odd, and the game moves on as
   * `GameSpec.Step` says.
   */
  method PlayTurn(i: nat, token: u32, boxes: seq<Box>, playerA: Player, playerB: Player, ghost g: GameState)
    requires |boxes| > 0 && Holds(boxes, g.boxes) && Distinct(boxes) && playerA != playerB
    requires playerA.score == g.scoreA && playerB.score == g.scoreB
    modifies boxes, playerA, playerB
    ensures Holds(boxes, Step(g, i, token).boxes)
    ensures playerA.score == Step(g, i, token).scoreA && playerB.score == Step(g, i, token).scoreB
  {
    StepIsTurn(g, i, token);
    PlayerIsNoBox(playerA, boxes);
    PlayerIsNoBox(playerB, boxes);
    if i % 2 == 0 {
      ghost var scoreB := playerB.score;
      playerA.TakeTurn(token, boxes, g.boxes);
      assert playerB.score == scoreB;
    } else {
      ghost var scoreA := playerA.score;
      playerB.TakeTurn(token, boxes, g.boxes);
      assert playerA.score == scoreA;
    }
  }

  lemma PlayerIsNoBox(p: Player, boxes: seq<Box>)
    ensures p !in set b: object | b in boxes
  {
  }

  /** The green-box test: after 10, 20 and 30, absorbing 40 scores (100 / 4)^2 = 625. */
  method GreenBoxAbsorbsFour() returns (score: real)
    ensures score == 625.0
  {
    var box := new Box.MakeGreen(0.0);
    score := box.Absorb(10);
    score := box.Absorb(20);
    score := box.Absorb(30);
    score := box.Absorb(40);
    assert box.weights == [10, 20, 30, 40];
    GreenScoreOfFourTokens();
  }

  /**
   * The blue-box test: after 5, 10 and 15, absorbing 20 scores the pairing of
   * 5 and 20, 345. A blue box's `Absorb` is `AbsorbBlue`, which is called
   * directly here.
   */
  method BlueBoxAbsorbsFour() returns (score: real)
    ensures score == CantorPairing(5, 20) as real == 345.0
  {
    var box := new Box.MakeBlue(0.0);
    score := box.AbsorbBlue(5);
    assert box.minWeight == 5 && box.maxWeight == 5;
    score := box.AbsorbBlue(10);
    assert box.minWeight == 5 && box.maxWeight == 10;
    score := box.AbsorbBlue(15);
    assert box.minWeight == 5 && box.maxWeight == 15;
    score := box.AbsorbBlue(20);
    assert box.minWeight == 5 && box.maxWeight == 20;
    BlueScoreOfFourTokens();
  }
}
