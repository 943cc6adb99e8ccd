# Asaphus box game, modelled in Dafny

The modelled program is a small game. There are four boxes:

- two green boxes, of initial weight 0.0 and 0.1;
- two blue boxes, of initial weight 0.2 and 0.3.

Two players, A and B, take turns, and A starts. On each turn the current
player feeds the next input token (a `uint32_t`) to the lightest box. The
box adds the token to its weight and reports a score, which the player adds
to their own.

- A green box scores the square of the mean of every token it has absorbed.
- A blue box scores `cantorPairing(min, max)` of the smallest and largest
  token it has absorbed. Its minimum starts at the largest `uint32_t` and
  its maximum at 0.
- `play` returns the two final scores.

The model has five modules:

- `Pairing` (pairing.dfy) is 32-bit unsigned arithmetic and `cantorPairing`
  as the program evaluates it. Every `+` and `*` wraps modulo 2^32, and the
  halving is applied to the already wrapped product. The model proves that
  the program's function equals Cantor's pairing function exactly when
  `k1 + k2 < 2^16`. From `k1 + k2 == 2^16` on they always differ. Where
  Cantor's value still fits in 32 bits, the program's result is short by
  exactly 2^31. For example, the program computes `(0, 65536)` as 98304,
  while Cantor's value is 2147581952.
- `BoxSpec` (box_spec.dfy) is a box as a value: its colour, its initial
  weight and the tokens it has absorbed, in order. It defines the weight
  and the two scores as functions of these.
- `Boxes` (boxes.dfy) is the boxes as objects whose fields are updated in
  place: `weight_`, the green box's `weights_`, the blue box's
  `min_weight_` and `max_weight_`. An invariant ties these fields to
  `BoxSpec`.
- `GameSpec` (game_spec.dfy) is the game as values:
  - which box a turn picks;
  - the state after any prefix of the tokens;
  - the properties of the game;
  - the regression oracles of the program's tests.
- `Game` (game.dfy) is `Player`, `takeTurn` (a `std::min_element` scan) and
  `play` (a loop over the tokens) on objects. Each is proved to compute
  exactly what `GameSpec` says.

The file's header comment says that a green box averages the three tokens
it absorbed most recently. The code averages every token the box has ever
absorbed, and the green-box test (625 for 10, 20, 30, 40) agrees with the
code. The model follows the code. `BoxSpec.GreenScoreOfFourTokens` proves
625, and 900 for the three-token window, so the two readings provably
differ.

## Model

| member | source | states |
|---|---|---|
| Pairing.Wrap | asaphus_coding_challenge.cpp:104-107 | reducing an exact result to `uint32_t` leaves values in range unchanged and otherwise differs by a multiple of 2^32 |
| Pairing.CantorPairing | asaphus_coding_challenge.cpp:104-107 | `cantorPairing` evaluated in `uint32_t`: while `k1 + k2 < 2^16` no step wraps, so the result is Cantor's pairing `(k1+k2)(k1+k2+1)/2 + k2`, and that value fits in 32 bits |
| Pairing.PairingDiffersFrom65536 | asaphus_coding_challenge.cpp:104-107 | for every pair with `k1 + k2 >= 2^16` the result is not Cantor's value; where Cantor's value fits in 32 bits, the result is short by exactly 2^31, because the product wrapped once before halving |
| Pairing.PairingIsCantorExactlyBelow65536 | asaphus_coding_challenge.cpp:104-107 | `cantorPairing(k1, k2)` equals Cantor's pairing function if and only if `k1 + k2 < 2^16` |
| Pairing.PairingWrapsAt65536 | asaphus_coding_challenge.cpp:104-107 | at (0, 65536) the product wraps before it is halved: the program yields 98304, while Cantor's value 2147581952 would fit in 32 bits |
| Pairing.PairingOfZeroOne | asaphus_coding_challenge.cpp:14 | the example of the header comment holds: pairing(0, 1) = 2 |
| BoxSpec.MinOf | asaphus_coding_challenge.cpp:92-93 | the smallest absorbed token is one of the tokens and no token is smaller |
| BoxSpec.MaxOf | asaphus_coding_challenge.cpp:94-95 | the largest absorbed token is one of the tokens and no token is larger |
| BoxSpec.GreenScore | asaphus_coding_challenge.cpp:75-77 | the squared mean of the tokens is never negative |
| BoxSpec.BlueScore | asaphus_coding_challenge.cpp:96 | the pairing of the extremes is a `uint32_t`: between 0 and 2^32 - 1 |
| BoxSpec.WeightOf | asaphus_coding_challenge.cpp:53 | a box's weight, its initial weight plus its tokens, is never below its initial weight |
| BoxSpec.Absorb | asaphus_coding_challenge.cpp:58 | the virtual `absorb` on values: the box keeps its colour and initial weight, appends exactly the token, and reports the score of its colour over the new history, which is never negative |
| BoxSpec.AbsorbRaisesWeight | asaphus_coding_challenge.cpp:74 | absorbing raises the box's weight by exactly the token (line 91 for a blue box) |
| BoxSpec.AppendOne | asaphus_coding_challenge.cpp:91-95 | one more token raises the sum by the token; the extremes kept from the sentinels (the largest `uint32_t` and 0) change only when the token passes them, and then agree with recomputing them |
| BoxSpec.GreenScoreOfFourTokens | asaphus_coding_challenge.cpp:180-189 | after 10, 20, 30, 40 the green score is 625 (the mean of all four tokens), not 900 (the mean of the last three) |
| BoxSpec.BlueScoreOfFourTokens | asaphus_coding_challenge.cpp:191-203 | after 5, 10, 15, 20 the blue score is the pairing of 5 and 20, which is 345 |
| Boxes.GreenAbsorbTracks | asaphus_coding_challenge.cpp:73-74 | recording the token and adding it to the weight keeps a green box's fields in agreement with its history |
| Boxes.BlueAbsorbTracks | asaphus_coding_challenge.cpp:91-95 | adding the token to the weight and moving the extremes only when the token passes them keeps a blue box's fields in agreement with its history; the new extremes are the true minimum and maximum |
| Boxes.SquaredMean | asaphus_coding_challenge.cpp:75-77 | the loop that accumulates the recorded tokens from 0.0, divided by their count and squared, equals `GreenScore` |
| Boxes.Box.MakeGreen | asaphus_coding_challenge.cpp:131-134 | a new green box has the given weight, no recorded tokens, and a valid state |
| Boxes.Box.MakeBlue | asaphus_coding_challenge.cpp:136-139 | a new blue box has the given weight, and its extremes start at the sentinels: the largest `uint32_t` for the minimum and 0 for the maximum (lines 100-101) |
| Boxes.Box.AbsorbGreen | asaphus_coding_challenge.cpp:71-78 | records the token, raises the weight by it, keeps the invariant, and returns the squared mean of all recorded tokens |
| Boxes.Box.AbsorbBlue | asaphus_coding_challenge.cpp:89-97 | raises the weight by the token; lowers the minimum only for a smaller token and raises the maximum only for a larger one, so they equal the true extremes; returns their pairing |
| Boxes.Box.Absorb | asaphus_coding_challenge.cpp:58 | the virtual call appends the token, raises the weight by it, returns the score of the box's colour over its new history, changes the box exactly as `BoxSpec.Absorb` says, and keeps the invariant |
| GameSpec.Lightest | asaphus_coding_challenge.cpp:117-121 | the chosen position is the first lightest box: no box is strictly lighter, and every earlier box is strictly heavier |
| GameSpec.LightestIsUnique | asaphus_coding_challenge.cpp:117-121 | the selection is deterministic: only one position is the first lightest |
| GameSpec.Turn | asaphus_coding_challenge.cpp:114-123 | a turn keeps the number of boxes |
| GameSpec.TurnChangesOnlyLightest | asaphus_coding_challenge.cpp:114-123 | a turn changes only the first lightest box, which gains the token and exactly that weight; the player gains its new score, which is never negative |
| GameSpec.Step | asaphus_coding_challenge.cpp:153-156 | one pass of the loop keeps the four boxes and never lowers either score |
| GameSpec.StepIsTurn | asaphus_coding_challenge.cpp:151-157 | turn `i` is played as `takeTurn`; its gain goes to A on even turns and to B on odd ones, and the other player's score is unchanged |
| GameSpec.GameAfter | asaphus_coding_challenge.cpp:141-157 | the game always has four boxes |
| GameSpec.BoxesKeepKindAndInitialWeight | asaphus_coding_challenge.cpp:143-147 | after any tokens the boxes are still green 0.0, green 0.1, blue 0.2, blue 0.3, in this order |
| GameSpec.FinalScores | asaphus_coding_challenge.cpp:161 | the pair `play` returns: both scores are non-negative |
| GameSpec.NoTokensNoScore | asaphus_coding_challenge.cpp:215-221 | with no tokens both scores are 0 |
| GameSpec.ScoresNonNegative | asaphus_coding_challenge.cpp:205-248 | for every input both scores are non-negative (the uniform, extreme, alternating and large-input tests) |
| GameSpec.ScoresNeverDecrease | asaphus_coding_challenge.cpp:151-157 | one more token raises the current player's score by a non-negative gain and leaves the other's score unchanged |
| GameSpec.Chosen | asaphus_coding_challenge.cpp:117-122 | the box each turn chooses is always one of the four boxes |
| GameSpec.EachTokenUsedOnceInOrder | asaphus_coding_challenge.cpp:151-157 | every box holds exactly the tokens whose turns chose it, in input order; since every chosen box is one of the four, each token lands in exactly one box |
| GameSpec.TurnAddsOneToken | asaphus_coding_challenge.cpp:114-123 | a turn adds exactly one copy of its token to what the four boxes hold |
| GameSpec.TokensArePartitioned | asaphus_coding_challenge.cpp:151-157 | together the four boxes hold exactly the tokens played, as a multiset: no token is lost or duplicated |
| GameSpec.ScoresSplitByParity | asaphus_coding_challenge.cpp:151-157 | A's score is the sum of the gains of even-numbered turns and B's the sum of the odd-numbered ones |
| GameSpec.TotalWeightIsInitialPlusTokens | asaphus_coding_challenge.cpp:74 | weight is conserved: the boxes together weigh 0.6 plus the sum of the tokens played |
| GameSpec.Advance | asaphus_coding_challenge.cpp:151-157 | the state after `n + 1` tokens is the state after `n` followed by turn `n` on token `n` |
| GameSpec.FibonacciFinalScores | asaphus_coding_challenge.cpp:164-178 | on 1, 1, 2, 3, 5, 8, 13, 21 the first four tokens give (13, 25) and all eight give (155, 366.25) |
| GameSpec.Fibonacci4Scores | asaphus_coding_challenge.cpp:164-170 | `play` of 1, 1, 2, 3 returns (13, 25) |
| GameSpec.Fibonacci8Scores | asaphus_coding_challenge.cpp:172-178 | `play` of 1, 1, 2, 3, 5, 8, 13, 21 returns (155, 366.25) |
| Game.FirstLightest | asaphus_coding_challenge.cpp:117-121 | the `std::min_element` scan with strict `<` returns the first lightest box |
| Game.Player.constructor | asaphus_coding_challenge.cpp:127 | a player starts with score 0 |
| Game.Player.TakeTurn | asaphus_coding_challenge.cpp:114-123 | the boxes change as `GameSpec.Turn` says, and the player's score grows by exactly the turn's gain, which is never negative |
| Game.NewBoxes | asaphus_coding_challenge.cpp:143-147 | makes four distinct fresh boxes holding green 0.0, green 0.1, blue 0.2 and blue 0.3 |
| Game.PlayTurn | asaphus_coding_challenge.cpp:153-156 | on even turns player A plays and on odd ones player B, and the boxes and scores become `GameSpec.Step` of the state |
| Game.Play | asaphus_coding_challenge.cpp:141-162 | returns exactly `GameSpec.FinalScores` of the tokens, and both scores are non-negative |
| Game.GreenBoxAbsorbsFour | asaphus_coding_challenge.cpp:180-189 | a new green box fed 10, 20, 30, 40 reports 625 on the last token |
| Game.BlueBoxAbsorbsFour | asaphus_coding_challenge.cpp:191-203 | a new blue box fed 5, 10, 15, 20 reports the pairing of 5 and 20, which is 345 |

## Left out

- `double` is modelled as exact `real`. IEEE rounding is not modelled, so
  `0.1 + 0.2` is exactly 0.3. The tie-breaks between box weights and the
  test values hold for the exact values. The green test compares with
  `Approx`; the model proves exact equality.
- `GreenBox::weights_` is a `std::vector<double>` of tokens. Each
  `uint32_t` converts to `double` exactly, so the model keeps the tokens as
  `u32` values.
- The class hierarchy (`Box`, `GreenBox`, `BlueBox`), the `std::unique_ptr`
  ownership and the virtual dispatch of `absorb` are not modelled as such.
  One class `Box` holds the fields of both kinds, and a constant colour
  selects the behaviour. The box invariant keeps a green box's blue fields
  at their sentinels and a blue box's green token list empty.
- `Boxes.Box.LighterThan` models `Box::operator<` (line 56). It has no
  contract of its own. `Game.FirstLightest` states what it is used for.
- The `std::cout` line of `play` (lines 159-160) is output only and is not
  modelled.
- `Game.Player.GetScore` (line 124) is a plain accessor. It has no
  contract beyond returning the field.
- The Catch test framework, the test registration macros and
  `CATCH_CONFIG_MAIN` are not modelled. The tests at lines 164-248 become
  the lemmas and methods listed above.
- The doc comment's three-token window for green boxes (line 13) is not
  modelled, because the code averages all tokens.
- `size_t` loop counter overflow in `play` is not modelled. An input with
  more than 2^64 tokens cannot exist.
