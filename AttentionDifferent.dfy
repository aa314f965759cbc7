/**
 * The easy "find the different one" game: ten rounds, each a 3 × 3 grid of
 * one symbol with a single different symbol hidden among them; a tap on the
 * different item is a hit, any other tap an error.
 */
module AttentionDifferent {
  import opened Wrappers
  import opened JsMath

  const TotalRounds: nat := 10
  const GridSize: nat := 9

  /** A symbol and its look-alike. */
  datatype SymbolPair = SymbolPair(normal: string, different: string)

  const Pairs: seq<SymbolPair> := [
    SymbolPair("\U{1F34E}", "\U{1F34F}"),          // red and green apple
    SymbolPair("\U{25CF}", "\U{25CB}"),            // filled and hollow circle
    SymbolPair("\U{25A0}", "\U{25A1}"),            // filled and hollow square
    SymbolPair("\U{2B50}", "\U{1F31F}"),           // star and glowing star
    SymbolPair("\U{1F535}", "\U{1F534}"),          // blue and red circle
    SymbolPair("\U{1F436}", "\U{1F431}"),          // dog and cat
    SymbolPair("\U{1F697}", "\U{1F6B2}"),          // car and bicycle
    SymbolPair("\U{1F33B}", "\U{1F338}"),          // sunflower and blossom
    SymbolPair("\U{1F366}", "\U{1F370}"),          // ice cream and cake
    SymbolPair("\U{2600}\U{FE0F}", "\U{1F319}")    // sun and moon
  ]

  datatype GridItem = GridItem(id: nat, content: string, isDifferent: bool)

  /** Every pair shows two distinct symbols, so the different item can be told apart. */
  lemma PairsAreDistinguishable()
    ensures |Pairs| == 10
    ensures forall i :: 0 <= i < |Pairs| ==> Pairs[i].normal != Pairs[i].different
  {
    forall i | 0 <= i < |Pairs| ensures Pairs[i].normal != Pairs[i].different {
      assert Pairs[i].normal[0] != Pairs[i].different[0];
    }
  }

  /** Nine items with ids 0..8; only the one at `pos` is different and shows
      the pair's different symbol, the others its normal one. */
  predicate GridOf(grid: seq<GridItem>, pair: SymbolPair, pos: nat) {
    && |grid| == GridSize && pos < GridSize
    && forall i :: 0 <= i < GridSize ==>
         grid[i] == GridItem(i, if i == pos then pair.different else pair.normal, i == pos)
  }

  /** `generateRoundGrid` for the draws of the pair and of the different position. */
  method GenerateRoundGrid(pairDraw: real, posDraw: real) returns (grid: seq<GridItem>)
    requires IsDraw(pairDraw) && IsDraw(posDraw)
    ensures GridOf(grid, Pairs[Pick(pairDraw, |Pairs|)], Pick(posDraw, GridSize))
    ensures forall i :: 0 <= i < |grid| ==> grid[i].id == i
    ensures forall i :: 0 <= i < |grid| ==> (grid[i].isDifferent <==> i == Pick(posDraw, GridSize))
  {
    var pair := Pairs[Pick(pairDraw, |Pairs|)];
    var differentPos := Pick(posDraw, GridSize);
    grid := [];
    for i := 0 to GridSize
      invariant |grid| == i
      invariant forall j :: 0 <= j < i ==>
        grid[j] == GridItem(j, if j == differentPos then pair.different else pair.normal, j == differentPos)
    {
      if i == differentPos {
        grid := grid + [GridItem(i, pair.different, true)];
      } else {
        grid := grid + [GridItem(i, pair.normal, false)];
      }
    }
  }

  /** A grid of the game has exactly one different item. */
  lemma ExactlyOneDifferent(grid: seq<GridItem>, pair: SymbolPair, pos: nat, i: nat, j: nat)
    requires GridOf(grid, pair, pos)
    requires i < |grid| && j < |grid| && grid[i].isDifferent && grid[j].isDifferent
    ensures i == j == pos
  {
  }

  /** `Number(x.toFixed(1))` for a non-negative `x`. */
  function OneDecimal(x: real): real {
    Round(x * 10.0) as real / 10.0
  }

  /** The stored accuracy: hits over `max(1, attempts)`, in percent. */
  function Accuracy(hits: nat, attempts: nat): (a: real)
    requires hits <= attempts
    ensures 0.0 <= a <= 100.0
  {
    var fraction := hits as real / (if attempts > 1 then attempts else 1) as real;
    assert 0.0 <= fraction <= 1.0;
    var k := Round(fraction * 100.0 * 10.0);
    assert 0 <= k <= 1000;
    OneDecimal(fraction * 100.0)
  }

  datatype SavedResult = SavedResult(
    attempts: nat, hits: nat, errors: nat, completed: bool, timeSpentSeconds: nat, accuracy: real)

  class Game {
    var grid: seq<GridItem>
    var currentIndex: nat
    var score: nat
    var errors: nat
    var timer: nat
    /** `attemptsRef`: taps so far. */
    var attempts: nat
    var selectedId: Option<nat>
    var feedback: Option<bool>
    var isActive: bool
    var isGameComplete: bool
    var saved: Option<SavedResult>
    /** The pair and the different position the current grid was built from. */
    ghost var pair: SymbolPair
    ghost var differentPos: nat

    ghost predicate Valid()
      reads this
    {
      && GridOf(grid, pair, differentPos)
      && currentIndex < TotalRounds
      // every tap is one attempt and exactly one hit or error
      && attempts == score + errors
      && score + errors == currentIndex + (if feedback.Some? || isGameComplete then 1 else 0)
      && (feedback.Some? ==> isActive && selectedId.Some?)
      && (isGameComplete ==> !isActive && feedback.None? && currentIndex == TotalRounds - 1)
      && (isGameComplete ==> saved.Some? && saved.value.completed)
    }

    /** `startNewSession`: the counters reset, a first grid, active once the session row exists. */
    constructor (pairDraw: real, posDraw: real, sessionCreated: bool)
      requires IsDraw(pairDraw) && IsDraw(posDraw)
      ensures Valid()
      ensures GridOf(grid, Pairs[Pick(pairDraw, |Pairs|)], Pick(posDraw, GridSize))
      ensures currentIndex == 0 && score == 0 && errors == 0 && timer == 0 && attempts == 0
      ensures isActive == sessionCreated && !isGameComplete && feedback.None? && saved.None?
    {
      var g := GenerateRoundGrid(pairDraw, posDraw);
      grid := g;
      pair, differentPos := Pairs[Pick(pairDraw, |Pairs|)], Pick(posDraw, GridSize);
      currentIndex, score, errors, timer, attempts := 0, 0, 0, 0, 0;
      selectedId := None;
      feedback := None;
      isActive := sessionCreated;
      isGameComplete := false;
      saved := None;
    }

    /** One second of the interval timer, which runs while the game is active. */
    method Tick()
      requires Valid()
      modifies this
      ensures Valid()
      ensures timer == if old(isActive) && !old(isGameComplete) then old(timer) + 1 else old(timer)
      ensures grid == old(grid) && currentIndex == old(currentIndex) && score == old(score) && errors == old(errors)
      ensures feedback == old(feedback) && isActive == old(isActive) && saved == old(saved)
    {
      if isActive && !isGameComplete {
        timer := timer + 1;
      }
    }

    /**
     * `handleTap(item)`: ignored while inactive or while feedback shows;
     * otherwise one more attempt, a hit exactly when the item is the
     * different one and an error otherwise.
     */
    method Tap(position: nat)
      requires Valid() && position < |grid|
      modifies this
      ensures Valid()
      ensures !old(isActive) || old(feedback).Some? ==>
        attempts == old(attempts) && score == old(score) && errors == old(errors) && feedback == old(feedback)
      ensures old(isActive) && old(feedback).None? ==>
        var correct := grid[position].isDifferent;
        && (correct <==> position == differentPos)
        && attempts == old(attempts) + 1
        && selectedId == Some(grid[position].id) && feedback == Some(correct)
        && score == old(score) + (if correct then 1 else 0)
        && errors == old(errors) + (if correct then 0 else 1)
      ensures grid == old(grid) && currentIndex == old(currentIndex) && timer == old(timer)
      ensures isActive == old(isActive) && isGameComplete == old(isGameComplete) && saved == old(saved)
    {
      if !isActive || feedback.Some? {
        return;
      }
      var item := grid[position];
      attempts := attempts + 1;
      selectedId := Some(item.id);
      if item.isDifferent {
        score := score + 1;
      } else {
        errors := errors + 1;
      }
      feedback := Some(item.isDifferent);
    }

    /**
     * The timer 0.8 s after a tap: a new grid for the next round, or after
     * the tenth round the completed game with ten attempts.
     */
    method ResolveTap(pairDraw: real, posDraw: real)
      requires Valid() && feedback.Some? && IsDraw(pairDraw) && IsDraw(posDraw)
      modifies this
      ensures Valid()
      ensures feedback.None? && selectedId.None?
      ensures old(currentIndex) + 1 < TotalRounds ==>
        && currentIndex == old(currentIndex) + 1 && isActive && !isGameComplete && saved == old(saved)
        && GridOf(grid, Pairs[Pick(pairDraw, |Pairs|)], Pick(posDraw, GridSize))
      ensures old(currentIndex) + 1 == TotalRounds ==>
        && isGameComplete && !isActive && currentIndex == old(currentIndex) && grid == old(grid)
        && score + errors == TotalRounds
        && saved == Some(SavedResult(TotalRounds, score, errors, true, timer,
                                     OneDecimal((score as real / TotalRounds as real) * 100.0)))
      ensures score == old(score) && errors == old(errors) && timer == old(timer) && attempts == old(attempts)
    {
      feedback := None;
      selectedId := None;
      if currentIndex + 1 < TotalRounds {
        currentIndex := currentIndex + 1;
        var g := GenerateRoundGrid(pairDraw, posDraw);
        grid := g;
        pair, differentPos := Pairs[Pick(pairDraw, |Pairs|)], Pick(posDraw, GridSize);
      } else {
        isActive := false;
        isGameComplete := true;
        saved := Some(SavedResult(TotalRounds, score, errors, true, timer,
                                  OneDecimal((score as real / TotalRounds as real) * 100.0)));
      }
    }

    /**
     * `handleExit` with the player's confirmation: leaving an active,
     * unfinished game stores the partial result, whose attempts are the taps
     * so far and whose accuracy therefore stays within 0..100.
     */
    method Exit(confirmed: bool)
      requires Valid()
      modifies this
      ensures old(isActive) && !old(isGameComplete) && confirmed ==>
        && !isActive
        && saved == Some(SavedResult(score + errors, score, errors, false, timer, Accuracy(score, score + errors)))
        && 0.0 <= saved.value.accuracy <= 100.0
      ensures !(old(isActive) && !old(isGameComplete) && confirmed) ==> isActive == old(isActive) && saved == old(saved)
      ensures currentIndex == old(currentIndex) && score == old(score) && errors == old(errors) && timer == old(timer)
    {
      if isActive && !isGameComplete && confirmed {
        saved := Some(SavedResult(attempts, score, errors, false, timer, Accuracy(score, attempts)));
        isActive := false;
      }
    }
  }
}
