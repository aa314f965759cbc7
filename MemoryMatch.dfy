/**
 * The easy Memory Match game: eight face-up cards (four icons, twice each)
 * are shuffled in place, shown for a preview, then turned face down; the
 * player turns two at a time, a matching pair stays matched, a mismatch is
 * turned back, and the level ends when the fourth pair is found.
 */
module MemoryMatch {
  import opened Wrappers
  import opened JsMath

  const TotalPairs: nat := 4
  /** Apple, banana, cherries, grapes. */
  const CardIcons: seq<string> := ["\U{1F34E}", "\U{1F34C}", "\U{1F352}", "\U{1F347}"]

  datatype Card = Card(id: nat, content: string, isFlipped: bool, isMatched: bool)

  /** The `setTimeout` continuation waiting to run, if any. */
  datatype Pending =
    | NoTimer
    | Preview                          // 1200 ms after the board is laid out
    | MatchTimer(a: nat, b: nat)       // 300 ms after a matching second card
    | MismatchTimer(a: nat, b: nat)    // 700 ms after a mismatching second card

  /** The `game_level_results` row written when the level is complete. */
  datatype LevelResult = LevelResult(attempts: nat, hits: nat, errors: nat, timeSpentSeconds: nat)

  /** The deck before shuffling: the icons twice over, ids 0..7, all face up. */
  function InitialDeck(): (d: seq<Card>)
    ensures |d| == 2 * TotalPairs
    ensures forall i :: 0 <= i < |d| ==> d[i].id == i && d[i].isFlipped && !d[i].isMatched
  {
    var icons := CardIcons + CardIcons;
    seq(|icons|, i requires 0 <= i < |icons| => Card(i, icons[i], true, false))
  }

  function Swap<T>(s: seq<T>, i: nat, j: nat): (r: seq<T>)
    requires i < |s| && j < |s|
    ensures |r| == |s| && r[i] == s[j] && r[j] == s[i]
    ensures forall k :: 0 <= k < |s| && k != i && k != j ==> r[k] == s[k]
  {
    s[i := s[j]][j := s[i]]
  }

  /** The positions drawn by the shuffle: step `m` swaps position `n - 1 - m`
      with `Pick(draws[m], n - m)`, a position at or below it. */
  predicate ShuffleDraws(draws: seq<real>, n: nat) {
    |draws| + 1 == n && forall m :: 0 <= m < |draws| ==> IsDraw(draws[m])
  }

  /** The deck after the first `k` steps of the Fisher-Yates loop. */
  function ShuffleSteps<T>(s: seq<T>, draws: seq<real>, k: nat): (r: seq<T>)
    requires ShuffleDraws(draws, |s|) && k <= |draws|
    ensures |r| == |s|
    decreases k
  {
    if k == 0 then s
    else
      var i := |s| - k;
      Swap(ShuffleSteps(s, draws, k - 1), i, Pick(draws[k - 1], i + 1))
  }

  /** Every step only exchanges two cards: the deck keeps its cards. */
  lemma {:induction false} ShufflePermutes<T>(s: seq<T>, draws: seq<real>, k: nat)
    requires ShuffleDraws(draws, |s|) && k <= |draws|
    ensures multiset(ShuffleSteps(s, draws, k)) == multiset(s)
    decreases k
  {
    if k > 0 {
      ShufflePermutes(s, draws, k - 1);
      var t := ShuffleSteps(s, draws, k - 1);
      var i := |s| - k;
      var j := Pick(draws[k - 1], i + 1);
      assert ShuffleSteps(s, draws, k) == Swap(t, i, j);
      SwapPermutes(t, i, j);
    }
  }

  lemma SwapPermutes<T>(s: seq<T>, i: nat, j: nat)
    requires i < |s| && j < |s|
    ensures multiset(Swap(s, i, j)) == multiset(s)
  {
    var a := s[i := s[j]];
    assert multiset(a) == multiset(s) - multiset{s[i]} + multiset{s[j]};
    assert multiset(a[j := s[i]]) == multiset(a) - multiset{a[j]} + multiset{s[i]};
  }

  /** The in-place shuffle of `setupBoard`: for `i` from the last position
      down to 1, swap `deck[i]` with a drawn position `j <= i`. */
  method Shuffle(deck: array<Card>, draws: seq<real>)
    requires ShuffleDraws(draws, deck.Length)
    modifies deck
    ensures deck[..] == ShuffleSteps(old(deck[..]), draws, |draws|)
    ensures multiset(deck[..]) == multiset(old(deck[..]))
  {
    var i := deck.Length - 1;
    while i > 0
      invariant 0 <= i <= deck.Length - 1
      invariant deck[..] == ShuffleSteps(old(deck[..]), draws, deck.Length - 1 - i)
    {
      var j := Pick(draws[deck.Length - 1 - i], i + 1);
      deck[i], deck[j] := deck[j], deck[i];
      i := i - 1;
    }
    ShufflePermutes(old(deck[..]), draws, |draws|);
  }

  /** Number of matched cards. */
  function MatchedCount(cards: seq<Card>): (n: nat)
    ensures n <= |cards|
  {
    if cards == [] then 0
    else MatchedCount(cards[..|cards| - 1]) + (if cards[|cards| - 1].isMatched then 1 else 0)
  }

  /** Replacing one card changes the count by that card's own contribution. */
  lemma {:induction false} MatchedCountUpdate(cards: seq<Card>, i: nat, c: Card)
    requires i < |cards|
    ensures MatchedCount(cards[i := c]) + (if cards[i].isMatched then 1 else 0)
            == MatchedCount(cards) + (if c.isMatched then 1 else 0)
    decreases |cards|
  {
    var n := |cards|;
    var u := cards[i := c];
    if i < n - 1 {
      assert u[..n - 1] == cards[..n - 1][i := c];
      MatchedCountUpdate(cards[..n - 1], i, c);
    } else {
      assert u[..n - 1] == cards[..n - 1];
    }
  }

  /** The deck once a face-up pair of unmatched cards is found: those two
      cards become matched, the others stay as they are, and the count of
      matched cards grows by two. */
  function MatchPair(cards: seq<Card>, a: nat, b: nat): (r: seq<Card>)
    requires a < |cards| && b < |cards| && a != b
    requires !cards[a].isMatched && !cards[b].isMatched
    ensures |r| == |cards|
    ensures forall i :: 0 <= i < |r| ==>
      r[i] == if i == a || i == b then cards[i].(isMatched := true) else cards[i]
    ensures MatchedCount(r) == MatchedCount(cards) + 2
  {
    var c1 := cards[a := cards[a].(isMatched := true)];
    MatchedCountUpdate(cards, a, c1[a]);
    var c2 := c1[b := cards[b].(isMatched := true)];
    MatchedCountUpdate(c1, b, c2[b]);
    c2
  }

  lemma MatchedCountAllMatched(cards: seq<Card>)
    requires MatchedCount(cards) == |cards|
    ensures forall i :: 0 <= i < |cards| ==> cards[i].isMatched
  {
    if cards != [] {
      MatchedCountAllMatched(cards[..|cards| - 1]);
      forall i | 0 <= i < |cards| - 1 ensures cards[i].isMatched {
        assert cards[i] == cards[..|cards| - 1][i];
      }
    }
  }

  class Game {
    var cards: seq<Card>
    var flipped: seq<nat>
    var moves: nat
    var hits: nat
    var errors: nat
    var timer: nat
    var isActive: bool
    var isLevelComplete: bool
    var lockBoard: bool
    var pending: Pending
    /** What `handleLevelComplete` stores; `None` until the level is complete. */
    var saved: Option<LevelResult>
    /** The message shown instead of the board. */
    var errorMessage: Option<string>

    /** The rules the click and timer handlers keep. */
    predicate Valid()
      reads this
    {
      && |cards| == 2 * TotalPairs
      && |flipped| <= 2
      && (forall k :: 0 <= k < |flipped| ==>
            flipped[k] < |cards| && cards[flipped[k]].isFlipped && !cards[flipped[k]].isMatched)
      && (|flipped| == 2 ==> flipped[0] != flipped[1])
      && (forall i :: 0 <= i < |cards| && cards[i].isMatched ==> cards[i].isFlipped)
      // two matched cards per pair found
      && MatchedCount(cards) == 2 * hits
      // a pair waits for its timer with the board locked
      && ((pending.MatchTimer? || pending.MismatchTimer?) <==> |flipped| == 2)
      && (|flipped| == 2 ==> lockBoard && pending.a == flipped[0] && pending.b == flipped[1])
      && (pending.MatchTimer? ==> cards[pending.a].content == cards[pending.b].content)
      && (pending.MismatchTimer? ==> cards[pending.a].content != cards[pending.b].content)
      && (pending.Preview? ==> lockBoard && !isActive && flipped == [] && hits == 0)
      // the level is complete exactly when the fourth pair is found
      && (isLevelComplete <==> hits == TotalPairs)
      && (isLevelComplete ==> !isActive && saved.Some?)
    }

    /** `startNewSession`: the counters reset; when the session row is created,
        `setupBoard` lays the shuffled deck face up and locks the board for the
        preview; otherwise the error message shows, no board is laid and the
        board is left unlocked. */
    constructor (draws: seq<real>, sessionCreated: bool)
      requires ShuffleDraws(draws, 2 * TotalPairs)
      ensures flipped == [] && moves == 0 && hits == 0 && errors == 0 && timer == 0
      ensures !isActive && !isLevelComplete && saved.None?
      ensures sessionCreated ==>
        && Valid()
        && multiset(cards) == multiset(InitialDeck())
        && cards == ShuffleSteps(InitialDeck(), draws, |draws|)
        && (forall i :: 0 <= i < |cards| ==> cards[i].isFlipped && !cards[i].isMatched)
        && lockBoard && pending == Preview && errorMessage.None?
      ensures !sessionCreated ==>
        cards == [] && !lockBoard && pending == NoTimer && errorMessage == Some("Error al crear sesión de juego")
    {
      flipped := [];
      moves, hits, errors, timer := 0, 0, 0, 0;
      isActive, isLevelComplete := false, false;
      saved := None;
      if sessionCreated {
        var init := InitialDeck();
        var deck := new Card[|init|](i requires 0 <= i < |init| => init[i]);
        assert deck[..] == init;
        Shuffle(deck, draws);
        cards := deck[..];
        lockBoard := true;
        pending := Preview;
        errorMessage := None;
      } else {
        cards := [];
        lockBoard := false;
        pending := NoTimer;
        errorMessage := Some("Error al crear sesión de juego");
      }
      new;
      if sessionCreated {
        forall i | 0 <= i < |cards| ensures cards[i].isFlipped && !cards[i].isMatched {
          assert cards[i] in multiset(InitialDeck());
        }
        NoneMatched(cards);
      }
    }

    static lemma NoneMatched(cards: seq<Card>)
      requires forall i :: 0 <= i < |cards| ==> !cards[i].isMatched
      ensures MatchedCount(cards) == 0
    {
      if cards != [] {
        NoneMatched(cards[..|cards| - 1]);
      }
    }

    /** The end of the preview: every card face down, the board open, the clock running. */
    method EndPreview()
      requires Valid() && pending == Preview
      modifies this
      ensures Valid()
      ensures |cards| == |old(cards)|
      ensures forall i :: 0 <= i < |cards| ==> cards[i] == old(cards[i]).(isFlipped := false)
      ensures !lockBoard && isActive && pending == NoTimer
      ensures flipped == old(flipped) && moves == old(moves) && hits == old(hits) && errors == old(errors)
      ensures timer == old(timer) && isLevelComplete == old(isLevelComplete) && saved == old(saved)
      ensures errorMessage == old(errorMessage)
    {
      var cs := cards;
      var faceDown := seq(|cs|, i requires 0 <= i < |cs| => cs[i].(isFlipped := false));
      FaceDownKeepsMatches(cs, faceDown);
      NoMatchedWhenCountZero(cs);
      cards := faceDown;
      lockBoard := false;
      isActive := true;
      pending := NoTimer;
    }

    static lemma NoMatchedWhenCountZero(cards: seq<Card>)
      requires MatchedCount(cards) == 0
      ensures forall i :: 0 <= i < |cards| ==> !cards[i].isMatched
    {
      if cards != [] {
        NoMatchedWhenCountZero(cards[..|cards| - 1]);
        forall i | 0 <= i < |cards| - 1 ensures !cards[i].isMatched {
          assert cards[i] == cards[..|cards| - 1][i];
        }
      }
    }

    static lemma FaceDownKeepsMatches(cards: seq<Card>, faceDown: seq<Card>)
      requires |faceDown| == |cards|
      requires forall i :: 0 <= i < |cards| ==> faceDown[i] == cards[i].(isFlipped := false)
      ensures MatchedCount(faceDown) == MatchedCount(cards)
    {
      if cards != [] {
        FaceDownKeepsMatches(cards[..|cards| - 1], faceDown[..|faceDown| - 1]);
      }
    }

    /** One second of the interval timer, which runs while the game is active. */
    method Tick()
      requires Valid()
      modifies this
      ensures Valid()
      ensures timer == (if old(isActive) && !old(isLevelComplete) then old(timer) + 1 else old(timer))
      ensures cards == old(cards) && flipped == old(flipped) && pending == old(pending)
      ensures moves == old(moves) && hits == old(hits) && errors == old(errors) && saved == old(saved)
      ensures isActive == old(isActive) && isLevelComplete == old(isLevelComplete) && lockBoard == old(lockBoard)
      ensures errorMessage == old(errorMessage)
    {
      if isActive && !isLevelComplete {
        timer := timer + 1;
      }
    }

    /**
     * `handleCardClick(index)`: ignored while the board is locked or the game
     * inactive, and for a missing, face-up or matched card; otherwise the card
     * is turned, and a second turned card locks the board, counts a move and
     * schedules the pair's resolution.
     */
    method ClickCard(index: int)
      requires Valid()
      modifies this
      ensures Valid()
      ensures var ignored := old(lockBoard) || !old(isActive) || !(0 <= index < |old(cards)|)
                             || old(cards)[index].isFlipped || old(cards)[index].isMatched;
        && (ignored ==> cards == old(cards) && flipped == old(flipped) && moves == old(moves) && pending == old(pending)
                        && lockBoard == old(lockBoard))
        && (!ignored ==>
              && cards == old(cards)[index := old(cards)[index].(isFlipped := true)]
              && flipped == old(flipped) + [index]
              && (|flipped| == 2 ==>
                    && lockBoard && moves == old(moves) + 1
                    && pending == (if cards[flipped[0]].content == cards[index].content
                                   then MatchTimer(flipped[0], index) else MismatchTimer(flipped[0], index)))
              && (|flipped| < 2 ==> moves == old(moves) && pending == old(pending) && lockBoard == old(lockBoard)))
      ensures hits == old(hits) && errors == old(errors) && timer == old(timer) && saved == old(saved)
      ensures isActive == old(isActive) && isLevelComplete == old(isLevelComplete)
      ensures errorMessage == old(errorMessage)
    {
      if lockBoard || !isActive {
        return;
      }
      if !(0 <= index < |cards|) || cards[index].isFlipped || cards[index].isMatched {
        return;
      }
      var newCards := cards[index := cards[index].(isFlipped := true)];
      MatchedCountUpdate(cards, index, newCards[index]);
      cards := newCards;
      flipped := flipped + [index];
      if |flipped| == 2 {
        lockBoard := true;
        moves := moves + 1;
        var a, b := flipped[0], flipped[1];
        if cards[a].content == cards[b].content {
          pending := MatchTimer(a, b);
        } else {
          pending := MismatchTimer(a, b);
        }
      }
    }

    /**
     * The timer of a matching pair: both cards stay matched, a hit is
     * counted, the board opens, and the fourth pair ends the level and stores
     * its result; `saveFailed` says the level-result insert fails.
     */
    method ResolveMatch(saveFailed: bool)
      requires Valid() && pending.MatchTimer?
      modifies this
      ensures Valid()
      ensures flipped == [] && !lockBoard && pending == NoTimer
      ensures var a, b := old(pending).a, old(pending).b;
        && cards == MatchPair(old(cards), a, b)
        && hits == old(hits) + 1
      ensures isLevelComplete <==> hits == TotalPairs
      ensures isLevelComplete ==> !isActive && saved == Some(LevelResult(moves, TotalPairs, errors, timer))
      ensures !isLevelComplete ==> isActive == old(isActive) && saved == old(saved)
      // a failed save replaces the board by its error message
      ensures errorMessage == (if isLevelComplete && saveFailed then Some("Error al guardar resultados") else old(errorMessage))
      ensures moves == old(moves) && errors == old(errors) && timer == old(timer)
    {
      var a, b := pending.a, pending.b;
      cards := MatchPair(cards, a, b);
      flipped := [];
      hits := hits + 1;
      lockBoard := false;
      pending := NoTimer;
      if hits == TotalPairs {
        HandleLevelComplete(saveFailed);
      }
    }

    /**
     * `handleLevelComplete`: the game stops, the level is marked complete and
     * its result is stored; `saveFailed` says the level-result insert fails,
     * in which case the board gives way to the save error message.
     */
    method HandleLevelComplete(saveFailed: bool)
      modifies this
      ensures !isActive && isLevelComplete
      ensures saved == Some(LevelResult(moves, hits, errors, timer))
      ensures errorMessage == (if saveFailed then Some("Error al guardar resultados") else old(errorMessage))
      ensures cards == old(cards) && flipped == old(flipped) && pending == old(pending) && lockBoard == old(lockBoard)
      ensures moves == old(moves) && hits == old(hits) && errors == old(errors) && timer == old(timer)
    {
      isActive := false;
      isLevelComplete := true;
      saved := Some(LevelResult(moves, hits, errors, timer));
      if saveFailed {
        errorMessage := Some("Error al guardar resultados");
      }
    }

    /** The timer of a mismatching pair: both cards turn face down again, an
        error is counted and the board opens. */
    method ResolveMismatch()
      requires Valid() && pending.MismatchTimer?
      modifies this
      ensures Valid()
      ensures flipped == [] && !lockBoard && pending == NoTimer
      ensures var a, b := old(pending).a, old(pending).b;
        cards == old(cards)[a := old(cards)[a].(isFlipped := false)][b := old(cards)[b].(isFlipped := false)]
      ensures errors == old(errors) + 1
      ensures moves == old(moves) && hits == old(hits) && timer == old(timer) && saved == old(saved)
      ensures isActive == old(isActive) && isLevelComplete == old(isLevelComplete)
      ensures errorMessage == old(errorMessage)
    {
      var a, b := pending.a, pending.b;
      var c1 := cards[a := cards[a].(isFlipped := false)];
      MatchedCountUpdate(cards, a, c1[a]);
      var c2 := c1[b := c1[b].(isFlipped := false)];
      MatchedCountUpdate(c1, b, c2[b]);
      cards := c2;
      flipped := [];
      errors := errors + 1;
      lockBoard := false;
      pending := NoTimer;
    }

    /** A finished level has every card matched. */
    lemma CompleteMeansAllMatched()
      requires Valid() && isLevelComplete
      ensures forall i :: 0 <= i < |cards| ==> cards[i].isMatched
    {
      MatchedCountAllMatched(cards);
    }
  }
}
