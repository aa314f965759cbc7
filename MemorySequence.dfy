/**
 * The easy Memory Sequence game: a sequence of colours (two to start) is
 * played back, the player repeats it press by press; a repeated sequence
 * grows by one random colour until it has six, a wrong press ends the game,
 * and the result is stored with an accuracy and a best level.
 */
module MemorySequence {
  import opened Wrappers
  import opened JsMath

  const InitialSteps: nat := 2
  const MaxLevelSteps: nat := 6
  /** Blue, red, green and yellow are the colours 0 to 3. */
  const ColorCount: nat := 4

  datatype Status = Playback | UserTurn | Feedback | Summary | Loading

  /** The `setTimeout` continuation of the feedback screen, if any. */
  datatype Pending =
    | NoTimer
    | NextRound(isComplete: bool)  // 1000 ms after a repeated sequence
    | EndAfterError                // 1500 ms after a wrong press

  /** What `finishGame` stores: the session totals, the level result and the progress row. */
  datatype GameResult = GameResult(
    attempts: nat, hits: nat, errors: nat, completed: bool, timeSpentSeconds: nat,
    bestLevel: nat, accuracy: int)

  /** `Math.round((hits / (hits + errors)) * 100) || 0`: `NaN` for no rounds becomes 0. */
  function Accuracy(hits: nat, errors: nat): (a: int)
    ensures 0 <= a <= 100
    ensures errors == 0 && hits > 0 ==> a == 100
    ensures hits == 0 ==> a == 0
  {
    if hits + errors == 0 then 0
    else
      FractionAtMostOne(hits, hits + errors);
      Round((hits as real / (hits + errors) as real) * 100.0)
  }

  lemma FractionAtMostOne(a: nat, b: nat)
    requires 0 < b && a <= b
    ensures 0.0 <= a as real / b as real <= 1.0
    ensures a == b ==> a as real / b as real == 1.0
  {
  }

  /** Every colour index is below `ColorCount`. */
  predicate AllColors(s: seq<nat>) {
    forall i :: 0 <= i < |s| ==> s[i] < ColorCount
  }

  /** The best level the stats effect keeps: the highest sequence length
      seen, less one while the feedback shows a wrong press. */
  function BestLevelAfterRender(best: nat, sequenceLength: nat, feedback: Option<bool>): nat {
    var candidate := sequenceLength - (if feedback == Some(false) then 1 else 0);
    if candidate > best then candidate else best
  }

  /** The best level the subtraction evidently intends: the length of the
      last sequence, less one when the game ended on a wrong press. */
  function IntendedBestLevel(sequenceLength: nat, failed: bool): nat
    requires sequenceLength >= 1
  {
    sequenceLength - (if failed then 1 else 0)
  }

  class Game {
    var status: Status
    var sequence: seq<nat>
    var userSequence: seq<nat>
    var highlighted: Option<nat>
    var feedback: Option<bool>
    var timer: nat
    // `statsRef`: the counters the timers read
    var hits: nat
    var errors: nat
    var bestLevel: nat
    var pending: Pending
    var saved: Option<GameResult>
    /** The message shown instead of the game. */
    var errorMessage: Option<string>

    predicate Valid()
      reads this
    {
      && errorMessage.None?
      && InitialSteps <= |sequence| <= MaxLevelSteps && AllColors(sequence)
      && errors <= 1
      // the player's presses so far are a prefix of the sequence, except
      // for a wrong last press
      && |userSequence| <= |sequence|
      && (errors == 0 ==> userSequence == sequence[..|userSequence|])
      && (errors == 1 ==> 1 <= |userSequence| && var n := |userSequence| - 1;
                          userSequence[..n] == sequence[..n] && userSequence[n] != sequence[n])
      && (status == Playback ==> userSequence == [])
      && (status == UserTurn ==> |userSequence| < |sequence|)
      // one hit per repeated sequence
      && (pending.NextRound? ==> hits == |sequence| - 1 && errors == 0)
      && (!pending.NextRound? && status != Summary ==> hits == |sequence| - InitialSteps)
      && (status == Summary ==> hits == |sequence| - (if errors == 0 then 1 else InitialSteps))
      && (pending.NextRound? ==> status == Feedback && feedback == Some(true)
                                 && pending.isComplete == (|sequence| >= MaxLevelSteps))
      && (pending.EndAfterError? ==> status == Feedback && feedback == Some(false) && errors == 1)
      && (status == Feedback <==> !pending.NoTimer?)
      && (status == Playback || status == UserTurn ==> errors == 0 && feedback.None?)
      && (status == Summary <==> saved.Some?)
      && (saved.Some? ==> saved.value.bestLevel == |sequence| && saved.value.completed == (errors == 0)
                          && saved.value.hits == hits && saved.value.errors == errors)
      // the stats effect has already counted the sequence on screen
      && bestLevel == |sequence|
    }

    /** The stats effect, run after every render. */
    method SyncStats()
      modifies this
      ensures bestLevel == BestLevelAfterRender(old(bestLevel), |sequence|, feedback)
      ensures status == old(status) && sequence == old(sequence) && userSequence == old(userSequence)
      ensures highlighted == old(highlighted) && feedback == old(feedback) && timer == old(timer)
      ensures hits == old(hits) && errors == old(errors) && pending == old(pending) && saved == old(saved)
      ensures errorMessage == old(errorMessage)
    {
      bestLevel := BestLevelAfterRender(bestLevel, |sequence|, feedback);
    }

    /** `startSession`: when the session row is created, `newGame` resets
        the counters, draws two colours and starts the playback; otherwise the
        error message shows and the game stays loading. */
    constructor (draws: seq<real>, sessionCreated: bool)
      requires |draws| == InitialSteps && IsDraw(draws[0]) && IsDraw(draws[1])
      ensures timer == 0 && hits == 0 && errors == 0 && userSequence == []
      ensures pending == NoTimer && saved.None? && feedback.None?
      ensures sessionCreated ==>
        && Valid()
        && sequence == [Pick(draws[0], ColorCount), Pick(draws[1], ColorCount)]
        && status == Playback
      ensures !sessionCreated ==>
        status == Loading && sequence == [] && bestLevel == 0 && errorMessage == Some("No se pudo iniciar la sesión")
    {
      if sessionCreated {
        status := Playback;
        sequence := [Pick(draws[0], ColorCount), Pick(draws[1], ColorCount)];
        errorMessage := None;
      } else {
        status := Loading;
        sequence := [];
        errorMessage := Some("No se pudo iniciar la sesión");
      }
      userSequence := [];
      highlighted := None;
      feedback := None;
      timer := 0;
      hits, errors, bestLevel := 0, 0, 0;
      pending := NoTimer;
      saved := None;
      new;
      SyncStats();
    }

    /** The end of `playSequence`: the highlight is cleared and the player's turn begins. */
    method EndPlayback()
      requires Valid() && status == Playback
      modifies this
      ensures Valid()
      ensures status == UserTurn && highlighted.None?
      ensures sequence == old(sequence) && userSequence == old(userSequence) && hits == old(hits)
      ensures errors == old(errors) && pending == old(pending) && saved == old(saved)
    {
      highlighted := None;
      status := UserTurn;
      SyncStats();
    }

    /** The 200 ms timer started by a press: the highlight goes off. */
    method ClearHighlight()
      requires Valid()
      modifies this
      ensures Valid()
      ensures highlighted.None?
      ensures status == old(status) && sequence == old(sequence) && userSequence == old(userSequence)
      ensures hits == old(hits) && errors == old(errors) && pending == old(pending) && saved == old(saved)
    {
      highlighted := None;
    }

    /** One second of the interval timer, which runs outside loading and summary. */
    method Tick()
      requires Valid()
      modifies this
      ensures Valid()
      ensures timer == (if old(status) != Loading && old(status) != Summary then old(timer) + 1 else old(timer))
      ensures status == old(status) && sequence == old(sequence) && userSequence == old(userSequence)
      ensures hits == old(hits) && errors == old(errors) && pending == old(pending) && saved == old(saved)
    {
      if status != Loading && status != Summary {
        timer := timer + 1;
      }
      SyncStats();
    }

    /**
     * `handleButtonClick(id)`: accepted only on the player's turn with no
     * colour lit. The press is recorded; a press that differs from the
     * sequence at its position fails the round, and the press that completes
     * the sequence wins it.
     */
    method ButtonClick(id: nat)
      requires Valid() && id < ColorCount
      modifies this
      ensures Valid()
      ensures old(status) != UserTurn || old(highlighted).Some? ==>
        status == old(status) && userSequence == old(userSequence) && hits == old(hits)
        && errors == old(errors) && pending == old(pending)
      ensures old(status) == UserTurn && old(highlighted).None? ==>
        var n := |old(userSequence)| + 1;
        && userSequence == old(userSequence) + [id] && highlighted == Some(id)
        // a wrong press ends the round as failed
        && (id != sequence[n - 1] ==> status == Feedback && feedback == Some(false) && errors == 1
                                      && pending == EndAfterError && hits == old(hits))
        // the last right press wins the round
        && (id == sequence[n - 1] && n == |sequence| ==>
              status == Feedback && feedback == Some(true) && hits == old(hits) + 1
              && pending == NextRound(|sequence| >= MaxLevelSteps))
        && (id == sequence[n - 1] && n < |sequence| ==> status == UserTurn && pending == NoTimer && hits == old(hits))
      ensures sequence == old(sequence) && saved == old(saved) && timer == old(timer)
    {
      if status != UserTurn || highlighted.Some? {
        return;
      }
      highlighted := Some(id);
      var nextUserSequence := userSequence + [id];
      userSequence := nextUserSequence;
      if id != sequence[|nextUserSequence| - 1] {
        status := Feedback;
        feedback := Some(false);
        errors := 1;
        pending := EndAfterError;
      } else if |nextUserSequence| == |sequence| {
        status := Feedback;
        feedback := Some(true);
        hits := hits + 1;
        pending := NextRound(|sequence| >= MaxLevelSteps);
      }
      SyncStats();
    }

    /** `finishGame`: the summary shows and the result is stored from the counters. */
    method Finish(completed: bool)
      requires hits + errors > 0
      modifies this
      ensures status == Summary
      ensures saved == Some(GameResult(old(hits) + old(errors), old(hits), old(errors), completed,
                                       old(timer), old(bestLevel), Accuracy(old(hits), old(errors))))
      ensures sequence == old(sequence) && userSequence == old(userSequence) && feedback == old(feedback)
      ensures hits == old(hits) && errors == old(errors) && bestLevel == old(bestLevel) && timer == old(timer)
      ensures highlighted == old(highlighted) && pending == old(pending) && errorMessage == old(errorMessage)
    {
      status := Summary;
      saved := Some(GameResult(hits + errors, hits, errors, completed, timer, bestLevel, Accuracy(hits, errors)));
    }

    /**
     * The feedback timer. After a won round the sequence grows by one colour
     * and is played again, or, at six colours, the game ends completed; after
     * a wrong press the game ends not completed.
     */
    method ResolveFeedback(draw: real)
      requires Valid() && !pending.NoTimer? && IsDraw(draw)
      modifies this
      ensures Valid()
      ensures feedback.None? && pending == NoTimer
      ensures old(pending) == NextRound(false) ==>
        && sequence == old(sequence) + [Pick(draw, ColorCount)]
        && status == Playback && userSequence == [] && hits == old(hits) && saved.None?
      ensures old(pending) == NextRound(true) ==>
        && sequence == old(sequence) && status == Summary
        && saved == Some(GameResult(MaxLevelSteps - 1, MaxLevelSteps - 1, 0, true, timer, MaxLevelSteps, 100))
      ensures old(pending) == EndAfterError ==>
        && sequence == old(sequence) && status == Summary
        && saved == Some(GameResult(hits + 1, hits, 1, false, timer, |sequence|, Accuracy(hits, 1)))
      ensures timer == old(timer)
    {
      var p := pending;
      feedback := None;
      pending := NoTimer;
      if p == NextRound(false) {
        sequence := sequence + [Pick(draw, ColorCount)];
        status := Playback;
        userSequence := [];
        SyncStats();
      } else if p == NextRound(true) {
        Finish(true);
        SyncStats();
      } else {
        Finish(false);
        SyncStats();
      }
    }

    /**
     * The stored best level of a game lost on a wrong press counts the
     * sequence that was not repeated: it is one more than the level the
     * subtraction in the stats effect intends.
     */
    lemma LostGameOverstatesBestLevel()
      requires Valid() && saved.Some? && !saved.value.completed
      ensures saved.value.bestLevel == IntendedBestLevel(|sequence|, true) + 1
      ensures saved.value.bestLevel == saved.value.hits + InitialSteps
    {
    }
  }

  /** The intended best level counts the rounds won: two colours for the
      first round, one more for each further round. */
  lemma IntendedBestLevelCountsRoundsWon(sequenceLength: nat, hits: nat, failed: bool)
    requires InitialSteps <= sequenceLength
    requires failed ==> hits == sequenceLength - InitialSteps
    requires !failed ==> hits == sequenceLength - 1
    ensures IntendedBestLevel(sequenceLength, failed) == hits + 1
  {
  }

  /** A concrete lost game: the first two-colour sequence is answered wrong at
      once; the stats effect has already recorded level 2 although no round was won. */
  lemma FirstRoundLossExample()
    ensures BestLevelAfterRender(BestLevelAfterRender(0, 2, None), 2, Some(false)) == 2
    ensures IntendedBestLevel(2, true) == 1
  {
  }
}
