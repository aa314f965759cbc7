/**
 * The easy "which number is missing?" game: ten questions, each an
 * arithmetic sequence of three or four numbers between 0 and 30 with one
 * term hidden, answered by choosing among three options; the result is
 * stored at the end, or partially when the player leaves early.
 */
module CalcSequence {
  import opened Wrappers
  import opened JsMath

  const TotalQuestions: nat := 10
  /** The easy steps: +1, +2 and +5. */
  const Patterns: seq<nat> := [1, 2, 5]
  const MaxTerm: nat := 30

  /** A term as shown: a number, or the `"__"` placeholder. */
  datatype Term = Shown(value: nat) | Blank

  datatype Question = Question(id: nat, sequence: seq<Term>, correctAnswer: nat, options: seq<nat>)

  /**
   * The `Math.random()` draws of one `generateQuestion` call: the step, the
   * length, the first term, the hidden position, the pairs drawn by the
   * distractor loop, and the order the random-comparator sort leaves the
   * three options in (a permutation of positions 0, 1, 2).
   */
  datatype QuestionDraws = QuestionDraws(
    step: real, length: real, start: real, hidden: real, offsets: seq<real>, order: seq<nat>)

  predicate ValidDraws(d: QuestionDraws) {
    && IsDraw(d.step) && IsDraw(d.length) && IsDraw(d.start) && IsDraw(d.hidden)
    && (forall i :: 0 <= i < |d.offsets| ==> IsDraw(d.offsets[i]))
    && |d.order| == 3 && d.order[0] < 3 && d.order[1] < 3 && d.order[2] < 3
    && d.order[0] != d.order[1] && d.order[0] != d.order[2] && d.order[1] != d.order[2]
  }

  function StepOf(d: QuestionDraws): (step: nat)
    requires ValidDraws(d)
    ensures step == 1 || step == 2 || step == 5
  {
    Patterns[Pick(d.step, |Patterns|)]
  }

  /** `Math.random() > 0.5 ? 3 : 4`. */
  function LengthOf(d: QuestionDraws): nat {
    if d.length > 0.5 then 3 else 4
  }

  /** The first term, drawn below `31 - length * step` so that the last term stays within 30. */
  function StartOf(d: QuestionDraws): nat
    requires ValidDraws(d)
  {
    Pick(d.start, MaxTerm + 1 - LengthOf(d) * StepOf(d))
  }

  function HiddenOf(d: QuestionDraws): (h: nat)
    ensures h < LengthOf(d)
    requires ValidDraws(d)
  {
    Pick(d.hidden, LengthOf(d))
  }

  /** The sequence with its blank filled by `answer`. */
  function Fill(s: seq<Term>, answer: nat): (r: seq<nat>)
    ensures |r| == |s|
    ensures forall i :: 0 <= i < |s| ==> r[i] == (if s[i].Blank? then answer else s[i].value)
  {
    seq(|s|, i requires 0 <= i < |s| => if s[i].Blank? then answer else s[i].value)
  }

  predicate Arithmetic(s: seq<nat>, step: nat) {
    forall i :: 0 <= i < |s| - 1 ==> s[i + 1] == s[i] + step
  }

  predicate Distinct(s: seq<nat>) {
    forall i, j :: 0 <= i < j < |s| ==> s[i] != s[j]
  }

  /** `|a - b|`. */
  function Distance(a: int, b: int): nat {
    if a >= b then a - b else b - a
  }

  /**
   * What a question promises: three or four terms, exactly one of them
   * blank; filled with the correct answer they form a sequence with step 1,
   * 2 or 5 inside 0..30; three distinct options, the correct answer among
   * them and the others at most 3 away from it.
   */
  predicate WellFormed(q: Question) {
    && 3 <= |q.sequence| <= 4
    && OneBlank(q.sequence)
    && FilledInRange(Fill(q.sequence, q.correctAnswer))
    && OptionsAround(q.options, q.correctAnswer)
  }

  /** Exactly one term of the sequence is blank. */
  predicate OneBlank(s: seq<Term>) {
    exists h :: 0 <= h < |s| && s[h].Blank? && forall i :: 0 <= i < |s| && s[i].Blank? ==> i == h
  }

  /** A filled sequence steps by 1, 2 or 5 and stays inside 0..30. */
  predicate FilledInRange(full: seq<nat>) {
    && (Arithmetic(full, 1) || Arithmetic(full, 2) || Arithmetic(full, 5))
    && (forall i :: 0 <= i < |full| ==> full[i] <= MaxTerm)
  }

  /** Three distinct options, the answer among them, none more than 3 away from it. */
  predicate OptionsAround(options: seq<nat>, answer: nat) {
    && |options| == 3 && Distinct(options) && answer in options
    && (forall i :: 0 <= i < |options| ==> Distance(options[i], answer) <= 3)
  }

  /** The terms `start, start + step, …`, pushed one by one. */
  method ArithmeticTerms(start: nat, step: nat, length: nat) returns (full: seq<nat>)
    ensures |full| == length
    ensures forall i :: 0 <= i < length ==> full[i] == start + i * step
    ensures Arithmetic(full, step)
  {
    full := [];
    var i := 0;
    while i < length
      invariant 0 <= i <= length && |full| == i
      invariant forall j :: 0 <= j < i ==> full[j] == start + j * step
    {
      full := full + [start + i * step];
      i := i + 1;
    }
  }

  /**
   * The distractor loop as a definition: starting from the set `found` at
   * draw `k`, each pair of draws gives an offset of 1 to 3 with a random
   * sign; a non-negative value other than the answer joins the set (which
   * keeps insertion order and ignores repeats) until it holds two or the
   * draws run out.
   */
  function DistractorsFrom(correct: nat, offsets: seq<real>, k: nat, found: seq<nat>): seq<nat>
    requires forall i :: 0 <= i < |offsets| ==> IsDraw(offsets[i])
    decreases |offsets| - k
  {
    if |found| >= 2 || k + 1 >= |offsets| then found
    else
      var v := correct + Offset(offsets[k], offsets[k + 1]);
      DistractorsFrom(correct, offsets, k + 2,
                      if v >= 0 && v != correct && v as nat !in found then found + [v as nat] else found)
  }

  /** The values the distractor loop collects from the draws `offsets`. */
  function DistractorsOf(correct: nat, offsets: seq<real>): seq<nat>
    requires forall i :: 0 <= i < |offsets| ==> IsDraw(offsets[i])
  {
    DistractorsFrom(correct, offsets, 0, [])
  }

  /** The values collected stay distinct, differ from the answer by 1 to 3,
      and number at most two. */
  lemma {:induction false} DistractorsFromFacts(correct: nat, offsets: seq<real>, k: nat, found: seq<nat>)
    requires forall i :: 0 <= i < |offsets| ==> IsDraw(offsets[i])
    requires |found| <= 2 && Distinct(found)
    requires forall i :: 0 <= i < |found| ==> found[i] != correct && 1 <= Distance(found[i], correct) <= 3
    ensures var r := DistractorsFrom(correct, offsets, k, found);
      && |r| <= 2 && Distinct(r)
      && (forall i :: 0 <= i < |r| ==> r[i] != correct && 1 <= Distance(r[i], correct) <= 3)
    decreases |offsets| - k
  {
    if |found| < 2 && k + 1 < |offsets| {
      var v := correct + Offset(offsets[k], offsets[k + 1]);
      if v >= 0 && v != correct && v as nat !in found {
        var next := found + [v as nat];
        assert Distinct(next);
        DistractorsFromFacts(correct, offsets, k + 2, next);
      } else {
        DistractorsFromFacts(correct, offsets, k + 2, found);
      }
    }
  }

  /** The collection falls short of two values only when every pair of draws
      gave a refused value: a negative one, the answer, or one already found. */
  lemma {:induction false} DistractorsFromExhausted(correct: nat, offsets: seq<real>, k: nat, found: seq<nat>)
    requires forall i :: 0 <= i < |offsets| ==> IsDraw(offsets[i])
    requires k % 2 == 0
    requires |found| < 2 ==> forall j :: 0 <= j < k && j < |offsets| - 1 && j % 2 == 0 ==>
      Refused(correct + Offset(offsets[j], offsets[j + 1]), correct, found)
    ensures var r := DistractorsFrom(correct, offsets, k, found);
      |r| < 2 ==> forall j :: 0 <= j < |offsets| - 1 && j % 2 == 0 ==>
        Refused(correct + Offset(offsets[j], offsets[j + 1]), correct, r)
    decreases |offsets| - k
  {
    if |found| < 2 && k + 1 < |offsets| {
      var v := correct + Offset(offsets[k], offsets[k + 1]);
      var next := if v >= 0 && v != correct && v as nat !in found then found + [v as nat] else found;
      assert Refused(v, correct, next);
      assert forall w :: Refused(w, correct, found) ==> Refused(w, correct, next);
      DistractorsFromExhausted(correct, offsets, k + 2, next);
    }
  }

  /** A candidate value the distractor loop does not add. */
  predicate Refused(v: int, correct: nat, found: seq<nat>) {
    v < 0 || v == correct || v as nat in found
  }

  /**
   * The distractor loop. With a finite supply of draws it may stop short of
   * two values; what it collects is `DistractorsOf`.
   */
  method Distractors(correct: nat, offsets: seq<real>) returns (found: seq<nat>)
    requires forall i :: 0 <= i < |offsets| ==> IsDraw(offsets[i])
    ensures found == DistractorsOf(correct, offsets)
    ensures |found| <= 2 && Distinct(found)
    ensures forall i :: 0 <= i < |found| ==> found[i] != correct && 1 <= Distance(found[i], correct) <= 3
    ensures |found| < 2 ==> forall k :: 0 <= k < |offsets| - 1 && k % 2 == 0 ==>
      Refused(correct + Offset(offsets[k], offsets[k + 1]), correct, found)
  {
    found := [];
    var k := 0;
    while |found| < 2 && k + 1 < |offsets|
      invariant k % 2 == 0 && k <= |offsets| + 1
      invariant DistractorsFrom(correct, offsets, k, found) == DistractorsOf(correct, offsets)
      decreases |offsets| - k
    {
      var v := correct + Offset(offsets[k], offsets[k + 1]);
      var next := if v >= 0 && v != correct && v as nat !in found then found + [v as nat] else found;
      found := next;
      k := k + 2;
    }
    DistractorsFromFacts(correct, offsets, 0, []);
    DistractorsFromExhausted(correct, offsets, 0, []);
  }

  /** `(Math.floor(Math.random() * 3) + 1) * (Math.random() > 0.5 ? 1 : -1)`. */
  function Offset(magnitude: real, sign: real): (o: int)
    requires IsDraw(magnitude)
    ensures 1 <= Distance(o, 0) <= 3
  {
    (Pick(magnitude, 3) + 1) * (if sign > 0.5 then 1 else -1)
  }

  /** A question whose options `v + 1` and `v + 2` come from the first draws: the
      distractor loop always has values to find, whatever the answer. */
  lemma DistractorsAlwaysExist(correct: nat)
    ensures IsDraw(0.0) && IsDraw(0.5) && IsDraw(0.75)
    ensures correct + Offset(0.0, 0.75) == correct + 1
    ensures correct + Offset(0.5, 0.75) == correct + 2
  {
    assert 0.5 * 3.0 == 1.5;
  }

  /** The hidden term of the question the draws describe. */
  function AnswerOf(d: QuestionDraws): nat
    requires ValidDraws(d)
  {
    StartOf(d) + HiddenOf(d) * StepOf(d)
  }

  /** The draws run out before the distractor loop finds two values. */
  predicate Exhausted(d: QuestionDraws)
    requires ValidDraws(d)
  {
    |DistractorsOf(AnswerOf(d), d.offsets)| < 2
  }

  /**
   * `generateQuestion(id)`. `None` exactly when the distractor loop ran out
   * of draws before finding two values (the source's loop would keep drawing).
   */
  method GenerateQuestion(id: nat, d: QuestionDraws) returns (q: Option<Question>)
    requires ValidDraws(d)
    ensures q.None? <==> Exhausted(d)
    ensures q.Some? ==> WellFormed(q.value) && q.value.id == id
    ensures q.Some? ==>
      && |q.value.sequence| == LengthOf(d)
      && q.value.sequence[HiddenOf(d)] == Blank
      && q.value.correctAnswer == AnswerOf(d)
      && Arithmetic(Fill(q.value.sequence, q.value.correctAnswer), StepOf(d))
      && Fill(q.value.sequence, q.value.correctAnswer)[0] == StartOf(d)
      && multiset(q.value.options) == multiset([AnswerOf(d)] + DistractorsOf(AnswerOf(d), d.offsets))
  {
    var step := StepOf(d);
    var length := LengthOf(d);
    var start := StartOf(d);
    var full := ArithmeticTerms(start, step, length);
    TermsWithinRange(full, start, step, length);

    var hidden := HiddenOf(d);
    var correctAnswer := full[hidden];
    assert correctAnswer == AnswerOf(d);
    var sequence := Blanked(full, hidden);
    assert FilledInRange(Fill(sequence, correctAnswer)) by {
      assert Fill(sequence, correctAnswer) == full;
    }

    var ds := Distractors(correctAnswer, d.offsets);
    if |ds| < 2 {
      return None;
    }
    var base := [correctAnswer] + ds;
    var options := [base[d.order[0]], base[d.order[1]], base[d.order[2]]];
    ShuffledOptionsAround(correctAnswer, ds, d.order);
    OrderPermutes(base, d.order);
    q := Some(Question(id, sequence, correctAnswer, options));
    assert WellFormed(q.value);
  }

  /** The terms shown as numbers except the hidden one: filling the blank gives the terms back. */
  function Blanked(full: seq<nat>, hidden: nat): (s: seq<Term>)
    requires hidden < |full|
    ensures |s| == |full| && s[hidden] == Blank && OneBlank(s)
    ensures Fill(s, full[hidden]) == full
  {
    var s := seq(|full|, j requires 0 <= j < |full| => if j == hidden then Blank else Shown(full[j]));
    assert s[hidden].Blank?;
    assert Fill(s, full[hidden]) == full;
    s
  }

  /** The answer and two distractors, placed in the drawn order, are options around the answer. */
  lemma ShuffledOptionsAround(correctAnswer: nat, ds: seq<nat>, order: seq<nat>)
    requires |ds| == 2 && Distinct(ds)
    requires forall i :: 0 <= i < |ds| ==> ds[i] != correctAnswer && 1 <= Distance(ds[i], correctAnswer) <= 3
    requires |order| == 3 && order[0] < 3 && order[1] < 3 && order[2] < 3
    requires order[0] != order[1] && order[0] != order[2] && order[1] != order[2]
    ensures var base := [correctAnswer] + ds;
      OptionsAround([base[order[0]], base[order[1]], base[order[2]]], correctAnswer)
  {
    var base := [correctAnswer] + ds;
    assert Distinct(base);
    var options := [base[order[0]], base[order[1]], base[order[2]]];
    assert correctAnswer in options by {
      if order[0] != 0 && order[1] != 0 {
        assert order[2] == 0;
      }
    }
  }

  /** Placing three values in a drawn order of the positions 0, 1, 2 keeps them all. */
  lemma OrderPermutes(base: seq<nat>, order: seq<nat>)
    requires |base| == 3 && |order| == 3 && order[0] < 3 && order[1] < 3 && order[2] < 3
    requires order[0] != order[1] && order[0] != order[2] && order[1] != order[2]
    ensures multiset([base[order[0]], base[order[1]], base[order[2]]]) == multiset(base)
  {
    assert base == [base[0], base[1], base[2]];
    ThreeAsDisplay(base[0], base[1], base[2]);
    ThreeAsDisplay(base[order[0]], base[order[1]], base[order[2]]);
  }

  lemma ThreeAsDisplay(a: nat, b: nat, c: nat)
    ensures multiset([a, b, c]) == multiset{a, b, c}
  {
  }

  lemma TermsWithinRange(full: seq<nat>, start: nat, step: nat, length: nat)
    requires 3 <= length <= 4 && (step == 1 || step == 2 || step == 5)
    requires start < MaxTerm + 1 - length * step
    requires |full| == length && forall i :: 0 <= i < length ==> full[i] == start + i * step
    ensures forall i :: 0 <= i < length ==> full[i] <= MaxTerm
  {
    forall i | 0 <= i < length ensures full[i] <= MaxTerm {
      assert i * step <= (length - 1) * step;
    }
  }

  /** The ten questions of a session, or `None` exactly when some distractor
      loop ran out of draws. */
  method GenerateQuestions(draws: seq<QuestionDraws>) returns (qs: Option<seq<Question>>)
    requires |draws| == TotalQuestions && forall i :: 0 <= i < |draws| ==> ValidDraws(draws[i])
    ensures qs.None? <==> exists i :: 0 <= i < |draws| && Exhausted(draws[i])
    ensures qs.Some? ==> |qs.value| == TotalQuestions
    ensures qs.Some? ==> forall i :: 0 <= i < TotalQuestions ==>
      && WellFormed(qs.value[i]) && qs.value[i].id == i
      && qs.value[i].correctAnswer == AnswerOf(draws[i]) && |qs.value[i].sequence| == LengthOf(draws[i])
  {
    var acc: seq<Question> := [];
    var i := 0;
    while i < TotalQuestions
      invariant 0 <= i <= TotalQuestions && |acc| == i
      invariant forall j :: 0 <= j < i ==> !Exhausted(draws[j])
      invariant forall j :: 0 <= j < i ==>
        && WellFormed(acc[j]) && acc[j].id == j
        && acc[j].correctAnswer == AnswerOf(draws[j]) && |acc[j].sequence| == LengthOf(draws[j])
    {
      var q := GenerateQuestion(i, draws[i]);
      if q.None? {
        return None;
      }
      acc := acc + [q.value];
      i := i + 1;
    }
    return Some(acc);
  }

  /** `Number(x.toFixed(1))` for a non-negative `x`: rounded to one decimal. */
  function OneDecimal(x: real): real {
    Round(x * 10.0) as real / 10.0
  }

  /** The accuracy stored for a finished game: hits out of ten, in percent. */
  function CompletedAccuracy(hits: nat): (a: real)
    requires hits <= TotalQuestions
    ensures a == (hits * 10) as real && 0.0 <= a <= 100.0
  {
    assert (hits as real / TotalQuestions as real) * 100.0 * 10.0 == (hits * 100) as real;
    OneDecimal((hits as real / TotalQuestions as real) * 100.0)
  }

  /** The accuracy stored when the player leaves early, as written:
      hits over `max(1, attempts)`, where attempts is the question index. */
  function AbandonedAccuracy(hits: nat, attempts: nat): (a: real)
    ensures 0.0 <= a
    ensures hits <= attempts ==> a <= 100.0
    ensures 0 < attempts <= TotalQuestions && attempts < hits ==> a > 100.0
  {
    var d := if attempts > 1 then attempts else 1;
    var fraction := hits as real / d as real;
    RatioBounds(hits, d);
    if hits <= attempts then
      OneDecimalBounds(fraction * 100.0);
      OneDecimal(fraction * 100.0)
    else
      OneDecimalAbove(fraction * 100.0);
      OneDecimal(fraction * 100.0)
  }

  lemma OneDecimalAbove(x: real)
    requires x >= 100.0
    ensures OneDecimal(x) >= 100.0
    ensures x >= 110.0 ==> OneDecimal(x) > 100.0
  {
    var k := Round(x * 10.0);
    assert k >= 1000;
    assert x >= 110.0 ==> k > 1000;
  }

  lemma DivAtLeast(x: real, r: real, c: real)
    requires r > 0.0 && x >= c * r
    ensures x / r >= c
  {
    assert x / r - c == (x - c * r) / r;
  }

  lemma DivAtMost(x: real, r: real, c: real)
    requires r > 0.0 && x <= c * r
    ensures x / r <= c
  {
    assert c - x / r == (c * r - x) / r;
  }

  /** Where `hits / d` lies against 1, and against 1.1 for a divisor of at most ten. */
  lemma RatioBounds(hits: nat, d: nat)
    requires d >= 1
    ensures 0.0 <= hits as real / d as real
    ensures hits <= d ==> hits as real / d as real <= 1.0
    ensures hits >= d ==> hits as real / d as real >= 1.0
    ensures hits > d && d <= TotalQuestions ==> hits as real / d as real >= 1.1
  {
    var r := d as real;
    DivAtLeast(hits as real, r, 0.0);
    if hits <= d {
      DivAtMost(hits as real, r, 1.0);
    }
    if hits >= d {
      DivAtLeast(hits as real, r, 1.0);
    }
    if hits > d && d <= TotalQuestions {
      DivAtLeast(hits as real, r, 1.1);
    }
  }

  /** The abandoned accuracy counting every answered question, as the
      percentage evidently intends: never above 100. */
  function CorrectedAbandonedAccuracy(hits: nat, errors: nat): (a: real)
    ensures 0.0 <= a <= 100.0
    ensures errors == 0 && hits > 0 ==> a == 100.0
  {
    var answered := hits + errors;
    var fraction := hits as real / (if answered > 1 then answered else 1) as real;
    assert 0.0 <= fraction <= 1.0;
    assert errors == 0 && hits > 0 ==> fraction == 1.0;
    OneDecimalBounds(fraction * 100.0);
    OneDecimal(fraction * 100.0)
  }

  lemma OneDecimalBounds(x: real)
    requires 0.0 <= x <= 100.0
    ensures 0.0 <= OneDecimal(x) <= 100.0
    ensures x == 100.0 ==> OneDecimal(x) == 100.0
  {
    var k := Round(x * 10.0);
    assert k <= 1000;
  }

  /**
   * Leaving while the feedback of the second question shows, both answers
   * right: the index is 1, the hits are 2, and the stored accuracy is 200%
   * where the corrected one is 100%.
   */
  lemma AbandonedAccuracyExceedsHundred()
    ensures AbandonedAccuracy(2, 1) == 200.0
    ensures CorrectedAbandonedAccuracy(2, 0) == 100.0
  {
    assert Round(2000.0) == 2000;
  }

  /** What the end of a session stores (session row, level result and progress row). */
  datatype SavedResult = SavedResult(
    attempts: nat, hits: nat, errors: nat, completed: bool, timeSpentSeconds: nat, accuracy: real)

  class Game {
    var questions: seq<Question>
    var currentIndex: nat
    var score: nat
    var errors: nat
    var timer: nat
    var selectedOption: Option<nat>
    /** `feedback`: whether the shown answer was right, while it shows. */
    var feedback: Option<bool>
    var isActive: bool
    var isGameComplete: bool
    var saved: Option<SavedResult>

    predicate Valid()
      reads this
    {
      && |questions| == TotalQuestions
      && currentIndex < TotalQuestions
      // every answer counts once, as a hit or as an error
      && score + errors == currentIndex + (if feedback.Some? || isGameComplete then 1 else 0)
      && (feedback.Some? ==> isActive && selectedOption.Some?)
      && (isGameComplete ==> !isActive && feedback.None? && currentIndex == TotalQuestions - 1)
      && (isGameComplete ==> saved.Some? && saved.value.completed)
    }

    /**
     * `startNewSession` with the questions already generated: everything
     * resets; the game becomes active only when the session row was created.
     */
    constructor (qs: seq<Question>, sessionCreated: bool)
      requires |qs| == TotalQuestions
      ensures Valid()
      ensures questions == qs && currentIndex == 0 && score == 0 && errors == 0 && timer == 0
      ensures isActive == sessionCreated && !isGameComplete && feedback.None? && saved.None?
    {
      questions := qs;
      currentIndex, score, errors, timer := 0, 0, 0, 0;
      selectedOption := None;
      feedback := None;
      isActive := sessionCreated;
      isGameComplete := false;
      saved := None;
    }

    /** One second of the interval timer, which runs while the game is active. */
    method Tick()
      requires Valid()
      modifies this
      ensures Valid()
      ensures timer == if old(isActive) && !old(isGameComplete) then old(timer) + 1 else old(timer)
      ensures currentIndex == old(currentIndex) && score == old(score) && errors == old(errors)
      ensures feedback == old(feedback) && isActive == old(isActive) && saved == old(saved)
    {
      if isActive && !isGameComplete {
        timer := timer + 1;
      }
    }

    /**
     * `handleAnswer(option)`: ignored while inactive or while feedback
     * shows; otherwise exactly one of score and errors grows, by whether
     * the option is the current question's answer.
     */
    method Answer(option: nat)
      requires Valid()
      modifies this
      ensures Valid()
      ensures !old(isActive) || old(feedback).Some? ==>
        score == old(score) && errors == old(errors) && feedback == old(feedback)
      ensures old(isActive) && old(feedback).None? ==>
        var correct := option == questions[currentIndex].correctAnswer;
        && selectedOption == Some(option) && feedback == Some(correct)
        && score == old(score) + (if correct then 1 else 0)
        && errors == old(errors) + (if correct then 0 else 1)
      ensures questions == old(questions) && currentIndex == old(currentIndex) && timer == old(timer)
      ensures isActive == old(isActive) && isGameComplete == old(isGameComplete) && saved == old(saved)
    {
      if !isActive || feedback.Some? {
        return;
      }
      selectedOption := Some(option);
      var isCorrect := option == questions[currentIndex].correctAnswer;
      if isCorrect {
        score := score + 1;
      } else {
        errors := errors + 1;
      }
      feedback := Some(isCorrect);
    }

    /**
     * The timer 1.5 s after an answer: the next question, or after the tenth
     * the completed game with ten attempts and accuracy hits × 10 %.
     */
    method ResolveAnswer()
      requires Valid() && feedback.Some?
      modifies this
      ensures Valid()
      ensures feedback.None? && selectedOption.None?
      ensures old(currentIndex) + 1 < TotalQuestions ==>
        currentIndex == old(currentIndex) + 1 && isActive && !isGameComplete && saved == old(saved)
      ensures old(currentIndex) + 1 == TotalQuestions ==>
        && isGameComplete && !isActive && currentIndex == old(currentIndex)
        && saved == Some(SavedResult(TotalQuestions, score, errors, true, timer, CompletedAccuracy(score)))
        && score + errors == TotalQuestions
      ensures score == old(score) && errors == old(errors) && timer == old(timer) && questions == old(questions)
    {
      feedback := None;
      selectedOption := None;
      if currentIndex + 1 < TotalQuestions {
        currentIndex := currentIndex + 1;
      } else {
        isActive := false;
        isGameComplete := true;
        saved := Some(SavedResult(TotalQuestions, score, errors, true, timer, CompletedAccuracy(score)));
      }
    }

    /**
     * `handleExit` with the player's confirmation: leaving an active,
     * unfinished game stores the partial result with attempts equal to the
     * question index, and the screen closes.
     */
    method Exit(confirmed: bool)
      requires Valid()
      modifies this
      ensures old(isActive) && !old(isGameComplete) && confirmed ==>
        var attempts := if currentIndex < TotalQuestions then currentIndex else TotalQuestions;
        && !isActive
        && saved == Some(SavedResult(attempts, score, errors, false, timer, AbandonedAccuracy(score, attempts)))
      ensures !(old(isActive) && !old(isGameComplete) && confirmed) ==> isActive == old(isActive) && saved == old(saved)
      ensures currentIndex == old(currentIndex) && score == old(score) && errors == old(errors) && timer == old(timer)
    {
      if isActive && !isGameComplete && confirmed {
        var attempts := if currentIndex < TotalQuestions then currentIndex else TotalQuestions;
        saved := Some(SavedResult(attempts, score, errors, false, timer, AbandonedAccuracy(score, attempts)));
        isActive := false;
      }
    }

    /** The partial result undercounts attempts by one while feedback
        shows: the answer on screen is already among the hits or errors. */
    lemma AttemptsLagDuringFeedback()
      requires Valid() && feedback.Some?
      ensures score + errors == currentIndex + 1
    {
    }
  }
}
