/** The spaced-repetition schedule: the interval table, the value of one card's
    scheduling state, and the transition applied when the learner reviews a card. */
module Schedule {
  import opened Wrappers
  import opened Builtins

  /** Days to wait before the next review, indexed by a card's level. */
  const Intervals: seq<int> := [1, 3, 7, 14, 30, 90]

  /** The highest level, at which a card stays once it is known perfectly. */
  const TopLevel: int := |Intervals| - 1

  /** Timestamps are integers counting microseconds, the resolution of the
      timestamps a card stores; one day is this many of them. */
  const MicrosPerDay: int := 86_400_000_000

  /** The six fields of a flashcard, as a value. */
  datatype CardState = CardState(
    word: string,
    translation: string,
    level: int,
    nextReview: int,
    reviews: int,
    correct: int)

  /** The invariant the scheduler keeps: the level indexes the interval table
      and no more answers were correct than were given. */
  predicate WellFormed(c: CardState) {
    0 <= c.level <= TopLevel && 0 <= c.correct <= c.reviews
  }

  /** A card is due once its next-review time has been reached. */
  predicate IsDue(c: CardState, now: int) {
    c.nextReview <= now
  }

  /** The level after one answer: one step up on a correct answer, staying at
      the top of the table, one step down on a wrong one, staying at 0. */
  function NextLevel(level: int, correct: bool): (r: int)
    ensures correct ==> r <= TopLevel
    ensures !correct ==> 0 <= r
    ensures 0 <= level <= TopLevel ==> 0 <= r <= TopLevel && -1 <= r - level <= 1
    ensures 0 <= level <= TopLevel && correct ==> level <= r && (r == level <==> level == TopLevel)
    ensures 0 <= level <= TopLevel && !correct ==> r <= level && (r == level <==> level == 0)
  {
    if correct then Min(TopLevel, level + 1) else Max(0, level - 1)
  }

  /** What one review leaves behind: the card's new state, and whether the new
      level indexed the interval table (`scheduled`). When it did not, Python
      raised IndexError after the counters and the level had already changed
      and before the next-review time was written. */
  datatype Reviewed = Reviewed(card: CardState, scheduled: bool)

  /** One review of card `c` answered `correct` at time `now`. */
  function Review(c: CardState, correct: bool, now: int): (r: Reviewed)
    ensures r.card.word == c.word && r.card.translation == c.translation
    ensures r.card.reviews == c.reviews + 1
    ensures r.card.correct == if correct then c.correct + 1 else c.correct
    ensures r.card.level == NextLevel(c.level, correct)
    ensures !r.scheduled <==> if correct then c.level < -|Intervals| - 1 else c.level > |Intervals|
    ensures !r.scheduled ==> r.card.nextReview == c.nextReview
    ensures 0 <= r.card.level <= TopLevel ==>
      r.scheduled && r.card.nextReview == now + Intervals[r.card.level] * MicrosPerDay
    ensures -|Intervals| <= r.card.level < 0 ==>
      r.scheduled && r.card.nextReview == now + Intervals[|Intervals| + r.card.level] * MicrosPerDay
    ensures WellFormed(c) ==> r.scheduled && WellFormed(r.card)
    ensures WellFormed(c) ==> r.card.nextReview == now + Intervals[r.card.level] * MicrosPerDay
    ensures WellFormed(c) ==> r.card.nextReview >= now + MicrosPerDay && !IsDue(r.card, now)
  {
    var counted := c.(
      reviews := c.reviews + 1,
      correct := if correct then c.correct + 1 else c.correct,
      level := NextLevel(c.level, correct));
    match Index(Intervals, counted.level)
    case Some(days) => Reviewed(counted.(nextReview := now + days * MicrosPerDay), true)
    case None => Reviewed(counted, false)
  }

  /** One answer the learner gave: right or wrong, and when. */
  datatype Answer = Answer(correct: bool, at: int)

  /** How many of the answers were right. */
  function CorrectCount(answers: seq<Answer>): (n: int)
    ensures 0 <= n <= |answers|
    ensures n == |answers| <==> forall i :: 0 <= i < |answers| ==> answers[i].correct
  {
    if answers == [] then 0
    else (if answers[0].correct then 1 else 0) + CorrectCount(answers[1..])
  }

  /** The card after a series of reviews; the first review that raises ends the series. */
  function ReviewAll(c: CardState, answers: seq<Answer>): CardState
    decreases |answers|
  {
    if answers == [] then c
    else
      var r := Review(c, answers[0].correct, answers[0].at);
      if r.scheduled then ReviewAll(r.card, answers[1..]) else r.card
  }

  /** Whatever the answers, a well-formed card stays well-formed: every answer
      is counted, the right ones are counted as correct, and the card is due
      one interval of its final level after the last answer. */
  lemma {:induction false} ReviewAllKeepsInvariant(c: CardState, answers: seq<Answer>)
    requires WellFormed(c)
    ensures WellFormed(ReviewAll(c, answers))
    ensures ReviewAll(c, answers).word == c.word
    ensures ReviewAll(c, answers).translation == c.translation
    ensures ReviewAll(c, answers).reviews == c.reviews + |answers|
    ensures ReviewAll(c, answers).correct == c.correct + CorrectCount(answers)
    ensures answers != [] ==>
      var r := ReviewAll(c, answers);
      r.nextReview == answers[|answers| - 1].at + Intervals[r.level] * MicrosPerDay
    decreases |answers|
  {
    if answers != [] {
      var next := Review(c, answers[0].correct, answers[0].at).card;
      ReviewAllKeepsInvariant(next, answers[1..]);
      if |answers| > 1 {
        assert answers[1..][|answers[1..]| - 1] == answers[|answers| - 1];
      }
    }
  }

  /** A run of right answers climbs one level per answer up to the top. */
  lemma {:induction false} CorrectStreak(c: CardState, answers: seq<Answer>)
    requires WellFormed(c)
    requires forall i :: 0 <= i < |answers| ==> answers[i].correct
    ensures ReviewAll(c, answers).level == Min(TopLevel, c.level + |answers|)
    decreases |answers|
  {
    if answers != [] {
      CorrectStreak(Review(c, true, answers[0].at).card, answers[1..]);
    }
  }

  /** A run of wrong answers demotes one level per answer down to 0: a lapse
      is a one-step penalty, never a reset. */
  lemma {:induction false} WrongStreak(c: CardState, answers: seq<Answer>)
    requires WellFormed(c)
    requires forall i :: 0 <= i < |answers| ==> !answers[i].correct
    ensures ReviewAll(c, answers).level == Max(0, c.level - |answers|)
    decreases |answers|
  {
    if answers != [] {
      WrongStreak(Review(c, false, answers[0].at).card, answers[1..]);
    }
  }

  /** A new card answered right at `t0` moves to level 1 and is due three days
      later; answered wrong at `t1` it falls back to level 0, due a day later. */
  lemma NewCardScenario(t0: int, t1: int)
    ensures
      var first := Review(CardState("casa", "house", 0, t0, 0, 0), true, t0).card;
      var second := Review(first, false, t1).card;
      first.level == 1 && first.nextReview == t0 + 3 * MicrosPerDay &&
      second.level == 0 && second.nextReview == t1 + MicrosPerDay &&
      second.reviews == 2 && second.correct == 1
  {
  }
}
