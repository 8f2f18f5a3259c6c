/** The per-session counters of the quiz and the position in the card browser.
    Quiz answers change only these counters, never the cards' own statistics. */
module Session {
  import opened Builtins

  class SessionProgress {
    var quizScore: int
    var totalReviews: int
    var viewIndex: int

    /** Never more right answers than answers, and a browser position that is
        not negative. */
    ghost predicate Valid()
      reads this
    {
      0 <= quizScore <= totalReviews && 0 <= viewIndex
    }

    /** A new session starts with every counter at zero. */
    constructor ()
      ensures quizScore == 0 && totalReviews == 0 && viewIndex == 0
      ensures Valid()
    {
      quizScore, totalReviews, viewIndex := 0, 0, 0;
    }

    /** Scores a submitted quiz answer: every answer counts as a review, and
        only an answer equal to the correct one raises the score. */
    method SubmitAnswer(userAnswer: string, correctAnswer: string) returns (isCorrect: bool)
      modifies this
      ensures isCorrect <==> userAnswer == correctAnswer
      ensures totalReviews == old(totalReviews) + 1
      ensures quizScore == if isCorrect then old(quizScore) + 1 else old(quizScore)
      ensures viewIndex == old(viewIndex)
      ensures old(Valid()) ==> Valid()
    {
      isCorrect := userAnswer == correctAnswer;
      if isCorrect {
        quizScore := quizScore + 1;
      }
      totalReviews := totalReviews + 1;
    }

    /** Moves the browser one card back, stopping at the first card. */
    method ShowPrevious()
      modifies this
      ensures viewIndex == Max(0, old(viewIndex) - 1)
      ensures quizScore == old(quizScore) && totalReviews == old(totalReviews)
      ensures old(Valid()) ==> Valid()
      ensures 0 <= old(viewIndex) ==> old(viewIndex) - 1 <= viewIndex <= old(viewIndex)
    {
      viewIndex := Max(0, viewIndex - 1);
    }

    /** Moves the browser one card forward in a deck of `cardCount` cards,
        stopping at the last card. The browser is shown only for a non-empty
        deck. */
    method ShowNext(cardCount: int)
      requires cardCount > 0
      modifies this
      ensures viewIndex == Min(cardCount - 1, old(viewIndex) + 1)
      ensures quizScore == old(quizScore) && totalReviews == old(totalReviews)
      ensures 0 <= old(viewIndex) < cardCount ==> 0 <= viewIndex < cardCount
      ensures old(Valid()) && old(viewIndex) < cardCount ==> Valid()
    {
      viewIndex := Min(cardCount - 1, viewIndex + 1);
    }
  }
}
