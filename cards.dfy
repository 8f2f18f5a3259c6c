/** The flashcard object, the review update that mutates it, adding a card to
    the deck and selecting the cards that are due. */
module Cards {
  import opened Wrappers
  import opened Builtins
  import opened Schedule

  /** One word/translation pair with its scheduling state. */
  class Flashcard {
    var word: string
    var translation: string
    var level: int
    var nextReview: int
    var reviews: int
    var correct: int

    /** The card's fields as a value. */
    function State(): CardState
      reads this
    {
      CardState(word, translation, level, nextReview, reviews, correct)
    }

    ghost predicate Valid()
      reads this
    {
      WellFormed(State())
    }

    /** A card starts with no reviews; without an explicit next-review time it
        is due at once. */
    constructor (word: string, translation: string, level: int, nextReview: Option<int>, now: int)
      ensures State() == CardState(word, translation, level,
                                   if nextReview.Some? then nextReview.value else now, 0, 0)
      ensures 0 <= level <= TopLevel ==> Valid()
    {
      this.word := word;
      this.translation := translation;
      this.level := level;
      this.nextReview := if nextReview.Some? then nextReview.value else now;
      this.reviews := 0;
      this.correct := 0;
    }
  }

  /** Records one review answered `correct` at time `now`, in place. Returns
      false where Python raised IndexError: the counters and the level are
      updated by then, the next-review time is not. */
  method UpdateCardStatus(card: Flashcard, correct: bool, now: int) returns (scheduled: bool)
    modifies card
    ensures Reviewed(card.State(), scheduled) == Review(old(card.State()), correct, now)
    ensures old(card.Valid()) ==> scheduled && card.Valid()
  {
    card.reviews := card.reviews + 1;
    if correct {
      card.correct := card.correct + 1;
      card.level := Min(|Intervals| - 1, card.level + 1);
    } else {
      card.level := Max(0, card.level - 1);
    }
    var days := Index(Intervals, card.level);
    scheduled := days.Some?;
    if scheduled {
      card.nextReview := now + days.value * MicrosPerDay;
    }
  }

  /** Adds a card for a non-empty word and translation at the end of the deck;
      an empty word or translation adds nothing. */
  method AddCard(cards: seq<Flashcard>, word: string, translation: string, now: int)
    returns (result: seq<Flashcard>)
    ensures word == "" || translation == "" ==> result == cards
    ensures word != "" && translation != "" ==>
      && |result| == |cards| + 1
      && result[..|cards|] == cards
      && fresh(result[|cards|])
      && result[|cards|].State() == CardState(word, translation, 0, now, 0, 0)
      && result[|cards|].Valid()
  {
    result := cards;
    if word != "" && translation != "" {
      var card := new Flashcard(word, translation, 0, None, now);
      result := cards + [card];
    }
  }

  /** The cards due at time `now`, in deck order. The card objects themselves
      are returned. */
  function DueCards(cards: seq<Flashcard>, now: int): (due: seq<Flashcard>)
    reads cards
    ensures |due| <= |cards|
    ensures forall c :: c in due ==> c in cards && IsDue(c.State(), now)
    ensures forall i :: 0 <= i < |cards| && IsDue(cards[i].State(), now) ==> cards[i] in due
    decreases |cards|
  {
    if cards == [] then []
    else (if IsDue(cards[0].State(), now) then [cards[0]] else []) + DueCards(cards[1..], now)
  }

  /** Selecting from a deck split in two is selecting from each part in turn:
      the selection keeps deck order. */
  lemma {:induction false} DueCardsAppend(a: seq<Flashcard>, b: seq<Flashcard>, now: int)
    ensures DueCards(a + b, now) == DueCards(a, now) + DueCards(b, now)
    decreases |a|
  {
    if a == [] {
      assert a + b == b;
    } else {
      assert (a + b)[0] == a[0];
      assert (a + b)[1..] == a[1..] + b;
      DueCardsAppend(a[1..], b, now);
    }
  }

  /** `xs` is `ys` with some elements left out. */
  ghost predicate IsSubsequence<T>(xs: seq<T>, ys: seq<T>)
    decreases |ys|
  {
    xs == [] ||
    (ys != [] &&
     ((xs[0] == ys[0] && IsSubsequence(xs[1..], ys[1..])) || IsSubsequence(xs, ys[1..])))
  }

  /** As time passes no card stops being due: the cards due earlier are, in
      order, among those due later. */
  lemma {:induction false} DueCardsGrowWithTime(cards: seq<Flashcard>, t1: int, t2: int)
    requires t1 <= t2
    ensures IsSubsequence(DueCards(cards, t1), DueCards(cards, t2))
    decreases |cards|
  {
    if cards != [] {
      DueCardsGrowWithTime(cards[1..], t1, t2);
      var earlier, later := DueCards(cards[1..], t1), DueCards(cards[1..], t2);
      if IsDue(cards[0].State(), t1) {
        assert ([cards[0]] + earlier)[1..] == earlier;
        assert ([cards[0]] + later)[1..] == later;
      } else if IsDue(cards[0].State(), t2) {
        assert DueCards(cards, t1) == earlier;
        assert DueCards(cards, t2) == [cards[0]] + later;
        assert ([cards[0]] + later)[1..] == later;
        assert IsSubsequence(earlier, [cards[0]] + later);
      } else {
        assert DueCards(cards, t1) == earlier;
        assert DueCards(cards, t2) == later;
      }
    }
  }
}
