/** Multiple-choice quiz construction: the answer is the translation of the
    first card for the word, and up to three distractors are drawn from the
    translations of the cards for other words, then all options are shuffled.
    The random choices are left open: any choice the random source can make is
    covered. */
module Quiz {
  import opened Wrappers
  import opened Builtins
  import opened Cards

  /** The position of the first card for `word`, if any. */
  function FirstMatch(cards: seq<Flashcard>, word: string): (r: Option<nat>)
    reads cards
    ensures r.None? <==> forall i :: 0 <= i < |cards| ==> cards[i].word != word
    ensures r.Some? ==>
      && r.value < |cards|
      && cards[r.value].word == word
      && forall j :: 0 <= j < r.value ==> cards[j].word != word
    decreases |cards|
  {
    if cards == [] then None
    else if cards[0].word == word then Some(0)
    else match FirstMatch(cards[1..], word)
      case None => None
      case Some(i) => Some(i + 1)
  }

  /** The cards for words other than `word`, in deck order. */
  function OtherCards(cards: seq<Flashcard>, word: string): (others: seq<Flashcard>)
    reads cards
    ensures |others| <= |cards|
    ensures forall c :: c in others ==> c in cards && c.word != word
    ensures forall i :: 0 <= i < |cards| && cards[i].word != word ==> cards[i] in others
    decreases |cards|
  {
    if cards == [] then []
    else (if cards[0].word != word then [cards[0]] else []) + OtherCards(cards[1..], word)
  }

  /** Filtering a deck split in two is filtering each part in turn: the cards
      for other words keep deck order, each once per occurrence. */
  lemma {:induction false} OtherCardsAppend(a: seq<Flashcard>, b: seq<Flashcard>, word: string)
    ensures OtherCards(a + b, word) == OtherCards(a, word) + OtherCards(b, word)
    decreases |a|
  {
    if a == [] {
      assert a + b == b;
    } else {
      assert (a + b)[0] == a[0];
      assert (a + b)[1..] == a[1..] + b;
      OtherCardsAppend(a[1..], b, word);
    }
  }

  /** The translations of the cards, in order. */
  function Translations(cards: seq<Flashcard>): (ts: seq<string>)
    reads cards
    ensures |ts| == |cards|
    ensures forall i :: 0 <= i < |cards| ==> ts[i] == cards[i].translation
  {
    seq(|cards|, i requires 0 <= i < |cards| reads cards => cards[i].translation)
  }

  /** Draws `k` items from distinct positions of `pool`, as `random.sample`
      does; which positions is left open. */
  method Sample(pool: seq<string>, k: nat) returns (picked: seq<string>)
    requires k <= |pool|
    ensures |picked| == k
    ensures multiset(picked) <= multiset(pool)
  {
    var rest := pool;
    picked := [];
    while |picked| < k
      invariant |picked| <= k
      invariant |picked| + |rest| == |pool|
      invariant multiset(picked) + multiset(rest) == multiset(pool)
    {
      var j :| 0 <= j < |rest|;
      assert rest == rest[..j] + [rest[j]] + rest[j + 1..];
      picked := picked + [rest[j]];
      rest := rest[..j] + rest[j + 1..];
    }
  }

  /** Shuffles `a` in place by the Fisher-Yates walk `random.shuffle` takes:
      from the last position down, each element swaps with one at or before it;
      which one is left open. */
  method Shuffle(a: array<string>)
    modifies a
    ensures multiset(a[..]) == old(multiset(a[..]))
  {
    var i := a.Length - 1;
    while i > 0
      invariant -1 <= i < a.Length
      invariant multiset(a[..]) == old(multiset(a[..]))
    {
      var j :| 0 <= j <= i;
      a[i], a[j] := a[j], a[i];
      i := i - 1;
    }
  }

  /** The answer and `min(3, |pool|)` items drawn from distinct positions of
      `pool`, shuffled. */
  method ShuffledOptions(answer: string, pool: seq<string>) returns (options: seq<string>)
    ensures |options| == 1 + Min(3, |pool|)
    ensures answer in options
    ensures multiset(options) - multiset{answer} <= multiset(pool)
  {
    var picked := Sample(pool, Min(3, |pool|));
    var unshuffled := [answer] + picked;
    var a := new string[|unshuffled|](i requires 0 <= i < |unshuffled| => unshuffled[i]);
    assert a[..] == unshuffled;
    Shuffle(a);
    options := a[..];
    assert multiset(unshuffled) == multiset{answer} + multiset(picked);
    assert answer in multiset(options);
  }

  /** In a one-card deck whose card is for `word`, no card is for another word. */
  lemma SingleCardHasNoOthers(cards: seq<Flashcard>, word: string)
    requires |cards| == 1 && cards[0].word == word
    ensures OtherCards(cards, word) == []
  {
  }

  /** What `create_quiz` returns: the options in display order and the answer. */
  datatype Question = Question(options: seq<string>, answer: string)

  /** `next` found no card for the word (StopIteration). */
  datatype QuizError = NoCardForWord

  /** Builds the question for `currentWord`: the answer is the translation of
      the first card for that word, the options are the answer and
      `min(3, n)` translations drawn from distinct cards among the `n` cards
      for other words, in any order. */
  method CreateQuiz(cards: seq<Flashcard>, currentWord: string) returns (r: Result<Question, QuizError>)
    ensures r.Failure? <==> forall i :: 0 <= i < |cards| ==> cards[i].word != currentWord
    ensures r.Success? ==>
      var first := FirstMatch(cards, currentWord);
      first.Some? && r.value.answer == cards[first.value].translation
    ensures r.Success? ==>
      |r.value.options| == 1 + Min(3, |OtherCards(cards, currentWord)|)
    ensures r.Success? ==> r.value.answer in r.value.options
    ensures r.Success? ==>
      multiset(r.value.options) - multiset{r.value.answer}
        <= multiset(Translations(OtherCards(cards, currentWord)))
    ensures r.Success? && |cards| == 1 ==> r.value.options == [cards[0].translation]
  {
    var first := FirstMatch(cards, currentWord);
    if first.None? {
      return Failure(NoCardForWord);
    }
    var answer := cards[first.value].translation;
    var others := OtherCards(cards, currentWord);
    var options := ShuffledOptions(answer, Translations(others));
    if |cards| == 1 {
      SingleCardHasNoOthers(cards, currentWord);
    }
    r := Success(Question(options, answer));
  }
}
