# Flashcard scheduler — a Dafny model

This project models the decision logic of a language-learning flashcard app
(`main.py`): the flashcard record, the spaced-repetition transition applied
when a card is reviewed, the selection of due cards, the multiple-choice quiz
builder, the record a card is saved as, and the session's quiz counters and
browser position. The rest of the app is Streamlit presentation and is not
modelled.

Modules, one per component:

- `Wrappers` (wrappers.dfy): `Option` and `Result`, the latter standing for a raised exception.
- `Builtins` (builtins.dfy): Python's `min`, `max` and list indexing (negative
  indices count from the end; an index out of range is IndexError).
- `Schedule` (schedule.dfy): the interval table `[1, 3, 7, 14, 30, 90]`, a
  card's state as a value (`CardState`), the level step (`NextLevel`), one
  review (`Review`), series of reviews (`ReviewAll`) and what they keep.
- `Cards` (cards.dfy): the `Flashcard` class, `UpdateCardStatus` which
  mutates a card in place, adding a card, and the due-card filter.
- `Serialization` (serialization.dfy): `to_dict`/`from_dict` as `Encode`/`Decode`
  over a field-name-to-value map, their round trips, and the list versions
  used when saving and loading the deck.
- `Quiz` (quiz.dfy): `create_quiz`, with `random.sample` and `random.shuffle`
  as nondeterministic choices.
- `Session` (session.dfy): the quiz score, the quiz review count and the
  browser index kept for one session.

Time is an integer parameter `now`. Timestamps are integers counting
microseconds (the resolution of Python's `datetime`), so a day is
86 400 000 000 of them and `timedelta(days=d)` is `d * MicrosPerDay`.

Behaviour of `main.py` that the model keeps:

- `from_dict` does not validate `level` (main.py:47), so a loaded card can
  carry any level. `Review` is therefore total over every integer level, with
  Python's indexing (main.py:71): a level below the table wraps around from the
  end, and one above it raises IndexError after `reviews`, `correct` and
  `level` were already updated (`scheduled == false`). It is proved that this
  happens exactly when a correct answer meets a level below -7 or a wrong
  answer a level above 6, and never for a well-formed card.
- `create_quiz` takes the first card whose word matches (main.py:74), and every
  card for that word is left out of the distractor pool (main.py:76). Two cards
  may share a word.
- `from_dict` reads `reviews` and `correct` with a default of 0 (main.py:49-50);
  a missing `word`, `translation`, `level` or `next_review` raises KeyError
  (main.py:47-48), reported for the first such field in that order.
- The due list keeps deck order (main.py:128).

## Model

| member | source | states |
|---|---|---|
| `Builtins.Min` | main.py:68 | the result is at most both arguments and is one of them |
| `Builtins.Max` | main.py:70 | the result is at least both arguments and is one of them |
| `Builtins.Index` | main.py:71 | `xs[i]` succeeds exactly for `-len(xs) <= i < len(xs)`; a negative index counts from the end; the value is an element of `xs` |
| `Schedule.NextLevel` | main.py:66-70 | a correct answer never leaves the level above the top, a wrong one never below 0; from a valid level the result is valid and differs by at most one; a correct answer raises the level by one unless it is at the top, a wrong one lowers it by one unless it is 0 |
| `Schedule.Review` | main.py:64-71 | `reviews` grows by one, `correct` by one exactly on a correct answer, the level is the stepped level, word and translation are unchanged; IndexError happens exactly for the out-of-table levels named above and leaves `next_review` unchanged; whenever the new level indexes the table, even for a card outside the invariant, `next_review` is `now` plus that entry's days, a negative level counting from the end of the table; from a well-formed card the result is well-formed, `next_review == now + INTERVALS[new level]` days, and the card is not due again for at least a day |
| `Schedule.ReviewAllKeepsInvariant` | main.py:64-71 | after any series of answers a well-formed card stays well-formed (`0 <= level <= 5`, `0 <= correct <= reviews`), `reviews` counts every answer, `correct` counts the right ones, and the card is due one interval of its final level after the last answer |
| `Schedule.CorrectStreak` | main.py:66-68 | `k` right answers in a row lift the level to `min(5, level + k)` |
| `Schedule.WrongStreak` | main.py:69-70 | `k` wrong answers in a row lower the level to `max(0, level - k)`: a one-step penalty each time, not a reset |
| `Schedule.NewCardScenario` | main.py:24-71 | a new card answered right at `t0` is at level 1 and due at `t0` plus 3 days; then answered wrong at `t1` it is at level 0 and due at `t1` plus 1 day, with 2 reviews and 1 correct |
| `Cards.Flashcard.constructor` | main.py:27-33 | a new card has the given word, translation and level, zero reviews and zero correct, and is due at the given time or at `now` when none is given |
| `Cards.UpdateCardStatus` | main.py:64-71 | the card's new fields are those `Review` gives for its old fields, and the method reports exactly when IndexError was raised; a valid card stays valid and never raises |
| `Cards.AddCard` | main.py:93-96 | a non-empty word and translation append one fresh, well-formed card at level 0 due at `now`; otherwise the deck is unchanged |
| `Cards.DueCards` | main.py:128 | the result contains only cards of the deck that are due at `now`, and contains every due card; the card objects themselves are returned |
| `Cards.DueCardsAppend` | main.py:128 | the filter distributes over concatenation, so it keeps deck order and keeps each due card once per occurrence |
| `Cards.DueCardsGrowWithTime` | main.py:128 | for `t1 <= t2` the cards due at `t1` form a subsequence of those due at `t2` |
| `Serialization.Encode` | main.py:35-43 | the record has exactly the six fields, and decoding it gives back the same card |
| `Serialization.Decode` | main.py:45-51 | decoding succeeds exactly when every field is readable (the four required fields present with a value of their kind, each counter absent or an integer); the card's fields are then the record's values, an absent counter reading as 0; otherwise the error names the first unreadable field in the order word, translation, level, next_review, reviews, correct, and is a missing-key error exactly when that field is absent |
| `Serialization.FirstUnreadable` | main.py:47-50 | none exactly when every given field can be read; otherwise one of the given fields that cannot be read |
| `Serialization.FirstUnreadableIsFirst` | main.py:47-50 | every field before the one `FirstUnreadable` names can be read, so it is the first unreadable field in the given order |
| `Serialization.DecodeThenEncode` | main.py:35-51 | a record holding exactly the six fields that decodes is the encoding of the card it decodes to |
| `Serialization.FromDict` | main.py:45-51 | builds a fresh card object whose fields are the decoded ones, and fails exactly when decoding fails, with the same error |
| `Serialization.EncodeAll` | main.py:55 | one record per card, in deck order, each the card's encoding |
| `Serialization.DecodeAll` | main.py:60 | on success one card per record, in order, each the record's decoding; on failure the error is that of the first record that fails to decode |
| `Serialization.DecodeAllEncodeAll` | main.py:53-60 | saving a deck and loading it back gives the same cards, in the same order, with every field |
| `Quiz.FirstMatch` | main.py:74 | no result exactly when no card has the word; otherwise the position of a card with the word with no such card before it |
| `Quiz.OtherCards` | main.py:76 | the result holds only deck cards for other words and every such card |
| `Quiz.OtherCardsAppend` | main.py:76 | the filter distributes over concatenation, so it keeps deck order and keeps each card for another word once per occurrence |
| `Quiz.Translations` | main.py:77 | one translation per card, in order |
| `Quiz.Sample` | main.py:77-78 | `k` items drawn from distinct positions of the pool: the result has length `k` and is a sub-multiset of the pool |
| `Quiz.Shuffle` | main.py:79 | the array after shuffling is a permutation of the array before |
| `Quiz.ShuffledOptions` | main.py:75-79 | the options are the answer and `min(3, len(pool))` items of the pool drawn from distinct positions, in any order |
| `Quiz.SingleCardHasNoOthers` | main.py:76 | in a one-card deck whose card is for the word, there are no cards for other words |
| `Quiz.CreateQuiz` | main.py:73-80 | fails exactly when no card has the word; otherwise the answer is the translation of the first card with the word, the options contain it, number `1 + min(3, n)` for the `n` cards with other words, and besides one copy of the answer are drawn from those cards' translations; a one-card deck gives exactly one option, its translation |
| `Session.SessionProgress.constructor` | main.py:16-21 | a session starts with score, quiz review count and browser index at 0 |
| `Session.SessionProgress.SubmitAnswer` | main.py:170-177 | the answer is right exactly when it equals the correct one; the review count always grows by one, the score exactly when the answer is right, so score never exceeds reviews |
| `Session.SessionProgress.ShowPrevious` | main.py:209-210 | the index becomes `max(0, index - 1)`: one back, never below 0 |
| `Session.SessionProgress.ShowNext` | main.py:213-214 | the index becomes `min(count - 1, index + 1)`: an index within the deck stays within it |

## Left out

- Which card object the review tab updates: `cards` is reloaded on every run of the script (main.py:86), while the reviewed card is the one kept in the session across runs (main.py:131-134), and the answer buttons sit under the one-shot "Show Translation" button (main.py:137-155). The model only covers the update of a given card object.
- The Streamlit interface (main.py:9-21, 82-220 apart from the lines above): tabs, buttons, reruns, the `current_card` kept in the session, and the random pick of the card to show (`random.choice`, main.py:132 and 162).
- `save_cards` and `load_cards` file I/O (main.py:53-62): opening and writing the JSON file, the JSON text, and returning an empty deck on FileNotFoundError. Only the mapping between cards and records is modelled.
- `datetime.now()`: replaced by the parameter `now`.
- Cards.DueCards: the comprehension at main.py:128 calls `datetime.now()` once per card, and the wall clock may move, even backwards, between calls. The model compares the whole deck against one instant. `Cards.DueCardsGrowWithTime` bounds the difference only when the clock moves forward.
- Schedule.Review: `datetime` has a bounded range, so `datetime.now() + timedelta(days=…)` at main.py:71 raises OverflowError near year 9999. The model's timestamps are unbounded integers and drop that error path.
- ISO 8601 formatting and parsing of `next_review` (main.py:40, 48): the saved timestamp is its integer value.
- Floating-point statistics: the average accuracy (main.py:104-105), per-word accuracy and its chart (main.py:113-121), the quiz accuracy percentage (main.py:184), and the review total shown with them (main.py:103).
- The distribution of `random.sample` and `random.shuffle`: every choice they could make is allowed. Which algorithm `random.sample` runs internally is not modelled. Only its result is: items from distinct positions.
- Serialization.Decode: Python stores whatever JSON value the `word`, `translation`, `level`, `reviews` and `correct` fields hold. The typed model instead reports a value of the wrong kind as `BadValue`. A `next_review` that is not a timestamp is also `BadValue`; in Python, `fromisoformat` raises on it.
- Session.SessionProgress.ShowNext: requires a non-empty deck, because the browser and its buttons are only shown when there are cards.
