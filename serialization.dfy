/** The record a card is saved as, and reading a card back from one. A saved
    timestamp is kept as its integer value; its ISO 8601 text form is not
    modelled. */
module Serialization {
  import opened Wrappers
  import opened Schedule
  import opened Cards

  /** A field value of a saved record. */
  datatype Value = Str(s: string) | Int(i: int) | Stamp(t: int)

  /** A saved card: field name to value. */
  type Record = map<string, Value>

  /** Why a record could not be read back: a required field is absent (KeyError),
      or a field holds a value of the wrong kind. */
  datatype LoadError = MissingKey(key: string) | BadValue(key: string)

  /** The card as a record with exactly its six fields. */
  function Encode(c: CardState): (d: Record)
    ensures d.Keys == {"word", "translation", "level", "next_review", "reviews", "correct"}
    ensures Decode(d) == Success(c)
  {
    map[
      "word" := Str(c.word),
      "translation" := Str(c.translation),
      "level" := Int(c.level),
      "next_review" := Stamp(c.nextReview),
      "reviews" := Int(c.reviews),
      "correct" := Int(c.correct)]
  }

  function GetString(d: Record, key: string): Result<string, LoadError> {
    if key !in d then Failure(MissingKey(key))
    else if d[key].Str? then Success(d[key].s)
    else Failure(BadValue(key))
  }

  function GetInt(d: Record, key: string): Result<int, LoadError> {
    if key !in d then Failure(MissingKey(key))
    else if d[key].Int? then Success(d[key].i)
    else Failure(BadValue(key))
  }

  function GetStamp(d: Record, key: string): Result<int, LoadError> {
    if key !in d then Failure(MissingKey(key))
    else if d[key].Stamp? then Success(d[key].t)
    else Failure(BadValue(key))
  }

  /** An integer field that reads as 0 when absent. */
  function GetIntOrZero(d: Record, key: string): Result<int, LoadError> {
    if key !in d then Success(0)
    else if d[key].Int? then Success(d[key].i)
    else Failure(BadValue(key))
  }

  /** The fields of a saved card, in the order `from_dict` reads them. */
  const FieldOrder: seq<string> := ["word", "translation", "level", "next_review", "reviews", "correct"]

  /** Field `key` of `d` can be read: the two strings, the level and the
      timestamp must be present with a value of their kind; a counter must be
      absent or an integer. */
  predicate Readable(d: Record, key: string) {
    if key == "word" || key == "translation" then key in d && d[key].Str?
    else if key == "level" then key in d && d[key].Int?
    else if key == "next_review" then key in d && d[key].Stamp?
    else key !in d || d[key].Int?
  }

  /** The first of `keys` that cannot be read from `d`, if any. */
  function FirstUnreadable(d: Record, keys: seq<string>): (r: Option<string>)
    ensures r.None? <==> forall i :: 0 <= i < |keys| ==> Readable(d, keys[i])
    ensures r.Some? ==> r.value in keys && !Readable(d, r.value)
    decreases |keys|
  {
    if keys == [] then None
    else if !Readable(d, keys[0]) then Some(keys[0])
    else FirstUnreadable(d, keys[1..])
  }

  /** The field `FirstUnreadable` names comes after only readable fields. */
  lemma {:induction false} FirstUnreadableIsFirst(d: Record, keys: seq<string>)
    ensures FirstUnreadable(d, keys).Some? ==>
      exists i :: 0 <= i < |keys| && keys[i] == FirstUnreadable(d, keys).value &&
        forall j :: 0 <= j < i ==> Readable(d, keys[j])
    decreases |keys|
  {
    if keys != [] && Readable(d, keys[0]) {
      FirstUnreadableIsFirst(d, keys[1..]);
      var r := FirstUnreadable(d, keys[1..]);
      if r.Some? {
        var i :| 0 <= i < |keys[1..]| && keys[1..][i] == r.value &&
          forall j :: 0 <= j < i ==> Readable(d, keys[1..][j]);
        assert keys[i + 1] == r.value;
        assert forall j :: 0 <= j < i + 1 ==> Readable(d, keys[j]) by {
          forall j | 0 <= j < i + 1
            ensures Readable(d, keys[j])
          {
            if j > 0 {
              assert keys[j] == keys[1..][j - 1];
            }
          }
        }
      }
    }
  }

  /** Reads a card back from a record, field by field in the order word,
      translation, level, next_review, reviews, correct; the first field that
      fails decides the error. The two counters default to 0 when absent. */
  function Decode(d: Record): (r: Result<CardState, LoadError>)
    ensures r.Success? <==> FirstUnreadable(d, FieldOrder).None?
    ensures r.Failure? ==> FirstUnreadable(d, FieldOrder) == Some(r.error.key)
    ensures r.Failure? ==> (r.error.MissingKey? <==> r.error.key !in d)
    ensures r.Success? ==>
      && "word" in d && d["word"].Str? && r.value.word == d["word"].s
      && "translation" in d && d["translation"].Str? && r.value.translation == d["translation"].s
      && "level" in d && d["level"].Int? && r.value.level == d["level"].i
      && "next_review" in d && d["next_review"].Stamp? && r.value.nextReview == d["next_review"].t
      && r.value.reviews == (if "reviews" in d then d["reviews"].i else 0)
      && r.value.correct == (if "correct" in d then d["correct"].i else 0)
  {
    var word :- GetString(d, "word");
    var translation :- GetString(d, "translation");
    var level :- GetInt(d, "level");
    var nextReview :- GetStamp(d, "next_review");
    var reviews :- GetIntOrZero(d, "reviews");
    var correct :- GetIntOrZero(d, "correct");
    Success(CardState(word, translation, level, nextReview, reviews, correct))
  }

  /** A record holding exactly the six fields, each of its kind, is the
      encoding of the card it decodes to. */
  lemma DecodeThenEncode(d: Record)
    requires d.Keys == {"word", "translation", "level", "next_review", "reviews", "correct"}
    requires Decode(d).Success?
    ensures Encode(Decode(d).value) == d
  {
  }

  /** Builds a new card object from a record, or reports why it cannot. */
  method FromDict(data: Record) returns (r: Result<Flashcard, LoadError>)
    ensures r.Success? <==> Decode(data).Success?
    ensures r.Success? ==> fresh(r.value) && r.value.State() == Decode(data).value
    ensures r.Failure? ==> r.error == Decode(data).error
  {
    var decoded := Decode(data);
    if decoded.Failure? {
      return Failure(decoded.error);
    }
    var s := decoded.value;
    var card := new Flashcard(s.word, s.translation, s.level, Some(s.nextReview), s.nextReview);
    card.reviews := s.reviews;
    card.correct := s.correct;
    r := Success(card);
  }

  /** The deck as a list of records, in deck order. */
  function EncodeAll(cards: seq<CardState>): (records: seq<Record>)
    ensures |records| == |cards|
    ensures forall i :: 0 <= i < |cards| ==> records[i] == Encode(cards[i])
  {
    seq(|cards|, i requires 0 <= i < |cards| => Encode(cards[i]))
  }

  /** Reads a list of records back in order; the first record that fails
      decides the error. */
  function DecodeAll(records: seq<Record>): (r: Result<seq<CardState>, LoadError>)
    ensures r.Success? ==>
      |r.value| == |records| &&
      forall i :: 0 <= i < |records| ==> Decode(records[i]) == Success(r.value[i])
    ensures r.Failure? ==>
      exists i :: 0 <= i < |records| && Decode(records[i]) == Failure(r.error) &&
        forall j :: 0 <= j < i ==> Decode(records[j]).Success?
    decreases |records|
  {
    if records == [] then Success([])
    else
      var card :- Decode(records[0]);
      var rest :- DecodeAll(records[1..]);
      Success([card] + rest)
  }

  /** Saving a deck and loading it back gives the same cards, in the same order. */
  lemma DecodeAllEncodeAll(cards: seq<CardState>)
    ensures DecodeAll(EncodeAll(cards)) == Success(cards)
  {
    var loaded := DecodeAll(EncodeAll(cards));
    assert loaded.Success?;
    assert loaded.value == cards;
  }
}
