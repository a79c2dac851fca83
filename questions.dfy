/** The fixed table of five questions the survey runs over. */
module Questions {

  /** A rating question offers integer buttons; a text question a free-text area. */
  datatype Kind = Rating | Text

  /** One question; `options` is empty for a text question. */
  datatype Question = Question(id: int, text: string, kind: Kind, options: seq<int>)

  /** The question table, loaded once when the component mounts. */
  function Table(): (qs: seq<Question>)
    ensures |qs| == 5
    ensures forall i :: 0 <= i < |qs| ==> qs[i].id == i + 1
    ensures forall i :: 0 <= i < 4 ==> qs[i].kind == Rating
    ensures forall i :: 0 <= i < 3 ==> IsScale(qs[i].options, 5)
    ensures IsScale(qs[3].options, 10)
    ensures qs[4].kind == Text && qs[4].options == []
  {
    [ Question(1, "How satisfied are you with our products?", Rating, [1, 2, 3, 4, 5]),
      Question(2, "How fair are the prices compared to similar retailers?", Rating, [1, 2, 3, 4, 5]),
      Question(3, "How satisfied are you with the value for money of your purchase?", Rating, [1, 2, 3, 4, 5]),
      Question(4, "On a scale of 1-10, how would you recommend us to your friends and family?",
               Rating, [1, 2, 3, 4, 5, 6, 7, 8, 9, 10]),
      Question(5, "What could we do to improve our service?", Text, []) ]
  }

  /** `options` is the ascending scale 1, 2, ..., top. */
  predicate IsScale(options: seq<int>, top: nat) {
    |options| == top && forall k :: 0 <= k < |options| ==> options[k] == k + 1
  }

  /** Index of the last question. */
  function LastIndex(): (last: int)
    ensures InRange(last) && !InRange(last + 1)
  {
    |Table()| - 1
  }

  /** `i` is a valid index into the table. */
  predicate InRange(i: int) {
    0 <= i < |Table()|
  }

  /** Some question of the table has this id. */
  predicate HasId(id: int) {
    exists i :: 0 <= i < |Table()| && Table()[i].id == id
  }

  /** No two questions share an id, and the ids are exactly 1..5. */
  lemma IdsDistinct()
    ensures forall i, j :: 0 <= i < j < |Table()| ==> Table()[i].id != Table()[j].id
    ensures forall id :: HasId(id) <==> 1 <= id <= 5
  {
    forall id: int | 1 <= id <= 5
      ensures HasId(id)
    {
      assert Table()[id - 1].id == id;
    }
  }
}
