/**
 * The question list of the "Add Vendor" draft (src/components/Vendors.js):
 * the pure part of its editing handlers, the rule that keeps it non-empty, and
 * its serialisation into `{question}` records for the create request.
 */
module QuestionList {

  /** The draft's questions when the component mounts: a single empty question. */
  const Initial: seq<string> := [""]

  /** One edit the form can make to the list. */
  datatype Edit =
    | AddQuestion
    | ChangeQuestion(index: int, value: string)
    | RemoveQuestion(index: int)

  /**
   * `qs.filter((_, i) => i !== index)`: every entry whose position differs
   * from `index`, in order. An `index` outside the list removes nothing.
   */
  function Without(qs: seq<string>, index: int): (r: seq<string>)
    ensures 0 <= index < |qs| ==> r == qs[..index] + qs[index + 1..]
    ensures !(0 <= index < |qs|) ==> r == qs
    decreases |qs|
  {
    if qs == [] then []
    else
      var last := |qs| - 1;
      var front := Without(qs[..last], index);
      assert qs == qs[..last] + [qs[last]];
      if last == index then front
      else
        assert 0 <= index < last ==> front + [qs[last]] == qs[..index] + qs[index + 1..];
        front + [qs[last]]
  }

  /** The form only edits entries it displays, so a change names an existing index. */
  predicate Allowed(qs: seq<string>, e: Edit)
  {
    e.ChangeQuestion? ==> 0 <= e.index < |qs|
  }

  /** The list after one edit: `addQuestion`, `handleQuestionChange` or `removeQuestion`. */
  function Step(qs: seq<string>, e: Edit): seq<string>
    requires Allowed(qs, e)
  {
    match e
    case AddQuestion => qs + [""]
    case ChangeQuestion(i, v) => qs[i := v]
    case RemoveQuestion(i) => if |qs| > 1 then Without(qs, i) else qs
  }

  /** A sequence of edits each of which the form can issue in the state it reaches. */
  predicate Issuable(qs: seq<string>, edits: seq<Edit>)
    decreases |edits|
  {
    edits == [] || (Allowed(qs, edits[0]) && Issuable(Step(qs, edits[0]), edits[1..]))
  }

  /** The list after applying `edits` in order. */
  function Replay(qs: seq<string>, edits: seq<Edit>): seq<string>
    requires Issuable(qs, edits)
    decreases |edits|
  {
    if edits == [] then qs else Replay(Step(qs, edits[0]), edits[1..])
  }

  /** Adding appends exactly one empty question and keeps every earlier entry. */
  lemma AddSpec(qs: seq<string>)
    ensures |Step(qs, AddQuestion)| == |qs| + 1
    ensures Step(qs, AddQuestion)[..|qs|] == qs
    ensures Step(qs, AddQuestion)[|qs|] == ""
  {
  }

  /** Changing entry `i` keeps the length, sets entry `i` and leaves all others alone. */
  lemma ChangeSpec(qs: seq<string>, i: int, v: string)
    requires 0 <= i < |qs|
    ensures |Step(qs, ChangeQuestion(i, v))| == |qs|
    ensures Step(qs, ChangeQuestion(i, v))[i] == v
    ensures forall k :: 0 <= k < |qs| && k != i ==> Step(qs, ChangeQuestion(i, v))[k] == qs[k]
  {
  }

  /**
   * Removing is refused on a one-entry list; otherwise a valid index drops
   * exactly that entry, keeping the rest in order, and any other index
   * changes nothing.
   */
  lemma RemoveSpec(qs: seq<string>, i: int)
    ensures |qs| <= 1 ==> Step(qs, RemoveQuestion(i)) == qs
    ensures |qs| > 1 && 0 <= i < |qs| ==>
      var r := Step(qs, RemoveQuestion(i));
      |r| == |qs| - 1 &&
      (forall k :: 0 <= k < i ==> r[k] == qs[k]) &&
      (forall k :: i <= k < |r| ==> r[k] == qs[k + 1])
    ensures |qs| > 1 && !(0 <= i < |qs|) ==> Step(qs, RemoveQuestion(i)) == qs
  {
  }

  /** Every edit keeps a non-empty list non-empty. */
  lemma StepKeepsNonEmpty(qs: seq<string>, e: Edit)
    requires |qs| >= 1 && Allowed(qs, e)
    ensures |Step(qs, e)| >= 1
  {
  }

  /** Any issuable sequence of edits keeps a non-empty list non-empty. */
  lemma {:induction false} ReplayKeepsNonEmpty(qs: seq<string>, edits: seq<Edit>)
    requires |qs| >= 1 && Issuable(qs, edits)
    ensures |Replay(qs, edits)| >= 1
    decreases |edits|
  {
    if edits != [] {
      StepKeepsNonEmpty(qs, edits[0]);
      ReplayKeepsNonEmpty(Step(qs, edits[0]), edits[1..]);
    }
  }

  /** From the initial draft, no issuable sequence of edits empties the list. */
  lemma NeverEmpty(edits: seq<Edit>)
    requires Issuable(Initial, edits)
    ensures |Replay(Initial, edits)| >= 1
  {
    ReplayKeepsNonEmpty(Initial, edits);
  }

  /** One entry of the `questions` payload: `{question: q}`. */
  datatype QuestionRecord = QuestionRecord(question: string)

  /** `questions.map((q) => ({ question: q }))`. */
  function Serialize(qs: seq<string>): (r: seq<QuestionRecord>)
    ensures |r| == |qs|
    ensures forall k :: 0 <= k < |qs| ==> r[k].question == qs[k]
    decreases |qs|
  {
    if qs == [] then [] else [QuestionRecord(qs[0])] + Serialize(qs[1..])
  }

  /** The `question` field of each record, in order: what a reader of the payload recovers. */
  function Texts(rs: seq<QuestionRecord>): seq<string>
    decreases |rs|
  {
    if rs == [] then [] else [rs[0].question] + Texts(rs[1..])
  }

  /** The payload carries the draft exactly: reading it back gives the question list. */
  lemma {:induction false} TextsSerialize(qs: seq<string>)
    ensures Texts(Serialize(qs)) == qs
    decreases |qs|
  {
    if qs != [] {
      TextsSerialize(qs[1..]);
    }
  }
}
