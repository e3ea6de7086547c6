/**
 * `update_form`: the request that replaces a form's schema. It checks the payload for a
 * "questions" entry, deletes the form's follow-up questions and questions and commits, then adds
 * the rows the schema builder makes from the payload and commits again; an exception during the
 * rebuild rolls back only what the rebuild added, so the form is left with no questions.
 *
 * The two tables are sequences in insertion order; ids come from one counter per table.
 */
module FormUpdate {
  import opened Wrappers
  import opened Strings
  import opened JsonValues
  import opened Schema
  import opened SchemaBuilder

  /** The Question and SubQuestion tables, and the id each hands out next. */
  datatype Tables = Tables(
    questions: seq<Question>,
    subquestions: seq<SubQuestion>,
    nextQuestionId: nat,
    nextSubQuestionId: nat)

  /** The ids of the questions `qs`. */
  function QuestionIds(qs: seq<Question>): set<nat> {
    set q | q in qs :: q.id
  }

  /** No two questions share an id. */
  predicate UniqueQuestionIds(qs: seq<Question>) {
    forall i, j :: 0 <= i < j < |qs| ==> qs[i].id != qs[j].id
  }

  /** No two follow-up questions share an id. */
  predicate UniqueSubQuestionIds(ss: seq<SubQuestion>) {
    forall i, j :: 0 <= i < j < |ss| ==> ss[i].id != ss[j].id
  }

  /**
   * The tables are consistent: ids are primary keys below the next id to hand out, and every
   * follow-up question belongs to a question that exists.
   */
  predicate WellFormed(t: Tables) {
    (forall q :: q in t.questions ==> q.id < t.nextQuestionId) &&
    (forall s :: s in t.subquestions ==> s.id < t.nextSubQuestionId) &&
    (forall s :: s in t.subquestions ==> s.questionId in QuestionIds(t.questions)) &&
    UniqueQuestionIds(t.questions) && UniqueSubQuestionIds(t.subquestions)
  }

  /** The questions of forms other than `formId`, in order. */
  function OtherForms(qs: seq<Question>, formId: nat): (r: seq<Question>)
    ensures forall q :: q in r <==> q in qs && q.formId != formId
    ensures |r| <= |qs|
  {
    if qs == [] then []
    else (if qs[0].formId != formId then [qs[0]] else []) + OtherForms(qs[1..], formId)
  }

  /** The questions of form `formId`, in order. */
  function FormQuestions(qs: seq<Question>, formId: nat): (r: seq<Question>)
    ensures forall q :: q in r <==> q in qs && q.formId == formId
  {
    if qs == [] then []
    else (if qs[0].formId == formId then [qs[0]] else []) + FormQuestions(qs[1..], formId)
  }

  /** The ids of the questions of form `formId`. */
  function FormQuestionIds(qs: seq<Question>, formId: nat): set<nat> {
    set q | q in qs && q.formId == formId :: q.id
  }

  /** The follow-up questions that do not belong to any question whose id is in `ids`, in order. */
  function Detached(ss: seq<SubQuestion>, ids: set<nat>): (r: seq<SubQuestion>)
    ensures forall s :: s in r <==> s in ss && s.questionId !in ids
  {
    if ss == [] then []
    else (if ss[0].questionId !in ids then [ss[0]] else []) + Detached(ss[1..], ids)
  }

  /** Python's `'questions' in data`: a key of a dictionary, an item of a list, a substring of a string. */
  function HasQuestions(data: Json): (r: Result<bool, BuildError>)
    ensures data.JObj? ==> r == Ok(HasKey(data, "questions"))
    ensures r.Err? <==> !(data.JObj? || data.JArr? || data.JStr?)
  {
    match data
    case JObj(_) => Ok(HasKey(data, "questions"))
    case JArr(items) => Ok(JStr("questions") in items)
    case JStr(s) => Ok(Contains(s, "questions"))
    case _ => Err(TypeError)
  }

  /** How an update request ends. */
  datatype Outcome =
    | Updated                    // 200, the new schema committed
    | InvalidPayload             // 400, nothing touched
    | Failed(error: BuildError)  // 500 from the handler, after the rollback
    | Raised(error: BuildError)  // 500 from the framework: `in` raised before the handler's `try`

  /** The HTTP status of the response. */
  function StatusCode(o: Outcome): (code: int)
    ensures code == 200 <==> o.Updated?
    ensures code == 400 <==> o.InvalidPayload?
  {
    match o
    case Updated => 200
    case InvalidPayload => 400
    case Failed(_) => 500
    case Raised(_) => 500
  }

  /** The tables once the old schema of form `formId` is deleted and committed. */
  function Cleared(t: Tables, formId: nat): Tables {
    Tables(OtherForms(t.questions, formId), Detached(t.subquestions, FormQuestionIds(t.questions, formId)),
           t.nextQuestionId, t.nextSubQuestionId)
  }

  /** The question descriptors of the payload: `enumerate(data['questions'])`. */
  function Descriptors(data: Json): Result<seq<Json>, BuildError> {
    match Field(data, "questions")
    case Err(e) => Err(e)
    case Ok(listed) => Iterate(listed)
  }

  /** The rows the rebuild adds, ids numbered from the tables' counters. */
  function Rebuilt(t: Tables, formId: nat, data: Json, decode: string -> Option<Json>): Result<Rows, BuildError> {
    match Descriptors(data)
    case Err(e) => Err(e)
    case Ok(items) => AllRows(formId, items, t.nextQuestionId, t.nextSubQuestionId, decode)
  }

  /** The outcome of an update request and the tables it leaves. */
  function Update(t: Tables, formId: nat, data: Json, decode: string -> Option<Json>): (Outcome, Tables) {
    match HasQuestions(data)
    case Err(e) => (Raised(e), t)
    case Ok(false) => (InvalidPayload, t)
    case Ok(true) => Committed(Cleared(t, formId), Rebuilt(t, formId, data, decode))
  }

  /** The final commit after the old schema is deleted: the rebuilt rows are added, or rolled back. */
  function Committed(c: Tables, rebuilt: Result<Rows, BuildError>): (Outcome, Tables) {
    match rebuilt
    case Err(e) => (Failed(e), c)
    case Ok(rows) =>
      (Updated, Tables(c.questions + rows.questions, c.subquestions + rows.subquestions,
                       c.nextQuestionId + |rows.questions|, c.nextSubQuestionId + |rows.subquestions|))
  }

  // ----- the tables as the request handler changes them -----

  class FormStore {
    var questions: seq<Question>
    var subquestions: seq<SubQuestion>
    var nextQuestionId: nat
    var nextSubQuestionId: nat

    function Contents(): Tables
      reads this
    {
      Tables(questions, subquestions, nextQuestionId, nextSubQuestionId)
    }

    ghost predicate Valid()
      reads this
    {
      WellFormed(Contents())
    }

    /** An empty database; SQLite numbers rows from 1. */
    constructor ()
      ensures Valid() && Contents() == Tables([], [], 1, 1)
    {
      questions, subquestions := [], [];
      nextQuestionId, nextSubQuestionId := 1, 1;
    }

    /** Steps 1 and 2 of the update: delete the form's follow-ups, then its questions, and commit. */
    method DeleteSchema(formId: nat)
      requires Valid()
      modifies this
      ensures Valid() && Contents() == Cleared(old(Contents()), formId)
    {
      ClearedWellFormed(Contents(), formId);
      subquestions := Detached(subquestions, FormQuestionIds(questions, formId));
      questions := OtherForms(questions, formId);
    }

    /** The final commit of a rebuild: the new rows are added and the counters move past their ids. */
    method AddRows(rows: Rows)
      modifies this
      ensures (Updated, Contents()) == Committed(old(Contents()), Ok(rows))
    {
      questions := questions + rows.questions;
      subquestions := subquestions + rows.subquestions;
      nextQuestionId := nextQuestionId + |rows.questions|;
      nextSubQuestionId := nextSubQuestionId + |rows.subquestions|;
    }

    /** `update_form(form_id)` on the JSON payload `data`. */
    method UpdateForm(formId: nat, data: Json, decode: string -> Option<Json>) returns (outcome: Outcome)
      requires Valid()
      modifies this
      ensures Valid()
      ensures (outcome, Contents()) == Update(old(Contents()), formId, data, decode)
    {
      ghost var before := Contents();
      UpdateWellFormed(before, formId, data, decode);
      var hasQuestions := HasQuestions(data);
      if hasQuestions.Err? {
        return Raised(hasQuestions.error);
      }
      if !hasQuestions.value {
        return InvalidPayload;
      }
      DeleteSchema(formId);
      // step 3: rebuild; the rows stay pending until the final commit
      var items := Descriptors(data);
      if items.Err? {
        assert Rebuilt(before, formId, data, decode) == Err(items.error);
        return Failed(items.error);
      }
      var rows := BuildAllRows(formId, items.value, nextQuestionId, nextSubQuestionId, decode);
      assert Rebuilt(before, formId, data, decode) == rows;
      if rows.Err? {
        return Failed(rows.error);  // rollback: none of the pending rows stays
      }
      AddRows(rows.value);
      return Updated;
    }
  }

  // ----- what an update does to the tables -----

  lemma {:induction false} OtherFormsUnique(qs: seq<Question>, formId: nat)
    requires UniqueQuestionIds(qs)
    ensures UniqueQuestionIds(OtherForms(qs, formId))
  {
    if qs != [] {
      OtherFormsUnique(qs[1..], formId);
      var rest := OtherForms(qs[1..], formId);
      assert forall k :: 0 <= k < |rest| ==> rest[k] in qs[1..];
      assert forall q :: q in qs[1..] ==> q.id != qs[0].id by {
        forall q | q in qs[1..] ensures q.id != qs[0].id {
          var k :| 0 <= k < |qs[1..]| && qs[1..][k] == q;
          assert qs[k + 1] == q;
        }
      }
    }
  }

  lemma {:induction false} DetachedUnique(ss: seq<SubQuestion>, ids: set<nat>)
    requires UniqueSubQuestionIds(ss)
    ensures UniqueSubQuestionIds(Detached(ss, ids))
  {
    if ss != [] {
      DetachedUnique(ss[1..], ids);
      var rest := Detached(ss[1..], ids);
      assert forall k :: 0 <= k < |rest| ==> rest[k] in ss[1..];
      assert forall s :: s in ss[1..] ==> s.id != ss[0].id by {
        forall s | s in ss[1..] ensures s.id != ss[0].id {
          var k :| 0 <= k < |ss[1..]| && ss[1..][k] == s;
          assert ss[k + 1] == s;
        }
      }
    }
  }

  /** Deleting a form's schema keeps the tables consistent. */
  lemma ClearedWellFormed(t: Tables, formId: nat)
    requires WellFormed(t)
    ensures WellFormed(Cleared(t, formId))
  {
    var c := Cleared(t, formId);
    OtherFormsUnique(t.questions, formId);
    DetachedUnique(t.subquestions, FormQuestionIds(t.questions, formId));
    forall s | s in c.subquestions ensures s.questionId in QuestionIds(c.questions) {
      var q :| q in t.questions && q.id == s.questionId;
      assert q in c.questions;
    }
  }

  /** Ids numbered consecutively from `first` are distinct. */
  lemma NumberedUnique(rows: seq<SubQuestion>, first: nat)
    requires NumberedFrom(rows, first)
    ensures UniqueSubQuestionIds(rows)
  {
  }

  lemma UniqueQuestionsAppend(a: seq<Question>, b: seq<Question>, bound: nat)
    requires UniqueQuestionIds(a) && UniqueQuestionIds(b)
    requires forall q :: q in a ==> q.id < bound
    requires forall q :: q in b ==> q.id >= bound
    ensures UniqueQuestionIds(a + b)
  {
    forall i, j | 0 <= i < j < |a + b| ensures (a + b)[i].id != (a + b)[j].id {
      if j >= |a| {
        assert (a + b)[j] == b[j - |a|] && (a + b)[j] in b;
        if i < |a| {
          assert (a + b)[i] in a;
        } else {
          assert (a + b)[i] == b[i - |a|];
        }
      }
    }
  }

  lemma UniqueSubQuestionsAppend(a: seq<SubQuestion>, b: seq<SubQuestion>, bound: nat)
    requires UniqueSubQuestionIds(a) && UniqueSubQuestionIds(b)
    requires forall s :: s in a ==> s.id < bound
    requires forall s :: s in b ==> s.id >= bound
    ensures UniqueSubQuestionIds(a + b)
  {
    forall i, j | 0 <= i < j < |a + b| ensures (a + b)[i].id != (a + b)[j].id {
      if j >= |a| {
        assert (a + b)[j] == b[j - |a|] && (a + b)[j] in b;
        if i < |a| {
          assert (a + b)[i] in a;
        } else {
          assert (a + b)[i] == b[i - |a|];
        }
      }
    }
  }

  /**
   * Every outcome of an update leaves the tables consistent: ids stay primary keys handed out by
   * the counters, and no follow-up question is left without its question.
   */
  lemma UpdateWellFormed(t: Tables, formId: nat, data: Json, decode: string -> Option<Json>)
    requires WellFormed(t)
    ensures WellFormed(Update(t, formId, data, decode).1)
  {
    ClearedWellFormed(t, formId);
    if HasQuestions(data) == Ok(true) && Rebuilt(t, formId, data, decode).Ok? {
      var items := Descriptors(data).value;
      AllRowsShape(formId, items, t.nextQuestionId, t.nextSubQuestionId, decode);
      CommittedWellFormed(Cleared(t, formId), Rebuilt(t, formId, data, decode).value);
    }
  }

  /** Adding rows numbered from the counters, whose follow-ups belong to the added questions, keeps the tables consistent. */
  lemma CommittedWellFormed(c: Tables, rows: Rows)
    requires WellFormed(c)
    requires forall k :: 0 <= k < |rows.questions| ==> rows.questions[k].id == c.nextQuestionId + k
    requires NumberedFrom(rows.subquestions, c.nextSubQuestionId)
    requires forall s :: s in rows.subquestions ==>
      c.nextQuestionId <= s.questionId < c.nextQuestionId + |rows.questions|
    ensures WellFormed(Committed(c, Ok(rows)).1)
  {
    var qid, sid := c.nextQuestionId, c.nextSubQuestionId;
    var u := Committed(c, Ok(rows)).1;
    assert forall q :: q in rows.questions ==> q.id >= qid;
    UniqueQuestionsAppend(c.questions, rows.questions, qid);
    NumberedUnique(rows.subquestions, sid);
    assert forall s :: s in rows.subquestions ==> s.id >= sid;
    UniqueSubQuestionsAppend(c.subquestions, rows.subquestions, sid);
    forall s | s in u.subquestions ensures s.questionId in QuestionIds(u.questions) {
      if s in rows.subquestions {
        var k := s.questionId - qid;
        assert rows.questions[k].id == s.questionId && rows.questions[k] in u.questions;
      } else {
        assert s in c.subquestions;
        var q :| q in c.questions && q.id == s.questionId;
        assert q in u.questions;
      }
    }
  }

  /** Questions of the form `formId` after the update, in table order. */
  function FormAfter(t: Tables, formId: nat, data: Json, decode: string -> Option<Json>): seq<Question> {
    FormQuestions(Update(t, formId, data, decode).1.questions, formId)
  }

  lemma {:induction false} FormQuestionsAppend(a: seq<Question>, b: seq<Question>, formId: nat)
    ensures FormQuestions(a + b, formId) == FormQuestions(a, formId) + FormQuestions(b, formId)
  {
    if a == [] {
      assert a + b == b;
    } else {
      assert (a + b)[0] == a[0] && (a + b)[1..] == a[1..] + b;
      FormQuestionsAppend(a[1..], b, formId);
    }
  }

  lemma {:induction false} OtherFormsAppend(a: seq<Question>, b: seq<Question>, formId: nat)
    ensures OtherForms(a + b, formId) == OtherForms(a, formId) + OtherForms(b, formId)
  {
    if a == [] {
      assert a + b == b;
    } else {
      assert (a + b)[0] == a[0] && (a + b)[1..] == a[1..] + b;
      OtherFormsAppend(a[1..], b, formId);
    }
  }

  lemma {:induction false} FormQuestionsAll(qs: seq<Question>, formId: nat)
    requires forall q :: q in qs ==> q.formId == formId
    ensures FormQuestions(qs, formId) == qs && OtherForms(qs, formId) == []
  {
    if qs != [] {
      FormQuestionsAll(qs[1..], formId);
    }
  }

  lemma {:induction false} FormQuestionsNone(qs: seq<Question>, formId: nat)
    requires forall q :: q in qs ==> q.formId != formId
    ensures FormQuestions(qs, formId) == [] && OtherForms(qs, formId) == qs
  {
    if qs != [] {
      FormQuestionsNone(qs[1..], formId);
    }
  }

  /**
   * A payload that is a dictionary without "questions", or a list or string without that word,
   * is answered with 400 and changes nothing; one that is a number, a boolean or null makes `in`
   * raise, which changes nothing either.
   */
  lemma RejectedPayloadChangesNothing(t: Tables, formId: nat, data: Json, decode: string -> Option<Json>)
    requires HasQuestions(data) != Ok(true)
    ensures Update(t, formId, data, decode).1 == t
    ensures data.JObj? ==> Update(t, formId, data, decode).0 == InvalidPayload
    ensures StatusCode(Update(t, formId, data, decode).0) != 200
  {
  }

  /**
   * Once the payload has a "questions" entry, the old schema is gone whatever happens next: on
   * success the form's questions are exactly the new ones, one per descriptor, with order equal to
   * the descriptor's index, fresh ids, and the type, text, flag and option list of that
   * descriptor; on failure the form has no questions at all. The questions of other forms are the
   * same in either case.
   */
  lemma UpdateReplacesSchema(t: Tables, formId: nat, data: Json, decode: string -> Option<Json>)
    requires HasQuestions(data) == Ok(true)
    ensures var (outcome, u) := Update(t, formId, data, decode);
      OtherForms(u.questions, formId) == OtherForms(t.questions, formId) &&
      (outcome.Failed? ==> FormQuestions(u.questions, formId) == []) &&
      (outcome.Updated? ==>
        var items := Descriptors(data).value;
        var added := FormQuestions(u.questions, formId);
        |added| == |items| &&
        forall k :: 0 <= k < |items| ==>
          added[k].order == k && added[k].id == t.nextQuestionId + k && BuiltFrom(added[k], items[k], decode))
  {
    var c := Cleared(t, formId);
    FormQuestionsNone(c.questions, formId);
    OtherFormsTwice(t.questions, formId);
    match Rebuilt(t, formId, data, decode)
    case Err(_) =>
    case Ok(rows) =>
      var items := Descriptors(data).value;
      AllRowsShape(formId, items, t.nextQuestionId, t.nextSubQuestionId, decode);
      forall k | 0 <= k < |items| ensures BuiltFrom(rows.questions[k], items[k], decode) {
        RebuiltQuestion(formId, items, t.nextQuestionId, t.nextSubQuestionId, decode, k);
      }
      FormQuestionsAll(rows.questions, formId);
      FormQuestionsAppend(c.questions, rows.questions, formId);
      OtherFormsAppend(c.questions, rows.questions, formId);
      assert OtherForms(rows.questions, formId) == [];
      assert c.questions + [] == c.questions;
  }

  /**
   * On success, the follow-ups of the `k`-th new question come from the `k`-th descriptor: the
   * question is a choice question and each of them hangs on an option of its option list. The
   * follow-ups that survive the deletion belong to older questions, whose ids are all below the
   * new ones.
   */
  lemma UpdateFollowUps(t: Tables, formId: nat, data: Json, decode: string -> Option<Json>)
    requires WellFormed(t) && HasQuestions(data) == Ok(true)
    ensures var (outcome, u) := Update(t, formId, data, decode);
      outcome.Updated? ==>
        var items := Descriptors(data).value;
        var added := FormQuestions(u.questions, formId);
        |added| == |items| &&
        forall s, k :: s in u.subquestions && 0 <= k < |items| && s.questionId == t.nextQuestionId + k ==>
          ChildOf(s, added[k], items[k], decode)
  {
    var c := Cleared(t, formId);
    var rebuilt := Rebuilt(t, formId, data, decode);
    assert Update(t, formId, data, decode) == Committed(c, rebuilt);
    if rebuilt.Ok? {
      var rows := rebuilt.value;
      var items := Descriptors(data).value;
      var u := Committed(c, rebuilt).1;
      AllRowsShape(formId, items, t.nextQuestionId, t.nextSubQuestionId, decode);
      FormQuestionsNone(c.questions, formId);
      FormQuestionsAll(rows.questions, formId);
      FormQuestionsAppend(c.questions, rows.questions, formId);
      assert FormQuestions(u.questions, formId) == rows.questions;
      SurvivorsBelow(t, formId);
      RebuiltFollowUps(formId, items, t.nextQuestionId, t.nextSubQuestionId, decode);
      assert forall s :: s in u.subquestions && s.questionId >= t.nextQuestionId ==> s in rows.subquestions;
    }
  }

  /** The follow-ups that survive the deletion belong to questions with ids below the next one. */
  lemma SurvivorsBelow(t: Tables, formId: nat)
    requires WellFormed(t)
    ensures forall s :: s in Cleared(t, formId).subquestions ==> s.questionId < t.nextQuestionId
  {
  }

  lemma OtherFormsTwice(qs: seq<Question>, formId: nat)
    ensures OtherForms(OtherForms(qs, formId), formId) == OtherForms(qs, formId)
  {
    FormQuestionsNone(OtherForms(qs, formId), formId);
  }

  /**
   * A descriptor without "question_type" or "question_text" makes the rebuild raise: the
   * response is a 500 and the form is left with no questions.
   */
  lemma MissingFieldEmptiesForm(t: Tables, formId: nat, items: seq<Json>, k: nat,
                                decode: string -> Option<Json>)
    requires k < |items|
    requires !HasKey(items[k], "question_type") || !HasKey(items[k], "question_text")
    ensures var data := JObj([("questions", JArr(items))]);
      var (outcome, u) := Update(t, formId, data, decode);
      outcome.Failed? && StatusCode(outcome) == 500 && FormQuestions(u.questions, formId) == []
  {
    var data := JObj([("questions", JArr(items))]);
    assert HasKey(data, "questions");
    assert Descriptors(data) == Ok(items);
    MissingFieldFails(formId, items, t.nextQuestionId, t.nextSubQuestionId, decode, k);
    UpdateReplacesSchema(t, formId, data, decode);
  }
}
