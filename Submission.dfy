/**
 * The submission interpreter of `submit_form`: it walks a form's questions in order, reads each
 * answer from the posted multi-valued field map, records the non-empty ones, and evaluates
 * follow-up questions only under the options that were selected, down to nesting level 2.
 *
 * The database queries `SubQuestion.query.filter_by(...)` are order-preserving filters over the
 * SubQuestion rows; the `db.session.add` calls are appends to the two answer lists returned.
 */
module Submission {
  import opened Wrappers
  import opened Strings
  import opened Schema

  /** A posted form: every field name with all the values posted under it. */
  type FormData = map<string, seq<string>>

  /** `request.form.getlist(key)`, which is also `form_data.get(key, [])`. */
  function Values(fd: FormData, key: string): seq<string> {
    if key in fd then fd[key] else []
  }

  /** Field name of a top-level question. */
  function QuestionKey(id: nat): string {
    "question_" + NatToString(id)
  }

  /** Field name of a level-1 follow-up question. */
  function SubqKey(id: nat): string {
    "subq_" + NatToString(id)
  }

  /** Field name of a level-2 follow-up question. */
  function NestedKey(id: nat): string {
    "nested_subq_" + NatToString(id)
  }

  /** The three field-name schemes never collide, and each names one row. */
  lemma FieldKeysDistinct(a: nat, b: nat)
    ensures QuestionKey(a) == QuestionKey(b) ==> a == b
    ensures SubqKey(a) == SubqKey(b) ==> a == b
    ensures NestedKey(a) == NestedKey(b) ==> a == b
    ensures QuestionKey(a) != SubqKey(b) && QuestionKey(a) != NestedKey(b)
    ensures SubqKey(a) != NestedKey(b)
  {
    if QuestionKey(a) == QuestionKey(b) {
      assert NatToString(a) == QuestionKey(a)[9..];
      NatToStringInjective(a, b);
    }
    if SubqKey(a) == SubqKey(b) {
      assert NatToString(a) == SubqKey(a)[5..];
      NatToStringInjective(a, b);
    }
    if NestedKey(a) == NestedKey(b) {
      assert NatToString(a) == NestedKey(a)[12..];
      NatToStringInjective(a, b);
    }
    assert QuestionKey(a)[0] == 'q' && SubqKey(b)[0] == 's' && NestedKey(b)[0] == 'n';
    assert SubqKey(a)[0] == 's';
  }

  /**
   * The answer read from field `key` for a question of type `qtype`: for a checkbox every posted
   * value joined with ", ", for any other type the first posted value; None if nothing was posted.
   */
  function Extract(fd: FormData, key: string, qtype: string): Option<string> {
    var vs := Values(fd, key);
    if vs == [] then None
    else if qtype == "checkbox" then Some(Join(vs, Comma))
    else Some(vs[0])
  }

  /** Python truthiness of an extracted answer: present and not empty. */
  predicate Given(v: Option<string>) {
    v.Some? && v.value != ""
  }

  /** The options an answer selects: a checkbox answer split on ", ", any other answer alone. */
  function Selected(qtype: string, answer: string): seq<string> {
    if qtype == "checkbox" then Split(answer, Comma) else [answer]
  }

  /**
   * For a checkbox, the selected options are exactly the posted values, provided something was
   * posted and no posted value contains ", " itself.
   */
  lemma CheckboxSelectsPostedValues(fd: FormData, key: string)
    requires Values(fd, key) != []
    requires forall i :: 0 <= i < |Values(fd, key)| ==> !Contains(Values(fd, key)[i], Comma)
    ensures Extract(fd, key, "checkbox").Some?
    ensures Selected("checkbox", Extract(fd, key, "checkbox").value) == Values(fd, key)
  {
    SplitJoinComma(Values(fd, key));
  }

  /**
   * A checkbox option whose text contains ", " is split into two selections: the single posted
   * value `a + ", " + b` selects `a` and `b`.
   */
  lemma CheckboxCommaIsLossy(a: string, b: string)
    requires !Contains(a, Comma) && !Contains(b, Comma)
    ensures Selected("checkbox", Join([a + Comma + b], Comma)) == [a, b]
  {
    var parts := [a, b];
    SplitJoinComma(parts);
    assert Join(parts[1..], Comma) == b;
  }

  /** For instance, posting the one option "Red, Blue" selects "Red" and "Blue". */
  lemma CheckboxCommaExample()
    ensures Selected("checkbox", Join(["Red" + Comma + "Blue"], Comma)) == ["Red", "Blue"]
  {
    NoCommaWithoutCommaChar("Red");
    NoCommaWithoutCommaChar("Blue");
    CheckboxCommaIsLossy("Red", "Blue");
  }

  lemma NoCommaWithoutCommaChar(s: string)
    requires forall i :: 0 <= i < |s| ==> s[i] != ','
    ensures !Contains(s, Comma)
  {
    FindSpec(s, Comma);
    forall j | 0 <= j && j + 2 <= |s| ensures !OccursAt(s, Comma, j) {
      assert s[j..j + 2][0] == s[j];
    }
  }

  /** `SubQuestion.query.filter_by(question_id=qid, parent_option=key, nesting_level=level).all()`. */
  function FilterBy(subqs: seq<SubQuestion>, qid: nat, key: string, level: int): (r: seq<SubQuestion>)
    ensures forall s :: s in r <==>
      s in subqs && s.questionId == qid && s.parentOption == key && s.nestingLevel == level
    ensures |r| <= |subqs|
  {
    if subqs == [] then []
    else
      var s := subqs[0];
      (if s.questionId == qid && s.parentOption == key && s.nestingLevel == level then [s] else [])
      + FilterBy(subqs[1..], qid, key, level)
  }

  /** When the level-0 options hold no "|", the composite key determines both selections. */
  lemma {:induction false} CompositeKeyInjective(a: string, b: string, c: string, d: string)
    requires !Contains(a, "|") && !Contains(c, "|")
    requires CompositeKey(a, b) == CompositeKey(c, d)
    ensures a == c && b == d
  {
    var k := CompositeKey(a, b);
    FirstBarAfter(a, b);
    FirstBarAfter(c, d);
    assert a == k[..|a|] && c == k[..|c|];
    assert b == k[|a| + 1..] && d == k[|c| + 1..];
  }

  lemma FirstBarAfter(x: string, rest: string)
    requires !Contains(x, "|")
    ensures Find(x + "|" + rest, "|") == Some(|x|)
  {
    var s := x + "|" + rest;
    FindSpec(x, "|");
    FindSpec(s, "|");
    assert OccursAt(s, "|", |x|);
    forall j | 0 <= j < |x| ensures !OccursAt(s, "|", j) {
      assert s[j..j + 1] == x[j..j + 1];
      assert !OccursAt(x, "|", j);
    }
  }

  /** A "|" inside an option text makes two different selection paths share one key. */
  lemma CompositeKeyCollision()
    ensures CompositeKey("a|b", "c") == CompositeKey("a", "b|c")
  {
  }

  /** The SubQuestionAnswer recorded for follow-up `s` answered with `answer`. */
  function Record(rid: nat, s: SubQuestion, answer: string): (r: SubQuestionAnswer)
    ensures r.answerText == answer && r.subquestionId == s.id && r.responseId == rid
    ensures r.selectedOption == (if IsChoice(s.qtype) then Some(answer) else None)
  {
    SubQuestionAnswer(rid, s.id, if IsChoice(s.qtype) then Some(answer) else None, answer)
  }

  // ----- the interpreter as functions, one per loop of the source -----

  /** The record, if any, of one level-2 follow-up. */
  function NestedRecord(fd: FormData, s: SubQuestion, rid: nat): seq<SubQuestionAnswer> {
    var v := Extract(fd, NestedKey(s.id), s.qtype);
    if Given(v) then [Record(rid, s, v.value)] else []
  }

  /** The records of a list of level-2 follow-ups. */
  function NestedRecords(fd: FormData, ns: seq<SubQuestion>, rid: nat): seq<SubQuestionAnswer>
    decreases |ns|
  {
    if ns == [] then [] else NestedRecord(fd, ns[0], rid) + NestedRecords(fd, ns[1..], rid)
  }

  /** The level-2 records under level-0 option `sel0` for each level-1 option in `opts`. */
  function NestedOptionRecords(fd: FormData, subqs: seq<SubQuestion>, qid: nat, sel0: string,
                               opts: seq<string>, rid: nat): seq<SubQuestionAnswer>
    decreases |opts|
  {
    if opts == [] then []
    else
      NestedRecords(fd, FilterBy(subqs, qid, CompositeKey(sel0, opts[0]), 2), rid)
      + NestedOptionRecords(fd, subqs, qid, sel0, opts[1..], rid)
  }

  /** The records of one level-1 follow-up `p` shown under option `sel0`, and of its own follow-ups. */
  function FollowUpRecords(fd: FormData, subqs: seq<SubQuestion>, qid: nat, sel0: string,
                           p: SubQuestion, rid: nat): seq<SubQuestionAnswer>
  {
    var v := Extract(fd, SubqKey(p.id), p.qtype);
    if !Given(v) then []
    else
      [Record(rid, p, v.value)]
      + (if IsChoice(p.qtype)
         then NestedOptionRecords(fd, subqs, qid, sel0, Selected(p.qtype, v.value), rid)
         else [])
  }

  /** The records of a list of level-1 follow-ups shown under option `sel0`. */
  function Level1Records(fd: FormData, subqs: seq<SubQuestion>, qid: nat, sel0: string,
                         l1s: seq<SubQuestion>, rid: nat): seq<SubQuestionAnswer>
    decreases |l1s|
  {
    if l1s == [] then []
    else FollowUpRecords(fd, subqs, qid, sel0, l1s[0], rid) + Level1Records(fd, subqs, qid, sel0, l1s[1..], rid)
  }

  /** The follow-up records of question `qid` for each selected option in `sels`. */
  function OptionRecords(fd: FormData, subqs: seq<SubQuestion>, qid: nat, sels: seq<string>,
                         rid: nat): seq<SubQuestionAnswer>
    decreases |sels|
  {
    if sels == [] then []
    else
      Level1Records(fd, subqs, qid, sels[0], FilterBy(subqs, qid, sels[0], 1), rid)
      + OptionRecords(fd, subqs, qid, sels[1..], rid)
  }

  /** The answer read for top-level question `q`. */
  function TopValue(fd: FormData, q: Question): Option<string> {
    Extract(fd, QuestionKey(q.id), q.qtype)
  }

  /** The follow-up records of one top-level question. */
  function QuestionRecords(fd: FormData, subqs: seq<SubQuestion>, q: Question, rid: nat): seq<SubQuestionAnswer> {
    var v := TopValue(fd, q);
    if Given(v) && IsChoice(q.qtype) then OptionRecords(fd, subqs, q.id, Selected(q.qtype, v.value), rid)
    else []
  }

  /** The Answer row of top-level question `q`: there is one when its extracted value is non-empty. */
  function AnswerOf(fd: FormData, q: Question, rid: nat): seq<Answer> {
    var v := TopValue(fd, q);
    if Given(v) then [Answer(rid, q.id, v.value)] else []
  }

  /** The Answer rows a submission adds, in question order. */
  function Answers(fd: FormData, qs: seq<Question>, rid: nat): seq<Answer>
    decreases |qs|
  {
    if qs == [] then [] else AnswerOf(fd, qs[0], rid) + Answers(fd, qs[1..], rid)
  }

  /** The SubQuestionAnswer rows a submission adds, in evaluation order. */
  function SubAnswers(fd: FormData, qs: seq<Question>, subqs: seq<SubQuestion>, rid: nat): seq<SubQuestionAnswer>
    decreases |qs|
  {
    if qs == [] then [] else QuestionRecords(fd, subqs, qs[0], rid) + SubAnswers(fd, qs[1..], subqs, rid)
  }

  // ----- the interpreter as the source runs it: nested loops appending records -----

  /** The innermost loop: the level-2 follow-ups found under one composite key. */
  method EvaluateNestedSubQuestions(fd: FormData, nested: seq<SubQuestion>, rid: nat)
    returns (recs: seq<SubQuestionAnswer>)
    ensures recs == NestedRecords(fd, nested, rid)
  {
    recs := [];
    var j := 0;
    while j < |nested|
      invariant 0 <= j <= |nested|
      invariant recs + NestedRecords(fd, nested[j..], rid) == NestedRecords(fd, nested, rid)
    {
      var s := nested[j];
      var answer := Extract(fd, NestedKey(s.id), s.qtype);
      ghost var before := recs;
      if Given(answer) {
        recs := recs + [Record(rid, s, answer.value)];
      }
      assert nested[j..][1..] == nested[j + 1..];
      assert recs == before + NestedRecord(fd, s, rid);
      AppendAssoc(before, NestedRecord(fd, s, rid), NestedRecords(fd, nested[j + 1..], rid));
      j := j + 1;
    }
  }

  /** The loop over the level-1 selections of a follow-up shown under level-0 option `sel0`. */
  method EvaluateNested(fd: FormData, subqs: seq<SubQuestion>, qid: nat, sel0: string,
                        nestedOptions: seq<string>, rid: nat) returns (recs: seq<SubQuestionAnswer>)
    ensures recs == NestedOptionRecords(fd, subqs, qid, sel0, nestedOptions, rid)
  {
    recs := [];
    var i := 0;
    while i < |nestedOptions|
      invariant 0 <= i <= |nestedOptions|
      invariant recs + NestedOptionRecords(fd, subqs, qid, sel0, nestedOptions[i..], rid)
                == NestedOptionRecords(fd, subqs, qid, sel0, nestedOptions, rid)
    {
      var nestedParent := CompositeKey(sel0, nestedOptions[i]);
      var nested := FilterBy(subqs, qid, nestedParent, 2);
      var found := EvaluateNestedSubQuestions(fd, nested, rid);
      assert nestedOptions[i..][1..] == nestedOptions[i + 1..];
      AppendAssoc(recs, found, NestedOptionRecords(fd, subqs, qid, sel0, nestedOptions[i + 1..], rid));
      recs := recs + found;
      i := i + 1;
    }
  }

  /** The loop over the level-1 follow-ups hanging on selected option `sel0`. */
  method EvaluateLevel1(fd: FormData, subqs: seq<SubQuestion>, qid: nat, sel0: string,
                        level1: seq<SubQuestion>, rid: nat) returns (recs: seq<SubQuestionAnswer>)
    ensures recs == Level1Records(fd, subqs, qid, sel0, level1, rid)
  {
    recs := [];
    var j := 0;
    while j < |level1|
      invariant 0 <= j <= |level1|
      invariant recs + Level1Records(fd, subqs, qid, sel0, level1[j..], rid)
                == Level1Records(fd, subqs, qid, sel0, level1, rid)
    {
      var p := level1[j];
      var answer := Extract(fd, SubqKey(p.id), p.qtype);
      ghost var before := recs;
      if Given(answer) {
        recs := recs + [Record(rid, p, answer.value)];
        if IsChoice(p.qtype) {
          var nested := EvaluateNested(fd, subqs, qid, sel0, Selected(p.qtype, answer.value), rid);
          AppendAssoc(before, [Record(rid, p, answer.value)], nested);
          recs := recs + nested;
        }
      }
      assert level1[j..][1..] == level1[j + 1..];
      assert recs == before + FollowUpRecords(fd, subqs, qid, sel0, p, rid);
      AppendAssoc(before, FollowUpRecords(fd, subqs, qid, sel0, p, rid),
                  Level1Records(fd, subqs, qid, sel0, level1[j + 1..], rid));
      j := j + 1;
    }
  }

  /** The loop over the options selected by a top-level answer. */
  method EvaluateFollowUps(fd: FormData, subqs: seq<SubQuestion>, qid: nat, selected: seq<string>,
                           rid: nat) returns (recs: seq<SubQuestionAnswer>)
    ensures recs == OptionRecords(fd, subqs, qid, selected, rid)
  {
    recs := [];
    var i := 0;
    while i < |selected|
      invariant 0 <= i <= |selected|
      invariant recs + OptionRecords(fd, subqs, qid, selected[i..], rid)
                == OptionRecords(fd, subqs, qid, selected, rid)
    {
      var option := selected[i];
      var level1 := FilterBy(subqs, qid, option, 1);
      var found := EvaluateLevel1(fd, subqs, qid, option, level1, rid);
      assert selected[i..][1..] == selected[i + 1..];
      AppendAssoc(recs, found, OptionRecords(fd, subqs, qid, selected[i + 1..], rid));
      recs := recs + found;
      i := i + 1;
    }
  }

  /** One turn of the question loop: the question's Answer row and its follow-up records. */
  method EvaluateQuestion(fd: FormData, subqs: seq<SubQuestion>, q: Question, rid: nat)
    returns (added: seq<Answer>, recs: seq<SubQuestionAnswer>)
    ensures added == AnswerOf(fd, q, rid)
    ensures recs == QuestionRecords(fd, subqs, q, rid)
  {
    added, recs := [], [];
    var answer := Extract(fd, QuestionKey(q.id), q.qtype);
    if Given(answer) {
      added := [Answer(rid, q.id, answer.value)];
      if IsChoice(q.qtype) {
        recs := EvaluateFollowUps(fd, subqs, q.id, Selected(q.qtype, answer.value), rid);
      }
    }
  }

  /** The records of the questions from `i` on are question `i`'s, then those of the rest. */
  lemma SubmitStep(fd: FormData, qs: seq<Question>, subqs: seq<SubQuestion>, rid: nat, i: nat)
    requires i < |qs|
    ensures Answers(fd, qs[i..], rid) == AnswerOf(fd, qs[i], rid) + Answers(fd, qs[i + 1..], rid)
    ensures SubAnswers(fd, qs[i..], subqs, rid)
         == QuestionRecords(fd, subqs, qs[i], rid) + SubAnswers(fd, qs[i + 1..], subqs, rid)
  {
    assert qs[i..][1..] == qs[i + 1..];
  }

  /** `submit_form`: the Answer and SubQuestionAnswer rows added for one response. */
  method SubmitForm(fd: FormData, qs: seq<Question>, subqs: seq<SubQuestion>, rid: nat)
    returns (answers: seq<Answer>, subAnswers: seq<SubQuestionAnswer>)
    ensures answers == Answers(fd, qs, rid)
    ensures subAnswers == SubAnswers(fd, qs, subqs, rid)
  {
    answers, subAnswers := [], [];
    var i := 0;
    while i < |qs|
      invariant 0 <= i <= |qs|
      invariant answers + Answers(fd, qs[i..], rid) == Answers(fd, qs, rid)
      invariant subAnswers + SubAnswers(fd, qs[i..], subqs, rid) == SubAnswers(fd, qs, subqs, rid)
    {
      var added, recs := EvaluateQuestion(fd, subqs, qs[i], rid);
      SubmitStep(fd, qs, subqs, rid, i);
      AppendAssoc(answers, added, Answers(fd, qs[i + 1..], rid));
      AppendAssoc(subAnswers, recs, SubAnswers(fd, qs[i + 1..], subqs, rid));
      answers, subAnswers := answers + added, subAnswers + recs;
      i := i + 1;
    }
  }

  // ----- which answers a submission records -----

  /** A top-level question gets an Answer exactly when its extracted value is non-empty. */
  lemma {:induction false} AnswersExactlyGiven(fd: FormData, qs: seq<Question>, rid: nat, a: Answer)
    ensures a in Answers(fd, qs, rid) <==>
      exists q :: q in qs && Given(TopValue(fd, q)) && a == Answer(rid, q.id, TopValue(fd, q).value)
  {
    if qs != [] {
      AnswersExactlyGiven(fd, qs[1..], rid, a);
      assert forall q :: q in qs <==> q == qs[0] || q in qs[1..];
    }
  }

  /** An option `opt` of a choice question is among those selected by the answer in field `key`. */
  predicate OptionChosen(fd: FormData, key: string, qtype: string, opt: string) {
    var v := Extract(fd, key, qtype);
    Given(v) && IsChoice(qtype) && opt in Selected(qtype, v.value)
  }

  /** The field a follow-up question is read from, by its nesting level. */
  function FollowUpKey(s: SubQuestion): string {
    if s.nestingLevel == 2 then NestedKey(s.id) else SubqKey(s.id)
  }

  /** The answer read for follow-up question `s`. */
  function FollowUpValue(fd: FormData, s: SubQuestion): Option<string> {
    Extract(fd, FollowUpKey(s), s.qtype)
  }

  /** Follow-up `s` was answered, and `sa` is the record made of that answer. */
  predicate RecordedAs(fd: FormData, rid: nat, s: SubQuestion, sa: SubQuestionAnswer) {
    var v := FollowUpValue(fd, s);
    Given(v) && sa == Record(rid, s, v.value)
  }

  /** Level-1 follow-up `s` of question `q` hangs on an option the answer to `q` selected. */
  predicate ShownLevel1(fd: FormData, q: Question, s: SubQuestion) {
    s.nestingLevel == 1 && s.questionId == q.id &&
    OptionChosen(fd, QuestionKey(q.id), q.qtype, s.parentOption)
  }

  /**
   * Level-2 follow-up `s` of question `q` hangs on the key "<o>|<n>", where some shown level-1
   * follow-up `p` hangs on option `o` and its own answer selected `n`.
   */
  ghost predicate ShownLevel2(fd: FormData, subqs: seq<SubQuestion>, q: Question, s: SubQuestion) {
    s.nestingLevel == 2 && s.questionId == q.id &&
    exists p, n :: p in subqs && ShownLevel1(fd, q, p) && OptionChosen(fd, SubqKey(p.id), p.qtype, n) &&
      s.parentOption == CompositeKey(p.parentOption, n)
  }

  ghost predicate Shown(fd: FormData, qs: seq<Question>, subqs: seq<SubQuestion>, s: SubQuestion) {
    exists q :: q in qs && (ShownLevel1(fd, q, s) || ShownLevel2(fd, subqs, q, s))
  }

  lemma {:induction false} NestedRecordsMembership(fd: FormData, ns: seq<SubQuestion>, rid: nat, sa: SubQuestionAnswer)
    ensures sa in NestedRecords(fd, ns, rid) <==> exists s :: s in ns && sa in NestedRecord(fd, s, rid)
  {
    if ns != [] {
      NestedRecordsMembership(fd, ns[1..], rid, sa);
      assert forall s :: s in ns <==> s == ns[0] || s in ns[1..];
    }
  }

  lemma {:induction false} NestedOptionRecordsMembership(fd: FormData, subqs: seq<SubQuestion>, qid: nat,
                                                         sel0: string, opts: seq<string>, rid: nat,
                                                         sa: SubQuestionAnswer)
    ensures sa in NestedOptionRecords(fd, subqs, qid, sel0, opts, rid) <==>
      exists n, s :: n in opts && s in FilterBy(subqs, qid, CompositeKey(sel0, n), 2) && sa in NestedRecord(fd, s, rid)
  {
    if opts != [] {
      NestedOptionRecordsMembership(fd, subqs, qid, sel0, opts[1..], rid, sa);
      NestedRecordsMembership(fd, FilterBy(subqs, qid, CompositeKey(sel0, opts[0]), 2), rid, sa);
      assert forall n :: n in opts <==> n == opts[0] || n in opts[1..];
    }
  }

  lemma {:induction false} Level1RecordsMembership(fd: FormData, subqs: seq<SubQuestion>, qid: nat, sel0: string,
                                                   l1s: seq<SubQuestion>, rid: nat, sa: SubQuestionAnswer)
    ensures sa in Level1Records(fd, subqs, qid, sel0, l1s, rid) <==>
      exists p :: p in l1s && sa in FollowUpRecords(fd, subqs, qid, sel0, p, rid)
  {
    if l1s != [] {
      Level1RecordsMembership(fd, subqs, qid, sel0, l1s[1..], rid, sa);
      assert forall p :: p in l1s <==> p == l1s[0] || p in l1s[1..];
    }
  }

  lemma {:induction false} OptionRecordsMembership(fd: FormData, subqs: seq<SubQuestion>, qid: nat,
                                                   sels: seq<string>, rid: nat, sa: SubQuestionAnswer)
    ensures sa in OptionRecords(fd, subqs, qid, sels, rid) <==>
      exists o, p :: o in sels && p in FilterBy(subqs, qid, o, 1) && sa in FollowUpRecords(fd, subqs, qid, o, p, rid)
  {
    if sels != [] {
      OptionRecordsMembership(fd, subqs, qid, sels[1..], rid, sa);
      Level1RecordsMembership(fd, subqs, qid, sels[0], FilterBy(subqs, qid, sels[0], 1), rid, sa);
      assert forall o :: o in sels <==> o == sels[0] || o in sels[1..];
    }
  }

  lemma {:induction false} SubAnswersMembership(fd: FormData, qs: seq<Question>, subqs: seq<SubQuestion>,
                                                rid: nat, sa: SubQuestionAnswer)
    ensures sa in SubAnswers(fd, qs, subqs, rid) <==> exists q :: q in qs && sa in QuestionRecords(fd, subqs, q, rid)
  {
    if qs != [] {
      SubAnswersMembership(fd, qs[1..], subqs, rid, sa);
      assert forall q :: q in qs <==> q == qs[0] || q in qs[1..];
    }
  }

  lemma NestedRecordIsRecordedAs(fd: FormData, s: SubQuestion, rid: nat, sa: SubQuestionAnswer)
    requires s.nestingLevel == 2
    ensures sa in NestedRecord(fd, s, rid) <==> RecordedAs(fd, rid, s, sa)
  {
  }

  /** The records of one shown level-1 follow-up `p`: its own, and those of the level-2 ones it shows. */
  lemma FollowUpRecordsMembership(fd: FormData, subqs: seq<SubQuestion>, qid: nat, o: string,
                                  p: SubQuestion, rid: nat, sa: SubQuestionAnswer)
    requires p.nestingLevel == 1
    ensures sa in FollowUpRecords(fd, subqs, qid, o, p, rid) <==>
      RecordedAs(fd, rid, p, sa) ||
      exists n, s :: OptionChosen(fd, SubqKey(p.id), p.qtype, n) &&
        s in FilterBy(subqs, qid, CompositeKey(o, n), 2) && RecordedAs(fd, rid, s, sa)
  {
    var v := Extract(fd, SubqKey(p.id), p.qtype);
    assert FollowUpValue(fd, p) == v;
    if Given(v) && IsChoice(p.qtype) {
      var sels := Selected(p.qtype, v.value);
      var nested := NestedOptionRecords(fd, subqs, qid, o, sels, rid);
      assert FollowUpRecords(fd, subqs, qid, o, p, rid) == [Record(rid, p, v.value)] + nested;
      NestedOptionRecordsMembership(fd, subqs, qid, o, sels, rid, sa);
      if sa in nested {
        var n, s :| n in sels && s in FilterBy(subqs, qid, CompositeKey(o, n), 2) && sa in NestedRecord(fd, s, rid);
        NestedRecordIsRecordedAs(fd, s, rid, sa);
        assert OptionChosen(fd, SubqKey(p.id), p.qtype, n);
      }
      if exists n, s :: OptionChosen(fd, SubqKey(p.id), p.qtype, n) &&
           s in FilterBy(subqs, qid, CompositeKey(o, n), 2) && RecordedAs(fd, rid, s, sa) {
        var n, s :| OptionChosen(fd, SubqKey(p.id), p.qtype, n) &&
          s in FilterBy(subqs, qid, CompositeKey(o, n), 2) && RecordedAs(fd, rid, s, sa);
        NestedRecordIsRecordedAs(fd, s, rid, sa);
        assert n in sels;
      }
    }
  }

  /** The follow-up records of question `q` are the answered follow-ups that `q`'s answer shows. */
  lemma QuestionRecordsMembership(fd: FormData, subqs: seq<SubQuestion>, q: Question, rid: nat,
                                  sa: SubQuestionAnswer)
    ensures sa in QuestionRecords(fd, subqs, q, rid) <==>
      exists s :: s in subqs && (ShownLevel1(fd, q, s) || ShownLevel2(fd, subqs, q, s)) && RecordedAs(fd, rid, s, sa)
  {
    var v := TopValue(fd, q);
    if Given(v) && IsChoice(q.qtype) {
      var sels := Selected(q.qtype, v.value);
      OptionRecordsMembership(fd, subqs, q.id, sels, rid, sa);
      if sa in QuestionRecords(fd, subqs, q, rid) {
        var o, p :| o in sels && p in FilterBy(subqs, q.id, o, 1) && sa in FollowUpRecords(fd, subqs, q.id, o, p, rid);
        FollowUpRecordsMembership(fd, subqs, q.id, o, p, rid, sa);
        assert ShownLevel1(fd, q, p);
        if !RecordedAs(fd, rid, p, sa) {
          var n, s :| OptionChosen(fd, SubqKey(p.id), p.qtype, n) &&
            s in FilterBy(subqs, q.id, CompositeKey(o, n), 2) && RecordedAs(fd, rid, s, sa);
          assert ShownLevel2(fd, subqs, q, s);
        }
      }
      if exists s :: s in subqs && (ShownLevel1(fd, q, s) || ShownLevel2(fd, subqs, q, s)) && RecordedAs(fd, rid, s, sa) {
        var s :| s in subqs && (ShownLevel1(fd, q, s) || ShownLevel2(fd, subqs, q, s)) && RecordedAs(fd, rid, s, sa);
        if ShownLevel1(fd, q, s) {
          FollowUpRecordsMembership(fd, subqs, q.id, s.parentOption, s, rid, sa);
          assert s in FilterBy(subqs, q.id, s.parentOption, 1);
        } else {
          var p, n :| p in subqs && ShownLevel1(fd, q, p) && OptionChosen(fd, SubqKey(p.id), p.qtype, n) &&
            s.parentOption == CompositeKey(p.parentOption, n);
          FollowUpRecordsMembership(fd, subqs, q.id, p.parentOption, p, rid, sa);
          assert s in FilterBy(subqs, q.id, CompositeKey(p.parentOption, n), 2);
          assert p in FilterBy(subqs, q.id, p.parentOption, 1);
        }
      }
    }
  }

  /**
   * The SubQuestionAnswer rows of a submission are exactly the records of the answered follow-ups
   * that are shown: a level-1 follow-up under an option its question's answer selected, a level-2
   * follow-up under "<level-0 option>|<level-1 option>" for a shown level-1 follow-up's selection.
   */
  lemma SubAnswersAreShownFollowUps(fd: FormData, qs: seq<Question>, subqs: seq<SubQuestion>, rid: nat,
                                    sa: SubQuestionAnswer)
    ensures sa in SubAnswers(fd, qs, subqs, rid) <==>
      exists s :: s in subqs && Shown(fd, qs, subqs, s) && RecordedAs(fd, rid, s, sa)
  {
    SubAnswersMembership(fd, qs, subqs, rid, sa);
    if sa in SubAnswers(fd, qs, subqs, rid) {
      var q :| q in qs && sa in QuestionRecords(fd, subqs, q, rid);
      QuestionRecordsMembership(fd, subqs, q, rid, sa);
    }
    if exists s :: s in subqs && Shown(fd, qs, subqs, s) && RecordedAs(fd, rid, s, sa) {
      var s :| s in subqs && Shown(fd, qs, subqs, s) && RecordedAs(fd, rid, s, sa);
      var q :| q in qs && (ShownLevel1(fd, q, s) || ShownLevel2(fd, subqs, q, s));
      QuestionRecordsMembership(fd, subqs, q, rid, sa);
    }
  }

  /**
   * With distinct row ids, a follow-up that no selection shows gets no SubQuestionAnswer, whatever
   * was posted under its field name.
   */
  lemma UnshownFollowUpIgnored(fd: FormData, qs: seq<Question>, subqs: seq<SubQuestion>, rid: nat,
                               s: SubQuestion)
    requires forall t :: t in subqs && t.id == s.id ==> t == s
    requires !Shown(fd, qs, subqs, s)
    ensures forall sa :: sa in SubAnswers(fd, qs, subqs, rid) ==> sa.subquestionId != s.id
  {
    forall sa | sa in SubAnswers(fd, qs, subqs, rid) ensures sa.subquestionId != s.id {
      SubAnswersAreShownFollowUps(fd, qs, subqs, rid, sa);
    }
  }
}
