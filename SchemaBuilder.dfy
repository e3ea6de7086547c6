/**
 * The schema rebuild of `update_form`: from the posted JSON list of question descriptors it
 * creates one Question row per descriptor and, for choice questions, the level-1 follow-ups
 * listed under each object-shaped option and the level-2 follow-ups listed under the options of
 * a level-1 follow-up.
 *
 * Row ids come from counters, one per table, handed out in the order the rows are added to the
 * session: the database assigns ids in insertion order. A level-1 follow-up is added after the
 * level-2 follow-ups built from its own options, so it receives the id after theirs.
 *
 * A Python exception raised while building is an `Err`.
 */
module SchemaBuilder {
  import opened Wrappers
  import opened Strings
  import opened JsonValues
  import opened JsonText
  import opened Schema
  import OptionDecoding

  /** The exceptions the rebuild can raise. */
  datatype BuildError =
    | KeyError(key: string)    // `d[key]` on a dictionary without `key`
    | TypeError                // subscripting or iterating a value that does not support it
    | AttributeError           // `.get` on a value that is not a dictionary
    | UnsupportedValue         // a value the ORM column cannot store

  /** `d[key]`. */
  function Field(d: Json, key: string): (r: Result<Json, BuildError>)
    ensures r.Ok? <==> HasKey(d, key)
    ensures r.Ok? ==> Lookup(d.fields, key) == Some(r.value)
    ensures d.JObj? && !HasKey(d, key) ==> r == Err(KeyError(key))
  {
    if !d.JObj? then Err(TypeError)
    else match Lookup(d.fields, key)
      case None => Err(KeyError(key))
      case Some(v) => Ok(v)
  }

  /** `d.get(key, default)` on a dictionary with fields `fields`. */
  function GetOr(fields: seq<(string, Json)>, key: string, default: Json): Json {
    match Lookup(fields, key)
    case None => default
    case Some(v) => v
  }

  /** `for x in v`. */
  function Iterate(v: Json): (r: Result<seq<Json>, BuildError>)
    ensures v.JArr? ==> r == Ok(v.items)
    ensures r.Err? <==> !(v.JArr? || v.JObj? || v.JStr?)
  {
    match Elements(v)
    case None => Err(TypeError)
    case Some(xs) => Ok(xs)
  }

  /** A value stored in a text column. */
  function TextColumn(v: Json): (r: Result<string, BuildError>)
    ensures r.Ok? <==> v.JStr?
    ensures r.Ok? ==> r.value == v.s
  {
    if v.JStr? then Ok(v.s) else Err(UnsupportedValue)
  }

  /** A value stored in the boolean `required` column: a boolean, 0 or 1, or NULL (read back as false). */
  function FlagColumn(v: Json): (r: Result<bool, BuildError>)
    ensures v.JBool? ==> r == Ok(v.b)
    ensures v == JNull ==> r == Ok(false)
  {
    match v
    case JBool(b) => Ok(b)
    case JNull => Ok(false)
    case JNum(n) => if n == 0 || n == 1 then Ok(n == 1) else Err(UnsupportedValue)
    case _ => Err(UnsupportedValue)
  }

  /** Rows built so far, continued by a partial result: the outcome of a loop that stops at the first error. */
  function Then<T>(done: seq<T>, rest: Result<seq<T>, BuildError>): Result<seq<T>, BuildError> {
    match rest
    case Ok(more) => Ok(done + more)
    case Err(e) => Err(e)
  }

  /** The ids of `rows` are consecutive, starting at `first`. */
  predicate NumberedFrom(rows: seq<SubQuestion>, first: nat) {
    forall k :: 0 <= k < |rows| ==> rows[k].id == first + k
  }

  lemma {:induction false} NumberedFromAppend(a: seq<SubQuestion>, b: seq<SubQuestion>, first: nat)
    requires NumberedFrom(a, first) && NumberedFrom(b, first + |a|)
    ensures NumberedFrom(a + b, first)
  {
    forall k | 0 <= k < |a + b| ensures (a + b)[k].id == first + k {
      if k >= |a| {
        assert (a + b)[k] == b[k - |a|];
      }
    }
  }

  /**
   * Every row belongs to question `qid`, the option text is a string, the level-1 rows hang on
   * it and the level-2 rows on a key "<option>|<nested option>".
   */
  ghost predicate UnderOption(rows: seq<SubQuestion>, qid: nat, option: Json) {
    forall s :: s in rows ==>
      s.questionId == qid && option.JStr? &&
      (s.nestingLevel == 1 ==> s.parentOption == option.s) &&
      (s.nestingLevel == 2 ==> exists n :: s.parentOption == CompositeKey(option.s, n)) &&
      (s.nestingLevel == 1 || s.nestingLevel == 2)
  }

  /** Every row belongs to question `qid` and sits at nesting level 1 or 2. */
  predicate Belongs(rows: seq<SubQuestion>, qid: nat) {
    forall s :: s in rows ==> s.questionId == qid && (s.nestingLevel == 1 || s.nestingLevel == 2)
  }

  lemma BelongsAppend(a: seq<SubQuestion>, b: seq<SubQuestion>, qid: nat)
    requires Belongs(a, qid) && Belongs(b, qid)
    ensures Belongs(a + b, qid)
  {
    assert forall s :: s in a + b ==> s in a || s in b;
  }

  /**
   * The text, type and required columns of a follow-up descriptor with fields `fields`, with the
   * defaults `.get` supplies: "", "text" and False.
   */
  function FollowUpColumns(fields: seq<(string, Json)>): (r: Result<(string, string, bool), BuildError>)
    ensures r.Ok? <==> GetOr(fields, "text", JStr("")).JStr? && GetOr(fields, "type", JStr("text")).JStr? &&
                       FlagColumn(GetOr(fields, "required", JBool(false))).Ok?
    ensures r.Ok? ==> JStr(r.value.0) == GetOr(fields, "text", JStr("")) &&
                      JStr(r.value.1) == GetOr(fields, "type", JStr("text")) &&
                      FlagColumn(GetOr(fields, "required", JBool(false))) == Ok(r.value.2)
  {
    var t, ty := GetOr(fields, "text", JStr("")), GetOr(fields, "type", JStr("text"));
    if !t.JStr? || !ty.JStr? then Err(UnsupportedValue)
    else match FlagColumn(GetOr(fields, "required", JBool(false)))
      case Err(e) => Err(e)
      case Ok(req) => Ok((t.s, ty.s, req))
  }

  // ----- level 2: `for nested_subq_idx, nested_subq in enumerate(nested_option['subquestions'])` -----

  /** A follow-up descriptor that sets none of "text", "type" and "required" gets "", "text" and False. */
  lemma FollowUpDefaults(fields: seq<(string, Json)>)
    requires Lookup(fields, "text").None? && Lookup(fields, "type").None? && Lookup(fields, "required").None?
    ensures FollowUpColumns(fields) == Ok(("", "text", false))
  {
  }

  /**
   * The level-2 follow-up built from descriptor `d`, the `idx`-th under nested option text
   * `nestedText`: keyed "<optionText>|<nestedText>", with the descriptor's columns, and the JSON
   * text of its "options" entry when it has one.
   */
  function NestedRow(qid: nat, optionText: Json, nestedText: Json, d: Json, idx: nat, sid: nat): (r: Result<SubQuestion, BuildError>)
    ensures r.Ok? <==> d.JObj? && optionText.JStr? && nestedText.JStr? && FollowUpColumns(d.fields).Ok?
    ensures r.Ok? ==>
      r.value.id == sid && r.value.questionId == qid && r.value.order == idx && r.value.nestingLevel == 2 &&
      r.value.parentOption == CompositeKey(optionText.s, nestedText.s) &&
      FollowUpColumns(d.fields) == Ok((r.value.text, r.value.qtype, r.value.required)) &&
      (r.value.options.Some? <==> HasKey(d, "options")) &&
      (r.value.options.Some? ==> r.value.options.value == Dumps(Lookup(d.fields, "options").value))
  {
    if !d.JObj? then Err(AttributeError)
    else if !optionText.JStr? || !nestedText.JStr? then Err(UnsupportedValue)
    else match FollowUpColumns(d.fields)
      case Err(e) => Err(e)
      case Ok((t, ty, req)) =>
        var options := if HasKey(d, "options") then Some(Dumps(Lookup(d.fields, "options").value)) else None;
        Ok(SubQuestion(sid, qid, CompositeKey(optionText.s, nestedText.s), t, ty, options, req, idx, 2))
  }

  // ----- the four nested loops of the rebuild -----

  /**
   * One of the nested loops of the rebuild, with the values its body reads: the question id `qid`,
   * the option text the rows hang on, the items still to visit, the `enumerate` index of the
   * first of them, and the id the next row added will receive.
   */
  datatype Loop =
    | OptionsLoop(qid: nat, options: seq<Json>, sid: nat)
      // `for option_idx, option_data in enumerate(options_data)`
    | FollowUpsLoop(qid: nat, optionText: Json, items: seq<Json>, idx: nat, sid: nat)
      // `for subq_idx, subq_data in enumerate(subquestions_data)`
    | NestedOptionsLoop(qid: nat, optionText: Json, items: seq<Json>, sid: nat)
      // `for nested_idx, nested_option in enumerate(sub_options)`
    | NestedFollowUpsLoop(qid: nat, optionText: Json, nestedText: Json, items: seq<Json>, idx: nat, sid: nat)
      // `for nested_subq_idx, nested_subq in enumerate(nested_option['subquestions'])`

  /** How many loops lie inside `loop`. */
  function Depth(loop: Loop): nat {
    match loop
    case OptionsLoop(_, _, _) => 3
    case FollowUpsLoop(_, _, _, _, _) => 2
    case NestedOptionsLoop(_, _, _, _) => 1
    case NestedFollowUpsLoop(_, _, _, _, _, _) => 0
  }

  /** The items a loop still has to visit. */
  function Pending(loop: Loop): seq<Json> {
    match loop
    case OptionsLoop(_, options, _) => options
    case FollowUpsLoop(_, _, items, _, _) => items
    case NestedOptionsLoop(_, _, items, _) => items
    case NestedFollowUpsLoop(_, _, _, items, _, _) => items
  }

  /** The rows a loop adds, in the order it adds them, or the exception that stops it. */
  function Run(loop: Loop): Result<seq<SubQuestion>, BuildError>
    decreases Depth(loop), |Pending(loop)|
  {
    if Pending(loop) == [] then Ok([])
    else match Step(loop)
      case Err(e) => Err(e)
      case Ok(rows) => Then(rows, Run(Next(loop, |rows|)))
  }

  /** The rows one turn of a loop adds: the turn that visits its first pending item. */
  function Step(loop: Loop): Result<seq<SubQuestion>, BuildError>
    requires Pending(loop) != []
    decreases Depth(loop), |Pending(loop)|, 0
  {
    match loop
    case OptionsLoop(qid, options, sid) => OptionItem(qid, options[0], sid)
    case FollowUpsLoop(qid, optionText, items, idx, sid) => Level1Row(qid, optionText, items[0], idx, sid)
    case NestedOptionsLoop(qid, optionText, items, sid) => NestedOptionItem(qid, optionText, items[0], sid)
    case NestedFollowUpsLoop(qid, optionText, nestedText, items, idx, sid) =>
      (match NestedRow(qid, optionText, nestedText, items[0], idx, sid)
       case Err(e) => Err(e)
       case Ok(row) => Ok([row]))
  }

  /** The loop after a turn that added `added` rows: one item fewer, the next index, and `added` ids used. */
  function Next(loop: Loop, added: nat): (r: Loop)
    requires Pending(loop) != []
    ensures Depth(r) == Depth(loop) && Pending(r) == Pending(loop)[1..]
  {
    match loop
    case OptionsLoop(qid, options, sid) => OptionsLoop(qid, options[1..], sid + added)
    case FollowUpsLoop(qid, optionText, items, idx, sid) => FollowUpsLoop(qid, optionText, items[1..], idx + 1, sid + added)
    case NestedOptionsLoop(qid, optionText, items, sid) => NestedOptionsLoop(qid, optionText, items[1..], sid + added)
    case NestedFollowUpsLoop(qid, optionText, nestedText, items, idx, sid) =>
      NestedFollowUpsLoop(qid, optionText, nestedText, items[1..], idx + 1, sid + added)
  }

  /** A loop with items left runs one turn and then the rest, unless that turn raises. */
  lemma RunCons(loop: Loop)
    requires Pending(loop) != []
    ensures Step(loop).Err? ==> Run(loop) == Err(Step(loop).error)
    ensures Step(loop).Ok? ==> Run(loop) == Then(Step(loop).value, Run(Next(loop, |Step(loop).value|)))
  {
  }

  /** A loop with nothing left to visit adds nothing more. */
  lemma RunDone(loop: Loop, rows: seq<SubQuestion>)
    requires Pending(loop) == []
    ensures Then(rows, Run(loop)) == Ok(rows)
  {
    assert rows + [] == rows;
  }

  /** A turn that adds `added` rows leaves the rest of the loop to run after them. */
  lemma RunAdvance(loop: Loop, rows: seq<SubQuestion>, added: seq<SubQuestion>)
    requires Pending(loop) != [] && Step(loop) == Ok(added)
    ensures Then(rows, Run(loop)) == Then(rows + added, Run(Next(loop, |added|)))
  {
    ThenStep(rows, added, Run(Next(loop, |added|)));
  }

  /** A turn that raises stops the loop with that exception. */
  lemma RunFail(loop: Loop, rows: seq<SubQuestion>)
    requires Pending(loop) != [] && Step(loop).Err?
    ensures Then(rows, Run(loop)) == Err(Step(loop).error)
  {
  }

  /** The level-2 follow-ups under one nested option, the first having order `idx` and id `sid`. */
  function NestedRows(qid: nat, optionText: Json, nestedText: Json, items: seq<Json>, idx: nat, sid: nat): Result<seq<SubQuestion>, BuildError>
  {
    Run(NestedFollowUpsLoop(qid, optionText, nestedText, items, idx, sid))
  }

  /**
   * The level-2 follow-ups listed by one option of a level-1 follow-up shown under `optionText`:
   * when the option is an object with a "subquestions" entry, those subquestions, keyed
   * "<optionText>|<its text>"; otherwise none.
   */
  function NestedOptionItem(qid: nat, optionText: Json, nestedOption: Json, sid: nat): Result<seq<SubQuestion>, BuildError>
    decreases 1, 0
  {
    if nestedOption.JObj? && HasKey(nestedOption, "subquestions") then
      match Iterate(Lookup(nestedOption.fields, "subquestions").value)
      case Err(e) => Err(e)
      case Ok(listed) =>
        Run(NestedFollowUpsLoop(qid, optionText, GetOr(nestedOption.fields, "text", JStr("")), listed, 0, sid))
    else Ok([])
  }

  /** The level-2 follow-ups listed by the options `items` of a level-1 follow-up. */
  function NestedOptionRows(qid: nat, optionText: Json, items: seq<Json>, sid: nat): Result<seq<SubQuestion>, BuildError>
  {
    Run(NestedOptionsLoop(qid, optionText, items, sid))
  }

  /**
   * The rows built from level-1 descriptor `d`, the `idx`-th under option text `optionText`: the
   * level-2 follow-ups of its list-valued options, then the level-1 follow-up itself.
   */
  function Level1Row(qid: nat, optionText: Json, d: Json, idx: nat, sid: nat): Result<seq<SubQuestion>, BuildError>
    decreases 2, 0
  {
    if !d.JObj? then Err(AttributeError)
    else
      var subOptions := Lookup(d.fields, "options");
      var nested := if subOptions.Some? && subOptions.value.JArr?
                    then Run(NestedOptionsLoop(qid, optionText, subOptions.value.items, sid))
                    else Ok([]);
      match nested
      case Err(e) => Err(e)
      case Ok(rows) =>
        (match Level1Own(qid, optionText, d.fields, idx, sid + |rows|)
         case Err(e) => Err(e)
         case Ok(row) => Ok(rows + [row]))
  }

  /**
   * The level-1 follow-up row itself, with id `id`: it hangs on `optionText`, takes the
   * descriptor's columns, and stores the JSON text of its "options" entry when that is a list.
   */
  function Level1Own(qid: nat, optionText: Json, fields: seq<(string, Json)>, idx: nat, id: nat): (r: Result<SubQuestion, BuildError>)
    ensures r.Ok? <==> optionText.JStr? && FollowUpColumns(fields).Ok?
    ensures r.Ok? ==> r.value.nestingLevel == 1 && r.value.order == idx
    ensures r.Ok? ==> r.value.id == id && r.value.questionId == qid && r.value.parentOption == optionText.s
    ensures r.Ok? ==> FollowUpColumns(fields) == Ok((r.value.text, r.value.qtype, r.value.required))
    ensures r.Ok? ==> (r.value.options.Some? <==> Lookup(fields, "options").Some? && Lookup(fields, "options").value.JArr?)
    ensures r.Ok? && r.value.options.Some? ==> r.value.options.value == Dumps(Lookup(fields, "options").value)
  {
    if !optionText.JStr? then Err(UnsupportedValue)
    else match FollowUpColumns(fields)
      case Err(e) => Err(e)
      case Ok((t, ty, req)) =>
        var subOptions := Lookup(fields, "options");
        var options := if subOptions.Some? && subOptions.value.JArr? then Some(Dumps(subOptions.value)) else None;
        Ok(SubQuestion(id, qid, optionText.s, t, ty, options, req, idx, 1))
  }

  /**
   * `s` is the level-1 follow-up built from descriptor `d`, the `idx`-th under its option: it
   * takes `d`'s text, type and flag, with their defaults, and the JSON text of `d`'s "options"
   * entry when that is a list.
   */
  predicate Level1From(s: SubQuestion, d: Json, idx: nat) {
    d.JObj? && s.nestingLevel == 1 && s.order == idx &&
    FollowUpColumns(d.fields) == Ok((s.text, s.qtype, s.required)) &&
    var subOptions := Lookup(d.fields, "options");
    s.options == (if subOptions.Some? && subOptions.value.JArr? then Some(Dumps(subOptions.value)) else None)
  }

  /** The follow-ups listed under one option, the first having order `idx`. */
  function Level1Rows(qid: nat, optionText: Json, items: seq<Json>, idx: nat, sid: nat): Result<seq<SubQuestion>, BuildError>
  {
    Run(FollowUpsLoop(qid, optionText, items, idx, sid))
  }

  /** The follow-ups listed by one option of a choice question: those of an object-shaped option, else none. */
  function OptionItem(qid: nat, option: Json, sid: nat): Result<seq<SubQuestion>, BuildError>
    decreases 3, 0
  {
    if option.JObj? then
      match Iterate(GetOr(option.fields, "subquestions", JArr([])))
      case Err(e) => Err(e)
      case Ok(subqsData) => Run(FollowUpsLoop(qid, GetOr(option.fields, "text", JStr("")), subqsData, 0, sid))
    else Ok([])
  }

  /** The follow-ups of a choice question's options. */
  function OptionRows(qid: nat, options: seq<Json>, sid: nat): Result<seq<SubQuestion>, BuildError> {
    Run(OptionsLoop(qid, options, sid))
  }

  // ----- questions: `for idx, q_data in enumerate(data['questions'])` -----

  /** The option list of a choice question: the "options" entry, decoded when it is a string. */
  function OptionsData(decode: string -> Option<Json>, fields: seq<(string, Json)>): Json {
    var raw := GetOr(fields, "options", JArr([]));
    if raw.JStr? then OptionDecoding.FromJsonFilter(decode, raw.s) else raw
  }

  /**
   * What a descriptor says before any follow-up is built: the Question's type, text and
   * `required` flag and, for a choice question, the option list it stores with its elements.
   */
  datatype Header = Header(qtype: string, text: string, required: bool, options: Option<(Json, seq<Json>)>)

  /**
   * The first steps of a turn of the question loop: reading "question_type" and "question_text",
   * the `required` flag, and for a choice question the option list and its iteration.
   */
  function ReadHeader(d: Json, decode: string -> Option<Json>): Result<Header, BuildError> {
    match Field(d, "question_type")
    case Err(e) => Err(e)
    case Ok(tyValue) =>
      match Field(d, "question_text")
      case Err(e) => Err(e)
      case Ok(textValue) =>
        if !tyValue.JStr? || !textValue.JStr? then Err(UnsupportedValue)
        else
          match FlagColumn(GetOr(d.fields, "required", JBool(false)))
          case Err(e) => Err(e)
          case Ok(req) =>
            if !IsChoice(tyValue.s) then Ok(Header(tyValue.s, textValue.s, req, None))
            else
              var optionsData := OptionsData(decode, d.fields);
              match Iterate(optionsData)
              case Err(e) => Err(e)
              case Ok(options) => Ok(Header(tyValue.s, textValue.s, req, Some((optionsData, options))))
  }

  /** The rest of a turn: the Question row with id `qid` and order `idx`, and its follow-ups. */
  function Turn(formId: nat, head: Result<Header, BuildError>, idx: nat, qid: nat, sid: nat)
    : Result<(Question, seq<SubQuestion>), BuildError>
  {
    match head
    case Err(e) => Err(e)
    case Ok(h) =>
      match h.options
      case None => Ok((Question(qid, formId, h.text, h.qtype, None, h.required, idx), []))
      case Some((data, options)) =>
        match OptionRows(qid, options, sid)
        case Err(e) => Err(e)
        case Ok(subqs) => Ok((Question(qid, formId, h.text, h.qtype, Some(Dumps(data)), h.required, idx), subqs))
  }

  /** The Question row, with id `qid` and order `idx`, and the follow-ups built from descriptor `d`. */
  function QuestionRows(formId: nat, d: Json, idx: nat, qid: nat, sid: nat,
                        decode: string -> Option<Json>)
    : Result<(Question, seq<SubQuestion>), BuildError>
  {
    Turn(formId, ReadHeader(d, decode), idx, qid, sid)
  }

  /** The header of every descriptor; reading one has no effect, so they can be read ahead. */
  function Headers(items: seq<Json>, decode: string -> Option<Json>): (r: seq<Result<Header, BuildError>>)
    ensures |r| == |items|
    ensures forall k :: 0 <= k < |items| ==> r[k] == ReadHeader(items[k], decode)
  {
    seq(|items|, k requires 0 <= k < |items| => ReadHeader(items[k], decode))
  }

  /** The rows of a rebuild: the questions in payload order, and their follow-ups. */
  datatype Rows = Rows(questions: seq<Question>, subquestions: seq<SubQuestion>)

  /**
   * The rows the question loop has added after its first `n` turns, over descriptors with
   * headers `heads`, the `k`-th giving the Question with order `k` and id `qid + k`; or the
   * exception a turn raised.
   */
  function Added(formId: nat, heads: seq<Result<Header, BuildError>>, n: nat, qid: nat, sid: nat)
    : Result<Rows, BuildError>
    requires n <= |heads|
    decreases n
  {
    if n == 0 then Ok(Rows([], []))
    else match Added(formId, heads, n - 1, qid, sid)
      case Err(e) => Err(e)
      case Ok(rows) =>
        (match Turn(formId, heads[n - 1], n - 1, qid + (n - 1), sid + |rows.subquestions|)
         case Err(e) => Err(e)
         case Ok((q, subqs)) => Ok(Rows(rows.questions + [q], rows.subquestions + subqs)))
  }

  /** Turn `i` of the question loop adds the rows built from descriptor `i`, or raises its exception. */
  lemma {:induction false} AddedStep(formId: nat, heads: seq<Result<Header, BuildError>>, i: nat, qid: nat, sid: nat,
                                     done: Rows, built: Result<(Question, seq<SubQuestion>), BuildError>)
    requires i < |heads| && Added(formId, heads, i, qid, sid) == Ok(done)
    requires built == Turn(formId, heads[i], i, qid + i, sid + |done.subquestions|)
    ensures Added(formId, heads, i + 1, qid, sid) ==
      if built.Err? then Err(built.error)
      else Ok(Rows(done.questions + [built.value.0], done.subquestions + built.value.1))
  {
    assert i + 1 - 1 == i;
  }

  /** The rows built from the descriptors `items`, questions numbered from `qid` and follow-ups from `sid`. */
  function AllRows(formId: nat, items: seq<Json>, qid: nat, sid: nat, decode: string -> Option<Json>)
    : Result<Rows, BuildError>
  {
    Added(formId, Headers(items, decode), |items|, qid, sid)
  }

  // ----- what a successful rebuild produces -----

  /** Level-2 rows are numbered from `sid` in order, keyed "<option>|<nested option>", with order = index. */
  lemma {:induction false} NestedRowsShape(qid: nat, optionText: Json, nestedText: Json, items: seq<Json>,
                                           idx: nat, sid: nat)
    requires NestedRows(qid, optionText, nestedText, items, idx, sid).Ok?
    ensures var rows := NestedRows(qid, optionText, nestedText, items, idx, sid).value;
      |rows| == |items| && NumberedFrom(rows, sid) &&
      (items != [] ==> optionText.JStr? && nestedText.JStr?) &&
      forall k :: 0 <= k < |rows| ==>
        rows[k].order == idx + k && rows[k].nestingLevel == 2 && rows[k].questionId == qid &&
        rows[k].parentOption == CompositeKey(optionText.s, nestedText.s) &&
        items[k].JObj? && FollowUpColumns(items[k].fields) == Ok((rows[k].text, rows[k].qtype, rows[k].required))
  {
    if items != [] {
      RunCons(NestedFollowUpsLoop(qid, optionText, nestedText, items, idx, sid));
      var row := NestedRow(qid, optionText, nestedText, items[0], idx, sid).value;
      NestedRowsShape(qid, optionText, nestedText, items[1..], idx + 1, sid + 1);
      var rows := NestedRows(qid, optionText, nestedText, items, idx, sid).value;
      var rest := NestedRows(qid, optionText, nestedText, items[1..], idx + 1, sid + 1).value;
      assert rows == [row] + rest;
      assert forall k :: 1 <= k < |rows| ==> rows[k] == rest[k - 1];
    }
  }

  /**
   * The level-2 rows listed by one option of a level-1 follow-up are numbered from `sid` and keyed
   * "<optionText>|<the option's "text">", the text defaulting to ""; an option that is not a
   * dictionary with "subquestions" lists none.
   */
  lemma NestedOptionItemShape(qid: nat, optionText: Json, nestedOption: Json, sid: nat)
    requires NestedOptionItem(qid, optionText, nestedOption, sid).Ok?
    ensures var rows := NestedOptionItem(qid, optionText, nestedOption, sid).value;
      NumberedFrom(rows, sid) && UnderOption(rows, qid, optionText) &&
      (forall s :: s in rows ==> s.nestingLevel == 2) &&
      (!(nestedOption.JObj? && HasKey(nestedOption, "subquestions")) ==> rows == []) &&
      (nestedOption.JObj? ==>
        var nestedText := GetOr(nestedOption.fields, "text", JStr(""));
        forall s :: s in rows ==> nestedText.JStr? && s.parentOption == CompositeKey(optionText.s, nestedText.s))
  {
    if nestedOption.JObj? && HasKey(nestedOption, "subquestions") {
      var listed := Iterate(Lookup(nestedOption.fields, "subquestions").value).value;
      var nestedText := GetOr(nestedOption.fields, "text", JStr(""));
      NestedRowsShape(qid, optionText, nestedText, listed, 0, sid);
      var rows := NestedRows(qid, optionText, nestedText, listed, 0, sid).value;
      assert forall s :: s in rows ==> s.parentOption == CompositeKey(optionText.s, nestedText.s);
    }
  }

  /** The level-2 rows of a level-1 follow-up under `optionText` are numbered from `sid` and keyed under it. */
  lemma {:induction false} NestedOptionRowsShape(qid: nat, optionText: Json, items: seq<Json>, sid: nat)
    requires NestedOptionRows(qid, optionText, items, sid).Ok?
    ensures var rows := NestedOptionRows(qid, optionText, items, sid).value;
      NumberedFrom(rows, sid) && UnderOption(rows, qid, optionText) &&
      forall s :: s in rows ==> s.nestingLevel == 2
  {
    if items != [] {
      RunCons(NestedOptionsLoop(qid, optionText, items, sid));
      var rows := NestedOptionItem(qid, optionText, items[0], sid).value;
      var rest := NestedOptionRows(qid, optionText, items[1..], sid + |rows|).value;
      assert NestedOptionRows(qid, optionText, items, sid).value == rows + rest;
      NestedOptionItemShape(qid, optionText, items[0], sid);
      NestedOptionRowsShape(qid, optionText, items[1..], sid + |rows|);
      NumberedFromAppend(rows, rest, sid);
      assert forall s :: s in rows + rest ==> s in rows || s in rest;
    }
  }

  /**
   * One level-1 descriptor yields its level-2 rows, then the level-1 row with order `idx` and the
   * descriptor's columns, numbered from `sid`.
   */
  lemma Level1RowShape(qid: nat, optionText: Json, d: Json, idx: nat, sid: nat)
    requires Level1Row(qid, optionText, d, idx, sid).Ok?
    ensures var rows := Level1Row(qid, optionText, d, idx, sid).value;
      |rows| >= 1 && NumberedFrom(rows, sid) && UnderOption(rows, qid, optionText) &&
      Level1From(rows[|rows| - 1], d, idx) &&
      forall k :: 0 <= k < |rows| - 1 ==> rows[k].nestingLevel == 2
  {
    var subOptions := Lookup(d.fields, "options");
    var nested: seq<SubQuestion> := [];
    if subOptions.Some? && subOptions.value.JArr? {
      NestedOptionRowsShape(qid, optionText, subOptions.value.items, sid);
      nested := NestedOptionRows(qid, optionText, subOptions.value.items, sid).value;
    }
    var row := Level1Own(qid, optionText, d.fields, idx, sid + |nested|).value;
    var rows := nested + [row];
    assert Level1Row(qid, optionText, d, idx, sid).value == rows;
    NumberedFromAppend(nested, [row], sid);
    assert forall s :: s in rows ==> s in nested || s == row;
    assert forall k :: 0 <= k < |rows| - 1 ==> rows[k] in nested;
  }

  /** The level-1 rows among `rows`, in order. */
  function Level1Only(rows: seq<SubQuestion>): seq<SubQuestion> {
    if rows == [] then []
    else (if rows[0].nestingLevel == 1 then [rows[0]] else []) + Level1Only(rows[1..])
  }

  lemma {:induction false} Level1OnlyAppend(a: seq<SubQuestion>, b: seq<SubQuestion>)
    ensures Level1Only(a + b) == Level1Only(a) + Level1Only(b)
  {
    if a == [] {
      assert a + b == b;
    } else {
      var ab := a + b;
      assert ab[0] == a[0] && ab[1..] == a[1..] + b;
      var head := if a[0].nestingLevel == 1 then [a[0]] else [];
      assert Level1Only(ab) == head + Level1Only(a[1..] + b);
      assert Level1Only(a) == head + Level1Only(a[1..]);
      Level1OnlyAppend(a[1..], b);
      AppendAssoc(head, Level1Only(a[1..]), Level1Only(b));
    }
  }

  lemma {:induction false} Level1OnlyOfRow(rows: seq<SubQuestion>)
    requires |rows| >= 1 && rows[|rows| - 1].nestingLevel == 1
    requires forall k :: 0 <= k < |rows| - 1 ==> rows[k].nestingLevel == 2
    ensures Level1Only(rows) == [rows[|rows| - 1]]
  {
    if |rows| > 1 {
      Level1OnlyOfRow(rows[1..]);
    }
  }

  /**
   * The rows listed under one option are numbered from `sid` and hang on that option, and the
   * k-th level-1 row among them is built from the k-th descriptor `items[k]`, with order `idx + k`.
   */
  lemma {:induction false} Level1RowsShape(qid: nat, optionText: Json, items: seq<Json>, idx: nat, sid: nat)
    requires Level1Rows(qid, optionText, items, idx, sid).Ok?
    ensures var rows := Level1Rows(qid, optionText, items, idx, sid).value;
      NumberedFrom(rows, sid) && UnderOption(rows, qid, optionText) && |Level1Only(rows)| == |items| &&
      forall k :: 0 <= k < |items| ==> Level1From(Level1Only(rows)[k], items[k], idx + k)
  {
    if items != [] {
      RunCons(FollowUpsLoop(qid, optionText, items, idx, sid));
      var rows := Level1Row(qid, optionText, items[0], idx, sid).value;
      Level1RowShape(qid, optionText, items[0], idx, sid);
      Level1RowsShape(qid, optionText, items[1..], idx + 1, sid + |rows|);
      var rest := Level1Rows(qid, optionText, items[1..], idx + 1, sid + |rows|).value;
      assert Level1Rows(qid, optionText, items, idx, sid) == Ok(rows + rest);
      Level1RowsAppend(rows, rest, qid, optionText, items, idx, sid);
    }
  }

  lemma {:induction false} Level1RowsAppend(rows: seq<SubQuestion>, rest: seq<SubQuestion>, qid: nat, option: Json,
                                            items: seq<Json>, idx: nat, sid: nat)
    requires |rows| >= 1 && NumberedFrom(rows, sid) && |items| >= 1
    requires Level1From(rows[|rows| - 1], items[0], idx)
    requires forall k :: 0 <= k < |rows| - 1 ==> rows[k].nestingLevel == 2
    requires UnderOption(rows, qid, option) && UnderOption(rest, qid, option)
    requires NumberedFrom(rest, sid + |rows|) && |Level1Only(rest)| == |items| - 1
    requires forall k :: 0 <= k < |items| - 1 ==> Level1From(Level1Only(rest)[k], items[1..][k], idx + 1 + k)
    ensures NumberedFrom(rows + rest, sid) && UnderOption(rows + rest, qid, option)
    ensures |Level1Only(rows + rest)| == |items|
    ensures forall k :: 0 <= k < |items| ==> Level1From(Level1Only(rows + rest)[k], items[k], idx + k)
  {
    NumberedFromAppend(rows, rest, sid);
    Level1OnlyAppend(rows, rest);
    Level1OnlyOfRow(rows);
    assert forall s :: s in rows + rest ==> s in rows || s in rest;
    forall k | 0 <= k < |items|
      ensures Level1From(Level1Only(rows + rest)[k], items[k], idx + k)
    {
      if k > 0 {
        assert Level1Only(rows + rest)[k] == Level1Only(rest)[k - 1];
        assert items[1..][k - 1] == items[k];
      }
    }
  }

  /** The rows listed under one option are numbered from `sid` and belong to question `qid`. */
  lemma Level1RowsBelong(qid: nat, optionText: Json, items: seq<Json>, sid: nat)
    requires Level1Rows(qid, optionText, items, 0, sid).Ok?
    ensures NumberedFrom(Level1Rows(qid, optionText, items, 0, sid).value, sid)
    ensures Belongs(Level1Rows(qid, optionText, items, 0, sid).value, qid)
  {
    Level1RowsShape(qid, optionText, items, 0, sid);
  }

  /**
   * Follow-up `s` of question `qid` hangs on the dictionary-shaped option `option`: on its "text"
   * (default "") at level 1, and on a key "<that text>|<nested option>" at level 2.
   */
  ghost predicate HangsOn(s: SubQuestion, qid: nat, option: Json) {
    option.JObj? && s.questionId == qid &&
    var text := GetOr(option.fields, "text", JStr(""));
    text.JStr? &&
    (s.nestingLevel == 1 ==> s.parentOption == text.s) &&
    (s.nestingLevel == 2 ==> exists n :: s.parentOption == CompositeKey(text.s, n)) &&
    (s.nestingLevel == 1 || s.nestingLevel == 2)
  }

  /**
   * The follow-ups listed by one option are numbered from `sid` and hang on that option; an
   * option that is not a dictionary lists none.
   */
  lemma OptionItemShape(qid: nat, option: Json, sid: nat)
    requires OptionItem(qid, option, sid).Ok?
    ensures NumberedFrom(OptionItem(qid, option, sid).value, sid)
    ensures Belongs(OptionItem(qid, option, sid).value, qid)
    ensures !option.JObj? ==> OptionItem(qid, option, sid).value == []
    ensures forall s :: s in OptionItem(qid, option, sid).value ==> HangsOn(s, qid, option)
  {
    if option.JObj? {
      var subqsData := Iterate(GetOr(option.fields, "subquestions", JArr([]))).value;
      Level1RowsShape(qid, GetOr(option.fields, "text", JStr("")), subqsData, 0, sid);
    }
  }

  /**
   * A dictionary option lists one level-1 follow-up per entry of its "subquestions", the k-th
   * built from the k-th entry, with order k.
   */
  lemma OptionItemLevel1(qid: nat, option: Json, sid: nat)
    requires OptionItem(qid, option, sid).Ok? && option.JObj?
    ensures Iterate(GetOr(option.fields, "subquestions", JArr([]))).Ok?
    ensures var subqsData := Iterate(GetOr(option.fields, "subquestions", JArr([]))).value;
      var level1 := Level1Only(OptionItem(qid, option, sid).value);
      |level1| == |subqsData| &&
      forall k :: 0 <= k < |subqsData| ==> Level1From(level1[k], subqsData[k], k)
  {
    var subqsData := Iterate(GetOr(option.fields, "subquestions", JArr([]))).value;
    Level1RowsShape(qid, GetOr(option.fields, "text", JStr("")), subqsData, 0, sid);
  }

  /** The follow-ups of a choice question hang on the option `options[j]` for some `j`. */
  ghost predicate UnderSomeOption(s: SubQuestion, qid: nat, options: seq<Json>) {
    exists j :: 0 <= j < |options| && HangsOn(s, qid, options[j])
  }

  /**
   * The follow-ups of a choice question are numbered from `sid`, belong to it, sit at level 1 or
   * 2, and each hangs on one of the question's options.
   */
  lemma {:induction false} OptionRowsShape(qid: nat, options: seq<Json>, sid: nat)
    requires OptionRows(qid, options, sid).Ok?
    ensures var rows := OptionRows(qid, options, sid).value;
      NumberedFrom(rows, sid) && Belongs(rows, qid) &&
      forall s :: s in rows ==> UnderSomeOption(s, qid, options)
  {
    if options != [] {
      RunCons(OptionsLoop(qid, options, sid));
      var rows := OptionItem(qid, options[0], sid).value;
      var rest := OptionRows(qid, options[1..], sid + |rows|).value;
      assert OptionRows(qid, options, sid).value == rows + rest;
      OptionItemShape(qid, options[0], sid);
      OptionRowsShape(qid, options[1..], sid + |rows|);
      NumberedFromAppend(rows, rest, sid);
      BelongsAppend(rows, rest, qid);
      forall s | s in rows + rest ensures UnderSomeOption(s, qid, options) {
        if s in rows {
          assert HangsOn(s, qid, options[0]);
        } else {
          var j :| 0 <= j < |options[1..]| && HangsOn(s, qid, options[1..][j]);
          assert options[1..][j] == options[j + 1];
        }
      }
    }
  }

  /**
   * The option list a descriptor's "options" entry gives a choice question: a string is decoded,
   * and one that is not JSON gives the empty list; a missing entry gives the empty list; any
   * other value is kept.
   */
  lemma OptionsDataShape(decode: string -> Option<Json>, fields: seq<(string, Json)>)
    ensures Lookup(fields, "options").None? ==> OptionsData(decode, fields) == JArr([])
    ensures var raw := GetOr(fields, "options", JArr([]));
      (raw.JStr? && decode(raw.s).None? ==> OptionsData(decode, fields) == JArr([])) &&
      (raw.JStr? && decode(raw.s).Some? ==> OptionsData(decode, fields) == decode(raw.s).value) &&
      (!raw.JStr? ==> OptionsData(decode, fields) == raw)
  {
  }

  /**
   * A header is read only from a descriptor with both "question_type" and "question_text",
   * whose values it keeps, with the "required" entry (default False) as the flag; only a choice
   * question's header carries an option list, the one its "options" entry gives, with the
   * elements iterating over it yields.
   */
  lemma {:induction false} ReadHeaderShape(d: Json, decode: string -> Option<Json>)
    requires ReadHeader(d, decode).Ok?
    ensures HasKey(d, "question_type") && HasKey(d, "question_text")
    ensures var h := ReadHeader(d, decode).value;
      JStr(h.qtype) == Lookup(d.fields, "question_type").value &&
      JStr(h.text) == Lookup(d.fields, "question_text").value &&
      FlagColumn(GetOr(d.fields, "required", JBool(false))) == Ok(h.required) &&
      (IsChoice(h.qtype) <==> h.options.Some?) &&
      (h.options.Some? ==>
        h.options.value.0 == OptionsData(decode, d.fields) && Iterate(h.options.value.0) == Ok(h.options.value.1))
  {
  }

  /** The option text a Question built from header `h` stores: the JSON text of its option list, if any. */
  function StoredOptions(h: Header): Option<string> {
    match h.options
    case None => None
    case Some((data, _)) => Some(Dumps(data))
  }

  /** Question `q` has the type, text, `required` flag and stored option list header `h` gives. */
  predicate Describes(q: Question, h: Header) {
    q.qtype == h.qtype && q.text == h.text && q.required == h.required && q.options == StoredOptions(h)
  }

  /** Follow-up `s` of question `qid` hangs on one of the options of the choice question with header `h`. */
  ghost predicate FollowUpOf(s: SubQuestion, qid: nat, h: Header) {
    h.options.Some? && UnderSomeOption(s, qid, h.options.value.1)
  }

  /**
   * A turn yields the Question with the given id and order and the header's type, text, flag and
   * option list; its follow-ups hang on the header's options, so a header without an option list
   * gets none.
   */
  lemma {:induction false} TurnShape(formId: nat, h: Header, idx: nat, qid: nat, sid: nat)
    requires Turn(formId, Ok(h), idx, qid, sid).Ok?
    ensures var (q, subqs) := Turn(formId, Ok(h), idx, qid, sid).value;
      q.id == qid && q.formId == formId && q.order == idx && Describes(q, h) &&
      NumberedFrom(subqs, sid) && Belongs(subqs, qid) &&
      (h.options.None? ==> subqs == []) &&
      forall s :: s in subqs ==> FollowUpOf(s, qid, h)
  {
    if h.options.Some? {
      OptionRowsShape(qid, h.options.value.1, sid);
    }
  }

  /**
   * Question `q` is the one the rebuild makes from descriptor `d`: its type and text are the
   * descriptor's "question_type" and "question_text", its flag the "required" entry (default
   * False), and a choice question stores the JSON text of the option list its "options" entry
   * gives while any other stores none.
   */
  ghost predicate BuiltFrom(q: Question, d: Json, decode: string -> Option<Json>) {
    HasKey(d, "question_type") && HasKey(d, "question_text") &&
    JStr(q.qtype) == Lookup(d.fields, "question_type").value &&
    JStr(q.text) == Lookup(d.fields, "question_text").value &&
    FlagColumn(GetOr(d.fields, "required", JBool(false))) == Ok(q.required) &&
    q.options == (if IsChoice(q.qtype) then Some(Dumps(OptionsData(decode, d.fields))) else None)
  }

  /** A Question described by the header read from `d` is built from `d`. */
  lemma DescribedBuiltFrom(q: Question, d: Json, decode: string -> Option<Json>)
    requires ReadHeader(d, decode).Ok? && Describes(q, ReadHeader(d, decode).value)
    ensures BuiltFrom(q, d, decode)
  {
    ReadHeaderShape(d, decode);
  }

  /**
   * A descriptor yields a Question with the given id and order built from it; only a choice
   * question gets follow-ups, and each hangs on one of the options of its option list.
   */
  lemma {:induction false} QuestionRowsShape(formId: nat, d: Json, idx: nat, qid: nat, sid: nat,
                                             decode: string -> Option<Json>)
    requires QuestionRows(formId, d, idx, qid, sid, decode).Ok?
    ensures var (q, subqs) := QuestionRows(formId, d, idx, qid, sid, decode).value;
      q.id == qid && q.formId == formId && q.order == idx && BuiltFrom(q, d, decode) &&
      NumberedFrom(subqs, sid) && Belongs(subqs, qid) &&
      (!IsChoice(q.qtype) ==> subqs == []) &&
      (IsChoice(q.qtype) ==>
        Iterate(OptionsData(decode, d.fields)).Ok? &&
        forall s :: s in subqs ==> UnderSomeOption(s, qid, Iterate(OptionsData(decode, d.fields)).value))
  {
    var h := ReadHeader(d, decode).value;
    ReadHeaderShape(d, decode);
    TurnShape(formId, h, idx, qid, sid);
    DescribedBuiltFrom(QuestionRows(formId, d, idx, qid, sid, decode).value.0, d, decode);
  }

  /**
   * After `n` turns the loop holds one Question per descriptor visited, in payload order, with
   * order = index, consecutive ids and the type, text, flag and option list of that descriptor's
   * header; the follow-ups are numbered from `sid` and each hangs on an option of its question.
   */
  lemma {:induction false} AddedShape(formId: nat, heads: seq<Result<Header, BuildError>>, n: nat, qid: nat, sid: nat)
    requires n <= |heads| && Added(formId, heads, n, qid, sid).Ok?
    ensures var rows := Added(formId, heads, n, qid, sid).value;
      |rows.questions| == n &&
      (forall k :: 0 <= k < n ==>
        rows.questions[k].order == k && rows.questions[k].id == qid + k && rows.questions[k].formId == formId &&
        heads[k].Ok? && Describes(rows.questions[k], heads[k].value)) &&
      NumberedFrom(rows.subquestions, sid) &&
      forall s :: s in rows.subquestions ==>
        qid <= s.questionId < qid + n && FollowUpOf(s, s.questionId, heads[s.questionId - qid].value)
  {
    AddedQuestions(formId, heads, n, qid, sid);
    AddedFollowUps(formId, heads, n, qid, sid);
  }

  /** The questions part of AddedShape. */
  lemma {:induction false} AddedQuestions(formId: nat, heads: seq<Result<Header, BuildError>>, n: nat, qid: nat, sid: nat)
    requires n <= |heads| && Added(formId, heads, n, qid, sid).Ok?
    ensures var rows := Added(formId, heads, n, qid, sid).value;
      |rows.questions| == n &&
      forall k :: 0 <= k < n ==>
        rows.questions[k].order == k && rows.questions[k].id == qid + k && rows.questions[k].formId == formId &&
        heads[k].Ok? && Describes(rows.questions[k], heads[k].value)
    decreases n
  {
    if n > 0 {
      var rows := Added(formId, heads, n - 1, qid, sid).value;
      AddedQuestions(formId, heads, n - 1, qid, sid);
      var subSid := sid + |rows.subquestions|;
      TurnShape(formId, heads[n - 1].value, n - 1, qid + (n - 1), subSid);
      var built := Turn(formId, heads[n - 1], n - 1, qid + (n - 1), subSid).value;
      AddedStep(formId, heads, n - 1, qid, sid, rows, Turn(formId, heads[n - 1], n - 1, qid + (n - 1), subSid));
      var questions := rows.questions + [built.0];
      assert Added(formId, heads, n, qid, sid).value.questions == questions;
      forall k | 0 <= k < n
        ensures questions[k].order == k && questions[k].id == qid + k && questions[k].formId == formId &&
                heads[k].Ok? && Describes(questions[k], heads[k].value)
      {
        if k < n - 1 {
          assert questions[k] == rows.questions[k];
        }
      }
    }
  }

  /** The follow-ups part of AddedShape. */
  lemma {:induction false} AddedFollowUps(formId: nat, heads: seq<Result<Header, BuildError>>, n: nat, qid: nat, sid: nat)
    requires n <= |heads| && Added(formId, heads, n, qid, sid).Ok?
    ensures forall k :: 0 <= k < n ==> heads[k].Ok?
    ensures var rows := Added(formId, heads, n, qid, sid).value;
      NumberedFrom(rows.subquestions, sid) &&
      forall s :: s in rows.subquestions ==>
        qid <= s.questionId < qid + n && FollowUpOf(s, s.questionId, heads[s.questionId - qid].value)
    decreases n
  {
    if n > 0 {
      var rows := Added(formId, heads, n - 1, qid, sid).value;
      AddedFollowUps(formId, heads, n - 1, qid, sid);
      var subSid := sid + |rows.subquestions|;
      TurnShape(formId, heads[n - 1].value, n - 1, qid + (n - 1), subSid);
      var built := Turn(formId, heads[n - 1], n - 1, qid + (n - 1), subSid).value;
      AddedStep(formId, heads, n - 1, qid, sid, rows, Turn(formId, heads[n - 1], n - 1, qid + (n - 1), subSid));
      var subquestions := rows.subquestions + built.1;
      assert Added(formId, heads, n, qid, sid).value.subquestions == subquestions;
      NumberedFromAppend(rows.subquestions, built.1, sid);
      forall s | s in subquestions
        ensures qid <= s.questionId < qid + n && FollowUpOf(s, s.questionId, heads[s.questionId - qid].value)
      {
        if s !in rows.subquestions {
          assert s in built.1;
        }
      }
    }
  }

  /**
   * A rebuild gives one Question per descriptor, in payload order, with order = index,
   * consecutive ids and the type, text, flag and option list of the header read from that
   * descriptor; the follow-ups are numbered from `sid` and each hangs on an option of its
   * question's header.
   */
  lemma {:induction false} AllRowsShape(formId: nat, items: seq<Json>, qid: nat, sid: nat, decode: string -> Option<Json>)
    requires AllRows(formId, items, qid, sid, decode).Ok?
    ensures var rows := AllRows(formId, items, qid, sid, decode).value;
      |rows.questions| == |items| &&
      (forall k :: 0 <= k < |items| ==>
        rows.questions[k].order == k && rows.questions[k].id == qid + k && rows.questions[k].formId == formId &&
        ReadHeader(items[k], decode).Ok? && Describes(rows.questions[k], ReadHeader(items[k], decode).value)) &&
      NumberedFrom(rows.subquestions, sid) &&
      forall s :: s in rows.subquestions ==>
        qid <= s.questionId < qid + |items| &&
        FollowUpOf(s, s.questionId, ReadHeader(items[s.questionId - qid], decode).value)
  {
    AddedShape(formId, Headers(items, decode), |items|, qid, sid);
  }

  /**
   * Follow-up `s` belongs to question `q`, built from descriptor `d`: `q` is a choice question and
   * `s` hangs on one of the options of the option list `d` gives.
   */
  ghost predicate ChildOf(s: SubQuestion, q: Question, d: Json, decode: string -> Option<Json>) {
    s.questionId == q.id && IsChoice(q.qtype) && d.JObj? &&
    Iterate(OptionsData(decode, d.fields)).Ok? &&
    UnderSomeOption(s, q.id, Iterate(OptionsData(decode, d.fields)).value)
  }

  /**
   * The `k`-th Question of a rebuild is built from the `k`-th descriptor, and a follow-up of it
   * exists only when it is a choice question, hanging on one of the options of its option list.
   */
  lemma RebuiltQuestion(formId: nat, items: seq<Json>, qid: nat, sid: nat, decode: string -> Option<Json>, k: nat)
    requires AllRows(formId, items, qid, sid, decode).Ok? && k < |items|
    ensures var rows := AllRows(formId, items, qid, sid, decode).value;
      |rows.questions| == |items| && rows.questions[k].id == qid + k && BuiltFrom(rows.questions[k], items[k], decode) &&
      forall s :: s in rows.subquestions && s.questionId == qid + k ==> ChildOf(s, rows.questions[k], items[k], decode)
  {
    AllRowsShape(formId, items, qid, sid, decode);
    var rows := AllRows(formId, items, qid, sid, decode).value;
    ReadHeaderShape(items[k], decode);
    DescribedBuiltFrom(rows.questions[k], items[k], decode);
  }

  /** Every follow-up of a rebuild is a child of the question it names, built from that question's descriptor. */
  lemma RebuiltFollowUps(formId: nat, items: seq<Json>, qid: nat, sid: nat, decode: string -> Option<Json>)
    requires AllRows(formId, items, qid, sid, decode).Ok?
    ensures var rows := AllRows(formId, items, qid, sid, decode).value;
      |rows.questions| == |items| &&
      forall s, k :: s in rows.subquestions && 0 <= k < |items| && s.questionId == qid + k ==>
        ChildOf(s, rows.questions[k], items[k], decode)
  {
    var rows := AllRows(formId, items, qid, sid, decode).value;
    AllRowsShape(formId, items, qid, sid, decode);
    forall s, k | s in rows.subquestions && 0 <= k < |items| && s.questionId == qid + k
      ensures ChildOf(s, rows.questions[k], items[k], decode)
    {
      RebuiltQuestion(formId, items, qid, sid, decode, k);
    }
  }

  /** An exception ends the rebuild: once a turn raises, the whole loop raises that exception. */
  lemma {:induction false} AddedStaysFailed(formId: nat, heads: seq<Result<Header, BuildError>>, n: nat, qid: nat, sid: nat)
    requires n <= |heads| && Added(formId, heads, n, qid, sid).Err?
    ensures Added(formId, heads, |heads|, qid, sid) == Added(formId, heads, n, qid, sid)
    decreases |heads| - n
  {
    if n < |heads| {
      assert Added(formId, heads, n + 1, qid, sid) == Added(formId, heads, n, qid, sid);
      AddedStaysFailed(formId, heads, n + 1, qid, sid);
    }
  }

  /** A descriptor without "question_type" or "question_text" makes the whole rebuild fail. */
  lemma {:induction false} MissingFieldFails(formId: nat, items: seq<Json>, qid: nat, sid: nat,
                                             decode: string -> Option<Json>, k: nat)
    requires k < |items|
    requires !HasKey(items[k], "question_type") || !HasKey(items[k], "question_text")
    ensures AllRows(formId, items, qid, sid, decode).Err?
  {
    var heads := Headers(items, decode);
    if heads[k].Ok? {
      ReadHeaderShape(items[k], decode);
    }
    if Added(formId, heads, k, qid, sid).Err? {
      AddedStaysFailed(formId, heads, k, qid, sid);
    } else {
      AddedStaysFailed(formId, heads, k + 1, qid, sid);
    }
  }

  // ----- the rebuild as the source runs it: loops adding rows -----

  lemma ThenEmpty<T>(rest: Result<seq<T>, BuildError>)
    ensures Then([], rest) == rest
  {
    if rest.Ok? {
      assert [] + rest.value == rest.value;
    }
  }

  /** Continuing `done` with `more` and then `rest` is continuing `done + more` with `rest`. */
  lemma ThenStep<T>(done: seq<T>, more: seq<T>, rest: Result<seq<T>, BuildError>)
    ensures Then(done, Then(more, rest)) == Then(done + more, rest)
  {
    if rest.Ok? {
      assert done + (more + rest.value) == done + more + rest.value;
    }
  }

  /** One turn of the level-2 loop: the row it adds, then the rest of the loop; or the exception it raises. */
  lemma NestedRowsTurn(qid: nat, optionText: Json, nestedText: Json, items: seq<Json>, i: nat, sid: nat,
                       rows: seq<SubQuestion>, row: Result<SubQuestion, BuildError>)
    requires i < |items| && row == NestedRow(qid, optionText, nestedText, items[i], i, sid + |rows|)
    ensures row.Err? ==>
      Then(rows, NestedRows(qid, optionText, nestedText, items[i..], i, sid + |rows|)) == Err(row.error)
    ensures row.Ok? ==>
      Then(rows, NestedRows(qid, optionText, nestedText, items[i..], i, sid + |rows|))
      == Then(rows + [row.value], NestedRows(qid, optionText, nestedText, items[i + 1..], i + 1, sid + |rows + [row.value]|))
  {
    var loop := NestedFollowUpsLoop(qid, optionText, nestedText, items[i..], i, sid + |rows|);
    assert items[i..][0] == items[i] && items[i..][1..] == items[i + 1..];
    if row.Err? {
      RunFail(loop, rows);
    } else {
      RunAdvance(loop, rows, [row.value]);
    }
  }

  /** `for nested_subq_idx, nested_subq in enumerate(...)`: the level-2 rows under one nested option. */
  method BuildNestedRows(qid: nat, optionText: Json, nestedText: Json, items: seq<Json>, sid: nat)
    returns (r: Result<seq<SubQuestion>, BuildError>)
    ensures r == NestedRows(qid, optionText, nestedText, items, 0, sid)
  {
    var rows: seq<SubQuestion> := [];
    var i := 0;
    assert items[0..] == items;
    ThenEmpty(NestedRows(qid, optionText, nestedText, items, 0, sid));
    while i < |items|
      invariant 0 <= i <= |items|
      invariant Then(rows, NestedRows(qid, optionText, nestedText, items[i..], i, sid + |rows|))
                == NestedRows(qid, optionText, nestedText, items, 0, sid)
    {
      var row := NestedRow(qid, optionText, nestedText, items[i], i, sid + |rows|);
      NestedRowsTurn(qid, optionText, nestedText, items, i, sid, rows, row);
      if row.Err? {
        return Err(row.error);
      }
      rows := rows + [row.value];
      i := i + 1;
    }
    RunDone(NestedFollowUpsLoop(qid, optionText, nestedText, items[i..], i, sid + |rows|), rows);
    return Ok(rows);
  }

  /** The body of the loop over the options of a level-1 follow-up. */
  method BuildNestedOptionItem(qid: nat, optionText: Json, nestedOption: Json, sid: nat)
    returns (r: Result<seq<SubQuestion>, BuildError>)
    ensures r == NestedOptionItem(qid, optionText, nestedOption, sid)
  {
    if nestedOption.JObj? && HasKey(nestedOption, "subquestions") {
      var listed := Iterate(Lookup(nestedOption.fields, "subquestions").value);
      if listed.Err? {
        return Err(listed.error);
      }
      r := BuildNestedRows(qid, optionText, GetOr(nestedOption.fields, "text", JStr("")), listed.value, sid);
    } else {
      r := Ok([]);
    }
  }

  /** One turn of the loop over nested options: the rows it adds, then the rest of the loop; or the exception. */
  lemma NestedOptionRowsTurn(qid: nat, optionText: Json, items: seq<Json>, i: nat, sid: nat, rows: seq<SubQuestion>,
                             added: Result<seq<SubQuestion>, BuildError>)
    requires i < |items| && added == NestedOptionItem(qid, optionText, items[i], sid + |rows|)
    ensures added.Err? ==> Then(rows, NestedOptionRows(qid, optionText, items[i..], sid + |rows|)) == Err(added.error)
    ensures added.Ok? ==>
      Then(rows, NestedOptionRows(qid, optionText, items[i..], sid + |rows|))
      == Then(rows + added.value, NestedOptionRows(qid, optionText, items[i + 1..], sid + |rows + added.value|))
  {
    var loop := NestedOptionsLoop(qid, optionText, items[i..], sid + |rows|);
    assert items[i..][0] == items[i] && items[i..][1..] == items[i + 1..];
    if added.Err? {
      RunFail(loop, rows);
    } else {
      RunAdvance(loop, rows, added.value);
    }
  }

  /** `for nested_idx, nested_option in enumerate(sub_options)`: the level-2 rows of a level-1 follow-up. */
  method BuildNestedOptionRows(qid: nat, optionText: Json, items: seq<Json>, sid: nat)
    returns (r: Result<seq<SubQuestion>, BuildError>)
    ensures r == NestedOptionRows(qid, optionText, items, sid)
  {
    var rows: seq<SubQuestion> := [];
    var i := 0;
    assert items[0..] == items;
    ThenEmpty(NestedOptionRows(qid, optionText, items, sid));
    while i < |items|
      invariant 0 <= i <= |items|
      invariant Then(rows, NestedOptionRows(qid, optionText, items[i..], sid + |rows|))
                == NestedOptionRows(qid, optionText, items, sid)
    {
      var added := BuildNestedOptionItem(qid, optionText, items[i], sid + |rows|);
      NestedOptionRowsTurn(qid, optionText, items, i, sid, rows, added);
      if added.Err? {
        return Err(added.error);
      }
      rows := rows + added.value;
      i := i + 1;
    }
    RunDone(NestedOptionsLoop(qid, optionText, items[i..], sid + |rows|), rows);
    return Ok(rows);
  }

  /** The body of the level-1 loop: one follow-up descriptor, after the level-2 rows of its options. */
  method BuildLevel1Row(qid: nat, optionText: Json, d: Json, idx: nat, sid: nat)
    returns (r: Result<seq<SubQuestion>, BuildError>)
    ensures r == Level1Row(qid, optionText, d, idx, sid)
  {
    if !d.JObj? {
      return Err(AttributeError);
    }
    var subOptions := Lookup(d.fields, "options");
    var nested: seq<SubQuestion> := [];
    if subOptions.Some? && subOptions.value.JArr? {
      var found := BuildNestedOptionRows(qid, optionText, subOptions.value.items, sid);
      if found.Err? {
        return Err(found.error);
      }
      nested := found.value;
    }
    var own := Level1Own(qid, optionText, d.fields, idx, sid + |nested|);
    if own.Err? {
      return Err(own.error);
    }
    return Ok(nested + [own.value]);
  }

  /** One turn of the level-1 loop: the rows it adds, then the rest of the loop; or the exception. */
  lemma Level1RowsTurn(qid: nat, optionText: Json, items: seq<Json>, i: nat, sid: nat, rows: seq<SubQuestion>,
                       added: Result<seq<SubQuestion>, BuildError>)
    requires i < |items| && added == Level1Row(qid, optionText, items[i], i, sid + |rows|)
    ensures added.Err? ==> Then(rows, Level1Rows(qid, optionText, items[i..], i, sid + |rows|)) == Err(added.error)
    ensures added.Ok? ==>
      Then(rows, Level1Rows(qid, optionText, items[i..], i, sid + |rows|))
      == Then(rows + added.value, Level1Rows(qid, optionText, items[i + 1..], i + 1, sid + |rows + added.value|))
  {
    var loop := FollowUpsLoop(qid, optionText, items[i..], i, sid + |rows|);
    assert items[i..][0] == items[i] && items[i..][1..] == items[i + 1..];
    if added.Err? {
      RunFail(loop, rows);
    } else {
      RunAdvance(loop, rows, added.value);
    }
  }

  /** `for subq_idx, subq_data in enumerate(subquestions_data)`: the rows listed under one option. */
  method BuildLevel1Rows(qid: nat, optionText: Json, items: seq<Json>, sid: nat)
    returns (r: Result<seq<SubQuestion>, BuildError>)
    ensures r == Level1Rows(qid, optionText, items, 0, sid)
  {
    var rows: seq<SubQuestion> := [];
    var i := 0;
    assert items[0..] == items;
    ThenEmpty(Level1Rows(qid, optionText, items, 0, sid));
    while i < |items|
      invariant 0 <= i <= |items|
      invariant Then(rows, Level1Rows(qid, optionText, items[i..], i, sid + |rows|))
                == Level1Rows(qid, optionText, items, 0, sid)
    {
      var added := BuildLevel1Row(qid, optionText, items[i], i, sid + |rows|);
      Level1RowsTurn(qid, optionText, items, i, sid, rows, added);
      if added.Err? {
        return Err(added.error);
      }
      rows := rows + added.value;
      i := i + 1;
    }
    RunDone(FollowUpsLoop(qid, optionText, items[i..], i, sid + |rows|), rows);
    return Ok(rows);
  }

  /** The body of the loop over a choice question's options. */
  method BuildOptionItem(qid: nat, option: Json, sid: nat)
    returns (r: Result<seq<SubQuestion>, BuildError>)
    ensures r == OptionItem(qid, option, sid)
  {
    if option.JObj? {
      var subqsData := Iterate(GetOr(option.fields, "subquestions", JArr([])));
      if subqsData.Err? {
        return Err(subqsData.error);
      }
      r := BuildLevel1Rows(qid, GetOr(option.fields, "text", JStr("")), subqsData.value, sid);
    } else {
      r := Ok([]);
    }
  }

  /** One turn of the loop over options: the rows it adds, then the rest of the loop; or the exception. */
  lemma OptionRowsTurn(qid: nat, options: seq<Json>, i: nat, sid: nat, rows: seq<SubQuestion>,
                       added: Result<seq<SubQuestion>, BuildError>)
    requires i < |options| && added == OptionItem(qid, options[i], sid + |rows|)
    ensures added.Err? ==> Then(rows, OptionRows(qid, options[i..], sid + |rows|)) == Err(added.error)
    ensures added.Ok? ==>
      Then(rows, OptionRows(qid, options[i..], sid + |rows|))
      == Then(rows + added.value, OptionRows(qid, options[i + 1..], sid + |rows + added.value|))
  {
    var loop := OptionsLoop(qid, options[i..], sid + |rows|);
    assert options[i..][0] == options[i] && options[i..][1..] == options[i + 1..];
    if added.Err? {
      RunFail(loop, rows);
    } else {
      RunAdvance(loop, rows, added.value);
    }
  }

  /** `for option_idx, option_data in enumerate(options_data)`: the follow-ups of a choice question. */
  method BuildOptionRows(qid: nat, options: seq<Json>, sid: nat)
    returns (r: Result<seq<SubQuestion>, BuildError>)
    ensures r == OptionRows(qid, options, sid)
  {
    var rows: seq<SubQuestion> := [];
    var i := 0;
    assert options[0..] == options;
    ThenEmpty(OptionRows(qid, options, sid));
    while i < |options|
      invariant 0 <= i <= |options|
      invariant Then(rows, OptionRows(qid, options[i..], sid + |rows|)) == OptionRows(qid, options, sid)
    {
      var added := BuildOptionItem(qid, options[i], sid + |rows|);
      OptionRowsTurn(qid, options, i, sid, rows, added);
      if added.Err? {
        return Err(added.error);
      }
      rows := rows + added.value;
      i := i + 1;
    }
    RunDone(OptionsLoop(qid, options[i..], sid + |rows|), rows);
    return Ok(rows);
  }

  /**
   * The body of the question loop once the descriptor's header is read: the Question row and,
   * for a choice question, its follow-ups.
   */
  method BuildTurn(formId: nat, head: Result<Header, BuildError>, idx: nat, qid: nat, sid: nat)
    returns (r: Result<(Question, seq<SubQuestion>), BuildError>)
    ensures r == Turn(formId, head, idx, qid, sid)
  {
    if head.Err? {
      return Err(head.error);
    }
    var h := head.value;
    if h.options.None? {
      return Ok((Question(qid, formId, h.text, h.qtype, None, h.required, idx), []));
    }
    var (data, options) := h.options.value;
    var subqs := BuildOptionRows(qid, options, sid);
    if subqs.Err? {
      return Err(subqs.error);
    }
    return Ok((Question(qid, formId, h.text, h.qtype, Some(Dumps(data)), h.required, idx), subqs.value));
  }

  /** The question loop over descriptors whose headers are `heads`: every turn, or the first exception. */
  method BuildQuestions(formId: nat, heads: seq<Result<Header, BuildError>>, qid: nat, sid: nat)
    returns (r: Result<Rows, BuildError>)
    ensures r == Added(formId, heads, |heads|, qid, sid)
  {
    var done := Rows([], []);
    for i := 0 to |heads|
      invariant Added(formId, heads, i, qid, sid) == Ok(done)
    {
      var built := BuildTurn(formId, heads[i], i, qid + i, sid + |done.subquestions|);
      AddedStep(formId, heads, i, qid, sid, done, built);
      if built.Err? {
        AddedStaysFailed(formId, heads, i + 1, qid, sid);
        return Err(built.error);
      }
      done := Rows(done.questions + [built.value.0], done.subquestions + built.value.1);
    }
    return Ok(done);
  }

  /**
   * `for idx, q_data in enumerate(data['questions'])`: the rows of a rebuild, questions numbered
   * from `qid` and follow-ups from `sid`, or the first exception raised. The headers are read
   * ahead of the loop; reading one has no effect, so the turns see the same values.
   */
  method BuildAllRows(formId: nat, items: seq<Json>, qid: nat, sid: nat, decode: string -> Option<Json>)
    returns (r: Result<Rows, BuildError>)
    ensures r == AllRows(formId, items, qid, sid, decode)
  {
    var heads := Headers(items, decode);
    r := BuildQuestions(formId, heads, qid, sid);
  }
}
