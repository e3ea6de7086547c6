/**
 * How the forms application reads a question's stored option list back: `get_options` on the
 * Question and SubQuestion rows, the `fromjson` template filter, and the conversion `view_form`
 * applies to radio and multiple-choice questions so that every option becomes an object
 * `{"text": ..., "subquestions": [...]}`.
 *
 * JSON decoding is a parameter `decode`: None stands for the exception `json.loads` raises.
 */
module OptionDecoding {
  import opened Wrappers
  import opened JsonValues
  import opened JsonText

  /** `set_options`: the text stored in the `options` column. */
  function SetOptions(options: Json): Option<string> {
    Some(Dumps(options))
  }

  /** `get_options`: the decoded column, or [] when the column is empty or does not decode. */
  function GetOptions(decode: string -> Option<Json>, column: Option<string>): (r: Json)
    ensures column.None? || column.value == [] ==> r == JArr([])
    ensures column.Some? && column.value != [] ==>
      r == (if decode(column.value).Some? then decode(column.value).value else JArr([]))
  {
    match column
    case None => JArr([])
    case Some(text) =>
      if text == [] then JArr([])
      else match decode(text)
        case None => JArr([])
        case Some(j) => j
  }

  /** Reading back what `set_options` stored gives the option list, whenever `json.loads` inverts `json.dumps` on it. */
  lemma GetSetOptions(decode: string -> Option<Json>, options: Json)
    requires decode(Dumps(options)) == Some(options)
    ensures GetOptions(decode, SetOptions(options)) == options
  {
    DumpsPrintable(options);
  }

  /** The `fromjson` template filter. */
  function FromJsonFilter(decode: string -> Option<Json>, s: string): (r: Json)
    ensures decode(s).None? ==> r == JArr([])
    ensures decode(s).Some? ==> r == decode(s).value
  {
    match decode(s)
    case None => JArr([])
    case Some(j) => j
  }

  /** Since the empty text is not JSON, the filter and `get_options` read a column the same way. */
  lemma FromJsonAgreesWithGetOptions(decode: string -> Option<Json>, s: string)
    requires decode([]) == None
    ensures FromJsonFilter(decode, s) == GetOptions(decode, Some(s))
  {
  }

  /** A plain option in the nested format: an object with the option text and no follow-ups. */
  function NestedOption(option: Json): Json {
    JObj([("text", option), ("subquestions", JArr([]))])
  }

  /** The option texts of a list in the nested format: each object's "text" field. */
  function OptionTexts(options: seq<Json>): (r: seq<Option<Json>>)
    ensures |r| == |options|
    ensures forall i :: 0 <= i < |options| ==> r[i] == (if options[i].JObj? then Lookup(options[i].fields, "text") else None)
  {
    seq(|options|, i requires 0 <= i < |options| => if options[i].JObj? then Lookup(options[i].fields, "text") else None)
  }

  /** The legacy conversion `[{"text": opt, "subquestions": []} for opt in options]`. */
  function ToNested(options: seq<Json>): (r: seq<Json>)
    ensures |r| == |options|
  {
    seq(|options|, i requires 0 <= i < |options| => NestedOption(options[i]))
  }

  /** The conversion keeps every option, in order: reading the texts back gives the original list. */
  lemma {:induction false} ToNestedTexts(options: seq<Json>)
    ensures OptionTexts(ToNested(options)) == seq(|options|, i requires 0 <= i < |options| => Some(options[i]))
  {
    forall i | 0 <= i < |options|
      ensures OptionTexts(ToNested(options))[i] == Some(options[i])
    {
      assert ToNested(options)[i] == NestedOption(options[i]);
    }
  }

  /** What `view_form` leaves in `question.nested_options`, or that the request fails. */
  datatype ViewOptions =
    | Unset                  // the question is not radio or multiple-choice
    | Options(value: Json)
    | KeyErrorRaised         // `nested_options[0]` on a non-empty object: an uncaught KeyError

  /**
   * The `view_form` fallback for a column the first attempt could not convert: `get_options`,
   * keeping truthy options only, or [] when the result cannot be iterated.
   */
  function LegacyFallback(decode: string -> Option<Json>, column: Option<string>): Json {
    match Elements(GetOptions(decode, column))
    case None => JArr([])
    case Some(items) => JArr(ToNested(Truthful(items)))
  }

  /** `[opt for opt in options if opt]`. */
  function Truthful(items: seq<Json>): (r: seq<Json>)
    ensures forall x :: x in r <==> x in items && Truthy(x)
  {
    if items == [] then []
    else (if Truthy(items[0]) then [items[0]] else []) + Truthful(items[1..])
  }

  /** The text decoded first: the column, or "[]" when the column is empty. */
  function FirstText(column: Option<string>): string {
    if column.Some? && column.value != [] then column.value else "[]"
  }

  /** The nested option list `view_form` computes for a question of type `qtype`. */
  function ViewNestedOptions(decode: string -> Option<Json>, qtype: string, column: Option<string>): ViewOptions {
    if qtype != "radio" && qtype != "multiple_choice" then Unset
    else match decode(FirstText(column))
      case None => Options(LegacyFallback(decode, column))
      case Some(j) =>
        if !Truthy(j) then Options(j)
        else match j
          case JArr(items) => if items[0].JStr? then Options(JArr(ToNested(items))) else Options(j)
          case JStr(s) => Options(JArr(ToNested(Characters(s))))
          case JObj(_) => KeyErrorRaised
          case _ => Options(LegacyFallback(decode, column))
  }

  /** A list of plain option strings becomes the nested format, one object per option, in order. */
  lemma LegacyListConverted(decode: string -> Option<Json>, qtype: string, column: Option<string>, items: seq<Json>)
    requires qtype == "radio" || qtype == "multiple_choice"
    requires decode(FirstText(column)) == Some(JArr(items))
    requires items != [] && items[0].JStr?
    ensures ViewNestedOptions(decode, qtype, column).Options?
    ensures ViewNestedOptions(decode, qtype, column).value.JArr?
    ensures OptionTexts(ViewNestedOptions(decode, qtype, column).value.items)
            == seq(|items|, i requires 0 <= i < |items| => Some(items[i]))
  {
    ToNestedTexts(items);
  }

  /** An option list already in the nested format (first entry not a string) is kept as decoded. */
  lemma NestedListKept(decode: string -> Option<Json>, qtype: string, column: Option<string>, items: seq<Json>)
    requires qtype == "radio" || qtype == "multiple_choice"
    requires decode(FirstText(column)) == Some(JArr(items))
    requires items == [] || !items[0].JStr?
    ensures ViewNestedOptions(decode, qtype, column) == Options(JArr(items))
  {
  }

  /**
   * The legacy fallback never produces an option: it is reached only when the first decoding
   * failed or gave a non-zero number or `true`, and then `get_options` yields [] or something that
   * cannot be iterated.
   */
  lemma {:induction false} FallbackIsEmpty(decode: string -> Option<Json>, qtype: string, column: Option<string>)
    requires qtype == "radio" || qtype == "multiple_choice"
    requires decode(FirstText(column)).None? ||
             ((decode(FirstText(column)).value.JNum? || decode(FirstText(column)).value.JBool?) &&
              Truthy(decode(FirstText(column)).value))
    ensures ViewNestedOptions(decode, qtype, column) == Options(JArr([]))
  {
    if column.Some? && column.value != [] {
      assert GetOptions(decode, column) == (if decode(column.value).Some? then decode(column.value).value else JArr([]));
      assert Elements(GetOptions(decode, column)).None? || GetOptions(decode, column) == JArr([]);
    } else {
      assert GetOptions(decode, column) == JArr([]);
    }
  }
}
