/**
 * `parse_mindmap_to_form` and the question mapping of `upload_mindmap`: an indentation-driven
 * reader of mindmap text. A line indented by 0 spaces is the form title, by 2 a section, by 4 a
 * field "label | type", by 6 an option of the current field; blank lines and other indents are
 * ignored. The fields of all sections then become Question rows numbered in reading order.
 */
module Mindmap {
  import opened Wrappers
  import opened Strings
  import opened JsonValues
  import opened JsonText
  import opened Schema

  /** A field: its label, its type and its options. */
  datatype Field = Field(caption: string, ftype: string, options: seq<string>)

  datatype Section = Section(name: string, fields: seq<Field>)

  /** The dictionary `form_data`. */
  datatype FormData = FormData(title: string, sections: seq<Section>)

  /**
   * The parser between two lines: the form so far and where `current_field` sits, as a section
   * index and a field index. `current_section` is always the last section, so it is not kept.
   */
  datatype State = State(form: FormData, current: Option<(nat, nat)>)

  /** A field line before any section line: `current_section["fields"]` on None raises TypeError. */
  datatype ParseError = FieldOutsideSection

  const Initial: State := State(FormData("", []), None)

  /** The number of leading whitespace characters: `len(line) - len(line.lstrip())`. */
  function Indent(line: string): nat {
    |line| - |LStrip(line)|
  }

  /** `not line.strip()`. */
  predicate Blank(line: string) {
    Strip(line) == []
  }

  /** The field types the parser accepts after "|". */
  predicate KnownType(t: string) {
    t == "text" || t == "dropdown" || t == "checkbox" || t == "radio" || t == "email"
  }

  /** The field types that take options. */
  predicate TakesOptions(t: string) {
    t == "dropdown" || t == "checkbox" || t == "radio"
  }

  /** The name of a section line: the text after the first ":", or the whole line without one. */
  function SectionName(line: string): string {
    var name := Strip(line);
    if Contains(name, ":") then Strip(SplitOnce(name, ":")[1]) else name
  }

  /** The type written after the first "|" of a field line, lower-cased, or None. */
  function TypeSpec(line: string): Option<string> {
    var parts := Split(Strip(line), "|");
    if |parts| > 1 then Some(Lower(Strip(parts[1]))) else None
  }

  /** The field a field line declares, with no options yet. */
  function FieldOf(line: string): (f: Field)
    ensures KnownType(f.ftype) && f.options == []
    ensures TypeSpec(line).Some? && KnownType(TypeSpec(line).value) ==> f.ftype == TypeSpec(line).value
    ensures TypeSpec(line).None? || !KnownType(TypeSpec(line).value) ==> f.ftype == "text"
  {
    var parts := Split(Strip(line), "|");
    var spec := TypeSpec(line);
    Field(Strip(parts[0]), if spec.Some? && KnownType(spec.value) then spec.value else "text", [])
  }

  /** `current_field` points at a field of the form. */
  predicate CurrentValid(st: State) {
    st.current.Some? ==>
      st.current.value.0 < |st.form.sections| &&
      st.current.value.1 < |st.form.sections[st.current.value.0].fields|
  }

  /** The sections with `option` appended to field `fi` of section `si`. */
  function AddOption(sections: seq<Section>, si: nat, fi: nat, option: string): (r: seq<Section>)
    requires si < |sections| && fi < |sections[si].fields|
    ensures |r| == |sections|
    ensures forall k :: 0 <= k < |r| ==> r[k].name == sections[k].name && |r[k].fields| == |sections[k].fields|
    ensures r[si].fields[fi] == sections[si].fields[fi].(options := sections[si].fields[fi].options + [option])
    ensures forall k, j :: 0 <= k < |r| && 0 <= j < |r[k].fields| && (k, j) != (si, fi) ==>
      r[k].fields[j] == sections[k].fields[j]
  {
    var f := sections[si].fields[fi];
    sections[si := sections[si].(fields := sections[si].fields[fi := f.(options := f.options + [option])])]
  }

  /** What a line is, by its indentation: the branches of the parser's `if`/`elif` chain. */
  datatype LineKind =
    | Skipped                 // blank, or indented by some other amount
    | TitleLine(title: string)
    | SectionLine(name: string)
    | FieldLine(field: Field)
    | OptionLine(option: string)

  function Classify(line: string): (k: LineKind)
    ensures k.OptionLine? ==> k.option != []
  {
    if Blank(line) then Skipped
    else if Indent(line) == 0 then TitleLine(Strip(line))
    else if Indent(line) == 2 then SectionLine(SectionName(line))
    else if Indent(line) == 4 then FieldLine(FieldOf(line))
    else if Indent(line) == 6 then OptionLine(Strip(line))
    else Skipped
  }

  /** The classification of each line, in order. */
  function Kinds(lines: seq<string>): (r: seq<LineKind>)
    ensures |r| == |lines|
  {
    seq(|lines|, k requires 0 <= k < |lines| => Classify(lines[k]))
  }

  /** What reading one line of kind `kind` does to the parser. */
  function Step(st: State, kind: LineKind): (r: Result<State, ParseError>)
    requires CurrentValid(st)
    ensures r.Ok? ==> CurrentValid(r.value)
  {
    var sections := st.form.sections;
    match kind
    case Skipped => Ok(st)
    case TitleLine(title) => Ok(State(st.form.(title := title), st.current))
    case SectionLine(name) => Ok(State(st.form.(sections := sections + [Section(name, [])]), st.current))
    case FieldLine(field) =>
      if sections == [] then Err(FieldOutsideSection)
      else
        var last := |sections| - 1;
        var fields := sections[last].fields;
        Ok(State(st.form.(sections := sections[last := sections[last].(fields := fields + [field])]),
                 Some((last, |fields|))))
    case OptionLine(option) =>
      if st.current.None? then Ok(st)
      else
        var (si, fi) := st.current.value;
        if TakesOptions(sections[si].fields[fi].ftype)
        then Ok(State(st.form.(sections := AddOption(sections, si, fi, option)), st.current))
        else Ok(st)
  }

  /** The parser after reading lines of kinds `kinds` in order, or the exception that stopped it. */
  function Run(kinds: seq<LineKind>): (r: Result<State, ParseError>)
    ensures r.Ok? ==> CurrentValid(r.value)
    decreases |kinds|
  {
    if kinds == [] then Ok(Initial)
    else match Run(kinds[..|kinds| - 1])
      case Err(e) => Err(e)
      case Ok(st) => Step(st, kinds[|kinds| - 1])
  }

  /** The form lines of kinds `kinds` describe, or the exception that stopped the parser. */
  function Parse(kinds: seq<LineKind>): Result<FormData, ParseError> {
    match Run(kinds)
    case Err(e) => Err(e)
    case Ok(st) => Ok(st.form)
  }

  /** The form the lines describe, or the exception that stopped the parser. */
  function ParseLines(lines: seq<string>): Result<FormData, ParseError> {
    Parse(Kinds(lines))
  }

  /**
   * `parse_mindmap_to_form(text)`: the text is read line by line. Classifying a line is pure, so
   * classifying all lines first and then reading them equals classifying each as it is read.
   */
  method ParseMindmapToForm(text: string) returns (r: Result<FormData, ParseError>)
    ensures r == ParseLines(Split(text, "\n"))
  {
    r := ReadLines(Kinds(Split(text, "\n")));
  }

  /** The parser as the source runs it: one pass over the lines, updating the form in place. */
  method ReadLines(kinds: seq<LineKind>) returns (r: Result<FormData, ParseError>)
    ensures r == Parse(kinds)
  {
    var title := "";
    var sections: seq<Section> := [];
    var current: Option<(nat, nat)> := None;
    for i := 0 to |kinds|
      invariant Run(kinds[..i]) == Ok(State(FormData(title, sections), current))
    {
      assert kinds[..i + 1][..i] == kinds[..i];
      var failed;
      failed, title, sections, current := ReadLine(title, sections, current, kinds[i]);
      if failed {
        RunStaysFailed(kinds, i + 1);
        return Err(FieldOutsideSection);
      }
    }
    assert kinds[..|kinds|] == kinds;
    return Ok(FormData(title, sections));
  }

  /** The body of the parser's loop: one line read into the title, the sections and `current_field`. */
  method ReadLine(title: string, sections: seq<Section>, current: Option<(nat, nat)>, kind: LineKind)
    returns (failed: bool, title': string, sections': seq<Section>, current': Option<(nat, nat)>)
    requires CurrentValid(State(FormData(title, sections), current))
    ensures var next := Step(State(FormData(title, sections), current), kind);
      if failed then next.Err? else next == Ok(State(FormData(title', sections'), current'))
  {
    failed, title', sections', current' := false, title, sections, current;
    match kind
    case Skipped =>
    case TitleLine(t) =>
      title' := t;
    case SectionLine(name) =>
      sections' := sections + [Section(name, [])];
    case FieldLine(field) =>
      if sections == [] {
        failed := true;
        return;
      }
      var last := |sections| - 1;
      current' := Some((last, |sections[last].fields|));
      sections' := sections[last := sections[last].(fields := sections[last].fields + [field])];
    case OptionLine(option) =>
      if current.Some? {
        var (si, fi) := current.value;
        if TakesOptions(sections[si].fields[fi].ftype) {
          sections' := AddOption(sections, si, fi, option);
        }
      }
  }

  /** An exception ends the parse: once a prefix fails, the whole run fails with that error. */
  lemma {:induction false} RunStaysFailed(kinds: seq<LineKind>, n: nat)
    requires n <= |kinds| && Run(kinds[..n]).Err?
    ensures Run(kinds) == Run(kinds[..n])
    decreases |kinds| - n
  {
    if n < |kinds| {
      var longer := kinds[..n + 1];
      assert longer[..n] == kinds[..n];
      RunStaysFailed(kinds, n + 1);
    } else {
      assert kinds[..n] == kinds;
    }
  }

  // ----- what the parser reads from the lines -----

  /** Blank lines, and lines at an indent the parser does not know, classify as skipped. */
  lemma BlankLinesSkipped(line: string)
    requires Blank(line) || Indent(line) !in {0, 2, 4, 6}
    ensures Classify(line) == Skipped
  {
  }

  /** The kinds other than skipped lines, in order. */
  function Significant(kinds: seq<LineKind>): (r: seq<LineKind>)
    ensures Skipped !in r
    decreases |kinds|
  {
    if kinds == [] then []
    else Significant(kinds[..|kinds| - 1]) + (if kinds[|kinds| - 1].Skipped? then [] else [kinds[|kinds| - 1]])
  }

  /** Skipped lines do nothing: dropping them does not change what the parser produces. */
  lemma {:induction false} RunIgnoresSkipped(kinds: seq<LineKind>)
    ensures Run(Significant(kinds)) == Run(kinds)
    decreases |kinds|
  {
    if kinds != [] {
      var init, last := kinds[..|kinds| - 1], kinds[|kinds| - 1];
      RunIgnoresSkipped(init);
      if last.Skipped? {
        assert Significant(kinds) == Significant(init);
        assert Run(kinds) == Run(init) by {
          if Run(init).Ok? {
            assert Step(Run(init).value, last) == Run(init);
          }
        }
      } else {
        var sig := Significant(kinds);
        assert sig[..|sig| - 1] == Significant(init) && sig[|sig| - 1] == last;
      }
    }
  }

  /** The title: that of the last title line, or "" when there is none. */
  function LastTitle(kinds: seq<LineKind>): string
    decreases |kinds|
  {
    if kinds == [] then ""
    else if kinds[|kinds| - 1].TitleLine? then kinds[|kinds| - 1].title
    else LastTitle(kinds[..|kinds| - 1])
  }

  /** The names of the section lines, in order. */
  function SectionNames(kinds: seq<LineKind>): seq<string>
    decreases |kinds|
  {
    if kinds == [] then []
    else SectionNames(kinds[..|kinds| - 1])
         + (if kinds[|kinds| - 1].SectionLine? then [kinds[|kinds| - 1].name] else [])
  }

  /** The fields the field lines declare, in order. */
  function DeclaredFields(kinds: seq<LineKind>): seq<Field>
    decreases |kinds|
  {
    if kinds == [] then []
    else DeclaredFields(kinds[..|kinds| - 1])
         + (if kinds[|kinds| - 1].FieldLine? then [kinds[|kinds| - 1].field] else [])
  }

  function Names(sections: seq<Section>): (r: seq<string>)
    ensures |r| == |sections|
  {
    seq(|sections|, k requires 0 <= k < |sections| => sections[k].name)
  }

  /** The fields of all sections, section by section. */
  function AllFields(sections: seq<Section>): seq<Field>
    decreases |sections|
  {
    if sections == [] then [] else AllFields(sections[..|sections| - 1]) + sections[|sections| - 1].fields
  }

  /** Fields without their options. */
  function Bare(fields: seq<Field>): (r: seq<Field>)
    ensures |r| == |fields|
  {
    seq(|fields|, k requires 0 <= k < |fields| => fields[k].(options := []))
  }

  /** Every field has a known type, only fields that take options have any, and no option is empty. */
  predicate WellTyped(sections: seq<Section>) {
    forall k, j :: 0 <= k < |sections| && 0 <= j < |sections[k].fields| ==>
      KnownType(sections[k].fields[j].ftype) &&
      (sections[k].fields[j].options != [] ==> TakesOptions(sections[k].fields[j].ftype)) &&
      forall o :: o in sections[k].fields[j].options ==> o != []
  }

  /** What the classified lines declare: fields of known types and without options yet. */
  predicate Declared(kinds: seq<LineKind>) {
    forall k :: 0 <= k < |kinds| && kinds[k].FieldLine? ==>
      KnownType(kinds[k].field.ftype) && kinds[k].field.options == []
  }

  lemma ClassifiedDeclared(lines: seq<string>)
    ensures Declared(Kinds(lines))
  {
  }

  lemma BareAppend(a: seq<Field>, b: seq<Field>)
    ensures Bare(a + b) == Bare(a) + Bare(b)
  {
  }

  /** Sections with the same fields up to options have the same fields, section by section, up to options. */
  lemma {:induction false} AllFieldsBare(s1: seq<Section>, s2: seq<Section>)
    requires |s1| == |s2|
    requires forall k :: 0 <= k < |s1| ==> Bare(s1[k].fields) == Bare(s2[k].fields)
    ensures Bare(AllFields(s1)) == Bare(AllFields(s2))
    decreases |s1|
  {
    if s1 != [] {
      AllFieldsBare(s1[..|s1| - 1], s2[..|s2| - 1]);
      BareAppend(AllFields(s1[..|s1| - 1]), s1[|s1| - 1].fields);
      BareAppend(AllFields(s2[..|s2| - 1]), s2[|s2| - 1].fields);
    }
  }

  /** Adding an option changes no field other than by its options. */
  lemma AddOptionBare(sections: seq<Section>, si: nat, fi: nat, option: string)
    requires si < |sections| && fi < |sections[si].fields|
    ensures Bare(AllFields(AddOption(sections, si, fi, option))) == Bare(AllFields(sections))
  {
    var r := AddOption(sections, si, fi, option);
    forall k | 0 <= k < |r| ensures Bare(r[k].fields) == Bare(sections[k].fields) {
      if k == si {
        assert forall j :: 0 <= j < |r[k].fields| ==> r[k].fields[j].(options := []) == sections[k].fields[j].(options := []);
      }
    }
    AllFieldsBare(r, sections);
  }

  /** Appending to the fields of the last section appends to the fields of the form. */
  lemma AllFieldsLast(sections: seq<Section>, s: Section)
    requires sections != []
    ensures AllFields(sections[|sections| - 1 := s]) == AllFields(sections[..|sections| - 1]) + s.fields
  {
    var u := sections[|sections| - 1 := s];
    assert u[..|u| - 1] == sections[..|sections| - 1];
  }

  /** A field line appends its field to the fields of the form, up to options. */
  lemma StepFieldShape(st: State, field: Field)
    requires CurrentValid(st) && st.form.sections != [] && WellTyped(st.form.sections)
    requires KnownType(field.ftype) && field.options == []
    ensures var next := Step(st, FieldLine(field)).value;
      Names(next.form.sections) == Names(st.form.sections) &&
      Bare(AllFields(next.form.sections)) == Bare(AllFields(st.form.sections)) + [field] &&
      WellTyped(next.form.sections)
  {
    var sections := st.form.sections;
    var last := |sections| - 1;
    var s := sections[last].(fields := sections[last].fields + [field]);
    AllFieldsLast(sections, s);
    AllFieldsLast(sections, sections[last]);
    assert sections[last := sections[last]] == sections;
    BareAppend(AllFields(sections[..last]), s.fields);
    BareAppend(AllFields(sections[..last]), sections[last].fields);
    BareAppend(sections[last].fields, [field]);
    assert Bare([field]) == [field];
  }

  /** An option line changes the fields of the form only in their options. */
  lemma StepOptionShape(st: State, option: string)
    requires CurrentValid(st) && WellTyped(st.form.sections) && option != []
    ensures var next := Step(st, OptionLine(option)).value;
      Names(next.form.sections) == Names(st.form.sections) &&
      Bare(AllFields(next.form.sections)) == Bare(AllFields(st.form.sections)) &&
      WellTyped(next.form.sections)
  {
    var sections := st.form.sections;
    if st.current.Some? {
      var (si, fi) := st.current.value;
      if TakesOptions(sections[si].fields[fi].ftype) {
        AddOptionBare(sections, si, fi, option);
      }
    }
  }

  /** Skipped and title lines leave the sections as they are. */
  lemma StepKeepsSections(st: State, kind: LineKind)
    requires CurrentValid(st) && (kind.Skipped? || kind.TitleLine?)
    ensures Step(st, kind).Ok? && Step(st, kind).value.form.sections == st.form.sections
  {
  }

  /** A section line appends a section without fields. */
  lemma StepSectionShape(st: State, name: string)
    requires CurrentValid(st) && WellTyped(st.form.sections)
    ensures var next := Step(st, SectionLine(name)).value;
      Names(next.form.sections) == Names(st.form.sections) + [name] &&
      Bare(AllFields(next.form.sections)) == Bare(AllFields(st.form.sections)) &&
      WellTyped(next.form.sections)
  {
    var sections := st.form.sections;
    var s := Section(name, []);
    assert (sections + [s])[..|sections|] == sections;
    assert AllFields(sections + [s]) == AllFields(sections) + [];
  }

  /** Reading one more line, on the parser's summary of the lines so far. */
  lemma StepShape(st: State, kind: LineKind)
    requires CurrentValid(st) && Step(st, kind).Ok? && WellTyped(st.form.sections)
    requires kind.FieldLine? ==> KnownType(kind.field.ftype) && kind.field.options == []
    requires kind.OptionLine? ==> kind.option != []
    ensures Step(st, kind).value.form.title == (if kind.TitleLine? then kind.title else st.form.title)
    ensures Names(Step(st, kind).value.form.sections)
            == Names(st.form.sections) + (if kind.SectionLine? then [kind.name] else [])
    ensures Bare(AllFields(Step(st, kind).value.form.sections))
            == Bare(AllFields(st.form.sections)) + (if kind.FieldLine? then [kind.field] else [])
    ensures WellTyped(Step(st, kind).value.form.sections)
  {
    var sections := st.form.sections;
    assert Names(sections) + [] == Names(sections);
    assert Bare(AllFields(sections)) + [] == Bare(AllFields(sections));
    match kind
    case Skipped => StepKeepsSections(st, kind);
    case TitleLine(_) => StepKeepsSections(st, kind);
    case SectionLine(name) => StepSectionShape(st, name);
    case FieldLine(field) => StepFieldShape(st, field);
    case OptionLine(option) => StepOptionShape(st, option);
  }

  // ----- which options each field collects -----

  /** The option lines at the front of `kinds`, up to the first field line. */
  function LeadingOptions(kinds: seq<LineKind>): seq<string> {
    if kinds == [] || kinds[0].FieldLine? then []
    else (if kinds[0].OptionLine? then [kinds[0].option] else []) + LeadingOptions(kinds[1..])
  }

  /** Field `f` with the options `options` when its type takes options, and with none otherwise. */
  function WithOptions(f: Field, options: seq<string>): Field {
    f.(options := if TakesOptions(f.ftype) then options else [])
  }

  /**
   * The fields the field lines declare, in order, each with the option lines that follow it up
   * to the next field line when its type takes options: section lines in between do not end a
   * field's options, since `current_field` outlives them.
   */
  function Collected(kinds: seq<LineKind>): seq<Field> {
    if kinds == [] then []
    else (if kinds[0].FieldLine? then [WithOptions(kinds[0].field, LeadingOptions(kinds[1..]))] else [])
         + Collected(kinds[1..])
  }

  /** The option a line of kind `kind` gives the field before it, if any. */
  function OptionOf(kind: LineKind): seq<string> {
    if kind.OptionLine? then [kind.option] else []
  }

  /** Field `f` after a line of kind `kind` that follows it. */
  function Extend(f: Field, kind: LineKind): Field {
    if kind.OptionLine? && TakesOptions(f.ftype) then f.(options := f.options + [kind.option]) else f
  }

  /** The field a line of kind `kind` declares, if any. */
  function NewField(kind: LineKind): seq<Field> {
    if kind.FieldLine? then [WithOptions(kind.field, [])] else []
  }

  lemma {:induction false} LeadingOptionsAppend(a: seq<LineKind>, x: LineKind)
    ensures Collected(a) != [] ==> LeadingOptions(a + [x]) == LeadingOptions(a)
    ensures Collected(a) == [] && !x.FieldLine? ==> LeadingOptions(a + [x]) == LeadingOptions(a) + OptionOf(x)
    ensures Collected(a) == [] && x.FieldLine? ==> LeadingOptions(a + [x]) == LeadingOptions(a)
  {
    if a == [] {
      assert a + [x] == [x] && [x][1..] == [];
    } else {
      assert (a + [x])[0] == a[0] && (a + [x])[1..] == a[1..] + [x];
      if !a[0].FieldLine? {
        LeadingOptionsAppend(a[1..], x);
        assert Collected(a) == Collected(a[1..]);
        if Collected(a) == [] && !x.FieldLine? {
          AppendAssoc(OptionOf(a[0]), LeadingOptions(a[1..]), OptionOf(x));
        }
      }
    }
  }

  /** The fields collected after `c`: the last is extended by `x`, and `x`'s own field is added. */
  function AfterLine(c: seq<Field>, x: LineKind): seq<Field> {
    if c == [] then NewField(x) else c[..|c| - 1] + [Extend(c[|c| - 1], x)] + NewField(x)
  }

  /**
   * One more line extends the last field collected so far, when there is one, and adds the
   * field it declares, when it is a field line.
   */
  lemma {:induction false} CollectedAppend(a: seq<LineKind>, x: LineKind)
    ensures Collected(a + [x]) == AfterLine(Collected(a), x)
  {
    if a == [] {
      assert a + [x] == [x] && [x][1..] == [];
    } else {
      var ax := a + [x];
      assert ax[0] == a[0] && ax[1..] == a[1..] + [x];
      CollectedAppend(a[1..], x);
      if a[0].FieldLine? {
        LeadingOptionsAppend(a[1..], x);
        CollectedConsField(a[0].field, a[1..], x);
        assert ax == [a[0]] + (a[1..] + [x]);
        assert a == [a[0]] + a[1..];
      } else {
        assert Collected(a) == Collected(a[1..]);
      }
    }
  }

  /** `CollectedAppend` for lines that start with a field line, given it for the rest. */
  lemma CollectedConsField(f: Field, b: seq<LineKind>, x: LineKind)
    requires Collected(b + [x]) == AfterLine(Collected(b), x)
    requires Collected(b) != [] ==> LeadingOptions(b + [x]) == LeadingOptions(b)
    requires Collected(b) == [] && !x.FieldLine? ==> LeadingOptions(b + [x]) == LeadingOptions(b) + OptionOf(x)
    requires Collected(b) == [] && x.FieldLine? ==> LeadingOptions(b + [x]) == LeadingOptions(b)
    ensures Collected([FieldLine(f)] + (b + [x])) == AfterLine(Collected([FieldLine(f)] + b), x)
  {
    var a := [FieldLine(f)] + b;
    assert a[1..] == b && ([FieldLine(f)] + (b + [x]))[1..] == b + [x];
    var h := WithOptions(f, LeadingOptions(b));
    assert Collected(a) == [h] + Collected(b);
    assert Collected([FieldLine(f)] + (b + [x])) == [WithOptions(f, LeadingOptions(b + [x]))] + Collected(b + [x]);
    if Collected(b) == [] {
      FieldAloneThen(f, LeadingOptions(b), LeadingOptions(b + [x]), x);
    } else {
      FieldBeforeOthers(h, Collected(b), x);
    }
  }

  lemma FieldAloneThen(f: Field, os: seq<string>, os': seq<string>, x: LineKind)
    requires !x.FieldLine? ==> os' == os + OptionOf(x)
    requires x.FieldLine? ==> os' == os
    ensures [WithOptions(f, os')] + AfterLine([], x) == AfterLine([WithOptions(f, os)], x)
  {
    var c := [WithOptions(f, os)];
    assert c[..|c| - 1] == [] && c[|c| - 1] == WithOptions(f, os);
    assert Extend(WithOptions(f, os), x) == WithOptions(f, os');
  }

  lemma FieldBeforeOthers(h: Field, c': seq<Field>, x: LineKind)
    requires c' != []
    ensures [h] + AfterLine(c', x) == AfterLine([h] + c', x)
  {
    var c := [h] + c';
    assert c[..|c| - 1] == [h] + c'[..|c'| - 1];
    assert c[|c| - 1] == c'[|c'| - 1];
  }

  /**
   * `current_field` is the last field of the form: the last field of its section, with only
   * sections without fields after it; there is no current field exactly when the form has none.
   */
  predicate CurrentLast(st: State)
    requires CurrentValid(st)
  {
    var sections := st.form.sections;
    (st.current.None? <==> AllFields(sections) == []) &&
    (st.current.Some? ==>
      st.current.value.1 == |sections[st.current.value.0].fields| - 1 &&
      forall k :: st.current.value.0 < k < |sections| ==> sections[k].fields == [])
  }

  /** Sections without fields after section `si` add no fields. */
  lemma {:induction false} AllFieldsEmptyTail(sections: seq<Section>, si: nat)
    requires si < |sections|
    requires forall k :: si < k < |sections| ==> sections[k].fields == []
    ensures AllFields(sections) == AllFields(sections[..si]) + sections[si].fields
    decreases |sections|
  {
    var init := sections[..|sections| - 1];
    if si < |sections| - 1 {
      AllFieldsEmptyTail(init, si);
      assert init[..si] == sections[..si];
      assert AllFields(sections) == AllFields(init) + [];
    } else {
      assert init == sections[..si];
    }
  }

  /** Adding an option to the current field extends the last field of the form. */
  lemma AddOptionLast(st: State, option: string)
    requires CurrentValid(st) && CurrentLast(st) && st.current.Some?
    ensures var c := AllFields(st.form.sections);
      var (si, fi) := st.current.value;
      c != [] && c[|c| - 1] == st.form.sections[si].fields[fi] &&
      (TakesOptions(c[|c| - 1].ftype) ==>
        AllFields(AddOption(st.form.sections, si, fi, option)) == c[..|c| - 1] + [Extend(c[|c| - 1], OptionLine(option))])
  {
    var sections := st.form.sections;
    var (si, fi) := st.current.value;
    AllFieldsEmptyTail(sections, si);
    var c := AllFields(sections);
    var fs := sections[si].fields;
    assert c == AllFields(sections[..si]) + fs;
    var r := AddOption(sections, si, fi, option);
    if TakesOptions(c[|c| - 1].ftype) {
      AllFieldsEmptyTail(r, si);
      assert r[..si] == sections[..si];
      assert r[si].fields == fs[..fi] + [Extend(fs[fi], OptionLine(option))];
      assert c[..|c| - 1] == AllFields(sections[..si]) + fs[..fi];
      AppendAssoc(AllFields(sections[..si]), fs[..fi], [Extend(fs[fi], OptionLine(option))]);
    }
  }

  /** One more line, on the flat list of fields: the step `CollectedAppend` describes. */
  lemma StepCollects(st: State, kind: LineKind)
    requires CurrentValid(st) && CurrentLast(st) && Step(st, kind).Ok?
    requires kind.FieldLine? ==> kind.field.options == []
    ensures CurrentLast(Step(st, kind).value)
    ensures AllFields(Step(st, kind).value.form.sections) == AfterLine(AllFields(st.form.sections), kind)
  {
    var c := AllFields(st.form.sections);
    assert c != [] ==> c[..|c| - 1] + [c[|c| - 1]] == c;
    match kind
    case Skipped =>
    case TitleLine(_) =>
    case SectionLine(name) => StepSectionCollects(st, name);
    case FieldLine(field) => StepFieldCollects(st, field);
    case OptionLine(option) =>
      if st.current.Some? {
        StepOptionCollects(st, option);
      }
  }

  lemma StepSectionCollects(st: State, name: string)
    requires CurrentValid(st) && CurrentLast(st)
    ensures CurrentLast(Step(st, SectionLine(name)).value)
    ensures AllFields(Step(st, SectionLine(name)).value.form.sections) == AllFields(st.form.sections)
  {
    var sections := st.form.sections;
    var s := Section(name, []);
    assert (sections + [s])[..|sections|] == sections;
    assert AllFields(sections + [s]) == AllFields(sections) + [];
  }

  lemma StepFieldCollects(st: State, field: Field)
    requires CurrentValid(st) && CurrentLast(st) && Step(st, FieldLine(field)).Ok? && field.options == []
    ensures CurrentLast(Step(st, FieldLine(field)).value)
    ensures AllFields(Step(st, FieldLine(field)).value.form.sections) == AllFields(st.form.sections) + [field]
  {
    var sections := st.form.sections;
    var last := |sections| - 1;
    var s := sections[last].(fields := sections[last].fields + [field]);
    AllFieldsLast(sections, s);
    AllFieldsLast(sections, sections[last]);
    assert sections[last := sections[last]] == sections;
    AppendAssoc(AllFields(sections[..last]), sections[last].fields, [field]);
  }

  lemma StepOptionCollects(st: State, option: string)
    requires CurrentValid(st) && CurrentLast(st) && st.current.Some?
    ensures CurrentLast(Step(st, OptionLine(option)).value)
    ensures var c := AllFields(st.form.sections);
      c != [] && AllFields(Step(st, OptionLine(option)).value.form.sections) == c[..|c| - 1] + [Extend(c[|c| - 1], OptionLine(option))]
  {
    AddOptionLast(st, option);
    var sections := st.form.sections;
    var c := AllFields(sections);
    assert c[..|c| - 1] + [c[|c| - 1]] == c;
    var (si, fi) := st.current.value;
    var r := AddOption(sections, si, fi, option);
    if TakesOptions(sections[si].fields[fi].ftype) {
      assert forall k :: si < k < |r| ==> r[k].fields == sections[k].fields;
    }
  }

  /**
   * The fields of a successful run are exactly the collected fields: each field line's field
   * holds the option lines after it, up to the next field line, when its type takes options.
   */
  lemma {:induction false} RunCollects(kinds: seq<LineKind>)
    requires Run(kinds).Ok? && Declared(kinds)
    ensures CurrentLast(Run(kinds).value)
    ensures AllFields(Run(kinds).value.form.sections) == Collected(kinds)
    decreases |kinds|
  {
    if kinds != [] {
      var init, last := kinds[..|kinds| - 1], kinds[|kinds| - 1];
      assert forall k :: 0 <= k < |init| ==> init[k] == kinds[k];
      assert init + [last] == kinds;
      RunCollects(init);
      StepCollects(Run(init).value, last);
      CollectedAppend(init, last);
    }
  }

  /**
   * What a successful run produces: the title is that of the last title line; the sections are
   * the section lines, in order; the fields, section by section, are the field lines in order,
   * each holding the option lines after it up to the next field line when its type is dropdown,
   * checkbox or radio, and no options otherwise.
   */
  lemma {:induction false} RunShape(kinds: seq<LineKind>)
    requires Run(kinds).Ok? && Declared(kinds)
    requires forall k :: 0 <= k < |kinds| && kinds[k].OptionLine? ==> kinds[k].option != []
    ensures var form := Run(kinds).value.form;
      form.title == LastTitle(kinds) &&
      Names(form.sections) == SectionNames(kinds) &&
      Bare(AllFields(form.sections)) == DeclaredFields(kinds) &&
      AllFields(form.sections) == Collected(kinds) &&
      WellTyped(form.sections)
    decreases |kinds|
  {
    RunCollects(kinds);
    if kinds != [] {
      var init, last := kinds[..|kinds| - 1], kinds[|kinds| - 1];
      assert forall k :: 0 <= k < |init| ==> init[k] == kinds[k];
      RunShape(init);
      StepShape(Run(init).value, last);
    }
  }

  /**
   * What a successful parse produces, line by line: the title is the last title line, stripped;
   * the sections are the section lines in order, named by the text after their first ":"; the
   * fields are the field lines in order, with their declared or default type; and a field of
   * type dropdown, checkbox or radio holds the stripped option lines that follow it up to the
   * next field line, while any other field holds none.
   */
  lemma ParseShape(lines: seq<string>)
    requires Run(Kinds(lines)).Ok?
    ensures var form := Run(Kinds(lines)).value.form;
      form.title == LastTitle(Kinds(lines)) &&
      Names(form.sections) == SectionNames(Kinds(lines)) &&
      Bare(AllFields(form.sections)) == DeclaredFields(Kinds(lines)) &&
      AllFields(form.sections) == Collected(Kinds(lines)) &&
      WellTyped(form.sections)
  {
    ClassifiedDeclared(lines);
    RunShape(Kinds(lines));
  }

  /** Some field line comes before every section line. */
  predicate FieldBeforeSection(kinds: seq<LineKind>) {
    exists k :: 0 <= k < |kinds| && kinds[k].FieldLine? && forall j :: 0 <= j < k ==> !kinds[j].SectionLine?
  }

  lemma {:induction false} NoSectionLines(kinds: seq<LineKind>)
    requires SectionNames(kinds) == []
    ensures forall j :: 0 <= j < |kinds| ==> !kinds[j].SectionLine?
    decreases |kinds|
  {
    if kinds != [] {
      NoSectionLines(kinds[..|kinds| - 1]);
      assert forall j :: 0 <= j < |kinds| - 1 ==> kinds[j] == kinds[..|kinds| - 1][j];
    }
  }

  lemma {:induction false} SomeSectionLine(kinds: seq<LineKind>, j: nat)
    requires j < |kinds| && kinds[j].SectionLine?
    ensures SectionNames(kinds) != []
    decreases |kinds|
  {
    if j < |kinds| - 1 {
      assert kinds[..|kinds| - 1][j] == kinds[j];
      SomeSectionLine(kinds[..|kinds| - 1], j);
    }
  }

  /** The sections of a run: one per section line so far. */
  lemma {:induction false} RunSections(kinds: seq<LineKind>)
    requires Run(kinds).Ok?
    ensures |Run(kinds).value.form.sections| == |SectionNames(kinds)|
    decreases |kinds|
  {
    if kinds != [] {
      RunSections(kinds[..|kinds| - 1]);
      var st := Run(kinds[..|kinds| - 1]).value;
      if kinds[|kinds| - 1].OptionLine? && st.current.Some? {
        var (si, fi) := st.current.value;
        assert |AddOption(st.form.sections, si, fi, kinds[|kinds| - 1].option)| == |st.form.sections|;
      }
    }
  }

  /** The parse fails exactly when a field line comes before the first section line. */
  lemma RunFailsIffFieldBeforeSection(kinds: seq<LineKind>)
    ensures Run(kinds).Err? <==> FieldBeforeSection(kinds)
  {
    if Run(kinds).Err? {
      FailureHasFieldBeforeSection(kinds);
    }
    if FieldBeforeSection(kinds) {
      FieldBeforeSectionFails(kinds);
    }
  }

  lemma {:induction false} FailureHasFieldBeforeSection(kinds: seq<LineKind>)
    requires Run(kinds).Err?
    ensures FieldBeforeSection(kinds)
    decreases |kinds|
  {
    var init, last := kinds[..|kinds| - 1], kinds[|kinds| - 1];
    if Run(init).Err? {
      FailureHasFieldBeforeSection(init);
      var k :| 0 <= k < |init| && init[k].FieldLine? && forall j :: 0 <= j < k ==> !init[j].SectionLine?;
      assert kinds[k] == init[k];
      assert forall j :: 0 <= j < k ==> kinds[j] == init[j];
    } else {
      // only a field line with no section so far fails
      RunSections(init);
      NoSectionLines(init);
      assert forall j :: 0 <= j < |init| ==> kinds[j] == init[j];
      assert kinds[|init|].FieldLine?;
    }
  }

  lemma {:induction false} FieldBeforeSectionFails(kinds: seq<LineKind>)
    requires FieldBeforeSection(kinds)
    ensures Run(kinds).Err?
    decreases |kinds|
  {
    var init, last := kinds[..|kinds| - 1], kinds[|kinds| - 1];
    var k :| 0 <= k < |kinds| && kinds[k].FieldLine? && forall j :: 0 <= j < k ==> !kinds[j].SectionLine?;
    if k < |init| {
      assert init[k] == kinds[k];
      assert forall j :: 0 <= j < k ==> init[j] == kinds[j];
      FieldBeforeSectionFails(init);
    } else if Run(init).Ok? {
      // the field line is the last one, and no section line precedes it
      RunSections(init);
      if SectionNames(init) != [] {
        SectionNamesWitness(init);
      }
    }
  }

  /** A section name comes from some section line. */
  lemma {:induction false} SectionNamesWitness(kinds: seq<LineKind>)
    requires SectionNames(kinds) != []
    ensures exists j :: 0 <= j < |kinds| && kinds[j].SectionLine?
    decreases |kinds|
  {
    var init := kinds[..|kinds| - 1];
    if !kinds[|kinds| - 1].SectionLine? {
      SectionNamesWitness(init);
      var j :| 0 <= j < |init| && init[j].SectionLine?;
      assert kinds[j] == init[j];
    }
  }

  // ----- the questions `upload_mindmap` creates -----

  /** `type_mapping.get(field["type"], 'text')`. */
  function QuestionType(ftype: string): (t: string)
    ensures t != "dropdown"
    ensures KnownType(ftype) ==> (t == "multiple_choice" <==> ftype == "dropdown")
    ensures KnownType(ftype) && ftype != "dropdown" ==> t == ftype
    ensures !KnownType(ftype) ==> t == "text"
  {
    if ftype == "dropdown" then "multiple_choice"
    else if ftype == "email" || ftype == "checkbox" || ftype == "radio" then ftype
    else "text"
  }

  /** The option strings as a JSON list. */
  function OptionList(options: seq<string>): (j: Json)
    ensures j.JArr? && |j.items| == |options|
  {
    JArr(seq(|options|, k requires 0 <= k < |options| => JStr(options[k])))
  }

  /** The Question row made of the `order`-th field, with id `id`. */
  function FieldQuestion(formId: nat, field: Field, order: nat, id: nat): Question {
    var t := QuestionType(field.ftype);
    Question(id, formId, field.caption, t,
             if IsChoice(t) && field.options != [] then Some(Dumps(OptionList(field.options))) else None,
             true, order)
  }

  /**
   * The loops over sections and fields in `upload_mindmap`: one required Question per field, in
   * reading order, with `order` counting from 0 across sections and ids from `firstId`.
   */
  method MindmapQuestions(form: FormData, formId: nat, firstId: nat) returns (qs: seq<Question>)
    ensures |qs| == |AllFields(form.sections)|
    ensures forall k :: 0 <= k < |qs| ==> qs[k] == FieldQuestion(formId, AllFields(form.sections)[k], k, firstId + k)
  {
    qs := [];
    var order := 0;
    for s := 0 to |form.sections|
      invariant order == |qs| == |AllFields(form.sections[..s])|
      invariant forall k :: 0 <= k < |qs| ==> qs[k] == FieldQuestion(formId, AllFields(form.sections[..s])[k], k, firstId + k)
    {
      var section := form.sections[s];
      assert form.sections[..s + 1][..s] == form.sections[..s];
      ghost var done := AllFields(form.sections[..s]);
      assert AllFields(form.sections[..s + 1]) == done + section.fields;
      for f := 0 to |section.fields|
        invariant order == |qs| == |done| + f
        invariant forall k :: 0 <= k < |qs| ==> qs[k] == FieldQuestion(formId, (done + section.fields)[k], k, firstId + k)
      {
        qs := qs + [FieldQuestion(formId, section.fields[f], order, firstId + order)];
        order := order + 1;
      }
    }
    assert form.sections[..|form.sections|] == form.sections;
  }

  /**
   * The questions of a parsed mindmap: one per field line, in order, each required, labelled and
   * typed as its line says with "dropdown" stored as "multiple_choice"; a field of type
   * dropdown, checkbox or radio that collected options stores the JSON list of them, and every
   * other question stores no option list.
   */
  lemma MindmapQuestionsShape(lines: seq<string>, formId: nat, firstId: nat, qs: seq<Question>)
    requires Run(Kinds(lines)).Ok?
    requires var fs := AllFields(Run(Kinds(lines)).value.form.sections);
      |qs| == |fs| && forall k :: 0 <= k < |qs| ==> qs[k] == FieldQuestion(formId, fs[k], k, firstId + k)
    ensures var declared := DeclaredFields(Kinds(lines));
      var collected := Collected(Kinds(lines));
      |qs| == |declared| == |collected| &&
      forall k :: 0 <= k < |qs| ==>
        qs[k].order == k && qs[k].required && qs[k].text == declared[k].caption &&
        qs[k].qtype == QuestionType(declared[k].ftype) && qs[k].qtype != "dropdown" &&
        (qs[k].options.Some? <==> TakesOptions(declared[k].ftype) && collected[k].options != []) &&
        (qs[k].options.Some? ==> qs[k].options.value == Dumps(OptionList(collected[k].options)))
  {
    ParseShape(lines);
    var fs := AllFields(Run(Kinds(lines)).value.form.sections);
    var declared := DeclaredFields(Kinds(lines));
    forall k | 0 <= k < |qs|
      ensures qs[k].text == declared[k].caption && qs[k].qtype == QuestionType(declared[k].ftype)
      ensures fs[k].ftype == declared[k].ftype
    {
      assert Bare(fs)[k] == fs[k].(options := []);
    }
  }

  /**
   * An option line after a section line still belongs to the field before the section line:
   * `current_field` is not reset by a new section.
   */
  lemma OptionCarriesAcrossSection()
    ensures Collected([FieldLine(Field("Colour", "radio", [])), SectionLine("Next"), OptionLine("Red")])
            == [Field("Colour", "radio", ["Red"])]
  {
    var kinds := [FieldLine(Field("Colour", "radio", [])), SectionLine("Next"), OptionLine("Red")];
    var rest := kinds[1..];
    assert rest[1..] == [OptionLine("Red")] && rest[1..][1..] == [];
    assert LeadingOptions(rest[1..]) == ["Red"];
    assert LeadingOptions(rest) == [] + ["Red"] == ["Red"];
    assert Collected(rest) == [] by {
      assert Collected(rest[1..]) == [] + Collected([]);
    }
    assert TakesOptions("radio");
    assert WithOptions(Field("Colour", "radio", []), ["Red"]) == Field("Colour", "radio", ["Red"]);
    assert Collected(kinds) == [WithOptions(Field("Colour", "radio", []), LeadingOptions(rest))] + Collected(rest);
  }
}
