/**
 * The line classifier of `extract_questions_from_pdf`: the text of each page is split into
 * lines, and a walk over the lines turns marked lines into questions. A line with an option
 * marker "(a)".."(D)" starts a multiple-choice question, one with a box marker "[ ]", "[  ]" or
 * "□" a checkbox question, and in both cases the marked lines right after it are its options. A
 * line with an underscore is meant to be a text question, and a line ending in "?" is a text
 * question, or a multiple-choice one when option lines follow it. Also `allowed_file`.
 */
module PdfQuestions {
  import opened Wrappers
  import opened Strings

  // ----- clean_text -----

  /** `c.isalpha()`, for ASCII letters. */
  predicate IsAlpha(c: char) {
    'a' <= c <= 'z' || 'A' <= c <= 'Z'
  }

  /** The letters of `s`, in order. */
  function Letters(s: string): string
    decreases |s|
  {
    if s == [] then [] else (if IsAlpha(s[0]) then [s[0]] else []) + Letters(s[1..])
  }

  /** `''.join(c for c in text if c.isalpha() or c == ' ')`. */
  function KeepLettersAndSpaces(s: string): string
    decreases |s|
  {
    if s == [] then []
    else (if IsAlpha(s[0]) || s[0] == ' ' then [s[0]] else []) + KeepLettersAndSpaces(s[1..])
  }

  /** The filter keeps letters and spaces only, and every letter. */
  lemma {:induction false} KeepLettersAndSpacesSpec(s: string)
    ensures forall j :: 0 <= j < |KeepLettersAndSpaces(s)| ==>
      IsAlpha(KeepLettersAndSpaces(s)[j]) || KeepLettersAndSpaces(s)[j] == ' '
    ensures Letters(KeepLettersAndSpaces(s)) == Letters(s)
    decreases |s|
  {
    if s != [] {
      KeepLettersAndSpacesSpec(s[1..]);
      var head := if IsAlpha(s[0]) || s[0] == ' ' then [s[0]] else [];
      LettersAppend(head, KeepLettersAndSpaces(s[1..]));
    }
  }

  /** Letters, and spaces only one at a time between two letters. */
  predicate Clean(s: string) {
    (forall j :: 0 <= j < |s| ==> IsAlpha(s[j]) || s[j] == ' ') &&
    (s != [] ==> IsAlpha(s[0]) && IsAlpha(s[|s| - 1])) &&
    (forall j, k :: 0 <= j < |s| && 0 <= k < |s| && k == j + 1 && s[j] == ' ' ==> IsAlpha(s[k]))
  }

  /** `clean_text(text)`: keep letters and spaces, then rejoin the words with single spaces. */
  function CleanText(s: string): string {
    Join(Words(KeepLettersAndSpaces(s)), " ")
  }

  /** What `clean_text` returns is clean. */
  lemma CleanTextClean(s: string)
    ensures Clean(CleanText(s))
  {
    var kept := KeepLettersAndSpaces(s);
    KeepLettersAndSpacesSpec(s);
    WordsOfLetters(kept);
    JoinClean(Words(kept));
  }

  /** What `clean_text` returns holds exactly the letters of its input, in order. */
  lemma CleanTextKeepsLetters(s: string)
    ensures Letters(CleanText(s)) == Letters(s)
  {
    var kept := KeepLettersAndSpaces(s);
    KeepLettersAndSpacesSpec(s);
    JoinLetters(Words(kept));
    ConcatWordsLetters(kept);
  }

  lemma {:induction false} LettersAppend(a: string, b: string)
    ensures Letters(a + b) == Letters(a) + Letters(b)
    decreases |a|
  {
    if a != [] {
      var head := if IsAlpha(a[0]) then [a[0]] else [];
      assert (a + b)[0] == a[0] && (a + b)[1..] == a[1..] + b;
      assert Letters(a + b) == head + Letters(a[1..] + b);
      LettersAppend(a[1..], b);
      assert Letters(a) == head + Letters(a[1..]);
    } else {
      assert a + b == b;
    }
  }

  /** The words of a string of letters and spaces are made of letters. */
  lemma {:induction false} WordsOfLetters(s: string)
    requires forall j :: 0 <= j < |s| ==> IsAlpha(s[j]) || s[j] == ' '
    ensures forall w :: w in Words(s) ==> w != [] && forall j :: 0 <= j < |w| ==> IsAlpha(w[j])
    decreases |s|
  {
    if s != [] {
      if IsSpace(s[0]) {
        WordsOfLetters(s[1..]);
      } else {
        var k := WordLength(s);
        assert Words(s) == [s[..k]] + Words(s[k..]);
        WordLengthSpec(s);
        WordsOfLetters(s[k..]);
      }
    }
  }

  /** The words, one after the other. */
  function Concat(ws: seq<string>): string
    decreases |ws|
  {
    if ws == [] then [] else ws[0] + Concat(ws[1..])
  }

  /** Splitting into words drops only whitespace. */
  lemma {:induction false} ConcatWordsLetters(s: string)
    ensures Letters(Concat(Words(s))) == Letters(s)
    decreases |s|
  {
    if s != [] {
      if IsSpace(s[0]) {
        ConcatWordsLetters(s[1..]);
        assert Letters(s) == [] + Letters(s[1..]);
      } else {
        var k := WordLength(s);
        var w, rest := s[..k], s[k..];
        assert Words(s) == [w] + Words(rest);
        assert Concat(Words(s)) == w + Concat(Words(rest));
        assert s == w + rest;
        LettersAppend(w, rest);
        ConcatWordsLetters(rest);
        LettersAppend(w, Concat(Words(rest)));
      }
    }
  }

  /** Joining with spaces adds no letters. */
  lemma {:induction false} JoinLetters(ws: seq<string>)
    ensures Letters(Join(ws, " ")) == Letters(Concat(ws))
    decreases |ws|
  {
    if |ws| == 1 {
      assert Concat(ws) == ws[0] + Concat(ws[1..]) && ws[1..] == [];
      assert ws[0] + [] == ws[0];
    } else if |ws| > 1 {
      JoinLetters(ws[1..]);
      var rest := Join(ws[1..], " ");
      LettersAppend(ws[0] + " ", rest);
      LettersAppend(ws[0], " ");
      LettersAppend(ws[0], Concat(ws[1..]));
      assert Letters(" ") == [];
    }
  }

  /** Non-empty words of letters joined with single spaces make a clean string. */
  lemma {:induction false} JoinClean(ws: seq<string>)
    requires forall w :: w in ws ==> w != [] && forall j :: 0 <= j < |w| ==> IsAlpha(w[j])
    ensures Clean(Join(ws, " "))
    decreases |ws|
  {
    if |ws| > 1 {
      JoinClean(ws[1..]);
      var rest := Join(ws[1..], " ");
      JoinNotEmpty(ws[1..]);
      var s := ws[0] + " " + rest;
      assert forall j :: 0 <= j < |ws[0]| ==> s[j] == ws[0][j];
      assert s[|ws[0]|] == ' ';
      assert forall j :: |ws[0]| < j < |s| ==> s[j] == rest[j - |ws[0]| - 1];
    } else if |ws| == 1 {
      assert ws[0] in ws;
    }
  }

  lemma JoinNotEmpty(ws: seq<string>)
    requires ws != [] && ws[0] != []
    ensures Join(ws, " ") != []
  {
  }

  /** `clean_text` leaves no question mark. */
  lemma CleanTextHasNoQuestionMark(s: string)
    ensures !EndsWith(CleanText(s), "?")
  {
    CleanTextClean(s);
  }

  // ----- classifying lines -----

  /** The two kinds of option marker. */
  datatype Marker = Choice | Box

  function Markers(m: Marker): seq<string> {
    match m
    case Choice => ["(a)", "(b)", "(c)", "(d)", "(A)", "(B)", "(C)", "(D)"]
    case Box => ["[ ]", "[  ]", "□"]
  }

  /** `any(p in line for p in patterns)`. */
  predicate AnyOccurs(line: string, patterns: seq<string>)
    decreases |patterns|
  {
    patterns != [] && (Contains(line, patterns[0]) || AnyOccurs(line, patterns[1..]))
  }

  predicate HasMarker(m: Marker, line: string) {
    AnyOccurs(line, Markers(m))
  }

  /** The question type a marker announces. */
  function MarkedType(m: Marker): string {
    match m
    case Choice => "multiple_choice"
    case Box => "checkbox"
  }

  /** What a line says, by the branch of the classifier it takes once stripped, with its cleaned text. */
  datatype Reading =
    | Skip                                    // empty, or no branch applies
    | Marked(m: Marker, text: string)         // a line with an option marker
    | Underlined(text: string)                // a line with "_": the text before it
    | Asked(text: string, required: bool)     // a line ending in "?", required when it has "*"

  /** The branches of the classifier on `raw.strip()`, each with the text it keeps. */
  function Read(raw: string): Reading {
    var line := Strip(raw);
    if line == [] then Skip
    else if HasMarker(Choice, line) then Marked(Choice, CleanText(line))
    else if HasMarker(Box, line) then Marked(Box, CleanText(line))
    else if Contains(line, "_") then Underlined(CleanText(Strip(Split(line, "_")[0])))  // also covers "___"
    else if EndsWith(line, "?") then Asked(CleanText(Strip(Replace(line, "*", ""))), Contains(line, "*"))
    else Skip
  }

  /** An option line with its marker removed, as handed to `clean_text`. */
  function OptionSource(m: Marker, raw: string): string {
    var s := Strip(raw);
    match m
    case Choice => if Contains(s, ")") then Strip(SplitOnce(s, ")")[1]) else s
    case Box => Strip(Replace(Replace(Replace(s, "[ ]", ""), "[  ]", ""), "□", ""))
  }

  /**
   * One line as the walk sees it: the branch it takes when the walk stands on it, whether the
   * option loops of each marker would take it (they test the unstripped line), and the option
   * text each would record.
   */
  datatype Note = Note(reading: Reading, choice: bool, box: bool, choiceText: string, boxText: string)

  function Classify(raw: string): Note {
    Note(Read(raw), HasMarker(Choice, raw), HasMarker(Box, raw),
         CleanText(OptionSource(Choice, raw)), CleanText(OptionSource(Box, raw)))
  }

  /** The notes of all lines; being pure, classifying up front equals classifying on the way. */
  function Notes(lines: seq<string>): (r: seq<Note>)
    ensures |r| == |lines| && forall k :: 0 <= k < |lines| ==> r[k] == Classify(lines[k])
  {
    seq(|lines|, k requires 0 <= k < |lines| => Classify(lines[k]))
  }

  /** An option loop with marker `m` takes this line. */
  predicate Offers(n: Note, m: Marker) {
    match m
    case Choice => n.choice
    case Box => n.box
  }

  /** The option text an option loop with marker `m` records for this line. */
  function OfferText(n: Note, m: Marker): string {
    match m
    case Choice => n.choiceText
    case Box => n.boxText
  }

  /** Every text a note carries is clean. */
  predicate NoteClean(n: Note) {
    (n.reading.Marked? || n.reading.Underlined? || n.reading.Asked? ==> Clean(n.reading.text)) &&
    Clean(n.choiceText) && Clean(n.boxText)
  }

  /** The text a reading keeps is clean. */
  lemma ReadClean(raw: string)
    requires !Read(raw).Skip?
    ensures Clean(Read(raw).text)
  {
    var line := Strip(raw);
    if HasMarker(Choice, line) || HasMarker(Box, line) {
      CleanTextClean(line);
    } else if Contains(line, "_") {
      CleanTextClean(Strip(Split(line, "_")[0]));
    } else {
      CleanTextClean(Strip(Replace(line, "*", "")));
    }
  }

  lemma ClassifyClean(raw: string)
    ensures NoteClean(Classify(raw))
  {
    if !Read(raw).Skip? {
      ReadClean(raw);
    }
    CleanTextClean(OptionSource(Choice, raw));
    CleanTextClean(OptionSource(Box, raw));
  }

  predicate AllClean(ls: seq<Note>) {
    forall k :: 0 <= k < |ls| ==> NoteClean(ls[k])
  }

  lemma NotesClean(lines: seq<string>)
    ensures AllClean(Notes(lines))
  {
    forall k | 0 <= k < |lines|
      ensures NoteClean(Notes(lines)[k])
    {
      ClassifyClean(lines[k]);
    }
  }

  /** `clean_text` leaves no question mark, so an underlined line yields no question. */
  lemma UnderlinedLineAsksNothing(raw: string)
    requires Read(raw).Underlined?
    ensures !EndsWith(Read(raw).text, "?")
  {
    CleanTextHasNoQuestionMark(Strip(Split(Strip(raw), "_")[0]));
  }

  // ----- the walk -----

  /**
   * Where the option run after line `i` ends: the first index after `i` that is past the end or
   * not offered with `m`.
   */
  function RunEnd(ls: seq<Note>, m: Marker, i: nat): (r: nat)
    requires i < |ls|
    ensures i < r <= |ls|
    decreases |ls| - i
  {
    if i + 1 < |ls| && Offers(ls[i + 1], m) then RunEnd(ls, m, i + 1) else i + 1
  }

  /** The run after line `i` is the longest stretch of marked lines right after it. */
  lemma {:induction false} RunEndSpec(ls: seq<Note>, m: Marker, i: nat)
    requires i < |ls|
    ensures forall k :: i < k < RunEnd(ls, m, i) ==> Offers(ls[k], m)
    ensures RunEnd(ls, m, i) < |ls| ==> !Offers(ls[RunEnd(ls, m, i)], m)
    decreases |ls| - i
  {
    if i + 1 < |ls| && Offers(ls[i + 1], m) {
      RunEndSpec(ls, m, i + 1);
    }
  }

  /** The option texts of lines `from` to `to`, exclusive. */
  function OptionsOf(ls: seq<Note>, m: Marker, from: nat, to: nat): (r: seq<string>)
    requires from <= to <= |ls|
    ensures |r| == to - from
  {
    if from == to then [] else OptionsOf(ls, m, from, to - 1) + [OfferText(ls[to - 1], m)]
  }

  /** Every option text is clean. */
  lemma {:induction false} OptionsOfClean(ls: seq<Note>, m: Marker, from: nat, to: nat)
    requires from <= to <= |ls| && AllClean(ls)
    ensures forall k :: 0 <= k < to - from ==> Clean(OptionsOf(ls, m, from, to)[k])
  {
    if from < to {
      OptionsOfClean(ls, m, from, to - 1);
      assert NoteClean(ls[to - 1]);
    }
  }

  /** A question dictionary; `options` is None for text questions, which have no "options" key. */
  datatype Extracted = Extracted(text: string, qtype: string, options: Option<seq<string>>, required: bool)

  /** Option lines follow line `i`. */
  predicate OptionsFollow(ls: seq<Note>, i: nat) {
    i + 1 < |ls| && Offers(ls[i + 1], Choice)
  }

  /** Where the walk goes after line `i`: past the option run of a question with options, else to the next line. */
  function After(ls: seq<Note>, i: nat): (r: nat)
    requires i < |ls|
    ensures i < r <= |ls|
  {
    match ls[i].reading
    case Marked(m, _) => RunEnd(ls, m, i)
    case Asked(_, _) => if OptionsFollow(ls, i) then RunEnd(ls, Choice, i) else i + 1
    case _ => i + 1
  }

  /** The questions line `i` yields, with the options it takes from the lines after it. */
  function Yield(ls: seq<Note>, i: nat): seq<Extracted>
    requires i < |ls|
  {
    match ls[i].reading
    case Skip => []
    case Marked(m, text) =>
      [Extracted(text, MarkedType(m), Some(OptionsOf(ls, m, i + 1, RunEnd(ls, m, i))), true)]
    case Underlined(text) =>
      if EndsWith(text, "?") then [Extracted(text, "text", None, true)] else []
    case Asked(text, required) =>
      if OptionsFollow(ls, i)
      then [Extracted(text, "multiple_choice", Some(OptionsOf(ls, Choice, i + 1, RunEnd(ls, Choice, i))), required)]
      else [Extracted(text, "text", None, required)]
  }

  /** The questions found in the lines from `i` on, the walk the source's `while` loop performs. */
  function Scan(ls: seq<Note>, i: nat): seq<Extracted>
    requires i <= |ls|
    decreases |ls| - i
  {
    if i == |ls| then [] else Yield(ls, i) + Scan(ls, After(ls, i))
  }

  /** The inner `while` loop: consume the marked lines after line `i`, collecting their texts. */
  method CollectOptions(ls: seq<Note>, m: Marker, i: nat) returns (options: seq<string>, last: nat)
    requires i < |ls|
    ensures last + 1 == RunEnd(ls, m, i)
    ensures options == OptionsOf(ls, m, i + 1, last + 1)
  {
    options := [];
    last := i;
    while last + 1 < |ls| && Offers(ls[last + 1], m)
      invariant i <= last < |ls|
      invariant RunEnd(ls, m, last) == RunEnd(ls, m, i)
      invariant options == OptionsOf(ls, m, i + 1, last + 1)
      decreases |ls| - last
    {
      options := options + [OfferText(ls[last + 1], m)];
      last := last + 1;
    }
  }

  /** The questions of one page: its text split into lines, then walked. */
  function PageQuestions(text: string): seq<Extracted> {
    Scan(Notes(Split(text, "\n")), 0)
  }

  /** The walk over the lines of one page, as the source performs it. */
  method ScanPage(text: string) returns (questions: seq<Extracted>)
    ensures questions == PageQuestions(text)
  {
    questions := Walk(Notes(Split(text, "\n")));
  }

  /** The outer `while` loop over the classified lines of a page. */
  method Walk(ls: seq<Note>) returns (questions: seq<Extracted>)
    ensures questions == Scan(ls, 0)
  {
    questions := [];
    var i := 0;
    while i < |ls|
      invariant i <= |ls|
      invariant questions + Scan(ls, i) == Scan(ls, 0)
      decreases |ls| - i
    {
      var found, next := ReadQuestion(ls, i);
      ScanStep(ls, i);
      AppendAssoc(questions, found, Scan(ls, next));
      questions, i := questions + found, next;
    }
  }

  lemma ScanStep(ls: seq<Note>, i: nat)
    requires i < |ls|
    ensures Scan(ls, i) == Yield(ls, i) + Scan(ls, After(ls, i))
  {
  }

  /** One turn of the walk: the questions line `i` yields and the index the walk continues at. */
  method ReadQuestion(ls: seq<Note>, i: nat) returns (found: seq<Extracted>, next: nat)
    requires i < |ls|
    ensures found == Yield(ls, i) && next == After(ls, i)
  {
    match ls[i].reading {
      case Skip =>
        found, next := [], i + 1;
      case Marked(m, text) =>
        var options, last := CollectOptions(ls, m, i);
        found, next := [Extracted(text, MarkedType(m), Some(options), true)], last + 1;
      case Underlined(text) =>
        found, next := if EndsWith(text, "?") then [Extracted(text, "text", None, true)] else [], i + 1;
      case Asked(text, required) =>
        if i + 1 < |ls| && Offers(ls[i + 1], Choice) {
          var options, last := CollectOptions(ls, Choice, i);
          found, next := [Extracted(text, "multiple_choice", Some(options), required)], last + 1;
        } else {
          found, next := [Extracted(text, "text", None, required)], i + 1;
        }
    }
  }

  /** The questions of all pages, page after page. */
  function PagesQuestions(pages: seq<string>): seq<Extracted>
    decreases |pages|
  {
    if pages == [] then [] else PagesQuestions(pages[..|pages| - 1]) + PageQuestions(pages[|pages| - 1])
  }

  lemma PagesStep(pages: seq<string>, p: nat)
    requires p < |pages|
    ensures PagesQuestions(pages[..p + 1]) == PagesQuestions(pages[..p]) + PageQuestions(pages[p])
  {
    assert pages[..p + 1][..p] == pages[..p];
  }

  /** `extract_questions_from_pdf` given the text of each page. */
  method ExtractQuestions(pages: seq<string>) returns (questions: seq<Extracted>)
    ensures questions == PagesQuestions(pages)
  {
    questions := [];
    for p := 0 to |pages|
      invariant questions == PagesQuestions(pages[..p])
    {
      var found := ScanPage(pages[p]);
      PagesStep(pages, p);
      questions := questions + found;
    }
    assert pages[..|pages|] == pages;
  }

  // ----- what the walk promises -----

  /** A question together with its options uses up that many lines. */
  function Weight(qs: seq<Extracted>): nat
    decreases |qs|
  {
    if qs == [] then 0
    else 1 + (if qs[0].options.Some? then |qs[0].options.value| else 0) + Weight(qs[1..])
  }

  lemma WeightAppend(a: seq<Extracted>, b: seq<Extracted>)
    ensures Weight(a + b) == Weight(a) + Weight(b)
    decreases |a|
  {
    if a != [] {
      assert (a + b)[0] == a[0] && (a + b)[1..] == a[1..] + b;
      WeightAppend(a[1..], b);
    } else {
      assert a + b == b;
    }
  }

  /** The marker of the options a question at line `i` takes: its own marker, or "(a)"-style for a "?" line. */
  function OptionMarker(ls: seq<Note>, i: nat): Marker
    requires i < |ls|
  {
    match ls[i].reading
    case Marked(m, _) => m
    case _ => Choice
  }

  /**
   * Line `i` yields at most one question. A line that yields nothing, or a question without
   * options, moves the walk to the next line only. A question with options takes exactly the
   * lines the walk moves past: the maximal run of lines right after it that carry its marker,
   * their texts in order. So a question and its options use up exactly the lines moved past.
   */
  lemma YieldBound(ls: seq<Note>, i: nat)
    requires i < |ls|
    ensures |Yield(ls, i)| <= 1
    ensures Yield(ls, i) != [] ==> Weight(Yield(ls, i)) == After(ls, i) - i
    ensures Yield(ls, i) == [] || Yield(ls, i)[0].options.None? ==> After(ls, i) == i + 1
    ensures Yield(ls, i) != [] && Yield(ls, i)[0].options.Some? ==>
      var m := OptionMarker(ls, i);
      Yield(ls, i)[0].options.value == OptionsOf(ls, m, i + 1, After(ls, i)) &&
      (forall k :: i < k < After(ls, i) ==> Offers(ls[k], m)) &&
      (After(ls, i) < |ls| ==> !Offers(ls[After(ls, i)], m))
  {
    var y := Yield(ls, i);
    if y != [] {
      assert y[1..] == [];
      if y[0].options.Some? {
        RunEndSpec(ls, OptionMarker(ls, i), i);
      }
    }
  }

  /** The lines the walk from `i` stands on that yield no question. */
  function Silent(ls: seq<Note>, i: nat): nat
    requires i <= |ls|
    decreases |ls| - i
  {
    if i == |ls| then 0 else (if Yield(ls, i) == [] then 1 else 0) + Silent(ls, After(ls, i))
  }

  /**
   * Every line is read exactly once: each line from `i` on is a question, one of the options of
   * the question above it, or a line that yields nothing; so the questions and their options
   * number exactly the lines left, less the silent ones.
   */
  lemma {:induction false} ScanUsesEachLineOnce(ls: seq<Note>, i: nat)
    requires i <= |ls|
    ensures Weight(Scan(ls, i)) + Silent(ls, i) == |ls| - i
    ensures Weight(Scan(ls, i)) <= |ls| - i
    decreases |ls| - i
  {
    if i < |ls| {
      YieldBound(ls, i);
      ScanUsesEachLineOnce(ls, After(ls, i));
      WeightAppend(Yield(ls, i), Scan(ls, After(ls, i)));
    }
  }

  /** What every extracted question looks like. */
  predicate WellFormed(q: Extracted) {
    Clean(q.text) &&
    (q.qtype == "multiple_choice" || q.qtype == "checkbox" || q.qtype == "text") &&
    (q.options.Some? <==> q.qtype != "text") &&
    (q.options.Some? ==> forall k :: 0 <= k < |q.options.value| ==> Clean(q.options.value[k])) &&
    (q.qtype == "checkbox" ==> q.required)
  }

  /** What line `i` yields is well formed. */
  lemma YieldWellFormed(ls: seq<Note>, i: nat)
    requires i < |ls| && AllClean(ls)
    ensures forall q :: q in Yield(ls, i) ==> WellFormed(q)
  {
    assert NoteClean(ls[i]);
    match ls[i].reading
    case Skip =>
    case Marked(m, _) =>
      OptionsOfClean(ls, m, i + 1, RunEnd(ls, m, i));
    case Underlined(_) =>
    case Asked(_, _) =>
      OptionsOfClean(ls, Choice, i + 1, RunEnd(ls, Choice, i));
  }

  lemma {:induction false} ScanWellFormedFrom(ls: seq<Note>, i: nat)
    requires i <= |ls| && AllClean(ls)
    ensures forall q :: q in Scan(ls, i) ==> WellFormed(q)
    decreases |ls| - i
  {
    if i < |ls| {
      YieldWellFormed(ls, i);
      ScanWellFormedFrom(ls, After(ls, i));
    }
  }

  /**
   * The questions a page yields have clean text, are typed multiple_choice, checkbox or text,
   * carry clean options exactly when they are not text questions, and checkbox questions are
   * required.
   */
  lemma ScanWellFormed(lines: seq<string>)
    ensures forall q :: q in Scan(Notes(lines), 0) ==> WellFormed(q)
  {
    NotesClean(lines);
    ScanWellFormedFrom(Notes(lines), 0);
  }

  /** Every question taken from a document is well formed. */
  lemma {:induction false} PagesWellFormed(pages: seq<string>)
    ensures forall q :: q in PagesQuestions(pages) ==> WellFormed(q)
    decreases |pages|
  {
    if pages != [] {
      PagesWellFormed(pages[..|pages| - 1]);
      ScanWellFormed(Split(pages[|pages| - 1], "\n"));
    }
  }

  /**
   * A line with an underscore and no option marker never yields a question: `clean_text` has
   * removed the "?" the branch looks for, so the walk just moves past it.
   */
  lemma UnderlinedLineYieldsNothing(lines: seq<string>, i: nat)
    requires i < |lines| && Read(lines[i]).Underlined?
    ensures Yield(Notes(lines), i) == [] && Scan(Notes(lines), i) == Scan(Notes(lines), i + 1)
  {
    var ls := Notes(lines);
    UnderlinedLineAsksNothing(lines[i]);
    assert Scan(ls, i) == [] + Scan(ls, i + 1);
  }

  // ----- allowed_file -----

  /** The index of the last `c` in `s`, if any. */
  function LastIndex(s: string, c: char): (r: Option<nat>)
    ensures r.Some? ==> r.value < |s| && s[r.value] == c && forall j :: r.value < j < |s| ==> s[j] != c
    ensures r.None? ==> forall j :: 0 <= j < |s| ==> s[j] != c
    decreases |s|
  {
    if s == [] then None
    else if s[|s| - 1] == c then Some(|s| - 1)
    else LastIndex(s[..|s| - 1], c)
  }

  /** `'.' in filename and filename.rsplit('.', 1)[1].lower() == 'pdf'`. */
  predicate AllowedFile(filename: string) {
    match LastIndex(filename, '.')
    case None => false
    case Some(k) => Lower(filename[k + 1..]) == "pdf"
  }

  /** The name ends in "." and "pdf" in any mix of cases. */
  predicate HasPdfExtension(filename: string) {
    |filename| >= 4 && filename[|filename| - 4] == '.' && Lower(filename[|filename| - 3..]) == "pdf"
  }

  /** A file is allowed exactly when its name ends in "." and "pdf" in any mix of cases. */
  lemma AllowedFileIffPdfExtension(filename: string)
    ensures AllowedFile(filename) <==> HasPdfExtension(filename)
  {
    if AllowedFile(filename) {
      AllowedHasPdfExtension(filename);
    }
    if HasPdfExtension(filename) {
      PdfExtensionAllowed(filename);
    }
  }

  lemma AllowedHasPdfExtension(filename: string)
    requires AllowedFile(filename)
    ensures HasPdfExtension(filename)
  {
    var k := LastIndex(filename, '.').value;
    assert |Lower(filename[k + 1..])| == 3;
  }

  lemma PdfExtensionAllowed(filename: string)
    requires HasPdfExtension(filename)
    ensures AllowedFile(filename)
  {
    var n := |filename|;
    var tail := filename[n - 3..];
    ExtensionHasNoDot(tail);
    forall j | n - 4 < j < n
      ensures filename[j] != '.'
    {
      assert filename[j] == tail[j - (n - 3)];
    }
    LastIndexAt(filename, '.', n - 4);
  }

  /** The last `c` in `s` is the one at `k` when none follows it. */
  lemma LastIndexAt(s: string, c: char, k: nat)
    requires k < |s| && s[k] == c
    requires forall j :: k < j < |s| ==> s[j] != c
    ensures LastIndex(s, c) == Some(k)
  {
  }

  /** A three-character extension that lower-cases to "pdf" holds no dot. */
  lemma ExtensionHasNoDot(tail: string)
    requires Lower(tail) == "pdf"
    ensures forall j :: 0 <= j < |tail| ==> tail[j] != '.'
  {
    assert forall j :: 0 <= j < |tail| ==> LowerChar(tail[j]) == "pdf"[j];
  }
}
