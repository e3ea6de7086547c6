# A verified model of the forms application's questionnaire engine

The forms application (a Flask clone of an online form builder) stores a form as Questions.
A choice question's options can reveal follow-up SubQuestions, nested at most two levels deep.
This project models the parts of `google-form-clone-main/app.py` that decide what gets stored:

- **Submission interpreter** (`submit_form`). It reads the posted multi-valued field map and
  records an Answer for every top-level question with a non-empty value. It then evaluates
  follow-ups only under the options that value selected. Level 1 matches `parent_option`
  exactly. Level 2 matches the composite key `"<level-0 option>|<level-1 option>"`.
  (`Submission.dfy`)
- **Schema rebuild** (`update_form`). It checks the payload for `questions`, deletes the old
  schema and commits, then builds one Question per descriptor with `order` equal to its index.
  Choice questions also get level-1 and level-2 SubQuestions. Any exception rolls back the
  rebuild. Row ids come from one counter per table. (`SchemaBuilder.dfy` builds the rows;
  `FormUpdate.dfy` holds the tables, as the class `FormStore`, and the request.)
- **Option decoding** (`get_options`, `set_options`, the `fromjson` filter and the legacy-to-nested
  conversion of `view_form`). JSON decoding is a parameter `decode: string -> Option<Json>`.
  `json.dumps` is written out, with `ensure_ascii` escaping. (`OptionDecoding.dfy`,
  `JsonValues.dfy`, `JsonText.dfy`)
- **Mindmap parser** (`parse_mindmap_to_form`). It is an indentation-driven line parser: indent 0
  is the title, 2 a section, 4 a field, 6 an option. The file also models the mapping of fields
  to Questions in `upload_mindmap`. (`Mindmap.dfy`)
- **PDF line classifier** (the line walk of `extract_questions_from_pdf`, `clean_text` and
  `allowed_file`), over the text of each page. (`PdfQuestions.dfy`)

`Strings.dfy` models the Python string methods the code calls: `strip`, `split`, `join`,
`find`, `replace`, `lower` and `str(n)`. `Schema.dfy` holds the row types. `Wrappers.dfy` holds
`Option` and `Result`.

The loops that build rows, read lines and record answers are methods with loops. Each
method's `ensures` ties its result to a specification function, and the properties are lemmas
about that function. Two kinds of loop are not written as loops. The delete loops of
`update_form` (app.py:616-618, 621-623) call `db.session.delete` once per row;
`FormStore.DeleteSchema` assigns the filtered tables at once. `view_form`'s loop over the
form's questions (app.py:253-273) is modelled one question at a time, by
`OptionDecoding.ViewNestedOptions`.

Two behaviours differ from what a reader of the design might expect, and the model follows the code:

- Follow-ups are matched to a selected option by `filter_by`, which is **exact equality** on
  `parent_option`, not substring containment (app.py:350-354, 382-386).
- A descriptor without `question_type` or `question_text` raises a `KeyError`, not a validation
  error. The request answers 500, and the form keeps **no questions**, because the delete was
  already committed (app.py:625-634, 711-713).

## Model

| member | source | states |
|---|---|---|
| Submission.SubmitForm | google-form-clone-main/app.py:320-405 | the Answer rows and SubQuestionAnswer rows appended are exactly `Answers` and `SubAnswers` of the form data, in evaluation order |
| Submission.EvaluateQuestion | google-form-clone-main/app.py:324-348 | one turn of the question loop gives the question's Answer row (or none) and the records of its follow-ups |
| Submission.EvaluateFollowUps | google-form-clone-main/app.py:348-357 | the loop over the selected options gives the records of the level-1 follow-ups hanging on each, in order |
| Submission.EvaluateLevel1 | google-form-clone-main/app.py:357-380 | the loop over level-1 follow-ups records each answered one, then its level-2 follow-ups when it is a choice question |
| Submission.EvaluateNested | google-form-clone-main/app.py:378-388 | the loop over a level-1 answer's selections gives the level-2 records under each composite key |
| Submission.EvaluateNestedSubQuestions | google-form-clone-main/app.py:388-405 | the innermost loop records every level-2 follow-up with a non-empty answer, in order |
| Submission.AnswersExactlyGiven | google-form-clone-main/app.py:323-341 | an Answer is recorded for a question exactly when its extracted value is non-empty, and it holds that value |
| Submission.CheckboxSelectsPostedValues | google-form-clone-main/app.py:326-329 | a checkbox's posted values are joined with ", ", and splitting the answer on ", " gives those values back when none contains ", " |
| Submission.CheckboxCommaIsLossy | google-form-clone-main/app.py:329 | a single checkbox value "a, b" is read back as the two selections a and b |
| Submission.CheckboxCommaExample | google-form-clone-main/app.py:345 | posting the one option "Red, Blue" selects "Red" and "Blue" |
| Submission.FilterBy | google-form-clone-main/app.py:350-354 | a follow-up is found exactly when its question id, parent option (by equality) and nesting level all match |
| Submission.Record | google-form-clone-main/app.py:368-373 | `answer_text` is the answer; `selected_option` is the answer for radio, multiple_choice and checkbox, and None otherwise |
| Submission.FieldKeysDistinct | google-form-clone-main/app.py:324 | `question_<id>`, `subq_<id>` and `nested_subq_<id>` never collide, and each names one row |
| Submission.CompositeKeyInjective | google-form-clone-main/app.py:381 | when level-0 options hold no "\|", the key "<o>\|<n>" determines both selections |
| Submission.CompositeKeyCollision | google-form-clone-main/app.py:381 | a "\|" inside an option text makes two selection paths share one key |
| Submission.QuestionRecordsMembership | google-form-clone-main/app.py:343-405 | a question's follow-up records are exactly the records of its answered follow-ups that the selections show, at level 1 or 2 |
| Submission.SubAnswersAreShownFollowUps | google-form-clone-main/app.py:343-405 | a submission's SubQuestionAnswers are exactly the records of the shown, answered follow-ups |
| Submission.UnshownFollowUpIgnored | google-form-clone-main/app.py:348-386 | a follow-up that no selection shows gets no SubQuestionAnswer, whatever was posted for it |
| SchemaBuilder.Field | google-form-clone-main/app.py:629-634 | `d[key]` succeeds exactly when `d` is a dictionary with `key`, and gives the value stored there; otherwise it raises KeyError or TypeError |
| SchemaBuilder.Iterate | google-form-clone-main/app.py:659 | iteration fails exactly on values that are not lists, dictionaries or strings; a list iterates over its items |
| SchemaBuilder.FlagColumn | google-form-clone-main/app.py:636 | a boolean `required` is stored as given, and null as False |
| SchemaBuilder.Level1Own | google-form-clone-main/app.py:667-681 | a level-1 row hangs on the option text and has nesting level 1, the given order and id, the descriptor's text, type and `required` (defaults "", "text", False), and the JSON text of its `options` entry exactly when that is a list; it fails exactly when the option text or a column is not storable |
| SchemaBuilder.FollowUpColumns | google-form-clone-main/app.py:670-672 | a follow-up's text, type and flag are its `text`, `type` and `required` entries, or "", "text" and False when absent; it fails exactly when one is not storable |
| SchemaBuilder.FollowUpDefaults | google-form-clone-main/app.py:670-672 | a follow-up descriptor that sets none of the three gets text "", type "text" and required False |
| SchemaBuilder.NestedRow | google-form-clone-main/app.py:687-697 | a level-2 row has key "<option>\|<nested option>", level 2, the given order and id, the descriptor's columns with their defaults, and the JSON text of its `options` entry exactly when it has one |
| SchemaBuilder.NestedRowsShape | google-form-clone-main/app.py:686-700 | level-2 rows come one per listed descriptor, with consecutive ids, order = index, level 2, key "<option>\|<nested option>", and that descriptor's text, type and `required` |
| SchemaBuilder.NestedOptionItemShape | google-form-clone-main/app.py:684-700 | one option of a level-1 follow-up yields level-2 rows numbered consecutively, keyed "<option>\|<that option's `text`, default ''>"; an option that is not a dictionary with `subquestions` yields none |
| SchemaBuilder.NestedOptionRowsShape | google-form-clone-main/app.py:684-700 | all level-2 rows of a level-1 follow-up are numbered consecutively, sit at level 2 and are keyed under its option |
| SchemaBuilder.Level1RowShape | google-form-clone-main/app.py:667-702 | one level-1 descriptor yields its level-2 rows, then itself with order = index and the descriptor's text, type and `required`, all numbered consecutively |
| SchemaBuilder.Level1RowsShape | google-form-clone-main/app.py:666-702 | the rows under one option are numbered consecutively and hang on it; there is one level-1 row per listed descriptor, and the k-th is built from descriptor k: order k, that descriptor's text, type and `required` (defaults "", "text", False), and the JSON text of its `options` entry exactly when that is a list |
| SchemaBuilder.OptionItemShape | google-form-clone-main/app.py:659-702 | the follow-ups of one option are numbered consecutively and hang on its `text` (default ''): level 1 on the text, level 2 on "<text>\|…"; an option that is not a dictionary yields none |
| SchemaBuilder.OptionItemLevel1 | google-form-clone-main/app.py:659-681 | a dictionary option gets one level-1 follow-up per entry of its `subquestions`, the k-th built from the k-th entry with order k, that entry's text, type and `required` (defaults "", "text", False) and the JSON text of its list-valued `options` |
| SchemaBuilder.OptionRowsShape | google-form-clone-main/app.py:659-702 | a choice question's follow-ups are numbered consecutively, belong to it, sit at level 1 or 2, and each hangs on one of its options |
| SchemaBuilder.ReadHeaderShape | google-form-clone-main/app.py:629-652 | a descriptor is read only when it has both `question_type` and `question_text`, whose values it keeps, with `required` (default False) as the flag; only a choice type carries an option list, the one its `options` entry gives |
| SchemaBuilder.OptionsDataShape | google-form-clone-main/app.py:642-649 | a missing `options` entry gives [], a string is decoded and one that does not decode gives [], and any other value is kept |
| SchemaBuilder.TurnShape | google-form-clone-main/app.py:632-705 | a turn gives the Question with the given id and order and the header's type, text, flag and stored option list; its follow-ups hang on the header's options, so a non-choice question gets none |
| SchemaBuilder.QuestionRowsShape | google-form-clone-main/app.py:628-705 | a descriptor gives a Question with the given id and order, its `question_type`, `question_text` and `required`, the JSON text of its option list for a choice type and none otherwise; only a choice question gets follow-ups, each on one of its options |
| SchemaBuilder.AllRowsShape | google-form-clone-main/app.py:628-705 | a rebuild gives one Question per descriptor in payload order, with order = index, consecutive ids and the type, text, flag and option list read from that descriptor; each follow-up hangs on an option of its question's descriptor |
| SchemaBuilder.RebuiltQuestion | google-form-clone-main/app.py:628-705 | the k-th Question of a rebuild is built from the k-th descriptor, and its follow-ups exist only for a choice question and hang on one of its options |
| SchemaBuilder.RebuiltFollowUps | google-form-clone-main/app.py:659-702 | every follow-up of a rebuild belongs to a choice question and hangs on an option of the descriptor that question was built from |
| SchemaBuilder.AddedStaysFailed | google-form-clone-main/app.py:628-713 | once a turn raises, the whole rebuild ends with that exception |
| SchemaBuilder.MissingFieldFails | google-form-clone-main/app.py:629-634 | a descriptor without `question_type` or `question_text` makes the rebuild raise |
| SchemaBuilder.BuildNestedRows | google-form-clone-main/app.py:686-700 | the level-2 loop adds the rows of `NestedRows`, or stops at the first exception |
| SchemaBuilder.BuildNestedOptionItem | google-form-clone-main/app.py:685-686 | one option of a level-1 follow-up adds the rows of `NestedOptionItem` |
| SchemaBuilder.BuildNestedOptionRows | google-form-clone-main/app.py:684-700 | the loop over a level-1 follow-up's options adds the rows of `NestedOptionRows` |
| SchemaBuilder.BuildLevel1Row | google-form-clone-main/app.py:667-702 | one level-1 descriptor adds the rows of `Level1Row` |
| SchemaBuilder.BuildLevel1Rows | google-form-clone-main/app.py:666-702 | the loop over an option's subquestions adds the rows of `Level1Rows` |
| SchemaBuilder.BuildOptionItem | google-form-clone-main/app.py:661-663 | one option adds the rows of `OptionItem` |
| SchemaBuilder.BuildOptionRows | google-form-clone-main/app.py:659-702 | the loop over a choice question's options adds the rows of `OptionRows` |
| SchemaBuilder.BuildTurn | google-form-clone-main/app.py:632-705 | the body of the question loop gives the turn's Question and follow-ups, or its exception |
| SchemaBuilder.BuildQuestions | google-form-clone-main/app.py:628-705 | the question loop adds the rows of every turn in order, or stops at the first exception |
| SchemaBuilder.BuildAllRows | google-form-clone-main/app.py:628-705 | the rebuild gives `AllRows` of the descriptors, whose shape `AllRowsShape` states |
| FormUpdate.HasQuestions | google-form-clone-main/app.py:610 | `'questions' in data` tests for the key on a dictionary, and raises TypeError for a number, boolean or null |
| FormUpdate.StatusCode | google-form-clone-main/app.py:609-713 | the response is 200 exactly on success and 400 exactly for a payload without questions |
| FormUpdate.OtherForms | google-form-clone-main/app.py:621-623 | deleting a form's questions keeps exactly the other forms' questions |
| FormUpdate.Detached | google-form-clone-main/app.py:616-618 | deleting the form's follow-ups keeps exactly those of other questions |
| FormUpdate.FormStore.DeleteSchema | google-form-clone-main/app.py:615-625 | the tables become `Cleared`: the form's follow-ups and questions are gone, the rest is kept, and the ids stay unique |
| FormUpdate.FormStore.AddRows | google-form-clone-main/app.py:707-708 | the final commit appends the new rows and moves the counters past their ids |
| FormUpdate.FormStore.UpdateForm | google-form-clone-main/app.py:609-713 | the outcome and the new tables are `Update` of the old tables, and the ids stay unique |
| FormUpdate.ClearedWellFormed | google-form-clone-main/app.py:615-625 | deleting the schema keeps the ids of each table unique and below its counter, and every follow-up attached to an existing question |
| FormUpdate.CommittedWellFormed | google-form-clone-main/app.py:707-708 | adding rows numbered from the counters, whose follow-ups belong to the new questions, keeps the ids unique and below the counters and every follow-up attached to an existing question |
| FormUpdate.UpdateWellFormed | google-form-clone-main/app.py:609-713 | every update keeps the ids of both tables unique and below the counters, and every follow-up attached to an existing question |
| FormUpdate.RejectedPayloadChangesNothing | google-form-clone-main/app.py:609-611 | a dictionary without `questions` gets 400 and nothing is deleted; no rejected payload gets 200 |
| FormUpdate.UpdateReplacesSchema | google-form-clone-main/app.py:613-713 | other forms are untouched; on failure the form has no questions; on success its questions are the new ones, one per descriptor, with order = index, fresh ids, and the type, text, flag and option list of that descriptor |
| FormUpdate.UpdateFollowUps | google-form-clone-main/app.py:613-713 | on success, the follow-ups of the k-th new question come from the k-th descriptor: it is a choice question and each hangs on one of its options |
| FormUpdate.MissingFieldEmptiesForm | google-form-clone-main/app.py:629-634 | a descriptor missing a required key gives a 500 and leaves the form with no questions |
| OptionDecoding.GetOptions | google-form-clone-main/app.py:80-86 | an empty or missing column gives [], a column that does not decode gives [], and otherwise the decoded value |
| OptionDecoding.GetSetOptions | google-form-clone-main/app.py:88-89 | reading back what `set_options` stored gives the option list, whenever decoding inverts `json.dumps` |
| OptionDecoding.FromJsonFilter | google-form-clone-main/app.py:30-34 | the filter gives the decoded value, or [] when decoding fails |
| OptionDecoding.FromJsonAgreesWithGetOptions | google-form-clone-main/app.py:30-34 | the filter and `get_options` read a column the same way |
| OptionDecoding.Truthful | google-form-clone-main/app.py:268-271 | the comprehension keeps exactly the truthy options |
| OptionDecoding.ToNestedTexts | google-form-clone-main/app.py:262 | the nested conversion keeps every option, in order: their "text" fields are the original list |
| OptionDecoding.LegacyListConverted | google-form-clone-main/app.py:255-262 | a list of plain option strings becomes the nested format, one object per option, in order |
| OptionDecoding.NestedListKept | google-form-clone-main/app.py:258-261 | a list already in the nested format is kept as decoded |
| OptionDecoding.FallbackIsEmpty | google-form-clone-main/app.py:263-274 | the legacy fallback never yields an option |
| Mindmap.FieldOf | google-form-clone-main/app.py:848-861 | a field takes the lower-cased type after "\|" when it is a known type, else "text", and starts with no options |
| Mindmap.AddOption | google-form-clone-main/app.py:865-867 | the option is appended to the options of field (si, fi), and every other field, every section name and every field count is unchanged |
| Mindmap.Step | google-form-clone-main/app.py:829-867 | reading a line keeps `current_field` pointing at a field of the form |
| Mindmap.ReadLine | google-form-clone-main/app.py:822-867 | the body of the line loop updates the title, the sections and `current_field` as `Step` does, or raises |
| Mindmap.ReadLines | google-form-clone-main/app.py:820-867 | the line loop gives `Parse` of the classified lines |
| Mindmap.ParseMindmapToForm | google-form-clone-main/app.py:811-869 | the parser gives `ParseLines` of the text split on "\n" |
| Mindmap.RunStaysFailed | google-form-clone-main/app.py:862 | once a line raises, the parse ends with that error |
| Mindmap.BlankLinesSkipped | google-form-clone-main/app.py:823-824 | blank lines, and lines at an unknown indent, are skipped |
| Mindmap.RunIgnoresSkipped | google-form-clone-main/app.py:822-865 | dropping skipped lines does not change what the parser produces |
| Mindmap.RunShape | google-form-clone-main/app.py:829-867 | a run's title is the last title line, its sections are the section lines, and its fields are `Collected`: the field lines in order, a dropdown, checkbox or radio field holding the option lines after it up to the next field line, any other field none |
| Mindmap.ParseShape | google-form-clone-main/app.py:820-867 | the same, for a parse of text lines |
| Mindmap.RunCollects | google-form-clone-main/app.py:829-867 | the fields of a successful run are exactly `Collected` of its lines, and `current_field` is the last field of the form |
| Mindmap.CollectedAppend | google-form-clone-main/app.py:857-867 | one more line extends the last field collected so far by its option, when it is an option line and the field takes options, and adds the field it declares |
| Mindmap.OptionCarriesAcrossSection | google-form-clone-main/app.py:836-867 | an option line after a section line goes to the field before that section line |
| Mindmap.RunFailsIffFieldBeforeSection | google-form-clone-main/app.py:847-862 | the parse fails exactly when a field line comes before the first section line |
| Mindmap.QuestionType | google-form-clone-main/app.py:895-903 | "dropdown" maps to "multiple_choice", text, email, checkbox and radio map to themselves, and any other type to "text" |
| Mindmap.MindmapQuestions | google-form-clone-main/app.py:892-917 | one Question per field of the form, section by section, with consecutive `order` |
| Mindmap.MindmapQuestionsShape | google-form-clone-main/app.py:892-917 | one required Question per field line, in order, text and mapped type as the line says, never "dropdown"; it stores the JSON list of the field's collected options exactly when the field is dropdown, checkbox or radio and has some |
| PdfQuestions.KeepLettersAndSpacesSpec | google-form-clone-main/app.py:510 | the filter keeps only letters and spaces, and every letter |
| PdfQuestions.CleanTextClean | google-form-clone-main/app.py:508-513 | `clean_text` gives letters with single interior spaces and no space at either end |
| PdfQuestions.CleanTextKeepsLetters | google-form-clone-main/app.py:508-513 | `clean_text` keeps exactly the letters of its input, in order |
| PdfQuestions.CleanTextHasNoQuestionMark | google-form-clone-main/app.py:508-513 | `clean_text` output never ends in "?" |
| PdfQuestions.UnderlinedLineAsksNothing | google-form-clone-main/app.py:554-558 | the cleaned text of an underlined line never ends in "?" |
| PdfQuestions.UnderlinedLineYieldsNothing | google-form-clone-main/app.py:554-563 | an underlined line never yields a question, and the walk just moves to the next line |
| PdfQuestions.RunEndSpec | google-form-clone-main/app.py:519 | the option run after a question line is the longest stretch of marked lines right after it |
| PdfQuestions.OptionsOfClean | google-form-clone-main/app.py:521-525 | every option text taken is clean |
| PdfQuestions.After | google-form-clone-main/app.py:519-596 | the walk moves strictly forward and never past the last line |
| PdfQuestions.CollectOptions | google-form-clone-main/app.py:519-525 | the inner loop consumes exactly the option run and collects the texts of its lines |
| PdfQuestions.ReadQuestion | google-form-clone-main/app.py:499-596 | one turn of the walk gives the questions the line yields and the index the walk continues at |
| PdfQuestions.Walk | google-form-clone-main/app.py:497-596 | the walk over a page's lines gives `Scan` of the classified lines |
| PdfQuestions.ScanPage | google-form-clone-main/app.py:495-596 | one page gives `PageQuestions` of its text |
| PdfQuestions.ExtractQuestions | google-form-clone-main/app.py:494-600 | a document gives the questions of its pages, page after page |
| PdfQuestions.YieldBound | google-form-clone-main/app.py:515-596 | a line yields at most one question; a question with options takes exactly the maximal run of marked lines after it, and it and its options use up exactly the lines the walk moves past; otherwise the walk moves one line |
| PdfQuestions.ScanUsesEachLineOnce | google-form-clone-main/app.py:497-596 | every line is a question, an option of the question above it, or a line yielding nothing: questions plus options plus silent lines equal the lines left |
| PdfQuestions.YieldWellFormed | google-form-clone-main/app.py:515-594 | what a line yields has a clean text, type multiple_choice, checkbox or text, clean options exactly when it is not a text question, and is required when it is a checkbox question |
| PdfQuestions.ScanWellFormed | google-form-clone-main/app.py:497-596 | every question of a page is well formed |
| PdfQuestions.PagesWellFormed | google-form-clone-main/app.py:494-600 | every question taken from a document is well formed |
| PdfQuestions.LastIndex | google-form-clone-main/app.py:487 | `rsplit('.', 1)` splits at the last dot |
| PdfQuestions.AllowedFileIffPdfExtension | google-form-clone-main/app.py:486-487 | a file is allowed exactly when its name ends in "." and "pdf" in any mix of cases |
| Strings.StripEmptyIffBlank | google-form-clone-main/app.py:823 | `not s.strip()` holds exactly for strings made only of whitespace |
| Strings.SplitJoinComma | google-form-clone-main/app.py:329 | splitting the ", "-join of values without ", " gives the values back |
| Strings.SplitOnce | google-form-clone-main/app.py:838 | `split(sep, 1)` gives two parts exactly when the separator occurs |
| Strings.FindSpec | google-form-clone-main/app.py:837 | `find` gives the first occurrence, and none only when there is none |

## Left out

- HTTP, sessions and the ORM are not modelled: routing, authorization (app.py:605-607),
  `flash`, redirects and templates. The database tables are sequences; a query is a filter; an
  add is an append. The Response row of a submission is a parameter, its id `rid`.
- PyPDF2 and file saving are not modelled. `extract_questions_from_pdf` takes the text of each
  page. The `except` around the loop (app.py:598-599) only catches reader errors, which are out of
  scope, because the walk over given lines raises nothing.
- `next_line` (app.py:500) is computed and never used, so it is not modelled.
- JSON decoding is a parameter. `json.dumps` is written out for the values the model stores.
- The classifier's and the parser's per-line decisions are computed for all lines before the
  loop (`PdfQuestions.Notes`, `Mindmap.Kinds`). Likewise, the rebuild reads each descriptor's
  header before its loop (`SchemaBuilder.Headers`). These computations are pure, so the loops see
  the same values as when computing them on the way, and errors still surface at the turn
  that meets them.
- Python character classes: `isalpha` and `lower` are modelled for ASCII letters only. `isspace`
  is modelled on Python's whitespace set.
- SchemaBuilder.ReadHeader, SchemaBuilder.FollowUpColumns and SchemaBuilder.Level1Own reject a
  non-string text, type or parent option, and a `required` other than a boolean, 0, 1 or null,
  with UnsupportedValue. The source hands such values to the ORM, whose handling is not modelled.
- SchemaBuilder.NestedRow raises UnsupportedValue when the option text or the nested option's
  text is not a string. The source builds the level-2 key with an f-string (app.py:689), which
  formats any value with `str()`: `{"text": 3}` under option "Red" gives the key "Red|3", and the
  row is stored.
- JSON numbers are integers. A float anywhere in a payload is not modelled: neither a float
  `options` entry nor `required: 1.0`, which the ORM would store as true.
- JsonValues.Lookup takes the first field with a given key. Python's `json.loads` keeps the last
  value of a repeated key. The two agree on objects whose keys are distinct.
- SQLite's reuse of deleted ids is not modelled: the counters only move forward.
- The answer tables are not part of `FormStore`, so what a delete does to them is not modelled.
  In the source, deleting a follow-up (app.py:616-618) cascades to its SubQuestionAnswer rows
  through `SubQuestion.answers` (app.py:78). Deleting a question (app.py:621-623) does not
  delete its Answer rows: `Question` has no relationship to `Answer` (app.py:98-123, 137-141),
  and SQLite does not enforce the foreign key without a PRAGMA the app never issues. Those
  Answer rows stay behind, pointing at a question that no longer exists.
- `view_form`'s other work is not modelled: loading the follow-ups (app.py:251) and sorting by
  `order` (app.py:277). The model covers the option conversion.
- `upload_mindmap`'s Form row (app.py:883-890) and its `except` branch (app.py:927-929) are not
  modelled. A parse error is returned as `Err(FieldOutsideSection)`.
- Quiz scoring and export are not part of this application's code.
