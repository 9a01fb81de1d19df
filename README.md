# Survey-response reconciliation, modelled in Dafny

The repository collects one survey's answers from three sources and merges them into one storage
document per respondent. Source 1 and source 2 are JSON payloads. Source 3 is an XML payload that
has been turned into nested dicts. This project models the engine that does the merge, in both of
its variants, and the validator that checks the merged documents:

- `process_and_save_data` in `data_process.py`, the live variant. It builds a question table from
  source 1 (question text to native id and type) and folds the three sources into `combined_data`,
  an insertion-ordered dict from respondent id to record. Source 1 resets a record. Sources 2 and
  3 create a record only when the id is absent, and every source overwrites `survey_data[qid]`.
  The variant normalises answer lists into `{id, option, rank}` triples, keeps `comments` only
  when it is neither `""` nor `None`, and then flattens the mapping into documents. A document's
  `_id` is the respondent id parsed as an ObjectId, or a fresh id.
- The module-level script of `first_init.py`, the older variant. Its question id table lets
  source 1 win and falls back to source 3 only for texts source 1 never uses. It always stores
  `comments`. It reshapes only source-2 lists. Its documents are keyed by the respondent id, with
  the `id` field removed.
- `validate_data` in `test_data.py`. It counts the missing or empty required fields and the bad
  question, answer and comment values over the merged documents. It returns whether the count
  is zero.

## How the model is built

**Values and dicts.**
- JSON values are `Json.Value`: `Null | Bool | Num(int) | Str | List | Obj`.
- Python dicts are insertion-ordered association lists (`OrderedDict.Dict`). `Put` behaves like
  `d[k] = v`: it replaces the value in place when the key is present and appends otherwise.

**Exceptions.**
- A Python exception is a `Wrappers.Result` error. Its `Fault` is `KeyError`, `TypeError`,
  `AttributeError` or `UnboundLocalError`.
- Every operation follows the evaluation order of the source, so the model raises the same first
  exception the source raises. For example, `d["k"]` on a non-dict raises `TypeError`,
  `d.get(...)` on a non-dict raises `AttributeError`, and an unhashable key raises `TypeError`.
- `for x in v` follows Python: a list yields its elements, a dict its keys and a string its
  characters.

**Passes as operation streams.**
- Each pass over a source is a specification function. It yields the stream of operations the
  pass performs on `combined_data`, or the first exception the pass raises.
- There are three kinds of operation, all in `Records.Op`:
  - an unconditional reset of a record (source 1);
  - a create-if-absent (sources 2 and 3);
  - a `survey_data[qid] = entry` write.
- `Records.ApplyAll` runs a stream. The properties of the merge are proved once about streams
  and then applied to each pass.

**Methods with the source's loops.**
- The loops of the source are methods with `for` loops. Each method is proved equal to its
  specification function, so everything proved about the functions holds of the methods.
- The counting loops of `validate_data` are proved against the fold `Folds.Sum`. `Sum` adds
  `Result<nat>` counts and stops at the first exception.

**Parameters.**
- `json.loads` is a parameter `decode: string -> Decoded`.
- `ObjectId()` is a parameter `newIds: nat -> ObjectId`. The document at position `i` of the
  build gets `newIds(i)`.
- `ObjectId(k)` succeeds exactly on a string of 24 hexadecimal digits. The identifier is kept as
  its lower-case text.

### Behaviour of the code worth knowing

- **Strict source-2 lists.** The source-2 list branch of `data_process.py` does not use the
  lenient normaliser, which defaults missing fields to `""`. It uses a strict comprehension
  (data_process.py:125): a missing `id`, `option` or `rank` raises `KeyError`, and a non-dict
  element raises `TypeError`. `first_init.py:95` does the same.
- **Source-3 answers are only unwrapped.** `{"item": [...]}` becomes the wrapped list. That list
  is not reshaped into triples (data_process.py:160-163).
- **Missing keys are fatal.** A missing `id`, `survey_data`, `item` or source-3 `question`
  raises, and the whole merge fails with that exception.
- **Source 1 resets.** Each source-1 entry resets its record (data_process.py:69-72). A repeated
  id within source 1 therefore loses the survey entries written before it.
- **Source-2 questions.** The stored `question` of a source-2 entry is always the raw label. The
  question table has no `"question"` key, so the `.get("question", question)` at
  data_process.py:120 always falls back to the label.
- **`_comments` keys.** `<label>_comments` keys are not in the denylist (data_process.py:117), so
  they become survey entries of their own as well.
- **Unbound documents.** The document build sits inside the source-3 loop (data_process.py:178-191).
  The model rebuilds it on every iteration. An empty source 3 leaves `cleaned_data` unbound, which
  the model reports as `UnboundLocalError`.
- **The `id` field.** A document's `id` field is the record's own common `id`. It comes from
  `**v`, which overrides `"id": k`. `DataProcessFacts.DocumentsPerRespondent` proves that it
  equals the key `k`.

## Model

| member | source | states |
|---|---|---|
| Records.CommonKeysDistinct | data_process.py:9-21 | the eleven common keys are pairwise distinct |
| Records.ExtractCommonFields | data_process.py:8-21 | succeeds exactly on a dict (a non-dict raises); the result has exactly the eleven common keys in the source's order, each bound to the entry's value for it or null |
| Records.FindCommonFields | data_process.py:8-21 | looking up a key in the common fields gives the entry's value (or null) for a common key and nothing for any other key |
| Records.CommonFieldsId | data_process.py:10 | when `entry["id"]` succeeds, the copied common `id` is that same id |
| Records.ApplyAllAppend | data_process.py:68-176 | running two operation streams one after the other is running their concatenation, so the passes compose |
| Records.KeysApplyAll | data_process.py:68-176 | the respondent keys after a stream are the old keys followed by each created or reset id not yet present, in stream order (first-appearance order) |
| Records.CommonKept | data_process.py:110-114 | a respondent that no later operation resets stays present with exactly the common fields it had |
| Records.CommonsKeptByLaterPasses | data_process.py:153-157 | if the second and third passes never reset, a respondent present after pass one (or two) keeps the common fields it had then |
| Records.LastWriteWins | data_process.py:104 | after a write of entry `e` to `(k, q)`, followed by operations that neither reset `k` nor write `(k, q)`, the entry of `(k, q)` is `e` |
| Records.IdsAgreeApplyAll | data_process.py:69-72 | if every created record carries its own id in its common fields, every record of the merged mapping does |
| Records.EntriesSatisfyApplyAll | data_process.py:104 | a property of every written survey entry holds of every survey entry of the merged mapping |
| Records.CommonsSatisfyApplyAll | first_init.py:80-84 | a property of the common fields of every created record holds of every record of the merged mapping |
| Records.CreatedIdsFlatMap | data_process.py:68 | a pass whose entries each create exactly their own id creates the ids of its entries, in order |
| Records.CreationStream | data_process.py:110-114 | an entry's creation carries the entry's id in its common fields, and its stream creates that id alone |
| Records.FinalEntry | data_process.py:68-176 | merging a stream in which every write follows the creation of its respondent leaves, for each present respondent `k` and question id `q`, exactly the entry of the last write to `(k, q)` after the last reset of `k` (none when there is no such write); an absent respondent was never written |
| Records.LastEntryAppend | data_process.py:68-176 | over two streams one after the other, the later one decides the entry of `(k, q)` when it resets `k` or writes `(k, q)`, and otherwise the earlier one does |
| Records.LastEntryOfWrite | data_process.py:151-176 | a stream without resets that writes `(k, q)` leaves an entry for it |
| Answers.NormaliseAnswer | data_process.py:87-102 | a non-list answer is unchanged; a list becomes a list of triples of the same length and order, where a dict element gives its `id`, `option`, `rank` ("" where missing) and any other element becomes the option of a triple with empty id and rank |
| Answers.NormaliseTriple | data_process.py:90-95 | a triple normalises to itself |
| Answers.NormaliseChoiceList | data_process.py:87-102 | normalising a list of triples is the identity |
| Answers.NormaliseIdempotent | data_process.py:87-102 | normalising twice is normalising once |
| Answers.FormatAnswer | data_process.py:87-102 | the appending loop computes the lenient normalisation of the answer |
| Answers.StrictTripleOfItem | data_process.py:125 | `{id: item["id"], ...}` succeeds exactly on a dict with the three keys, raises KeyError on another dict and TypeError on a non-dict, and when it succeeds agrees with the lenient triple |
| Answers.StrictTriples | data_process.py:125 | the comprehension succeeds exactly when every element has the three keys; a failure is the fault of some failing element; a success keeps length and order, element by element the lenient triple |
| Answers.StrictTriplesNormalise | first_init.py:95 | a successful strict comprehension equals the lenient normalisation of the list |
| Answers.UnwrapItem | data_process.py:162-163 | a dict with `item` is replaced by its `item` value; anything else is kept as it is |
| Answers.KeepComment | data_process.py:82-84 | the comment is dropped exactly when it is "" or null, and otherwise kept unchanged |
| ObjectIds.Parse | data_process.py:181-184 | `ObjectId(k)` succeeds exactly on a string of 24 hexadecimal digits, gives a valid identifier, and keeps each digit (case folded to lower) |
| ObjectIds.ParseText | data_process.py:182 | parsing the text of a valid identifier gives it back |
| ObjectIds.ParseOr | data_process.py:181-184 | the parsed id when `k` parses and the fresh id otherwise; valid whenever the fresh id is; a parsed result re-parses to the same identifier |
| DataProcess.Source2Answer | data_process.py:122-142 | a non-string raises; a decode failure stores the raw string, with "" as null; a decoded list is stored strictly as triples (failing exactly when an element lacks a key) and then equals its lenient normalisation |
| DataProcess.AddQuestions | data_process.py:57-62 | the inner table loop raises what the entry's questions raise, or assigns each (text, {id, type}) pair of the entry in order |
| DataProcess.BuildQuestionMap | data_process.py:53-62 | the table loop computes the table of all the (text, info) assignments of source 1, or its first exception |
| DataProcess.MergeSource1Entry | data_process.py:69-104 | the merge of one source-1 entry is its operation stream (reset, then one write per question, with normalised answer and comment kept only when real) applied to the mapping |
| DataProcess.MergeSource1 | data_process.py:68-104 | the source-1 loop applies the stream of all source-1 entries to the empty mapping, or raises its first exception |
| DataProcess.DecodeAnswer | data_process.py:122-142 | the try/except around `json.loads` computes `Source2Answer` |
| DataProcess.MergeSource2Entry | data_process.py:108-147 | the merge of one source-2 entry is its stream (create if absent, one write per non-common key) applied to the mapping |
| DataProcess.MergeSource2 | data_process.py:107-147 | the source-2 loop applies the stream of all source-2 entries to the state source 1 left |
| DataProcess.MergeSource3Entry | data_process.py:152-176 | the merge of one source-3 entry is its stream (create if absent, one write per survey item keyed by the item's id) applied to the mapping |
| DataProcess.BuildDocuments | data_process.py:179-191 | the document loop builds, for each record in order, the document with the parsed or fresh id, the record's `id` and the record |
| DataProcess.MergeSource3AndBuild | data_process.py:151-193 | the source-3 loop with the build inside it: the documents of the final mapping, or UnboundLocalError when source 3 has no entry |
| DataProcess.ProcessAndSaveData | data_process.py:50-193 | `process_and_save_data` computes `Process`: the table, the three passes and the build, with the first exception |
| DataProcessFacts.Source1EntryFacts | data_process.py:68-104 | a source-1 entry's stream keeps only real comments, creates a record carrying its own id, creates that id alone, and writes only after that creation |
| DataProcessFacts.Source2EntryFacts | data_process.py:116-147 | a source-2 entry never resets; each write has the raw label as question, never a common key, is stored under the table id of the label (or the label), has the table type and keeps only a real comment; the entry creates its own id alone and writes only after that creation |
| DataProcessFacts.Source3EntryFacts | data_process.py:159-176 | a source-3 entry never resets; each write has a hashable id and question, the table type of its question, and keeps only a real comment; the entry creates its own id alone and writes only after that creation |
| DataProcessFacts.Source1EntryWrites | data_process.py:68-104 | one source-1 entry's stream is the reset of its record to the entry's common fields followed, for the j-th question of `survey_data` in order, by one write under the question's own key of its `question` (null when missing), normalised `answer`, `type` and real comment |
| DataProcessFacts.Source2EntryWrites | data_process.py:107-147 | one source-2 entry's stream is the creation of its record if absent followed by exactly the writes for its non-common keys: each such key is written under the table id of the label (or the label) with the label as question, `Source2Answer` of its value, the table type and the real `<label>_comments`, and every write is one of these |
| DataProcessFacts.Source3EntryWrites | data_process.py:151-176 | one source-3 entry's stream is the creation of its record if absent followed, for the j-th item of `survey_data["item"]` in order, by one write keyed by the item's own `id` with its `question`, its unwrapped `answer`, the table type of the question and its real comment |
| DataProcessFacts.Source1Facts | data_process.py:68-104 | the source-1 pass creates the ids of its entries in order, all its operations are good, every write follows the creation of its respondent, and it contains every operation of every entry's stream |
| DataProcessFacts.Source2Facts | data_process.py:107-147 | the source-2 pass creates the ids of its entries in order, never resets, each write is a source-2 write and follows the creation of its respondent, and it contains every operation of every entry's stream |
| DataProcessFacts.Source3Facts | data_process.py:151-176 | the source-3 pass creates the ids of its entries in order, never resets, each write is a source-3 write and follows the creation of its respondent, and it contains every operation of every entry's stream |
| DataProcessFacts.QuestionMapLastOccurrence | data_process.py:56-62 | the table gives each question text the info of its last assignment in source 1 |
| DataProcessFacts.QuestionPairOrigin | data_process.py:57-62 | every assignment comes from a question of a source-1 entry: its text (or "" when it has none), its native id and its type |
| DataProcessFacts.QuestionPairCovered | data_process.py:56-62 | conversely, every question of every source-1 entry is an assignment of the table, its text (or "") bound to its own id and type, so the table has an entry for that text |
| DataProcessFacts.AllOpsFacts | data_process.py:68-176 | the successful merge is the three streams applied to the empty mapping; every operation is good; the ids are created in source order; every write follows the creation of its respondent |
| DataProcessFacts.FinalSurveyEntry | data_process.py:68-176 | in the merged mapping, `survey_data[q]` of respondent `k` is the entry of the last write to `(k, q)` over the three passes after the last source-1 reset of `k`, and absent when there is none |
| DataProcessFacts.Source3Decides | data_process.py:151-176 | when source 3 writes `(k, q)`, the merged record of `k` exists and its `survey_data[q]` is the last source-3 write to it, whatever sources 1 and 2 stored |
| DataProcessFacts.MergedIdsAgree | data_process.py:69-72 | every merged record's common `id` is its own key |
| DataProcessFacts.DocumentsOfAgreeing | data_process.py:179-191 | for records carrying their own ids, the documents list the keys in order, take the parsed or fresh `_id` and keep the record |
| DataProcessFacts.ProcessDocuments | data_process.py:178-193 | a successful run is the document build over a successful merge |
| DataProcessFacts.ProcessOfMerge | data_process.py:151-193 | after a successful merge the run raises UnboundLocalError exactly when source 3 has no entry, and otherwise returns the documents of the merge |
| DataProcessFacts.MergedKeys | data_process.py:68-176 | the merged keys are the respondent ids of sources 1, 2 and 3 in first-appearance order, each once |
| DataProcessFacts.DocumentsPerRespondent | data_process.py:179-191 | one document per distinct respondent id, in first-appearance order; `id` is that respondent id; `_id` is its parse or the fresh id, valid whenever the generator's ids are |
| DataProcessFacts.MergedComments | data_process.py:144-147 | no merged survey entry has a `comments` key holding "" or null |
| DataProcessFacts.CommentsNeverBlank | data_process.py:171-174 | no stored survey entry of any document has a `comments` key holding "" or null |
| DataProcessFacts.CommonFieldsKept | data_process.py:153-157 | a respondent present after source 1 (or 2) still has exactly the common fields it had then |
| FirstInit.Source2Stored | first_init.py:90-112 | a non-string raises; a decode failure keeps the raw answer (even "") with the label as question; a decoded non-list is stored with the label; a decoded list becomes strict triples without a question; the comment is always stored |
| FirstInit.AddSource1Ids | first_init.py:44-46 | the inner loop assigns each (text, id) pair of the entry unconditionally, in order |
| FirstInit.AddSource3Ids | first_init.py:50-54 | the inner loop adds each (text, id) pair of the entry only when the text is absent |
| FirstInit.BuildQuestionIdMap | first_init.py:40-54 | the two table loops compute the table of the source-1 assignments, extended by the source-3 pairs whose text is absent |
| FirstInit.MergeSource1Entry | first_init.py:61-73 | the merge of one source-1 entry is its stream (reset, then each question copied as it is with its comment or null) applied to the mapping |
| FirstInit.MergeSource1 | first_init.py:60-73 | the source-1 loop applies the stream of all source-1 entries to the empty mapping |
| FirstInit.DecodeEntry | first_init.py:90-112 | the try/except around `json.loads` computes `Source2Stored` |
| FirstInit.MergeSource2Entry | first_init.py:77-112 | the merge of one source-2 entry is its stream (create if absent, one write per non-common key) applied to the mapping |
| FirstInit.MergeSource2 | first_init.py:76-112 | the source-2 loop applies the stream of all source-2 entries to the state source 1 left |
| FirstInit.MergeSource3Entry | first_init.py:116-135 | the merge of one source-3 entry is its stream (create if absent, one write per item, keyed by the item's id) applied to the mapping |
| FirstInit.MergeSource3 | first_init.py:115-135 | the source-3 loop applies the stream of all source-3 entries to the state source 2 left |
| FirstInit.DropId | first_init.py:155 | the comprehension keeps every field but `id`, in order |
| FirstInit.BuildInitDocuments | first_init.py:150-157 | the document loop builds, for each record in order, the document keyed by the respondent id |
| FirstInit.RunScript | first_init.py:40-157 | the script computes `Script`: the table, the three passes and the build, with the first exception |
| FirstInitFacts.Source1EntryFacts | first_init.py:61-73 | a source-1 entry's stream creates a record with the common keys and its own id, creates that id alone, each write has a question, and every write comes after that creation |
| FirstInitFacts.Source2EntryFacts | first_init.py:77-112 | a source-2 entry never resets; each write is a list of triples without a question, or has the label as question, never a common key, stored under the id the table gives the label; the entry creates its own id alone and writes only after that creation |
| FirstInitFacts.Source3EntryFacts | first_init.py:116-135 | a source-3 entry never resets, each write has a question, and the entry creates its own id alone and writes only after that creation |
| FirstInitFacts.Source1EntryWrites | first_init.py:60-73 | one source-1 entry's stream is the reset of its record to the entry's common fields followed, for the j-th question of `survey_data` in order, by one write under the question's own key of its `question`, `answer` and `comments` (each null when missing) |
| FirstInitFacts.Source2EntryWrites | first_init.py:76-112 | one source-2 entry's stream is the creation of its record if absent followed by exactly the writes for its non-common keys: each such key is written under the id the table gives the label (the label when it has none) with `Source2Stored` of the label, its value and `<label>_comments`, and every write is one of these |
| FirstInitFacts.Source3EntryWrites | first_init.py:114-135 | one source-3 entry's stream is the creation of its record if absent followed, for the j-th item of `survey_data["item"]` in order, by one write keyed by the item's own `id` with its `question`, its unwrapped `answer` and `comments` (null when missing) |
| FirstInitFacts.Source1Facts | first_init.py:60-73 | the source-1 pass creates the ids of its entries in order, all its operations are good, every write has a question and follows the creation of its respondent, and it contains every operation of every entry's stream |
| FirstInitFacts.Source2Facts | first_init.py:76-112 | the source-2 pass creates the ids of its entries in order, never resets, each write is a source-2 write and follows the creation of its respondent, and it contains every operation of every entry's stream |
| FirstInitFacts.Source3Facts | first_init.py:115-135 | the source-3 pass creates the ids of its entries in order, never resets, each write has a question and follows the creation of its respondent, and it contains every operation of every entry's stream |
| FirstInitFacts.QuestionIdMapPriority | first_init.py:43-54 | a text gets the id of its last source-1 occurrence; a text source 1 never uses gets the id of its first source-3 occurrence; any other text is absent |
| FirstInitFacts.InitDocumentsOf | first_init.py:150-157 | one document per record in order, keyed by the respondent id, with the record's survey data and its common fields without `id` |
| FirstInitFacts.DropIdOfCommon | first_init.py:155 | dropping `id` from the common fields leaves the ten other common keys, in order |
| FirstInitFacts.AllOpsFacts | first_init.py:57-135 | the successful merge is the three streams applied to the empty mapping; every operation is good; the ids are created in source order; every write follows the creation of its respondent |
| FirstInitFacts.FinalSurveyEntry | first_init.py:57-135 | in the merged mapping, `survey_data[q]` of respondent `k` is the entry of the last write to `(k, q)` over the three passes after the last source-1 reset of `k`, and absent when there is none |
| FirstInitFacts.Source3Decides | first_init.py:114-135 | when source 3 writes `(k, q)`, the merged record of `k` exists and its `survey_data[q]` is the last source-3 write to it, whatever sources 1 and 2 stored |
| FirstInitFacts.MergedCommons | first_init.py:61-64 | every merged record has exactly the common keys in its common fields |
| FirstInitFacts.DocumentsOfCommon | first_init.py:150-157 | for such records each document has exactly the ten common keys other than `id` |
| FirstInitFacts.ScriptDocuments | first_init.py:150-157 | a successful run is the document build over a successful merge |
| FirstInitFacts.DocumentsPerRespondent | first_init.py:150-157 | one document per distinct respondent id, keyed by it, in first-appearance order over sources 1, 2 and 3, each with the ten common fields other than `id` |
| FirstInitFacts.QuestionlessEntriesAreChoiceLists | first_init.py:93-99 | every stored entry without a `question` holds a list of triples |
| FirstInitFacts.CommonFieldsKept | first_init.py:117-121 | a respondent present after source 1 (or 2) still has exactly the common fields it had then |
| TestData.RequiredFieldsDistinct | test_data.py:8-11 | the thirteen required fields are pairwise distinct |
| TestData.Contains | test_data.py:13 | `key in v` raises exactly on null, booleans and numbers, and on a dict is key membership |
| TestData.FieldError | test_data.py:13-15 | on a dict, one error when the field is missing or "" and none otherwise; on anything else, at most a TypeError |
| TestData.FieldErrorsBounds | test_data.py:12-15 | on a dict the field loop completes, adds at most one error per field, and adds none exactly when every field is present and not "" |
| TestData.FieldErrorsCount | test_data.py:12-15 | on a dict and distinct fields, the field loop adds exactly the number of missing or empty fields |
| TestData.QuestionError | test_data.py:21-23 | on a dict, one error when `question` is missing or falsy and none otherwise |
| TestData.EntryErrors | test_data.py:21-40 | completes exactly on a dict, adding one error for each of question, answer and comments that fails its test, so at most three, and none exactly when question, answer (RANK: not a list of length other than 3; else null or string) and comments (null or string) pass; the fault on each kind of non-dict |
| TestData.SurveyErrorsCount | test_data.py:19-40 | the entry loop completes exactly when every entry is a dict, adds at most three errors per entry, and none exactly when every entry passes |
| TestData.ItemErrors | test_data.py:8-40 | a document that is not a dict raises TypeError |
| TestData.ItemErrorsFaults | test_data.py:18-19 | a dict without `survey_data` raises KeyError after the field loop; a non-dict `survey_data` raises AttributeError |
| TestData.ItemErrorsOfDict | test_data.py:8-40 | with a dict `survey_data`, the document's count is its field errors plus its entry errors |
| TestData.ItemErrorsZeroOfDict | test_data.py:8-40 | with a dict `survey_data`, the document adds nothing exactly when every required field is present and every entry passes |
| TestData.ItemErrorsZero | test_data.py:8-40 | a document adds no error and raises nothing exactly when it is valid |
| TestData.ErrorCount | test_data.py:5-40 | the total completes exactly when every document completes, and is zero exactly when every document adds nothing |
| TestData.ValidateExactly | test_data.py:42-43 | `validate_data` returns true exactly on a list of valid documents |
| TestData.ErrorCountAppend | test_data.py:6 | the count over two runs of documents is the sum of their counts, the first exception winning |
| TestData.CheckField | test_data.py:13-15 | one iteration of the field loop adds the field's error to the running count |
| TestData.CheckFields | test_data.py:12-15 | the field loop adds the field errors of the document to the running count |
| TestData.CheckEntry | test_data.py:21-40 | the checks of one entry add its errors to the running count |
| TestData.CheckSurvey | test_data.py:19-40 | the entry loop adds the errors of all entries to the running count |
| TestData.CheckItem | test_data.py:8-40 | the checks of one document add its errors to the running count |
| TestData.ValidateData | test_data.py:4-43 | the loop over the documents computes `Validate`: true exactly when the total is zero, or the first exception |

## Left out

- HTTP fetching and XML parsing are not modelled. This covers `fetch_data` (data_process.py:24-47) and the fetches in first_init.py:30-37 and test_data.py:45-52. Sources arrive as already-decoded values. The xmltodict quirk that turns a single `item` into a dict is still covered, because `for x in v` on a dict iterates its keys.
- The body of `json.loads` is not modelled. It is the `decode` parameter.
- Floating-point numbers, and Python's `1 == True` key identity, are not modelled. Numbers are integers, and booleans are distinct keys.
- Duplicate keys inside one decoded JSON object are not modelled; a lookup sees the first.
- Real ObjectId generation is not modelled. It is the `newIds` parameter. `ObjectId(k)` on bytes or on an ObjectId value is not modelled either; only strings parse.
- MongoDB clients and `insert_many` are not modelled, nor are environment variables (first_init.py:137-147, 159). This also covers everything in app.py and init_db.py, and is foreign I/O.
- The Flask routes, `serialize_document` and the `fcntl` lock in app.py, the `argparse` `main` of test_data.py and gunicorn_config.py are not modelled. They are web, process-locking, command-line and deployment glue.
- `print` output is not modelled. The validator's messages do not affect its result.
- Key order inside a survey entry dict (`question`/`answer`/`type`/`comments`) is not modelled. Entries are records with named fields. The order of respondents and of question ids is modelled.
- Answers.StrictTriples: the error case states that the fault is that of some failing element, not necessarily the first one.
- DataProcessFacts.Source1EntryFacts: states what every operation of the entry's stream satisfies, not which operations there are; the operations themselves, element by element, are stated by DataProcessFacts.Source1EntryWrites.
- DataProcessFacts.Source2EntryFacts: states what every source-2 write satisfies, not which writes there are; that there is exactly one write per non-common key, storing `Source2Answer` of its value, is stated by DataProcessFacts.Source2EntryWrites.
- DataProcessFacts.Source3EntryFacts: states what every source-3 write satisfies, not which writes there are; the write of each item, keyed by the item's id with the unwrapped answer, is stated by DataProcessFacts.Source3EntryWrites.
- DataProcessFacts.Source1Facts: states that the pass contains every operation of every entry's stream, not at which position; the effect of the order on the merged entries is stated by DataProcessFacts.FinalSurveyEntry.
- DataProcessFacts.Source2Facts: states that the pass contains every operation of every entry's stream, not at which position; the effect of the order is stated by DataProcessFacts.FinalSurveyEntry.
- DataProcessFacts.Source3Facts: states that the pass contains every operation of every entry's stream, not at which position; the effect of the order is stated by DataProcessFacts.FinalSurveyEntry and DataProcessFacts.Source3Decides.
- FirstInitFacts.Source1EntryFacts: states what every operation of the entry's stream satisfies, not which operations there are; those are stated element by element by FirstInitFacts.Source1EntryWrites.
- FirstInitFacts.Source2EntryFacts: states what every source-2 write satisfies; the key of every write, including those of questionless lists, and the stored `Source2Stored` entry are stated by FirstInitFacts.Source2EntryWrites.
- FirstInitFacts.Source3EntryFacts: states what every source-3 write satisfies, not which writes there are; those are stated element by element by FirstInitFacts.Source3EntryWrites.
- FirstInitFacts.Source1Facts: states that the pass contains every operation of every entry's stream, not at which position; the effect of the order is stated by FirstInitFacts.FinalSurveyEntry.
- FirstInitFacts.Source2Facts: states that the pass contains every operation of every entry's stream, not at which position; the effect of the order is stated by FirstInitFacts.FinalSurveyEntry.
- FirstInitFacts.Source3Facts: states that the pass contains every operation of every entry's stream, not at which position; the effect of the order is stated by FirstInitFacts.FinalSurveyEntry and FirstInitFacts.Source3Decides.
