/**
 `validate_data` of test_data.py: a counting validator over stored documents. It counts one error
 per required field that is missing or "", one per survey entry whose question is missing or
 falsy, one per answer of the wrong shape for its type and one per comment that is neither null
 nor a string, and reports whether the count is zero. A document or survey entry of the wrong
 shape makes it raise instead.
 */
module TestData {
  import opened Wrappers
  import opened OrderedDict
  import opened Json
  import opened Folds

  /** The keys every document must carry, in the order they are checked. */
  const RequiredFields: seq<string> := ["_id", "contact_id", "country", "date_started", "date_submitted",
    "id", "ip_address", "language", "referer", "session_id", "status", "survey_data", "user_agent"]

  lemma RequiredFieldsDistinct()
    ensures Distinct(RequiredFields)
  {
  }

  /** `sub in s` for strings: `sub` occurs in `s` as a contiguous piece. */
  predicate HasSubstring(s: string, sub: string)
    decreases |s|
  {
    |sub| <= |s| && (s[..|sub|] == sub || HasSubstring(s[1..], sub))
  }

  /**
   `key in v`: a dict tests its keys, a list its elements, a string its substrings; anything
   else raises TypeError.
   */
  function Contains(v: Value, key: string): (r: Result<bool>)
    ensures r.Err? <==> v.Null? || v.Bool? || v.Num?
    ensures v.Obj? ==> r == Ok(key in Keys(v.fields))
  {
    match v
    case Obj(fields) => Ok(key in Keys(fields))
    case List(items) => Ok(Str(key) in items)
    case Str(s) => Ok(HasSubstring(s, key))
    case _ => Err(TypeError)
  }

  // ---------------------------------------------------------------- the required fields

  /** A required field that is present and not "". */
  predicate FieldPresent(fields: Dict<string, Value>, field: string) {
    field in Keys(fields) && Lookup(fields, field, Null) != Str("")
  }

  /** `if field not in item or item[field] == "": errors += 1`, as the 1 or 0 it adds. */
  function FieldError(item: Value, field: string): (r: Result<nat>)
    ensures item.Obj? ==> r == Ok(if FieldPresent(item.fields, field) then 0 else 1)
    ensures !item.Obj? ==> r.Err? ==> r == Err(TypeError)
  {
    FindIn(if item.Obj? then item.fields else [], field);
    var present :- Contains(item, field);
    if !present then Ok(1)
    else
      var value :- Subscript(item, field);
      Ok(if value == Str("") then 1 else 0)
  }

  /** Every field of `fs` is present and not "". */
  predicate FieldsPresent(fields: Dict<string, Value>, fs: seq<string>) {
    forall i :: 0 <= i < |fs| ==> FieldPresent(fields, fs[i])
  }

  /** The field check as a step of the field loop over `item`. */
  function FieldStep(item: Value): string -> Result<nat> {
    field => FieldError(item, field)
  }

  /** The errors the field loop adds for the fields `fs`, checked in order. */
  function FieldErrors(item: Value, fs: seq<string>): Result<nat> {
    Sum(fs, FieldStep(item))
  }

  /**
   On a dict the field loop completes, adds at most one error per field, and adds none exactly
   when every field is present and not ""; on anything else it can only raise TypeError.
   */
  lemma FieldErrorsBounds(item: Value, fs: seq<string>)
    ensures item.Obj? ==> FieldErrors(item, fs).Ok? && FieldErrors(item, fs).value <= |fs|
    ensures item.Obj? ==> (FieldErrors(item, fs).value == 0 <==> FieldsPresent(item.fields, fs))
    ensures !item.Obj? ==> FieldErrors(item, fs).Err? ==> FieldErrors(item, fs) == Err(TypeError)
  {
    SumOk(fs, FieldStep(item));
    SumFaultIs(fs, FieldStep(item), TypeError);
    if item.Obj? {
      SumBound(fs, FieldStep(item), 1);
      SumZero(fs, FieldStep(item));
    }
  }

  /** The failing fields among `fs`. */
  function MissingFields(fields: Dict<string, Value>, fs: seq<string>): set<string> {
    set f | f in fs && !FieldPresent(fields, f)
  }

  lemma MissingFieldsSnoc(fields: Dict<string, Value>, fs: seq<string>)
    requires fs != [] && fs[|fs| - 1] !in fs[..|fs| - 1]
    ensures var n := |fs| - 1;
      |MissingFields(fields, fs)| == |MissingFields(fields, fs[..n])| + if FieldPresent(fields, fs[n]) then 0 else 1
  {
    var n := |fs| - 1;
    forall f ensures f in fs <==> f in fs[..n] || f == fs[n] {
      if f in fs {
        var k :| 0 <= k < |fs| && fs[k] == f;
        if k < n {
          assert fs[..n][k] == f;
        }
      }
    }
    var extra: set<string> := if FieldPresent(fields, fs[n]) then {} else {fs[n]};
    assert MissingFields(fields, fs) == MissingFields(fields, fs[..n]) + extra;
    assert fs[n] !in MissingFields(fields, fs[..n]);
  }

  /** The last field of `fs` adds one error when it is missing or empty and none otherwise. */
  lemma FieldErrorsSnoc(item: Value, fs: seq<string>)
    requires item.Obj? && fs != []
    ensures var n := |fs| - 1;
      FieldErrors(item, fs).Ok? && FieldErrors(item, fs[..n]).Ok? &&
      FieldErrors(item, fs).value == FieldErrors(item, fs[..n]).value + if FieldPresent(item.fields, fs[n]) then 0 else 1
  {
    var n := |fs| - 1;
    FieldErrorsBounds(item, fs);
    FieldErrorsBounds(item, fs[..n]);
    assert Sum(fs, FieldStep(item)) == Plus(Sum(fs[..n], FieldStep(item)), FieldError(item, fs[n]));
  }

  /** Each missing or empty field adds exactly one error. */
  lemma {:induction false} FieldErrorsCount(item: Value, fs: seq<string>)
    requires item.Obj? && Distinct(fs)
    ensures FieldErrors(item, fs) == Ok(|MissingFields(item.fields, fs)|)
    decreases |fs|
  {
    var r := FieldErrors(item, fs);
    FieldErrorsBounds(item, fs);
    if fs != [] {
      DistinctInit(fs);
      FieldErrorsCount(item, fs[..|fs| - 1]);
      FieldErrorsSnoc(item, fs);
      MissingFieldsSnoc(item.fields, fs);
    }
    assert r.value == |MissingFields(item.fields, fs)|;
    assert r == Ok(r.value);
  }

  // ---------------------------------------------------------------- the survey entries

  /** `type == "RANK"`. */
  predicate IsRank(fields: Dict<string, Value>) {
    Lookup(fields, "type", Null) == Str("RANK")
  }

  /** The question is present and truthy. */
  predicate QuestionOk(fields: Dict<string, Value>) {
    "question" in Keys(fields) && Truthy(Lookup(fields, "question", Null))
  }

  /** A RANK answer is anything but a list whose length is not 3; any other answer is null or a string. */
  predicate AnswerOk(fields: Dict<string, Value>) {
    var answer := Lookup(fields, "answer", Null);
    if IsRank(fields) then !(answer.List? && |answer.items| != 3) else answer.Null? || answer.Str?
  }

  /** A comment is null (or absent) or a string. */
  predicate CommentsOk(fields: Dict<string, Value>) {
    var comments := Lookup(fields, "comments", Null);
    comments.Null? || comments.Str?
  }

  /** A survey entry that passes: a dict whose question, answer and comments all pass. */
  predicate EntryValid(qd: Value) {
    qd.Obj? && QuestionOk(qd.fields) && AnswerOk(qd.fields) && CommentsOk(qd.fields)
  }

  /** `if 'question' not in question_data or not question_data['question']: errors += 1`. */
  function QuestionError(qd: Value): (r: Result<nat>)
    ensures qd.Obj? ==> r == Ok(if QuestionOk(qd.fields) then 0 else 1)
  {
    FindIn(if qd.Obj? then qd.fields else [], "question");
    var present :- Contains(qd, "question");
    if !present then Ok(1)
    else
      var question :- Subscript(qd, "question");
      Ok(if Truthy(question) then 0 else 1)
  }

  /**
   The errors one survey entry adds (test_data.py:21-40). Only a dict gets through: anything else
   raises, TypeError where the question test cannot be made (null, booleans, numbers, or a list or
   string that contains "question") and AttributeError on `.get` otherwise.
   */
  function EntryErrors(qd: Value): (r: Result<nat>)
    ensures r.Ok? <==> qd.Obj?
    ensures r.Ok? ==> r.value <= 3
    ensures qd.Obj? ==>
      (r.Ok? && r.value ==
       (if QuestionOk(qd.fields) then 0 else 1) + (if AnswerOk(qd.fields) then 0 else 1) + (if CommentsOk(qd.fields) then 0 else 1))
    ensures r == Ok(0) <==> EntryValid(qd)
    ensures qd.List? ==> r == Err(if Str("question") in qd.items then TypeError else AttributeError)
    ensures qd.Str? ==> r == Err(if HasSubstring(qd.s, "question") then TypeError else AttributeError)
    ensures qd.Null? || qd.Bool? || qd.Num? ==> r == Err(TypeError)
  {
    var questionError :- QuestionError(qd);
    var answer :- Get(qd, "answer", Null);
    var qtype := Lookup(qd.fields, "type", Null);
    var answerError := if qtype == Str("RANK") then (if answer != Null && answer.List? && |answer.items| != 3 then 1 else 0)
                       else (if answer != Null && !answer.Str? then 1 else 0);
    var comments := Lookup(qd.fields, "comments", Null);
    var commentError := if comments != Null && !comments.Str? then 1 else 0;
    Ok(questionError + answerError + commentError)
  }

  /** The entry checks as a step of the loop over the items of `survey_data`. */
  function EntryStep(entry: (string, Value)): Result<nat> {
    EntryErrors(entry.1)
  }

  /** Every entry of a `survey_data` passes. */
  predicate SurveyValid(entries: Dict<string, Value>) {
    forall i :: 0 <= i < |entries| ==> EntryValid(entries[i].1)
  }

  /** The errors of the entries of one `survey_data`, or the first exception. */
  function SurveyErrors(entries: Dict<string, Value>): Result<nat> {
    Sum(entries, EntryStep)
  }

  /**
   The entry loop completes exactly when every entry is a dict, adds at most three errors per
   entry, and adds none exactly when every entry passes all three checks.
   */
  lemma SurveyErrorsCount(entries: Dict<string, Value>)
    ensures SurveyErrors(entries).Ok? <==> forall i :: 0 <= i < |entries| ==> entries[i].1.Obj?
    ensures SurveyErrors(entries).Ok? ==> SurveyErrors(entries).value <= 3 * |entries|
    ensures SurveyErrors(entries).Ok? ==>
      (SurveyErrors(entries).value == 0 <==> SurveyValid(entries))
  {
    SumOk(entries, EntryStep);
    if Sum(entries, EntryStep).Ok? {
      SumBound(entries, EntryStep, 3);
      SumZero(entries, EntryStep);
    }
  }

  // ---------------------------------------------------------------- the documents

  /** A document that passes: every check holds and nothing raises. */
  predicate ItemValid(item: Value) {
    item.Obj? && FieldsPresent(item.fields, RequiredFields) &&
    var sd := Lookup(item.fields, "survey_data", Null);
    sd.Obj? && SurveyValid(sd.fields)
  }

  /**
   The errors one document adds (test_data.py:8-40): its field errors, then those of the entries
   of its `survey_data`. Anything but a dict raises TypeError.
   */
  function ItemErrors(item: Value): (r: Result<nat>)
    ensures !item.Obj? ==> r == Err(TypeError)
  {
    FieldErrorsBounds(item, RequiredFields);
    var fieldErrors :- FieldErrors(item, RequiredFields);
    var surveyData :- Subscript(item, "survey_data");
    var entries :- Items(surveyData);
    var surveyErrors :- SurveyErrors(entries);
    Ok(fieldErrors + surveyErrors)
  }

  /**
   A dict without `survey_data` raises KeyError once its field errors are counted; a
   `survey_data` that is not a dict raises AttributeError on `.items()`.
   */
  lemma ItemErrorsFaults(item: Value)
    requires item.Obj?
    ensures "survey_data" !in Keys(item.fields) ==> ItemErrors(item) == Err(KeyError)
    ensures "survey_data" in Keys(item.fields) && !Lookup(item.fields, "survey_data", Null).Obj? ==>
      ItemErrors(item) == Err(AttributeError)
  {
    FieldErrorsBounds(item, RequiredFields);
    FindIn(item.fields, "survey_data");
  }

  /** A dict document with a dict `survey_data` counts its field errors, then its entry errors. */
  lemma ItemErrorsOfDict(item: Value, sd: Value)
    requires item.Obj? && Find(item.fields, "survey_data") == Some(sd) && sd.Obj?
    ensures ItemErrors(item) == Plus(FieldErrors(item, RequiredFields), SurveyErrors(sd.fields))
  {
    FieldErrorsBounds(item, RequiredFields);
    var r, fe, se := ItemErrors(item), FieldErrors(item, RequiredFields), SurveyErrors(sd.fields);
    assert fe.Ok?;
    assert r.Ok? <==> se.Ok?;
    if r.Ok? {
      assert r.value == fe.value + se.value;
      assert r == Ok(r.value);
    } else {
      assert r == se;
    }
  }

  /** The zero count of a dict document with a dict `survey_data` is its validity. */
  lemma ItemErrorsZeroOfDict(item: Value, sd: Value)
    requires item.Obj? && Find(item.fields, "survey_data") == Some(sd) && sd.Obj?
    ensures ItemErrors(item) == Ok(0) <==> FieldsPresent(item.fields, RequiredFields) && SurveyValid(sd.fields)
  {
    var r, fe, se := ItemErrors(item), FieldErrors(item, RequiredFields), SurveyErrors(sd.fields);
    ItemErrorsOfDict(item, sd);
    FieldErrorsBounds(item, RequiredFields);
    SurveyErrorsCount(sd.fields);
    if r == Ok(0) {
      assert fe.value == 0 && se.Ok? && se.value == 0;
    }
    if FieldsPresent(item.fields, RequiredFields) && SurveyValid(sd.fields) {
      assert r.Ok? && r.value == 0;
      assert r == Ok(r.value);
    }
  }

  /** A document adds no error, and raises nothing, exactly when it is valid. */
  lemma ItemErrorsZero(item: Value)
    ensures ItemErrors(item) == Ok(0) <==> ItemValid(item)
  {
    if item.Obj? {
      ItemErrorsFaults(item);
      FindIn(item.fields, "survey_data");
      var sd := Lookup(item.fields, "survey_data", Null);
      if "survey_data" in Keys(item.fields) && sd.Obj? {
        ItemErrorsZeroOfDict(item, sd);
      }
    }
  }

  /** The total over the documents, or the first exception. */
  function ErrorCount(data: seq<Value>): (r: Result<nat>)
    ensures r.Ok? <==> forall i :: 0 <= i < |data| ==> ItemErrors(data[i]).Ok?
    ensures r.Ok? ==> (r.value == 0 <==> forall i :: 0 <= i < |data| ==> ItemErrors(data[i]) == Ok(0))
  {
    SumOk(data, ItemErrors);
    if Sum(data, ItemErrors).Ok? then
      SumZero(data, ItemErrors);
      Sum(data, ItemErrors)
    else
      Sum(data, ItemErrors)
  }

  /** `validate_data(data)`: true exactly when no error was counted. */
  function Validate(data: seq<Value>): Result<bool> {
    var errors :- ErrorCount(data);
    Ok(errors == 0)
  }

  /** The validator accepts exactly the lists of valid documents, and otherwise reports false or raises. */
  lemma ValidateExactly(data: seq<Value>)
    ensures Validate(data) == Ok(true) <==> forall i :: 0 <= i < |data| ==> ItemValid(data[i])
  {
    forall i | 0 <= i < |data| ensures ItemErrors(data[i]) == Ok(0) <==> ItemValid(data[i]) {
      ItemErrorsZero(data[i]);
    }
  }

  /** The count of two runs of documents is the sum of their counts; the first exception wins. */
  lemma ErrorCountAppend(xs: seq<Value>, ys: seq<Value>)
    ensures ErrorCount(xs + ys) == Plus(ErrorCount(xs), ErrorCount(ys))
  {
    SumAppend(xs, ys, ItemErrors);
  }

  // ---------------------------------------------------------------- the loops

  /** One iteration of the field loop (test_data.py:13-15), adding to the running count. */
  method CheckField(item: Value, field: string, errors0: nat) returns (r: Result<nat>)
    ensures r == Plus(Ok(errors0), FieldError(item, field))
  {
    var errors := errors0;
    var present :- Contains(item, field);
    if !present {
      errors := errors + 1;
    } else {
      var value :- Subscript(item, field);
      if value == Str("") {
        errors := errors + 1;
      }
    }
    return Ok(errors);
  }

  /** The field loop of one document (test_data.py:12-15), adding to the running count. */
  method CheckFields(item: Value, errors0: nat) returns (r: Result<nat>)
    ensures r == Plus(Ok(errors0), FieldErrors(item, RequiredFields))
  {
    var errors := errors0;
    for j := 0 to |RequiredFields|
      invariant errors >= errors0
      invariant Sum(RequiredFields[..j], FieldStep(item)).Ok?
      invariant Sum(RequiredFields[..j], FieldStep(item)).value == errors - errors0
    {
      SumLoopStep(RequiredFields, FieldStep(item), j);
      errors :- CheckField(item, RequiredFields[j], errors);
    }
    assert RequiredFields[..|RequiredFields|] == RequiredFields;
    return Ok(errors);
  }

  /** The checks of one survey entry (test_data.py:21-40), adding to the running count. */
  method CheckEntry(questionData: Value, errors0: nat) returns (r: Result<nat>)
    ensures r == Plus(Ok(errors0), EntryErrors(questionData))
  {
    var errors := errors0;
    var present :- Contains(questionData, "question");
    if !present {
      errors := errors + 1;
    } else {
      var question :- Subscript(questionData, "question");
      if !Truthy(question) {
        errors := errors + 1;
      }
    }
    var answer :- Get(questionData, "answer", Null);
    var qtype := Lookup(questionData.fields, "type", Null);
    if qtype == Str("RANK") {
      if answer != Null && answer.List? && |answer.items| != 3 {
        errors := errors + 1;
      }
    } else {
      if answer != Null && !answer.Str? {
        errors := errors + 1;
      }
    }
    var comments := Lookup(questionData.fields, "comments", Null);
    if comments != Null && !comments.Str? {
      errors := errors + 1;
    }
    return Ok(errors);
  }

  /** The loop over the items of one `survey_data` (test_data.py:19-40), adding to the running count. */
  method CheckSurvey(entries: Dict<string, Value>, errors0: nat) returns (r: Result<nat>)
    ensures r == Plus(Ok(errors0), SurveyErrors(entries))
  {
    var errors := errors0;
    for j := 0 to |entries|
      invariant errors >= errors0
      invariant Sum(entries[..j], EntryStep).Ok?
      invariant Sum(entries[..j], EntryStep).value == errors - errors0
    {
      SumLoopStep(entries, EntryStep, j);
      var (questionId, questionData) := entries[j];
      errors :- CheckEntry(questionData, errors);
    }
    assert entries[..|entries|] == entries;
    return Ok(errors);
  }

  /** The checks of one document (test_data.py:8-40), adding to the running count. */
  method CheckItem(item: Value, errors0: nat) returns (r: Result<nat>)
    ensures r == Plus(Ok(errors0), ItemErrors(item))
  {
    FindIn(if item.Obj? then item.fields else [], "survey_data");
    var errors :- CheckFields(item, errors0);
    var surveyData :- Subscript(item, "survey_data");
    var entries :- Items(surveyData);
    r := CheckSurvey(entries, errors);
  }

  /** test_data.py:4-43: the running count over the documents, and whether it stayed zero. */
  method ValidateData(data: seq<Value>) returns (r: Result<bool>)
    ensures r == Validate(data)
  {
    var errors := 0;
    for i := 0 to |data|
      invariant Sum(data[..i], ItemErrors).Ok?
      invariant Sum(data[..i], ItemErrors).value == errors
    {
      SumLoopStep(data, ItemErrors, i);
      errors :- CheckItem(data[i], errors);
    }
    assert data[..|data|] == data;
    return Ok(errors == 0);
  }
}
