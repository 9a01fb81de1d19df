/**
 The module-level script of first_init.py: the one-off initial load. It builds a map from
 question text to question id out of sources 1 and 3, merges the three sources into
 `combined_data` with entries that always carry a `comments` key, and turns every record into a
 document keyed by the respondent id with the `id` field dropped. As for the live variant, each
 pass is a specification function (its operation stream and first exception) and a method with
 the loops of the source, proved equal to it.
 */
module FirstInit {
  import opened Wrappers
  import opened OrderedDict
  import opened Json
  import opened Folds
  import opened Answers
  import opened Records

  /**
   A `survey_data` entry of the initial load. `comments` is always present (null when the source
   has none); `question` is absent only for a decoded source-2 list.
   */
  datatype InitEntry = InitEntry(question: Option<Value>, answer: Value, comments: Value)

  /** `{"_id": k, **{key: value for key, value in v.items() if key != "id"}}`. */
  datatype InitDocument = InitDocument(key: Value, fields: Dict<string, Value>, survey: Dict<Value, InitEntry>)

  /** `question_id_map`: question text to question id. */
  type QuestionIdMap = Dict<Value, Value>

  // ---------------------------------------------------------------- the question id map

  /** One question of a source-1 entry (first_init.py:44-46), as the pair it assigns. */
  function Source1IdPair(item: (string, Value)): Result<seq<(Value, Value)>> {
    var text :- Get(item.1, "question", Str(""));
    if !Hashable(text) then Err(TypeError) else Ok([(text, Str(item.0))])
  }

  function Source1IdPairsOfEntry(entry: Value): Result<seq<(Value, Value)>> {
    var sd :- Subscript(entry, "survey_data");
    var items :- Items(sd);
    FlatMap(items, Source1IdPair)
  }

  /** Every (text, id) assignment of the source-1 loop, in order. */
  function Source1IdPairs(dict1: Value): Result<seq<(Value, Value)>> {
    var entries :- Source1Entries(dict1);
    FlatMap(entries, Source1IdPairsOfEntry)
  }

  /**
   One survey item of a source-3 entry (first_init.py:51-54), as the pair it offers; the
   `not in` test hashes the text.
   */
  function Source3IdPair(item: Value): Result<seq<(Value, Value)>> {
    var text :- Get(item, "question", Str(""));
    var qid :- Subscript(item, "id");
    if !Hashable(text) then Err(TypeError) else Ok([(text, qid)])
  }

  function Source3IdPairsOfEntry(entry: Value): Result<seq<(Value, Value)>> {
    var sd :- Subscript(entry, "survey_data");
    var itemValue :- Subscript(sd, "item");
    var items :- Iterate(itemValue);
    FlatMap(items, Source3IdPair)
  }

  /** Every (text, id) pair the source-3 loop offers, in order. */
  function Source3IdPairs(dict3: Value): Result<seq<(Value, Value)>> {
    var entries :- Source3Entries(dict3);
    FlatMap(entries, Source3IdPairsOfEntry)
  }

  /** first_init.py:40-54: source 1 assigns unconditionally, source 3 only adds texts not yet present. */
  function QuestionIdMapOf(dict1: Value, dict3: Value): Result<QuestionIdMap> {
    var pairs1 :- Source1IdPairs(dict1);
    var pairs3 :- Source3IdPairs(dict3);
    Ok(PutAllIfAbsent(PutAll([], pairs1), pairs3))
  }

  /** `question_id_map.get(question, question)`. */
  function QuestionIdFor(qidmap: QuestionIdMap, text: string): Value {
    match Find(qidmap, Str(text))
    case Some(qid) => qid
    case None => Str(text)
  }

  // ---------------------------------------------------------------- source 1

  /** One question of a source-1 entry (first_init.py:66-73): copied as it is, no normalisation. */
  function Source1ItemOps(id: Value, item: (string, Value)): Result<seq<Op<InitEntry>>> {
    var question :- Get(item.1, "question", Null);
    var answer := Lookup(item.1.fields, "answer", Null);
    var comments := Lookup(item.1.fields, "comments", Null);
    Ok([Write(id, Str(item.0), InitEntry(Some(question), answer, comments))])
  }

  function Source1Step(id: Value): ((string, Value)) -> Result<seq<Op<InitEntry>>> {
    item => Source1ItemOps(id, item)
  }

  /** One source-1 entry (first_init.py:61-73): its record is reset, then its questions written. */
  function Source1EntryOps(entry: Value): Result<seq<Op<InitEntry>>> {
    var common :- ExtractCommonFields(entry);
    var id :- Subscript(entry, "id");
    if !Hashable(id) then Err(TypeError)
    else
      var sd :- Subscript(entry, "survey_data");
      var items :- Items(sd);
      var writes :- FlatMap(items, Source1Step(id));
      Ok([Reset(id, common)] + writes)
  }

  function Source1Ops(dict1: Value): Result<seq<Op<InitEntry>>> {
    var entries :- Source1Entries(dict1);
    FlatMap(entries, Source1EntryOps)
  }

  // ---------------------------------------------------------------- source 2

  /**
   The stored entry of a source-2 value (first_init.py:90-112). `json.loads` of anything but a
   string raises TypeError. A decoded list is rewritten strictly into triples and stored without a
   question; a decoded scalar or dict is stored with the label as question; a decode failure keeps
   the raw string. The comment is always stored.
   */
  function Source2Stored(text: string, answer: Value, comments: Value, decode: string -> Decoded): (r: Result<InitEntry>)
    ensures r.Ok? ==> answer.Str? && r.value.comments == comments
    ensures r.Ok? && r.value.question.Some? ==> r.value.question.value == Str(text)
    ensures answer.Str? && decode(answer.s).DecodeError? ==> r == Ok(InitEntry(Some(Str(text)), answer, comments))
    ensures answer.Str? && decode(answer.s).Parsed? && !decode(answer.s).value.List? ==>
      r == Ok(InitEntry(Some(Str(text)), decode(answer.s).value, comments))
    ensures answer.Str? && decode(answer.s).Parsed? && decode(answer.s).value.List? ==>
      (r.Ok? <==> forall i :: 0 <= i < |decode(answer.s).value.items| ==> HasTripleKeys(decode(answer.s).value.items[i])) &&
      (r.Ok? ==> r.value.question.None? && r.value.answer == NormaliseAnswer(decode(answer.s).value))
  {
    if !answer.Str? then Err(TypeError)
    else
      match decode(answer.s)
      case DecodeError => Ok(InitEntry(Some(Str(text)), answer, comments))
      case Parsed(v) =>
        if v.List? then
          var triples :- StrictTriples(v.items);
          Ok(InitEntry(None, List(triples), comments))
        else
          Ok(InitEntry(Some(Str(text)), v, comments))
  }

  /**
   One key of a source-2 entry (first_init.py:87-112); the common keys are skipped. The entry is
   built before the assignment hashes the question id.
   */
  function Source2ItemOps(id: Value, fields: Dict<string, Value>, qidmap: QuestionIdMap,
                          decode: string -> Decoded, item: (string, Value)): Result<seq<Op<InitEntry>>> {
    var (text, answer) := item;
    if text in CommonKeys then Ok([])
    else
      var qid := QuestionIdFor(qidmap, text);
      var e :- Source2Stored(text, answer, Lookup(fields, text + "_comments", Null), decode);
      if !Hashable(qid) then Err(TypeError) else Ok([Write(id, qid, e)])
  }

  function Source2Step(id: Value, fields: Dict<string, Value>, qidmap: QuestionIdMap,
                       decode: string -> Decoded): ((string, Value)) -> Result<seq<Op<InitEntry>>> {
    item => Source2ItemOps(id, fields, qidmap, decode, item)
  }

  /** One source-2 entry (first_init.py:77-112): its record is created if absent, then its keys written. */
  function Source2EntryOps(entry: Value, qidmap: QuestionIdMap, decode: string -> Decoded): Result<seq<Op<InitEntry>>> {
    var id :- Subscript(entry, "id");
    if !Hashable(id) then Err(TypeError)
    else
      var common := ExtractCommonFields(entry).value;
      var writes :- FlatMap(entry.fields, Source2Step(id, entry.fields, qidmap, decode));
      Ok([CreateIfAbsent(id, common)] + writes)
  }

  function Source2EntryStep(qidmap: QuestionIdMap, decode: string -> Decoded): Value -> Result<seq<Op<InitEntry>>> {
    entry => Source2EntryOps(entry, qidmap, decode)
  }

  function Source2Ops(dict2: Value, qidmap: QuestionIdMap, decode: string -> Decoded): Result<seq<Op<InitEntry>>> {
    var entries :- Source2Entries(dict2);
    FlatMap(entries, Source2EntryStep(qidmap, decode))
  }

  // ---------------------------------------------------------------- source 3

  /** One survey item of a source-3 entry (first_init.py:123-135). */
  function Source3ItemOps(id: Value, item: Value): Result<seq<Op<InitEntry>>> {
    var raw :- Get(item, "answer", Null);
    var answer := UnwrapItem(raw);
    var question :- Subscript(item, "question");
    var comments := Lookup(item.fields, "comments", Null);
    var qid :- Subscript(item, "id");
    if !Hashable(qid) then Err(TypeError)
    else Ok([Write(id, qid, InitEntry(Some(question), answer, comments))])
  }

  function Source3Step(id: Value): Value -> Result<seq<Op<InitEntry>>> {
    item => Source3ItemOps(id, item)
  }

  /** One source-3 entry (first_init.py:116-135). */
  function Source3EntryOps(entry: Value): Result<seq<Op<InitEntry>>> {
    var id :- Subscript(entry, "id");
    if !Hashable(id) then Err(TypeError)
    else
      var common := ExtractCommonFields(entry).value;
      var sd :- Subscript(entry, "survey_data");
      var itemValue :- Subscript(sd, "item");
      var items :- Iterate(itemValue);
      var writes :- FlatMap(items, Source3Step(id));
      Ok([CreateIfAbsent(id, common)] + writes)
  }

  function Source3Ops(dict3: Value): Result<seq<Op<InitEntry>>> {
    var entries :- Source3Entries(dict3);
    FlatMap(entries, Source3EntryOps)
  }

  // ---------------------------------------------------------------- documents

  function InitDocumentFor(k: Value, rec: Record<InitEntry>): InitDocument {
    InitDocument(k, Remove(rec.common, "id"), rec.survey)
  }

  /** `cleaned_data` (first_init.py:150-157): one document per record, in the order of `combined_data`. */
  function InitDocuments(c: Combined<InitEntry>): seq<InitDocument> {
    seq(|c|, i requires 0 <= i < |c| => InitDocumentFor(c[i].0, c[i].1))
  }

  /** The merge of the three sources (first_init.py:40-135). */
  function Merged(dict1: Value, dict2: Value, dict3: Value, decode: string -> Decoded): Result<Combined<InitEntry>> {
    var qidmap :- QuestionIdMapOf(dict1, dict3);
    var ops1 :- Source1Ops(dict1);
    var ops2 :- Source2Ops(dict2, qidmap, decode);
    var ops3 :- Source3Ops(dict3);
    Ok(ApplyAll([], ops1 + ops2 + ops3))
  }

  /** The documents the script inserts, or the first exception it raises. */
  function Script(dict1: Value, dict2: Value, dict3: Value, decode: string -> Decoded): Result<seq<InitDocument>> {
    var c :- Merged(dict1, dict2, dict3, decode);
    Ok(InitDocuments(c))
  }

  // ---------------------------------------------------------------- the loops

  /** The questions of one source-1 entry added to the map (first_init.py:44-46). */
  method AddSource1Ids(qidmap0: QuestionIdMap, entry: Value) returns (r: Result<QuestionIdMap>)
    ensures Source1IdPairsOfEntry(entry).Err? ==> r == Err(Source1IdPairsOfEntry(entry).fault)
    ensures Source1IdPairsOfEntry(entry).Ok? ==> r == Ok(PutAll(qidmap0, Source1IdPairsOfEntry(entry).value))
  {
    var surveyData :- Subscript(entry, "survey_data");
    var items :- Items(surveyData);
    var qidmap := qidmap0;
    ghost var pairs: seq<(Value, Value)> := [];
    for j := 0 to |items|
      invariant FlatMap(items[..j], Source1IdPair) == Ok(pairs)
      invariant qidmap == PutAll(qidmap0, pairs)
    {
      LoopStep(items, Source1IdPair, j);
      var (questionId, questionData) := items[j];
      var questionText :- Get(questionData, "question", Str(""));
      if !Hashable(questionText) {
        return Err(TypeError);
      }
      qidmap := Put(qidmap, questionText, Str(questionId));
      assert (pairs + [(questionText, Str(questionId))])[..|pairs|] == pairs;
      pairs := pairs + [(questionText, Str(questionId))];
    }
    assert items[..|items|] == items;
    return Ok(qidmap);
  }

  /** The survey items of one source-3 entry offered to the map (first_init.py:50-54). */
  method AddSource3Ids(qidmap0: QuestionIdMap, entry: Value) returns (r: Result<QuestionIdMap>)
    ensures Source3IdPairsOfEntry(entry).Err? ==> r == Err(Source3IdPairsOfEntry(entry).fault)
    ensures Source3IdPairsOfEntry(entry).Ok? ==> r == Ok(PutAllIfAbsent(qidmap0, Source3IdPairsOfEntry(entry).value))
  {
    var surveyData :- Subscript(entry, "survey_data");
    var itemValue :- Subscript(surveyData, "item");
    var items :- Iterate(itemValue);
    var qidmap := qidmap0;
    ghost var pairs: seq<(Value, Value)> := [];
    for j := 0 to |items|
      invariant FlatMap(items[..j], Source3IdPair) == Ok(pairs)
      invariant qidmap == PutAllIfAbsent(qidmap0, pairs)
    {
      LoopStep(items, Source3IdPair, j);
      var surveyItem := items[j];
      var questionText :- Get(surveyItem, "question", Str(""));
      var questionId :- Subscript(surveyItem, "id");
      if !Hashable(questionText) {
        return Err(TypeError);
      }
      if questionText !in Keys(qidmap) {
        qidmap := Put(qidmap, questionText, questionId);
      }
      assert (pairs + [(questionText, questionId)])[..|pairs|] == pairs;
      pairs := pairs + [(questionText, questionId)];
    }
    assert items[..|items|] == items;
    return Ok(qidmap);
  }

  /** first_init.py:40-54. */
  method BuildQuestionIdMap(dict1: Value, dict3: Value) returns (r: Result<QuestionIdMap>)
    ensures r == QuestionIdMapOf(dict1, dict3)
  {
    var data :- Subscript(dict1, "data");
    var entries :- Iterate(data);
    var qidmap: QuestionIdMap := [];
    ghost var pairs: seq<(Value, Value)> := [];
    for i := 0 to |entries|
      invariant FlatMap(entries[..i], Source1IdPairsOfEntry) == Ok(pairs)
      invariant qidmap == PutAll([], pairs)
    {
      LoopStep(entries, Source1IdPairsOfEntry, i);
      qidmap :- AddSource1Ids(qidmap, entries[i]);
      PutAllAppend([], pairs, Source1IdPairsOfEntry(entries[i]).value);
      pairs := pairs + Source1IdPairsOfEntry(entries[i]).value;
    }
    assert entries[..|entries|] == entries;
    ghost var base := qidmap;
    var answers :- Subscript(dict3, "survey_answer");
    var data3 :- Subscript(answers, "data");
    var itemValue :- Subscript(data3, "item");
    var entries3 :- Iterate(itemValue);
    ghost var pairs3: seq<(Value, Value)> := [];
    for i := 0 to |entries3|
      invariant FlatMap(entries3[..i], Source3IdPairsOfEntry) == Ok(pairs3)
      invariant qidmap == PutAllIfAbsent(base, pairs3)
    {
      LoopStep(entries3, Source3IdPairsOfEntry, i);
      qidmap :- AddSource3Ids(qidmap, entries3[i]);
      PutAllIfAbsentAppend(base, pairs3, Source3IdPairsOfEntry(entries3[i]).value);
      pairs3 := pairs3 + Source3IdPairsOfEntry(entries3[i]).value;
    }
    assert entries3[..|entries3|] == entries3;
    return Ok(qidmap);
  }

  /** One source-1 entry merged (first_init.py:61-73). */
  method MergeSource1Entry(c: Combined<InitEntry>, entry: Value) returns (r: Result<Combined<InitEntry>>)
    ensures r == Applied(c, Source1EntryOps(entry))
  {
    var common :- ExtractCommonFields(entry);
    var id :- Subscript(entry, "id");
    if !Hashable(id) {
      return Err(TypeError);
    }
    var combined := Put(c, id, Record(common, []));
    var surveyData :- Subscript(entry, "survey_data");
    var items :- Items(surveyData);
    ghost var writes: seq<Op<InitEntry>> := [];
    for j := 0 to |items|
      invariant FlatMap(items[..j], Source1Step(id)) == Ok(writes)
      invariant combined == ApplyAll(Apply(c, Reset(id, common)), writes)
    {
      LoopStep(items, Source1Step(id), j);
      var (questionId, questionData) := items[j];
      var question :- Get(questionData, "question", Null);
      var e := InitEntry(Some(question), Lookup(questionData.fields, "answer", Null),
                         Lookup(questionData.fields, "comments", Null));
      combined := SetEntry(combined, id, Str(questionId), e);
      ApplyAllSnoc(Apply(c, Reset(id, common)), writes, Write(id, Str(questionId), e));
      writes := writes + [Write(id, Str(questionId), e)];
    }
    assert items[..|items|] == items;
    EntryApplied(c, Reset(id, common), writes);
    return Ok(combined);
  }

  /** first_init.py:57-73, from the empty `combined_data`. */
  method MergeSource1(dict1: Value) returns (r: Result<Combined<InitEntry>>)
    ensures r == Applied([], Source1Ops(dict1))
  {
    var data :- Subscript(dict1, "data");
    var entries :- Iterate(data);
    var combined: Combined<InitEntry> := [];
    ghost var ops: seq<Op<InitEntry>> := [];
    for i := 0 to |entries|
      invariant FlatMap(entries[..i], Source1EntryOps) == Ok(ops)
      invariant combined == ApplyAll([], ops)
    {
      LoopStep(entries, Source1EntryOps, i);
      combined :- MergeSource1Entry(combined, entries[i]);
      ApplyAllAppend([], ops, Source1EntryOps(entries[i]).value);
      ops := ops + Source1EntryOps(entries[i]).value;
    }
    assert entries[..|entries|] == entries;
    return Ok(combined);
  }

  /** The try/except around `json.loads` (first_init.py:90-112). */
  method DecodeEntry(text: string, answer: Value, comments: Value, decode: string -> Decoded)
    returns (r: Result<InitEntry>)
    ensures r == Source2Stored(text, answer, comments, decode)
  {
    if !answer.Str? {
      return Err(TypeError);
    }
    match decode(answer.s)
    case DecodeError =>
      r := Ok(InitEntry(Some(Str(text)), answer, comments));
    case Parsed(answerData) =>
      if answerData.List? {
        var formatted :- StrictTriples(answerData.items);
        r := Ok(InitEntry(None, List(formatted), comments));
      } else {
        r := Ok(InitEntry(Some(Str(text)), answerData, comments));
      }
  }

  /** One source-2 entry merged (first_init.py:77-112). */
  method MergeSource2Entry(c: Combined<InitEntry>, entry: Value, qidmap: QuestionIdMap, decode: string -> Decoded)
    returns (r: Result<Combined<InitEntry>>)
    ensures r == Applied(c, Source2EntryOps(entry, qidmap, decode))
  {
    var id :- Subscript(entry, "id");
    if !Hashable(id) {
      return Err(TypeError);
    }
    var combined := c;
    ghost var create := CreateIfAbsent(id, ExtractCommonFields(entry).value);
    if id !in Keys(combined) {
      combined := Put(combined, id, Record(ExtractCommonFields(entry).value, []));
    }
    var items := entry.fields;
    ghost var step := Source2Step(id, entry.fields, qidmap, decode);
    ghost var writes: seq<Op<InitEntry>> := [];
    for j := 0 to |items|
      invariant FlatMap(items[..j], step) == Ok(writes)
      invariant combined == ApplyAll(Apply(c, create), writes)
    {
      LoopStep(items, step, j);
      var (question, answer) := items[j];
      if question !in CommonKeys {
        var questionId := QuestionIdFor(qidmap, question);
        var e :- DecodeEntry(question, answer, Lookup(entry.fields, question + "_comments", Null), decode);
        if !Hashable(questionId) {
          return Err(TypeError);
        }
        combined := SetEntry(combined, id, questionId, e);
        ApplyAllSnoc(Apply(c, create), writes, Write(id, questionId, e));
        writes := writes + [Write(id, questionId, e)];
      } else {
        assert writes + [] == writes;
      }
    }
    assert items[..|items|] == items;
    EntryApplied(c, create, writes);
    return Ok(combined);
  }

  /** first_init.py:76-112, from the state source 1 left. */
  method MergeSource2(c0: Combined<InitEntry>, dict2: Value, qidmap: QuestionIdMap, decode: string -> Decoded)
    returns (r: Result<Combined<InitEntry>>)
    ensures r == Applied(c0, Source2Ops(dict2, qidmap, decode))
  {
    var data :- Subscript(dict2, "data");
    var entries :- Iterate(data);
    var combined := c0;
    ghost var step := Source2EntryStep(qidmap, decode);
    ghost var ops: seq<Op<InitEntry>> := [];
    for i := 0 to |entries|
      invariant FlatMap(entries[..i], step) == Ok(ops)
      invariant combined == ApplyAll(c0, ops)
    {
      LoopStep(entries, step, i);
      combined :- MergeSource2Entry(combined, entries[i], qidmap, decode);
      ApplyAllAppend(c0, ops, step(entries[i]).value);
      ops := ops + step(entries[i]).value;
    }
    assert entries[..|entries|] == entries;
    return Ok(combined);
  }

  /** One source-3 entry merged (first_init.py:116-135). */
  method MergeSource3Entry(c: Combined<InitEntry>, entry: Value) returns (r: Result<Combined<InitEntry>>)
    ensures r == Applied(c, Source3EntryOps(entry))
  {
    var id :- Subscript(entry, "id");
    if !Hashable(id) {
      return Err(TypeError);
    }
    var combined := c;
    ghost var create := CreateIfAbsent(id, ExtractCommonFields(entry).value);
    if id !in Keys(combined) {
      combined := Put(combined, id, Record(ExtractCommonFields(entry).value, []));
    }
    var surveyData :- Subscript(entry, "survey_data");
    var surveyItems :- Subscript(surveyData, "item");
    var items :- Iterate(surveyItems);
    ghost var writes: seq<Op<InitEntry>> := [];
    for j := 0 to |items|
      invariant FlatMap(items[..j], Source3Step(id)) == Ok(writes)
      invariant combined == ApplyAll(Apply(c, create), writes)
    {
      LoopStep(items, Source3Step(id), j);
      var surveyItem := items[j];
      var answer :- Get(surveyItem, "answer", Null);
      if answer.Obj? {
        answer := Lookup(answer.fields, "item", answer);
      }
      var question :- Subscript(surveyItem, "question");
      var e := InitEntry(Some(question), answer, Lookup(surveyItem.fields, "comments", Null));
      var qid :- Subscript(surveyItem, "id");
      if !Hashable(qid) {
        return Err(TypeError);
      }
      combined := SetEntry(combined, id, qid, e);
      ApplyAllSnoc(Apply(c, create), writes, Write(id, qid, e));
      writes := writes + [Write(id, qid, e)];
    }
    assert items[..|items|] == items;
    EntryApplied(c, create, writes);
    return Ok(combined);
  }

  /** first_init.py:114-135, from the state source 2 left. */
  method MergeSource3(c0: Combined<InitEntry>, dict3: Value) returns (r: Result<Combined<InitEntry>>)
    ensures r == Applied(c0, Source3Ops(dict3))
  {
    var answers :- Subscript(dict3, "survey_answer");
    var data :- Subscript(answers, "data");
    var itemValue :- Subscript(data, "item");
    var entries :- Iterate(itemValue);
    var combined := c0;
    ghost var ops: seq<Op<InitEntry>> := [];
    for i := 0 to |entries|
      invariant FlatMap(entries[..i], Source3EntryOps) == Ok(ops)
      invariant combined == ApplyAll(c0, ops)
    {
      LoopStep(entries, Source3EntryOps, i);
      combined :- MergeSource3Entry(combined, entries[i]);
      ApplyAllAppend(c0, ops, Source3EntryOps(entries[i]).value);
      ops := ops + Source3EntryOps(entries[i]).value;
    }
    assert entries[..|entries|] == entries;
    return Ok(combined);
  }

  /** The `key != "id"` comprehension (first_init.py:155), as a loop over the record's fields. */
  method DropId(common: Dict<string, Value>) returns (fields: Dict<string, Value>)
    ensures fields == Remove(common, "id")
  {
    fields := [];
    var i := |common|;
    while i > 0
      invariant 0 <= i <= |common|
      invariant fields == Remove(common[i..], "id")
    {
      i := i - 1;
      assert common[i..][1..] == common[i + 1..];
      if common[i].0 != "id" {
        fields := [common[i]] + fields;
      }
    }
  }

  /** first_init.py:150-157. */
  method BuildInitDocuments(combined: Combined<InitEntry>) returns (cleaned: seq<InitDocument>)
    ensures cleaned == InitDocuments(combined)
  {
    cleaned := [];
    for i := 0 to |combined|
      invariant |cleaned| == i
      invariant forall n :: 0 <= n < i ==> cleaned[n] == InitDocumentFor(combined[n].0, combined[n].1)
    {
      var (k, v) := combined[i];
      var fields := DropId(v.common);
      cleaned := cleaned + [InitDocument(k, fields, v.survey)];
    }
  }

  /** The script from the three payloads to `cleaned_data`, in the order of the source. */
  method RunScript(dict1: Value, dict2: Value, dict3: Value, decode: string -> Decoded)
    returns (r: Result<seq<InitDocument>>)
    ensures r == Script(dict1, dict2, dict3, decode)
  {
    var qidmap :- BuildQuestionIdMap(dict1, dict3);
    var combined :- MergeSource1(dict1);
    combined :- MergeSource2(combined, dict2, qidmap, decode);
    combined :- MergeSource3(combined, dict3);
    ghost var ops1 := Source1Ops(dict1).value;
    ghost var ops2 := Source2Ops(dict2, qidmap, decode).value;
    ghost var ops3 := Source3Ops(dict3).value;
    ApplyAllAppend([], ops1, ops2);
    ApplyAllAppend([], ops1 + ops2, ops3);
    var cleaned := BuildInitDocuments(combined);
    return Ok(cleaned);
  }
}
