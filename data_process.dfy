/**
 `process_and_save_data` of data_process.py: the live reconciliation. It builds a question table
 from source 1, merges the three sources into `combined_data` and flattens it into storage
 documents. Each pass is given twice: as a specification function (the operation stream the pass
 feeds into the merge, with the first exception it raises) and as the method with the loops of the
 source, proved equal to it.
 */
module DataProcess {
  import opened Wrappers
  import opened OrderedDict
  import opened Json
  import opened Folds
  import opened ObjectIds
  import opened Answers
  import opened Records

  /** `question_map[text] = {"id": question_id, "type": type}`. */
  datatype QuestionInfo = QuestionInfo(id: string, qtype: Value)

  type QuestionMap = Dict<Value, QuestionInfo>

  /** A `survey_data` entry: question, answer and type, and `comments` only when present. */
  datatype Entry = Entry(question: Value, answer: Value, qtype: Value, comments: Option<Value>)

  /** A storage document: `{"_id": ..., "id": ..., **record}`. */
  datatype Document = Document(oid: ObjectId, id: Value, record: Record<Entry>)

  // ---------------------------------------------------------------- the question table

  /** One question of a source-1 entry (data_process.py:58-62), as the pair it assigns. */
  function QuestionPair(item: (string, Value)): Result<seq<(Value, QuestionInfo)>> {
    var text :- Get(item.1, "question", Str(""));
    var qtype := Lookup(item.1.fields, "type", Null);
    if !Hashable(text) then Err(TypeError) else Ok([(text, QuestionInfo(item.0, qtype))])
  }

  function QuestionPairsOfEntry(entry: Value): Result<seq<(Value, QuestionInfo)>> {
    var sd :- Subscript(entry, "survey_data");
    var items :- Items(sd);
    FlatMap(items, QuestionPair)
  }

  /** Every (text, info) assignment of the table loop, in order. */
  function QuestionPairs(dict1: Value): Result<seq<(Value, QuestionInfo)>> {
    var entries :- Source1Entries(dict1);
    FlatMap(entries, QuestionPairsOfEntry)
  }

  function QuestionMapOf(dict1: Value): Result<QuestionMap> {
    var pairs :- QuestionPairs(dict1);
    Ok(PutAll([], pairs))
  }

  /** `question_map.get(text, {}).get("id", text)`. */
  function QuestionIdOf(qmap: QuestionMap, text: string): Value {
    match Find(qmap, Str(text))
    case Some(info) => Str(info.id)
    case None => Str(text)
  }

  /** `question_map.get(text, {}).get("type", None)`. */
  function QuestionTypeOf(qmap: QuestionMap, text: Value): Value {
    match Find(qmap, text)
    case Some(info) => info.qtype
    case None => Null
  }

  // ---------------------------------------------------------------- source 1

  /** One question of a source-1 entry (data_process.py:74-104). */
  function Source1ItemOps(id: Value, item: (string, Value)): Result<seq<Op<Entry>>> {
    var question :- Get(item.1, "question", Null);
    var answer := Lookup(item.1.fields, "answer", Null);
    var qtype := Lookup(item.1.fields, "type", Null);
    var comments := Lookup(item.1.fields, "comments", Str(""));
    Ok([Write(id, Str(item.0), Entry(question, NormaliseAnswer(answer), qtype, KeepComment(comments)))])
  }

  function Source1Step(id: Value): ((string, Value)) -> Result<seq<Op<Entry>>> {
    item => Source1ItemOps(id, item)
  }

  /** One source-1 entry (data_process.py:69-104): its record is reset, then its questions written. */
  function Source1EntryOps(entry: Value): Result<seq<Op<Entry>>> {
    var common :- ExtractCommonFields(entry);
    var id :- Subscript(entry, "id");
    if !Hashable(id) then Err(TypeError)
    else
      var sd :- Subscript(entry, "survey_data");
      var items :- Items(sd);
      var writes :- FlatMap(items, Source1Step(id));
      Ok([Reset(id, common)] + writes)
  }

  function Source1Ops(dict1: Value): Result<seq<Op<Entry>>> {
    var entries :- Source1Entries(dict1);
    FlatMap(entries, Source1EntryOps)
  }

  // ---------------------------------------------------------------- source 2

  /**
   The stored answer of a source-2 value (data_process.py:122-142): `json.loads` of it; a decoded
   list is rewritten strictly into triples; a decode failure keeps the raw string, "" becoming
   null. `json.loads` of anything but a string raises TypeError, which is not caught.
   */
  function Source2Answer(answer: Value, decode: string -> Decoded): (r: Result<Value>)
    ensures r.Ok? ==> answer.Str?
    ensures answer.Str? && decode(answer.s).DecodeError? ==>
      r.Ok? && (r.value == Null <==> answer.s == "") && (r.value != Null ==> r.value == answer)
    ensures answer.Str? && decode(answer.s).Parsed? && decode(answer.s).value.List? ==>
      (r.Ok? <==> forall i :: 0 <= i < |decode(answer.s).value.items| ==> HasTripleKeys(decode(answer.s).value.items[i])) &&
      (r.Ok? ==> r.value == NormaliseAnswer(decode(answer.s).value))
  {
    if !answer.Str? then Err(TypeError)
    else
      match decode(answer.s)
      case DecodeError => Ok(if answer.s == "" then Null else answer)
      case Parsed(v) =>
        if v.List? then
          var triples :- StrictTriples(v.items);
          Ok(List(triples))
        else
          Ok(v)
  }

  /** One key of a source-2 entry (data_process.py:116-147); the common keys are skipped. */
  function Source2ItemOps(id: Value, fields: Dict<string, Value>, qmap: QuestionMap,
                          decode: string -> Decoded, item: (string, Value)): Result<seq<Op<Entry>>> {
    var (text, answer) := item;
    if text in CommonKeys then Ok([])
    else
      var stored :- Source2Answer(answer, decode);
      var comments := Lookup(fields, text + "_comments", Str(""));
      Ok([Write(id, QuestionIdOf(qmap, text),
                Entry(Str(text), stored, QuestionTypeOf(qmap, Str(text)), KeepComment(comments)))])
  }

  function Source2Step(id: Value, fields: Dict<string, Value>, qmap: QuestionMap,
                       decode: string -> Decoded): ((string, Value)) -> Result<seq<Op<Entry>>> {
    item => Source2ItemOps(id, fields, qmap, decode, item)
  }

  /** One source-2 entry (data_process.py:108-147): its record is created if absent, then its keys written. */
  function Source2EntryOps(entry: Value, qmap: QuestionMap, decode: string -> Decoded): Result<seq<Op<Entry>>> {
    var id :- Subscript(entry, "id");
    if !Hashable(id) then Err(TypeError)
    else
      var common := ExtractCommonFields(entry).value;
      var writes :- FlatMap(entry.fields, Source2Step(id, entry.fields, qmap, decode));
      Ok([CreateIfAbsent(id, common)] + writes)
  }

  function Source2EntryStep(qmap: QuestionMap, decode: string -> Decoded): Value -> Result<seq<Op<Entry>>> {
    entry => Source2EntryOps(entry, qmap, decode)
  }

  function Source2Ops(dict2: Value, qmap: QuestionMap, decode: string -> Decoded): Result<seq<Op<Entry>>> {
    var entries :- Source2Entries(dict2);
    FlatMap(entries, Source2EntryStep(qmap, decode))
  }

  // ---------------------------------------------------------------- source 3

  /** One survey item of a source-3 entry (data_process.py:159-176). */
  function Source3ItemOps(id: Value, qmap: QuestionMap, item: Value): Result<seq<Op<Entry>>> {
    var raw :- Get(item, "answer", Null);
    var answer := UnwrapItem(raw);
    var question :- Subscript(item, "question");
    if !Hashable(question) then Err(TypeError)
    else
      var qtype := QuestionTypeOf(qmap, question);
      var comments := Lookup(item.fields, "comments", Str(""));
      var qid :- Subscript(item, "id");
      if !Hashable(qid) then Err(TypeError)
      else Ok([Write(id, qid, Entry(question, answer, qtype, KeepComment(comments)))])
  }

  function Source3Step(id: Value, qmap: QuestionMap): Value -> Result<seq<Op<Entry>>> {
    item => Source3ItemOps(id, qmap, item)
  }

  /** One source-3 entry (data_process.py:152-176). */
  function Source3EntryOps(entry: Value, qmap: QuestionMap): Result<seq<Op<Entry>>> {
    var id :- Subscript(entry, "id");
    if !Hashable(id) then Err(TypeError)
    else
      var common := ExtractCommonFields(entry).value;
      var sd :- Subscript(entry, "survey_data");
      var itemValue :- Subscript(sd, "item");
      var items :- Iterate(itemValue);
      var writes :- FlatMap(items, Source3Step(id, qmap));
      Ok([CreateIfAbsent(id, common)] + writes)
  }

  function Source3EntryStep(qmap: QuestionMap): Value -> Result<seq<Op<Entry>>> {
    entry => Source3EntryOps(entry, qmap)
  }

  // ---------------------------------------------------------------- documents

  /**
   `{"_id": ObjectId(k) or a newly generated id, "id": k, **v}`: the `**v` spread rebinds "id" to the
   record's own common id field when it has one.
   */
  function DocumentFor(k: Value, rec: Record<Entry>, newId: ObjectId): Document {
    Document(ParseOr(k, newId), Lookup(rec.common, "id", k), rec)
  }

  /** The documents of `combined_data`, in its order; the i-th new id goes to the i-th document. */
  function Documents(c: Combined<Entry>, newIds: nat -> ObjectId): seq<Document> {
    seq(|c|, i requires 0 <= i < |c| => DocumentFor(c[i].0, c[i].1, newIds(i)))
  }

  /** The merge of the three sources, and the number of source-3 entries. */
  function Reconcile(dict1: Value, dict2: Value, dict3: Value, decode: string -> Decoded): Result<(Combined<Entry>, nat)> {
    var qmap :- QuestionMapOf(dict1);
    var ops1 :- Source1Ops(dict1);
    var ops2 :- Source2Ops(dict2, qmap, decode);
    var entries3 :- Source3Entries(dict3);
    var ops3 :- FlatMap(entries3, Source3EntryStep(qmap));
    Ok((ApplyAll([], ops1 + ops2 + ops3), |entries3|))
  }

  /**
   `process_and_save_data(dict_1, dict_2, dict_3)`. The documents are built inside the source-3
   loop, so without a source-3 entry `cleaned_data` is never bound and the return raises.
   */
  function Process(dict1: Value, dict2: Value, dict3: Value, decode: string -> Decoded,
                   newIds: nat -> ObjectId): Result<seq<Document>> {
    var merged :- Reconcile(dict1, dict2, dict3, decode);
    if merged.1 == 0 then Err(UnboundLocalError) else Ok(Documents(merged.0, newIds))
  }

  /** The source-3 loop from a given merge state, with the document build inside it. */
  function Source3AndBuild(c0: Combined<Entry>, dict3: Value, qmap: QuestionMap,
                           newIds: nat -> ObjectId): Result<seq<Document>> {
    var entries :- Source3Entries(dict3);
    var ops :- FlatMap(entries, Source3EntryStep(qmap));
    if entries == [] then Err(UnboundLocalError) else Ok(Documents(ApplyAll(c0, ops), newIds))
  }

  // ---------------------------------------------------------------- the loops

  /** The questions of one source-1 entry added to the table (data_process.py:57-62). */
  method AddQuestions(questionMap0: QuestionMap, entry: Value) returns (r: Result<QuestionMap>)
    ensures QuestionPairsOfEntry(entry).Err? ==> r == Err(QuestionPairsOfEntry(entry).fault)
    ensures QuestionPairsOfEntry(entry).Ok? ==> r == Ok(PutAll(questionMap0, QuestionPairsOfEntry(entry).value))
  {
    var surveyData :- Subscript(entry, "survey_data");
    var items :- Items(surveyData);
    var questionMap := questionMap0;
    ghost var pairs: seq<(Value, QuestionInfo)> := [];
    for j := 0 to |items|
      invariant FlatMap(items[..j], QuestionPair) == Ok(pairs)
      invariant questionMap == PutAll(questionMap0, pairs)
    {
      LoopStep(items, QuestionPair, j);
      var (questionId, questionData) := items[j];
      var questionText :- Get(questionData, "question", Str(""));
      var info := QuestionInfo(questionId, Lookup(questionData.fields, "type", Null));
      if !Hashable(questionText) {
        return Err(TypeError);
      }
      questionMap := Put(questionMap, questionText, info);
      assert (pairs + [(questionText, info)])[..|pairs|] == pairs;
      pairs := pairs + [(questionText, info)];
    }
    assert items[..|items|] == items;
    return Ok(questionMap);
  }

  /** data_process.py:53-62. */
  method BuildQuestionMap(dict1: Value) returns (r: Result<QuestionMap>)
    ensures r == QuestionMapOf(dict1)
  {
    var data :- Subscript(dict1, "data");
    var entries :- Iterate(data);
    var questionMap: QuestionMap := [];
    ghost var pairs: seq<(Value, QuestionInfo)> := [];
    for i := 0 to |entries|
      invariant FlatMap(entries[..i], QuestionPairsOfEntry) == Ok(pairs)
      invariant questionMap == PutAll([], pairs)
    {
      LoopStep(entries, QuestionPairsOfEntry, i);
      questionMap :- AddQuestions(questionMap, entries[i]);
      PutAllAppend([], pairs, QuestionPairsOfEntry(entries[i]).value);
      pairs := pairs + QuestionPairsOfEntry(entries[i]).value;
    }
    assert entries[..|entries|] == entries;
    return Ok(questionMap);
  }

  /** One source-1 entry merged (data_process.py:69-104). */
  method MergeSource1Entry(c: Combined<Entry>, entry: Value) returns (r: Result<Combined<Entry>>)
    ensures r == Applied(c, Source1EntryOps(entry))
  {
    var common :- ExtractCommonFields(entry);
    var id :- Subscript(entry, "id");
    if !Hashable(id) {
      return Err(TypeError);
    }
    var combined := Put(c, id, Record(common, []));
    var surveyData :- Subscript(entry, "survey_data");
    var items :- Items(surveyData);
    ghost var writes: seq<Op<Entry>> := [];
    for j := 0 to |items|
      invariant FlatMap(items[..j], Source1Step(id)) == Ok(writes)
      invariant combined == ApplyAll(Apply(c, Reset(id, common)), writes)
    {
      LoopStep(items, Source1Step(id), j);
      var (questionId, questionData) := items[j];
      var question :- Get(questionData, "question", Null);
      var answer := Lookup(questionData.fields, "answer", Null);
      var qtype := Lookup(questionData.fields, "type", Null);
      var comments := Lookup(questionData.fields, "comments", Str(""));
      var kept: Option<Value> := None;
      if comments != Str("") && comments != Null {
        kept := Some(comments);
      }
      var formatted := FormatAnswer(answer);
      var e := Entry(question, formatted, qtype, kept);
      combined := SetEntry(combined, id, Str(questionId), e);
      ApplyAllSnoc(Apply(c, Reset(id, common)), writes, Write(id, Str(questionId), e));
      writes := writes + [Write(id, Str(questionId), e)];
    }
    assert items[..|items|] == items;
    EntryApplied(c, Reset(id, common), writes);
    return Ok(combined);
  }

  /** data_process.py:68-104, from the empty `combined_data`. */
  method MergeSource1(dict1: Value) returns (r: Result<Combined<Entry>>)
    ensures r == Applied([], Source1Ops(dict1))
  {
    var data :- Subscript(dict1, "data");
    var entries :- Iterate(data);
    var combined: Combined<Entry> := [];
    ghost var ops: seq<Op<Entry>> := [];
    for i := 0 to |entries|
      invariant FlatMap(entries[..i], Source1EntryOps) == Ok(ops)
      invariant combined == ApplyAll([], ops)
    {
      LoopStep(entries, Source1EntryOps, i);
      combined :- MergeSource1Entry(combined, entries[i]);
      ApplyAllAppend([], ops, Source1EntryOps(entries[i]).value);
      ops := ops + Source1EntryOps(entries[i]).value;
    }
    assert entries[..|entries|] == entries;
    return Ok(combined);
  }

  /** The try/except around `json.loads` (data_process.py:122-142). */
  method DecodeAnswer(answer: Value, decode: string -> Decoded) returns (r: Result<Value>)
    ensures r == Source2Answer(answer, decode)
  {
    if !answer.Str? {
      return Err(TypeError);
    }
    match decode(answer.s)
    case DecodeError =>
      r := Ok(if answer.s == "" then Null else answer);
    case Parsed(answerData) =>
      if answerData.List? {
        var formatted :- StrictTriples(answerData.items);
        r := Ok(List(formatted));
      } else {
        r := Ok(answerData);
      }
  }

  /** One source-2 entry merged (data_process.py:108-147). */
  method MergeSource2Entry(c: Combined<Entry>, entry: Value, questionMap: QuestionMap, decode: string -> Decoded)
    returns (r: Result<Combined<Entry>>)
    ensures r == Applied(c, Source2EntryOps(entry, questionMap, decode))
  {
    var id :- Subscript(entry, "id");
    if !Hashable(id) {
      return Err(TypeError);
    }
    var combined := c;
    ghost var create := CreateIfAbsent(id, ExtractCommonFields(entry).value);
    if id !in Keys(combined) {
      combined := Put(combined, id, Record(ExtractCommonFields(entry).value, []));
    }
    var items := entry.fields;
    ghost var step := Source2Step(id, entry.fields, questionMap, decode);
    ghost var writes: seq<Op<Entry>> := [];
    for j := 0 to |items|
      invariant FlatMap(items[..j], step) == Ok(writes)
      invariant combined == ApplyAll(Apply(c, create), writes)
    {
      LoopStep(items, step, j);
      var (question, answer) := items[j];
      if question !in CommonKeys {
        var questionId := QuestionIdOf(questionMap, question);
        var questionType := QuestionTypeOf(questionMap, Str(question));
        var stored :- DecodeAnswer(answer, decode);
        var comments := Lookup(entry.fields, question + "_comments", Str(""));
        var kept: Option<Value> := None;
        if comments != Str("") && comments != Null {
          kept := Some(comments);
        }
        var e := Entry(Str(question), stored, questionType, kept);
        combined := SetEntry(combined, id, questionId, e);
        ApplyAllSnoc(Apply(c, create), writes, Write(id, questionId, e));
        writes := writes + [Write(id, questionId, e)];
      } else {
        assert writes + [] == writes;
      }
    }
    assert items[..|items|] == items;
    EntryApplied(c, create, writes);
    return Ok(combined);
  }

  /** data_process.py:107-147, from the state source 1 left. */
  method MergeSource2(c0: Combined<Entry>, dict2: Value, questionMap: QuestionMap, decode: string -> Decoded)
    returns (r: Result<Combined<Entry>>)
    ensures r == Applied(c0, Source2Ops(dict2, questionMap, decode))
  {
    var data :- Subscript(dict2, "data");
    var entries :- Iterate(data);
    var combined := c0;
    ghost var step := Source2EntryStep(questionMap, decode);
    ghost var ops: seq<Op<Entry>> := [];
    for i := 0 to |entries|
      invariant FlatMap(entries[..i], step) == Ok(ops)
      invariant combined == ApplyAll(c0, ops)
    {
      LoopStep(entries, step, i);
      combined :- MergeSource2Entry(combined, entries[i], questionMap, decode);
      ApplyAllAppend(c0, ops, step(entries[i]).value);
      ops := ops + step(entries[i]).value;
    }
    assert entries[..|entries|] == entries;
    return Ok(combined);
  }

  /** One source-3 entry merged (data_process.py:152-176). */
  method MergeSource3Entry(c: Combined<Entry>, entry: Value, questionMap: QuestionMap) returns (r: Result<Combined<Entry>>)
    ensures r == Applied(c, Source3EntryOps(entry, questionMap))
  {
    var id :- Subscript(entry, "id");
    if !Hashable(id) {
      return Err(TypeError);
    }
    var combined := c;
    ghost var create := CreateIfAbsent(id, ExtractCommonFields(entry).value);
    if id !in Keys(combined) {
      combined := Put(combined, id, Record(ExtractCommonFields(entry).value, []));
    }
    var surveyData :- Subscript(entry, "survey_data");
    var surveyItems :- Subscript(surveyData, "item");
    var items :- Iterate(surveyItems);
    ghost var step := Source3Step(id, questionMap);
    ghost var writes: seq<Op<Entry>> := [];
    for j := 0 to |items|
      invariant FlatMap(items[..j], step) == Ok(writes)
      invariant combined == ApplyAll(Apply(c, create), writes)
    {
      LoopStep(items, step, j);
      var surveyItem := items[j];
      var answer :- Get(surveyItem, "answer", Null);
      if answer.Obj? {
        answer := Lookup(answer.fields, "item", answer);
      }
      var question :- Subscript(surveyItem, "question");
      if !Hashable(question) {
        return Err(TypeError);
      }
      var qtype := QuestionTypeOf(questionMap, question);
      var comments := Lookup(surveyItem.fields, "comments", Str(""));
      var kept: Option<Value> := None;
      if comments != Str("") && comments != Null {
        kept := Some(comments);
      }
      var e := Entry(question, answer, qtype, kept);
      var qid :- Subscript(surveyItem, "id");
      if !Hashable(qid) {
        return Err(TypeError);
      }
      combined := SetEntry(combined, id, qid, e);
      ApplyAllSnoc(Apply(c, create), writes, Write(id, qid, e));
      writes := writes + [Write(id, qid, e)];
    }
    assert items[..|items|] == items;
    EntryApplied(c, create, writes);
    return Ok(combined);
  }

  /** data_process.py:179-191: one pass of the document build. */
  method BuildDocuments(combined: Combined<Entry>, newIds: nat -> ObjectId) returns (cleaned: seq<Document>)
    ensures cleaned == Documents(combined, newIds)
  {
    cleaned := [];
    for i := 0 to |combined|
      invariant |cleaned| == i
      invariant forall n :: 0 <= n < i ==> cleaned[n] == DocumentFor(combined[n].0, combined[n].1, newIds(n))
    {
      var (k, v) := combined[i];
      var objectId: ObjectId;
      var parsed := Parse(k);
      if parsed.Some? {
        objectId := parsed.value;
      } else {
        objectId := newIds(i);
      }
      cleaned := cleaned + [Document(objectId, Lookup(v.common, "id", k), v)];
    }
  }

  /** data_process.py:150-193, from the state source 2 left: the source-3 loop with the build inside it. */
  method MergeSource3AndBuild(c0: Combined<Entry>, dict3: Value, questionMap: QuestionMap, newIds: nat -> ObjectId)
    returns (r: Result<seq<Document>>)
    ensures r == Source3AndBuild(c0, dict3, questionMap, newIds)
  {
    var answers :- Subscript(dict3, "survey_answer");
    var data :- Subscript(answers, "data");
    var itemValue :- Subscript(data, "item");
    var entries :- Iterate(itemValue);
    var combined := c0;
    var cleaned: Option<seq<Document>> := None;
    ghost var step := Source3EntryStep(questionMap);
    ghost var ops: seq<Op<Entry>> := [];
    for i := 0 to |entries|
      invariant FlatMap(entries[..i], step) == Ok(ops)
      invariant combined == ApplyAll(c0, ops)
      invariant cleaned == if i == 0 then None else Some(Documents(combined, newIds))
    {
      LoopStep(entries, step, i);
      combined :- MergeSource3Entry(combined, entries[i], questionMap);
      ApplyAllAppend(c0, ops, step(entries[i]).value);
      ops := ops + step(entries[i]).value;
      var documents := BuildDocuments(combined, newIds);
      cleaned := Some(documents);
    }
    assert entries[..|entries|] == entries;
    if cleaned.None? {
      return Err(UnboundLocalError);
    }
    return Ok(cleaned.value);
  }

  /** `process_and_save_data(dict_1, dict_2, dict_3)`: the passes in the order of the source. */
  method ProcessAndSaveData(dict1: Value, dict2: Value, dict3: Value, decode: string -> Decoded,
                            newIds: nat -> ObjectId) returns (r: Result<seq<Document>>)
    ensures r == Process(dict1, dict2, dict3, decode, newIds)
  {
    var questionMap :- BuildQuestionMap(dict1);
    var combined :- MergeSource1(dict1);
    combined :- MergeSource2(combined, dict2, questionMap, decode);
    r := MergeSource3AndBuild(combined, dict3, questionMap, newIds);
    ghost var ops1 := Source1Ops(dict1).value;
    ghost var ops2 := Source2Ops(dict2, questionMap, decode).value;
    if Source3Entries(dict3).Ok? {
      ghost var entries3 := Source3Entries(dict3).value;
      if FlatMap(entries3, Source3EntryStep(questionMap)).Ok? {
        ghost var ops3 := FlatMap(entries3, Source3EntryStep(questionMap)).value;
        ApplyAllAppend([], ops1, ops2);
        ApplyAllAppend([], ops1 + ops2, ops3);
      }
    }
  }
}
