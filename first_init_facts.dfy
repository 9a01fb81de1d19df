/**
 What the first_init.py script guarantees about the documents it inserts, proved on the
 specification functions of `FirstInit` (and so, through their `ensures`, on the methods with the
 loops).
 */
module FirstInitFacts {
  import opened Wrappers
  import opened OrderedDict
  import opened Json
  import opened Folds
  import opened Answers
  import opened Records
  import opened FirstInit

  /** The common fields `extract_common_fields` builds: the eleven common keys, in order. */
  predicate IsCommon(d: Dict<string, Value>) {
    Keys(d) == CommonKeys
  }

  /** An entry stored without a question holds a list of option triples. */
  predicate QuestionlessIsChoiceList(e: InitEntry) {
    e.question.None? ==> IsChoiceList(e.answer)
  }

  /** A write stores a well-formed entry; a created record carries its own id and the common keys. */
  predicate GoodOp(op: Op<InitEntry>) {
    (op.Write? ==> QuestionlessIsChoiceList(op.entry)) &&
    (!op.Write? ==> Find(op.common, "id") == Some(op.id) && IsCommon(op.common))
  }

  /** Sources 1 and 3 always store a question. */
  predicate QuestionWrite(op: Op<InitEntry>) {
    op.Write? && op.entry.question.Some?
  }

  /**
   What a source-2 write stores: a list of triples without a question, or the label as question,
   never a common key, under the id the map gives the label (the label itself when it has none).
   */
  predicate Source2Write(qidmap: QuestionIdMap, op: Op<InitEntry>) {
    op.Write? && QuestionlessIsChoiceList(op.entry) &&
    (op.entry.question.Some? ==>
      op.entry.question.value.Str? && op.entry.question.value.s !in CommonKeys &&
      op.qid == QuestionIdFor(qidmap, op.entry.question.value.s))
  }

  function DocKeys(docs: seq<InitDocument>): seq<Value> {
    seq(|docs|, i requires 0 <= i < |docs| => docs[i].key)
  }

  lemma Source1EntryFacts(entry: Value)
    requires Source1EntryOps(entry).Ok?
    ensures forall op :: op in Source1EntryOps(entry).value ==> GoodOp(op)
    ensures forall op :: op in Source1EntryOps(entry).value && op.Write? ==> QuestionWrite(op)
    ensures CreatedIds(Source1EntryOps(entry).value) == [IdOf(entry)]
    ensures WritesFollowCreation(Source1EntryOps(entry).value)
  {
    var common := ExtractCommonFields(entry).value;
    var id := Subscript(entry, "id").value;
    var items := Items(Subscript(entry, "survey_data").value).value;
    FlatMapAll(items, Source1Step(id), QuestionWrite);
    CreationStream(entry, Reset(id, common), FlatMap(items, Source1Step(id)).value);
    assert WritesFollowCreation(Source1EntryOps(entry).value) by {
      var ops := Source1EntryOps(entry).value;
      Source1EntryWrites(entry);
      forall i | 0 < i < |ops| ensures ops[i].Write? && ops[i].id == ops[0].id {
        assert items[i - 1].1.Obj?;
      }
      EntryWritesFollowCreation(ops);
    }
  }

  lemma Source2EntryFacts(entry: Value, qidmap: QuestionIdMap, decode: string -> Decoded)
    requires Source2EntryOps(entry, qidmap, decode).Ok?
    ensures forall op :: op in Source2EntryOps(entry, qidmap, decode).value ==> GoodOp(op) && !op.Reset?
    ensures forall op :: op in Source2EntryOps(entry, qidmap, decode).value && op.Write? ==> Source2Write(qidmap, op)
    ensures CreatedIds(Source2EntryOps(entry, qidmap, decode).value) == [IdOf(entry)]
    ensures WritesFollowCreation(Source2EntryOps(entry, qidmap, decode).value)
  {
    var id := Subscript(entry, "id").value;
    var common := ExtractCommonFields(entry).value;
    var step := Source2Step(id, entry.fields, qidmap, decode);
    var q := op => Source2Write(qidmap, op);
    forall j | 0 <= j < |entry.fields| && step(entry.fields[j]).Ok?
      ensures forall op :: op in step(entry.fields[j]).value ==> q(op)
    {
      var (text, answer) := entry.fields[j];
      if text !in CommonKeys {
        var stored := Source2Stored(text, answer, Lookup(entry.fields, text + "_comments", Null), decode);
        assert stored.Ok? && QuestionlessIsChoiceList(stored.value);
      }
    }
    FlatMapAll(entry.fields, step, q);
    CreationStream(entry, CreateIfAbsent(id, common), FlatMap(entry.fields, step).value);
    assert WritesFollowCreation(Source2EntryOps(entry, qidmap, decode).value) by {
      var ops := Source2EntryOps(entry, qidmap, decode).value;
      Source2EntryWrites(entry, qidmap, decode);
      forall i | 0 < i < |ops| ensures ops[i].Write? && ops[i].id == ops[0].id {
        assert ops[i] in ops[1..];
      }
      EntryWritesFollowCreation(ops);
    }
  }

  lemma Source3EntryFacts(entry: Value)
    requires Source3EntryOps(entry).Ok?
    ensures forall op :: op in Source3EntryOps(entry).value ==> GoodOp(op) && !op.Reset?
    ensures forall op :: op in Source3EntryOps(entry).value && op.Write? ==> QuestionWrite(op)
    ensures CreatedIds(Source3EntryOps(entry).value) == [IdOf(entry)]
    ensures WritesFollowCreation(Source3EntryOps(entry).value)
  {
    var id := Subscript(entry, "id").value;
    var common := ExtractCommonFields(entry).value;
    var items := Iterate(Subscript(Subscript(entry, "survey_data").value, "item").value).value;
    FlatMapAll(items, Source3Step(id), QuestionWrite);
    CreationStream(entry, CreateIfAbsent(id, common), FlatMap(items, Source3Step(id)).value);
    assert WritesFollowCreation(Source3EntryOps(entry).value) by {
      var ops := Source3EntryOps(entry).value;
      Source3EntryWrites(entry);
      forall i | 0 < i < |ops| ensures ops[i].Write? && ops[i].id == ops[0].id {
        assert Subscript(items[i - 1], "id").Ok?;
      }
      EntryWritesFollowCreation(ops);
    }
  }

  /**
   The stream of one source-1 entry, element by element: the reset of its record to its common
   fields, then for the j-th question of its `survey_data`, in order, one write under the question's
   own key storing its `question` (null when missing), its `answer` and its `comments` (null when missing).
   */
  lemma Source1EntryWrites(entry: Value)
    requires Source1EntryOps(entry).Ok?
    ensures Subscript(entry, "id").Ok? && Subscript(entry, "survey_data").Ok? && Subscript(entry, "survey_data").value.Obj?
    ensures var ops := Source1EntryOps(entry).value;
      var id := Subscript(entry, "id").value;
      var items := Subscript(entry, "survey_data").value.fields;
      |ops| == |items| + 1 && ops[0] == Reset(id, ExtractCommonFields(entry).value) &&
      forall j :: 0 <= j < |items| ==>
        (items[j].1.Obj? &&
         ops[j + 1] == Write(id, Str(items[j].0), InitEntry(Some(Lookup(items[j].1.fields, "question", Null)),
           Lookup(items[j].1.fields, "answer", Null), Lookup(items[j].1.fields, "comments", Null))))
  {
    var id := Subscript(entry, "id").value;
    var items := Subscript(entry, "survey_data").value.fields;
    FlatMapSingletons(items, Source1Step(id));
  }

  /**
   The stream of one source-2 entry: the creation of its record if absent, then exactly one write
   for every key that is not a common field, under the id the map gives the label (the label itself
   when it has none), storing `Source2Stored` of the label, the value and `<label>_comments`.
   */
  lemma Source2EntryWrites(entry: Value, qidmap: QuestionIdMap, decode: string -> Decoded)
    requires Source2EntryOps(entry, qidmap, decode).Ok?
    ensures Subscript(entry, "id").Ok? && entry.Obj?
    ensures var ops := Source2EntryOps(entry, qidmap, decode).value;
      var id := Subscript(entry, "id").value;
      |ops| > 0 && ops[0] == CreateIfAbsent(id, ExtractCommonFields(entry).value) &&
      forall j :: 0 <= j < |entry.fields| && entry.fields[j].0 !in CommonKeys ==>
        (Source2Stored(entry.fields[j].0, entry.fields[j].1, Lookup(entry.fields, entry.fields[j].0 + "_comments", Null), decode).Ok? &&
         Write(id, QuestionIdFor(qidmap, entry.fields[j].0),
           Source2Stored(entry.fields[j].0, entry.fields[j].1, Lookup(entry.fields, entry.fields[j].0 + "_comments", Null), decode).value) in ops[1..])
    ensures var ops := Source2EntryOps(entry, qidmap, decode).value;
      var id := Subscript(entry, "id").value;
      forall op :: op in ops[1..] ==>
        exists j :: (0 <= j < |entry.fields| && entry.fields[j].0 !in CommonKeys &&
          Source2Stored(entry.fields[j].0, entry.fields[j].1, Lookup(entry.fields, entry.fields[j].0 + "_comments", Null), decode).Ok? &&
          op == Write(id, QuestionIdFor(qidmap, entry.fields[j].0),
            Source2Stored(entry.fields[j].0, entry.fields[j].1, Lookup(entry.fields, entry.fields[j].0 + "_comments", Null), decode).value))
  {
    var id := Subscript(entry, "id").value;
    var fields := entry.fields;
    var step := Source2Step(id, fields, qidmap, decode);
    var ops := Source2EntryOps(entry, qidmap, decode).value;
    assert ops[1..] == FlatMap(fields, step).value;
    forall j | 0 <= j < |fields| && fields[j].0 !in CommonKeys
      ensures Source2Stored(fields[j].0, fields[j].1, Lookup(fields, fields[j].0 + "_comments", Null), decode).Ok? &&
        Write(id, QuestionIdFor(qidmap, fields[j].0),
          Source2Stored(fields[j].0, fields[j].1, Lookup(fields, fields[j].0 + "_comments", Null), decode).value) in ops[1..]
    {
      FlatMapCovers(fields, step, j);
    }
    forall op | op in ops[1..]
      ensures exists j :: (0 <= j < |fields| && fields[j].0 !in CommonKeys &&
        Source2Stored(fields[j].0, fields[j].1, Lookup(fields, fields[j].0 + "_comments", Null), decode).Ok? &&
        op == Write(id, QuestionIdFor(qidmap, fields[j].0),
          Source2Stored(fields[j].0, fields[j].1, Lookup(fields, fields[j].0 + "_comments", Null), decode).value))
    {
      var j := FlatMapMember(fields, step, op);
    }
  }

  /**
   The stream of one source-3 entry, element by element: the creation of its record if absent,
   then for the j-th item of `survey_data["item"]`, in order, one write keyed by the item's own
   `id`, storing its `question`, its unwrapped `answer` and its `comments` (null when missing).
   */
  lemma Source3EntryWrites(entry: Value)
    requires Source3EntryOps(entry).Ok?
    ensures Subscript(entry, "id").Ok? && Subscript(entry, "survey_data").Ok?
    ensures Subscript(Subscript(entry, "survey_data").value, "item").Ok?
    ensures Iterate(Subscript(Subscript(entry, "survey_data").value, "item").value).Ok?
    ensures var ops := Source3EntryOps(entry).value;
      var id := Subscript(entry, "id").value;
      var items := Iterate(Subscript(Subscript(entry, "survey_data").value, "item").value).value;
      |ops| == |items| + 1 && ops[0] == CreateIfAbsent(id, ExtractCommonFields(entry).value) &&
      forall j :: 0 <= j < |items| ==>
        (Subscript(items[j], "id").Ok? && Subscript(items[j], "question").Ok? &&
         ops[j + 1] == Write(id, Subscript(items[j], "id").value, InitEntry(Some(Subscript(items[j], "question").value),
           UnwrapItem(Lookup(items[j].fields, "answer", Null)), Lookup(items[j].fields, "comments", Null))))
  {
    var id := Subscript(entry, "id").value;
    var items := Iterate(Subscript(Subscript(entry, "survey_data").value, "item").value).value;
    FlatMapSingletons(items, Source3Step(id));
  }

  /** The source-1 pass: good operations, every write with a question, one reset per entry in entry order. */
  lemma Source1Facts(dict1: Value)
    requires Source1Ops(dict1).Ok?
    ensures forall op :: op in Source1Ops(dict1).value ==> GoodOp(op)
    ensures forall op :: op in Source1Ops(dict1).value && op.Write? ==> QuestionWrite(op)
    ensures CreatedIds(Source1Ops(dict1).value) == RespondentIds(Source1Entries(dict1))
    ensures WritesFollowCreation(Source1Ops(dict1).value)
    ensures forall i :: 0 <= i < |Source1Entries(dict1).value| ==>
      (Source1EntryOps(Source1Entries(dict1).value[i]).Ok? &&
       forall op :: op in Source1EntryOps(Source1Entries(dict1).value[i]).value ==> op in Source1Ops(dict1).value)
  {
    var entries := Source1Entries(dict1).value;
    var q := op => GoodOp(op) && (op.Write? ==> QuestionWrite(op));
    forall i | 0 <= i < |entries| && Source1EntryOps(entries[i]).Ok?
      ensures forall op :: op in Source1EntryOps(entries[i]).value ==> q(op)
      ensures CreatedIds(Source1EntryOps(entries[i]).value) == [IdOf(entries[i])]
      ensures WritesFollowCreation(Source1EntryOps(entries[i]).value)
    {
      Source1EntryFacts(entries[i]);
    }
    FlatMapAll(entries, Source1EntryOps, q);
    CreatedIdsFlatMap(entries, Source1EntryOps, IdOf);
    WritesFollowCreationFlatMap(entries, Source1EntryOps);
    forall i | 0 <= i < |entries|
      ensures Source1EntryOps(entries[i]).Ok? && forall op :: op in Source1EntryOps(entries[i]).value ==> op in Source1Ops(dict1).value
    {
      FlatMapCovers(entries, Source1EntryOps, i);
    }
  }

  /** The source-2 pass: good operations, no reset, one creation per entry in entry order. */
  lemma Source2Facts(dict2: Value, qidmap: QuestionIdMap, decode: string -> Decoded)
    requires Source2Ops(dict2, qidmap, decode).Ok?
    ensures forall op :: op in Source2Ops(dict2, qidmap, decode).value ==> GoodOp(op) && !op.Reset?
    ensures forall op :: op in Source2Ops(dict2, qidmap, decode).value && op.Write? ==> Source2Write(qidmap, op)
    ensures CreatedIds(Source2Ops(dict2, qidmap, decode).value) == RespondentIds(Source2Entries(dict2))
    ensures WritesFollowCreation(Source2Ops(dict2, qidmap, decode).value)
    ensures forall i :: 0 <= i < |Source2Entries(dict2).value| ==>
      (Source2EntryOps(Source2Entries(dict2).value[i], qidmap, decode).Ok? &&
       forall op :: op in Source2EntryOps(Source2Entries(dict2).value[i], qidmap, decode).value ==> op in Source2Ops(dict2, qidmap, decode).value)
  {
    var entries := Source2Entries(dict2).value;
    var f := Source2EntryStep(qidmap, decode);
    var q := op => GoodOp(op) && !op.Reset? && (op.Write? ==> Source2Write(qidmap, op));
    forall i | 0 <= i < |entries| && f(entries[i]).Ok?
      ensures forall op :: op in f(entries[i]).value ==> q(op)
      ensures CreatedIds(f(entries[i]).value) == [IdOf(entries[i])]
      ensures WritesFollowCreation(f(entries[i]).value)
    {
      Source2EntryFacts(entries[i], qidmap, decode);
    }
    FlatMapAll(entries, f, q);
    CreatedIdsFlatMap(entries, f, IdOf);
    WritesFollowCreationFlatMap(entries, f);
    forall i | 0 <= i < |entries|
      ensures f(entries[i]).Ok? && forall op :: op in f(entries[i]).value ==> op in Source2Ops(dict2, qidmap, decode).value
    {
      FlatMapCovers(entries, f, i);
    }
  }

  /** The source-3 pass: good operations, no reset, every write with a question, one creation per entry in entry order. */
  lemma Source3Facts(dict3: Value)
    requires Source3Ops(dict3).Ok?
    ensures forall op :: op in Source3Ops(dict3).value ==> GoodOp(op) && !op.Reset?
    ensures forall op :: op in Source3Ops(dict3).value && op.Write? ==> QuestionWrite(op)
    ensures CreatedIds(Source3Ops(dict3).value) == RespondentIds(Source3Entries(dict3))
    ensures WritesFollowCreation(Source3Ops(dict3).value)
    ensures forall i :: 0 <= i < |Source3Entries(dict3).value| ==>
      (Source3EntryOps(Source3Entries(dict3).value[i]).Ok? &&
       forall op :: op in Source3EntryOps(Source3Entries(dict3).value[i]).value ==> op in Source3Ops(dict3).value)
  {
    var entries := Source3Entries(dict3).value;
    var q := op => GoodOp(op) && !op.Reset? && (op.Write? ==> QuestionWrite(op));
    forall i | 0 <= i < |entries| && Source3EntryOps(entries[i]).Ok?
      ensures forall op :: op in Source3EntryOps(entries[i]).value ==> q(op)
      ensures CreatedIds(Source3EntryOps(entries[i]).value) == [IdOf(entries[i])]
      ensures WritesFollowCreation(Source3EntryOps(entries[i]).value)
    {
      Source3EntryFacts(entries[i]);
    }
    FlatMapAll(entries, Source3EntryOps, q);
    CreatedIdsFlatMap(entries, Source3EntryOps, IdOf);
    WritesFollowCreationFlatMap(entries, Source3EntryOps);
    forall i | 0 <= i < |entries|
      ensures Source3EntryOps(entries[i]).Ok? && forall op :: op in Source3EntryOps(entries[i]).value ==> op in Source3Ops(dict3).value
    {
      FlatMapCovers(entries, Source3EntryOps, i);
    }
  }

  /**
   The question id map gives a text the id of its last occurrence in source 1; a text source 1 never
   uses gets the id of its first occurrence in source 3; any other text is absent.
   */
  lemma QuestionIdMapPriority(dict1: Value, dict3: Value, text: Value)
    requires QuestionIdMapOf(dict1, dict3).Ok?
    ensures var pairs1 := Source1IdPairs(dict1).value; var pairs3 := Source3IdPairs(dict3).value;
      Find(QuestionIdMapOf(dict1, dict3).value, text) ==
        if text in Keys(pairs1) then LastValue(pairs1, text) else Find(pairs3, text)
  {
    var pairs1 := Source1IdPairs(dict1).value;
    var pairs3 := Source3IdPairs(dict3).value;
    FindPutAllIfAbsent(PutAll([], pairs1), pairs3, text);
    FindPutAll([], pairs1, text);
    KeysPutAll([], pairs1, text);
  }

  /**
   The document build keeps one document per record, in order: its key is the respondent id, its
   survey data is the record's, and its fields are the record's common fields without `id`.
   */
  lemma InitDocumentsOf(c: Combined<InitEntry>)
    ensures var docs := InitDocuments(c);
      DocKeys(docs) == Keys(c) &&
      forall i :: 0 <= i < |docs| ==>
        docs[i].survey == c[i].1.survey &&
        "id" !in Keys(docs[i].fields) &&
        forall k :: k != "id" ==> Find(docs[i].fields, k) == Find(c[i].1.common, k)
  {
    var docs := InitDocuments(c);
    forall i | 0 <= i < |docs|
      ensures "id" !in Keys(docs[i].fields)
      ensures forall k :: k != "id" ==> Find(docs[i].fields, k) == Find(c[i].1.common, k)
    {
      KeysRemove(c[i].1.common, "id", "id");
      forall k | k != "id" ensures Find(docs[i].fields, k) == Find(c[i].1.common, k) {
        FindRemove(c[i].1.common, "id", k);
      }
    }
  }

  /** Dropping `id` from the common fields leaves the ten other common keys, in order. */
  lemma DropIdOfCommon(d: Dict<string, Value>)
    requires IsCommon(d)
    ensures Keys(Remove(d, "id")) == CommonKeys[1..]
  {
    assert Keys(d)[0] == "id";
    assert Keys(d[1..]) == CommonKeys[1..];
    CommonKeysDistinct();
    assert "id" !in CommonKeys[1..];
    RemoveAbsent(d[1..], "id");
  }

  /** The three operation streams of a successful merge, concatenated. */
  ghost function AllOps(dict1: Value, dict2: Value, dict3: Value, decode: string -> Decoded): seq<Op<InitEntry>>
    requires Merged(dict1, dict2, dict3, decode).Ok?
  {
    var qidmap := QuestionIdMapOf(dict1, dict3).value;
    Source1Ops(dict1).value + Source2Ops(dict2, qidmap, decode).value + Source3Ops(dict3).value
  }

  /** Every operation of a successful merge is good, and the streams create the respondents in source order. */
  lemma AllOpsFacts(dict1: Value, dict2: Value, dict3: Value, decode: string -> Decoded)
    requires Merged(dict1, dict2, dict3, decode).Ok?
    ensures forall op :: op in AllOps(dict1, dict2, dict3, decode) ==> GoodOp(op)
    ensures CreatedIds(AllOps(dict1, dict2, dict3, decode)) ==
      RespondentIds(Source1Entries(dict1)) + RespondentIds(Source2Entries(dict2)) + RespondentIds(Source3Entries(dict3))
    ensures Merged(dict1, dict2, dict3, decode).value == ApplyAll([], AllOps(dict1, dict2, dict3, decode))
    ensures WritesFollowCreation(AllOps(dict1, dict2, dict3, decode))
  {
    var qidmap := QuestionIdMapOf(dict1, dict3).value;
    var ops1 := Source1Ops(dict1).value;
    var ops2 := Source2Ops(dict2, qidmap, decode).value;
    var ops3 := Source3Ops(dict3).value;
    Source1Facts(dict1);
    Source2Facts(dict2, qidmap, decode);
    Source3Facts(dict3);
    CreatedIdsAppend(ops1, ops2);
    CreatedIdsAppend(ops1 + ops2, ops3);
    WritesFollowCreationAppend(ops1, ops2);
    WritesFollowCreationAppend(ops1 + ops2, ops3);
  }

  /**
   Last write wins, end to end: in the merged mapping, `survey_data[q]` of a respondent `k` is the
   entry of the last write to `(k, q)` over the three passes after the last source-1 reset of `k`,
   and is absent when there is none; a respondent missing from the mapping was never written.
   */
  lemma FinalSurveyEntry(dict1: Value, dict2: Value, dict3: Value, decode: string -> Decoded, k: Value, q: Value)
    requires Merged(dict1, dict2, dict3, decode).Ok?
    ensures var c := Merged(dict1, dict2, dict3, decode).value;
      Find(c, k).Some? ==> Find(Find(c, k).value.survey, q) == LastEntry(AllOps(dict1, dict2, dict3, decode), k, q)
    ensures var c := Merged(dict1, dict2, dict3, decode).value;
      Find(c, k).None? ==> LastEntry(AllOps(dict1, dict2, dict3, decode), k, q).None?
  {
    AllOpsFacts(dict1, dict2, dict3, decode);
    FinalEntry(AllOps(dict1, dict2, dict3, decode), k, q);
  }

  /**
   Source 3 has the last word: once the source-3 pass writes question id `q` of respondent `k`,
   the merged record of `k` exists and its `survey_data[q]` is the last such source-3 write,
   whatever sources 1 and 2 stored there.
   */
  lemma Source3Decides(dict1: Value, dict2: Value, dict3: Value, decode: string -> Decoded, k: Value, q: Value)
    requires Merged(dict1, dict2, dict3, decode).Ok?
    requires !Untouched(Source3Ops(dict3).value, k, q)
    ensures var c := Merged(dict1, dict2, dict3, decode).value;
      var last := LastEntry(Source3Ops(dict3).value, k, q);
      Find(c, k).Some? && last.Some? && Find(Find(c, k).value.survey, q) == last
  {
    var qidmap := QuestionIdMapOf(dict1, dict3).value;
    var ops1 := Source1Ops(dict1).value;
    var ops2 := Source2Ops(dict2, qidmap, decode).value;
    var ops3 := Source3Ops(dict3).value;
    Source3Facts(dict3);
    assert NoResets(ops3) by {
      forall i | 0 <= i < |ops3| ensures !ops3[i].Reset? {
        assert ops3[i] in ops3;
      }
    }
    LastEntryOfWrite(ops3, k, q);
    LastEntryAppend(ops1 + ops2, ops3, k, q);
    FinalSurveyEntry(dict1, dict2, dict3, decode, k, q);
  }

  /** Every record of a successful merge has exactly the common keys in its common fields. */
  lemma MergedCommons(dict1: Value, dict2: Value, dict3: Value, decode: string -> Decoded)
    requires Merged(dict1, dict2, dict3, decode).Ok?
    ensures CommonsSatisfy(Merged(dict1, dict2, dict3, decode).value, IsCommon)
  {
    var ops := AllOps(dict1, dict2, dict3, decode);
    AllOpsFacts(dict1, dict2, dict3, decode);
    assert CreationsSatisfy(ops, IsCommon) by {
      forall i | 0 <= i < |ops| && !ops[i].Write? ensures IsCommon(ops[i].common) {
        assert ops[i] in ops;
      }
    }
    CommonsSatisfyApplyAll([], ops, IsCommon);
  }

  /** The documents of records whose common fields have the common keys: each has the ten other keys. */
  lemma DocumentsOfCommon(c: Combined<InitEntry>)
    requires CommonsSatisfy(c, IsCommon)
    ensures var docs := InitDocuments(c);
      DocKeys(docs) == Keys(c) && forall i :: 0 <= i < |docs| ==> Keys(docs[i].fields) == CommonKeys[1..]
  {
    var docs := InitDocuments(c);
    forall i | 0 <= i < |docs| ensures Keys(docs[i].fields) == CommonKeys[1..] {
      assert c[i] in c;
      DropIdOfCommon(c[i].1.common);
    }
    assert DocKeys(docs) == Keys(c);
  }

  /** A successful run inserts the documents of the merge. */
  lemma ScriptDocuments(dict1: Value, dict2: Value, dict3: Value, decode: string -> Decoded)
    requires Script(dict1, dict2, dict3, decode).Ok?
    ensures Merged(dict1, dict2, dict3, decode).Ok?
    ensures Script(dict1, dict2, dict3, decode).value == InitDocuments(Merged(dict1, dict2, dict3, decode).value)
  {
  }

  /**
   One document per distinct respondent id, keyed by that id, in order of first appearance over
   sources 1, 2 and 3; each document holds the ten common fields other than `id`, in order.
   */
  lemma DocumentsPerRespondent(dict1: Value, dict2: Value, dict3: Value, decode: string -> Decoded)
    requires Script(dict1, dict2, dict3, decode).Ok?
    ensures DocKeys(Script(dict1, dict2, dict3, decode).value) ==
      AddNew([], RespondentIds(Source1Entries(dict1)) + RespondentIds(Source2Entries(dict2)) + RespondentIds(Source3Entries(dict3)))
    ensures Distinct(DocKeys(Script(dict1, dict2, dict3, decode).value))
    ensures var docs := Script(dict1, dict2, dict3, decode).value;
      forall i :: 0 <= i < |docs| ==> Keys(docs[i].fields) == CommonKeys[1..]
  {
    ScriptDocuments(dict1, dict2, dict3, decode);
    var c := Merged(dict1, dict2, dict3, decode).value;
    var ids := RespondentIds(Source1Entries(dict1)) + RespondentIds(Source2Entries(dict2)) + RespondentIds(Source3Entries(dict3));
    assert Keys(c) == AddNew([], ids) by {
      var ops := AllOps(dict1, dict2, dict3, decode);
      AllOpsFacts(dict1, dict2, dict3, decode);
      KeysApplyAll([], ops);
      var empty: Combined<InitEntry> := [];
      assert Keys(empty) == [];
      assert c == ApplyAll(empty, ops) && CreatedIds(ops) == ids;
    }
    AddNewDistinct([], ids);
    assert CommonsSatisfy(c, IsCommon) by {
      MergedCommons(dict1, dict2, dict3, decode);
    }
    DocumentsOfCommon(c);
  }

  /** Every stored entry without a `question` key holds a list of option triples. */
  lemma QuestionlessEntriesAreChoiceLists(dict1: Value, dict2: Value, dict3: Value, decode: string -> Decoded)
    requires Script(dict1, dict2, dict3, decode).Ok?
    ensures var docs := Script(dict1, dict2, dict3, decode).value;
      forall i, q :: 0 <= i < |docs| && q in docs[i].survey ==> QuestionlessIsChoiceList(q.1)
  {
    var ops := AllOps(dict1, dict2, dict3, decode);
    var c := ApplyAll([], ops);
    AllOpsFacts(dict1, dict2, dict3, decode);
    assert WritesSatisfy(ops, QuestionlessIsChoiceList) by {
      forall i | 0 <= i < |ops| && ops[i].Write? ensures QuestionlessIsChoiceList(ops[i].entry) {
        assert ops[i] in ops;
      }
    }
    EntriesSatisfyApplyAll([], ops, QuestionlessIsChoiceList);
    var docs := InitDocuments(c);
    forall i, q | 0 <= i < |docs| && q in docs[i].survey ensures QuestionlessIsChoiceList(q.1) {
      assert c[i] in c;
    }
  }

  /**
   Sources 2 and 3 only create a record when it is absent: a respondent present after source 1 keeps
   the common fields source 1 gave it, and one present after source 2 keeps those it had then.
   */
  lemma CommonFieldsKept(dict1: Value, dict2: Value, dict3: Value, decode: string -> Decoded, k: Value)
    requires Merged(dict1, dict2, dict3, decode).Ok?
    ensures var after1 := ApplyAll([], Source1Ops(dict1).value);
      var final := Merged(dict1, dict2, dict3, decode).value;
      k in Keys(after1) ==> k in Keys(final) && CommonOf(final, k) == CommonOf(after1, k)
    ensures var after2 := ApplyAll([], Source1Ops(dict1).value +
                                       Source2Ops(dict2, QuestionIdMapOf(dict1, dict3).value, decode).value);
      var final := Merged(dict1, dict2, dict3, decode).value;
      k in Keys(after2) ==> k in Keys(final) && CommonOf(final, k) == CommonOf(after2, k)
  {
    var qidmap := QuestionIdMapOf(dict1, dict3).value;
    Source2Facts(dict2, qidmap, decode);
    Source3Facts(dict3);
    CommonsKeptByLaterPasses(Source1Ops(dict1).value, Source2Ops(dict2, qidmap, decode).value, Source3Ops(dict3).value, k);
  }
}
