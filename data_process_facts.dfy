/**
 What `process_and_save_data` guarantees about its output, proved on the specification functions
 of `DataProcess` (and so, through their `ensures`, on the methods with the loops).
 */
module DataProcessFacts {
  import opened Wrappers
  import opened OrderedDict
  import opened Json
  import opened Folds
  import opened ObjectIds
  import opened Answers
  import opened Records
  import opened DataProcess

  /** A `comments` key is present only with a comment that is neither "" nor null. */
  predicate CommentKept(e: Entry) {
    e.comments.Some? ==> !IsBlank(e.comments.value)
  }

  /** A write keeps only real comments; a created record carries its own id. */
  predicate GoodOp(op: Op<Entry>) {
    (op.Write? ==> CommentKept(op.entry)) && (!op.Write? ==> Find(op.common, "id") == Some(op.id))
  }

  /** What a source-2 write stores: the raw label as question, under the table id or the label, never a common key. */
  predicate Source2Write(qmap: QuestionMap, op: Op<Entry>) {
    op.Write? && op.entry.question.Str? && op.entry.question.s !in CommonKeys &&
    op.qid == QuestionIdOf(qmap, op.entry.question.s) &&
    op.entry.qtype == QuestionTypeOf(qmap, op.entry.question) && CommentKept(op.entry)
  }

  /** What a source-3 write stores: its type is the table's type of its own question. */
  predicate Source3Write(qmap: QuestionMap, op: Op<Entry>) {
    op.Write? && Hashable(op.qid) && Hashable(op.entry.question) &&
    op.entry.qtype == QuestionTypeOf(qmap, op.entry.question) && CommentKept(op.entry)
  }

  function DocIds(docs: seq<Document>): seq<Value> {
    seq(|docs|, i requires 0 <= i < |docs| => docs[i].id)
  }

  lemma Source1EntryFacts(entry: Value)
    requires Source1EntryOps(entry).Ok?
    ensures forall op :: op in Source1EntryOps(entry).value ==> GoodOp(op)
    ensures CreatedIds(Source1EntryOps(entry).value) == [IdOf(entry)]
    ensures WritesFollowCreation(Source1EntryOps(entry).value)
  {
    var common := ExtractCommonFields(entry).value;
    var id := Subscript(entry, "id").value;
    var items := Items(Subscript(entry, "survey_data").value).value;
    var q := (op: Op<Entry>) => op.Write? && CommentKept(op.entry);
    forall j | 0 <= j < |items| && Source1Step(id)(items[j]).Ok?
      ensures forall op :: op in Source1Step(id)(items[j]).value ==> q(op)
    {
      var qd := items[j].1;
      var kept := KeepComment(Lookup(qd.fields, "comments", Str("")));
    }
    FlatMapAll(items, Source1Step(id), q);
    CreationStream(entry, Reset(id, common), FlatMap(items, Source1Step(id)).value);
    assert WritesFollowCreation(Source1EntryOps(entry).value) by {
      var ops := Source1EntryOps(entry).value;
      Source1EntryWrites(entry);
      forall i | 0 < i < |ops| ensures ops[i].Write? && ops[i].id == ops[0].id {
        assert items[i - 1].1.Obj?;
      }
      EntryWritesFollowCreation(ops);
    }
  }

  lemma Source2EntryFacts(entry: Value, qmap: QuestionMap, decode: string -> Decoded)
    requires Source2EntryOps(entry, qmap, decode).Ok?
    ensures forall op :: op in Source2EntryOps(entry, qmap, decode).value ==> GoodOp(op) && !op.Reset?
    ensures forall op :: op in Source2EntryOps(entry, qmap, decode).value && op.Write? ==> Source2Write(qmap, op)
    ensures CreatedIds(Source2EntryOps(entry, qmap, decode).value) == [IdOf(entry)]
    ensures WritesFollowCreation(Source2EntryOps(entry, qmap, decode).value)
  {
    var id := Subscript(entry, "id").value;
    var common := ExtractCommonFields(entry).value;
    var step := Source2Step(id, entry.fields, qmap, decode);
    var q := op => Source2Write(qmap, op);
    forall j | 0 <= j < |entry.fields| && step(entry.fields[j]).Ok?
      ensures forall op :: op in step(entry.fields[j]).value ==> q(op)
    {
      var text := entry.fields[j].0;
      var kept := KeepComment(Lookup(entry.fields, text + "_comments", Str("")));
    }
    FlatMapAll(entry.fields, step, q);
    CreationStream(entry, CreateIfAbsent(id, common), FlatMap(entry.fields, step).value);
    assert WritesFollowCreation(Source2EntryOps(entry, qmap, decode).value) by {
      var ops := Source2EntryOps(entry, qmap, decode).value;
      Source2EntryWrites(entry, qmap, decode);
      forall i | 0 < i < |ops| ensures ops[i].Write? && ops[i].id == ops[0].id {
        assert ops[i] in ops[1..];
      }
      EntryWritesFollowCreation(ops);
    }
  }

  lemma Source3EntryFacts(entry: Value, qmap: QuestionMap)
    requires Source3EntryOps(entry, qmap).Ok?
    ensures forall op :: op in Source3EntryOps(entry, qmap).value ==> GoodOp(op) && !op.Reset?
    ensures forall op :: op in Source3EntryOps(entry, qmap).value && op.Write? ==> Source3Write(qmap, op)
    ensures CreatedIds(Source3EntryOps(entry, qmap).value) == [IdOf(entry)]
    ensures WritesFollowCreation(Source3EntryOps(entry, qmap).value)
  {
    var id := Subscript(entry, "id").value;
    var common := ExtractCommonFields(entry).value;
    var items := Iterate(Subscript(Subscript(entry, "survey_data").value, "item").value).value;
    var step := Source3Step(id, qmap);
    var q := op => Source3Write(qmap, op);
    forall j | 0 <= j < |items| && step(items[j]).Ok?
      ensures forall op :: op in step(items[j]).value ==> q(op)
    {
      var kept := KeepComment(Lookup(items[j].fields, "comments", Str("")));
    }
    FlatMapAll(items, step, q);
    CreationStream(entry, CreateIfAbsent(id, common), FlatMap(items, step).value);
    assert WritesFollowCreation(Source3EntryOps(entry, qmap).value) by {
      var ops := Source3EntryOps(entry, qmap).value;
      Source3EntryWrites(entry, qmap);
      forall i | 0 < i < |ops| ensures ops[i].Write? && ops[i].id == ops[0].id {
        assert Subscript(items[i - 1], "id").Ok?;
      }
      EntryWritesFollowCreation(ops);
    }
  }

  /**
   The stream of one source-1 entry, element by element: the reset of its record to its common
   fields, then for the j-th question of its `survey_data`, in order, one write under the question's
   own key storing its `question`, its normalised `answer`, its `type` and its comment when real.
   */
  lemma Source1EntryWrites(entry: Value)
    requires Source1EntryOps(entry).Ok?
    ensures Subscript(entry, "id").Ok? && Subscript(entry, "survey_data").Ok? && Subscript(entry, "survey_data").value.Obj?
    ensures var ops := Source1EntryOps(entry).value;
      var id := Subscript(entry, "id").value;
      var items := Subscript(entry, "survey_data").value.fields;
      |ops| == |items| + 1 && ops[0] == Reset(id, ExtractCommonFields(entry).value) &&
      forall j :: 0 <= j < |items| ==>
        (items[j].1.Obj? &&
         ops[j + 1] == Write(id, Str(items[j].0), Entry(Lookup(items[j].1.fields, "question", Null),
           NormaliseAnswer(Lookup(items[j].1.fields, "answer", Null)), Lookup(items[j].1.fields, "type", Null),
           KeepComment(Lookup(items[j].1.fields, "comments", Str(""))))))
  {
    var id := Subscript(entry, "id").value;
    var items := Subscript(entry, "survey_data").value.fields;
    FlatMapSingletons(items, Source1Step(id));
  }

  /**
   The stream of one source-2 entry: the creation of its record if absent, then exactly one write
   for every key that is not a common field, under the table's id for the label, storing the label,
   `Source2Answer` of the value, the table's type and the `<label>_comments` comment when real.
   */
  lemma Source2EntryWrites(entry: Value, qmap: QuestionMap, decode: string -> Decoded)
    requires Source2EntryOps(entry, qmap, decode).Ok?
    ensures Subscript(entry, "id").Ok? && entry.Obj?
    ensures var ops := Source2EntryOps(entry, qmap, decode).value;
      var id := Subscript(entry, "id").value;
      |ops| > 0 && ops[0] == CreateIfAbsent(id, ExtractCommonFields(entry).value) &&
      forall j :: 0 <= j < |entry.fields| && entry.fields[j].0 !in CommonKeys ==>
        Source2Answer(entry.fields[j].1, decode).Ok? &&
        Write(id, QuestionIdOf(qmap, entry.fields[j].0), Entry(Str(entry.fields[j].0), Source2Answer(entry.fields[j].1, decode).value,
          QuestionTypeOf(qmap, Str(entry.fields[j].0)), KeepComment(Lookup(entry.fields, entry.fields[j].0 + "_comments", Str(""))))) in ops[1..]
    ensures var ops := Source2EntryOps(entry, qmap, decode).value;
      var id := Subscript(entry, "id").value;
      forall op :: op in ops[1..] ==>
        exists j :: (0 <= j < |entry.fields| && entry.fields[j].0 !in CommonKeys &&
          Source2Answer(entry.fields[j].1, decode).Ok? &&
          op == Write(id, QuestionIdOf(qmap, entry.fields[j].0), Entry(Str(entry.fields[j].0), Source2Answer(entry.fields[j].1, decode).value,
            QuestionTypeOf(qmap, Str(entry.fields[j].0)), KeepComment(Lookup(entry.fields, entry.fields[j].0 + "_comments", Str(""))))))
  {
    var id := Subscript(entry, "id").value;
    var fields := entry.fields;
    var step := Source2Step(id, fields, qmap, decode);
    var ops := Source2EntryOps(entry, qmap, decode).value;
    assert ops[1..] == FlatMap(fields, step).value;
    forall j | 0 <= j < |fields| && fields[j].0 !in CommonKeys
      ensures Source2Answer(fields[j].1, decode).Ok? &&
        Write(id, QuestionIdOf(qmap, fields[j].0), Entry(Str(fields[j].0), Source2Answer(fields[j].1, decode).value,
          QuestionTypeOf(qmap, Str(fields[j].0)), KeepComment(Lookup(fields, fields[j].0 + "_comments", Str(""))))) in ops[1..]
    {
      FlatMapCovers(fields, step, j);
    }
    forall op | op in ops[1..]
      ensures exists j :: (0 <= j < |fields| && fields[j].0 !in CommonKeys &&
        Source2Answer(fields[j].1, decode).Ok? &&
        op == Write(id, QuestionIdOf(qmap, fields[j].0), Entry(Str(fields[j].0), Source2Answer(fields[j].1, decode).value,
          QuestionTypeOf(qmap, Str(fields[j].0)), KeepComment(Lookup(fields, fields[j].0 + "_comments", Str(""))))))
    {
      var j := FlatMapMember(fields, step, op);
    }
  }

  /**
   The stream of one source-3 entry, element by element: the creation of its record if absent,
   then for the j-th item of `survey_data["item"]`, in order, one write keyed by the item's own
   `id`, storing its `question`, its unwrapped `answer`, the table's type of the question and its
   comment when real.
   */
  lemma Source3EntryWrites(entry: Value, qmap: QuestionMap)
    requires Source3EntryOps(entry, qmap).Ok?
    ensures Subscript(entry, "id").Ok? && Subscript(entry, "survey_data").Ok?
    ensures Subscript(Subscript(entry, "survey_data").value, "item").Ok?
    ensures Iterate(Subscript(Subscript(entry, "survey_data").value, "item").value).Ok?
    ensures var ops := Source3EntryOps(entry, qmap).value;
      var id := Subscript(entry, "id").value;
      var items := Iterate(Subscript(Subscript(entry, "survey_data").value, "item").value).value;
      |ops| == |items| + 1 && ops[0] == CreateIfAbsent(id, ExtractCommonFields(entry).value) &&
      forall j :: 0 <= j < |items| ==>
        (Subscript(items[j], "id").Ok? && Subscript(items[j], "question").Ok? &&
         ops[j + 1] == Write(id, Subscript(items[j], "id").value, Entry(Subscript(items[j], "question").value,
           UnwrapItem(Lookup(items[j].fields, "answer", Null)), QuestionTypeOf(qmap, Subscript(items[j], "question").value),
           KeepComment(Lookup(items[j].fields, "comments", Str(""))))))
  {
    var id := Subscript(entry, "id").value;
    var items := Iterate(Subscript(Subscript(entry, "survey_data").value, "item").value).value;
    FlatMapSingletons(items, Source3Step(id, qmap));
  }

  /** The source-1 pass: good operations, one reset per entry, in entry order. */
  lemma Source1Facts(dict1: Value)
    requires Source1Ops(dict1).Ok?
    ensures forall op :: op in Source1Ops(dict1).value ==> GoodOp(op)
    ensures CreatedIds(Source1Ops(dict1).value) == RespondentIds(Source1Entries(dict1))
    ensures WritesFollowCreation(Source1Ops(dict1).value)
    ensures forall i :: 0 <= i < |Source1Entries(dict1).value| ==>
      (Source1EntryOps(Source1Entries(dict1).value[i]).Ok? &&
       forall op :: op in Source1EntryOps(Source1Entries(dict1).value[i]).value ==> op in Source1Ops(dict1).value)
  {
    var entries := Source1Entries(dict1).value;
    forall i | 0 <= i < |entries| && Source1EntryOps(entries[i]).Ok?
      ensures forall op :: op in Source1EntryOps(entries[i]).value ==> GoodOp(op)
      ensures CreatedIds(Source1EntryOps(entries[i]).value) == [IdOf(entries[i])]
      ensures WritesFollowCreation(Source1EntryOps(entries[i]).value)
    {
      Source1EntryFacts(entries[i]);
    }
    FlatMapAll(entries, Source1EntryOps, GoodOp);
    CreatedIdsFlatMap(entries, Source1EntryOps, IdOf);
    WritesFollowCreationFlatMap(entries, Source1EntryOps);
    forall i | 0 <= i < |entries|
      ensures Source1EntryOps(entries[i]).Ok? && forall op :: op in Source1EntryOps(entries[i]).value ==> op in Source1Ops(dict1).value
    {
      FlatMapCovers(entries, Source1EntryOps, i);
    }
  }

  /** The source-2 pass: good operations, no reset, one creation per entry, in entry order. */
  lemma Source2Facts(dict2: Value, qmap: QuestionMap, decode: string -> Decoded)
    requires Source2Ops(dict2, qmap, decode).Ok?
    ensures forall op :: op in Source2Ops(dict2, qmap, decode).value ==> GoodOp(op) && !op.Reset?
    ensures forall op :: op in Source2Ops(dict2, qmap, decode).value && op.Write? ==> Source2Write(qmap, op)
    ensures CreatedIds(Source2Ops(dict2, qmap, decode).value) == RespondentIds(Source2Entries(dict2))
    ensures WritesFollowCreation(Source2Ops(dict2, qmap, decode).value)
    ensures forall i :: 0 <= i < |Source2Entries(dict2).value| ==>
      (Source2EntryOps(Source2Entries(dict2).value[i], qmap, decode).Ok? &&
       forall op :: op in Source2EntryOps(Source2Entries(dict2).value[i], qmap, decode).value ==> op in Source2Ops(dict2, qmap, decode).value)
  {
    var entries := Source2Entries(dict2).value;
    var f := Source2EntryStep(qmap, decode);
    var q := op => GoodOp(op) && !op.Reset? && (op.Write? ==> Source2Write(qmap, op));
    forall i | 0 <= i < |entries| && f(entries[i]).Ok?
      ensures forall op :: op in f(entries[i]).value ==> q(op)
      ensures CreatedIds(f(entries[i]).value) == [IdOf(entries[i])]
      ensures WritesFollowCreation(f(entries[i]).value)
    {
      Source2EntryFacts(entries[i], qmap, decode);
    }
    FlatMapAll(entries, f, q);
    CreatedIdsFlatMap(entries, f, IdOf);
    WritesFollowCreationFlatMap(entries, f);
    forall i | 0 <= i < |entries|
      ensures f(entries[i]).Ok? && forall op :: op in f(entries[i]).value ==> op in Source2Ops(dict2, qmap, decode).value
    {
      FlatMapCovers(entries, f, i);
    }
  }

  /** The source-3 pass: good operations, no reset, one creation per entry, in entry order. */
  lemma Source3Facts(entries: seq<Value>, qmap: QuestionMap)
    requires FlatMap(entries, Source3EntryStep(qmap)).Ok?
    ensures forall op :: op in FlatMap(entries, Source3EntryStep(qmap)).value ==> GoodOp(op) && !op.Reset?
    ensures forall op :: op in FlatMap(entries, Source3EntryStep(qmap)).value && op.Write? ==> Source3Write(qmap, op)
    ensures CreatedIds(FlatMap(entries, Source3EntryStep(qmap)).value) == MapIds(entries, IdOf)
    ensures WritesFollowCreation(FlatMap(entries, Source3EntryStep(qmap)).value)
    ensures forall i :: 0 <= i < |entries| ==>
      (Source3EntryOps(entries[i], qmap).Ok? &&
       forall op :: op in Source3EntryOps(entries[i], qmap).value ==> op in FlatMap(entries, Source3EntryStep(qmap)).value)
  {
    var f := Source3EntryStep(qmap);
    var q := op => GoodOp(op) && !op.Reset? && (op.Write? ==> Source3Write(qmap, op));
    forall i | 0 <= i < |entries| && f(entries[i]).Ok?
      ensures forall op :: op in f(entries[i]).value ==> q(op)
      ensures CreatedIds(f(entries[i]).value) == [IdOf(entries[i])]
      ensures WritesFollowCreation(f(entries[i]).value)
    {
      Source3EntryFacts(entries[i], qmap);
    }
    FlatMapAll(entries, f, q);
    CreatedIdsFlatMap(entries, f, IdOf);
    WritesFollowCreationFlatMap(entries, f);
    forall i | 0 <= i < |entries|
      ensures f(entries[i]).Ok? && forall op :: op in f(entries[i]).value ==> op in FlatMap(entries, f).value
    {
      FlatMapCovers(entries, f, i);
    }
  }

  /** The table binds each label to the id and type of its last occurrence in source 1. */
  lemma QuestionMapLastOccurrence(dict1: Value, text: Value)
    requires QuestionMapOf(dict1).Ok?
    ensures Find(QuestionMapOf(dict1).value, text) == LastValue(QuestionPairs(dict1).value, text)
  {
    var pairs := QuestionPairs(dict1).value;
    FindPutAll([], pairs, text);
    LastValueIn(pairs, text);
  }

  /**
   Every assignment of the table comes from a question of a source-1 entry: its label (or "" when it
   has none) bound to the question's own id and type.
   */
  lemma QuestionPairOrigin(dict1: Value, p: (Value, QuestionInfo)) returns (entry: Value, qid: string, qd: Value)
    requires QuestionPairs(dict1).Ok? && p in QuestionPairs(dict1).value
    ensures Source1Entries(dict1).Ok? && entry in Source1Entries(dict1).value
    ensures Subscript(entry, "survey_data").Ok? && Items(Subscript(entry, "survey_data").value).Ok?
    ensures (qid, qd) in Items(Subscript(entry, "survey_data").value).value && qd.Obj?
    ensures p == (Lookup(qd.fields, "question", Str("")), QuestionInfo(qid, Lookup(qd.fields, "type", Null)))
  {
    var entries := Source1Entries(dict1).value;
    var i := FlatMapMember(entries, QuestionPairsOfEntry, p);
    entry := entries[i];
    var items := Items(Subscript(entry, "survey_data").value).value;
    var j := FlatMapMember(items, QuestionPair, p);
    qid, qd := items[j].0, items[j].1;
  }

  /**
   The converse: every question of every source-1 entry is an assignment of the table loop, its
   label (or "" when it has none) bound to the question's own id and type, so the table has the label.
   */
  lemma QuestionPairCovered(dict1: Value, entry: Value)
    requires QuestionPairs(dict1).Ok? && Source1Entries(dict1).Ok? && entry in Source1Entries(dict1).value
    ensures Subscript(entry, "survey_data").Ok? && Items(Subscript(entry, "survey_data").value).Ok?
    ensures forall p :: p in Items(Subscript(entry, "survey_data").value).value ==>
      p.1.Obj? &&
      (Lookup(p.1.fields, "question", Str("")), QuestionInfo(p.0, Lookup(p.1.fields, "type", Null))) in QuestionPairs(dict1).value &&
      Find(QuestionMapOf(dict1).value, Lookup(p.1.fields, "question", Str(""))).Some?
  {
    var entries := Source1Entries(dict1).value;
    var pairs := QuestionPairs(dict1).value;
    var i :| 0 <= i < |entries| && entries[i] == entry;
    FlatMapCovers(entries, QuestionPairsOfEntry, i);
    var items := Items(Subscript(entry, "survey_data").value).value;
    forall p | p in items
      ensures p.1.Obj? &&
        (Lookup(p.1.fields, "question", Str("")), QuestionInfo(p.0, Lookup(p.1.fields, "type", Null))) in pairs &&
        Find(QuestionMapOf(dict1).value, Lookup(p.1.fields, "question", Str(""))).Some?
    {
      var j :| 0 <= j < |items| && items[j] == p;
      FlatMapCovers(items, QuestionPair, j);
      var text := Lookup(p.1.fields, "question", Str(""));
      var pair := (text, QuestionInfo(p.0, Lookup(p.1.fields, "type", Null)));
      assert pair in QuestionPair(p).value;
      var m :| 0 <= m < |pairs| && pairs[m] == pair;
      assert Keys(pairs)[m] == text;
      QuestionMapLastOccurrence(dict1, text);
      LastValueIn(pairs, text);
    }
  }

  /** The three operation streams of a successful merge, concatenated. */
  ghost function AllOps(dict1: Value, dict2: Value, dict3: Value, decode: string -> Decoded): seq<Op<Entry>>
    requires Reconcile(dict1, dict2, dict3, decode).Ok?
  {
    var qmap := QuestionMapOf(dict1).value;
    Source1Ops(dict1).value + Source2Ops(dict2, qmap, decode).value +
      FlatMap(Source3Entries(dict3).value, Source3EntryStep(qmap)).value
  }

  /** Every operation of a successful merge is good, and the streams create the respondents in source order. */
  lemma AllOpsFacts(dict1: Value, dict2: Value, dict3: Value, decode: string -> Decoded)
    requires Reconcile(dict1, dict2, dict3, decode).Ok?
    ensures forall op :: op in AllOps(dict1, dict2, dict3, decode) ==> GoodOp(op)
    ensures CreatedIds(AllOps(dict1, dict2, dict3, decode)) ==
      RespondentIds(Source1Entries(dict1)) + RespondentIds(Source2Entries(dict2)) + RespondentIds(Source3Entries(dict3))
    ensures Reconcile(dict1, dict2, dict3, decode).value.0 == ApplyAll([], AllOps(dict1, dict2, dict3, decode))
    ensures WritesFollowCreation(AllOps(dict1, dict2, dict3, decode))
  {
    var qmap := QuestionMapOf(dict1).value;
    var ops1 := Source1Ops(dict1).value;
    var ops2 := Source2Ops(dict2, qmap, decode).value;
    var entries3 := Source3Entries(dict3).value;
    var ops3 := FlatMap(entries3, Source3EntryStep(qmap)).value;
    Source1Facts(dict1);
    Source2Facts(dict2, qmap, decode);
    Source3Facts(entries3, qmap);
    CreatedIdsAppend(ops1, ops2);
    CreatedIdsAppend(ops1 + ops2, ops3);
    WritesFollowCreationAppend(ops1, ops2);
    WritesFollowCreationAppend(ops1 + ops2, ops3);
  }

  /**
   Last write wins, end to end: in the merged mapping, `survey_data[q]` of a respondent `k` is the
   entry of the last write to `(k, q)` over the three passes after the last source-1 reset of `k`,
   and is absent when there is none; a respondent missing from the mapping was never written.
   */
  lemma FinalSurveyEntry(dict1: Value, dict2: Value, dict3: Value, decode: string -> Decoded, k: Value, q: Value)
    requires Reconcile(dict1, dict2, dict3, decode).Ok?
    ensures var c := Reconcile(dict1, dict2, dict3, decode).value.0;
      Find(c, k).Some? ==> Find(Find(c, k).value.survey, q) == LastEntry(AllOps(dict1, dict2, dict3, decode), k, q)
    ensures var c := Reconcile(dict1, dict2, dict3, decode).value.0;
      Find(c, k).None? ==> LastEntry(AllOps(dict1, dict2, dict3, decode), k, q).None?
  {
    AllOpsFacts(dict1, dict2, dict3, decode);
    FinalEntry(AllOps(dict1, dict2, dict3, decode), k, q);
  }

  /**
   Source 3 has the last word: once the source-3 pass writes question id `q` of respondent `k`,
   the merged record of `k` exists and its `survey_data[q]` is the last such source-3 write,
   whatever sources 1 and 2 stored there.
   */
  lemma Source3Decides(dict1: Value, dict2: Value, dict3: Value, decode: string -> Decoded, k: Value, q: Value)
    requires Reconcile(dict1, dict2, dict3, decode).Ok?
    requires !Untouched(FlatMap(Source3Entries(dict3).value, Source3EntryStep(QuestionMapOf(dict1).value)).value, k, q)
    ensures var c := Reconcile(dict1, dict2, dict3, decode).value.0;
      var last := LastEntry(FlatMap(Source3Entries(dict3).value, Source3EntryStep(QuestionMapOf(dict1).value)).value, k, q);
      Find(c, k).Some? && last.Some? && Find(Find(c, k).value.survey, q) == last
  {
    var qmap := QuestionMapOf(dict1).value;
    var ops1 := Source1Ops(dict1).value;
    var ops2 := Source2Ops(dict2, qmap, decode).value;
    var ops3 := FlatMap(Source3Entries(dict3).value, Source3EntryStep(qmap)).value;
    Source3Facts(Source3Entries(dict3).value, qmap);
    assert NoResets(ops3) by {
      forall i | 0 <= i < |ops3| ensures !ops3[i].Reset? {
        assert ops3[i] in ops3;
      }
    }
    LastEntryOfWrite(ops3, k, q);
    LastEntryAppend(ops1 + ops2, ops3, k, q);
    FinalSurveyEntry(dict1, dict2, dict3, decode, k, q);
  }

  /** Each record of a successful merge carries its own respondent id in its common fields. */
  lemma MergedIdsAgree(dict1: Value, dict2: Value, dict3: Value, decode: string -> Decoded)
    requires Reconcile(dict1, dict2, dict3, decode).Ok?
    ensures IdsAgree(Reconcile(dict1, dict2, dict3, decode).value.0)
  {
    var ops := AllOps(dict1, dict2, dict3, decode);
    AllOpsFacts(dict1, dict2, dict3, decode);
    assert CreationsAgree(ops) by {
      forall i | 0 <= i < |ops| && !ops[i].Write? ensures Find(ops[i].common, "id") == Some(ops[i].id) {
        assert ops[i] in ops;
      }
    }
    IdsAgreeApplyAll([], ops);
  }

  /** The documents of records that carry their own ids: one per key, in key order. */
  lemma DocumentsOfAgreeing(c: Combined<Entry>, newIds: nat -> ObjectId)
    requires IdsAgree(c)
    ensures var docs := Documents(c, newIds);
      DocIds(docs) == Keys(c) &&
      (forall i :: 0 <= i < |docs| ==> docs[i].oid == ParseOr(docs[i].id, newIds(i)) && docs[i].record == c[i].1) &&
      ((forall n: nat :: Valid(newIds(n))) ==> forall i :: 0 <= i < |docs| ==> Valid(docs[i].oid))
  {
    var docs := Documents(c, newIds);
    forall i | 0 <= i < |docs| ensures docs[i].id == c[i].0 {
      assert c[i] in c;
      assert Find(c[i].1.common, "id") == Some(c[i].0);
      assert docs[i] == DocumentFor(c[i].0, c[i].1, newIds(i));
    }
    assert DocIds(docs) == Keys(c);
  }

  /** A successful run is the document build over a successful merge. */
  lemma ProcessDocuments(dict1: Value, dict2: Value, dict3: Value, decode: string -> Decoded,
                         newIds: nat -> ObjectId)
    requires Process(dict1, dict2, dict3, decode, newIds).Ok?
    ensures Reconcile(dict1, dict2, dict3, decode).Ok?
    ensures Process(dict1, dict2, dict3, decode, newIds).value ==
      Documents(Reconcile(dict1, dict2, dict3, decode).value.0, newIds)
  {
  }

  /**
   After a successful merge the run fails exactly when source 3 has no entry, with the
   UnboundLocalError of the unbound `cleaned_data`, and otherwise returns the documents of the merge.
   */
  lemma ProcessOfMerge(dict1: Value, dict2: Value, dict3: Value, decode: string -> Decoded,
                       newIds: nat -> ObjectId)
    requires Reconcile(dict1, dict2, dict3, decode).Ok?
    ensures Source3Entries(dict3).Ok?
    ensures |Source3Entries(dict3).value| == 0 ==> Process(dict1, dict2, dict3, decode, newIds) == Err(UnboundLocalError)
    ensures |Source3Entries(dict3).value| > 0 ==>
      (Process(dict1, dict2, dict3, decode, newIds).Ok? &&
       Process(dict1, dict2, dict3, decode, newIds).value == Documents(Reconcile(dict1, dict2, dict3, decode).value.0, newIds))
  {
  }

  /** The merged records are keyed by the respondent ids in order of first appearance, each once. */
  lemma MergedKeys(dict1: Value, dict2: Value, dict3: Value, decode: string -> Decoded)
    requires Reconcile(dict1, dict2, dict3, decode).Ok?
    ensures var c := Reconcile(dict1, dict2, dict3, decode).value.0;
      Keys(c) == AddNew([], RespondentIds(Source1Entries(dict1)) + RespondentIds(Source2Entries(dict2)) +
                            RespondentIds(Source3Entries(dict3))) &&
      Distinct(Keys(c))
  {
    var ops := AllOps(dict1, dict2, dict3, decode);
    AllOpsFacts(dict1, dict2, dict3, decode);
    var empty: Combined<Entry> := [];
    assert Keys(empty) == [];
    KeysApplyAll(empty, ops);
    AddNewDistinct([], CreatedIds(ops));
  }

  /**
   One document per distinct respondent id, in order of first appearance over sources 1, 2 and 3;
   a document's `id` is its own respondent id, and its `_id` is that id parsed as an ObjectId, or the
   fresh id generated for its position (valid whenever the generator is).
   */
  lemma DocumentsPerRespondent(dict1: Value, dict2: Value, dict3: Value, decode: string -> Decoded,
                               newIds: nat -> ObjectId)
    requires Process(dict1, dict2, dict3, decode, newIds).Ok?
    ensures var docs := Process(dict1, dict2, dict3, decode, newIds).value;
      DocIds(docs) == AddNew([], RespondentIds(Source1Entries(dict1)) + RespondentIds(Source2Entries(dict2)) +
                                 RespondentIds(Source3Entries(dict3))) &&
      Distinct(DocIds(docs)) &&
      (forall i :: 0 <= i < |docs| ==> docs[i].oid == ParseOr(docs[i].id, newIds(i))) &&
      ((forall n: nat :: Valid(newIds(n))) ==> forall i :: 0 <= i < |docs| ==> Valid(docs[i].oid))
  {
    ProcessDocuments(dict1, dict2, dict3, decode, newIds);
    var c := Reconcile(dict1, dict2, dict3, decode).value.0;
    MergedKeys(dict1, dict2, dict3, decode);
    MergedIdsAgree(dict1, dict2, dict3, decode);
    DocumentsOfAgreeing(c, newIds);
  }

  /** Every survey entry of a successful merge keeps only a comment that is neither "" nor null. */
  lemma MergedComments(dict1: Value, dict2: Value, dict3: Value, decode: string -> Decoded)
    requires Reconcile(dict1, dict2, dict3, decode).Ok?
    ensures EntriesSatisfy(Reconcile(dict1, dict2, dict3, decode).value.0, CommentKept)
  {
    var ops := AllOps(dict1, dict2, dict3, decode);
    AllOpsFacts(dict1, dict2, dict3, decode);
    assert WritesSatisfy(ops, CommentKept) by {
      forall i | 0 <= i < |ops| && ops[i].Write? ensures CommentKept(ops[i].entry) {
        assert ops[i] in ops;
      }
    }
    var empty: Combined<Entry> := [];
    assert EntriesSatisfy(empty, CommentKept);
    EntriesSatisfyApplyAll(empty, ops, CommentKept);
  }

  /** No stored survey entry carries a `comments` key whose value is "" or null. */
  lemma CommentsNeverBlank(dict1: Value, dict2: Value, dict3: Value, decode: string -> Decoded,
                           newIds: nat -> ObjectId)
    requires Process(dict1, dict2, dict3, decode, newIds).Ok?
    ensures var docs := Process(dict1, dict2, dict3, decode, newIds).value;
      forall i, q :: 0 <= i < |docs| && q in docs[i].record.survey ==> CommentKept(q.1)
  {
    ProcessDocuments(dict1, dict2, dict3, decode, newIds);
    var c := Reconcile(dict1, dict2, dict3, decode).value.0;
    MergedComments(dict1, dict2, dict3, decode);
    MergedIdsAgree(dict1, dict2, dict3, decode);
    DocumentsOfAgreeing(c, newIds);
    var docs := Documents(c, newIds);
    forall i, q | 0 <= i < |docs| && q in docs[i].record.survey ensures CommentKept(q.1) {
      assert c[i] in c;
    }
  }

  /**
   Sources 2 and 3 only create a record when it is absent: a respondent present after source 1 keeps
   the common fields source 1 gave it, and one present after source 2 keeps those it had then.
   */
  lemma CommonFieldsKept(dict1: Value, dict2: Value, dict3: Value, decode: string -> Decoded, k: Value)
    requires Reconcile(dict1, dict2, dict3, decode).Ok?
    ensures var after1 := ApplyAll([], Source1Ops(dict1).value);
      var final := Reconcile(dict1, dict2, dict3, decode).value.0;
      k in Keys(after1) ==> k in Keys(final) && CommonOf(final, k) == CommonOf(after1, k)
    ensures var after2 := ApplyAll([], Source1Ops(dict1).value + Source2Ops(dict2, QuestionMapOf(dict1).value, decode).value);
      var final := Reconcile(dict1, dict2, dict3, decode).value.0;
      k in Keys(after2) ==> k in Keys(final) && CommonOf(final, k) == CommonOf(after2, k)
  {
    var qmap := QuestionMapOf(dict1).value;
    var entries3 := Source3Entries(dict3).value;
    Source2Facts(dict2, qmap, decode);
    Source3Facts(entries3, qmap);
    CommonsKeptByLaterPasses(Source1Ops(dict1).value, Source2Ops(dict2, qmap, decode).value,
                             FlatMap(entries3, Source3EntryStep(qmap)).value, k);
  }
}
