/**
 The merged respondent records shared by both reconciliation variants. `combined_data` maps a
 respondent id to `{**common_fields, "survey_data": {...}}`; every pass over a source changes it
 by three kinds of step, collected here as an operation stream:
   - `Reset`: the unconditional `combined_data[id] = {...}` of source 1;
   - `CreateIfAbsent`: the guarded `if id not in combined_data: ...` of sources 2 and 3;
   - `Write`: `combined_data[id]["survey_data"][qid] = entry`.
 The facts about merging (key order, which common fields survive, last write wins, invariants
 carried by every record) are proved once, for any stream.
 */
module Records {
  import opened Wrappers
  import opened OrderedDict
  import opened Json
  import opened Folds

  /** The keys `extract_common_fields` copies; source 2 also skips exactly these labels. */
  const CommonKeys: seq<string> := ["id", "contact_id", "status", "date_submitted", "session_id",
    "language", "date_started", "ip_address", "referer", "user_agent", "country"]

  lemma CommonKeysDistinct()
    ensures Distinct(CommonKeys)
  {
  }

  /**
   `extract_common_fields(entry)`: the eleven common keys, in that order, each bound to the entry's
   value or to null when the entry lacks it. It raises AttributeError on anything but a dict.
   */
  function ExtractCommonFields(entry: Value): (r: Result<Dict<string, Value>>)
    ensures r.Ok? <==> entry.Obj?
    ensures r.Ok? ==> Keys(r.value) == CommonKeys
    ensures r.Ok? ==> forall i :: 0 <= i < |CommonKeys| ==> r.value[i].1 == Lookup(entry.fields, CommonKeys[i], Null)
  {
    if entry.Obj? then
      Ok(seq(|CommonKeys|, i requires 0 <= i < |CommonKeys| => (CommonKeys[i], Lookup(entry.fields, CommonKeys[i], Null))))
    else
      Err(AttributeError)
  }

  /** Looking a key up in the common fields: the entry's value for a common key, nothing for any other key. */
  lemma FindCommonFields(entry: Value, key: string)
    requires entry.Obj?
    ensures Find(ExtractCommonFields(entry).value, key) ==
      if key in CommonKeys then Some(Lookup(entry.fields, key, Null)) else None
  {
    var common := ExtractCommonFields(entry).value;
    CommonKeysDistinct();
    FindIn(common, key);
    if key in CommonKeys {
      var i :| 0 <= i < |CommonKeys| && CommonKeys[i] == key;
      assert Keys(common)[i] == key;
      FindAt(common, i);
    }
  }

  /** The common id field agrees with the entry's own id. */
  lemma CommonFieldsId(entry: Value, id: Value)
    requires Subscript(entry, "id") == Ok(id)
    ensures Find(ExtractCommonFields(entry).value, "id") == Some(id)
  {
    FindCommonFields(entry, "id");
  }

  // ---------------------------------------------------------------- the respondent lists of the payloads

  /** `for entry in dict_1["data"]`. */
  function Source1Entries(dict1: Value): Result<seq<Value>> {
    var data :- Subscript(dict1, "data");
    Iterate(data)
  }

  /** `for entry in dict_2["data"]`. */
  function Source2Entries(dict2: Value): Result<seq<Value>> {
    var data :- Subscript(dict2, "data");
    Iterate(data)
  }

  /** `for entry in dict_3["survey_answer"]["data"]["item"]`. */
  function Source3Entries(dict3: Value): Result<seq<Value>> {
    var answers :- Subscript(dict3, "survey_answer");
    var data :- Subscript(answers, "data");
    var items :- Subscript(data, "item");
    Iterate(items)
  }

  /** The `id` key of a respondent entry, as `extract_common_fields` copies it. */
  function IdOf(entry: Value): Value {
    if entry.Obj? then Lookup(entry.fields, "id", Null) else Null
  }

  /** The ids of a respondent stream, one per entry, in order. */
  function RespondentIds(entries: Result<seq<Value>>): seq<Value> {
    if entries.Ok? then MapIds(entries.value, IdOf) else []
  }


  datatype Record<E> = Record(common: Dict<string, Value>, survey: Dict<Value, E>)

  type Combined<E> = Dict<Value, Record<E>>

  datatype Op<E> =
    | Reset(id: Value, common: Dict<string, Value>)
    | CreateIfAbsent(id: Value, common: Dict<string, Value>)
    | Write(id: Value, qid: Value, entry: E)

  /** `combined_data[id]["survey_data"][qid] = entry`, on a respondent already present. */
  function SetEntry<E>(c: Combined<E>, id: Value, qid: Value, entry: E): Combined<E> {
    match Find(c, id)
    case Some(rec) => Put(c, id, Record(rec.common, Put(rec.survey, qid, entry)))
    case None => c
  }

  function Apply<E>(c: Combined<E>, op: Op<E>): Combined<E> {
    match op
    case Reset(id, common) => Put(c, id, Record(common, []))
    case CreateIfAbsent(id, common) => PutIfAbsent(c, id, Record(common, []))
    case Write(id, qid, entry) => SetEntry(c, id, qid, entry)
  }

  function ApplyAll<E>(c: Combined<E>, ops: seq<Op<E>>): Combined<E>
    decreases |ops|
  {
    if ops == [] then c
    else var n := |ops| - 1; Apply(ApplyAll(c, ops[..n]), ops[n])
  }

  /** `ApplyAll` of a stream that may have failed. */
  function Applied<E>(c: Combined<E>, ops: Result<seq<Op<E>>>): Result<Combined<E>> {
    match ops
    case Ok(xs) => Ok(ApplyAll(c, xs))
    case Err(e) => Err(e)
  }

  /** The respondent ids the stream creates or resets, in stream order. */
  function CreatedIds<E>(ops: seq<Op<E>>): seq<Value>
    decreases |ops|
  {
    if ops == [] then []
    else
      var n := |ops| - 1;
      CreatedIds(ops[..n]) + (if ops[n].Write? then [] else [ops[n].id])
  }

  lemma ApplyAllSnoc<E>(c: Combined<E>, ops: seq<Op<E>>, op: Op<E>)
    ensures ApplyAll(c, ops + [op]) == Apply(ApplyAll(c, ops), op)
  {
    assert (ops + [op])[..|ops|] == ops;
  }

  /** Applying two streams one after the other is applying their concatenation. */
  lemma {:induction false} ApplyAllAppend<E>(c: Combined<E>, xs: seq<Op<E>>, ys: seq<Op<E>>)
    ensures ApplyAll(c, xs + ys) == ApplyAll(ApplyAll(c, xs), ys)
    decreases |ys|
  {
    if ys == [] {
      assert xs + ys == xs;
    } else {
      var n := |ys| - 1;
      ApplyAllAppend(c, xs, ys[..n]);
      assert xs + ys == (xs + ys[..n]) + [ys[n]];
      ApplyAllSnoc(c, xs + ys[..n], ys[n]);
      assert ys == ys[..n] + [ys[n]];
    }
  }

  /** A first operation followed by a stream, as the merge of one entry performs them. */
  lemma EntryApplied<E>(c: Combined<E>, first: Op<E>, writes: seq<Op<E>>)
    ensures ApplyAll(c, [first] + writes) == ApplyAll(Apply(c, first), writes)
  {
    ApplyAllAppend(c, [first], writes);
    assert [first][..0] == [];
  }

  lemma {:induction false} CreatedIdsAppend<E>(xs: seq<Op<E>>, ys: seq<Op<E>>)
    ensures CreatedIds(xs + ys) == CreatedIds(xs) + CreatedIds(ys)
    decreases |ys|
  {
    if ys == [] {
      assert xs + ys == xs;
    } else {
      var n := |ys| - 1;
      CreatedIdsAppend(xs, ys[..n]);
      assert (xs + ys)[..|xs + ys| - 1] == xs + ys[..n];
    }
  }

  /** A write changes no key of the mapping. */
  lemma KeysSetEntry<E>(c: Combined<E>, id: Value, qid: Value, entry: E)
    ensures Keys(SetEntry(c, id, qid, entry)) == Keys(c)
  {
    FindIn(c, id);
    if Find(c, id).Some? {
      KeysPut(c, id, Record(Find(c, id).value.common, Put(Find(c, id).value.survey, qid, entry)));
    }
  }

  /**
   The respondents of the merged mapping are the ones present before followed by each created id
   not seen before, in order of first appearance.
   */
  lemma {:induction false} KeysApplyAll<E>(c: Combined<E>, ops: seq<Op<E>>)
    ensures Keys(ApplyAll(c, ops)) == AddNew(Keys(c), CreatedIds(ops))
    decreases |ops|
  {
    if ops != [] {
      var n := |ops| - 1;
      var prev := ApplyAll(c, ops[..n]);
      KeysApplyAll(c, ops[..n]);
      match ops[n]
      case Reset(id, common) =>
        KeysPut(prev, id, Record(common, []));
      case CreateIfAbsent(id, common) =>
        KeysPut(prev, id, Record(common, []));
      case Write(id, qid, entry) =>
        KeysSetEntry(prev, id, qid, entry);
        assert ApplyAll(c, ops) == SetEntry(prev, id, qid, entry);
        assert CreatedIds(ops) == CreatedIds(ops[..n]) + [];
        assert CreatedIds(ops) == CreatedIds(ops[..n]);
    }
  }

  /** The common fields of respondent `k`, if present. */
  function CommonOf<E>(c: Combined<E>, k: Value): Option<Dict<string, Value>> {
    match Find(c, k)
    case Some(rec) => Some(rec.common)
    case None => None
  }

  /** No operation of the stream resets respondent `k`. */
  predicate NoReset<E>(ops: seq<Op<E>>, k: Value) {
    forall i :: 0 <= i < |ops| ==> !(ops[i].Reset? && ops[i].id == k)
  }

  /** Sources 2 and 3 never reset a respondent. */
  predicate NoResets<E>(ops: seq<Op<E>>) {
    forall i :: 0 <= i < |ops| ==> !ops[i].Reset?
  }

  /** A single operation other than a reset of `k` keeps `k` present with its common fields. */
  lemma ApplyKeepsCommon<E>(c: Combined<E>, op: Op<E>, k: Value)
    requires k in Keys(c) && !(op.Reset? && op.id == k)
    ensures k in Keys(Apply(c, op))
    ensures CommonOf(Apply(c, op), k) == CommonOf(c, k)
  {
    FindIn(c, k);
    match op
    case Reset(id, common) =>
      FindPut(c, id, Record(common, []), k);
      KeysPut(c, id, Record(common, []));
    case CreateIfAbsent(id, common) =>
      FindPut(c, id, Record(common, []), k);
      KeysPut(c, id, Record(common, []));
    case Write(id, qid, entry) =>
      KeysSetEntry(c, id, qid, entry);
      if Find(c, id).Some? {
        FindPut(c, id, Record(Find(c, id).value.common, Put(Find(c, id).value.survey, qid, entry)), k);
      }
  }

  /**
   Create-only-if-absent: a stream that never resets `k` leaves the common fields of a respondent
   already present untouched.
   */
  lemma {:induction false} CommonKept<E>(c: Combined<E>, ops: seq<Op<E>>, k: Value)
    requires k in Keys(c) && NoReset(ops, k)
    ensures k in Keys(ApplyAll(c, ops))
    ensures CommonOf(ApplyAll(c, ops), k) == CommonOf(c, k)
    decreases |ops|
  {
    if ops != [] {
      var n := |ops| - 1;
      CommonKept(c, ops[..n], k);
      ApplyKeepsCommon(ApplyAll(c, ops[..n]), ops[n], k);
    }
  }

  /** Respondent `k` is present, and its entry for `q` is `e`. */
  ghost predicate HasEntry<E>(c: Combined<E>, k: Value, q: Value, e: E) {
    Find(c, k).Some? && Find(Find(c, k).value.survey, q) == Some(e)
  }

  /** The operation resets `k` or writes its entry `q`. */
  predicate Touches<E>(op: Op<E>, k: Value, q: Value) {
    (op.Reset? && op.id == k) || (op.Write? && op.id == k && op.qid == q)
  }

  /** No operation of the stream resets `k` or writes its entry `q`. */
  predicate Untouched<E>(ops: seq<Op<E>>, k: Value, q: Value) {
    forall i :: 0 <= i < |ops| ==> !Touches(ops[i], k, q)
  }

  lemma UntouchedSnoc<E>(ops: seq<Op<E>>, k: Value, q: Value)
    requires |ops| > 0
    ensures Untouched(ops, k, q) <==> Untouched(ops[..|ops| - 1], k, q) && !Touches(ops[|ops| - 1], k, q)
  {
    var n := |ops| - 1;
    if Untouched(ops[..n], k, q) && !Touches(ops[n], k, q) {
      forall i | 0 <= i < |ops| ensures !Touches(ops[i], k, q) {
        if i < n {
          assert ops[..n][i] == ops[i];
        }
      }
    }
    if Untouched(ops, k, q) {
      forall i | 0 <= i < n ensures !Touches(ops[..n][i], k, q) {
        assert ops[..n][i] == ops[i];
      }
    }
  }

  lemma ApplyKeepsEntry<E>(c: Combined<E>, op: Op<E>, k: Value, q: Value, e: E)
    requires HasEntry(c, k, q, e)
    requires !(op.Reset? && op.id == k) && !(op.Write? && op.id == k && op.qid == q)
    ensures HasEntry(Apply(c, op), k, q, e)
  {
    FindIn(c, k);
    match op
    case Reset(id, common) =>
      FindPut(c, id, Record(common, []), k);
    case CreateIfAbsent(id, common) =>
      FindPut(c, id, Record(common, []), k);
    case Write(id, qid, entry) =>
      if Find(c, id).Some? {
        var rec := Find(c, id).value;
        FindPut(c, id, Record(rec.common, Put(rec.survey, qid, entry)), k);
        FindPut(rec.survey, qid, entry, q);
      }
  }

  /**
   Last write wins: after `survey_data[q] = e` on a present respondent, the entry stays `e` as
   long as no later operation resets the respondent or writes `q` again.
   */
  lemma {:induction false} LastWriteWins<E>(c: Combined<E>, pre: seq<Op<E>>, k: Value, q: Value, e: E, post: seq<Op<E>>)
    requires k in Keys(ApplyAll(c, pre)) && Untouched(post, k, q)
    ensures HasEntry(ApplyAll(c, pre + [Write(k, q, e)] + post), k, q, e)
    decreases |post|
  {
    if post == [] {
      var mid := ApplyAll(c, pre);
      assert pre + [Write(k, q, e)] + post == pre + [Write(k, q, e)];
      ApplyAllSnoc(c, pre, Write(k, q, e));
      FindIn(mid, k);
      var rec := Find(mid, k).value;
      FindPut(mid, k, Record(rec.common, Put(rec.survey, q, e)), k);
      FindPut(rec.survey, q, e, q);
    } else {
      var n := |post| - 1;
      LastWriteWins(c, pre, k, q, e, post[..n]);
      assert pre + [Write(k, q, e)] + post == (pre + [Write(k, q, e)] + post[..n]) + [post[n]];
      ApplyAllSnoc(c, pre + [Write(k, q, e)] + post[..n], post[n]);
      ApplyKeepsEntry(ApplyAll(c, pre + [Write(k, q, e)] + post[..n]), post[n], k, q, e);
    }
  }

  /** Every write of the stream comes after an operation that created or reset its respondent. */
  predicate WritesFollowCreation<E>(ops: seq<Op<E>>) {
    forall i :: 0 <= i < |ops| && ops[i].Write? ==> ops[i].id in CreatedIds(ops[..i])
  }

  /**
   A reference reading of a stream, with no mapping in it: the entry it leaves for question `q`
   of respondent `k` is that of its last write to `(k, q)`, unless a later reset of `k` cleared it.
   */
  function LastEntry<E>(ops: seq<Op<E>>, k: Value, q: Value): Option<E>
    decreases |ops|
  {
    if ops == [] then None
    else
      var n := |ops| - 1;
      match ops[n]
      case Write(id, qid, e) => if id == k && qid == q then Some(e) else LastEntry(ops[..n], k, q)
      case Reset(id, _) => if id == k then None else LastEntry(ops[..n], k, q)
      case CreateIfAbsent(_, _) => LastEntry(ops[..n], k, q)
  }

  /**
   Merging a stream whose writes follow their creations leaves, for every respondent present, the
   survey entry `LastEntry` names; a respondent missing from the result was never written.
   */
  lemma {:induction false} FinalEntry<E>(ops: seq<Op<E>>, k: Value, q: Value)
    requires WritesFollowCreation(ops)
    ensures Find(ApplyAll([], ops), k).Some? ==> Find(Find(ApplyAll([], ops), k).value.survey, q) == LastEntry(ops, k, q)
    ensures Find(ApplyAll([], ops), k).None? ==> LastEntry(ops, k, q).None?
    decreases |ops|
  {
    if ops != [] {
      var n := |ops| - 1;
      var pre := ops[..n];
      WritesFollowCreationPrefix(ops, n);
      FinalEntry(pre, k, q);
      var prev := ApplyAll([], pre);
      match ops[n]
      case Reset(id, common) =>
        FindPut(prev, id, Record(common, []), k);
      case CreateIfAbsent(id, common) =>
        FindIn(prev, id);
        FindPut(prev, id, Record(common, []), k);
      case Write(id, qid, e) =>
        assert id in CreatedIds(pre) by {
          assert ops[n].Write?;
        }
        var empty: Combined<E> := [];
        KeysApplyAll(empty, pre);
        AddNewIn(Keys(empty), CreatedIds(pre), id);
        FindIn(prev, id);
        var rec := Find(prev, id).value;
        FindPut(prev, id, Record(rec.common, Put(rec.survey, qid, e)), k);
        FindPut(rec.survey, qid, e, q);
    }
  }

  lemma WritesFollowCreationPrefix<E>(ops: seq<Op<E>>, n: nat)
    requires WritesFollowCreation(ops) && n <= |ops|
    ensures WritesFollowCreation(ops[..n])
  {
    var pre := ops[..n];
    forall i | 0 <= i < |pre| && pre[i].Write? ensures pre[i].id in CreatedIds(pre[..i]) {
      assert pre[..i] == ops[..i];
      assert pre[i] == ops[i];
    }
  }

  /** Streams whose writes follow their creations stay so when concatenated. */
  lemma WritesFollowCreationAppend<E>(xs: seq<Op<E>>, ys: seq<Op<E>>)
    requires WritesFollowCreation(xs) && WritesFollowCreation(ys)
    ensures WritesFollowCreation(xs + ys)
  {
    var zs := xs + ys;
    forall i | 0 <= i < |zs| && zs[i].Write? ensures zs[i].id in CreatedIds(zs[..i]) {
      if i < |xs| {
        assert zs[..i] == xs[..i];
        assert zs[i] == xs[i];
      } else {
        var j := i - |xs|;
        assert zs[..i] == xs + ys[..j];
        assert zs[i] == ys[j];
        CreatedIdsAppend(xs, ys[..j]);
      }
    }
  }

  /** A completed loop whose every iteration yields a stream with writes after creations yields one too. */
  lemma {:induction false} WritesFollowCreationFlatMap<X, E>(xs: seq<X>, f: X -> Result<seq<Op<E>>>)
    requires FlatMap(xs, f).Ok?
    requires forall i :: 0 <= i < |xs| && f(xs[i]).Ok? ==> WritesFollowCreation(f(xs[i]).value)
    ensures WritesFollowCreation(FlatMap(xs, f).value)
    decreases |xs|
  {
    if xs != [] {
      var n := |xs| - 1;
      var prefix := xs[..n];
      FlatMapOk(xs, f, n);
      assert FlatMap(prefix, f).Ok?;
      forall i | 0 <= i < |prefix| && f(prefix[i]).Ok? ensures WritesFollowCreation(f(prefix[i]).value) {
        assert prefix[i] == xs[i];
      }
      WritesFollowCreationFlatMap(prefix, f);
      assert FlatMap(xs, f).value == FlatMap(prefix, f).value + f(xs[n]).value;
      WritesFollowCreationAppend(FlatMap(prefix, f).value, f(xs[n]).value);
    }
  }

  /** The stream of one entry: a creation or reset of its respondent, then writes to that respondent only. */
  lemma EntryWritesFollowCreation<E>(ops: seq<Op<E>>)
    requires |ops| > 0 && !ops[0].Write?
    requires forall i :: 0 < i < |ops| ==> ops[i].Write? && ops[i].id == ops[0].id
    ensures WritesFollowCreation(ops)
  {
    forall i | 0 <= i < |ops| && ops[i].Write? ensures ops[i].id in CreatedIds(ops[..i]) {
      assert ops[..i] == [ops[0]] + ops[1..i];
      CreatedIdsAppend([ops[0]], ops[1..i]);
      assert CreatedIds([ops[0]]) == CreatedIds([ops[0]][..0]) + [ops[0].id];
    }
  }

  /** A later stream that resets `k` or writes `(k, q)` decides the entry; one that does neither leaves the earlier one. */
  lemma {:induction false} LastEntryAppend<E>(xs: seq<Op<E>>, ys: seq<Op<E>>, k: Value, q: Value)
    ensures LastEntry(xs + ys, k, q) == if Untouched(ys, k, q) then LastEntry(xs, k, q) else LastEntry(ys, k, q)
    decreases |ys|
  {
    if ys == [] {
      assert xs + ys == xs;
    } else {
      var n := |ys| - 1;
      assert (xs + ys)[..|xs + ys| - 1] == xs + ys[..n];
      assert (xs + ys)[|xs + ys| - 1] == ys[n];
      LastEntryAppend(xs, ys[..n], k, q);
      UntouchedSnoc(ys, k, q);
    }
  }

  /** A stream with no reset that writes `(k, q)` leaves an entry for it. */
  lemma {:induction false} LastEntryOfWrite<E>(ops: seq<Op<E>>, k: Value, q: Value)
    requires NoResets(ops) && !Untouched(ops, k, q)
    ensures LastEntry(ops, k, q).Some?
    decreases |ops|
  {
    var i :| 0 <= i < |ops| && Touches(ops[i], k, q);
    var n := |ops| - 1;
    if i < n && !(ops[n].Write? && ops[n].id == k && ops[n].qid == q) {
      var pre := ops[..n];
      forall j | 0 <= j < |pre| ensures !pre[j].Reset? {
        assert pre[j] == ops[j];
      }
      assert pre[i] == ops[i];
      LastEntryOfWrite(pre, k, q);
    }
  }

  /** Every record's common `id` field is its own key. */
  ghost predicate IdsAgree<E>(c: Combined<E>) {
    forall p :: p in c ==> Find(p.1.common, "id") == Some(p.0)
  }

  /** Every record the stream creates carries its own id in its common fields. */
  ghost predicate CreationsAgree<E>(ops: seq<Op<E>>) {
    forall i :: 0 <= i < |ops| && !ops[i].Write? ==> Find(ops[i].common, "id") == Some(ops[i].id)
  }

  lemma ApplyIdsAgree<E>(c: Combined<E>, op: Op<E>)
    requires IdsAgree(c) && (!op.Write? ==> Find(op.common, "id") == Some(op.id))
    ensures IdsAgree(Apply(c, op))
  {
    var c' := Apply(c, op);
    forall p | p in c' ensures Find(p.1.common, "id") == Some(p.0) {
      match op
      case Reset(id, common) =>
        PutPairs(c, id, Record(common, []), p);
      case CreateIfAbsent(id, common) =>
        if id !in Keys(c) {
          PutPairs(c, id, Record(common, []), p);
        }
      case Write(id, qid, entry) =>
        if Find(c, id).Some? {
          var rec := Find(c, id).value;
          FindPair(c, id);
          PutPairs(c, id, Record(rec.common, Put(rec.survey, qid, entry)), p);
        }
    }
  }

  /** Agreement of ids is an invariant of merging. */
  lemma {:induction false} IdsAgreeApplyAll<E>(c: Combined<E>, ops: seq<Op<E>>)
    requires IdsAgree(c) && CreationsAgree(ops)
    ensures IdsAgree(ApplyAll(c, ops))
    decreases |ops|
  {
    if ops != [] {
      var n := |ops| - 1;
      assert CreationsAgree(ops[..n]) by {
        forall i | 0 <= i < n && !ops[..n][i].Write? ensures Find(ops[..n][i].common, "id") == Some(ops[..n][i].id) {
          assert ops[..n][i] == ops[i];
        }
      }
      IdsAgreeApplyAll(c, ops[..n]);
      ApplyIdsAgree(ApplyAll(c, ops[..n]), ops[n]);
    }
  }

  /** Every survey entry of every record satisfies `p`. */
  ghost predicate EntriesSatisfy<E>(c: Combined<E>, p: E -> bool) {
    forall r :: r in c ==> forall q :: q in r.1.survey ==> p(q.1)
  }

  /** Every entry the stream writes satisfies `p`. */
  ghost predicate WritesSatisfy<E>(ops: seq<Op<E>>, p: E -> bool) {
    forall i :: 0 <= i < |ops| && ops[i].Write? ==> p(ops[i].entry)
  }

  lemma ApplyEntriesSatisfy<E>(c: Combined<E>, op: Op<E>, p: E -> bool)
    requires EntriesSatisfy(c, p) && (op.Write? ==> p(op.entry))
    ensures EntriesSatisfy(Apply(c, op), p)
  {
    var c' := Apply(c, op);
    forall r | r in c' ensures forall q :: q in r.1.survey ==> p(q.1) {
      match op
      case Reset(id, common) =>
        PutPairs(c, id, Record(common, []), r);
      case CreateIfAbsent(id, common) =>
        if id !in Keys(c) {
          PutPairs(c, id, Record(common, []), r);
        }
      case Write(id, qid, entry) =>
        if Find(c, id).Some? {
          var rec := Find(c, id).value;
          FindPair(c, id);
          PutPairs(c, id, Record(rec.common, Put(rec.survey, qid, entry)), r);
          forall q | q in Put(rec.survey, qid, entry) ensures p(q.1) {
            PutPairs(rec.survey, qid, entry, q);
          }
        }
    }
  }

  /** A property of every written entry holds of every entry of the merged mapping. */
  lemma {:induction false} EntriesSatisfyApplyAll<E>(c: Combined<E>, ops: seq<Op<E>>, p: E -> bool)
    requires EntriesSatisfy(c, p) && WritesSatisfy(ops, p)
    ensures EntriesSatisfy(ApplyAll(c, ops), p)
    decreases |ops|
  {
    if ops != [] {
      var n := |ops| - 1;
      assert WritesSatisfy(ops[..n], p) by {
        forall i | 0 <= i < n && ops[..n][i].Write? ensures p(ops[..n][i].entry) {
          assert ops[..n][i] == ops[i];
        }
      }
      EntriesSatisfyApplyAll(c, ops[..n], p);
      ApplyEntriesSatisfy(ApplyAll(c, ops[..n]), ops[n], p);
    }
  }

  /** A stream of writes creates no respondent. */
  lemma {:induction false} CreatedIdsOfWrites<E>(ops: seq<Op<E>>)
    requires forall op :: op in ops ==> op.Write?
    ensures CreatedIds(ops) == []
    decreases |ops|
  {
    if ops != [] {
      var n := |ops| - 1;
      assert ops[n] in ops;
      assert forall op :: op in ops[..n] ==> op in ops;
      CreatedIdsOfWrites(ops[..n]);
    }
  }

  /** `g` of each element, in order. */
  function MapIds<X>(xs: seq<X>, g: X -> Value): seq<Value>
    decreases |xs|
  {
    if xs == [] then [] else var n := |xs| - 1; MapIds(xs[..n], g) + [g(xs[n])]
  }

  /**
   When each element of a loop creates exactly one respondent, `g` of that element, the loop
   creates the respondents `g` of its elements, in order.
   */
  lemma {:induction false} CreatedIdsFlatMap<X, E>(xs: seq<X>, f: X -> Result<seq<Op<E>>>, g: X -> Value)
    requires FlatMap(xs, f).Ok?
    requires forall i :: 0 <= i < |xs| && f(xs[i]).Ok? ==> CreatedIds(f(xs[i]).value) == [g(xs[i])]
    ensures CreatedIds(FlatMap(xs, f).value) == MapIds(xs, g)
    decreases |xs|
  {
    if xs != [] {
      var n := |xs| - 1;
      var prefix := xs[..n];
      FlatMapOk(xs, f, n);
      assert FlatMap(prefix, f).Ok?;
      forall i | 0 <= i < |prefix| && f(prefix[i]).Ok? ensures CreatedIds(f(prefix[i]).value) == [g(prefix[i])] {
        assert prefix[i] == xs[i];
      }
      CreatedIdsFlatMap(prefix, f, g);
      var ys := FlatMap(prefix, f).value;
      var zs := f(xs[n]).value;
      assert FlatMap(xs, f).value == ys + zs;
      CreatedIdsAppend(ys, zs);
    }
  }

  /** The creation and the writes of one entry: the created record carries the entry's id, and the entry creates that id alone. */
  lemma CreationStream<E>(entry: Value, first: Op<E>, writes: seq<Op<E>>)
    requires Subscript(entry, "id") == Ok(first.id) && !first.Write?
    requires first.common == ExtractCommonFields(entry).value
    requires forall op :: op in writes ==> op.Write?
    ensures Find(first.common, "id") == Some(first.id)
    ensures CreatedIds([first] + writes) == [IdOf(entry)]
  {
    CommonFieldsId(entry, first.id);
    CreatedIdsOfWrites(writes);
    CreatedIdsAppend([first], writes);
    assert CreatedIds([first]) == CreatedIds([first][..0]) + [first.id];
  }

  /**
   Passes that never reset: a respondent present after the first of three passes keeps the common
   fields it had then, and so does one present after the second.
   */
  lemma CommonsKeptByLaterPasses<E>(ops1: seq<Op<E>>, ops2: seq<Op<E>>, ops3: seq<Op<E>>, k: Value)
    requires forall op :: op in ops2 ==> !op.Reset?
    requires forall op :: op in ops3 ==> !op.Reset?
    ensures var after1 := ApplyAll([], ops1); var final := ApplyAll([], ops1 + ops2 + ops3);
      k in Keys(after1) ==> k in Keys(final) && CommonOf(final, k) == CommonOf(after1, k)
    ensures var after2 := ApplyAll([], ops1 + ops2); var final := ApplyAll([], ops1 + ops2 + ops3);
      k in Keys(after2) ==> k in Keys(final) && CommonOf(final, k) == CommonOf(after2, k)
  {
    assert ops1 + ops2 + ops3 == ops1 + (ops2 + ops3);
    ApplyAllAppend([], ops1, ops2 + ops3);
    ApplyAllAppend([], ops1 + ops2, ops3);
    assert NoReset(ops2 + ops3, k) by {
      forall i | 0 <= i < |ops2 + ops3| ensures !((ops2 + ops3)[i].Reset? && (ops2 + ops3)[i].id == k) {
        assert (ops2 + ops3)[i] in ops2 + ops3;
      }
    }
    assert NoReset(ops3, k) by {
      forall i | 0 <= i < |ops3| ensures !(ops3[i].Reset? && ops3[i].id == k) {
        assert ops3[i] in ops3;
      }
    }
    var after1 := ApplyAll([], ops1);
    var after2 := ApplyAll([], ops1 + ops2);
    if k in Keys(after1) {
      CommonKept(after1, ops2 + ops3, k);
    }
    if k in Keys(after2) {
      CommonKept(after2, ops3, k);
    }
  }

  /** The common fields of every record satisfy `p`. */
  ghost predicate CommonsSatisfy<E>(c: Combined<E>, p: Dict<string, Value> -> bool) {
    forall r :: r in c ==> p(r.1.common)
  }

  /** The common fields of every record the stream creates or resets satisfy `p`. */
  ghost predicate CreationsSatisfy<E>(ops: seq<Op<E>>, p: Dict<string, Value> -> bool) {
    forall i :: 0 <= i < |ops| && !ops[i].Write? ==> p(ops[i].common)
  }

  lemma ApplyCommonsSatisfy<E>(c: Combined<E>, op: Op<E>, p: Dict<string, Value> -> bool)
    requires CommonsSatisfy(c, p) && (!op.Write? ==> p(op.common))
    ensures CommonsSatisfy(Apply(c, op), p)
  {
    var c' := Apply(c, op);
    forall r | r in c' ensures p(r.1.common) {
      match op
      case Reset(id, common) =>
        PutPairs(c, id, Record(common, []), r);
      case CreateIfAbsent(id, common) =>
        if id !in Keys(c) {
          PutPairs(c, id, Record(common, []), r);
        }
      case Write(id, qid, entry) =>
        if Find(c, id).Some? {
          var rec := Find(c, id).value;
          FindPair(c, id);
          PutPairs(c, id, Record(rec.common, Put(rec.survey, qid, entry)), r);
        }
    }
  }

  /** A property of every created record's common fields holds of every record of the merged mapping. */
  lemma {:induction false} CommonsSatisfyApplyAll<E>(c: Combined<E>, ops: seq<Op<E>>, p: Dict<string, Value> -> bool)
    requires CommonsSatisfy(c, p) && CreationsSatisfy(ops, p)
    ensures CommonsSatisfy(ApplyAll(c, ops), p)
    decreases |ops|
  {
    if ops != [] {
      var n := |ops| - 1;
      assert CreationsSatisfy(ops[..n], p) by {
        forall i | 0 <= i < n && !ops[..n][i].Write? ensures p(ops[..n][i].common) {
          assert ops[..n][i] == ops[i];
        }
      }
      CommonsSatisfyApplyAll(c, ops[..n], p);
      ApplyCommonsSatisfy(ApplyAll(c, ops[..n]), ops[n], p);
    }
  }
}
