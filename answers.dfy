/**
 The answer encodings shared by both reconciliation variants: the ranked-option triple,
 the lenient list normalisation of data_process.py, the strict list rewrite applied to
 decoded source-2 lists, the unwrapping of source-3 `{"item": ...}` answers and the
 treatment of comments.
 */
module Answers {
  import opened Wrappers
  import opened OrderedDict
  import opened Json

  /** What `json.loads` makes of a string; the decoder itself is a parameter of the model. */
  datatype Decoded = Parsed(value: Value) | DecodeError

  /** `{"id": id, "option": option, "rank": rank}`. */
  function Triple(id: Value, option: Value, rank: Value): Value {
    Obj([("id", id), ("option", option), ("rank", rank)])
  }

  /** A dict with exactly the keys id, option and rank, in that order. */
  predicate IsTriple(v: Value) {
    v.Obj? && |v.fields| == 3 && Keys(v.fields) == ["id", "option", "rank"]
  }

  /** A list whose every element is a triple: what normalisation produces. */
  predicate IsChoiceList(v: Value) {
    v.List? && forall i :: 0 <= i < |v.items| ==> IsTriple(v.items[i])
  }

  /** The element rule of the lenient normalisation (data_process.py:90-101). */
  function NormaliseItem(item: Value): Value {
    if item.Obj? then
      Triple(Lookup(item.fields, "id", Str("")), Lookup(item.fields, "option", Str("")), Lookup(item.fields, "rank", Str("")))
    else
      Triple(Str(""), item, Str(""))
  }

  /**
   The lenient list normalisation: a list keeps its length and order, a dict element becomes
   the triple of its id, option and rank ("" where missing), any other element becomes the
   option of a triple with empty id and rank; a value that is not a list is left as it is.
   */
  function NormaliseAnswer(answer: Value): (r: Value)
    ensures !answer.List? ==> r == answer
    ensures answer.List? ==> IsChoiceList(r) && |r.items| == |answer.items|
    ensures answer.List? ==> forall i :: 0 <= i < |answer.items| && answer.items[i].Obj? ==>
      r.items[i] == Triple(Lookup(answer.items[i].fields, "id", Str("")),
                           Lookup(answer.items[i].fields, "option", Str("")),
                           Lookup(answer.items[i].fields, "rank", Str("")))
    ensures answer.List? ==> forall i :: 0 <= i < |answer.items| && !answer.items[i].Obj? ==>
      r.items[i] == Triple(Str(""), answer.items[i], Str(""))
  {
    if answer.List? then
      List(seq(|answer.items|, i requires 0 <= i < |answer.items| => NormaliseItem(answer.items[i])))
    else
      answer
  }

  lemma TripleFields(t: Value)
    requires IsTriple(t)
    ensures t == Triple(t.fields[0].1, t.fields[1].1, t.fields[2].1)
  {
    assert Keys(t.fields)[0] == "id" && Keys(t.fields)[1] == "option" && Keys(t.fields)[2] == "rank";
    assert t.fields == [("id", t.fields[0].1), ("option", t.fields[1].1), ("rank", t.fields[2].1)];
  }

  /** Normalising a triple gives the same triple. */
  lemma NormaliseTriple(t: Value)
    requires IsTriple(t)
    ensures NormaliseItem(t) == t
  {
    TripleFields(t);
    var fs := t.fields;
    assert Find(fs, "id") == Some(fs[0].1);
    assert Find(fs, "option") == Find(fs[1..], "option") == Some(fs[1].1);
    assert Find(fs, "rank") == Find(fs[1..], "rank") == Find(fs[2..], "rank") == Some(fs[2].1);
  }

  /** Normalisation leaves a list of triples as it is. */
  lemma {:induction false} NormaliseChoiceList(v: Value)
    requires IsChoiceList(v)
    ensures NormaliseAnswer(v) == v
  {
    var r := NormaliseAnswer(v);
    forall i | 0 <= i < |v.items| ensures r.items[i] == v.items[i] {
      NormaliseTriple(v.items[i]);
    }
    assert r.items == v.items;
  }

  /** Normalisation is idempotent. */
  lemma NormaliseIdempotent(v: Value)
    ensures NormaliseAnswer(NormaliseAnswer(v)) == NormaliseAnswer(v)
  {
    if v.List? {
      NormaliseChoiceList(NormaliseAnswer(v));
    }
  }

  /**
   The append loop that builds `formatted_answer` (data_process.py:87-102); it agrees with
   the normalisation above.
   */
  method FormatAnswer(answer: Value) returns (r: Value)
    ensures r == NormaliseAnswer(answer)
  {
    if !answer.List? {
      return answer;
    }
    var formatted: seq<Value> := [];
    for i := 0 to |answer.items|
      invariant |formatted| == i
      invariant forall k :: 0 <= k < i ==> formatted[k] == NormaliseItem(answer.items[k])
    {
      var item := answer.items[i];
      if item.Obj? {
        formatted := formatted + [Triple(Lookup(item.fields, "id", Str("")),
                                         Lookup(item.fields, "option", Str("")),
                                         Lookup(item.fields, "rank", Str("")))];
      } else {
        formatted := formatted + [Triple(Str(""), item, Str(""))];
      }
    }
    r := List(formatted);
  }

  /** `{"id": item["id"], "option": item["option"], "rank": item["rank"]}`. */
  function StrictTriple(item: Value): Result<Value> {
    var id :- Subscript(item, "id");
    var option :- Subscript(item, "option");
    var rank :- Subscript(item, "rank");
    Ok(Triple(id, option, rank))
  }

  /** A dict that has all three keys of a triple. */
  predicate HasTripleKeys(item: Value) {
    item.Obj? && "id" in Keys(item.fields) && "option" in Keys(item.fields) && "rank" in Keys(item.fields)
  }

  /**
   The strict triple of one element: it exists exactly for a dict with the three keys and is then
   the lenient one; otherwise a dict raises KeyError and anything else TypeError.
   */
  lemma StrictTripleOfItem(item: Value)
    ensures StrictTriple(item).Ok? <==> HasTripleKeys(item)
    ensures StrictTriple(item).Err? ==> StrictTriple(item).fault == if item.Obj? then KeyError else TypeError
    ensures StrictTriple(item).Ok? ==> StrictTriple(item).value == NormaliseItem(item)
  {
    if item.Obj? {
      FindIn(item.fields, "id");
      FindIn(item.fields, "option");
      FindIn(item.fields, "rank");
    }
  }

  /**
   The list comprehension applied to a decoded source-2 list (data_process.py:125,
   first_init.py:95). There are no defaults: an element that is not a dict raises TypeError,
   a dict without one of the three keys raises KeyError. When every element has the three keys,
   each element becomes its lenient triple.
   */
  function StrictTriples(items: seq<Value>): (r: Result<seq<Value>>)
    ensures r.Ok? <==> forall i :: 0 <= i < |items| ==> HasTripleKeys(items[i])
    ensures r.Err? ==> exists i :: (0 <= i < |items| && !HasTripleKeys(items[i]) &&
      r.fault == (if items[i].Obj? then KeyError else TypeError))
    ensures r.Ok? ==> |r.value| == |items| && forall i :: 0 <= i < |items| ==> r.value[i] == NormaliseItem(items[i])
    decreases |items|
  {
    if items == [] then Ok([])
    else
      var t := StrictTriple(items[0]);
      StrictTripleOfItem(items[0]);
      match t
      case Err(e) => Err(e)
      case Ok(head) =>
        match StrictTriples(items[1..])
        case Err(e) => Err(e)
        case Ok(rest) =>
          assert forall i :: 1 <= i < |items| ==> items[1..][i - 1] == items[i];
          Ok([head] + rest)
  }

  /** When the strict comprehension succeeds it agrees with the lenient normalisation. */
  lemma StrictTriplesNormalise(items: seq<Value>)
    requires StrictTriples(items).Ok?
    ensures List(StrictTriples(items).value) == NormaliseAnswer(List(items))
  {
    assert StrictTriples(items).value == NormaliseAnswer(List(items)).items;
  }

  /** `if isinstance(answer, dict): answer = answer.get("item", answer)`. */
  function UnwrapItem(answer: Value): (r: Value)
    ensures answer.Obj? && "item" in Keys(answer.fields) ==> Some(r) == Find(answer.fields, "item")
    ensures !(answer.Obj? && "item" in Keys(answer.fields)) ==> r == answer
  {
    if answer.Obj? then
      FindIn(answer.fields, "item");
      Lookup(answer.fields, "item", answer)
    else
      answer
  }

  /** `comments not in ("", None)`. */
  predicate IsBlank(c: Value) {
    c == Str("") || c == Null
  }

  /** The optional `comments` key: kept only when the comment is neither "" nor null. */
  function KeepComment(c: Value): (r: Option<Value>)
    ensures r.None? <==> IsBlank(c)
    ensures r.Some? ==> r.value == c
  {
    if IsBlank(c) then None else Some(c)
  }
}
