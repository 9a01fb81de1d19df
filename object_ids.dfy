/**
 The storage engine's record identifiers. `ObjectId(k)` accepts a string of 24 hexadecimal
 digits (either case) and rejects everything else; `str()` of an identifier is its lower-case
 hexadecimal form. Generating a new identifier is left to an oracle supplied by the caller.
 */
module ObjectIds {
  import opened Wrappers
  import opened Json

  /** An identifier, held as its lower-case hexadecimal text. */
  datatype ObjectId = ObjectId(hex: string)

  predicate IsHexDigit(c: char) {
    '0' <= c <= '9' || 'a' <= c <= 'f' || 'A' <= c <= 'F'
  }

  predicate IsLowerHexDigit(c: char) {
    '0' <= c <= '9' || 'a' <= c <= 'f'
  }

  /** The strings `ObjectId(k)` accepts. */
  predicate IsObjectIdText(s: string) {
    |s| == 24 && forall i :: 0 <= i < |s| ==> IsHexDigit(s[i])
  }

  /** A well-formed identifier: twelve bytes, written as 24 lower-case hexadecimal digits. */
  predicate Valid(oid: ObjectId) {
    |oid.hex| == 24 && forall i :: 0 <= i < |oid.hex| ==> IsLowerHexDigit(oid.hex[i])
  }

  function LowerHexDigit(c: char): char
    requires IsHexDigit(c)
  {
    if 'A' <= c <= 'F' then (c as int - 'A' as int + 'a' as int) as char else c
  }

  /** `ObjectId(k)`, or None where the constructor raises (any value but a 24-digit hexadecimal string). */
  function Parse(k: Value): (r: Option<ObjectId>)
    ensures r.Some? <==> k.Str? && IsObjectIdText(k.s)
    ensures r.Some? ==> Valid(r.value)
    ensures r.Some? ==> forall i :: 0 <= i < 24 ==>
      r.value.hex[i] as int == k.s[i] as int + (if 'A' <= k.s[i] <= 'F' then 32 else 0)
  {
    if k.Str? && IsObjectIdText(k.s) then
      Some(ObjectId(seq(24, i requires 0 <= i < 24 => LowerHexDigit(k.s[i]))))
    else
      None
  }

  /** Parsing the text of an identifier gives the identifier back. */
  lemma ParseText(oid: ObjectId)
    requires Valid(oid)
    ensures Parse(Str(oid.hex)) == Some(oid)
  {
    var p := Parse(Str(oid.hex)).value;
    assert forall i :: 0 <= i < 24 ==> p.hex[i] == oid.hex[i];
    assert p.hex == oid.hex;
  }

  /** The identifier `ObjectId(k)` if `k` parses, otherwise the freshly generated `fallback`. */
  function ParseOr(k: Value, fallback: ObjectId): (oid: ObjectId)
    ensures Valid(fallback) ==> Valid(oid)
    ensures Parse(k).None? ==> oid == fallback
    ensures Parse(k).Some? ==> Parse(Str(oid.hex)) == Parse(k)
  {
    match Parse(k)
    case Some(parsed) => ParseText(parsed); parsed
    case None => fallback
  }
}
