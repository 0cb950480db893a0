/**
  The warehouse key of a source document: its `_id` field, unwrapped from the
  extended-JSON object-id form `{"$oid": v}` or turned into text with `str()`.
  A falsy `_id` (missing, `None`, `''`, `0`, `{}`, ...) yields `None`.
 */
module Identifiers {
  import opened Values

  /** The extended-JSON object-id wrapper: a dict that has the key `$oid`. */
  predicate IsOidWrapper(v: Value) {
    v.Obj? && "$oid" in v.fields
  }

  /**
    `extract_id(doc)`.  The result is a Python value: the wrapped value itself
    (not converted to text, and possibly falsy) for a `$oid` wrapper, the text
    of any other truthy `_id`, and `None` otherwise.
   */
  function ExtractId(doc: Document): (id: Value)
    ensures IsOidWrapper(Get(doc, "_id")) ==> id == Get(doc, "_id").fields["$oid"]
    ensures !IsOidWrapper(Get(doc, "_id")) && Truthy(Get(doc, "_id")) ==>
              id == Str(PyStr(Get(doc, "_id"))) && Truthy(id)
    ensures !IsOidWrapper(Get(doc, "_id")) && !Truthy(Get(doc, "_id")) ==> id == Null
  {
    var raw := Get(doc, "_id");
    if IsOidWrapper(raw) then raw.fields["$oid"]
    else if Truthy(raw) then Str(PyStr(raw))
    else Null
  }

  /** The sinks act on a document exactly when this holds of it. */
  predicate HasId(doc: Document) {
    Truthy(ExtractId(doc))
  }

  /**
    A document has a usable identifier exactly when its `_id` is a wrapper
    around a truthy value, or is itself truthy and not a wrapper.
   */
  lemma HasIdIff(doc: Document)
    ensures HasId(doc) <==>
      (IsOidWrapper(Get(doc, "_id")) && Truthy(Get(doc, "_id").fields["$oid"])) ||
      (!IsOidWrapper(Get(doc, "_id")) && Truthy(Get(doc, "_id")))
  {
  }

  /** A non-empty string `_id` is its own identifier. */
  lemma StringIdIsKept(doc: Document, s: string)
    requires Get(doc, "_id") == Str(s) && s != []
    ensures ExtractId(doc) == Str(s)
  {
  }

  /** An integer `_id` becomes its decimal text; `0` is falsy and yields `None`. */
  lemma IntIdIsDecimal(doc: Document, n: int)
    requires Get(doc, "_id") == Int(n)
    ensures n != 0 ==> ExtractId(doc) == Str(IntToDecimal(n))
    ensures n == 0 ==> ExtractId(doc) == Null
  {
  }

  /** Documents with different integer `_id`s never share a warehouse key. */
  lemma IntIdsStayDistinct(d1: Document, d2: Document, m: int, n: int)
    requires Get(d1, "_id") == Int(m) && Get(d2, "_id") == Int(n)
    requires m != n && m != 0 && n != 0
    ensures ExtractId(d1) != ExtractId(d2)
  {
    if ExtractId(d1) == ExtractId(d2) {
      assert IntToDecimal(m) == IntToDecimal(n);
      IntToDecimalInjective(m, n);
    }
  }

  /** The three documented cases: a wrapped object id, a bare string, no `_id`. */
  lemma ExtractIdExamples()
    ensures ExtractId(map["_id" := Obj(map["$oid" := Str("12345")])]) == Str("12345")
    ensures ExtractId(map["_id" := Str("67890")]) == Str("67890")
    ensures ExtractId(map[]) == Null
  {
  }
}
