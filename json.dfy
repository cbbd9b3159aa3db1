/**
 * Parsed YAML/JSON documents (Jackson's JsonNode) as values, with the
 * accessors the modelled code uses: get, has, fields(), iteration, put, and
 * the asText/asBoolean/asInt coercions.
 */
module Json {
  import opened Wrappers
  import opened JavaText

  /** An object keeps its fields in document order. */
  datatype Json =
    | JNull
    | JText(text: string)
    | JInt(num: int)
    | JBool(flag: bool)
    | JArray(items: seq<Json>)
    | JObject(fields: seq<(string, Json)>)

  function Lookup(fields: seq<(string, Json)>, key: string): Option<Json>
  {
    if fields == [] then None
    else if fields[0].0 == key then Some(fields[0].1)
    else Lookup(fields[1..], key)
  }

  /** JsonNode.get(name): the field's value, or null when absent or when the node is not an object. */
  function Get(j: Json, key: string): Option<Json> {
    if j.JObject? then Lookup(j.fields, key) else None
  }

  /** JsonNode.has(name). */
  predicate Has(j: Json, key: string) {
    Get(j, key).Some?
  }

  /** JsonNode.fields(): an object's entries in order; no entries for any other node. */
  function Fields(j: Json): seq<(string, Json)> {
    if j.JObject? then j.fields else []
  }

  /** Iterating a JsonNode: an array's items, an object's values, nothing for a scalar. */
  function Elements(j: Json): seq<Json> {
    match j
    case JArray(items) => items
    case JObject(fields) => seq(|fields|, i requires 0 <= i < |fields| => fields[i].1)
    case _ => []
  }

  /** JsonNode.asText(). */
  function AsText(j: Json): string {
    match j
    case JNull => "null"
    case JText(s) => s
    case JInt(n) => IntToString(n)
    case JBool(b) => if b then "true" else "false"
    case _ => ""
  }

  /** The texts of a sequence of nodes, in order. */
  function Texts(items: seq<Json>): (r: seq<string>)
    ensures |r| == |items| && forall i :: 0 <= i < |items| ==> r[i] == AsText(items[i])
  {
    seq(|items|, i requires 0 <= i < |items| => AsText(items[i]))
  }

  /** JsonNode.asBoolean(): a text node is true only when its trimmed text is "true". */
  function AsBoolean(j: Json): bool {
    match j
    case JBool(b) => b
    case JInt(n) => n != 0
    case JText(s) => Trim(s) == "true"
    case _ => false
  }

  /**
   * JsonNode.asInt(): a long or big integer keeps its low 32 bits; a text
   * node is trimmed and read as an int, 0 when it is not one.
   */
  function AsInt(j: Json): (r: int)
    ensures IsInt32(r)
  {
    match j
    case JInt(n) => Int32Wrap(n)
    case JBool(b) => if b then 1 else 0
    case JText(s) => ParseJavaInt(Trim(s)).GetOr(0)
    case _ => 0
  }

  /** A text node's padding is ignored by asBoolean; other words are false. */
  lemma AsBooleanExamples()
    ensures AsBoolean(JText(" true\n")) && !AsBoolean(JText("yes"))
  {
    assert TrimFrom(" true\n", 0) == 1;
    assert TrimTo(" true\n", 1, 6) == 5;
    assert " true\n"[1..5] == "true";
    assert TrimFrom("yes", 0) == 0 && TrimTo("yes", 0, 3) == 3;
  }

  /** A text node's padding is ignored by asInt; text that is no int is 0. */
  lemma AsIntTextExamples()
    ensures AsInt(JText(" 7")) == 7 && AsInt(JText("7a")) == 0
  {
    assert TrimFrom(" 7", 0) == 1 && TrimTo(" 7", 1, 2) == 2;
    assert " 7"[1..2] == "7";
    assert DigitsValue("7") == 7;
    assert TrimFrom("7a", 0) == 0 && TrimTo("7a", 0, 2) == 2;
    assert "7a"[0..2] == "7a";
  }

  /** An integer past the int range keeps its low 32 bits. */
  lemma AsIntWrapExamples()
    ensures AsInt(JInt(0x8000_0000)) == MinInt32 && AsInt(JInt(0x1_0000_0007)) == 7
  {
  }

  /**
   * Well-formedness of a parsed object: no key twice. JObject admits
   * duplicates, for which Lookup keeps the first entry where Jackson's
   * parser keeps the last; the documents the templates read are assumed to
   * have unique keys.
   */
  predicate UniqueKeys(fields: seq<(string, Json)>) {
    forall i, k :: 0 <= i < k < |fields| ==> fields[i].0 != fields[k].0
  }

  function PutField(fields: seq<(string, Json)>, key: string, value: Json): seq<(string, Json)>
  {
    if fields == [] then [(key, value)]
    else if fields[0].0 == key then [(key, value)] + fields[1..]
    else [fields[0]] + PutField(fields[1..], key, value)
  }

  /** ObjectNode.put/set: replaces the value of an existing key in place, else appends. */
  function Put(obj: Json, key: string, value: Json): Json
    requires obj.JObject?
  {
    JObject(PutField(obj.fields, key, value))
  }

  lemma {:induction false} PutFieldLookup(fields: seq<(string, Json)>, key: string, value: Json, other: string)
    ensures Lookup(PutField(fields, key, value), key) == Some(value)
    ensures other != key ==> Lookup(PutField(fields, key, value), other) == Lookup(fields, other)
  {
    if fields != [] && fields[0].0 != key {
      PutFieldLookup(fields[1..], key, value, other);
    }
  }

  /** After a put, get returns the new value for that key and the old value for every other key. */
  lemma PutGet(obj: Json, key: string, value: Json, other: string)
    requires obj.JObject?
    ensures Get(Put(obj, key, value), key) == Some(value)
    ensures other != key ==> Get(Put(obj, key, value), other) == Get(obj, other)
  {
    PutFieldLookup(obj.fields, key, value, other);
  }

  /** get over concatenated entries: the first part's value when it has the key, else the second's. */
  lemma {:induction false} LookupAppend(a: seq<(string, Json)>, b: seq<(string, Json)>, key: string)
    ensures Lookup(a + b, key) == if Lookup(a, key).Some? then Lookup(a, key) else Lookup(b, key)
  {
    if a != [] {
      assert (a + b)[0] == a[0];
      assert (a + b)[1..] == a[1..] + b;
      LookupAppend(a[1..], b, key);
    } else {
      assert a + b == b;
    }
  }

  /** get finds a key exactly when some entry has it, and returns the first such entry's value. */
  lemma {:induction false} LookupFirst(fields: seq<(string, Json)>, key: string)
    ensures Lookup(fields, key).Some? <==> exists i :: 0 <= i < |fields| && fields[i].0 == key
    ensures Lookup(fields, key).Some? ==>
      exists i :: 0 <= i < |fields| && fields[i].0 == key && Lookup(fields, key) == Some(fields[i].1) &&
        forall k :: 0 <= k < i ==> fields[k].0 != key
  {
    if fields != [] {
      LookupFirst(fields[1..], key);
      if fields[0].0 != key {
        if exists i :: 0 <= i < |fields| && fields[i].0 == key {
          var i :| 0 <= i < |fields| && fields[i].0 == key;
          assert fields[1..][i - 1].0 == key;
        }
        if Lookup(fields, key).Some? {
          var i :| 0 <= i < |fields[1..]| && fields[1..][i].0 == key && Lookup(fields[1..], key) == Some(fields[1..][i].1) &&
            forall k :: 0 <= k < i ==> fields[1..][k].0 != key;
          assert forall k :: 0 <= k < i + 1 ==> fields[k].0 != key by {
            forall k | 0 <= k < i + 1 ensures fields[k].0 != key {
              if k > 0 { assert fields[k] == fields[1..][k - 1]; }
            }
          }
        }
      }
    }
  }
}
