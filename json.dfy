/**
 * The JSON value tree the call-graph codec reads and writes, and the typed accessors of
 * org.json's JSONObject and JSONArray that it uses. Text parsing and printing are not modelled.
 */
module JsonValues {
  import opened Common
  import opened JavaIntegers

  datatype Json =
    | JString(str: string)
    | JInt(num: int)
    | JBool(b: bool)
    | JArray(items: seq<Json>)
    | JObject(fields: map<string, Json>)

  type JsonObject = map<string, Json>

  function LowerAscii(c: char): char
  {
    if 'A' <= c <= 'Z' then (c as int - 'A' as int + 'a' as int) as char else c
  }

  /** String.equalsIgnoreCase, restricted to ASCII letters. */
  predicate EqualsIgnoreCase(s: string, t: string)
  {
    |s| == |t| && forall i :: 0 <= i < |s| ==> LowerAscii(s[i]) == LowerAscii(t[i])
  }

  // Conversions of one value, shared by the object and the array accessors.

  function NotAString(where: string): Error
  {
    JsonException(where + " is not a string")
  }

  function AsString(j: Json, where: string): Result<string>
  {
    if j.JString? then Ok(j.str) else Err(NotAString(where))
  }

  function AsObject(j: Json, where: string): Result<JsonObject>
  {
    if j.JObject? then Ok(j.fields) else Err(JsonException(where + " is not a JSONObject"))
  }

  function AsArray(j: Json, where: string): Result<seq<Json>>
  {
    if j.JArray? then Ok(j.items) else Err(JsonException(where + " is not a JSONArray"))
  }

  /** A Boolean, or a string equal to "true" or "false" ignoring case. */
  function AsBoolean(j: Json, where: string): Result<bool>
  {
    if j == JBool(false) || (j.JString? && EqualsIgnoreCase(j.str, "false")) then Ok(false)
    else if j == JBool(true) || (j.JString? && EqualsIgnoreCase(j.str, "true")) then Ok(true)
    else Err(JsonException(where + " is not a Boolean"))
  }

  /** A number narrowed by intValue(), or a string read by Integer.parseInt. */
  function AsInt(j: Json, where: string): Result<Int32>
  {
    match j
    case JInt(n) => Ok(Wrap32(n))
    case JString(s) => if ParseInt(s).Ok? then Ok(ParseInt(s).value) else Err(JsonException(where + " is not an int"))
    case _ => Err(JsonException(where + " is not an int"))
  }

  /** A number narrowed by longValue(), or a string read by Long.parseLong. */
  function AsLong(j: Json, where: string): Result<Int64>
  {
    match j
    case JInt(n) => Ok(Wrap64(n))
    case JString(s) => if ParseLong(s).Ok? then Ok(ParseLong(s).value) else Err(JsonException(where + " is not a long"))
    case _ => Err(JsonException(where + " is not a long"))
  }

  // JSONObject.get, getString, getJSONObject, getJSONArray, getBoolean, getInt, getLong.

  function Get(o: JsonObject, key: string): Result<Json>
  {
    if key in o then Ok(o[key]) else Err(JsonException(key + " not found"))
  }

  function GetString(o: JsonObject, key: string): Result<string>
  {
    var j :- Get(o, key); AsString(j, key)
  }

  function GetObject(o: JsonObject, key: string): Result<JsonObject>
  {
    var j :- Get(o, key); AsObject(j, key)
  }

  function GetArray(o: JsonObject, key: string): Result<seq<Json>>
  {
    var j :- Get(o, key); AsArray(j, key)
  }

  function GetBoolean(o: JsonObject, key: string): Result<bool>
  {
    var j :- Get(o, key); AsBoolean(j, key)
  }

  function GetInt(o: JsonObject, key: string): Result<Int32>
  {
    var j :- Get(o, key); AsInt(j, key)
  }

  function GetLong(o: JsonObject, key: string): Result<Int64>
  {
    var j :- Get(o, key); AsLong(j, key)
  }

  // JSONArray.get, getString, getJSONObject, getJSONArray by index.

  function At(a: seq<Json>, i: int): Result<Json>
  {
    if 0 <= i < |a| then Ok(a[i]) else Err(JsonException("index not found"))
  }

  function StringAt(a: seq<Json>, i: int): Result<string>
  {
    var j :- At(a, i); AsString(j, "array element")
  }

  function ObjectAt(a: seq<Json>, i: int): Result<JsonObject>
  {
    var j :- At(a, i); AsObject(j, "array element")
  }

  function ArrayAt(a: seq<Json>, i: int): Result<seq<Json>>
  {
    var j :- At(a, i); AsArray(j, "array element")
  }

  /** The keys String.valueOf gives the integers of m. */
  function IntKeys(m: map<Int32, Json>): set<string>
  {
    set k | k in m :: IntToString(k)
  }

  /** Every such key parses back to the integer it was written from. */
  lemma IntKeysParse(m: map<Int32, Json>)
    ensures forall s :: s in IntKeys(m) ==> ParseInt(s).Ok? && ParseInt(s).value in m && s == IntToString(ParseInt(s).value)
  {
    forall s | s in IntKeys(m)
      ensures ParseInt(s).Ok? && ParseInt(s).value in m && s == IntToString(ParseInt(s).value)
    {
      var k :| k in m && s == IntToString(k);
      ParseIntOfToString(k);
    }
  }

  /**
   * o is what new JSONObject(m) builds from a map with integer keys: each key written as
   * String.valueOf(key), bound to its value, and no other key.
   */
  ghost predicate IntKeyedBy(m: map<Int32, Json>, o: JsonObject)
  {
    && (forall k :: k in m ==> ParseInt(IntToString(k)) == Ok(k) && IntToString(k) in o && o[IntToString(k)] == m[k])
    && (forall s :: s in o ==> ParseInt(s).Ok? && ParseInt(s).value in m && s == IntToString(ParseInt(s).value))
  }

  lemma IntKeyedExists(m: map<Int32, Json>)
    ensures exists o :: IntKeyedBy(m, o)
  {
    IntKeysParse(m);
    var o := map s | s in IntKeys(m) :: m[ParseInt(s).value];
    forall k | k in m
      ensures ParseInt(IntToString(k)) == Ok(k) && IntToString(k) in o && o[IntToString(k)] == m[k]
    {
      ParseIntOfToString(k);
      assert IntToString(k) in IntKeys(m);
    }
    assert IntKeyedBy(m, o);
  }

  /** There is only one such object. */
  lemma IntKeyedUnique(m: map<Int32, Json>, o1: JsonObject, o2: JsonObject)
    requires IntKeyedBy(m, o1) && IntKeyedBy(m, o2)
    ensures o1 == o2
  {
    forall s | s in o1
      ensures s in o2 && o1[s] == o2[s]
    {
      assert s == IntToString(ParseInt(s).value);
    }
    forall s | s in o2
      ensures s in o1
    {
      assert s == IntToString(ParseInt(s).value);
    }
  }

  /** new JSONObject(map) on a map with integer keys. */
  ghost function IntKeyed(m: map<Int32, Json>): (o: JsonObject)
    ensures IntKeyedBy(m, o)
  {
    IntKeyedExists(m);
    var o :| IntKeyedBy(m, o); o
  }

  /** The copy loop of new JSONObject(map): each entry put under String.valueOf of its key. */
  method IntKeyedObject(m: map<Int32, Json>) returns (o: JsonObject)
    ensures o == IntKeyed(m)
  {
    o := map[];
    var todo := m.Keys;
    while todo != {}
      invariant todo <= m.Keys
      invariant forall k :: k in m && k !in todo ==> ParseInt(IntToString(k)) == Ok(k) && IntToString(k) in o && o[IntToString(k)] == m[k]
      invariant forall s :: s in o ==>
        ParseInt(s).Ok? && ParseInt(s).value in m && ParseInt(s).value !in todo && s == IntToString(ParseInt(s).value)
      decreases todo
    {
      var k :| k in todo;
      ParseIntOfToString(k);
      o := o[IntToString(k) := m[k]];
      todo := todo - {k};
    }
    IntKeyedUnique(m, o, IntKeyed(m));
  }
}
