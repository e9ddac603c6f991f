/**
 * Type: one class or interface of a revision — its source file, its methods in a bijective
 * id/node map, its super classes (in instantiation order), its super interfaces, its access
 * modifier and its final flag — together with its JSON encoding (toJSON) and decoding
 * (the JSONObject constructor).
 */
module CallGraphTypes {
  import opened Common
  import opened JavaIntegers
  import opened JsonValues
  import opened FastenUris
  import opened JavaStrings
  import opened CallGraphNodes

  /** What a node carries, without its identity. */
  datatype NodeValue = NodeValue(uri: FastenUri, metadata: JsonObject)

  /** What a type carries, without the identities of its nodes. */
  datatype TypeValue = TypeValue(
    sourceFile: string,
    methods: map<Int32, NodeValue>,
    superClasses: seq<FastenUri>,
    superInterfaces: seq<FastenUri>,
    access: string,
    isFinal: bool)

  function NodeView(n: Node): NodeValue
  {
    NodeValue(n.uri, n.metadata)
  }

  function MethodsView(m: map<Int32, Node>): map<Int32, NodeValue>
  {
    map id | id in m :: NodeView(m[id])
  }

  // Encoding: Type.toJSON with toMapOfString and toListOfString.

  /** One node as toMapOfString writes it: {"uri": ..., "metadata": {...}}. */
  function EncodeNode(n: NodeValue): Json
  {
    JObject(map["uri" := JString(n.uri.canonical), "metadata" := JObject(n.metadata)])
  }

  /** toMapOfString: each node encoded under its id. */
  function EncodeNodes(m: map<Int32, NodeValue>): map<Int32, Json>
  {
    map id | id in m :: EncodeNode(m[id])
  }

  /** The "methods" object: new JSONObject over toMapOfString. */
  ghost function EncodeMethods(m: map<Int32, NodeValue>): JsonObject
  {
    IntKeyed(EncodeNodes(m))
  }

  /** toListOfString: each URI's string form, in order. */
  function UriStrings(us: seq<FastenUri>): seq<string>
  {
    seq(|us|, i requires 0 <= i < |us| => us[i].canonical)
  }

  /** new JSONArray(list of strings). */
  function JsonStrings(ss: seq<string>): seq<Json>
  {
    seq(|ss|, i requires 0 <= i < |ss| => JString(ss[i]))
  }

  ghost function EncodeType(t: TypeValue): JsonObject
  {
    map[
      "methods" := JObject(EncodeMethods(t.methods)),
      "superClasses" := JArray(JsonStrings(UriStrings(t.superClasses))),
      "superInterfaces" := JArray(JsonStrings(UriStrings(t.superInterfaces))),
      "sourceFile" := JString(t.sourceFile),
      "access" := JString(t.access),
      "final" := JBool(t.isFinal)]
  }

  // Decoding: the Type(JSONObject) constructor.

  /**
   * One entry of "methods", read as the constructor reads it: getJSONObject(key),
   * Integer.parseInt(key), then the node's "uri" string and "metadata" object.
   */
  function DecodeMethod(key: string, j: Json): Result<(Int32, NodeValue)>
  {
    var nodeJson :- AsObject(j, key);
    var id :- ParseInt(key);
    var uri :- GetString(nodeJson, "uri");
    var metadata :- GetObject(nodeJson, "metadata");
    Ok((id, NodeValue(Create(uri), metadata)))
  }

  ghost predicate MethodsWellFormed(o: JsonObject)
  {
    forall key :: key in o ==> DecodeMethod(key, o[key]).Ok?
  }

  /**
   * m is a map the loop over the keys of o can leave behind, and src records for each id the key it
   * was last read from: every key's id is in m, and each id is bound to the node of its key. Two keys
   * with the same id ("7" and "07") overwrite each other in an order that HashMap iteration decides.
   */
  ghost predicate MethodsReadFrom(o: JsonObject, m: map<Int32, NodeValue>, src: map<Int32, string>)
  {
    && MethodsWellFormed(o)
    && (forall key :: key in o ==> DecodeMethod(key, o[key]).value.0 in m)
    && src.Keys == m.Keys
    && (forall id :: id in src ==> src[id] in o && DecodeMethod(src[id], o[src[id]]) == Ok((id, m[id])))
  }

  /** m is a map the loop over the keys of o can leave behind. */
  ghost predicate DecodesMethods(o: JsonObject, m: map<Int32, NodeValue>)
  {
    exists src :: MethodsReadFrom(o, m, src)
  }

  /** A JSON array of URI strings: getString(i) on each element, then FastenURI.create. */
  function DecodeUris(items: seq<Json>): Result<seq<FastenUri>>
  {
    if forall i :: 0 <= i < |items| ==> items[i].JString? then
      Ok(seq(|items|, i requires 0 <= i < |items| => Create(items[i].str)))
    else
      Err(NotAString("array element"))
  }

  function GetUris(o: JsonObject, key: string): Result<seq<FastenUri>>
  {
    var items :- GetArray(o, key);
    DecodeUris(items)
  }

  /** Every getter of the constructor succeeds on o. */
  ghost predicate TypeWellFormed(o: JsonObject)
  {
    && GetString(o, "sourceFile").Ok?
    && GetObject(o, "methods").Ok? && MethodsWellFormed(GetObject(o, "methods").value)
    && GetUris(o, "superClasses").Ok?
    && GetUris(o, "superInterfaces").Ok?
    && GetString(o, "access").Ok?
    && GetBoolean(o, "final").Ok?
  }

  /** t is a type the constructor can build from o. */
  ghost predicate DecodesType(o: JsonObject, t: TypeValue)
  {
    && GetString(o, "sourceFile") == Ok(t.sourceFile)
    && GetObject(o, "methods").Ok? && DecodesMethods(GetObject(o, "methods").value, t.methods)
    && GetUris(o, "superClasses") == Ok(t.superClasses)
    && GetUris(o, "superInterfaces") == Ok(t.superInterfaces)
    && GetString(o, "access") == Ok(t.access)
    && GetBoolean(o, "final") == Ok(t.isFinal)
  }

  // Round trip.

  lemma DecodeEncodedMethod(id: Int32, n: NodeValue)
    ensures DecodeMethod(IntToString(id), EncodeNode(n)) == Ok((id, n))
  {
    ParseIntOfToString(id);
  }

  /** Each entry of the "methods" object toJSON writes is the node under the id its key spells. */
  lemma EncodedMethodAt(m: map<Int32, NodeValue>, key: string)
    requires key in EncodeMethods(m)
    ensures ParseInt(key).Ok? && ParseInt(key).value in m && key == IntToString(ParseInt(key).value)
    ensures DecodeMethod(key, EncodeMethods(m)[key]) == Ok((ParseInt(key).value, m[ParseInt(key).value]))
  {
    var id := ParseInt(key).value;
    assert EncodeMethods(m)[key] == EncodeNodes(m)[id];
    DecodeEncodedMethod(id, m[id]);
  }

  /** The "methods" object toJSON writes decodes to exactly the original id-to-node map. */
  lemma MethodsRoundTrip(m: map<Int32, NodeValue>)
    ensures DecodesMethods(EncodeMethods(m), m)
    ensures forall m' :: DecodesMethods(EncodeMethods(m), m') ==> m' == m
  {
    var o := EncodeMethods(m);
    forall key | key in o
      ensures DecodeMethod(key, o[key]).Ok? && DecodeMethod(key, o[key]).value.0 in m
    {
      EncodedMethodAt(m, key);
    }
    var src := map id | id in m :: IntToString(id);
    forall id | id in src
      ensures src[id] in o && DecodeMethod(src[id], o[src[id]]) == Ok((id, m[id]))
    {
      ParseIntOfToString(id);
      EncodedMethodAt(m, IntToString(id));
    }
    assert MethodsReadFrom(o, m, src);
    forall m' | DecodesMethods(o, m')
      ensures m' == m
    {
      var src' :| MethodsReadFrom(o, m', src');
      MethodsDecodeUniquely(m, m', src');
    }
  }

  /** Any decoding of the "methods" object of m has the ids of m and binds each as m does. */
  lemma MethodsDecodeUniquely(m: map<Int32, NodeValue>, m': map<Int32, NodeValue>, src: map<Int32, string>)
    requires MethodsReadFrom(EncodeMethods(m), m', src)
    ensures m' == m
  {
    DecodedMethodsWithin(m, m', src);
    EncodedMethodsDecoded(m, m', src);
    SameMethods(m, m');
  }

  /** Every id a decoding reads from the "methods" object of m is bound as in m. */
  lemma DecodedMethodsWithin(m: map<Int32, NodeValue>, m': map<Int32, NodeValue>, src: map<Int32, string>)
    requires MethodsReadFrom(EncodeMethods(m), m', src)
    ensures forall id :: id in m' ==> id in m && m'[id] == m[id]
  {
    forall id | id in m'
      ensures id in m && m'[id] == m[id]
    {
      EncodedMethodAt(m, src[id]);
    }
  }

  /** Every id of m is read by any decoding of its "methods" object. */
  lemma EncodedMethodsDecoded(m: map<Int32, NodeValue>, m': map<Int32, NodeValue>, src: map<Int32, string>)
    requires MethodsReadFrom(EncodeMethods(m), m', src)
    ensures forall id :: id in m ==> id in m'
  {
    forall id | id in m
      ensures id in m'
    {
      ParseIntOfToString(id);
      EncodedMethodAt(m, IntToString(id));
    }
  }

  /**
   * Two method maps with the same ids and the same node under each are equal.
   * Written per map type, as the note above SameObject in RevisionCallGraphs explains.
   */
  lemma SameMethods(m: map<Int32, NodeValue>, m': map<Int32, NodeValue>)
    requires forall id :: id in m ==> id in m'
    requires forall id :: id in m' ==> id in m && m'[id] == m[id]
    ensures m' == m
  {
    assert m'.Keys == m.Keys;
  }

  lemma UrisRoundTrip(us: seq<FastenUri>)
    ensures DecodeUris(JsonStrings(UriStrings(us))) == Ok(us)
  {
    var items := JsonStrings(UriStrings(us));
    assert forall i :: 0 <= i < |items| ==> items[i] == JString(us[i].canonical);
    assert seq(|items|, i requires 0 <= i < |items| => Create(items[i].str)) == us;
  }

  /**
   * Decoding what toJSON writes gives back the type: the same source file, access and final
   * flag, the same id-to-node map, and the super classes and super interfaces in the same order.
   */
  lemma TypeRoundTrip(t: TypeValue)
    ensures TypeWellFormed(EncodeType(t))
    ensures DecodesType(EncodeType(t), t)
    ensures forall t' :: DecodesType(EncodeType(t), t') ==> t' == t
  {
    EncodedTypeDecodes(t);
    forall t' | DecodesType(EncodeType(t), t')
      ensures t' == t
    {
      TypeDecodesUniquely(t, t');
    }
  }

  /** The getters of the constructor read back the scalar fields toJSON wrote. */
  lemma EncodedTypeScalars(t: TypeValue)
    ensures GetString(EncodeType(t), "sourceFile") == Ok(t.sourceFile)
    ensures GetString(EncodeType(t), "access") == Ok(t.access)
    ensures GetBoolean(EncodeType(t), "final") == Ok(t.isFinal)
  {
    var o := EncodeType(t);
    assert o["sourceFile"] == JString(t.sourceFile) && o["access"] == JString(t.access);
    assert o["final"] == JBool(t.isFinal);
  }

  /** getJSONObject("methods") reads back the methods object toJSON wrote. */
  lemma EncodedTypeMethods(t: TypeValue)
    ensures GetObject(EncodeType(t), "methods") == Ok(EncodeMethods(t.methods))
  {
    assert EncodeType(t)["methods"] == JObject(EncodeMethods(t.methods));
  }

  /** The super classes and super interfaces read back in the order toJSON wrote them. */
  lemma EncodedTypeSuperTypes(t: TypeValue)
    ensures GetUris(EncodeType(t), "superClasses") == Ok(t.superClasses)
    ensures GetUris(EncodeType(t), "superInterfaces") == Ok(t.superInterfaces)
  {
    var o := EncodeType(t);
    assert GetArray(o, "superClasses") == Ok(JsonStrings(UriStrings(t.superClasses)));
    assert GetArray(o, "superInterfaces") == Ok(JsonStrings(UriStrings(t.superInterfaces)));
    UrisRoundTrip(t.superClasses);
    UrisRoundTrip(t.superInterfaces);
  }

  lemma EncodedTypeDecodes(t: TypeValue)
    ensures TypeWellFormed(EncodeType(t))
    ensures DecodesType(EncodeType(t), t)
  {
    MethodsRoundTrip(t.methods);
    EncodedTypeScalars(t);
    EncodedTypeMethods(t);
    EncodedTypeSuperTypes(t);
  }

  lemma TypeDecodesUniquely(t: TypeValue, t': TypeValue)
    requires DecodesType(EncodeType(t), t')
    ensures t' == t
  {
    EncodedTypeScalars(t);
    EncodedTypeMethods(t);
    EncodedTypeSuperTypes(t);
    var src :| MethodsReadFrom(EncodeMethods(t.methods), t'.methods, src);
    MethodsDecodeUniquely(t.methods, t'.methods, src);
  }

  // The id/node bijection and addMethod.

  /** No node is bound to two ids: the BiMap invariant. */
  ghost predicate Injective(m: map<Int32, Node>)
  {
    forall a, b :: a in m && b in m && m[a] == m[b] ==> a == b
  }

  /** What addMethod(node, key) leaves in the map and returns. */
  ghost function AddedMethod(m: map<Int32, Node>, node: Node, key: Int32): (map<Int32, Node>, Int32)
  {
    if node in m.Values then
      var id :| id in m && m[id] == node; (m, id)
    else
      (m[key := node], key)
  }

  /** A node already present gives back its own id and changes nothing. */
  lemma AddExistingMethod(m: map<Int32, Node>, node: Node, key: Int32, id: Int32)
    requires Injective(m) && id in m && m[id] == node
    ensures AddedMethod(m, node, key) == (m, id)
  {
  }

  /**
   * A new node is bound to the given key and the key is returned; a node that was bound to the
   * key before is dropped, and the map stays a bijection.
   */
  lemma AddNewMethod(m: map<Int32, Node>, node: Node, key: Int32)
    requires Injective(m) && node !in m.Values
    ensures AddedMethod(m, node, key) == (m[key := node], key)
    ensures Injective(AddedMethod(m, node, key).0)
    ensures key in m ==> m[key] !in AddedMethod(m, node, key).0.Values
    ensures |AddedMethod(m, node, key).0| == if key in m then |m| else |m| + 1
  {
  }

  /** Registering the same node twice, with any two ids, returns the first id both times. */
  lemma AddMethodIdempotent(m: map<Int32, Node>, node: Node, key1: Int32, key2: Int32)
    requires Injective(m)
    ensures Injective(AddedMethod(m, node, key1).0)
    ensures AddedMethod(AddedMethod(m, node, key1).0, node, key2) == AddedMethod(m, node, key1)
  {
    var (m1, id1) := AddedMethod(m, node, key1);
    if node !in m.Values {
      AddNewMethod(m, node, key1);
    }
    assert m1[id1] == node;
    AddExistingMethod(m1, node, key2, id1);
  }

  class Type {
    const sourceFileName: string
    var methods: map<Int32, Node>
    const superClasses: seq<FastenUri>
    const superInterfaces: seq<FastenUri>
    const access: string
    const isFinal: bool

    ghost predicate Valid()
      reads this
    {
      Injective(methods)
    }

    function View(): TypeValue
      reads this
    {
      TypeValue(sourceFileName, MethodsView(methods), superClasses, superInterfaces, access, isFinal)
    }

    /** Type(sourceFile, methods, superClasses, superInterfaces, access, isFinal); methods is a BiMap. */
    constructor (sourceFile: string, methods: map<Int32, Node>, superClasses: seq<FastenUri>,
                 superInterfaces: seq<FastenUri>, access: string, isFinal: bool)
      requires Injective(methods)
      ensures Valid()
      ensures sourceFileName == sourceFile && this.methods == methods && this.superClasses == superClasses
      ensures this.superInterfaces == superInterfaces && this.access == access && this.isFinal == isFinal
    {
      this.sourceFileName := sourceFile;
      this.methods := methods;
      this.superClasses := superClasses;
      this.superInterfaces := superInterfaces;
      this.access := access;
      this.isFinal := isFinal;
    }

    /** Type(sourceFileName): no methods, no super types, access "" and not final. */
    constructor Empty(sourceFileName: string)
      ensures Valid()
      ensures View() == TypeValue(sourceFileName, map[], [], [], "", false)
      ensures methods == map[]
    {
      this.sourceFileName := sourceFileName;
      this.methods := map[];
      this.superClasses := [];
      this.superInterfaces := [];
      this.access := "";
      this.isFinal := false;
    }

    /** addMethod: returns the id of node when it is already present, otherwise binds key to it. */
    method AddMethod(node: Node, key: Int32) returns (id: Int32)
      requires Valid()
      modifies this
      ensures Valid()
      ensures (methods, id) == AddedMethod(old(methods), node, key)
    {
      if node in methods.Values {
        id :| id in methods && methods[id] == node;
        AddExistingMethod(methods, node, key, id);
      } else {
        AddNewMethod(methods, node, key);
        methods := methods[key := node];
        id := key;
      }
    }

    /**
     * getDefined: some entry whose node's entity contains signature, or none when there is no such
     * entry. Which of several matches comes back is up to HashMap iteration order.
     */
    method GetDefined(signature: string, entity: FastenUri -> string) returns (r: Option<(Int32, Node)>)
      ensures r.Some? ==> r.value.0 in methods && methods[r.value.0] == r.value.1
      ensures r.Some? ==> Contains(entity(r.value.1.uri), signature)
      ensures r.None? <==> forall id :: id in methods ==> !Contains(entity(methods[id].uri), signature)
    {
      if exists id :: id in methods && Contains(entity(methods[id].uri), signature) {
        var id :| id in methods && Contains(entity(methods[id].uri), signature);
        r := Some((id, methods[id]));
      } else {
        r := None;
      }
    }

    /** toMapOfString: each node written as {"uri", "metadata"}, under its id. */
    static method ToMapOfString(m: map<Int32, Node>) returns (r: map<Int32, Json>)
      ensures r == EncodeNodes(MethodsView(m))
    {
      r := map[];
      var todo := m.Keys;
      while todo != {}
        invariant todo <= m.Keys
        invariant r == map id | id in m && id !in todo :: EncodeNode(NodeView(m[id]))
        decreases todo
      {
        var id :| id in todo;
        r := r[id := EncodeNode(NodeView(m[id]))];
        todo := todo - {id};
      }
      assert r.Keys == EncodeNodes(MethodsView(m)).Keys;
    }

    /** toListOfString: the string form of each URI, in order. */
    static method ToListOfString(list: seq<FastenUri>) returns (r: seq<string>)
      ensures r == UriStrings(list)
    {
      r := [];
      for i := 0 to |list|
        invariant r == UriStrings(list[..i])
      {
        assert list[..i + 1] == list[..i] + [list[i]];
        r := r + [list[i].canonical];
      }
      assert list[..|list|] == list;
    }

    /** The "methods" entry of toJSON: toMapOfString wrapped in a JSONObject. */
    static method MethodsToJson(m: map<Int32, Node>) returns (o: JsonObject)
      ensures o == EncodeMethods(MethodsView(m))
    {
      var methodsJson := ToMapOfString(m);
      o := IntKeyedObject(methodsJson);
    }

    /** toJSON. */
    method ToJson() returns (j: JsonObject)
      ensures j == EncodeType(View())
    {
      var methodsObject := MethodsToJson(methods);
      var superClassesJson := ToListOfString(superClasses);
      var superInterfacesJson := ToListOfString(superInterfaces);
      j := map[
        "methods" := JObject(methodsObject),
        "superClasses" := JArray(JsonStrings(superClassesJson)),
        "superInterfaces" := JArray(JsonStrings(superInterfacesJson)),
        "sourceFile" := JString(sourceFileName),
        "access" := JString(access),
        "final" := JBool(isFinal)];
    }

    /** The loop of the JSONObject constructor over "methods": one fresh node per key. */
    static method DecodeMethodsLoop(o: JsonObject) returns (r: Result<map<Int32, Node>>)
      ensures r.Ok? <==> MethodsWellFormed(o)
      ensures r.Ok? ==> Injective(r.value) && DecodesMethods(o, MethodsView(r.value))
      ensures r.Ok? ==> forall id :: id in r.value ==> fresh(r.value[id])
    {
      var m: map<Int32, Node> := map[];
      ghost var src: map<Int32, string> := map[];
      var todo := o.Keys;
      while todo != {}
        invariant todo <= o.Keys
        invariant forall key :: key in o && key !in todo ==> DecodeMethod(key, o[key]).Ok? && DecodeMethod(key, o[key]).value.0 in m
        invariant src.Keys == m.Keys
        invariant forall id :: id in src ==> src[id] in o && DecodeMethod(src[id], o[src[id]]) == Ok((id, NodeView(m[id])))
        invariant Injective(m)
        invariant forall id :: id in m ==> fresh(m[id])
        decreases todo
      {
        var key :| key in todo;
        var nodeJson :- AsObject(o[key], key);
        var id :- ParseInt(key);
        var uri :- GetString(nodeJson, "uri");
        var metadata :- GetObject(nodeJson, "metadata");
        var node := new Node(Create(uri), metadata);
        assert DecodeMethod(key, o[key]) == Ok((id, NodeView(node)));
        m := m[id := node];
        src := src[id := key];
        todo := todo - {key};
      }
      assert MethodsReadFrom(o, MethodsView(m), src);
      r := Ok(m);
    }

    /** The loops of the JSONObject constructor over "superClasses" and "superInterfaces". */
    static method DecodeUriList(items: seq<Json>) returns (r: Result<seq<FastenUri>>)
      ensures r == DecodeUris(items)
    {
      var list := [];
      for i := 0 to |items|
        invariant forall k :: 0 <= k < i ==> items[k].JString?
        invariant list == seq(i, k requires 0 <= k < i => Create(items[k].str))
      {
        var s :- StringAt(items, i);
        list := list + [Create(s)];
      }
      r := Ok(list);
    }

    /** Type(JSONObject): a fresh type, or the exception the first failing getter throws. */
    static method FromJson(o: JsonObject) returns (r: Result<Type>)
      ensures r.Ok? <==> TypeWellFormed(o)
      ensures r.Ok? ==> fresh(r.value) && r.value.Valid() && DecodesType(o, r.value.View())
    {
      var sourceFile :- GetString(o, "sourceFile");
      var methodsJson :- GetObject(o, "methods");
      var methods :- DecodeMethodsLoop(methodsJson);
      var superClassesJson :- GetArray(o, "superClasses");
      var superClasses :- DecodeUriList(superClassesJson);
      var superInterfacesJson :- GetArray(o, "superInterfaces");
      var superInterfaces :- DecodeUriList(superInterfacesJson);
      var access :- GetString(o, "access");
      var isFinal :- GetBoolean(o, "final");
      var t := new Type(sourceFile, methods, superClasses, superInterfaces, access, isFinal);
      r := Ok(t);
    }
  }
}
