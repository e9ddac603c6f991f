/**
 * ExtendedRevisionCallGraph: a revision (forge, product, version, timestamp), the generator that
 * produced it, its class hierarchy in three scopes, its call graph and its node count; the
 * derived revision URIs, the JSON encoding and decoding of the whole, mapOfAllMethods,
 * isCallGraphEmpty and the builder.
 */
module RevisionCallGraphs {
  import opened Common
  import opened JavaIntegers
  import opened JsonValues
  import opened FastenUris
  import opened CallGraphNodes
  import opened CallGraphTypes
  import opened CallGraphs

  datatype Scope = InternalTypes | ExternalTypes | ResolvedTypes

  /** The key a scope is written under. */
  function ScopeName(s: Scope): string
  {
    match s
    case InternalTypes => "internalTypes"
    case ExternalTypes => "externalTypes"
    case ResolvedTypes => "resolvedTypes"
  }

  type TypeMap = map<FastenUri, Type>

  type ClassHierarchy = map<Scope, TypeMap>

  /** The types of a class hierarchy, without their identities. */
  type ChaValue = map<Scope, map<FastenUri, TypeValue>>

  /** Every scope is present, so classHierarchy.get(scope) is never null. */
  predicate CompleteScopes<X>(c: map<Scope, X>)
  {
    InternalTypes in c && ExternalTypes in c && ResolvedTypes in c
  }

  ghost function TypesOf(tm: TypeMap): set<Type>
  {
    set u | u in tm :: tm[u]
  }

  ghost function Types(cha: ClassHierarchy): set<Type>
  {
    set s, u | s in cha && u in cha[s] :: cha[s][u]
  }

  function ScopeView(tm: TypeMap): map<FastenUri, TypeValue>
    reads TypesOf(tm)
  {
    map u | u in tm :: tm[u].View()
  }

  function ChaView(cha: ClassHierarchy): ChaValue
    reads Types(cha)
  {
    map s | s in cha :: ScopeView(cha[s])
  }

  // Class hierarchy encoding: classHierarchyToJSON.

  /** One scope: each type's toJSON under its URI's string form. */
  ghost function EncodeScope(tm: map<FastenUri, TypeValue>): JsonObject
  {
    map u | u in tm :: u.canonical := JObject(EncodeType(tm[u]))
  }

  /** Each type of a scope is written under its URI's string. */
  lemma EncodedScopeEntry(tm: map<FastenUri, TypeValue>, u: FastenUri)
    requires u in tm
    ensures u.canonical in EncodeScope(tm) && EncodeScope(tm)[u.canonical] == JObject(EncodeType(tm[u]))
  {
  }

  /** Each key of an encoded scope names, through FastenURI.create, the type written under it. */
  lemma EncodedScopeAt(tm: map<FastenUri, TypeValue>, key: string)
    requires key in EncodeScope(tm)
    ensures Create(key) in tm && Create(key).canonical == key
    ensures EncodeScope(tm)[key] == JObject(EncodeType(tm[Create(key)]))
  {
    var u :| u in tm && u.canonical == key;
    assert Create(key) == u;
  }

  /** Putting one more type into a scope puts its toJSON under its URI's string. */
  lemma EncodeScopePut(tm: map<FastenUri, TypeValue>, u: FastenUri, t: TypeValue)
    ensures EncodeScope(tm[u := t]) == EncodeScope(tm)[u.canonical := JObject(EncodeType(t))]
  {
    var put := EncodeScope(tm[u := t]);
    var updated := EncodeScope(tm)[u.canonical := JObject(EncodeType(t))];
    PutEntriesWritten(tm, u, t, put, updated);
    PutEntriesKept(tm, u, t, put, updated);
    SameObject(updated, put);
  }

  lemma PutEntriesWritten(tm: map<FastenUri, TypeValue>, u: FastenUri, t: TypeValue, put: JsonObject, updated: JsonObject)
    requires put == EncodeScope(tm[u := t]) && updated == EncodeScope(tm)[u.canonical := JObject(EncodeType(t))]
    ensures forall key :: key in put ==> key in updated && put[key] == updated[key]
  {
    forall key | key in put
      ensures key in updated && put[key] == updated[key]
    {
      EncodedScopeAt(tm[u := t], key);
      if key != u.canonical {
        EncodedScopeEntry(tm, Create(key));
      }
    }
  }

  lemma PutEntriesKept(tm: map<FastenUri, TypeValue>, u: FastenUri, t: TypeValue, put: JsonObject, updated: JsonObject)
    requires put == EncodeScope(tm[u := t]) && updated == EncodeScope(tm)[u.canonical := JObject(EncodeType(t))]
    ensures forall key :: key in updated ==> key in put
  {
    forall key | key in updated
      ensures key in put
    {
      if key == u.canonical {
        EncodedScopeEntry(tm[u := t], u);
      } else {
        EncodedScopeAt(tm, key);
        EncodedScopeEntry(tm[u := t], Create(key));
      }
    }
  }

  // One such extensionality lemma per map type (SameMethods, SameCallSites, SameCalls, SameObject,
  // SameScope): a single generic lemma makes each of its uses several times costlier to verify.
  /** Two objects with the same keys and the same value under each are the same object. */
  lemma SameObject(o: JsonObject, o': JsonObject)
    requires forall key :: key in o' ==> key in o && o'[key] == o[key]
    requires forall key :: key in o ==> key in o'
    ensures o' == o
  {
    assert o'.Keys == o.Keys;
  }

  /** Two scopes with the same URIs and the same type under each are the same scope. */
  lemma SameScope(tm: map<FastenUri, TypeValue>, tm': map<FastenUri, TypeValue>)
    requires forall u :: u in tm' ==> u in tm && tm'[u] == tm[u]
    requires forall u :: u in tm ==> u in tm'
    ensures tm' == tm
  {
    assert tm'.Keys == tm.Keys;
  }

  /** The object classHierarchyToJSON puts together from the three scope objects. */
  function ChaObject(internal: JsonObject, external: JsonObject, resolved: JsonObject): JsonObject
  {
    map["internalTypes" := JObject(internal), "externalTypes" := JObject(external), "resolvedTypes" := JObject(resolved)]
  }

  ghost function EncodeCha(c: ChaValue): JsonObject
    requires CompleteScopes(c)
  {
    ChaObject(EncodeScope(c[InternalTypes]), EncodeScope(c[ExternalTypes]), EncodeScope(c[ResolvedTypes]))
  }

  /** The scope objects of an encoded class hierarchy, each under its scope's name. */
  lemma EncodedChaScopes(c: ChaValue)
    requires CompleteScopes(c)
    ensures GetObject(EncodeCha(c), ScopeName(InternalTypes)) == Ok(EncodeScope(c[InternalTypes]))
    ensures GetObject(EncodeCha(c), ScopeName(ExternalTypes)) == Ok(EncodeScope(c[ExternalTypes]))
    ensures GetObject(EncodeCha(c), ScopeName(ResolvedTypes)) == Ok(EncodeScope(c[ResolvedTypes]))
  {
  }

  /** Two complete class hierarchies with the same three scopes are the same. */
  lemma SameCha(c: ChaValue, c': ChaValue)
    requires CompleteScopes(c) && CompleteScopes(c')
    requires c'[InternalTypes] == c[InternalTypes] && c'[ExternalTypes] == c[ExternalTypes]
    requires c'[ResolvedTypes] == c[ResolvedTypes]
    ensures c' == c
  {
    forall s: Scope
      ensures s in c && s in c' && c'[s] == c[s]
    {
      match s
      case InternalTypes =>
      case ExternalTypes =>
      case ResolvedTypes =>
    }
    assert c'.Keys == c.Keys;
  }

  // Class hierarchy decoding: getCHAFromJSON.

  /** Every entry of a scope object is a type that the Type(JSONObject) constructor accepts. */
  ghost predicate ScopeWellFormed(o: JsonObject)
  {
    forall key :: key in o ==> o[key].JObject? && TypeWellFormed(o[key].fields)
  }

  /** tm has one type per key of o, under FastenURI.create(key), decoded from that key's object. */
  ghost predicate DecodesScope(o: JsonObject, tm: map<FastenUri, TypeValue>)
  {
    && ScopeWellFormed(o)
    && (forall key :: key in o ==> Create(key) in tm && DecodesType(o[key].fields, tm[Create(key)]))
    && (forall u :: u in tm ==> u.canonical in o)
  }

  /** The object under the scope's name is a scope object. */
  ghost predicate ScopeObjectWellFormed(o: JsonObject, s: Scope)
  {
    GetObject(o, ScopeName(s)).Ok? && ScopeWellFormed(GetObject(o, ScopeName(s)).value)
  }

  ghost predicate ChaWellFormed(o: JsonObject)
  {
    ScopeObjectWellFormed(o, InternalTypes) && ScopeObjectWellFormed(o, ExternalTypes) && ScopeObjectWellFormed(o, ResolvedTypes)
  }

  /** tm is decoded from the object under the scope's name. */
  ghost predicate DecodesScopeAt(o: JsonObject, s: Scope, tm: map<FastenUri, TypeValue>)
  {
    GetObject(o, ScopeName(s)).Ok? && DecodesScope(GetObject(o, ScopeName(s)).value, tm)
  }

  /** c has the three scopes, each decoded from the object under its name. */
  ghost predicate DecodesCha(o: JsonObject, c: ChaValue)
  {
    && CompleteScopes(c)
    && DecodesScopeAt(o, InternalTypes, c[InternalTypes])
    && DecodesScopeAt(o, ExternalTypes, c[ExternalTypes])
    && DecodesScopeAt(o, ResolvedTypes, c[ResolvedTypes])
  }

  /** The entry of o under key is a type object that decodes to t. */
  ghost function ReadsAs(o: JsonObject): (string, TypeValue) -> bool
  {
    (key: string, t: TypeValue) => key in o && o[key].JObject? && TypeWellFormed(o[key].fields) && DecodesType(o[key].fields, t)
  }

  /** Each key in done has its entry under FastenURI.create(key), and values has no other entry. */
  ghost predicate ReadKeys<V>(done: set<string>, values: map<FastenUri, V>, readAs: (string, V) -> bool)
  {
    && (forall key :: key in done ==> Create(key) in values && readAs(key, values[Create(key)]))
    && (forall u :: u in values ==> u.canonical in done)
  }

  /** Reading one more key. */
  lemma ReadKeysStep<V>(done: set<string>, values: map<FastenUri, V>, readAs: (string, V) -> bool, key: string, t: V)
    requires ReadKeys(done, values, readAs) && key !in done && readAs(key, t)
    ensures ReadKeys(done + {key}, values[Create(key) := t], readAs)
  {
    forall k | k in done
      ensures Create(k) != Create(key)
    {
    }
  }

  /** Once every key is read, the types read are the scope's. */
  lemma ReadKeysDone(o: JsonObject, values: map<FastenUri, TypeValue>)
    requires ReadKeys(o.Keys, values, ReadsAs(o))
    ensures DecodesScope(o, values)
  {
    forall key | key in o
      ensures o[key].JObject? && TypeWellFormed(o[key].fields)
      ensures Create(key) in values && DecodesType(o[key].fields, values[Create(key)])
    {
      assert ReadsAs(o)(key, values[Create(key)]);
    }
  }

  /** Reading back a scope toJSON writes gives exactly its URI-to-type map. */
  lemma ScopeRoundTrip(tm: map<FastenUri, TypeValue>)
    ensures DecodesScope(EncodeScope(tm), tm)
    ensures forall tm' :: DecodesScope(EncodeScope(tm), tm') ==> tm' == tm
  {
    EncodedScopeDecodes(tm);
    forall tm' | DecodesScope(EncodeScope(tm), tm')
      ensures tm' == tm
    {
      ScopeDecodesUniquely(tm, tm');
    }
  }

  lemma EncodedScopeDecodes(tm: map<FastenUri, TypeValue>)
    ensures DecodesScope(EncodeScope(tm), tm)
  {
    var o := EncodeScope(tm);
    forall key | key in o
      ensures o[key].JObject? && TypeWellFormed(o[key].fields)
      ensures Create(key) in tm && DecodesType(o[key].fields, tm[Create(key)])
    {
      EncodedScopeAt(tm, key);
      EncodedTypeDecodes(tm[Create(key)]);
    }
    forall u | u in tm
      ensures u.canonical in o
    {
      EncodedScopeEntry(tm, u);
    }
  }

  lemma ScopeDecodesUniquely(tm: map<FastenUri, TypeValue>, tm': map<FastenUri, TypeValue>)
    requires DecodesScope(EncodeScope(tm), tm')
    ensures tm' == tm
  {
    var o := EncodeScope(tm);
    forall u | u in tm'
      ensures u in tm && tm'[u] == tm[u]
    {
      assert Create(u.canonical) == u;
      EncodedScopeAt(tm, u.canonical);
      TypeDecodesUniquely(tm[u], tm'[u]);
    }
    forall u | u in tm
      ensures u in tm'
    {
      EncodedScopeEntry(tm, u);
      assert Create(u.canonical) == u;
    }
    SameScope(tm, tm');
  }

  /** getCHAFromJSON(classHierarchyToJSON(cha)) has the types of cha in the same scopes. */
  lemma ChaRoundTrip(c: ChaValue)
    requires CompleteScopes(c)
    ensures ChaWellFormed(EncodeCha(c))
    ensures DecodesCha(EncodeCha(c), c)
    ensures forall c' :: DecodesCha(EncodeCha(c), c') ==> c' == c
  {
    EncodedChaDecodes(c);
    forall c' | DecodesCha(EncodeCha(c), c')
      ensures c' == c
    {
      ChaDecodesUniquely(c, c');
    }
  }

  lemma EncodedChaDecodes(c: ChaValue)
    requires CompleteScopes(c)
    ensures ChaWellFormed(EncodeCha(c))
    ensures DecodesCha(EncodeCha(c), c)
  {
    EncodedChaScopes(c);
    EncodedScopeDecodes(c[InternalTypes]);
    EncodedScopeDecodes(c[ExternalTypes]);
    EncodedScopeDecodes(c[ResolvedTypes]);
  }

  lemma ChaDecodesUniquely(c: ChaValue, c': ChaValue)
    requires CompleteScopes(c)
    requires DecodesCha(EncodeCha(c), c')
    ensures c' == c
  {
    EncodedChaScopes(c);
    ScopeDecodesUniquely(c[InternalTypes], c'[InternalTypes]);
    ScopeDecodesUniquely(c[ExternalTypes], c'[ExternalTypes]);
    ScopeDecodesUniquely(c[ResolvedTypes], c'[ResolvedTypes]);
    SameCha(c, c');
  }

  // mapOfAllMethods.

  /** Some type of the scope has a method with this id. */
  ghost predicate DefinesId(tm: TypeMap, id: Int32)
    reads TypesOf(tm)
  {
    exists u :: u in tm && id in tm[u].methods
  }

  /** Some type of the scope binds this id to this node. */
  ghost predicate BindsId(tm: TypeMap, id: Int32, n: Node)
    reads TypesOf(tm)
  {
    exists u :: u in tm && id in tm[u].methods && tm[u].methods[id] == n
  }

  /**
   * r is what putAll of every type's methods, scope by scope, can leave behind: it has the ids of
   * all types, and each id is bound by a type of the last scope that has it (resolved over
   * external over internal). Within a scope, HashMap order decides between types sharing an id.
   */
  ghost predicate FlattensMethods(cha: ClassHierarchy, r: map<Int32, Node>)
    requires CompleteScopes(cha)
    reads Types(cha)
  {
    var (internal, external, resolved) := (cha[InternalTypes], cha[ExternalTypes], cha[ResolvedTypes]);
    assert TypesOf(internal) + TypesOf(external) + TypesOf(resolved) <= Types(cha);
    && (forall id :: id in r <==> DefinesId(internal, id) || DefinesId(external, id) || DefinesId(resolved, id))
    && (forall id :: id in r ==>
          if DefinesId(resolved, id) then BindsId(resolved, id, r[id])
          else if DefinesId(external, id) then BindsId(external, id, r[id])
          else BindsId(internal, id, r[id]))
  }

  /** The loop of mapOfAllMethods over one scope: putAll of each type's methods onto acc. */
  method PutAllTypes(tm: TypeMap, acc: map<Int32, Node>) returns (r: map<Int32, Node>)
    ensures forall id :: id in r <==> id in acc || DefinesId(tm, id)
    ensures forall id :: id in r ==> if DefinesId(tm, id) then BindsId(tm, id, r[id]) else r[id] == acc[id]
  {
    r := acc;
    var todo := tm.Keys;
    while todo != {}
      invariant todo <= tm.Keys
      invariant forall id :: id in r <==> id in acc || exists u :: u in tm && u !in todo && id in tm[u].methods
      invariant forall id :: id in r ==>
        if exists u :: u in tm && u !in todo && id in tm[u].methods
        then exists u :: u in tm && u !in todo && id in tm[u].methods && tm[u].methods[id] == r[id]
        else r[id] == acc[id]
      decreases todo
    {
      var u :| u in todo;
      r := r + tm[u].methods;
      todo := todo - {u};
    }
  }

  // The timestamp.

  /** getTimeStamp: getLong("timestamp"), or -1 when that throws. */
  function GetTimeStamp(o: JsonObject): (ts: Int64)
    ensures "timestamp" !in o ==> ts == -1
    ensures GetLong(o, "timestamp").Ok? ==> ts == GetLong(o, "timestamp").value
    ensures GetLong(o, "timestamp").Err? ==> ts == -1
  {
    match GetLong(o, "timestamp")
    case Ok(ts) => ts
    case Err(_) => -1
  }

  /** The value of a revision call graph. */
  datatype RevisionValue = RevisionValue(
    forge: string,
    product: string,
    version: string,
    timestamp: Int64,
    generator: string,
    cha: ChaValue,
    graph: GraphValue,
    nodeCount: Int32)

  /** The keys toJSON always writes. */
  const RevisionKeys: set<string> := {"forge", "product", "version", "generator", "cha", "graph", "nodes"}

  /** The object toJSON puts together from the encodings of the class hierarchy and the graph. */
  function RevisionObject(forge: string, product: string, version: string, generator: string, timestamp: Int64,
                          cha: JsonObject, graph: JsonObject, nodeCount: Int32): JsonObject
  {
    var coordinates := map["forge" := JString(forge), "product" := JString(product), "version" := JString(version),
                           "generator" := JString(generator)];
    var stamped := if timestamp >= 0 then coordinates["timestamp" := JInt(timestamp)] else coordinates;
    stamped["cha" := JObject(cha)]["graph" := JObject(graph)]["nodes" := JInt(nodeCount)]
  }

  /** o is the object toJSON writes for v: "timestamp" only when it is not negative. */
  ghost predicate EncodesRevision(o: JsonObject, v: RevisionValue)
  {
    && CompleteScopes(v.cha)
    && "graph" in o && o["graph"].JObject? && EncodesGraph(o["graph"].fields, v.graph)
    && o == RevisionObject(v.forge, v.product, v.version, v.generator, v.timestamp, EncodeCha(v.cha), o["graph"].fields, v.nodeCount)
  }

  /** toJSON writes the seven keys, and "timestamp" exactly when the timestamp is not negative. */
  lemma RevisionObjectKeys(forge: string, product: string, version: string, generator: string, timestamp: Int64,
                           cha: JsonObject, graph: JsonObject, nodeCount: Int32)
    ensures RevisionObject(forge, product, version, generator, timestamp, cha, graph, nodeCount).Keys
         == RevisionKeys + (if timestamp >= 0 then {"timestamp"} else {})
  {
  }

  /** The object toJSON puts together from the encodings of v's parts is v's encoding. */
  lemma RevisionObjectEncodes(v: RevisionValue, cha: JsonObject, graph: JsonObject)
    requires CompleteScopes(v.cha) && cha == EncodeCha(v.cha) && EncodesGraph(graph, v.graph)
    ensures EncodesRevision(RevisionObject(v.forge, v.product, v.version, v.generator, v.timestamp, cha, graph, v.nodeCount), v)
  {
    var o := RevisionObject(v.forge, v.product, v.version, v.generator, v.timestamp, cha, graph, v.nodeCount);
    assert "graph" in o && o["graph"] == JObject(graph);
  }

  /** Every getter of the ExtendedRevisionCallGraph(JSONObject) constructor succeeds on o. */
  ghost predicate RevisionWellFormed(o: JsonObject)
  {
    && GetString(o, "forge").Ok?
    && GetString(o, "product").Ok?
    && GetString(o, "version").Ok?
    && GetString(o, "generator").Ok?
    && GetObject(o, "graph").Ok? && GraphWellFormed(GetObject(o, "graph").value)
    && GetObject(o, "cha").Ok? && ChaWellFormed(GetObject(o, "cha").value)
    && GetInt(o, "nodes").Ok?
  }

  /** v is a revision the JSON constructor can build from o. */
  ghost predicate DecodesRevision(o: JsonObject, v: RevisionValue)
  {
    && GetString(o, "forge") == Ok(v.forge)
    && GetString(o, "product") == Ok(v.product)
    && GetString(o, "version") == Ok(v.version)
    && v.timestamp == GetTimeStamp(o)
    && GetString(o, "generator") == Ok(v.generator)
    && GetObject(o, "graph").Ok? && DecodesGraph(GetObject(o, "graph").value, v.graph)
    && GetObject(o, "cha").Ok? && DecodesCha(GetObject(o, "cha").value, v.cha)
    && GetInt(o, "nodes") == Ok(v.nodeCount)
  }

  /** The timestamp after a round trip: kept when it was written, -1 when it was not. */
  function ReadBackTimestamp(ts: Int64): Int64
  {
    if ts >= 0 then ts else -1
  }

  /** A timestamp toJSON writes comes back unchanged; one it leaves out comes back as -1. */
  lemma TimestampRoundTrip(o: JsonObject, ts: Int64)
    requires ts >= 0 ==> "timestamp" in o && o["timestamp"] == JInt(ts)
    requires ts < 0 ==> "timestamp" !in o
    ensures GetTimeStamp(o) == ReadBackTimestamp(ts)
  {
    if ts >= 0 {
      assert GetLong(o, "timestamp") == Ok(Wrap64(ts));
    }
  }

  /** The getters of the JSON constructor read back each part toJSON wrote. */
  lemma RevisionObjectFields(forge: string, product: string, version: string, generator: string, timestamp: Int64,
                             cha: JsonObject, graph: JsonObject, nodeCount: Int32)
    ensures var o := RevisionObject(forge, product, version, generator, timestamp, cha, graph, nodeCount);
      && GetString(o, "forge") == Ok(forge) && GetString(o, "product") == Ok(product)
      && GetString(o, "version") == Ok(version) && GetString(o, "generator") == Ok(generator)
      && GetTimeStamp(o) == ReadBackTimestamp(timestamp)
      && GetObject(o, "cha") == Ok(cha) && GetObject(o, "graph") == Ok(graph)
      && GetInt(o, "nodes") == Ok(nodeCount)
  {
    var o := RevisionObject(forge, product, version, generator, timestamp, cha, graph, nodeCount);
    TimestampRoundTrip(o, timestamp);
    assert GetInt(o, "nodes") == Ok(Wrap32(nodeCount));
  }

  /**
   * Decoding what toJSON writes gives back the revision: the same coordinates, generator, class
   * hierarchy, graph and node count, and the timestamp when it was not negative, -1 otherwise.
   */
  lemma RevisionRoundTrip(o: JsonObject, v: RevisionValue)
    requires EncodesRevision(o, v)
    ensures RevisionWellFormed(o)
    ensures DecodesRevision(o, v.(timestamp := ReadBackTimestamp(v.timestamp)))
    ensures forall v' :: DecodesRevision(o, v') ==> v' == v.(timestamp := ReadBackTimestamp(v.timestamp))
  {
    EncodedRevisionDecodes(o, v);
    forall v' | DecodesRevision(o, v')
      ensures v' == v.(timestamp := ReadBackTimestamp(v.timestamp))
    {
      RevisionDecodesUniquely(o, v, v');
    }
  }

  lemma EncodedRevisionDecodes(o: JsonObject, v: RevisionValue)
    requires EncodesRevision(o, v)
    ensures RevisionWellFormed(o)
    ensures DecodesRevision(o, v.(timestamp := ReadBackTimestamp(v.timestamp)))
  {
    RevisionObjectFields(v.forge, v.product, v.version, v.generator, v.timestamp, EncodeCha(v.cha), o["graph"].fields, v.nodeCount);
    EncodedChaDecodes(v.cha);
    GraphRoundTrip(o["graph"].fields, v.graph);
  }

  lemma RevisionDecodesUniquely(o: JsonObject, v: RevisionValue, v': RevisionValue)
    requires EncodesRevision(o, v)
    requires DecodesRevision(o, v')
    ensures v' == v.(timestamp := ReadBackTimestamp(v.timestamp))
  {
    RevisionObjectFields(v.forge, v.product, v.version, v.generator, v.timestamp, EncodeCha(v.cha), o["graph"].fields, v.nodeCount);
    ChaDecodesUniquely(v.cha, v'.cha);
    GraphRoundTrip(o["graph"].fields, v.graph);
  }

  /** The derived URIs of a revision that a constructor sets. */
  predicate HasDerivedUris(r: ExtendedRevisionCallGraph)
  {
    r.uri == RevisionUri(r.forge, r.product, r.version) && r.forgelessUri == ForgelessUri(r.product, r.version)
  }

  class ExtendedRevisionCallGraph {
    const forge: string
    const product: string
    const version: string
    const timestamp: Int64
    const uri: FastenUri
    const forgelessUri: FastenUri
    const cgGenerator: string
    const classHierarchy: ClassHierarchy
    const nodeCount: Int32
    const graph: Graph

    function View(): RevisionValue
      reads this, graph, Types(classHierarchy)
    {
      RevisionValue(forge, product, version, timestamp, cgGenerator, ChaView(classHierarchy), graph.View(), nodeCount)
    }

    /** The constructor from its parts; the two URIs are derived from forge, product and version. */
    constructor (forge: string, product: string, version: string, timestamp: Int64, nodeCount: Int32,
                 cgGenerator: string, classHierarchy: ClassHierarchy, graph: Graph)
      ensures this.forge == forge && this.product == product && this.version == version
      ensures this.timestamp == timestamp && this.nodeCount == nodeCount && this.cgGenerator == cgGenerator
      ensures this.classHierarchy == classHierarchy && this.graph == graph
      ensures uri == RevisionUri(forge, product, version) && forgelessUri == ForgelessUri(product, version)
    {
      this.forge := forge;
      this.product := product;
      this.version := version;
      this.timestamp := timestamp;
      this.uri := RevisionUri(forge, product, version);
      this.forgelessUri := ForgelessUri(product, version);
      this.cgGenerator := cgGenerator;
      this.classHierarchy := classHierarchy;
      this.nodeCount := nodeCount;
      this.graph := graph;
    }

    /** A scope of getCHAFromJSON: FastenURI.create(key) to a fresh Type(getJSONObject(key)). */
    static method ScopeFromJson(o: JsonObject) returns (r: Result<TypeMap>)
      ensures r.Ok? <==> ScopeWellFormed(o)
      ensures r.Ok? ==> DecodesScope(o, ScopeView(r.value))
      ensures r.Ok? ==> forall u :: u in r.value ==> fresh(r.value[u]) && r.value[u].Valid()
    {
      var tm: TypeMap := map[];
      ghost var values: map<FastenUri, TypeValue> := map[];
      var todo := o.Keys;
      while todo != {}
        invariant todo <= o.Keys
        invariant ReadKeys(o.Keys - todo, values, ReadsAs(o))
        invariant forall u :: u in values ==> u in tm
        invariant forall u :: u in tm ==> u in values && fresh(tm[u]) && tm[u].Valid() && tm[u].View() == values[u]
        decreases todo
      {
        var key :| key in todo;
        var typeJson :- AsObject(o[key], key);
        var t :- Type.FromJson(typeJson);
        assert ReadsAs(o)(key, t.View());
        ReadKeysStep(o.Keys - todo, values, ReadsAs(o), key, t.View());
        tm := tm[Create(key) := t];
        values := values[Create(key) := t.View()];
        todo := todo - {key};
      }
      ReadKeysDone(o, values);
      SameScope(values, ScopeView(tm));
      r := Ok(tm);
    }

    /** getCHAFromJSON: the three scopes, each read from the object under its name. */
    static method GetChaFromJson(o: JsonObject) returns (r: Result<ClassHierarchy>)
      ensures r.Ok? <==> ChaWellFormed(o)
      ensures r.Ok? ==> CompleteScopes(r.value) && DecodesCha(o, ChaView(r.value))
      ensures r.Ok? ==> forall s, u :: s in r.value && u in r.value[s] ==> fresh(r.value[s][u]) && r.value[s][u].Valid()
    {
      var internalJson :- GetObject(o, "internalTypes");
      var internals :- ScopeFromJson(internalJson);
      var externalJson :- GetObject(o, "externalTypes");
      var externals :- ScopeFromJson(externalJson);
      var resolvedJson :- GetObject(o, "resolvedTypes");
      var resolved :- ScopeFromJson(resolvedJson);
      var cha := map[InternalTypes := internals, ExternalTypes := externals, ResolvedTypes := resolved];
      assert ChaView(cha)[InternalTypes] == ScopeView(internals);
      assert ChaView(cha)[ExternalTypes] == ScopeView(externals);
      assert ChaView(cha)[ResolvedTypes] == ScopeView(resolved);
      r := Ok(cha);
    }

    /** ExtendedRevisionCallGraph(JSONObject): a fresh revision, or the exception a getter throws. */
    static method FromJson(o: JsonObject) returns (r: Result<ExtendedRevisionCallGraph>)
      ensures r.Ok? <==> RevisionWellFormed(o)
      ensures r.Ok? ==> fresh(r.value) && fresh(r.value.graph) && HasDerivedUris(r.value)
      ensures r.Ok? ==> DecodesRevision(o, r.value.View())
      ensures r.Ok? ==> forall s, u :: s in r.value.classHierarchy && u in r.value.classHierarchy[s] ==>
        fresh(r.value.classHierarchy[s][u]) && r.value.classHierarchy[s][u].Valid()
    {
      var forge :- GetString(o, "forge");
      var product :- GetString(o, "product");
      var version :- GetString(o, "version");
      var timestamp := GetTimeStamp(o);
      var cgGenerator :- GetString(o, "generator");
      var graphJson :- GetObject(o, "graph");
      var graph :- Graph.FromJson(graphJson);
      var chaJson :- GetObject(o, "cha");
      var cha :- GetChaFromJson(chaJson);
      var nodeCount :- GetInt(o, "nodes");
      var revision := new ExtendedRevisionCallGraph(forge, product, version, timestamp, nodeCount, cgGenerator, cha, graph);
      r := Ok(revision);
    }

    /** The entrySet loop of classHierarchyToJSON over one scope. */
    static method ScopeToJson(tm: TypeMap) returns (o: JsonObject)
      ensures o == EncodeScope(ScopeView(tm))
    {
      ghost var values := ScopeView(tm);
      ghost var done: map<FastenUri, TypeValue> := map[];
      o := map[];
      var todo := tm.Keys;
      while todo != {}
        invariant todo <= tm.Keys
        invariant forall u :: u in done ==> u in values && u !in todo && done[u] == values[u]
        invariant forall u :: u in values && u !in todo ==> u in done
        invariant o == EncodeScope(done)
        invariant forall u :: u in tm ==> tm[u].View() == values[u]
        decreases todo
      {
        var u :| u in todo;
        var typeJson := tm[u].ToJson();
        EncodeScopePut(done, u, values[u]);
        o := o[u.canonical := JObject(typeJson)];
        done := done[u := values[u]];
        todo := todo - {u};
      }
      SameScope(values, done);
      SameScope(values, ScopeView(tm));
    }

    /** classHierarchyToJSON: a NullPointerException when a scope is missing. */
    static method ClassHierarchyToJson(cha: ClassHierarchy) returns (r: Result<JsonObject>)
      ensures r.Ok? <==> CompleteScopes(cha)
      ensures r.Ok? ==> CompleteScopes(ChaView(cha)) && r.value == EncodeCha(ChaView(cha))
    {
      if !CompleteScopes(cha) {
        return Err(NullPointer);
      }
      ghost var internals := ScopeView(cha[InternalTypes]);
      ghost var externals := ScopeView(cha[ExternalTypes]);
      ghost var resolved := ScopeView(cha[ResolvedTypes]);
      var internalJson := ScopeToJson(cha[InternalTypes]);
      SameScope(internals, ScopeView(cha[InternalTypes]));
      var externalJson := ScopeToJson(cha[ExternalTypes]);
      SameScope(externals, ScopeView(cha[ExternalTypes]));
      var resolvedJson := ScopeToJson(cha[ResolvedTypes]);
      SameScope(resolved, ScopeView(cha[ResolvedTypes]));
      SameScope(internals, ChaView(cha)[InternalTypes]);
      SameScope(externals, ChaView(cha)[ExternalTypes]);
      SameScope(resolved, ChaView(cha)[ResolvedTypes]);
      r := Ok(ChaObject(internalJson, externalJson, resolvedJson));
    }

    /** toJSON: "timestamp" is written only when it is not negative. */
    method ToJson() returns (r: Result<JsonObject>)
      ensures r.Ok? <==> CompleteScopes(classHierarchy)
      ensures r.Ok? ==> EncodesRevision(r.value, View())
    {
      ghost var cha := ChaView(classHierarchy);
      var chaJson :- ClassHierarchyToJson(classHierarchy);
      SameScope(cha[InternalTypes], ChaView(classHierarchy)[InternalTypes]);
      SameScope(cha[ExternalTypes], ChaView(classHierarchy)[ExternalTypes]);
      SameScope(cha[ResolvedTypes], ChaView(classHierarchy)[ResolvedTypes]);
      SameCha(cha, ChaView(classHierarchy));
      var graphJson := graph.ToJson();
      SameScope(cha[InternalTypes], ChaView(classHierarchy)[InternalTypes]);
      SameScope(cha[ExternalTypes], ChaView(classHierarchy)[ExternalTypes]);
      SameScope(cha[ResolvedTypes], ChaView(classHierarchy)[ResolvedTypes]);
      SameCha(cha, ChaView(classHierarchy));
      ghost var v := View();
      assert v.graph == graph.View() && v.cha == ChaView(classHierarchy);
      RevisionObjectEncodes(v, chaJson, graphJson);
      r := Ok(RevisionObject(forge, product, version, cgGenerator, timestamp, chaJson, graphJson, nodeCount));
    }

    /** mapOfAllMethods: every type's methods, internal first, then external, then resolved. */
    method MapOfAllMethods() returns (r: Result<map<Int32, Node>>)
      ensures r.Ok? <==> CompleteScopes(classHierarchy)
      ensures r.Ok? ==> FlattensMethods(classHierarchy, r.value)
    {
      if !CompleteScopes(classHierarchy) {
        return Err(NullPointer);
      }
      var afterInternal := PutAllTypes(classHierarchy[InternalTypes], map[]);
      var afterExternal := PutAllTypes(classHierarchy[ExternalTypes], afterInternal);
      var result := PutAllTypes(classHierarchy[ResolvedTypes], afterExternal);
      r := Ok(result);
    }

    /** isCallGraphEmpty: no internal, external or resolved calls. */
    predicate IsCallGraphEmpty()
      reads this, graph
      ensures IsCallGraphEmpty() <==> graph.Size() == 0 && graph.resolvedCalls == map[]
      ensures IsCallGraphEmpty() <==> graph.View() == GraphValue(map[], map[], map[])
    {
      |graph.internalCalls| == 0 && |graph.externalCalls| == 0 && |graph.resolvedCalls| == 0
    }
  }

  /**
   * ExtendedBuilder. The fields Java leaves null start as "" for the strings, no scopes for the
   * class hierarchy and an empty graph; the numbers start at Java's default 0.
   */
  class ExtendedBuilder {
    var forge: string
    var product: string
    var version: string
    var cgGenerator: string
    var timestamp: Int64
    var classHierarchy: ClassHierarchy
    var graph: Graph
    var nodeCount: Int32

    constructor ()
      ensures forge == "" && product == "" && version == "" && cgGenerator == ""
      ensures timestamp == 0 && nodeCount == 0 && classHierarchy == map[] && fresh(graph)
      ensures graph.View() == GraphValue(map[], map[], map[])
    {
      forge := "";
      product := "";
      version := "";
      cgGenerator := "";
      timestamp := 0;
      classHierarchy := map[];
      graph := new Graph.Empty();
      nodeCount := 0;
    }

    method NodeCount(nodeCount: Int32) returns (b: ExtendedBuilder)
      modifies this
      ensures b == this && this.nodeCount == nodeCount
      ensures forge == old(forge) && product == old(product) && version == old(version)
      ensures cgGenerator == old(cgGenerator) && timestamp == old(timestamp)
      ensures classHierarchy == old(classHierarchy) && graph == old(graph)
    {
      this.nodeCount := nodeCount;
      b := this;
    }

    method Forge(forge: string) returns (b: ExtendedBuilder)
      modifies this
      ensures b == this && this.forge == forge
      ensures product == old(product) && version == old(version) && cgGenerator == old(cgGenerator)
      ensures timestamp == old(timestamp) && classHierarchy == old(classHierarchy)
      ensures graph == old(graph) && nodeCount == old(nodeCount)
    {
      this.forge := forge;
      b := this;
    }

    method Product(product: string) returns (b: ExtendedBuilder)
      modifies this
      ensures b == this && this.product == product
      ensures forge == old(forge) && version == old(version) && cgGenerator == old(cgGenerator)
      ensures timestamp == old(timestamp) && classHierarchy == old(classHierarchy)
      ensures graph == old(graph) && nodeCount == old(nodeCount)
    {
      this.product := product;
      b := this;
    }

    method Version(version: string) returns (b: ExtendedBuilder)
      modifies this
      ensures b == this && this.version == version
      ensures forge == old(forge) && product == old(product) && cgGenerator == old(cgGenerator)
      ensures timestamp == old(timestamp) && classHierarchy == old(classHierarchy)
      ensures graph == old(graph) && nodeCount == old(nodeCount)
    {
      this.version := version;
      b := this;
    }

    method CgGenerator(cgGenerator: string) returns (b: ExtendedBuilder)
      modifies this
      ensures b == this && this.cgGenerator == cgGenerator
      ensures forge == old(forge) && product == old(product) && version == old(version)
      ensures timestamp == old(timestamp) && classHierarchy == old(classHierarchy)
      ensures graph == old(graph) && nodeCount == old(nodeCount)
    {
      this.cgGenerator := cgGenerator;
      b := this;
    }

    method Timestamp(timestamp: Int64) returns (b: ExtendedBuilder)
      modifies this
      ensures b == this && this.timestamp == timestamp
      ensures forge == old(forge) && product == old(product) && version == old(version)
      ensures cgGenerator == old(cgGenerator) && classHierarchy == old(classHierarchy)
      ensures graph == old(graph) && nodeCount == old(nodeCount)
    {
      this.timestamp := timestamp;
      b := this;
    }

    /** graph(graph), the Java setter; named apart from the class Graph. */
    method WithGraph(graph: Graph) returns (b: ExtendedBuilder)
      modifies this
      ensures b == this && this.graph == graph
      ensures forge == old(forge) && product == old(product) && version == old(version)
      ensures cgGenerator == old(cgGenerator) && timestamp == old(timestamp)
      ensures classHierarchy == old(classHierarchy) && nodeCount == old(nodeCount)
    {
      this.graph := graph;
      b := this;
    }

    /** classHierarchy(cha), the Java setter; named apart from the type ClassHierarchy. */
    method WithClassHierarchy(cha: ClassHierarchy) returns (b: ExtendedBuilder)
      modifies this
      ensures b == this && this.classHierarchy == cha
      ensures forge == old(forge) && product == old(product) && version == old(version)
      ensures cgGenerator == old(cgGenerator) && timestamp == old(timestamp)
      ensures graph == old(graph) && nodeCount == old(nodeCount)
    {
      this.classHierarchy := cha;
      b := this;
    }

    /** build(): a revision with the builder's fields, its URIs derived as the direct constructor does. */
    method Build() returns (r: ExtendedRevisionCallGraph)
      ensures fresh(r) && HasDerivedUris(r)
      ensures r.forge == forge && r.product == product && r.version == version && r.timestamp == timestamp
      ensures r.cgGenerator == cgGenerator && r.classHierarchy == classHierarchy
      ensures r.graph == graph && r.nodeCount == nodeCount
    {
      r := new ExtendedRevisionCallGraph(forge, product, version, timestamp, nodeCount, cgGenerator, classHierarchy, graph);
    }
  }
}
