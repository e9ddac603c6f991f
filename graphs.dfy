/**
 * Graph: the internal, external and resolved calls of a revision. A call is a pair of method
 * ids (source, target) and carries a map from program counters to call-site metadata. The
 * module gives the JSON encoding (toJSON), the decoding (getCall, extractCalls and the
 * JSONObject constructor), size and append.
 */
module CallGraphs {
  import opened Common
  import opened JavaIntegers
  import opened JsonValues

  /** A call key: the list [source id, target id]. */
  datatype Call = Call(source: Int32, target: Int32)

  /** The metadata of one call, by program counter. */
  type CallSites = map<Int32, JsonObject>

  type CallMap = map<Call, CallSites>

  datatype GraphValue = GraphValue(internalCalls: CallMap, externalCalls: CallMap, resolvedCalls: CallMap)

  // Encoding: Graph.toJSON.

  /** The call sites as JSON objects, by program counter. */
  function SitesJson(s: CallSites): map<Int32, Json>
  {
    map pc | pc in s :: JObject(s[pc])
  }

  /** new JSONObject(callSites): each program counter becomes String.valueOf(pc). */
  ghost function EncodeCallSites(s: CallSites): JsonObject
  {
    IntKeyed(SitesJson(s))
  }

  /** One call as toJSON writes it: [source.toString(), target.toString(), {call sites}]. */
  ghost function EncodeCall(c: Call, s: CallSites): Json
  {
    JArray([JString(IntToString(c.source)), JString(IntToString(c.target)), JObject(EncodeCallSites(s))])
  }

  /** ks lists every call of m exactly once: an order entrySet() may iterate in. */
  ghost predicate Enumerates(ks: seq<Call>, m: CallMap)
  {
    && (forall i, j :: 0 <= i < j < |ks| ==> ks[i] != ks[j])
    && (forall i :: 0 <= i < |ks| ==> ks[i] in m)
    && (forall c :: c in m ==> c in ks)
  }

  ghost function EncodeCallList(ks: seq<Call>, m: CallMap): seq<Json>
    requires forall i :: 0 <= i < |ks| ==> ks[i] in m
  {
    seq(|ks|, i requires 0 <= i < |ks| => EncodeCall(ks[i], m[ks[i]]))
  }

  /** arr is the JSON array toJSON writes for m, in some iteration order of m. */
  ghost predicate EncodesCalls(arr: seq<Json>, m: CallMap)
  {
    exists ks :: Enumerates(ks, m) && arr == EncodeCallList(ks, m)
  }

  /** o is the object toJSON writes for g. */
  ghost predicate EncodesGraph(o: JsonObject, g: GraphValue)
  {
    && o.Keys == {"internalCalls", "externalCalls", "resolvedCalls"}
    && o["internalCalls"].JArray? && EncodesCalls(o["internalCalls"].items, g.internalCalls)
    && o["externalCalls"].JArray? && EncodesCalls(o["externalCalls"].items, g.externalCalls)
    && o["resolvedCalls"].JArray? && EncodesCalls(o["resolvedCalls"].items, g.resolvedCalls)
  }

  // Decoding: getCall, extractCalls and Graph(JSONObject).

  /** One call-site entry as getCall reads it: Integer.valueOf(key), then getJSONObject(key). */
  function CallSite(key: string, j: Json): Result<(Int32, JsonObject)>
  {
    var pc :- ParseInt(key);
    var site :- AsObject(j, key);
    Ok((pc, site))
  }

  ghost predicate CallSitesWellFormed(o: JsonObject)
  {
    forall key :: key in o ==> CallSite(key, o[key]).Ok?
  }

  /**
   * s is a map the loop over the keys of o can leave behind, and src records for each program
   * counter the key it was last read from: every key's counter is in s, and each counter is bound to
   * the metadata of its key ("7" and "07" overwrite each other in HashMap iteration order).
   */
  ghost predicate CallSitesReadFrom(o: JsonObject, s: CallSites, src: map<Int32, string>)
  {
    && CallSitesWellFormed(o)
    && (forall key :: key in o ==> CallSite(key, o[key]).value.0 in s)
    && src.Keys == s.Keys
    && (forall pc :: pc in src ==> src[pc] in o && CallSite(src[pc], o[src[pc]]) == Ok((pc, s[pc])))
  }

  /** s is a map the loop over the keys of o can leave behind. */
  ghost predicate DecodesCallSites(o: JsonObject, s: CallSites)
  {
    exists src :: CallSitesReadFrom(o, s, src)
  }

  /** The key of a call array: Integer.valueOf(getString(0)), then Integer.valueOf(getString(1)). */
  function CallOf(a: seq<Json>): Result<Call>
  {
    var source :- StringAt(a, 0);
    var sourceId :- ParseInt(source);
    var target :- StringAt(a, 1);
    var targetId :- ParseInt(target);
    Ok(Call(sourceId, targetId))
  }

  /** Every step of getCall succeeds on a. */
  ghost predicate CallWellFormed(a: seq<Json>)
  {
    ObjectAt(a, 2).Ok? && CallSitesWellFormed(ObjectAt(a, 2).value) && CallOf(a).Ok?
  }

  /** getCall can return the single entry c -> s for a. */
  ghost predicate DecodesCall(a: seq<Json>, c: Call, s: CallSites)
  {
    ObjectAt(a, 2).Ok? && DecodesCallSites(ObjectAt(a, 2).value, s) && CallOf(a) == Ok(c)
  }

  /** Element i of items is an array that getCall accepts. */
  ghost predicate ElementWellFormed(items: seq<Json>, i: int)
  {
    ArrayAt(items, i).Ok? && CallWellFormed(ArrayAt(items, i).value)
  }

  ghost function CallAt(items: seq<Json>, i: int): Call
    requires ElementWellFormed(items, i)
  {
    CallOf(ArrayAt(items, i).value).value
  }

  /** The first n elements of items are calls getCall accepts. */
  ghost predicate CallsWellFormed(items: seq<Json>, n: nat)
  {
    n <= |items| && forall i :: 0 <= i < n ==> ElementWellFormed(items, i)
  }

  /** No element after i and before n has the same call as element i. */
  ghost predicate LastBefore(items: seq<Json>, n: nat, i: int)
    requires ElementWellFormed(items, i)
  {
    forall j :: i < j < n ==> !(ElementWellFormed(items, j) && CallAt(items, j) == CallAt(items, i))
  }

  /**
   * Element i is, among the first n elements, the last occurrence of call c, and m binds c to the
   * call sites read from it.
   */
  ghost predicate LastReadAt(items: seq<Json>, n: nat, m: CallMap, c: Call, i: int)
    requires c in m
  {
    && 0 <= i < n && ElementWellFormed(items, i) && CallAt(items, i) == c && LastBefore(items, n, i)
    && DecodesCall(ArrayAt(items, i).value, c, m[c])
  }

  /**
   * m is what putAll of getCall over the first n elements leaves behind: every call of them is in
   * m, and the call sites bound to a call are read from its last occurrence.
   */
  ghost predicate DecodesCallsUpTo(items: seq<Json>, n: nat, m: CallMap)
  {
    && CallsWellFormed(items, n)
    && (forall i :: 0 <= i < n ==> CallAt(items, i) in m)
    && (forall c {:trigger m[c]} :: c in m ==> exists i :: LastReadAt(items, n, m, c, i))
  }

  /** One more putAll of getCall: the call of element n - 1 now reads its call sites from there. */
  lemma DecodesCallsStep(items: seq<Json>, n: nat, m: CallMap, c: Call, s: CallSites)
    requires 0 < n <= |items| && DecodesCallsUpTo(items, n - 1, m)
    requires ElementWellFormed(items, n - 1) && CallAt(items, n - 1) == c
    requires DecodesCall(ArrayAt(items, n - 1).value, c, s)
    ensures DecodesCallsUpTo(items, n, m[c := s])
  {
    var m' := m[c := s];
    assert LastReadAt(items, n, m', c, n - 1);
    forall c' | c' in m' && c' != c
      ensures exists k :: LastReadAt(items, n, m', c', k)
    {
      var k :| LastReadAt(items, n - 1, m, c', k);
      assert LastReadAt(items, n, m', c', k);
    }
  }

  ghost predicate DecodesCalls(items: seq<Json>, m: CallMap)
  {
    DecodesCallsUpTo(items, |items|, m)
  }

  /** extractCalls(o, key) succeeds. */
  ghost predicate CallListWellFormed(o: JsonObject, key: string)
  {
    GetArray(o, key).Ok? && CallsWellFormed(GetArray(o, key).value, |GetArray(o, key).value|)
  }

  ghost predicate GraphWellFormed(o: JsonObject)
  {
    CallListWellFormed(o, "internalCalls") && CallListWellFormed(o, "externalCalls") && CallListWellFormed(o, "resolvedCalls")
  }

  /** g is a graph Graph(JSONObject) can build from o. */
  ghost predicate DecodesGraph(o: JsonObject, g: GraphValue)
  {
    && GetArray(o, "internalCalls").Ok? && DecodesCalls(GetArray(o, "internalCalls").value, g.internalCalls)
    && GetArray(o, "externalCalls").Ok? && DecodesCalls(GetArray(o, "externalCalls").value, g.externalCalls)
    && GetArray(o, "resolvedCalls").Ok? && DecodesCalls(GetArray(o, "resolvedCalls").value, g.resolvedCalls)
  }

  // Round trip.

  /** Each entry of the call-site object toJSON writes is the metadata under the counter its key spells. */
  lemma EncodedCallSiteAt(s: CallSites, key: string)
    requires key in EncodeCallSites(s)
    ensures ParseInt(key).Ok? && ParseInt(key).value in s && key == IntToString(ParseInt(key).value)
    ensures CallSite(key, EncodeCallSites(s)[key]) == Ok((ParseInt(key).value, s[ParseInt(key).value]))
  {
    assert EncodeCallSites(s)[key] == SitesJson(s)[ParseInt(key).value];
  }

  /** The call-site object toJSON writes decodes to exactly the original call sites. */
  lemma CallSitesRoundTrip(s: CallSites)
    ensures DecodesCallSites(EncodeCallSites(s), s)
    ensures forall s' :: DecodesCallSites(EncodeCallSites(s), s') ==> s' == s
  {
    var o := EncodeCallSites(s);
    forall key | key in o
      ensures CallSite(key, o[key]).Ok? && CallSite(key, o[key]).value.0 in s
    {
      EncodedCallSiteAt(s, key);
    }
    var src := map pc | pc in s :: IntToString(pc);
    forall pc | pc in src
      ensures src[pc] in o && CallSite(src[pc], o[src[pc]]) == Ok((pc, s[pc]))
    {
      ParseIntOfToString(pc);
      EncodedCallSiteAt(s, IntToString(pc));
    }
    assert CallSitesReadFrom(o, s, src);
    forall s' | DecodesCallSites(o, s')
      ensures s' == s
    {
      var src' :| CallSitesReadFrom(o, s', src');
      CallSitesDecodeUniquely(s, s', src');
    }
  }

  /** Any decoding of the call-site object of s has the counters of s and binds each as s does. */
  lemma CallSitesDecodeUniquely(s: CallSites, s': CallSites, src: map<Int32, string>)
    requires CallSitesReadFrom(EncodeCallSites(s), s', src)
    ensures s' == s
  {
    DecodedCallSitesWithin(s, s', src);
    EncodedCallSitesDecoded(s, s', src);
    SameCallSites(s, s');
  }

  /** Every counter a decoding reads from the call-site object of s is bound as in s. */
  lemma DecodedCallSitesWithin(s: CallSites, s': CallSites, src: map<Int32, string>)
    requires CallSitesReadFrom(EncodeCallSites(s), s', src)
    ensures forall pc :: pc in s' ==> pc in s && s'[pc] == s[pc]
  {
    forall pc | pc in s'
      ensures pc in s && s'[pc] == s[pc]
    {
      EncodedCallSiteAt(s, src[pc]);
    }
  }

  /** Every counter of s is read by any decoding of its call-site object. */
  lemma EncodedCallSitesDecoded(s: CallSites, s': CallSites, src: map<Int32, string>)
    requires CallSitesReadFrom(EncodeCallSites(s), s', src)
    ensures forall pc :: pc in s ==> pc in s'
  {
    forall pc | pc in s
      ensures pc in s'
    {
      ParseIntOfToString(pc);
      EncodedCallSiteAt(s, IntToString(pc));
    }
  }

  /**
   * Two call-site maps with the same program counters and the same metadata under each are equal.
   * Written per map type, as the note above SameObject in RevisionCallGraphs explains.
   */
  lemma SameCallSites(s: CallSites, s': CallSites)
    requires forall pc :: pc in s ==> pc in s'
    requires forall pc :: pc in s' ==> pc in s && s'[pc] == s[pc]
    ensures s' == s
  {
    assert s'.Keys == s.Keys;
  }

  /** getCall on what toJSON writes for one call gives back that call and its call sites. */
  lemma CallRoundTrip(c: Call, s: CallSites)
    ensures CallWellFormed(EncodeCall(c, s).items)
    ensures DecodesCall(EncodeCall(c, s).items, c, s)
    ensures forall s' :: DecodesCall(EncodeCall(c, s).items, c, s') ==> s' == s
  {
    ParseIntOfToString(c.source);
    ParseIntOfToString(c.target);
    CallSitesRoundTrip(s);
    assert ObjectAt(EncodeCall(c, s).items, 2) == Ok(EncodeCallSites(s));
  }

  /** Element i of the array written in the order ks is the call ks[i] with its own call sites. */
  lemma EncodedCallAt(arr: seq<Json>, m: CallMap, ks: seq<Call>, i: int)
    requires Enumerates(ks, m) && arr == EncodeCallList(ks, m) && 0 <= i < |arr|
    ensures ElementWellFormed(arr, i) && CallAt(arr, i) == ks[i]
    ensures DecodesCall(ArrayAt(arr, i).value, ks[i], m[ks[i]])
    ensures forall s' :: DecodesCall(ArrayAt(arr, i).value, ks[i], s') ==> s' == m[ks[i]]
  {
    assert ArrayAt(arr, i).value == EncodeCall(ks[i], m[ks[i]]).items;
    CallRoundTrip(ks[i], m[ks[i]]);
  }

  lemma EncodedCallsDecode(arr: seq<Json>, m: CallMap, ks: seq<Call>)
    requires Enumerates(ks, m) && arr == EncodeCallList(ks, m)
    ensures DecodesCalls(arr, m)
  {
    forall i | 0 <= i < |arr|
      ensures ElementWellFormed(arr, i) && CallAt(arr, i) in m
    {
      EncodedCallAt(arr, m, ks, i);
    }
    forall c | c in m
      ensures exists i :: LastReadAt(arr, |arr|, m, c, i)
    {
      var i :| 0 <= i < |ks| && ks[i] == c;
      EncodedCallAt(arr, m, ks, i);
      forall j | i < j < |arr|
        ensures !(ElementWellFormed(arr, j) && CallAt(arr, j) == CallAt(arr, i))
      {
        EncodedCallAt(arr, m, ks, j);
      }
      assert LastReadAt(arr, |arr|, m, c, i);
    }
  }

  /** Every call a decoding of the array written for m binds is bound as in m. */
  lemma DecodedCallsWithin(arr: seq<Json>, m: CallMap, ks: seq<Call>, m': CallMap)
    requires Enumerates(ks, m) && arr == EncodeCallList(ks, m)
    requires forall c {:trigger m'[c]} :: c in m' ==> exists i :: LastReadAt(arr, |arr|, m', c, i)
    ensures forall c :: c in m' ==> c in m && m'[c] == m[c]
  {
    forall c | c in m'
      ensures c in m && m'[c] == m[c]
    {
      var i :| LastReadAt(arr, |arr|, m', c, i);
      EncodedCallAt(arr, m, ks, i);
    }
  }

  /** Every call of m is bound by any decoding of the array written for m. */
  lemma EncodedCallsRead(arr: seq<Json>, m: CallMap, ks: seq<Call>, m': CallMap)
    requires Enumerates(ks, m) && arr == EncodeCallList(ks, m)
    requires CallsWellFormed(arr, |arr|) && forall i :: 0 <= i < |arr| ==> CallAt(arr, i) in m'
    ensures forall c :: c in m ==> c in m'
  {
    forall c | c in m
      ensures c in m'
    {
      var i :| 0 <= i < |ks| && ks[i] == c;
      EncodedCallAt(arr, m, ks, i);
    }
  }

  lemma EncodedCallsDecodeUniquely(arr: seq<Json>, m: CallMap, ks: seq<Call>, m': CallMap)
    requires Enumerates(ks, m) && arr == EncodeCallList(ks, m)
    requires DecodesCalls(arr, m')
    ensures m' == m
  {
    DecodedCallsWithin(arr, m, ks, m');
    EncodedCallsRead(arr, m, ks, m');
    SameCalls(m, m');
  }

  /**
   * Two call maps with the same calls and the same call sites under each are equal.
   * Written per map type, as the note above SameObject in RevisionCallGraphs explains.
   */
  lemma SameCalls(m: CallMap, m': CallMap)
    requires forall c :: c in m ==> c in m'
    requires forall c :: c in m' ==> c in m && m'[c] == m[c]
    ensures m' == m
  {
    assert m'.Keys == m.Keys;
  }

  /**
   * Reading back the array toJSON writes for m, in whatever order it was written, gives exactly
   * m: each call is written once, so its only occurrence is its last.
   */
  lemma CallsRoundTrip(arr: seq<Json>, m: CallMap)
    requires EncodesCalls(arr, m)
    ensures CallsWellFormed(arr, |arr|)
    ensures DecodesCalls(arr, m)
    ensures forall m' :: DecodesCalls(arr, m') ==> m' == m
  {
    var ks :| Enumerates(ks, m) && arr == EncodeCallList(ks, m);
    EncodedCallsDecode(arr, m, ks);
    forall m' | DecodesCalls(arr, m')
      ensures m' == m
    {
      EncodedCallsDecodeUniquely(arr, m, ks, m');
    }
  }

  /** Graph(toJSON()) has the internal, external and resolved calls of the graph written. */
  lemma GraphRoundTrip(o: JsonObject, g: GraphValue)
    requires EncodesGraph(o, g)
    ensures GraphWellFormed(o)
    ensures DecodesGraph(o, g)
    ensures forall g' :: DecodesGraph(o, g') ==> g' == g
  {
    CallsRoundTrip(o["internalCalls"].items, g.internalCalls);
    CallsRoundTrip(o["externalCalls"].items, g.externalCalls);
    CallsRoundTrip(o["resolvedCalls"].items, g.resolvedCalls);
  }

  // size and append.

  const MaxInt: int := 0x7FFF_FFFF

  /** Map.size(): the number of entries, or Integer.MAX_VALUE when there are more. */
  function JavaSize(m: CallMap): (n: Int32)
    ensures 0 <= n <= MaxInt
    ensures n == 0 <==> m == map[]
    ensures |m| <= MaxInt ==> n == |m|
  {
    if |m| <= MaxInt then |m| else MaxInt
  }

  /**
   * The calls after append: the internal and external calls of h are put over those of g, and the
   * resolved calls of g are kept.
   */
  function Appended(g: GraphValue, h: GraphValue): (r: GraphValue)
    ensures r.internalCalls.Keys == g.internalCalls.Keys + h.internalCalls.Keys
    ensures r.externalCalls.Keys == g.externalCalls.Keys + h.externalCalls.Keys
    ensures forall c :: c in r.internalCalls ==> r.internalCalls[c] == if c in h.internalCalls then h.internalCalls[c] else g.internalCalls[c]
    ensures forall c :: c in r.externalCalls ==> r.externalCalls[c] == if c in h.externalCalls then h.externalCalls[c] else g.externalCalls[c]
    ensures r.resolvedCalls == g.resolvedCalls
  {
    GraphValue(g.internalCalls + h.internalCalls, g.externalCalls + h.externalCalls, g.resolvedCalls)
  }

  /** Appending the same graph twice adds nothing the first append did not. */
  lemma AppendIdempotent(g: GraphValue, h: GraphValue)
    ensures Appended(Appended(g, h), h) == Appended(g, h)
  {
    var once := Appended(g, h);
    var twice := Appended(once, h);
    assert twice.internalCalls == once.internalCalls;
    assert twice.externalCalls == once.externalCalls;
  }

  /** After append the graph has every call of both, and as many as the two minus those they share. */
  lemma AppendedCount(g: GraphValue, h: GraphValue)
    ensures |Appended(g, h).internalCalls| == |g.internalCalls| + |h.internalCalls| - |g.internalCalls.Keys * h.internalCalls.Keys|
    ensures |Appended(g, h).externalCalls| == |g.externalCalls| + |h.externalCalls| - |g.externalCalls.Keys * h.externalCalls.Keys|
  {
    var r := Appended(g, h);
    assert |r.internalCalls| == |r.internalCalls.Keys|;
    assert |r.externalCalls| == |r.externalCalls.Keys|;
  }

  class Graph {
    var internalCalls: CallMap
    var externalCalls: CallMap
    var resolvedCalls: CallMap

    function View(): GraphValue
      reads this
    {
      GraphValue(internalCalls, externalCalls, resolvedCalls)
    }

    /** Graph(internalCalls, externalCalls, resolvedCalls). */
    constructor (internalCalls: CallMap, externalCalls: CallMap, resolvedCalls: CallMap)
      ensures View() == GraphValue(internalCalls, externalCalls, resolvedCalls)
    {
      this.internalCalls := internalCalls;
      this.externalCalls := externalCalls;
      this.resolvedCalls := resolvedCalls;
    }

    /** Graph(internalCalls, externalCalls): no resolved calls. */
    constructor WithoutResolved(internalCalls: CallMap, externalCalls: CallMap)
      ensures View() == GraphValue(internalCalls, externalCalls, map[])
    {
      this.internalCalls := internalCalls;
      this.externalCalls := externalCalls;
      this.resolvedCalls := map[];
    }

    /** Graph(): no calls at all. */
    constructor Empty()
      ensures View() == GraphValue(map[], map[], map[])
    {
      this.internalCalls := map[];
      this.externalCalls := map[];
      this.resolvedCalls := map[];
    }

    /**
     * size(): the internal plus the external calls as a Java int; resolved calls are not
     * counted. The sum of two sizes below 2^31 is zero after wrap-around only when both are.
     */
    function Size(): (n: Int32)
      reads this
      ensures n == 0 <==> internalCalls == map[] && externalCalls == map[]
      ensures |internalCalls| + |externalCalls| <= MaxInt ==> n == |internalCalls| + |externalCalls|
    {
      var sum := JavaSize(internalCalls) + JavaSize(externalCalls);
      var n := Wrap32(sum);
      assert 0 <= sum < 0x1_0000_0000 && (sum - n) % 0x1_0000_0000 == 0;
      n
    }

    /** append(g): putAll of g's internal and external calls; the resolved calls stay. */
    method Append(g: Graph)
      modifies this
      ensures View() == Appended(old(View()), old(g.View()))
    {
      var gInternal := g.internalCalls;
      var gExternal := g.externalCalls;
      internalCalls := internalCalls + gInternal;
      externalCalls := externalCalls + gExternal;
    }

    /** One entry of toJSON: [source.toString(), target.toString(), new JSONObject(call sites)]. */
    static method CallToJson(c: Call, s: CallSites) returns (j: Json)
      ensures j == EncodeCall(c, s)
    {
      var sites := IntKeyedObject(SitesJson(s));
      j := JArray([JString(IntToString(c.source)), JString(IntToString(c.target)), JObject(sites)]);
    }

    /** The entrySet loop of toJSON: one [source, target, sites] array per call. */
    static method EncodeCalls(m: CallMap) returns (arr: seq<Json>)
      ensures EncodesCalls(arr, m)
    {
      arr := [];
      ghost var ks: seq<Call> := [];
      var todo := m.Keys;
      while todo != {}
        invariant todo <= m.Keys
        invariant forall i, j :: 0 <= i < j < |ks| ==> ks[i] != ks[j]
        invariant forall i :: 0 <= i < |ks| ==> ks[i] in m && ks[i] !in todo
        invariant forall c :: c in m ==> c in todo || c in ks
        invariant arr == EncodeCallList(ks, m)
        decreases todo
      {
        var c :| c in todo;
        var callJson := CallToJson(c, m[c]);
        arr := arr + [callJson];
        ks := ks + [c];
        todo := todo - {c};
      }
      assert Enumerates(ks, m);
    }

    /** toJSON. */
    method ToJson() returns (j: JsonObject)
      ensures EncodesGraph(j, View())
    {
      var internalJson := EncodeCalls(internalCalls);
      var externalJson := EncodeCalls(externalCalls);
      var resolvedJson := EncodeCalls(resolvedCalls);
      j := map["internalCalls" := JArray(internalJson), "externalCalls" := JArray(externalJson),
               "resolvedCalls" := JArray(resolvedJson)];
    }

    /** The call-site loop of getCall. */
    static method DecodeCallSites(o: JsonObject) returns (r: Result<CallSites>)
      ensures r.Ok? <==> CallSitesWellFormed(o)
      ensures r.Ok? ==> DecodesCallSites(o, r.value)
    {
      var s: CallSites := map[];
      ghost var src: map<Int32, string> := map[];
      var todo := o.Keys;
      while todo != {}
        invariant todo <= o.Keys
        invariant forall key :: key in o && key !in todo ==> CallSite(key, o[key]).Ok? && CallSite(key, o[key]).value.0 in s
        invariant src.Keys == s.Keys
        invariant forall pc :: pc in src ==> src[pc] in o && src[pc] !in todo && CallSite(src[pc], o[src[pc]]) == Ok((pc, s[pc]))
        decreases todo
      {
        var key :| key in todo;
        var pc :- ParseInt(key);
        var site :- AsObject(o[key], key);
        assert CallSite(key, o[key]) == Ok((pc, site));
        s := s[pc := site];
        src := src[pc := key];
        todo := todo - {key};
      }
      assert CallSitesReadFrom(o, s, src);
      r := Ok(s);
    }

    /** getCall: the single entry a call array stands for, or the exception a getter throws. */
    static method GetCall(a: seq<Json>) returns (r: Result<(Call, CallSites)>)
      ensures r.Ok? <==> CallWellFormed(a)
      ensures r.Ok? ==> DecodesCall(a, r.value.0, r.value.1)
    {
      var sitesJson :- ObjectAt(a, 2);
      var sites :- DecodeCallSites(sitesJson);
      var source :- StringAt(a, 0);
      var sourceId :- ParseInt(source);
      var target :- StringAt(a, 1);
      var targetId :- ParseInt(target);
      r := Ok((Call(sourceId, targetId), sites));
    }

    /** extractCalls(graph, key): putAll of getCall over each element of the array, in order. */
    static method ExtractCalls(o: JsonObject, key: string) returns (r: Result<CallMap>)
      ensures r.Ok? <==> CallListWellFormed(o, key)
      ensures r.Ok? ==> DecodesCalls(GetArray(o, key).value, r.value)
    {
      var items :- GetArray(o, key);
      var result: CallMap := map[];
      for i := 0 to |items|
        invariant DecodesCallsUpTo(items, i, result)
      {
        var callJson := ArrayAt(items, i);
        if callJson.Err? {
          assert !ElementWellFormed(items, i);
          return Err(callJson.error);
        }
        var entry := GetCall(callJson.value);
        if entry.Err? {
          assert !ElementWellFormed(items, i);
          return Err(entry.error);
        }
        var (c, sites) := entry.value;
        DecodesCallsStep(items, i + 1, result, c, sites);
        result := result[c := sites];
      }
      r := Ok(result);
    }

    /** Graph(JSONObject): a fresh graph, or the exception the first failing extractCalls throws. */
    static method FromJson(o: JsonObject) returns (r: Result<Graph>)
      ensures r.Ok? <==> GraphWellFormed(o)
      ensures r.Ok? ==> fresh(r.value) && DecodesGraph(o, r.value.View())
    {
      var internalCalls :- ExtractCalls(o, "internalCalls");
      var externalCalls :- ExtractCalls(o, "externalCalls");
      var resolvedCalls :- ExtractCalls(o, "resolvedCalls");
      var g := new Graph(internalCalls, externalCalls, resolvedCalls);
      r := Ok(g);
    }
  }
}
