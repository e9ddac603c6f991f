# FASTEN extended revision call graph, modelled in Dafny

This project models the data model of FASTEN's `ExtendedRevisionCallGraph` and the way it is
written to and read from JSON. A revision call graph describes one revision of a package. It holds:

- the revision's forge, product, version and timestamp;
- the name of the generator that produced it;
- a class hierarchy in three scopes: internal, external and resolved types;
- a call graph of internal, external and resolved calls;
- a node count.

Each `Type` of the class hierarchy holds:

- its source file;
- a bijective map from method ids to method `Node`s;
- its super classes, in order, and its super interfaces;
- its access modifier and its final flag.

Each call in the `Graph` is a (caller id, callee id) pair, bound to its call sites: program counters
mapped to opaque metadata.

The model follows the Java code's form:

- `Node`, `Type`, `Graph`, `ExtendedRevisionCallGraph` and `ExtendedBuilder` are classes.
  - `Node` does not override `equals`, so a node is identified by reference, as in Java.
  - `Type.addMethod`, `Graph.append` and the builder setters update fields in place.
- The JSON encoders and decoders are methods with the loops of the Java code. Each one is proved
  against a specification on value views (`NodeValue`, `TypeValue`, `GraphValue`, `ChaValue`,
  `RevisionValue`) of the objects.
- The round-trip lemmas relate those specifications. Decoding what `toJSON` writes gives back
  exactly the value that was written, at every level:
  - call sites, one call, a list of calls, a graph;
  - methods, super-type lists, a type;
  - a scope, the class hierarchy, the whole revision, including the timestamp rule.
- Wherever Java's `HashMap` iteration order decides the outcome, the specification is
  relational: it says which results are possible, not which one comes out. This covers the order
  of the arrays `toJSON` writes, JSON keys such as `"7"` and `"07"` that parse to the same id,
  id collisions within one scope in `mapOfAllMethods`, and the entry `getDefined` finds.

Files:

| file | contents |
|---|---|
| `common.dfy` | `Option`, `Result` and the Java exceptions the code can throw |
| `java_integers.dfy` | Java `int`/`long`, `intValue`/`longValue` wrap-around, `Integer.toString`, `Integer.parseInt`, `Long.parseLong` |
| `java_strings.dfy` | `String.indexOf`, `contains` and `replace` |
| `json.dfy` | the JSON value tree and org.json's typed getters (`getString`, `getInt`, `getLong`, `getBoolean`, `getJSONObject`, `getJSONArray`) |
| `fasten_uris.dfy` | `FastenURI` as an opaque wrapper around its canonical string, and the derived revision URIs |
| `nodes.dfy` | `Node`, `getClassName`, `getMethodName`, `changeName` |
| `types.dfy` | `Type`: `addMethod`, `getDefined`, `toJSON` and the JSON constructor |
| `graphs.dfy` | `Graph`: `size`, `append`, `getCall`, `extractCalls`, `toJSON` and the JSON constructor |
| `revisions.dfy` | the aggregate: constructors, `getTimeStamp`, `getCHAFromJSON`, `classHierarchyToJSON`, `toJSON`, `mapOfAllMethods`, `isCallGraphEmpty`, `ExtendedBuilder` |

## Model

| member | source | states |
|---|---|---|
| JavaIntegers.ParseIntOfToString | core/src/main/java/eu/fasten/core/data/ExtendedRevisionCallGraph.java:465-469 | `Integer.valueOf` reads back every `int` that `toString` wrote, so printed ids and program counters lose nothing |
| FastenUris.RevisionUriDeterminesCoordinates | core/src/main/java/eu/fasten/core/data/ExtendedRevisionCallGraph.java:119 | when the forge has no `!` and the product no `$`, the URI `fasten://forge!product$version` determines all three coordinates (if and only if) |
| FastenUris.ForgelessUriDeterminesCoordinates | core/src/main/java/eu/fasten/core/data/ExtendedRevisionCallGraph.java:120 | when the product has no `$`, `fasten://product$version` determines product and version (if and only if) |
| CallGraphNodes.Node.constructor | core/src/main/java/eu/fasten/core/data/ExtendedRevisionCallGraph.java:556-559 | the node holds the given URI and metadata |
| CallGraphNodes.ClassName | core/src/main/java/eu/fasten/core/data/ExtendedRevisionCallGraph.java:583-585 | succeeds exactly when the entity has a `.`; the result has no `.` and followed by `.` is a prefix of the entity; otherwise `substring(0, -1)` throws |
| CallGraphNodes.MethodName | core/src/main/java/eu/fasten/core/data/ExtendedRevisionCallGraph.java:592-594 | succeeds exactly when the class name does; the name has no `(` and sits between `className.` and the first `(`; it is null exactly when no `(` follows the class name |
| CallGraphNodes.ChangeName | core/src/main/java/eu/fasten/core/data/ExtendedRevisionCallGraph.java:603-606 | succeeds exactly when the entity has a `.`, and otherwise fails as `getClassName` does; what the renamed URI is, `ChangeNameRenames` and the two lemmas after it state |
| CallGraphNodes.ChangeNameRenames | core/src/main/java/eu/fasten/core/data/ExtendedRevisionCallGraph.java:603-606 | the intended rename: a URI `p/C.M(q` whose only `/C.` is the one before `M`, and whose `.M(` after the class rename is only the one after the new class name, becomes `p/className.methodName(q`, where C and M are the entity's class and method names (M is `null` when the method name is null) |
| CallGraphNodes.ChangeNameToSameNames | core/src/main/java/eu/fasten/core/data/ExtendedRevisionCallGraph.java:603-606 | renaming a node to its own class and method names gives back its URI, also when the method name is null and so passed on as `"null"` |
| CallGraphNodes.ChangeNameWithoutOccurrences | core/src/main/java/eu/fasten/core/data/ExtendedRevisionCallGraph.java:603-606 | a URI without `/className.` and without `.methodName(` (`.null(` for a null method name) is left unchanged by any renaming; it does not apply to a URI whose path holds the node's own entity, which always contains `/className.` |
| CallGraphTypes.AddExistingMethod | core/src/main/java/eu/fasten/core/data/ExtendedRevisionCallGraph.java:745-747 | adding a node already in a bijective method map returns the id bound to it and leaves the map unchanged |
| CallGraphTypes.AddNewMethod | core/src/main/java/eu/fasten/core/data/ExtendedRevisionCallGraph.java:745-752 | adding a new node binds it to the given key and returns that key; the map stays a bijection; a node bound to the key before is dropped; the size grows by one exactly when the key was free (the `BiMap` of line 622) |
| CallGraphTypes.AddMethodIdempotent | core/src/main/java/eu/fasten/core/data/ExtendedRevisionCallGraph.java:745-752 | adding the same node a second time, under any key, returns the first id and changes nothing |
| CallGraphTypes.Type.constructor | core/src/main/java/eu/fasten/core/data/ExtendedRevisionCallGraph.java:654-664 | the type holds exactly the given parts; the methods must be a bijection, as a `BiMap` is |
| CallGraphTypes.Type.Empty | core/src/main/java/eu/fasten/core/data/ExtendedRevisionCallGraph.java:705-712 | a type with no methods, no super types, access `""` and not final |
| CallGraphTypes.Type.AddMethod | core/src/main/java/eu/fasten/core/data/ExtendedRevisionCallGraph.java:745-752 | the new methods map and the returned id are those the two lemmas above describe, and the map stays a bijection |
| CallGraphTypes.Type.GetDefined | core/src/main/java/eu/fasten/core/data/ExtendedRevisionCallGraph.java:789-794 | returns an entry of the map whose node's entity contains the signature, and returns none exactly when no entry's entity contains it |
| CallGraphTypes.Type.ToMapOfString | core/src/main/java/eu/fasten/core/data/ExtendedRevisionCallGraph.java:759-768 | every node is written as `{"uri", "metadata"}` under its own id, and nothing else is written |
| CallGraphTypes.Type.ToListOfString | core/src/main/java/eu/fasten/core/data/ExtendedRevisionCallGraph.java:775-781 | the string form of each URI, in the same order |
| CallGraphTypes.Type.ToJson | core/src/main/java/eu/fasten/core/data/ExtendedRevisionCallGraph.java:801-812 | the object holds the six keys of the type's encoding, with the methods keyed by printed id |
| CallGraphTypes.Type.DecodeMethodsLoop | core/src/main/java/eu/fasten/core/data/ExtendedRevisionCallGraph.java:675-681 | succeeds exactly when every entry is an object with a `uri` string and a `metadata` object under a key that parses as an `int`; the result is a bijection of fresh nodes that the loop can leave behind |
| CallGraphTypes.Type.DecodeUriList | core/src/main/java/eu/fasten/core/data/ExtendedRevisionCallGraph.java:683-695 | each string becomes a URI, in order; any non-string element makes it fail |
| CallGraphTypes.Type.FromJson | core/src/main/java/eu/fasten/core/data/ExtendedRevisionCallGraph.java:672-698 | succeeds exactly when each getter of the constructor succeeds; the result is a fresh type with a bijective method map that decodes the object |
| CallGraphTypes.MethodsRoundTrip | core/src/main/java/eu/fasten/core/data/ExtendedRevisionCallGraph.java:675-681 | the methods object written for a map decodes to that map, and to nothing else (written by lines 759-768) |
| CallGraphTypes.UrisRoundTrip | core/src/main/java/eu/fasten/core/data/ExtendedRevisionCallGraph.java:683-695 | the string list written for super classes or super interfaces reads back as the same URIs in the same order (written by lines 775-781) |
| CallGraphTypes.TypeRoundTrip | core/src/main/java/eu/fasten/core/data/ExtendedRevisionCallGraph.java:672-698 | the JSON constructor accepts what `toJSON` writes and gives back the same source file, methods (id to URI and metadata), super classes, super interfaces, access and final flag, and nothing else (written by lines 801-812) |
| CallGraphs.CallSitesRoundTrip | core/src/main/java/eu/fasten/core/data/ExtendedRevisionCallGraph.java:463-467 | the call-site object `toJSON` writes reads back as exactly the same call sites (written by line 511) |
| CallGraphs.CallRoundTrip | core/src/main/java/eu/fasten/core/data/ExtendedRevisionCallGraph.java:461-470 | `getCall` accepts the array written for one call and gives back that call with the same call sites (written by lines 508-511) |
| CallGraphs.CallsRoundTrip | core/src/main/java/eu/fasten/core/data/ExtendedRevisionCallGraph.java:479-487 | the calls array written in any iteration order reads back as exactly the same call map (written by lines 506-513) |
| CallGraphs.GraphRoundTrip | core/src/main/java/eu/fasten/core/data/ExtendedRevisionCallGraph.java:406-410 | `Graph(toJSON())` accepts the object and has the same internal, external and resolved calls, and no other graph decodes from it (written by lines 504-535) |
| CallGraphs.JavaSize | core/src/main/java/eu/fasten/core/data/ExtendedRevisionCallGraph.java:452 | `Map.size()`: the number of entries, capped at `Integer.MAX_VALUE`; zero exactly for the empty map |
| CallGraphs.Appended | core/src/main/java/eu/fasten/core/data/ExtendedRevisionCallGraph.java:494-497 | internal and external calls become the union with the argument's, whose entries win on a shared call; resolved calls stay |
| CallGraphs.AppendIdempotent | core/src/main/java/eu/fasten/core/data/ExtendedRevisionCallGraph.java:494-497 | appending the same graph twice leaves what appending it once did |
| CallGraphs.AppendedCount | core/src/main/java/eu/fasten/core/data/ExtendedRevisionCallGraph.java:494-497 | after append each edge map has the calls of both, less the ones they share |
| CallGraphs.Graph.constructor | core/src/main/java/eu/fasten/core/data/ExtendedRevisionCallGraph.java:393-399 | the graph holds the three given edge maps |
| CallGraphs.Graph.WithoutResolved | core/src/main/java/eu/fasten/core/data/ExtendedRevisionCallGraph.java:418-423 | the graph holds the given internal and external calls and no resolved calls |
| CallGraphs.Graph.Empty | core/src/main/java/eu/fasten/core/data/ExtendedRevisionCallGraph.java:428-432 | the graph has no calls |
| CallGraphs.Graph.Size | core/src/main/java/eu/fasten/core/data/ExtendedRevisionCallGraph.java:451-453 | is zero exactly when there are no internal and no external calls; below `Integer.MAX_VALUE` it is their sum; resolved calls never count |
| CallGraphs.Graph.Append | core/src/main/java/eu/fasten/core/data/ExtendedRevisionCallGraph.java:494-497 | the graph afterwards is `Appended` of the two graphs before the call |
| CallGraphs.Graph.CallToJson | core/src/main/java/eu/fasten/core/data/ExtendedRevisionCallGraph.java:508-511 | one call is written as `[caller, callee, {call sites}]` |
| CallGraphs.Graph.EncodeCalls | core/src/main/java/eu/fasten/core/data/ExtendedRevisionCallGraph.java:506-513 | the array holds each call of the map exactly once, in some iteration order |
| CallGraphs.Graph.ToJson | core/src/main/java/eu/fasten/core/data/ExtendedRevisionCallGraph.java:504-535 | the object has exactly the three arrays, each encoding its own edge map |
| CallGraphs.Graph.DecodeCallSites | core/src/main/java/eu/fasten/core/data/ExtendedRevisionCallGraph.java:463-467 | succeeds exactly when every key parses as an `int` and every value is an object; the result maps each parsed key to its value |
| CallGraphs.Graph.GetCall | core/src/main/java/eu/fasten/core/data/ExtendedRevisionCallGraph.java:461-470 | succeeds exactly when element 2 holds well-formed call sites and elements 0 and 1 are strings that parse as `int`s; the result is that call with those call sites |
| CallGraphs.Graph.ExtractCalls | core/src/main/java/eu/fasten/core/data/ExtendedRevisionCallGraph.java:479-487 | succeeds exactly when the key holds an array of well-formed calls; every call of the array is in the result, bound to the call sites of its last occurrence |
| CallGraphs.Graph.FromJson | core/src/main/java/eu/fasten/core/data/ExtendedRevisionCallGraph.java:406-410 | succeeds exactly when the three call lists are well formed; the result is a fresh graph that decodes them |
| RevisionCallGraphs.ScopeRoundTrip | core/src/main/java/eu/fasten/core/data/ExtendedRevisionCallGraph.java:210-221 | a scope object written by `classHierarchyToJSON` reads back as exactly the same URI-to-type map (written by lines 270-278) |
| RevisionCallGraphs.ChaRoundTrip | core/src/main/java/eu/fasten/core/data/ExtendedRevisionCallGraph.java:205-226 | `getCHAFromJSON(classHierarchyToJSON(cha))` has the types of `cha` in the same three scopes, and nothing else (written by lines 264-284) |
| RevisionCallGraphs.PutAllTypes | core/src/main/java/eu/fasten/core/data/ExtendedRevisionCallGraph.java:235-237 | after `putAll` of every type of a scope: the ids are the old ones plus those of the scope, an id of the scope is bound by some type of the scope, and any other id keeps its old node |
| RevisionCallGraphs.GetTimeStamp | core/src/main/java/eu/fasten/core/data/ExtendedRevisionCallGraph.java:182-189 | the `long` under `timestamp` when `getLong` succeeds, and -1 when the key is missing or not a long |
| RevisionCallGraphs.TimestampRoundTrip | core/src/main/java/eu/fasten/core/data/ExtendedRevisionCallGraph.java:182-189 | a timestamp that `toJSON` writes is read back unchanged; one it leaves out is read back as -1 (written by lines 297-299) |
| RevisionCallGraphs.RevisionObjectKeys | core/src/main/java/eu/fasten/core/data/ExtendedRevisionCallGraph.java:291-304 | `toJSON` writes the seven keys, and writes `timestamp` exactly when the timestamp is not negative |
| RevisionCallGraphs.RevisionRoundTrip | core/src/main/java/eu/fasten/core/data/ExtendedRevisionCallGraph.java:150-161 | the JSON constructor accepts what `toJSON` writes. It gives back the same coordinates, generator, class hierarchy, graph and node count, and the timestamp when it was not negative, otherwise -1. No other revision decodes from that object (written by lines 291-304) |
| RevisionCallGraphs.ExtendedRevisionCallGraph.constructor | core/src/main/java/eu/fasten/core/data/ExtendedRevisionCallGraph.java:111-125 | the revision holds the given parts, and its two URIs are derived from forge, product and version by `FastenUris.RevisionUri` and `FastenUris.ForgelessUri`, the concatenations of lines 119-120 that the builder (137-138) and JSON (155-156) constructors repeat |
| RevisionCallGraphs.ExtendedRevisionCallGraph.ScopeFromJson | core/src/main/java/eu/fasten/core/data/ExtendedRevisionCallGraph.java:210-213 | succeeds exactly when every entry is an object the `Type` constructor accepts; the result has one fresh type per key, under `FastenURI.create(key)` |
| RevisionCallGraphs.ExtendedRevisionCallGraph.GetChaFromJson | core/src/main/java/eu/fasten/core/data/ExtendedRevisionCallGraph.java:205-226 | succeeds exactly when the three scope objects are present and well formed; the result has exactly the three scopes, each decoded from its object |
| RevisionCallGraphs.ExtendedRevisionCallGraph.FromJson | core/src/main/java/eu/fasten/core/data/ExtendedRevisionCallGraph.java:150-161 | succeeds exactly when every getter succeeds (the timestamp never fails); the result is a fresh revision that decodes the object, with the derived URIs; every type of its class hierarchy is fresh and keeps its methods a bijection, as a `HashBiMap` does |
| RevisionCallGraphs.ExtendedRevisionCallGraph.ScopeToJson | core/src/main/java/eu/fasten/core/data/ExtendedRevisionCallGraph.java:270-272 | each type's `toJSON` under its URI's string form, and nothing else |
| RevisionCallGraphs.ExtendedRevisionCallGraph.ClassHierarchyToJson | core/src/main/java/eu/fasten/core/data/ExtendedRevisionCallGraph.java:264-284 | succeeds, with the three scope objects, exactly when all three scopes are present; otherwise it fails as `cha.get(scope).entrySet()` does on null |
| RevisionCallGraphs.ExtendedRevisionCallGraph.ToJson | core/src/main/java/eu/fasten/core/data/ExtendedRevisionCallGraph.java:291-304 | succeeds exactly when the class hierarchy has all three scopes; the object encodes the revision, with `timestamp` only when it is not negative |
| RevisionCallGraphs.ExtendedRevisionCallGraph.MapOfAllMethods | core/src/main/java/eu/fasten/core/data/ExtendedRevisionCallGraph.java:233-245 | every id of every type in any scope is a key; every entry comes from some type's methods; on an id shared across scopes, resolved wins over external, which wins over internal |
| RevisionCallGraphs.ExtendedRevisionCallGraph.IsCallGraphEmpty | core/src/main/java/eu/fasten/core/data/ExtendedRevisionCallGraph.java:252-256 | holds exactly when all three edge maps of the graph are empty, which is exactly when the graph's size is zero and it has no resolved calls |
| RevisionCallGraphs.ExtendedBuilder.constructor | core/src/main/java/eu/fasten/core/data/ExtendedRevisionCallGraph.java:321-322 | a builder whose fields all hold their defaults |
| RevisionCallGraphs.ExtendedBuilder.NodeCount | core/src/main/java/eu/fasten/core/data/ExtendedRevisionCallGraph.java:324-327 | sets the node count, leaves every other field, returns the builder itself |
| RevisionCallGraphs.ExtendedBuilder.Forge | core/src/main/java/eu/fasten/core/data/ExtendedRevisionCallGraph.java:329-332 | sets the forge, leaves every other field, returns the builder itself |
| RevisionCallGraphs.ExtendedBuilder.Product | core/src/main/java/eu/fasten/core/data/ExtendedRevisionCallGraph.java:334-337 | sets the product, leaves every other field, returns the builder itself |
| RevisionCallGraphs.ExtendedBuilder.Version | core/src/main/java/eu/fasten/core/data/ExtendedRevisionCallGraph.java:339-342 | sets the version, leaves every other field, returns the builder itself |
| RevisionCallGraphs.ExtendedBuilder.CgGenerator | core/src/main/java/eu/fasten/core/data/ExtendedRevisionCallGraph.java:344-347 | sets the generator, leaves every other field, returns the builder itself |
| RevisionCallGraphs.ExtendedBuilder.Timestamp | core/src/main/java/eu/fasten/core/data/ExtendedRevisionCallGraph.java:349-352 | sets the timestamp, leaves every other field, returns the builder itself |
| RevisionCallGraphs.ExtendedBuilder.WithGraph | core/src/main/java/eu/fasten/core/data/ExtendedRevisionCallGraph.java:354-357 | `graph(...)`: sets the graph, leaves every other field, returns the builder itself |
| RevisionCallGraphs.ExtendedBuilder.WithClassHierarchy | core/src/main/java/eu/fasten/core/data/ExtendedRevisionCallGraph.java:359-362 | `classHierarchy(...)`: sets the class hierarchy, leaves every other field, returns the builder itself |
| RevisionCallGraphs.ExtendedBuilder.Build | core/src/main/java/eu/fasten/core/data/ExtendedRevisionCallGraph.java:132-143 | a fresh revision with the builder's fields and the URIs the direct constructor derives (called by line 365) |

## Left out

- Text: org.json's parsing and printing of JSON text, key order and number formatting are not modelled. The model works on the JSON value tree. That tree has strings, integers, Booleans, arrays and objects, but no null and no floating point.
- `toMap()` on call-site and node metadata: metadata stays an opaque JSON object instead of becoming a Java `Map<String, Object>`.
- URI values in JSON: `toMapOfString` puts the `FastenURI` object itself under `"uri"`. The model stores its string form, which is what the JSON text carries. The round trips therefore hold through JSON text. In memory, `new Type(t.toJSON())` would throw at `getString("uri")` (line 680), because the value there is a `FastenURI`, not a string.
- `FastenURI.create` and `getEntity`: the URI parser is not part of this model. A URI is an opaque wrapper around its string, and `create` is taken never to throw.
  - `Type.GetDefined` receives `getEntity` as a function parameter.
  - The node-name helpers receive the entity string as an argument.
- CallGraphTypes.Type.GetDefined: states which entries may be found, not which one `findAny` returns, because that depends on hash iteration order.
- HashMap iteration order: where it decides the outcome, the contracts say which results are possible and do not fix one. This covers decoding two keys that parse to the same id, the order of the arrays `toJSON` writes, and within-scope id collisions in `mapOfAllMethods`.
- CallGraphNodes.ChangeName: its new class and method names are strings, so the case where Java is passed a null new method name and writes `.null(` is not modelled.
- Error identity: decoders state only whether they succeed. When one fails, the model does not fix which exception and message comes back, beyond its kind (`JSONException`, `NumberFormatException`, `NullPointerException`).
- Call keys: Java keys a call by a `List<Integer>` of two elements; the model uses a pair `Call(source, target)`.
- Aliasing: the Java constructors keep the maps they are given, so `append`'s in-place `putAll` is visible through every alias. The model's edge maps are values, so a shared map is not updated through its aliases.
- Builder nulls: Java leaves unset reference fields null. The model starts the strings as `""`, the class hierarchy with no scopes and the graph as a fresh empty `Graph`. The numbers start at Java's default 0.
- `HashBiMap.put` throws `IllegalArgumentException` when the node is already bound to another id. The JSON constructor never reaches that, because each node it creates is fresh, so the exception is not modelled.
- Digits: `Integer.parseInt` also accepts non-ASCII Unicode digits; the model accepts ASCII digits only. `getBoolean` compares case-insensitively on ASCII letters only.
- Logging in `getTimeStamp`, `toString`, the plain getters and `extendedBuilder()` are left out: they compute nothing the model needs.
- The rest of the repository (the OPAL call-graph generator, its plugin and their tests) is not part of this model.
