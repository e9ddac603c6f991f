/**
 * Node: one method of a type, with its URI and opaque metadata, and the helpers that take
 * a node's entity string apart. The entity is what FastenURI.getEntity returns; that parser
 * is not modelled, so the helpers receive the entity as an argument.
 */
module CallGraphNodes {
  import opened Common
  import opened JsonValues
  import opened FastenUris
  import opened JavaStrings

  /**
   * A method node. Node does not override equals, so two nodes are the same node only when
   * they are the same object; a class gives exactly that equality.
   */
  class Node {
    const uri: FastenUri
    const metadata: JsonObject

    constructor (uri: FastenUri, metadata: JsonObject)
      ensures this.uri == uri && this.metadata == metadata
    {
      this.uri := uri;
      this.metadata := metadata;
    }
  }

  /**
   * getClassName: the entity up to its first '.'. Without a '.', indexOf gives -1 and
   * substring(0, -1) throws.
   */
  function ClassName(entity: string): (r: Result<string>)
    ensures r.Ok? <==> '.' in entity
    ensures r.Ok? ==> '.' !in r.value && r.value + "." <= entity
    ensures r.Err? ==> r.error == IndexOutOfBounds(-1)
  {
    if '.' in entity then Ok(entity[..IndexOf(entity, '.')]) else Err(IndexOutOfBounds(-1))
  }

  /**
   * getMethodName: the text between the class name and its '.' and the next '('; None stands for
   * the null that substringBetween returns when no '(' follows.
   */
  function MethodName(entity: string): (r: Result<Option<string>>)
    ensures r.Ok? <==> '.' in entity
    ensures r.Ok? && r.value.Some? ==> '(' !in r.value.value && ClassName(entity).value + "." + r.value.value + "(" <= entity
    ensures r.Ok? ==> (r.value.None? <==> '(' !in entity[|ClassName(entity).value| + 1..])
  {
    var className :- ClassName(entity);
    var rest := entity[|className| + 1..];
    if '(' in rest then
      var name := rest[..IndexOf(rest, '(')];
      PrefixThrough(entity, className, name);
      Ok(Some(name))
    else
      Ok(None)
  }

  /** A prefix of the text after the class name and its '.' extends the prefix "className.". */
  lemma PrefixThrough(entity: string, className: string, name: string)
    requires className + "." <= entity
    requires |name| < |entity| - |className| - 1 && entity[|className| + 1..][..|name| + 1] == name + "("
    ensures className + "." + name + "(" <= entity
  {
    var head := className + ".";
    var rest := entity[|head|..];
    assert entity == head + rest;
    assert rest == (name + "(") + rest[|name| + 1..];
    assert entity == (className + "." + name + "(") + rest[|name| + 1..];
  }

  /** Java's string concatenation of a possibly null string: null is written as "null". */
  function NullableText(s: Option<string>): string
  {
    match s
    case Some(text) => text
    case None => "null"
  }

  /**
   * changeName: replaces "/" + class name + "." and then "." + method name + "(" in the URI
   * string, and gives the result to FastenURI.create. It throws exactly where getClassName and
   * getMethodName do.
   */
  function ChangeName(uri: FastenUri, entity: string, className: string, methodName: string): (r: Result<FastenUri>)
    ensures r.Ok? <==> '.' in entity
    ensures r.Err? ==> r.error == IndexOutOfBounds(-1)
  {
    var oldClass :- ClassName(entity);
    var oldMethod := MethodName(entity).value;
    var renamedClass := ReplaceAll(uri.canonical, "/" + oldClass + ".", "/" + className + ".");
    Ok(Create(ReplaceAll(renamedClass, "." + NullableText(oldMethod) + "(", "." + methodName + "(")))
  }

  /**
   * Renaming a node to its own class and method names gives back its URI; a method name that
   * getMethodName returns as null is passed on as Java prints it, "null".
   */
  lemma ChangeNameToSameNames(uri: FastenUri, entity: string)
    requires '.' in entity
    ensures ChangeName(uri, entity, ClassName(entity).value, NullableText(MethodName(entity).value)) == Ok(uri)
  {
    var className := ClassName(entity).value;
    ReplaceAllBySelf(uri.canonical, "/" + className + ".");
    ReplaceAllBySelf(uri.canonical, "." + NullableText(MethodName(entity).value) + "(");
  }

  /**
   * A URI with no "/" + class name + "." and no "." + method name + "(" (with a null method name
   * written "null") is left as it is by any renaming.
   */
  lemma ChangeNameWithoutOccurrences(uri: FastenUri, entity: string, className: string, methodName: string)
    requires '.' in entity
    requires !Contains(uri.canonical, "/" + ClassName(entity).value + ".")
    requires !Contains(uri.canonical, "." + NullableText(MethodName(entity).value) + "(")
    ensures ChangeName(uri, entity, className, methodName) == Ok(uri)
  {
    ReplaceAllAbsent(uri.canonical, "/" + ClassName(entity).value + ".", "/" + className + ".");
    ReplaceAllAbsent(uri.canonical, "." + NullableText(MethodName(entity).value) + "(", "." + methodName + "(");
  }
  /**
   * The intended rename: in a URI whose path holds "/" + class name + "." + method name + "(" once,
   * and whose method target "." + method name + "(" occurs, once the class is renamed, only
   * there, both names are replaced and the rest of the URI is kept.
   */
  lemma ChangeNameRenames(uri: FastenUri, entity: string, className: string, methodName: string, p: string, q: string)
    requires '.' in entity
    requires uri.canonical == p + "/" + ClassName(entity).value + "." + NullableText(MethodName(entity).value) + "(" + q
    requires OccursOnlyAt(uri.canonical, "/" + ClassName(entity).value + ".", |p|)
    requires OccursOnlyAt(p + "/" + className + "." + NullableText(MethodName(entity).value) + "(" + q,
                          "." + NullableText(MethodName(entity).value) + "(", |p| + 1 + |className|)
    ensures ChangeName(uri, entity, className, methodName) == Ok(FastenUri(p + "/" + className + "." + methodName + "(" + q))
  {
    RenameBoth(uri.canonical, p, q, ClassName(entity).value, NullableText(MethodName(entity).value), className, methodName);
  }

  /** The two replacements of changeName, on the URI string. */
  lemma RenameBoth(s: string, p: string, q: string, oldClass: string, oldMethod: string, className: string, methodName: string)
    requires s == p + "/" + oldClass + "." + oldMethod + "(" + q
    requires OccursOnlyAt(s, "/" + oldClass + ".", |p|)
    requires OccursOnlyAt(p + "/" + className + "." + oldMethod + "(" + q, "." + oldMethod + "(", |p| + 1 + |className|)
    ensures ReplaceAll(ReplaceAll(s, "/" + oldClass + ".", "/" + className + "."), "." + oldMethod + "(", "." + methodName + "(")
         == p + "/" + className + "." + methodName + "(" + q
  {
    GroupAroundTargets(p, oldClass, oldMethod, q);
    ReplaceOnlyOccurrence(p, "/" + oldClass + ".", oldMethod + "(" + q, "/" + className + ".");
    GroupAroundTargets(p, className, oldMethod, q);
    ReplaceOnlyOccurrence(p + "/" + className, "." + oldMethod + "(", q, "." + methodName + "(");
    GroupAroundTargets(p, className, methodName, q);
  }

  /** p + "/" + c + "." + m + "(" + q, grouped around the class target and around the method target. */
  lemma GroupAroundTargets(p: string, c: string, m: string, q: string)
    ensures p + "/" + c + "." + m + "(" + q == p + ("/" + c + ".") + (m + "(" + q)
    ensures p + ("/" + c + ".") + (m + "(" + q) == p + "/" + c + ("." + m + "(") + q
  {
  }
}
