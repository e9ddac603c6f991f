/**
 * FastenURI as the call-graph model sees it: an opaque key identified by its canonical string.
 * FastenURI.create's parser is not modelled; it is taken to accept every string it is given.
 */
module FastenUris {

  datatype FastenUri = FastenUri(canonical: string)

  /** FastenURI.create(s). */
  function Create(s: string): FastenUri
  {
    FastenUri(s)
  }

  /** The URI of a revision: "fasten://" + forge + "!" + product + "$" + version. */
  function RevisionUri(forge: string, product: string, version: string): FastenUri
  {
    Create("fasten://" + forge + "!" + product + "$" + version)
  }

  /** The forgeless URI of a revision: "fasten://" + product + "$" + version. */
  function ForgelessUri(product: string, version: string): FastenUri
  {
    Create("fasten://" + product + "$" + version)
  }

  /** In a + [c] + b with c not in a, the character at any index below |a| is not c. */
  lemma NoSeparatorBefore(a: string, b: string, c: char, i: nat)
    requires c !in a && i < |a|
    ensures (a + [c] + b)[i] != c
  {
    assert (a + [c] + b)[i] == a[i];
  }

  /** Splitting at the first occurrence of a separator is unambiguous. */
  lemma SplitAtFirst(a: string, b: string, a': string, b': string, c: char)
    requires c !in a && c !in a'
    requires a + [c] + b == a' + [c] + b'
    ensures a == a' && b == b'
  {
    var s := a + [c] + b;
    if |a| < |a'| {
      NoSeparatorBefore(a', b', c, |a|);
      assert false;
    } else if |a'| < |a| {
      NoSeparatorBefore(a, b, c, |a'|);
      assert false;
    }
    assert a == s[..|a|] == a';
    assert b == s[|a| + 1..] == b';
  }

  /**
   * When the forge has no '!' and the product no '$', the revision URI determines forge,
   * product and version, so distinct revisions get distinct URIs.
   */
  lemma RevisionUriDeterminesCoordinates(f: string, p: string, v: string, f': string, p': string, v': string)
    requires '!' !in f && '!' !in f' && '$' !in p && '$' !in p'
    ensures RevisionUri(f, p, v) == RevisionUri(f', p', v') <==> f == f' && p == p' && v == v'
  {
    if RevisionUri(f, p, v) == RevisionUri(f', p', v') {
      var s := "fasten://" + f + "!" + p + "$" + v;
      var s' := "fasten://" + f' + "!" + p' + "$" + v';
      assert s == s';
      assert s[9..] == f + ['!'] + (p + "$" + v);
      assert s'[9..] == f' + ['!'] + (p' + "$" + v');
      SplitAtFirst(f, p + "$" + v, f', p' + "$" + v', '!');
      assert p + "$" + v == p + ['$'] + v;
      assert p' + "$" + v' == p' + ['$'] + v';
      SplitAtFirst(p, v, p', v', '$');
    }
  }

  /** When the product has no '$', the forgeless URI determines product and version. */
  lemma ForgelessUriDeterminesCoordinates(p: string, v: string, p': string, v': string)
    requires '$' !in p && '$' !in p'
    ensures ForgelessUri(p, v) == ForgelessUri(p', v') <==> p == p' && v == v'
  {
    if ForgelessUri(p, v) == ForgelessUri(p', v') {
      var s := "fasten://" + p + "$" + v;
      var s' := "fasten://" + p' + "$" + v';
      assert s[9..] == p + ['$'] + v;
      assert s'[9..] == p' + ['$'] + v';
      SplitAtFirst(p, v, p', v', '$');
    }
  }
}
