/** buildCacheKey with the body-hash suffix of ServeHTTP, and when it tells requests apart
    (internal/proxy/cache.go, internal/proxy/proxy.go, internal/proxy/headers.go). */
module CacheKey {

  /** What the key is built from; the two headers after TrimSpace, the hash "" without a body. */
  datatype Parts = Parts(verb: string, scheme: string, host: string, path: string, query: string,
                         accept: string, acceptEncoding: string, bodyHash: string)

  function SingleJoiningSlash(a: string, b: string): string {
    var aslash := a != "" && a[|a| - 1] == '/';
    var bslash := b != "" && b[0] == '/';
    if aslash && bslash then a + b[1..]
    else if !aslash && !bslash then a + "/" + b
    else a + b
  }

  /** Two paths are joined by one slash, whether neither, one or both of them bring it. */
  lemma JoinsWithOneSlash(a: string, b: string)
    ensures SingleJoiningSlash(a + "/", "/" + b) == a + "/" + b
    ensures !("/" <= b) ==> SingleJoiningSlash(a + "/", b) == a + "/" + b
    ensures a == "" || a[|a| - 1] != '/' ==> SingleJoiningSlash(a, "/" + b) == a + "/" + b
    ensures (a == "" || a[|a| - 1] != '/') && !("/" <= b) ==> SingleJoiningSlash(a, b) == a + "/" + b
  {
    assert (a + "/")[|a|] == '/' && ("/" + b)[0] == '/' && ("/" + b)[1..] == b;
    assert b != "" && b[0] == '/' ==> "/" <= b;
    assert a + ("/" + b) == a + "/" + b;
  }

  function BuildCacheKey(p: Parts): (key: string)
    ensures key != ""
  {
    p.verb + " " + p.scheme + "://" + p.host + SingleJoiningSlash("", p.path)
    + (if p.query != "" then "?" + p.query else "") + "|a=" + p.accept + "|ae=" + p.acceptEncoding
  }

  /** The key ServeHTTP looks up. */
  function FullKey(p: Parts): (key: string)
    ensures key != ""
  {
    BuildCacheKey(p) + if p.bodyHash != "" then "|bh=" + p.bodyHash else ""
  }

  /** No part contains a character that ends it in the key. */
  predicate Separable(p: Parts) {
    && ' ' !in p.verb && ':' !in p.scheme && '/' !in p.host
    && p.path != "" && p.path[0] == '/' && '?' !in p.path && '|' !in p.path
    && '|' !in p.query && '|' !in p.accept && '|' !in p.acceptEncoding
  }

  /** rest is empty or starts with a delimiter. */
  predicate StartsWith(rest: string, delimiters: set<char>) {
    rest != "" ==> rest[0] in delimiters
  }

  lemma CutAtDelimiter(a: string, x: string, b: string, y: string, delimiters: set<char>)
    requires a + x == b + y
    requires StartsWith(x, delimiters) && StartsWith(y, delimiters)
    requires (forall c :: c in delimiters ==> c !in a && c !in b)
    ensures a == b && x == y
  {
    var s, s' := a + x, b + y;
    assert (forall i :: 0 <= i < |a| ==> s[i] == a[i]) && (forall i :: 0 <= i < |b| ==> s'[i] == b[i]);
    assert (x != "" ==> s[|a|] == x[0]) && (y != "" ==> s'[|b|] == y[0]);
    assert a == s[..|a|] && b == s'[..|b|] && x == s[|a|..] && y == s'[|b|..];
  }

  // What follows each part in the key.

  function AfterAcceptEncoding(p: Parts): string {
    if p.bodyHash != "" then "|bh=" + p.bodyHash else ""
  }

  function AfterAccept(p: Parts): string {
    "|ae=" + (p.acceptEncoding + AfterAcceptEncoding(p))
  }

  function AfterQuery(p: Parts): string {
    "|a=" + (p.accept + AfterAccept(p))
  }

  function AfterPath(p: Parts): string {
    if p.query != "" then "?" + (p.query + AfterQuery(p)) else AfterQuery(p)
  }

  function AfterScheme(p: Parts): string {
    "://" + (p.host + (p.path + AfterPath(p)))
  }

  lemma Regroup(front: string, a: string, b: string, rest: string)
    ensures front + a + b + rest == front + (a + (b + rest))
  {
  }

  lemma KeyUnfolds(p: Parts)
    requires Separable(p)
    ensures FullKey(p) == p.verb + (" " + (p.scheme + AfterScheme(p)))
  {
    assert SingleJoiningSlash("", p.path) == p.path;
    var toScheme := p.verb + " " + p.scheme;
    var toPath := toScheme + "://" + p.host + p.path;
    var toQuery := toPath + if p.query != "" then "?" + p.query else "";
    Regroup(toQuery + "|a=" + p.accept, "|ae=", p.acceptEncoding, AfterAcceptEncoding(p));
    Regroup(toQuery, "|a=", p.accept, AfterAccept(p));
    assert FullKey(p) == toQuery + AfterQuery(p);
    if p.query != "" {
      assert toQuery == toPath + "?" + p.query;
      Regroup(toPath, "?", p.query, AfterQuery(p));
    }
    assert FullKey(p) == toPath + AfterPath(p);
    Regroup(toScheme, "://", p.host, p.path + AfterPath(p));
    assert toPath + AfterPath(p) == toScheme + "://" + p.host + (p.path + AfterPath(p));
    Regroup(p.verb, " ", p.scheme, AfterScheme(p));
  }

  lemma DropSame(lit: string, x: string, y: string)
    requires lit + x == lit + y
    ensures x == y
  {
    assert x == (lit + x)[|lit|..] && y == (lit + y)[|lit|..];
  }

  lemma TailsAgree(p: Parts, q: Parts)
    requires Separable(p) && Separable(q) && AfterQuery(p) == AfterQuery(q)
    ensures p.accept == q.accept && p.acceptEncoding == q.acceptEncoding && p.bodyHash == q.bodyHash
  {
    DropSame("|a=", p.accept + AfterAccept(p), q.accept + AfterAccept(q));
    CutAtDelimiter(p.accept, AfterAccept(p), q.accept, AfterAccept(q), {'|'});
    DropSame("|ae=", p.acceptEncoding + AfterAcceptEncoding(p), q.acceptEncoding + AfterAcceptEncoding(q));
    CutAtDelimiter(p.acceptEncoding, AfterAcceptEncoding(p), q.acceptEncoding, AfterAcceptEncoding(q), {'|'});
    if p.bodyHash != "" && q.bodyHash != "" {
      DropSame("|bh=", p.bodyHash, q.bodyHash);
    }
  }

  lemma QueriesAgree(p: Parts, q: Parts)
    requires Separable(p) && Separable(q) && AfterPath(p) == AfterPath(q)
    ensures p.query == q.query && AfterQuery(p) == AfterQuery(q)
  {
    assert AfterQuery(p)[0] == '|' && AfterQuery(q)[0] == '|';
    assert (p.query != "" ==> AfterPath(p)[0] == '?') && (q.query != "" ==> AfterPath(q)[0] == '?');
    if p.query != "" {
      DropSame("?", p.query + AfterQuery(p), q.query + AfterQuery(q));
      CutAtDelimiter(p.query, AfterQuery(p), q.query, AfterQuery(q), {'|'});
    }
  }

  /** Separable requests have the same key if and only if they agree in every part. */
  lemma KeyTellsRequestsApart(p: Parts, q: Parts)
    requires Separable(p) && Separable(q)
    ensures FullKey(p) == FullKey(q) <==> p == q
  {
    if FullKey(p) == FullKey(q) {
      KeyUnfolds(p);
      KeyUnfolds(q);
      CutAtDelimiter(p.verb, " " + (p.scheme + AfterScheme(p)), q.verb, " " + (q.scheme + AfterScheme(q)), {' '});
      DropSame(" ", p.scheme + AfterScheme(p), q.scheme + AfterScheme(q));
      CutAtDelimiter(p.scheme, AfterScheme(p), q.scheme, AfterScheme(q), {':'});
      DropSame("://", p.host + (p.path + AfterPath(p)), q.host + (q.path + AfterPath(q)));
      assert p.path + AfterPath(p) != "" && (p.path + AfterPath(p))[0] == '/';
      assert q.path + AfterPath(q) != "" && (q.path + AfterPath(q))[0] == '/';
      CutAtDelimiter(p.host, p.path + AfterPath(p), q.host, q.path + AfterPath(q), {'/'});
      assert AfterQuery(p)[0] == '|' && AfterQuery(q)[0] == '|';
      CutAtDelimiter(p.path, AfterPath(p), q.path, AfterPath(q), {'?', '|'});
      QueriesAgree(p, q);
      TailsAgree(p, q);
    }
  }

  // ----- Outside that domain -----

  predicate Collide(p: Parts, q: Parts) {
    p != q && FullKey(p) == FullKey(q)
  }

  /** A decoded '?' in the path reads as the start of a query. */
  lemma PathWithQuestionMarkCollides(p: Parts, before: string, after: string)
    requires p.path == before + "?" + after && p.query == "" && after != "" && before != "" && before[0] == '/'
    ensures Collide(p, p.(path := before, query := after))
  {
  }

  // Every other condition of Separable is needed as well: a part with the text in it that ends it
  // in the key makes its request collide with one in which that text does end it.

  lemma DelimiterInVerbCollides(p: Parts, x: string, y: string)
    requires p.verb == x + " " + y
    ensures Collide(p, p.(verb := x, scheme := y + " " + p.scheme))
  {
    assert x + " " + y + " " + p.scheme == x + " " + (y + " " + p.scheme);
  }

  lemma DelimiterInSchemeCollides(p: Parts, x: string, y: string)
    requires p.scheme == x + "://" + y
    ensures Collide(p, p.(scheme := x, host := y + "://" + p.host))
  {
    var front := p.verb + " ";
    assert front + (x + "://" + y) + "://" + p.host == front + x + "://" + (y + "://" + p.host);
  }

  lemma JoinedPath(path: string)
    ensures SingleJoiningSlash("", path) == if "/" <= path then path else "/" + path
  {
    assert "/" <= path <==> path != "" && path[0] == '/';
  }

  lemma SlashInHostCollides(p: Parts, x: string, y: string)
    requires p.host == x + "/" + y && "/" <= p.path
    ensures Collide(p, p.(host := x, path := "/" + y + p.path))
  {
    var front := p.verb + " " + p.scheme + "://";
    JoinedPath(p.path);
    JoinedPath("/" + y + p.path);
    assert front + (x + "/" + y) + p.path == front + x + ("/" + y + p.path);
  }

  lemma UnrootedPathCollides(p: Parts)
    requires !("/" <= p.path)
    ensures Collide(p, p.(path := "/" + p.path))
  {
    JoinedPath(p.path);
    JoinedPath("/" + p.path);
  }

  /** The key up to the path, and from Accept on. */
  function Front(p: Parts): string {
    p.verb + " " + p.scheme + "://" + p.host
  }

  lemma DelimiterInPathCollides(p: Parts, x: string, y: string)
    requires p.path == x + "|a=" + y && "/" <= x && p.query == ""
    ensures Collide(p, p.(path := x, accept := y + "|a=" + p.accept))
  {
    assert p.path[0] == x[0] == '/';
    Regroup(Front(p) + x, "|a=", y, "|a=" + p.accept);
    assert Front(p) + (x + "|a=" + y) + "" == Front(p) + x + "|a=" + y;
  }

  lemma DelimiterInQueryCollides(p: Parts, x: string, y: string)
    requires p.query == x + "|a=" + y && x != ""
    ensures Collide(p, p.(query := x, accept := y + "|a=" + p.accept))
  {
    var front := Front(p) + SingleJoiningSlash("", p.path);
    assert front + ("?" + (x + "|a=" + y)) + "|a=" + p.accept
        == front + ("?" + x) + "|a=" + (y + "|a=" + p.accept);
  }

  lemma DelimiterInAcceptCollides(p: Parts, x: string, y: string)
    requires p.accept == x + "|ae=" + y
    ensures Collide(p, p.(accept := x, acceptEncoding := y + "|ae=" + p.acceptEncoding))
  {
    var front := Front(p) + SingleJoiningSlash("", p.path) + (if p.query != "" then "?" + p.query else "") + "|a=";
    assert front + (x + "|ae=" + y) + "|ae=" + p.acceptEncoding
        == front + x + "|ae=" + (y + "|ae=" + p.acceptEncoding);
  }

  lemma DelimiterInAcceptEncodingCollides(p: Parts, x: string, y: string)
    requires p.acceptEncoding == x + "|bh=" + y && y != "" && p.bodyHash == ""
    ensures Collide(p, p.(acceptEncoding := x, bodyHash := y))
  {
    var front := Front(p) + SingleJoiningSlash("", p.path) + (if p.query != "" then "?" + p.query else "")
                 + "|a=" + p.accept + "|ae=";
    assert front + (x + "|bh=" + y) + "" == front + x + ("|bh=" + y);
  }
}
