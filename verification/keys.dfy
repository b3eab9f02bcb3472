/** Key derivation, the never-cache filter and origin directory names. */
module Keys {
  import opened Types

  /**
   * The cache key of a request: its method followed by its URL, and nothing
   * else of the request.
   */
  function SerializeRequest(request: Request): (key: string)
    ensures |key| == |request.httpMethod| + |request.url|
    ensures key[..|request.httpMethod|] == request.httpMethod && key[|request.httpMethod|..] == request.url
  {
    request.httpMethod + request.url
  }

  /**
   * A request method as the protocol reports it: an RFC 9110 token
   * (section 5.6.2), so it holds no `:`. Standard methods are upper-cased
   * by the browser; a custom method keeps the case it was sent with.
   */
  predicate IsMethodToken(m: string)
  {
    forall i :: 0 <= i < |m| ==> m[i] != ':'
  }

  /** A URL the interception pattern (any http or https URL) lets through. */
  predicate IsHttpUrl(u: string)
  {
    (|u| >= 7 && u[..7] == "http://") || (|u| >= 8 && u[..8] == "https://")
  }

  predicate WellFormed(request: Request)
  {
    IsMethodToken(request.httpMethod) && IsHttpUrl(request.url)
  }

  /** Headers, post data and URL fragment play no part in the key. */
  lemma KeyIgnoresHeadersAndBody(r1: Request, r2: Request)
    requires r1.httpMethod == r2.httpMethod && r1.url == r2.url
    ensures SerializeRequest(r1) == SerializeRequest(r2)
  {
  }

  /**
   * For intercepted requests the key determines the method and the URL:
   * two such requests share a key exactly when they share both.
   */
  lemma KeyDeterminesRequestLine(r1: Request, r2: Request)
    requires WellFormed(r1) && WellFormed(r2)
    ensures SerializeRequest(r1) == SerializeRequest(r2)
            <==> (r1.httpMethod == r2.httpMethod && r1.url == r2.url)
  {
    var k1, k2 := SerializeRequest(r1), SerializeRequest(r2);
    if k1 == k2 {
      if |r1.httpMethod| < |r2.httpMethod| {
        KeySplitsAtUrl(r1, r2);
      } else if |r2.httpMethod| < |r1.httpMethod| {
        KeySplitsAtUrl(r2, r1);
      }
      var n := |r1.httpMethod|;
      assert r1.httpMethod == k1[..n] == k2[..n] == r2.httpMethod;
      assert r1.url == k1[n..] == k2[n..] == r2.url;
    }
  }

  /** An http or https URL starts `http:` or `https:`. */
  lemma HttpUrlStart(u: string)
    requires IsHttpUrl(u)
    ensures |u| >= 7 && u[0] == 'h' && u[1] == 't' && u[2] == 't' && u[3] == 'p'
    ensures u[4] == ':' || (u[4] == 's' && u[5] == ':')
  {
    if |u| >= 7 && u[..7] == "http://" {
      assert u[..7][4] == u[4];
    } else {
      assert u[..8][4] == u[4] && u[..8][5] == u[5];
    }
  }

  /**
   * A shorter method cannot absorb the start of the other request's URL:
   * the longer method would have to hold the `:` of the scheme, or the
   * remaining URL would not start with `h`.
   */
  lemma KeySplitsAtUrl(r1: Request, r2: Request)
    requires WellFormed(r1) && WellFormed(r2)
    requires |r1.httpMethod| < |r2.httpMethod|
    ensures SerializeRequest(r1) != SerializeRequest(r2)
  {
    var k1, k2 := SerializeRequest(r1), SerializeRequest(r2);
    var n1, n2 := |r1.httpMethod|, |r2.httpMethod|;
    var u1, u2 := r1.url, r2.url;
    HttpUrlStart(u1);
    HttpUrlStart(u2);
    var d := n2 - n1;
    if d <= 5 {
      assert k2[n2] == u2[0] && k1[n2] == u1[d];
    } else if u1[4] == ':' {
      assert k2[n1 + 4] == r2.httpMethod[n1 + 4] && k1[n1 + 4] == u1[4];
    } else {
      assert k2[n1 + 5] == r2.httpMethod[n1 + 5] && k1[n1 + 5] == u1[5];
    }
  }

  /** The contract assumed of URL-origin extraction: an http(s) URL's origin starts with "http". */
  ghost predicate OriginKeepsScheme(p: Primitives)
  {
    forall u :: IsHttpUrl(u) && p.origin(u).Some? ==>
      |p.origin(u).value| >= 4 && p.origin(u).value[..4] == "http"
  }

  /**
   * Origin entries and response entries share the cache index; for a
   * request whose method does not start with a lower-case `h` (every
   * standard method) a key never equals an origin, so the two kinds of
   * entries cannot overwrite each other.
   */
  lemma KeyIsNeverAnOrigin(p: Primitives, request: Request, url: string)
    requires OriginKeepsScheme(p)
    requires |request.httpMethod| > 0 && request.httpMethod[0] != 'h'
    requires IsHttpUrl(url) && p.origin(url).Some?
    ensures SerializeRequest(request) != p.origin(url).value
  {
    var o := p.origin(url).value;
    assert o[0] == o[..4][0] == 'h';
    assert SerializeRequest(request)[0] == request.httpMethod[0];
  }

  /** The origins never intercepted: the control server and the debuggee itself. */
  function NeverCache(cfg: Config): set<string>
  {
    {"http://localhost:" + cfg.serverPort, "http://localhost:" + cfg.chromePort}
  }

  /** `dontCache`: whether the request's origin is a never-cache origin; `Err` when the URL does not parse. */
  function DontCache(cfg: Config, request: Request): (r: Result<bool, Cause>)
    ensures r.Err? <==> cfg.prims.origin(request.url).None?
    ensures r.Ok? ==> (r.value <==> exists port :: port in {cfg.serverPort, cfg.chromePort}
                                                   && cfg.prims.origin(request.url).value == "http://localhost:" + port)
  {
    match cfg.prims.origin(request.url)
    case None => Err(InvalidUrl)
    case Some(origin) => Ok(origin in NeverCache(cfg))
  }

  /** No `://` occurs anywhere in `s`. */
  predicate FreeOfSchemeSep(s: string)
  {
    forall i :: 0 <= i < |s| - 2 ==> !(s[i] == ':' && s[i + 1] == '/' && s[i + 2] == '/')
  }

  /**
   * The replacement of the scheme separator by an underscore: every `://`, scanned left to right
   * without overlap, becomes `_`. The result holds no `://`, and a string
   * that holds none is returned unchanged.
   */
  function ReplaceSchemeSep(s: string): (r: string)
    ensures |r| <= |s|
    // the first character is kept or is the `_` of a replaced separator, so no `://` can
    // straddle it and the rest; the recursion needs this to keep the result free of `://`
    ensures |r| > 0 ==> |s| > 0 && (r[0] == s[0] || r[0] == '_')
    ensures FreeOfSchemeSep(r)
    ensures FreeOfSchemeSep(s) ==> r == s
    ensures !FreeOfSchemeSep(s) ==> |r| < |s|
    decreases |s|
  {
    if |s| >= 3 && s[..3] == "://" then
      assert s[0] == ':' && s[1] == '/' && s[2] == '/' by { assert s[..3][0] == s[0]; }
      "_" + ReplaceSchemeSep(s[3..])
    else if s == [] then
      []
    else
      var t := s[1..];
      var rest := ReplaceSchemeSep(t);
      assert !FreeOfSchemeSep(s) ==> !FreeOfSchemeSep(t) by {
        if !FreeOfSchemeSep(s) {
          var i :| 0 <= i < |s| - 2 && s[i] == ':' && s[i + 1] == '/' && s[i + 2] == '/';
          assert t[i - 1] == ':' && t[i] == '/' && t[i + 1] == '/';
        }
      }
      [s[0]] + rest
  }

  /** A character other than `:` is copied, and the rest of the string is replaced. */
  lemma ReplaceSchemeSepCons(c: char, t: string)
    requires c != ':'
    ensures ReplaceSchemeSep([c] + t) == [c] + ReplaceSchemeSep(t)
  {
    var s := [c] + t;
    assert !(|s| >= 3 && s[..3] == "://") by { if |s| >= 3 { assert s[..3][0] == c; } }
    assert s[1..] == t;
  }

  /** A leading `://` becomes `_`, and a rest free of separators is kept. */
  lemma ReplaceSchemeSepAtSep(host: string)
    requires FreeOfSchemeSep(host)
    ensures ReplaceSchemeSep("://" + host) == "_" + host
  {
    var s := "://" + host;
    assert s[..3] == "://" && s[3..] == host;
  }

  /** Concatenation is associative; stated once so that proofs about `ReplaceSchemeSep` need no extensionality. */
  lemma AppendAssoc(a: string, b: string, c: string)
    ensures a + b + c == a + (b + c)
  {
  }

  /** A prefix without `:` is copied unchanged in front of the replaced rest. */
  lemma {:induction false} ReplaceSchemeSepPrefix(prefix: string, t: string)
    requires forall i :: 0 <= i < |prefix| ==> prefix[i] != ':'
    ensures ReplaceSchemeSep(prefix + t) == prefix + ReplaceSchemeSep(t)
  {
    if prefix != [] {
      var c, rest := prefix[0], prefix[1..];
      assert prefix == [c] + rest;
      AppendAssoc([c], rest, t);
      ReplaceSchemeSepCons(c, rest + t);
      ReplaceSchemeSepPrefix(rest, t);
      AppendAssoc([c], rest, ReplaceSchemeSep(t));
    } else {
      assert prefix + t == t;
    }
  }

  /** An origin `scheme://host[:port]` names its directory `scheme_host[:port]`. */
  lemma ReplaceSchemeSepOfOrigin(scheme: string, host: string)
    requires forall i :: 0 <= i < |scheme| ==> scheme[i] != ':'
    requires FreeOfSchemeSep(host)
    ensures ReplaceSchemeSep(scheme + "://" + host) == scheme + "_" + host
  {
    ReplaceSchemeSepPrefix(scheme, "://" + host);
    ReplaceSchemeSepAtSep(host);
    AppendAssoc(scheme, "://", host);
    AppendAssoc(scheme, "_", host);
  }

  /** `path.resolve(dir, name)` for an absolute `dir` and a plain file name. */
  function Resolve(dir: string, name: string): string
  {
    dir + "/" + name
  }

  /** The directory an origin's responses are stored in. */
  function OriginDir(libraryPath: string, origin: string): (dir: string)
    ensures |dir| > |libraryPath|
    ensures dir[..|libraryPath| + 1] == libraryPath + "/"
    ensures FreeOfSchemeSep(dir[|libraryPath| + 1..])
  {
    var name := ReplaceSchemeSep(origin);
    assert (libraryPath + "/" + name)[|libraryPath| + 1..] == name;
    Resolve(libraryPath, name)
  }
}
