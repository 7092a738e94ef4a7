/**
 * The BFF's single-page-app handler: asset paths go to the file server as they are,
 * every other path is rewritten to `/index.html`. Paths use `/` as separator, as on Unix.
 */
module StaticFiles {
  import opened Strings

  /** `p` without its trailing slashes. */
  function StripTrailingSlashes(p: string): (r: string)
    ensures |r| <= |p| && r == p[..|r|]
    ensures r != "" ==> r[|r| - 1] != '/'
    ensures forall i :: |r| <= i < |p| ==> p[i] == '/'
  {
    if p != "" && p[|p| - 1] == '/' then StripTrailingSlashes(p[..|p| - 1]) else p
  }

  /** The text after the last `/` of `p`, or all of `p` when it has none. */
  function AfterLastSlash(p: string): (r: string)
    ensures |r| <= |p| && r == p[|p| - |r|..]
    ensures !ContainsChar(r, '/')
    ensures |r| < |p| ==> p[|p| - |r| - 1] == '/'
  {
    if p == "" then ""
    else if p[|p| - 1] == '/' then ""
    else
      var r := AfterLastSlash(p[..|p| - 1]);
      assert p[..|p| - 1][|p| - 1 - |r|..] == p[|p| - 1 - |r|..|p| - 1];
      r + [p[|p| - 1]]
  }

  /** `filepath.Base`: `.` for the empty path, `/` for a path of slashes, else the last element. */
  function GoBase(p: string): (b: string)
    ensures p == "" ==> b == "."
    ensures b != ""
  {
    if p == "" then "."
    else
      var t := StripTrailingSlashes(p);
      if t == "" then "/"
      else
        var last := AfterLastSlash(t);
        if last == "" then "/" else last
  }

  /** `hasExtension`: the last path element contains a dot. */
  predicate HasExtension(p: string) {
    ContainsChar(GoBase(p), '.')
  }

  /** For a path that does not end in a slash, the extension test looks only at the text after the last `/`. */
  lemma HasExtensionOfLastElement(p: string)
    requires p != "" && p[|p| - 1] != '/'
    ensures HasExtension(p) <==> ContainsChar(AfterLastSlash(p), '.')
  {
  }

  /** Trailing slashes do not change the answer. */
  lemma HasExtensionIgnoresTrailingSlash(p: string)
    requires p != ""
    ensures HasExtension(p + "/") == HasExtension(p)
  {
    assert StripTrailingSlashes(p + "/") == StripTrailingSlashes(p) by {
      assert (p + "/")[..|p + "/"| - 1] == p;
    }
    assert GoBase(p + "/") == GoBase(p);
  }

  const IndexPath := "/index.html"
  const AssetsPrefix := "/assets/"

  /** The path the file server is handed for a request path. */
  function SpaPath(p: string): (r: string)
    ensures r == p || r == IndexPath
    ensures StartsWith(p, AssetsPrefix) || HasExtension(p) ==> r == p
    ensures p != "/" && !StartsWith(p, AssetsPrefix) && !HasExtension(p) ==> r == IndexPath
  {
    var local := if p == "/" then IndexPath else p;
    if StartsWith(local, AssetsPrefix) || HasExtension(local) then p else IndexPath
  }

  /** The last element of a path that ends in one. */
  lemma {:induction false} AfterLastSlashOfElement(dir: string, w: string)
    requires !ContainsChar(w, '/')
    ensures AfterLastSlash(dir + "/" + w) == w
    decreases |w|
  {
    var p := dir + "/" + w;
    if w != [] {
      var w' := w[..|w| - 1];
      assert p[..|p| - 1] == dir + "/" + w';
      assert !ContainsChar(w', '/') by {
        forall i | 0 <= i < |w'| ensures w'[i] != '/' {
          assert w'[i] == w[i];
        }
      }
      AfterLastSlashOfElement(dir, w');
      assert p[|p| - 1] == w[|w| - 1];
      assert w' + [w[|w| - 1]] == w;
    }
  }

  /** `filepath.Base` of a path `dir/w` whose last element `w` is not empty is `w`. */
  lemma GoBaseOfElement(dir: string, w: string)
    requires w != "" && !ContainsChar(w, '/')
    ensures GoBase(dir + "/" + w) == w
  {
    var p := dir + "/" + w;
    assert p[|p| - 1] == w[|w| - 1];
    AfterLastSlashOfElement(dir, w);
  }

  /** The root is forwarded as `/`, not as `/index.html`: only the handler's local copy is replaced. */
  lemma RootForwardedUnchanged()
    ensures SpaPath("/") == "/"
    ensures SpaPath(IndexPath) == IndexPath
  {
    IndexPathHasExtension();
  }

  lemma IndexPathHasExtension()
    ensures HasExtension(IndexPath)
  {
    var w := "index.html";
    assert !ContainsChar(w, '/');
    assert IndexPath == "" + "/" + w;
    GoBaseOfElement("", w);
    assert w[5] == '.';
  }

  /** The request handed to the file server; `path` is `r.URL.Path`. */
  class Request {
    var path: string

    constructor (path: string)
      ensures this.path == path
    {
      this.path := path;
    }
  }

  /** `SPAHandler`: decide on a local copy of the path, and overwrite the request's path only for the fallback. */
  method ServeSpa(r: Request) returns (forwarded: string)
    modifies r
    ensures r.path == SpaPath(old(r.path))
    ensures forwarded == r.path
  {
    var path := r.path;
    if path == "/" {
      path := IndexPath;
    }
    if StartsWith(path, AssetsPrefix) || HasExtension(path) {
      return r.path;
    }
    r.path := IndexPath;
    return r.path;
  }

  // What `http.FileServer` does with the path it is handed, as far as it matters here:
  // a path ending in `/index.html` is answered with a redirect to `./`, which the
  // browser resolves against the URL it asked for (section 5.2 of RFC 3986).

  datatype FileResponse = ServeFile(path: string) | LocalRedirect(location: string)

  predicate EndsWith(s: string, suffix: string) {
    |suffix| <= |s| && s[|s| - |suffix|..] == suffix
  }

  function FileServerResponse(urlPath: string): FileResponse {
    if EndsWith(urlPath, IndexPath) then LocalRedirect("./") else ServeFile(urlPath)
  }

  /** The reference `./` resolved against a request path: everything up to and including its last `/`. */
  function ResolveDotSlash(p: string): (r: string)
    ensures |r| <= |p| && r == p[..|r|]
    ensures p != "" && p[|p| - 1] == '/' ==> r == p
  {
    p[..|p| - |AfterLastSlash(p)|]
  }

  /**
   * As written, a client-side route ending in `/` (other than `/` and `/assets/...`) is
   * rewritten to `/index.html`, answered with a redirect to `./`, and `./` resolves to
   * the very same route: the browser is redirected to where it already was.
   */
  lemma SpaFallbackRedirectsToItself(p: string)
    requires |p| >= 2 && p[|p| - 1] == '/'
    requires !StartsWith(p, AssetsPrefix) && !HasExtension(p)
    ensures FileServerResponse(SpaPath(p)) == LocalRedirect("./")
    ensures ResolveDotSlash(p) == p
  {
    assert IndexPath[|IndexPath| - |IndexPath|..] == IndexPath;
  }

  /** A concrete route: `/settings/` redirects to `/settings/`. */
  lemma SettingsRouteLoops()
    ensures var p := "/settings/";
      FileServerResponse(SpaPath(p)) == LocalRedirect("./") && ResolveDotSlash(p) == p
  {
    SettingsIsRoute();
    SpaFallbackRedirectsToItself("/settings/");
  }

  /** `/settings/` is neither an asset path nor a file name. */
  lemma SettingsIsRoute()
    ensures !HasExtension("/settings/") && !StartsWith("/settings/", AssetsPrefix)
  {
    var p, w := "/settings/", "settings";
    assert !ContainsChar(w, '/') && !ContainsChar(w, '.');
    assert p[..|p| - 1] == "" + "/" + w;
    GoBaseOfElement("", w);
    assert p[..|AssetsPrefix|][1] != AssetsPrefix[1];
  }

  /**
   * The fallback handing the file server `/` instead, which it answers with the
   * directory's `index.html` and no redirect. Asset paths are forwarded unchanged as before.
   */
  function SpaPathServingRoot(p: string): (r: string)
    ensures r == p || r == "/"
    ensures StartsWith(p, AssetsPrefix) || HasExtension(p) ==> r == p
  {
    var local := if p == "/" then IndexPath else p;
    if StartsWith(local, AssetsPrefix) || HasExtension(local) then p else "/"
  }

  /** With that fallback the file server redirects only requests that themselves end in `/index.html`. */
  lemma ServingRootNeverRedirectsFallback(p: string)
    ensures FileServerResponse(SpaPathServingRoot(p)).LocalRedirect? ==> EndsWith(p, IndexPath)
    ensures !StartsWith(p, AssetsPrefix) && !HasExtension(p) ==> FileServerResponse(SpaPathServingRoot(p)) == ServeFile("/")
  {
  }
}
