// The static file server (util/StaticFileHandler.java): root defaulting, the
// SPA fallback to a role dashboard, the content type chosen from the
// extension, and the 403/404/500 decisions. The file system is seen through
// paths relative to the frontend directory: whether one is a regular file, and
// its canonical path, which the traversal check compares with the directory's
// own canonical path by a plain string-prefix test. A read failure is a
// parameter; the bytes served and the CORS headers are not modelled.
module StaticFileHandler {
  import opened Wrappers
  import opened JavaStrings

  datatype Response =
    | Serve(filePath: string, contentType: string)
    | Fail(status: int, message: string)

  /**
   * The file system, as seen from the frontend directory: which relative paths
   * are regular files, the canonical path each resolves to, and the canonical
   * path of the directory itself.
   */
  datatype Files = Files(isFile: string -> bool, canonical: string -> string, canonicalRoot: string)

  /**
   * The traversal check: the canonical path must start with the directory's
   * canonical path. It is a test on text, not on path components.
   */
  predicate PassesRootCheck(files: Files, filePath: string)
  {
    StartsWith(files.canonical(filePath), files.canonicalRoot)
  }

  const LoginPage: string := "/login.html"

  /** `/` and the empty path are served as the login page. */
  function DefaultPath(requestPath: string): (r: string)
    ensures requestPath == "/" || requestPath == [] ==> r == LoginPage
    ensures requestPath != "/" && requestPath != [] ==> r == requestPath
  {
    if requestPath == "/" || requestPath == [] then LoginPage else requestPath
  }

  /** One leading '/' is dropped before the path is resolved against the frontend directory. */
  function Relative(path: string): (r: string)
    ensures StartsWith(path, "/") ==> "/" + r == path
    ensures !StartsWith(path, "/") ==> r == path
  {
    if StartsWith(path, "/") then path[1..] else path
  }

  /** `handleSPARoute`: the dashboard for a role's virtual route, or null. */
  function SpaRoute(requestPath: string): Option<string>
  {
    if StartsWith(requestPath, "/management/") then Some(DashboardPath("management"))
    else if StartsWith(requestPath, "/customer/") then Some(DashboardPath("customer"))
    else if StartsWith(requestPath, "/driver/") then Some(DashboardPath("driver"))
    else if StartsWith(requestPath, "/admin/") then Some(DashboardPath("admin"))
    else None
  }

  /** "/<area>/<area>-dashboard.html", the page name followed by its extension. */
  function DashboardPath(area: string): string
  {
    "/" + area + "/" + area + "-dashboard" + ".html"
  }

  /** The extensions `getContentType` knows, in the order it tries them, with their types. */
  const ContentTypes: seq<(string, string)> := [
    (".html", "text/html; charset=UTF-8"), (".css", "text/css; charset=UTF-8"),
    (".js", "application/javascript; charset=UTF-8"), (".json", "application/json; charset=UTF-8"),
    (".png", "image/png"), (".jpg", "image/jpeg"), (".jpeg", "image/jpeg"), (".gif", "image/gif"),
    (".svg", "image/svg+xml"), (".ico", "image/x-icon"), (".woff", "font/woff"), (".woff2", "font/woff2"),
    (".ttf", "font/ttf")
  ]

  const OctetStream: string := "application/octet-stream"

  /** The type of the first entry whose extension ends `lower`, else octet-stream. */
  function TypeBySuffix(lower: string, table: seq<(string, string)>): (r: string)
    ensures (forall i :: 0 <= i < |table| ==> !EndsWith(lower, table[i].0)) ==> r == OctetStream
    ensures table != [] && EndsWith(lower, table[0].0) ==> r == table[0].1
  {
    if table == [] then OctetStream
    else if EndsWith(lower, table[0].0) then table[0].1
    else
      assert forall i :: 1 <= i < |table| ==> table[i] == table[1..][i - 1];
      TypeBySuffix(lower, table[1..])
  }

  /** `getContentType`: the extension is matched on the lower-cased path. */
  function ContentType(filePath: string): string
  {
    TypeBySuffix(ToLower(filePath), ContentTypes)
  }

  /** The response `handle` sends for a request path. */
  function Handle(requestPath: string, files: Files, readError: Option<string>): Response
  {
    var requested := DefaultPath(requestPath);
    var filePath := Relative(requested);
    if !PassesRootCheck(files, filePath) then Fail(403, "Forbidden")
    else if files.isFile(filePath) then
      if readError.Some? then Fail(500, "Internal server error: " + readError.value)
      else Serve(filePath, ContentType(filePath))
    else
      match SpaRoute(requested)
      case None => Fail(404, "File not found: " + requested)
      case Some(target) =>
        var dashboard := Relative(target);
        if !files.isFile(dashboard) then Fail(404, "File not found: " + requested)
        else if readError.Some? then Fail(500, "Internal server error: " + readError.value)
        else Serve(dashboard, ContentType(dashboard))
  }

  /** `handle`, reassigning the request path and the file path as the source does. */
  method HandleRequest(requestPath: string, files: Files, readError: Option<string>) returns (r: Response)
    ensures r == Handle(requestPath, files, readError)
  {
    var path := requestPath;
    if path == "/" || path == [] {
      path := LoginPage;
    }
    var filePath := if StartsWith(path, "/") then path[1..] else path;
    if !StartsWith(files.canonical(filePath), files.canonicalRoot) {
      return Fail(403, "Forbidden");
    }
    if !files.isFile(filePath) {
      var spaRedirect := SpaRoute(path);
      if spaRedirect.Some? {
        filePath := if StartsWith(spaRedirect.value, "/") then spaRedirect.value[1..] else spaRedirect.value;
        if !files.isFile(filePath) {
          return Fail(404, "File not found: " + path);
        }
      } else {
        return Fail(404, "File not found: " + path);
      }
    }
    if readError.Some? {
      return Fail(500, "Internal server error: " + readError.value);
    }
    return Serve(filePath, ContentType(filePath));
  }

  // ---------------------------------------------------------------------------
  // Properties

  /** The site root is the login page. */
  lemma RootServesLogin(files: Files, requestPath: string)
    requires requestPath == "/" || requestPath == []
    requires PassesRootCheck(files, "login.html") && files.isFile("login.html")
    ensures Handle(requestPath, files, None) == Serve("login.html", "text/html; charset=UTF-8")
  {
    var page := "login.html";
    assert DefaultPath(requestPath) == "/" + page;
    assert Relative("/" + page) == page by {
      assert ("/" + page)[..1] == "/";
      assert ("/" + page)[1..] == page;
    }
    assert EndsWith(page, ".html") by {
      assert page[5..] == ".html";
    }
    HtmlIsHtml(page);
  }

  /** Each role prefix maps to its dashboard; anything else has no SPA route. */
  lemma SpaRouteByPrefix(requestPath: string)
    ensures SpaRoute(requestPath).Some? <==>
              StartsWith(requestPath, "/management/") || StartsWith(requestPath, "/customer/")
              || StartsWith(requestPath, "/driver/") || StartsWith(requestPath, "/admin/")
    ensures StartsWith(requestPath, "/admin/") ==> SpaRoute(requestPath) == Some(DashboardPath("admin"))
    ensures StartsWith(requestPath, "/driver/") ==> SpaRoute(requestPath) == Some(DashboardPath("driver"))
    ensures StartsWith(requestPath, "/customer/") ==> SpaRoute(requestPath) == Some(DashboardPath("customer"))
    ensures StartsWith(requestPath, "/management/") ==> SpaRoute(requestPath) == Some(DashboardPath("management"))
  {
    if StartsWith(requestPath, "/admin/") {
      assert !StartsWith(requestPath, "/management/") && !StartsWith(requestPath, "/customer/") && !StartsWith(requestPath, "/driver/") by {
        assert requestPath[1] == 'a';
      }
    }
    if StartsWith(requestPath, "/driver/") {
      assert !StartsWith(requestPath, "/management/") && !StartsWith(requestPath, "/customer/") by {
        assert requestPath[1] == 'd';
      }
    }
    if StartsWith(requestPath, "/customer/") {
      assert !StartsWith(requestPath, "/management/") by {
        assert requestPath[1] == 'c';
      }
    }
  }

  /**
   * A path that is not a file inside the directory is answered 404 exactly
   * when it has no SPA route or its dashboard is missing; otherwise the
   * dashboard is served as HTML.
   */
  lemma MissingFileFallsBack(requestPath: string, files: Files)
    requires requestPath != "/" && requestPath != []
    requires PassesRootCheck(files, Relative(requestPath)) && !files.isFile(Relative(requestPath))
    ensures var r := Handle(requestPath, files, None);
      (r.Fail? <==> SpaRoute(requestPath).None? || !files.isFile(Relative(SpaRoute(requestPath).value)))
      && (r.Fail? ==> r == Fail(404, "File not found: " + requestPath))
      && (r.Serve? ==> r.filePath == Relative(SpaRoute(requestPath).value) && r.contentType == "text/html; charset=UTF-8")
  {
    match SpaRoute(requestPath)
    case None =>
    case Some(target) =>
      LowerOfDashboard(requestPath);
  }

  lemma LowerOfDashboard(requestPath: string)
    requires SpaRoute(requestPath).Some?
    ensures ContentType(Relative(SpaRoute(requestPath).value)) == "text/html; charset=UTF-8"
  {
    var area := if StartsWith(requestPath, "/management/") then "management"
                else if StartsWith(requestPath, "/customer/") then "customer"
                else if StartsWith(requestPath, "/driver/") then "driver"
                else "admin";
    assert SpaRoute(requestPath).value == DashboardPath(area);
    DashboardIsHtml(area);
  }

  lemma DashboardIsHtml(area: string)
    ensures ContentType(Relative(DashboardPath(area))) == "text/html; charset=UTF-8"
  {
    var stem := area + "/" + area + "-dashboard";
    var page := DashboardPath(area);
    assert page == "/" + stem + ".html";
    assert page[..1] == "/" && page[1..] == stem + ".html";
    assert Relative(page) == stem + ".html";
    assert (stem + ".html")[|stem|..] == ".html";
    HtmlIsHtml(stem + ".html");
  }

  /** A path ending in ".html" is served as HTML. */
  lemma HtmlIsHtml(s: string)
    requires EndsWith(s, ".html")
    ensures ContentType(s) == "text/html; charset=UTF-8"
  {
    var suffix := ".html";
    var lower := ToLower(s);
    assert lower[|s| - 5..] == suffix by {
      forall i | 0 <= i < 5
        ensures lower[|s| - 5 + i] == suffix[i]
      {
        assert s[|s| - 5 + i] == suffix[i];
      }
    }
  }

  /** The content type ignores the case of the path, and unknown extensions fall back to octet-stream. */
  lemma ContentTypeIgnoresCase(filePath: string)
    ensures ContentType(ToLower(filePath)) == ContentType(filePath)
    ensures (forall i :: 0 <= i < |ContentTypes| ==> !EndsWith(ToLower(filePath), ContentTypes[i].0)) ==>
              ContentType(filePath) == OctetStream
  {
    LowerIdempotent(filePath);
  }

  /** The directory check comes first: a path escaping the directory is 403 even when the file exists. */
  lemma EscapingPathIsForbidden(requestPath: string, files: Files, readError: Option<string>)
    requires !PassesRootCheck(files, Relative(DefaultPath(requestPath)))
    ensures Handle(requestPath, files, readError) == Fail(403, "Forbidden")
  {
  }

  /**
   * The prefix test lets through a file in a sibling directory whose name
   * extends the frontend directory's: a request resolving to the root's
   * canonical path followed by "-old/secret.txt" (any continuation that does
   * not start a new path component) is served, not refused.
   */
  lemma SiblingDirectoryIsServed(requestPath: string, files: Files, rest: string)
    requires var filePath := Relative(DefaultPath(requestPath));
      files.canonical(filePath) == files.canonicalRoot + rest && files.isFile(filePath)
    requires rest != [] && rest[0] != '/'
    ensures var filePath := Relative(DefaultPath(requestPath));
      Handle(requestPath, files, None) == Serve(filePath, ContentType(filePath))
  {
    var filePath := Relative(DefaultPath(requestPath));
    assert (files.canonicalRoot + rest)[..|files.canonicalRoot|] == files.canonicalRoot;
  }
}
