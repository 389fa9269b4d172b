/** The current server, mockdown/__init__.py: the `mock` route of the
    blueprint, its directory index with the trailing-slash redirect, and
    `mockdown_url_for`. `pathExists` and `isDir` stand for the module-level
    Mockdown object's `exists` and `is_dir`, both relative to its root;
    `MockOnDisk` puts the disk lookups in their place. */
module Blueprint {
  import opened Data
  import opened Paths
  import Mockdown
  import Resolver

  datatype Outcome =
    | NotFound
    | Index(path: string)          // the directory listing of `path`
    | Redirect(location: string)
    | RenderHtml(path: string)     // `render_template(path)`
    | DumpYaml(path: string)       // `yaml.dump(read_yaml_file(path))`

  /** A Flask `url_for` call: an endpoint and its values. */
  datatype Url = Url(endpoint: string, values: map<string, string>)

  /** `mock_index(path)`: a non-empty path without a trailing slash is
      redirected to its slash-terminated form. */
  function MockIndex(path: string): (o: Outcome)
    ensures o.Index? || o.Redirect?
    ensures o.Redirect? <==> path != "" && !EndsWith(path, "/")
    ensures o.Redirect? ==> o.location == "/" + path + "/"
    ensures o.Index? ==> o.path == path
  {
    if path != "" && !EndsWith(path, "/") then Redirect("/" + path + "/") else Index(path)
  }

  /** `mock(path)`: missing, then directory, then ".html", then ".yml",
      otherwise 404. */
  function Mock(pathExists: string -> bool, isDir: string -> bool, path: string): (o: Outcome)
    ensures o.NotFound? <==> !pathExists(path) || (!isDir(path) && !EndsWith(path, ".html") && !EndsWith(path, ".yml"))
    ensures o.Index? || o.Redirect? <==> pathExists(path) && isDir(path)
    ensures o.Index? || o.Redirect? ==> o == MockIndex(path)
    ensures o.RenderHtml? <==> pathExists(path) && !isDir(path) && EndsWith(path, ".html")
    ensures o.DumpYaml? <==> pathExists(path) && !isDir(path) && EndsWith(path, ".yml")
    ensures o.RenderHtml? ==> o.path == path
    ensures o.DumpYaml? ==> o.path == path
  {
    HtmlIsNotYml(path);
    if !pathExists(path) then NotFound
    else if isDir(path) then MockIndex(path)
    else if EndsWith(path, ".html") then RenderHtml(path)
    else if EndsWith(path, ".yml") then DumpYaml(path)
    else NotFound
  }

  /** `mock(path)` with the module-level Mockdown object's `exists` and
      `is_dir` over a disk: what the disk holds at `Path(root, path)`
      decides the outcome. */
  lemma MockOnDisk(disk: Disk, root: string, path: string)
    ensures var o := Mock(p => Resolver.Exists(disk, root, p), p => Resolver.IsDir(disk, root, p), path);
      (Join(root, path) !in disk ==> o == NotFound) &&
      (Join(root, path) in disk && disk[Join(root, path)].Directory? ==> o == MockIndex(path)) &&
      (Join(root, path) in disk && disk[Join(root, path)].File? ==>
        (o == RenderHtml(path) <==> EndsWith(path, ".html")) &&
        (o == DumpYaml(path) <==> EndsWith(path, ".yml")) &&
        (o == NotFound <==> !EndsWith(path, ".html") && !EndsWith(path, ".yml")))
  {
    HtmlIsNotYml(path);
  }

  /** No path ends with both ".html" and ".yml". */
  lemma HtmlIsNotYml(path: string)
    ensures !(EndsWith(path, ".html") && EndsWith(path, ".yml"))
  {
    if |path| >= 5 {
      var tail := path[|path| - 3..];
      assert EndsWith(path, ".html") ==> tail == "tml" by {
        if EndsWith(path, ".html") { assert tail == path[|path| - 5..][2..]; }
      }
      assert EndsWith(path, ".yml") ==> tail == "yml" by {
        if EndsWith(path, ".yml") { assert tail == path[|path| - 4..][1..]; }
      }
    }
  }

  /** Following a redirect lands on the index itself: no second redirect. */
  lemma RedirectSettles(path: string)
    requires MockIndex(path).Redirect?
    ensures var target := MockIndex(path).location[1..];
      target == path + "/" && MockIndex(target) == Index(target)
  {
    var target := MockIndex(path).location[1..];
    assert target == path + "/";
    EndsWithAppend(path, "/");
  }

  /** `mockdown_url_for(endpoint, **kwargs)`: static files keep their
      values; every other endpoint names the page `endpoint + ".html"`. */
  function UrlFor(endpoint: string, values: map<string, string>): (u: Url)
    ensures endpoint == "static" ==> u == Url("static", values)
    ensures endpoint != "static" ==> u.endpoint == ".mock" && u.values.Keys == {"path"}
    ensures endpoint != "static" ==> u.values["path"] == endpoint + ".html"
    ensures endpoint != "static" ==> EndsWith(u.values["path"], ".html")
  {
    EndsWithAppend(endpoint, ".html");
    if endpoint == "static" then Url("static", values) else Url(".mock", map["path" := endpoint + ".html"])
  }

  /** A link made by `url_for` for a page that exists is served by
      rendering that page. */
  lemma UrlForReachesPage(pathExists: string -> bool, isDir: string -> bool, endpoint: string, values: map<string, string>)
    requires endpoint != "static"
    requires pathExists(endpoint + ".html") && !isDir(endpoint + ".html")
    ensures Mock(pathExists, isDir, UrlFor(endpoint, values).values["path"]) == RenderHtml(endpoint + ".html")
  {
    EndsWithAppend(endpoint, ".html");
  }

  /** `_mockdown.template_globals['url_for'] = mockdown_url_for`, done once
      when the module is imported. */
  method InstallUrlFor(m: Mockdown.Mockdown)
    modifies m`templateGlobals
    ensures m.templateGlobals == old(m.templateGlobals)["url_for" := Callable("url_for")]
  {
    m.templateGlobals := m.templateGlobals["url_for" := Callable("url_for")];
  }
}
