/** The older server, mocker/__init__.py: routing a request path to a
    directory index, a rendered page or 404, and finding a page's data file
    by swapping its extension. Paths are relative to the working directory;
    `pathExists` and `isDir` stand for `os.path.exists` and `os.path.isdir`. */
module Mocker {
  import opened Data
  import opened Paths

  datatype Outcome =
    | NotFound
    | Index(dirname: string, parent: string)   // index.html with path=dirname, parent=parent
    | RenderHtml(path: string)

  /** `path or "."`. */
  function OrDot(path: string): string {
    if path == "" then "." else path
  }

  /** `mock_index(path)`: the prefix the listing globs under, and the parent link. */
  function MockIndex(path: string): (o: Outcome)
    ensures o.Index?
    ensures o.dirname == "" <==> path == "" || path == "."
    ensures o.dirname != "" ==> o.dirname == path + "/"
    ensures o.parent == Dirname(path)
  {
    var dirname := if path == "." || path == "" then "" else path + "/";
    Index(dirname, Dirname(path))
  }

  /** `mock(path)`. */
  function Mock(pathExists: string -> bool, isDir: string -> bool, path: string): (o: Outcome)
    ensures o.NotFound? <==> !pathExists(OrDot(path)) || (!isDir(OrDot(path)) && !EndsWith(path, ".html"))
    ensures o.Index? <==> pathExists(OrDot(path)) && isDir(OrDot(path))
    ensures o.Index? ==> o == MockIndex(path)
    ensures o.RenderHtml? ==> o.path == path && EndsWith(path, ".html")
  {
    if !pathExists(OrDot(path)) then NotFound
    else if isDir(OrDot(path)) then MockIndex(path)
    else if EndsWith(path, ".html") then RenderHtml(path)
    else NotFound
  }

  /** A sub-directory listed on an index page (`os.path.normpath` of a glob
      match under `dirname`) links back to that index as its parent. */
  lemma {:induction false} ChildIndexLinksBack(path: string, child: string)
    requires path == "" || path == "." || (path[|path| - 1] != '/')
    requires child != "" && '/' !in child
    ensures var listed := MockIndex(path).dirname + child;
      MockIndex(listed).parent == if MockIndex(path).dirname == "" then "" else path
  {
    var dirname := MockIndex(path).dirname;
    if dirname == "" {
      DirnameOfBareName(child);
    } else {
      DirnameOfChild(path, child);
    }
  }

  /** `replace_ext(path, new_ext)`: the extension `os.path.splitext` finds,
      replaced by `ext`. */
  function ReplaceExt(path: string, ext: string): (r: string)
    ensures EndsWith(r, ext)
    ensures SplitExt(path).1 == "" ==> r == path + ext
  {
    EndsWithAppend(SplitExt(path).0, ext);
    SplitExt(path).0 + ext
  }

  /** The result keeps everything before the old extension: the
      path is its stem, then its old extension, and the stem is shared. */
  lemma {:induction false} ReplaceExtKeepsRoot(path: string, ext: string)
    ensures var root := SplitExt(path).0;
      path == root + SplitExt(path).1 && ReplaceExt(path, ext) == root + ext
      && (SplitExt(path).1 == "" || (SplitExt(path).1[0] == '.' && '.' !in SplitExt(path).1[1..]))
  {
    SplitExtShape(path);
  }

  /** The root `os.path.splitext` leaves keeps a final component with a
      character other than a dot. */
  lemma SplitExtRootName(path: string)
    requires HasNonDot(Name(path))
    ensures HasNonDot(Name(SplitExt(path).0))
  {
    var root := SplitExt(path).0;
    if SplitExt(path).1 != "" {
      var sep := RFind(path, '/');
      var dot := RFind(path, '.');
      assert root == path[..dot];
      RFindPrefix(path, dot, '/');
      assert Name(root) == path[sep + 1..dot];
    }
  }

  /** Appending a simple extension adds no separator, and its dot is the
      last one. */
  lemma SimpleSuffixAppend(root: string, ext: string)
    requires SimpleSuffix(ext)
    ensures RFind(root + ext, '/') == RFind(root, '/')
    ensures RFind(root + ext, '.') == |root|
  {
    RFindAppendMiss(root, ext, '/');
    RFindUnique(ext, '.', 0);
    RFindAppendHit(root, ext, '.');
  }

  /** The final component of `root` is still there, just before the extension. */
  lemma NameBeforeSuffix(root: string, ext: string)
    ensures (root + ext)[NameStart(root)..|root|] == Name(root)
  {
    SliceBeforeAppend(root, ext, NameStart(root));
  }

  /** A simple extension appended to a path whose final component has a
      character other than a dot is exactly what `os.path.splitext` splits off. */
  lemma {:induction false} SplitExtAppend(root: string, ext: string)
    requires SimpleSuffix(ext)
    requires HasNonDot(Name(root))
    ensures SplitExt(root + ext) == (root, ext)
  {
    var q := root + ext;
    SimpleSuffixAppend(root, ext);
    NameBeforeSuffix(root, ext);
    assert q[..|root|] == root && q[|root|..] == ext;
  }

  /** `os.path.splitext` of the result finds exactly the new extension, so
      replacing again with the same extension changes nothing. */
  lemma SplitExtOfReplaceExt(path: string, ext: string)
    requires SimpleSuffix(ext)
    requires HasNonDot(Name(path))
    ensures SplitExt(ReplaceExt(path, ext)) == (SplitExt(path).0, ext)
    ensures ReplaceExt(ReplaceExt(path, ext), ext) == ReplaceExt(path, ext)
  {
    SplitExtRootName(path);
    SplitExtAppend(SplitExt(path).0, ext);
  }

  /** `read_arguments(html_path)`: the YAML beside the page, parsed with no
      rendering and no includes; `{}` when it does not exist. */
  function ReadArguments(disk: Disk, load: string -> Option<Value>, htmlPath: string): (r: Result<Value>)
    ensures ReplaceExt(htmlPath, ".yml") !in disk ==> r == Ok(Dict(map[]))
  {
    var yamlPath := ReplaceExt(htmlPath, ".yml");
    if yamlPath !in disk then Ok(Dict(map[]))
    else match disk[yamlPath]
      case Directory => Err(IsADirectory(yamlPath))
      case File(text) =>
        var v := load(text);
        if v.Some? then Ok(v.value) else Err(ParseFailed(yamlPath))
  }

  /** Only the `.yml` sibling matters: disks that agree on it give the same arguments. */
  lemma ReadArgumentsLooksOnlyAtSibling(d1: Disk, d2: Disk, load: string -> Option<Value>, htmlPath: string)
    requires var y := ReplaceExt(htmlPath, ".yml"); (y in d1 <==> y in d2) && (y in d1 ==> d1[y] == d2[y])
    ensures ReadArguments(d1, load, htmlPath) == ReadArguments(d2, load, htmlPath)
  {
  }
}
