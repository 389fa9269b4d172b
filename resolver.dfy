/** What the operations of `Mockdown` (mockdown/mockdown.py) compute, as
    functions of the file system, the foreign libraries, the root and the
    template globals. The class in module Mockdown is proved to compute
    exactly these; the lemmas here state what the source promises of them.

    The include recursion has no cycle detection in the source; `fuel`
    bounds how deeply includes may nest, and running out of it is
    Python's RecursionError. */
module Resolver {
  import opened Data
  import opened Paths
  import opened Templates
  import opened Seeds

  /** The key that lists a document's includes; it is consumed, never returned. */
  const Reserved := "_includes"

  /** `Mockdown.exists(path)`: `pathlib.Path(root, path).exists()`. */
  predicate Exists(disk: Disk, root: string, path: string) {
    Join(root, path) in disk
  }

  /** `Mockdown.is_dir(path)`. */
  predicate IsDir(disk: Disk, root: string, path: string) {
    Join(root, path) in disk && disk[Join(root, path)].Directory?
  }

  /** The keyword arguments `_render_template` hands to the template:
      the caller's, then the template globals on top, then `fake` on top of both. */
  function RenderContext(kwargs: Context, globals: Context, seed: nat): (ctx: Context)
    ensures ctx.Keys == kwargs.Keys + globals.Keys + {"fake"}
    ensures ctx["fake"] == Fake(seed)
    ensures forall k :: k in globals && k != "fake" ==> ctx[k] == globals[k]
    ensures forall k :: k in kwargs && k !in globals && k != "fake" ==> ctx[k] == kwargs[k]
  {
    var args := kwargs + globals;
    args["fake" := Fake(seed)]
  }

  /** Jinja2's `FileSystemLoader(searchPath)` looking up a template by name:
      the file `TemplateFile` names under the search path, which must be a
      file. */
  function LoadTemplate(disk: Disk, searchPath: string, name: string): (r: Result<string>)
    ensures r.Ok? <==>
      (TemplateFile(searchPath, name).Some? && TemplateFile(searchPath, name).value in disk
       && disk[TemplateFile(searchPath, name).value].File?)
    ensures r.Ok? ==> r.value == disk[TemplateFile(searchPath, name).value].text
    ensures r.Err? ==> r.error == TemplateNotFound(name)
  {
    var file := TemplateFile(searchPath, name);
    if file.Some? && file.value in disk && disk[file.value].File? then Ok(disk[file.value].text)
    else Err(TemplateNotFound(name))
  }

  /** `_render_template(path, **kwargs)`: the template at `path` rendered
      with `RenderContext`, its `fake` seeded from `path`. */
  function Rendered(w: World, root: string, globals: Context, path: string, kwargs: Context): Result<string> {
    match LoadTemplate(w.disk, root, path)
    case Err(e) => Err(e)
    case Ok(text) =>
      var out := w.lib.render(text, RenderContext(kwargs, globals, GenerateSeed(w.lib, path)));
      if out.Some? then Ok(out.value) else Err(RenderFailed(path))
  }

  /** The keyword arguments `read_yaml_file` passes to `_render_template`. */
  function YamlKwargs(lib: Lib, path: string): Context {
    map["fake" := GetFake(lib, path), "include" := Include]
  }

  /** A data file rendered as a template and parsed as YAML. */
  function Loaded(w: World, root: string, globals: Context, path: string): Result<Value> {
    match Rendered(w, root, globals, path, YamlKwargs(w.lib, path))
    case Err(e) => Err(e)
    case Ok(text) =>
      var data := w.lib.load(text);
      if data.Some? then Ok(data.value) else Err(ParseFailed(path))
  }

  /** `read_yaml_file(path)`. */
  function YamlData(w: World, root: string, globals: Context, path: string, fuel: nat): (r: Result<map<string, Value>>)
    ensures !Exists(w.disk, root, path) ==> r == Ok(map[])
    ensures r.Ok? ==> Reserved !in r.value
    decreases fuel, 4
  {
    if !Exists(w.disk, root, path) then Ok(map[])
    else
      match Loaded(w, root, globals, path)
      case Err(e) => Err(e)
      case Ok(doc) =>
        if doc.Dict? then Resolved(w, root, globals, doc.entries, fuel) else Err(NotAMapping(path))
  }

  /** `data.pop("_includes", [])`. */
  function IncludesOf(data: map<string, Value>): Value {
    if Reserved in data then data[Reserved] else List([])
  }

  /** What `for path in includes` visits: the items of a list, the
      one-character strings of a string; anything else cannot be iterated
      here (see README for mappings). */
  function Entries(v: Value): (items: Option<seq<Value>>)
    ensures v.List? ==> items == Some(v.items)
    ensures v.Str? ==> items.Some? && |items.value| == |v.s|
    ensures v.Str? ==> forall k :: 0 <= k < |v.s| ==> items.value[k] == Str([v.s[k]])
    ensures !v.List? && !v.Str? ==> items == None
  {
    match v
    case List(items) => Some(items)
    case Str(s) => Some(seq(|s|, k requires 0 <= k < |s| => Str([s[k]])))
    case _ => None
  }

  /** `_resolve_includes(data)`. */
  function Resolved(w: World, root: string, globals: Context, data: map<string, Value>, fuel: nat): (r: Result<map<string, Value>>)
    ensures r.Ok? ==> Reserved !in r.value
    ensures r.Ok? ==> forall k :: k in data && k != Reserved ==> k in r.value && r.value[k] == data[k]
    decreases fuel, 3
  {
    match Entries(IncludesOf(data))
    case None => Err(IncludesNotIterable)
    case Some(items) =>
      match Merged(w, root, globals, items, fuel)
      case Err(e) => Err(e)
      case Ok(acc) => Ok(acc + (data - {Reserved}))
  }

  /** The merge of `_resolve_includes`, each entry read one level deeper;
      it never holds `_includes`. */
  function Merged(w: World, root: string, globals: Context, items: seq<Value>, fuel: nat): (r: Result<map<string, Value>>)
    ensures r.Ok? ==> Reserved !in r.value
    decreases fuel, 2
  {
    MergeAvoids(ReaderAt(w, root, globals, fuel), items, Reserved);
    Merge(ReaderAt(w, root, globals, fuel), items)
  }

  /** How `_resolve_includes` reads each of its entries. */
  function ReaderAt(w: World, root: string, globals: Context, fuel: nat): (read: IncludeReader)
    ensures forall item :: read(item) == Included(w, root, globals, item, fuel)
    decreases fuel, 1
  {
    item => Included(w, root, globals, item, fuel)
  }

  /** `read_yaml_file(path)` for one include entry, one level deeper. */
  function Included(w: World, root: string, globals: Context, item: Value, fuel: nat): (r: Result<map<string, Value>>)
    ensures r.Ok? ==> Reserved !in r.value
    decreases fuel, 0
  {
    if fuel == 0 then Err(RecursionLimit)
    else if !item.Str? then Err(BadIncludeEntry)
    else YamlData(w, root, globals, item.s, fuel - 1)
  }

  // ---------------------------------------------------------------------
  // The merge loop of `_resolve_includes`, whatever reads the entries

  /** How one entry of `_includes` is read: a mapping, or the error that
      ends the loop. */
  type IncludeReader = Value -> Result<map<string, Value>>

  /** The accumulator of the `_resolve_includes` loop after the given
      entries: each read in order and merged on top of the ones before with
      `dict.update`; the first entry that fails ends the loop with its error. */
  function Merge(read: IncludeReader, items: seq<Value>): Result<map<string, Value>>
    decreases |items|
  {
    if items == [] then Ok(map[])
    else
      match Merge(read, items[..|items| - 1])
      case Err(e) => Err(e)
      case Ok(acc) =>
        match read(items[|items| - 1])
        case Err(e) => Err(e)
        case Ok(d) => Ok(acc + d)
  }

  /** A key no entry's mapping has is not merged. */
  lemma {:induction false} MergeAvoids(read: IncludeReader, items: seq<Value>, key: string)
    requires forall item :: read(item).Ok? ==> key !in read(item).value
    ensures Merge(read, items).Ok? ==> key !in Merge(read, items).value
    decreases |items|
  {
    if items != [] {
      MergeAvoids(read, items[..|items| - 1], key);
    }
  }

  /** The merge succeeds exactly when every entry is read. */
  lemma {:induction false} MergeOk(read: IncludeReader, items: seq<Value>)
    ensures Merge(read, items).Ok? <==> forall l :: 0 <= l < |items| ==> read(items[l]).Ok?
    decreases |items|
  {
    if items != [] {
      var init := items[..|items| - 1];
      MergeOk(read, init);
      assert forall l :: 0 <= l < |init| ==> init[l] == items[l];
    }
  }

  /** Entries are read in order: the first one that fails decides the error. */
  lemma {:induction false} MergeFirstFailure(read: IncludeReader, items: seq<Value>, j: nat)
    requires j < |items|
    requires forall l :: 0 <= l < j ==> read(items[l]).Ok?
    requires read(items[j]).Err?
    ensures Merge(read, items) == Err(read(items[j]).error)
    decreases |items|
  {
    var init := items[..|items| - 1];
    if j == |items| - 1 {
      MergeOk(read, init);
    } else {
      MergeFirstFailure(read, init, j);
    }
  }

  /** Some entry among `items` is read and its mapping has the key `k`. */
  predicate SomeEntryHas(read: IncludeReader, items: seq<Value>, k: string) {
    exists l :: 0 <= l < |items| && read(items[l]).Ok? && k in read(items[l]).value
  }

  /** Every merged key comes from some entry. */
  lemma {:induction false} MergedKeysFromEntries(read: IncludeReader, items: seq<Value>, k: string)
    requires Merge(read, items).Ok?
    requires k in Merge(read, items).value
    ensures SomeEntryHas(read, items, k)
    decreases |items|
  {
    var n := |items| - 1;
    var init := items[..n];
    if !(read(items[n]).Ok? && k in read(items[n]).value) {
      MergedKeysFromEntries(read, init, k);
      var l :| 0 <= l < |init| && read(init[l]).Ok? && k in read(init[l]).value;
      assert items[l] == init[l];
    }
  }

  /** Every key of every entry is merged. */
  lemma {:induction false} EntryKeysMerged(read: IncludeReader, items: seq<Value>, k: string, l: nat)
    requires Merge(read, items).Ok?
    requires l < |items| && read(items[l]).Ok? && k in read(items[l]).value
    ensures k in Merge(read, items).value
    decreases |items|
  {
    var n := |items| - 1;
    var init := items[..n];
    if l < n {
      assert init[l] == items[l];
      EntryKeysMerged(read, init, k, l);
    }
  }

  /** The merged keys are exactly the keys of the entries. */
  lemma MergeKeys(read: IncludeReader, items: seq<Value>, k: string)
    requires Merge(read, items).Ok?
    ensures k in Merge(read, items).value <==> SomeEntryHas(read, items, k)
  {
    if k in Merge(read, items).value {
      MergedKeysFromEntries(read, items, k);
    }
    if SomeEntryHas(read, items, k) {
      var l :| 0 <= l < |items| && read(items[l]).Ok? && k in read(items[l]).value;
      EntryKeysMerged(read, items, k, l);
    }
  }

  /** On a key collision between entries the later one wins: the merged
      value of `k` is that of the last entry that has `k`. */
  lemma {:induction false} LaterIncludeWins(read: IncludeReader, items: seq<Value>, j: nat, k: string)
    requires Merge(read, items).Ok?
    requires j < |items|
    requires read(items[j]).Ok? && k in read(items[j]).value
    requires forall l :: j < l < |items| ==> read(items[l]).Ok? && k !in read(items[l]).value
    ensures k in Merge(read, items).value
    ensures Merge(read, items).value[k] == read(items[j]).value[k]
    decreases |items|
  {
    var n := |items| - 1;
    if j < n {
      var init := items[..n];
      assert init[j] == items[j];
      forall l | j < l < |init|
        ensures read(init[l]).Ok? && k !in read(init[l]).value
      {
        assert init[l] == items[l];
      }
      LaterIncludeWins(read, init, j, k);
    }
  }

  /** One turn of the merge loop: the next entry either fails, and its
      error is the merge's, or is merged on top of the accumulator. */
  lemma MergeStep(read: IncludeReader, items: seq<Value>, i: nat, acc: map<string, Value>)
    requires i < |items|
    requires Merge(read, items[..i]) == Ok(acc)
    ensures read(items[i]).Err? ==> Merge(read, items) == Err(read(items[i]).error)
    ensures read(items[i]).Ok? ==> Merge(read, items[..i + 1]) == Ok(acc + read(items[i]).value)
  {
    if read(items[i]).Err? {
      var prefix := items[..i];
      MergeOk(read, prefix);
      forall l | 0 <= l < i
        ensures read(items[l]).Ok?
      {
        assert prefix[l] == items[l];
      }
      MergeFirstFailure(read, items, i);
    } else {
      var next := items[..i + 1];
      assert next[..i] == items[..i];
      assert next[i] == items[i];
    }
  }

  // ---------------------------------------------------------------------
  // Pages

  /** `read_arguments(html_path)`: the data file beside the page, found by
      giving the page's path the suffix ".yml". */
  function Arguments(w: World, root: string, globals: Context, htmlPath: string, fuel: nat): (r: Result<map<string, Value>>)
    ensures WithSuffix(htmlPath, ".yml").Err? ==> r.Err?
    ensures WithSuffix(htmlPath, ".yml").Ok? ==> r == YamlData(w, root, globals, WithSuffix(htmlPath, ".yml").value, fuel)
  {
    match WithSuffix(htmlPath, ".yml")
    case Err(e) => Err(e)
    case Ok(yamlPath) => YamlData(w, root, globals, yamlPath, fuel)
  }

  /** Page data as keyword arguments. */
  function AsBindings(args: map<string, Value>): (kwargs: Context)
    ensures kwargs.Keys == args.Keys
    ensures forall k :: k in args ==> kwargs[k] == Data(args[k])
  {
    map k | k in args :: Data(args[k])
  }

  /** The call `self._render_template(path, **kwargs)` binds `self` and
      `path` by position, so page data with either key is a second value
      for that parameter: Python raises TypeError. */
  predicate ClashesWithParameters(args: map<string, Value>) {
    "path" in args || "self" in args
  }

  /** `render_template(path)`, as written. */
  function Page(w: World, root: string, globals: Context, path: string, fuel: nat): Result<string> {
    match Arguments(w, root, globals, path, fuel)
    case Err(e) => Err(e)
    case Ok(args) =>
      if ClashesWithParameters(args) then Err(DuplicateArgument)
      else Rendered(w, root, globals, path, AsBindings(args))
  }

  /** `render_template(path)` as evidently intended: every page key reaches
      the template. */
  function IntendedPage(w: World, root: string, globals: Context, path: string, fuel: nat): Result<string> {
    match Arguments(w, root, globals, path, fuel)
    case Err(e) => Err(e)
    case Ok(args) => Rendered(w, root, globals, path, AsBindings(args))
  }

  // ---------------------------------------------------------------------
  // What a data file resolves to

  /** A resolved document has exactly the keys of its includes and its own
      keys other than `_includes`; its own keys win, and an included key it
      does not have keeps the merged value. */
  lemma ResolvedKeys(w: World, root: string, globals: Context, data: map<string, Value>, fuel: nat)
    requires Resolved(w, root, globals, data, fuel).Ok?
    ensures Entries(IncludesOf(data)).Some?
    ensures var acc := Merged(w, root, globals, Entries(IncludesOf(data)).value, fuel);
      && acc.Ok?
      && Resolved(w, root, globals, data, fuel).value.Keys == acc.value.Keys + (data.Keys - {Reserved})
      && forall k :: k in acc.value && k !in data ==> Resolved(w, root, globals, data, fuel).value[k] == acc.value[k]
  {
  }

  /** A data file without `_includes` resolves to its own mapping. */
  lemma NoIncludes(w: World, root: string, globals: Context, path: string, data: map<string, Value>, fuel: nat)
    requires Exists(w.disk, root, path)
    requires Loaded(w, root, globals, path) == Ok(Dict(data))
    requires Reserved !in data
    ensures YamlData(w, root, globals, path, fuel) == Ok(data)
  {
    assert Entries(IncludesOf(data)) == Some([]);
    assert Merged(w, root, globals, [], fuel) == Ok(map[]);
    assert map[] + (data - {Reserved}) == data;
  }

  /** Merging a single include gives that include's data, or its error. */
  lemma MergedSingle(w: World, root: string, globals: Context, target: string, fuel: nat)
    ensures Merged(w, root, globals, [Str(target)], fuel + 1) == YamlData(w, root, globals, target, fuel)
  {
    var items := [Str(target)];
    var read := ReaderAt(w, root, globals, fuel + 1);
    assert items[..0] == [];
    assert Merge(read, items[..0]) == Ok(map[]);
    var d := YamlData(w, root, globals, target, fuel);
    assert read(items[0]) == d;
    if d.Ok? {
      assert map[] + d.value == d.value;
    }
  }

  /** Resolving a mapping whose only include resolves: that include's
      data updated with the mapping's own keys. */
  lemma ResolvedSingle(w: World, root: string, globals: Context, target: string, own: map<string, Value>, fuel: nat)
    requires Reserved !in own
    requires YamlData(w, root, globals, target, fuel).Ok?
    ensures Resolved(w, root, globals, own[Reserved := List([Str(target)])], fuel + 1)
         == Ok(YamlData(w, root, globals, target, fuel).value + own)
  {
    var data := own[Reserved := List([Str(target)])];
    assert Entries(IncludesOf(data)) == Some([Str(target)]);
    MergedSingle(w, root, globals, target, fuel);
    assert data - {Reserved} == own;
  }

  /** A data file with a single include is that include's data updated
      with the file's own keys. */
  lemma SingleInclude(w: World, root: string, globals: Context, path: string, target: string, own: map<string, Value>, fuel: nat)
    requires Exists(w.disk, root, path)
    requires Reserved !in own
    requires Loaded(w, root, globals, path) == Ok(Dict(own[Reserved := List([Str(target)])]))
    requires YamlData(w, root, globals, target, fuel).Ok?
    ensures YamlData(w, root, globals, path, fuel + 1) == Ok(YamlData(w, root, globals, target, fuel).value + own)
  {
    ResolvedSingle(w, root, globals, target, own, fuel);
  }

  /** A data file whose first include is the file itself never resolves:
      the source recurses until Python's recursion limit, whatever the depth. */
  lemma {:induction false} SelfIncludeNeverResolves(w: World, root: string, globals: Context, path: string, fuel: nat, data: map<string, Value>)
    requires Exists(w.disk, root, path)
    requires Loaded(w, root, globals, path) == Ok(Dict(data))
    requires Entries(IncludesOf(data)).Some?
    requires |Entries(IncludesOf(data)).value| > 0 && Entries(IncludesOf(data)).value[0] == Str(path)
    ensures YamlData(w, root, globals, path, fuel) == Err(RecursionLimit)
  {
    var items := Entries(IncludesOf(data)).value;
    if fuel > 0 {
      SelfIncludeNeverResolves(w, root, globals, path, fuel - 1, data);
    }
    assert ReaderAt(w, root, globals, fuel)(items[0]) == Err(RecursionLimit);
    MergeFirstFailure(ReaderAt(w, root, globals, fuel), items, 0);
    assert Merged(w, root, globals, items, fuel) == Err(RecursionLimit);
    assert Resolved(w, root, globals, data, fuel) == Err(RecursionLimit);
  }

  /** A data file that lists itself anywhere among its includes never
      resolves: whatever the depth, reading that entry recurses into the
      file again, so the loop ends in an error (RecursionError, or an
      earlier include's failure). */
  lemma {:induction false} IncludesItselfFails(w: World, root: string, globals: Context, path: string, fuel: nat, data: map<string, Value>, j: nat)
    requires Exists(w.disk, root, path)
    requires Loaded(w, root, globals, path) == Ok(Dict(data))
    requires Entries(IncludesOf(data)).Some?
    requires j < |Entries(IncludesOf(data)).value| && Entries(IncludesOf(data)).value[j] == Str(path)
    ensures YamlData(w, root, globals, path, fuel).Err?
  {
    var items := Entries(IncludesOf(data)).value;
    if fuel > 0 {
      IncludesItselfFails(w, root, globals, path, fuel - 1, data, j);
    }
    assert ReaderAt(w, root, globals, fuel)(items[j]).Err?;
    MergeOk(ReaderAt(w, root, globals, fuel), items);
    assert Merged(w, root, globals, items, fuel).Err?;
    assert Resolved(w, root, globals, data, fuel).Err?;
  }

  // ---------------------------------------------------------------------
  // Fuel only cuts the recursion off

  lemma {:induction false} YamlDataMoreFuel(w: World, root: string, globals: Context, path: string, fuel: nat)
    requires YamlData(w, root, globals, path, fuel) != Err(RecursionLimit)
    ensures YamlData(w, root, globals, path, fuel + 1) == YamlData(w, root, globals, path, fuel)
    decreases fuel, 4, 0
  {
    if Exists(w.disk, root, path) {
      var doc := Loaded(w, root, globals, path);
      if doc.Ok? && doc.value.Dict? {
        ResolvedMoreFuel(w, root, globals, doc.value.entries, fuel);
      }
    }
  }

  lemma {:induction false} ResolvedMoreFuel(w: World, root: string, globals: Context, data: map<string, Value>, fuel: nat)
    requires Resolved(w, root, globals, data, fuel) != Err(RecursionLimit)
    ensures Resolved(w, root, globals, data, fuel + 1) == Resolved(w, root, globals, data, fuel)
    decreases fuel, 3, 0
  {
    var items := Entries(IncludesOf(data));
    if items.Some? {
      MergedMoreFuel(w, root, globals, items.value, fuel);
    }
  }

  lemma {:induction false} MergedMoreFuel(w: World, root: string, globals: Context, items: seq<Value>, fuel: nat)
    requires Merged(w, root, globals, items, fuel) != Err(RecursionLimit)
    ensures Merged(w, root, globals, items, fuel + 1) == Merged(w, root, globals, items, fuel)
    decreases fuel, 2, |items|
  {
    if items != [] {
      var init := items[..|items| - 1];
      var last := items[|items| - 1];
      var acc := Merged(w, root, globals, init, fuel);
      if acc != Err(RecursionLimit) {
        MergedMoreFuel(w, root, globals, init, fuel);
      }
      if acc.Ok? {
        IncludedMoreFuel(w, root, globals, last, fuel);
      }
    }
  }

  lemma {:induction false} IncludedMoreFuel(w: World, root: string, globals: Context, item: Value, fuel: nat)
    requires Included(w, root, globals, item, fuel) != Err(RecursionLimit)
    ensures Included(w, root, globals, item, fuel + 1) == Included(w, root, globals, item, fuel)
    decreases fuel, 0, 0
  {
    if item.Str? && fuel > 0 {
      assert Included(w, root, globals, item, fuel) == YamlData(w, root, globals, item.s, fuel - 1);
      YamlDataMoreFuel(w, root, globals, item.s, fuel - 1);
      assert Included(w, root, globals, item, fuel + 1) == YamlData(w, root, globals, item.s, fuel);
    }
  }

  /** Once a data file resolves within some nesting depth, every larger
      depth gives the same answer: the bound only stands in for Python's
      recursion limit. */
  lemma {:induction false} YamlDataStable(w: World, root: string, globals: Context, path: string, fuel: nat, more: nat)
    requires YamlData(w, root, globals, path, fuel) != Err(RecursionLimit)
    requires fuel <= more
    ensures YamlData(w, root, globals, path, more) == YamlData(w, root, globals, path, fuel)
    decreases more - fuel
  {
    if fuel < more {
      YamlDataMoreFuel(w, root, globals, path, fuel);
      YamlDataStable(w, root, globals, path, fuel + 1, more);
    }
  }

  // ---------------------------------------------------------------------
  // Rendering

  /** In a page render, page data reaches the template unless a template
      global or `fake` has the same name; `fake` is the provider seeded
      from the page's own path. */
  lemma PageContext(w: World, root: string, globals: Context, path: string, fuel: nat, text: string)
    requires Arguments(w, root, globals, path, fuel).Ok?
    requires !ClashesWithParameters(Arguments(w, root, globals, path, fuel).value)
    requires LoadTemplate(w.disk, root, path) == Ok(text)
    ensures var args := Arguments(w, root, globals, path, fuel).value;
      var ctx := RenderContext(AsBindings(args), globals, GenerateSeed(w.lib, path));
      && Page(w, root, globals, path, fuel) == (if w.lib.render(text, ctx).Some? then Ok(w.lib.render(text, ctx).value) else Err(RenderFailed(path)))
      && ctx["fake"] == GetFake(w.lib, path)
      && (forall k :: k in args && k !in globals && k != "fake" ==> ctx[k] == Data(args[k]))
  {
  }

  /** As written, a page whose data has a key `path` cannot be rendered
      although its data resolves; the intended render never fails that way. */
  lemma PathKeyBreaksPage(w: World, root: string, globals: Context, path: string, fuel: nat)
    requires Arguments(w, root, globals, path, fuel).Ok?
    requires "path" in Arguments(w, root, globals, path, fuel).value
    ensures Page(w, root, globals, path, fuel) == Err(DuplicateArgument)
    ensures IntendedPage(w, root, globals, path, fuel) != Err(DuplicateArgument)
  {
  }

  /** Where no page key clashes with a parameter, the source's render and
      the intended one agree. */
  lemma PageIsIntendedWithoutClash(w: World, root: string, globals: Context, path: string, fuel: nat)
    requires Arguments(w, root, globals, path, fuel).Ok? ==> !ClashesWithParameters(Arguments(w, root, globals, path, fuel).value)
    ensures Page(w, root, globals, path, fuel) == IntendedPage(w, root, globals, path, fuel)
  {
  }

  /** The intended render fails only where loading the data or the template
      or rendering fails, and binds every page key to the template. */
  lemma IntendedPageBindsAllData(w: World, root: string, globals: Context, path: string, fuel: nat, text: string)
    requires Arguments(w, root, globals, path, fuel).Ok?
    requires LoadTemplate(w.disk, root, path) == Ok(text)
    ensures var args := Arguments(w, root, globals, path, fuel).value;
      var ctx := RenderContext(AsBindings(args), globals, GenerateSeed(w.lib, path));
      && IntendedPage(w, root, globals, path, fuel) == (if w.lib.render(text, ctx).Some? then Ok(w.lib.render(text, ctx).value) else Err(RenderFailed(path)))
      && (forall k :: k in args && k !in globals && k != "fake" ==> ctx[k] == Data(args[k]))
  {
  }

  /** A data file is rendered with `include`, the template globals over it,
      and `fake` seeded from the data file's own path over both. */
  lemma YamlContext(lib: Lib, globals: Context, path: string)
    ensures var ctx := RenderContext(YamlKwargs(lib, path), globals, GenerateSeed(lib, path));
      && ctx["fake"] == GetFake(lib, path)
      && ("include" !in globals ==> ctx["include"] == Include)
      && ctx.Keys == globals.Keys + {"fake", "include"}
  {
  }
}
