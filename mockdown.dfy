/** The `Mockdown` object of mockdown/mockdown.py: its mutable fields, the
    lazily built template environment, and the operations that read data
    files and render templates, each proved to compute what module Resolver
    says. */
module Mockdown {
  import opened Data
  import opened Paths
  import opened Seeds
  import opened Resolver

  /** Jinja2's `Environment(loader=FileSystemLoader(searchPath))`. */
  class Environment {
    const searchPath: string

    constructor (searchPath: string)
      ensures this.searchPath == searchPath
    {
      this.searchPath := searchPath;
    }

    /** `env.get_template(name)`. */
    method GetTemplate(disk: Disk, name: string) returns (r: Result<string>)
      ensures r == LoadTemplate(disk, searchPath, name)
    {
      r := LoadTemplate(disk, searchPath, name);
    }
  }

  class Mockdown {
    var root: string
    var env: Environment?
    var templateGlobals: Context

    /** A built environment always searches the current root. */
    ghost predicate Valid()
      reads this
    {
      env != null ==> env.searchPath == root
    }

    /** `Mockdown(root)`. */
    constructor (root: string)
      ensures Valid()
      ensures this.root == root && env == null && templateGlobals == map[]
    {
      this.root := root;
      env := null;
      templateGlobals := map[];
    }

    /** `set_root(root)`: the next render builds a new environment. */
    method SetRoot(root: string)
      modifies this`root, this`env
      ensures Valid()
      ensures this.root == root && env == null
      ensures templateGlobals == old(templateGlobals)
    {
      this.root := root;
      env := null;
    }

    /** `_get_env()`: built on first use, then reused. */
    method GetEnv() returns (e: Environment)
      requires Valid()
      modifies this`env
      ensures Valid() && env == e && e.searchPath == root
      ensures old(env) != null ==> e == old(env)
      ensures old(env) == null ==> fresh(e)
    {
      if env == null {
        env := new Environment(root);
      }
      e := env;
    }

    /** `_render_template(path, **kwargs)`. */
    method RenderTemplateWith(w: World, path: string, kwargs: Context) returns (r: Result<string>)
      requires Valid()
      modifies this`env
      ensures Valid() && r == Rendered(w, root, templateGlobals, path, kwargs)
      ensures env != null && (old(env) != null ==> env == old(env))
      ensures env != old(env) ==> fresh(env)
    {
      var e := GetEnv();
      var t := e.GetTemplate(w.disk, path);
      if t.Err? {
        return Err(t.error);
      }
      var args := kwargs;
      args := args + templateGlobals;
      args := args["fake" := GetFake(w.lib, path)];
      var out := w.lib.render(t.value, args);
      if out.Some? {
        r := Ok(out.value);
      } else {
        r := Err(RenderFailed(path));
      }
    }

    /** `render_template(path)`: the page rendered with its data file's
        mapping as keyword arguments; a key `path` or `self` is a second
        value for a parameter of `_render_template`, and the call fails
        after the data file is read but before the page template is loaded. */
    method RenderTemplate(w: World, path: string, fuel: nat) returns (r: Result<string>)
      requires Valid()
      modifies this`env
      ensures Valid() && r == Page(w, root, templateGlobals, path, fuel)
      ensures old(env) != null ==> env == old(env)
      ensures env != old(env) ==> env != null && fresh(env)
    {
      var args := ReadArguments(w, path, fuel);
      if args.Err? {
        return Err(args.error);
      }
      if ClashesWithParameters(args.value) {
        return Err(DuplicateArgument);
      }
      r := RenderTemplateWith(w, path, AsBindings(args.value));
    }

    /** `read_arguments(html_path)`. */
    method ReadArguments(w: World, htmlPath: string, fuel: nat) returns (r: Result<map<string, Value>>)
      requires Valid()
      modifies this`env
      ensures Valid() && r == Arguments(w, root, templateGlobals, htmlPath, fuel)
      ensures old(env) != null ==> env == old(env)
      ensures env != old(env) ==> env != null && fresh(env)
    {
      var yamlPath := WithSuffix(htmlPath, ".yml");
      if yamlPath.Err? {
        return Err(yamlPath.error);
      }
      r := ReadYamlFile(w, yamlPath.value, fuel);
    }

    /** `read_yaml_file(path)`. */
    method ReadYamlFile(w: World, path: string, fuel: nat) returns (r: Result<map<string, Value>>)
      requires Valid()
      modifies this`env
      ensures Valid() && r == YamlData(w, root, templateGlobals, path, fuel)
      ensures old(env) != null ==> env == old(env)
      ensures env != old(env) ==> env != null && fresh(env)
      decreases fuel, 3
    {
      if !Exists(w.disk, root, path) {
        return Ok(map[]);
      }
      var fake := GetFake(w.lib, path);
      var text := RenderTemplateWith(w, path, map["fake" := fake, "include" := Include]);
      if text.Err? {
        return Err(text.error);
      }
      var data := w.lib.load(text.value);
      if data.None? {
        return Err(ParseFailed(path));
      }
      if !data.value.Dict? {
        return Err(NotAMapping(path));
      }
      r := ResolveIncludes(w, data.value.entries, fuel);
    }

    /** `_resolve_includes(data)`: pop `_includes`, merge each include in
        order into an accumulator, then the document's own keys. */
    method ResolveIncludes(w: World, data: map<string, Value>, fuel: nat) returns (r: Result<map<string, Value>>)
      requires Valid()
      modifies this`env
      ensures Valid() && r == Resolved(w, root, templateGlobals, data, fuel)
      ensures old(env) != null ==> env == old(env)
      ensures env != old(env) ==> env != null && fresh(env)
      decreases fuel, 2
    {
      var rest := data;
      var includes := IncludesOf(rest);
      rest := rest - {Reserved};
      var entries := Entries(includes);
      if entries.None? {
        return Err(IncludesNotIterable);
      }
      var items := entries.value;
      var d: map<string, Value> := map[];
      var i := 0;
      while i < |items|
        invariant 0 <= i <= |items|
        invariant Valid()
        invariant Merged(w, root, templateGlobals, items[..i], fuel) == Ok(d)
        invariant old(env) != null ==> env == old(env)
        invariant env != old(env) ==> env != null && fresh(env)
      {
        var sub := ReadInclude(w, items[i], fuel);
        MergeStep(ReaderAt(w, root, templateGlobals, fuel), items, i, d);
        if sub.Err? {
          return Err(sub.error);
        }
        d := d + sub.value;
        i := i + 1;
      }
      assert items[..i] == items;
      d := d + rest;
      r := Ok(d);
    }

    /** `self.read_yaml_file(path)` for one entry of `_includes`, one call deeper. */
    method ReadInclude(w: World, item: Value, fuel: nat) returns (r: Result<map<string, Value>>)
      requires Valid()
      modifies this`env
      ensures Valid() && r == Included(w, root, templateGlobals, item, fuel)
      ensures old(env) != null ==> env == old(env)
      ensures env != old(env) ==> env != null && fresh(env)
      decreases fuel, 1
    {
      if fuel == 0 {
        return Err(RecursionLimit);
      }
      if !item.Str? {
        return Err(BadIncludeEntry);
      }
      r := ReadYamlFile(w, item.s, fuel - 1);
    }

    /** The environment is built once, reused, and rebuilt for a new root
        after `set_root`. */
    static method EnvironmentLifecycle(first: string, second: string) returns (reused: bool, rebuilt: bool)
      ensures reused && rebuilt
    {
      var m := new Mockdown(first);
      var e1 := m.GetEnv();
      var e2 := m.GetEnv();
      reused := e1 == e2 && e1.searchPath == first;
      m.SetRoot(second);
      var e3 := m.GetEnv();
      rebuilt := e3 != e1 && e3.searchPath == second;
    }
  }
}
