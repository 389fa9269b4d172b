/** The cases of tests/test_mockdown.py and a data file with an include,
    under a root `/tmp/t`. Jinja2 and PyYAML are not modelled: each case
    states only what it needs them to do with its own texts. */
module Scenarios {
  import opened Data
  import opened Paths
  import opened Templates
  import opened Seeds
  import opened Resolver
  import Mocker

  const Root := "/tmp/t"

  // ---------------------------------------------------------------------
  // What the cases need of Jinja2 and PyYAML

  /** A text without template syntax renders to itself in any context. */
  ghost predicate RendersAsIs(lib: Lib, text: string) {
    forall ctx: Context :: lib.render(text, ctx) == Some(text)
  }

  /** PyYAML's `safe_load(text)` gives `v`. */
  predicate Parses(lib: Lib, text: string, v: Value) {
    lib.load(text) == Some(v)
  }

  /** `Hello {{name}}` renders with the `name` it is given. */
  ghost predicate FillsName(lib: Lib) {
    forall ctx: Context :: "name" in ctx && ctx["name"] == Data(Str("Alice")) ==>
      lib.render("Hello {{name}}", ctx) == Some("Hello Alice")
  }

  /** `{{fake.name()}}` calls the provider, which the test replaces by one
      whose `name()` is `fake-name`. */
  ghost predicate CallsFake(lib: Lib) {
    forall ctx: Context :: "fake" in ctx && ctx["fake"].Fake? ==>
      lib.render("name: {{fake.name()}}", ctx) == Some("name: fake-name")
  }

  /** `a.yml` as the tests write it. */
  ghost predicate AliceFile(w: World) {
    && "/tmp/t/a.yml" in w.disk && w.disk["/tmp/t/a.yml"] == File("name: Alice")
    && RendersAsIs(w.lib, "name: Alice")
    && Parses(w.lib, "name: Alice", Dict(map["name" := Str("Alice")]))
  }

  /** A data file that includes `a.yml` and adds a key of its own. */
  const IncludingText := "_includes: [a.yml]\nrole: admin"

  // ---------------------------------------------------------------------
  // Paths

  /** `Path("a.html").with_suffix(".yml")` is `a.yml`. */
  lemma DataFileOfPage()
    ensures WithSuffix("a.html", ".yml") == Ok("a.yml")
  {
    RFindUnique("a.html", '/', -1);
    assert NameStart("a.html") == 0;
    assert Name("a.html") == "a.html" && Head("a.html") == "";
    RFindUnique("a.html", '.', 1);
    assert Suffix("a.html") == ".html";
    assert Stem("a.html") == "a";
    assert ValidSuffix(".yml");
    assert "" + "a" + ".yml" == "a.yml";
  }

  /** The files used below, under the root. */
  lemma UnderRoot()
    ensures Join(Root, "a.yml") == "/tmp/t/a.yml"
    ensures Join(Root, "a.html") == "/tmp/t/a.html"
    ensures Join(Root, "b.yml") == "/tmp/t/b.yml"
    ensures Join(Root, "a.txt") == "/tmp/t/a.txt"
  {
    assert Root + "/" + "a.yml" == "/tmp/t/a.yml";
    assert Root + "/" + "a.html" == "/tmp/t/a.html";
    assert Root + "/" + "b.yml" == "/tmp/t/b.yml";
    assert Root + "/" + "a.txt" == "/tmp/t/a.txt";
  }

  /** A file written under the root is the template Jinja2 loads by its bare name. */
  lemma TemplateAtRoot(disk: Disk, name: string, text: string)
    requires '/' !in name && PlainPiece(name)
    requires Join(Root, name) in disk && disk[Join(Root, name)] == File(text)
    ensures LoadTemplate(disk, Root, name) == Ok(text)
  {
    BareTemplateName(Root, name);
  }

  /** `exists("a.txt")` is false until the file is written. */
  lemma ExistsExample(disk: Disk)
    ensures !Exists(map[], Root, "a.txt")
    ensures Exists(disk["/tmp/t/a.txt" := File("hello")], Root, "a.txt")
  {
    UnderRoot();
  }

  // ---------------------------------------------------------------------
  // Data files

  /** With no data file, `read_yaml_file("a.yml")` is `{}`. */
  lemma MissingDataFile(w: World, globals: Context, fuel: nat)
    requires "/tmp/t/a.yml" !in w.disk
    ensures YamlData(w, Root, globals, "a.yml", fuel) == Ok(map[])
  {
    UnderRoot();
  }

  /** A data file with `name: Alice` resolves to that mapping, whatever the globals. */
  lemma AliceData(w: World, globals: Context, fuel: nat)
    requires AliceFile(w)
    ensures YamlData(w, Root, globals, "a.yml", fuel) == Ok(map["name" := Str("Alice")])
  {
    UnderRoot();
    TemplateAtRoot(w.disk, "a.yml", "name: Alice");
    assert Loaded(w, Root, globals, "a.yml") == Ok(Dict(map["name" := Str("Alice")])) by {
      var ctx := RenderContext(YamlKwargs(w.lib, "a.yml"), globals, GenerateSeed(w.lib, "a.yml"));
      assert w.lib.render("name: Alice", ctx) == Some("name: Alice");
    }
    NoIncludes(w, Root, globals, "a.yml", map["name" := Str("Alice")], fuel);
  }

  /** Without a data file a page has no arguments. */
  lemma NoArgumentsExample(w: World, globals: Context, fuel: nat)
    requires "/tmp/t/a.yml" !in w.disk
    ensures Arguments(w, Root, globals, "a.html", fuel) == Ok(map[])
  {
    DataFileOfPage();
    MissingDataFile(w, globals, fuel);
  }

  /** With `a.yml` holding `name: Alice`, the page `a.html` has that mapping. */
  lemma ReadArgumentsExample(w: World, globals: Context, fuel: nat)
    requires AliceFile(w)
    ensures Arguments(w, Root, globals, "a.html", fuel) == Ok(map["name" := Str("Alice")])
  {
    DataFileOfPage();
    AliceData(w, globals, fuel);
  }

  /** A data file calling the fake provider resolves to what the provider returned. */
  lemma FakeExample(w: World, globals: Context, fuel: nat)
    requires "/tmp/t/a.yml" in w.disk && w.disk["/tmp/t/a.yml"] == File("name: {{fake.name()}}")
    requires CallsFake(w.lib)
    requires Parses(w.lib, "name: fake-name", Dict(map["name" := Str("fake-name")]))
    ensures YamlData(w, Root, globals, "a.yml", fuel) == Ok(map["name" := Str("fake-name")])
  {
    UnderRoot();
    TemplateAtRoot(w.disk, "a.yml", "name: {{fake.name()}}");
    assert Loaded(w, Root, globals, "a.yml") == Ok(Dict(map["name" := Str("fake-name")])) by {
      var ctx := RenderContext(YamlKwargs(w.lib, "a.yml"), globals, GenerateSeed(w.lib, "a.yml"));
      assert ctx["fake"].Fake?;
    }
    NoIncludes(w, Root, globals, "a.yml", map["name" := Str("fake-name")], fuel);
  }

  /** An empty data file parses to nothing and is not a mapping: `data.pop` fails. */
  lemma EmptyDataFileFails(w: World, globals: Context, fuel: nat)
    requires "/tmp/t/a.yml" in w.disk && w.disk["/tmp/t/a.yml"] == File("")
    requires RendersAsIs(w.lib, "")
    requires Parses(w.lib, "", Null)
    ensures YamlData(w, Root, globals, "a.yml", fuel) == Err(NotAMapping("a.yml"))
  {
    UnderRoot();
    TemplateAtRoot(w.disk, "a.yml", "");
    var ctx := RenderContext(YamlKwargs(w.lib, "a.yml"), globals, GenerateSeed(w.lib, "a.yml"));
    assert w.lib.render("", ctx) == Some("");
  }

  /** An absolute data file name such as `/etc/x.yml` passes `exists`,
      which pathlib resolves at the absolute path, but Jinja2 looks the
      template up under the root (`/tmp/t/etc/x.yml`): with only the
      absolute file on disk, `read_yaml_file` fails with TemplateNotFound. */
  lemma AbsoluteDataFile(w: World, globals: Context, fuel: nat, dir: string, file: string)
    requires '/' !in dir && PlainPiece(dir) && '/' !in file && PlainPiece(file)
    requires "/" + (dir + "/" + file) in w.disk && w.disk["/" + (dir + "/" + file)].File?
    requires Join(Root, dir + "/" + file) !in w.disk
    ensures Exists(w.disk, Root, "/" + (dir + "/" + file))
    ensures YamlData(w, Root, globals, "/" + (dir + "/" + file), fuel) == Err(TemplateNotFound("/" + (dir + "/" + file)))
  {
    AbsoluteTwoPieceName(Root, dir, file);
  }

  /** `b.yml` renders to itself and parses to its include and its own key. */
  lemma IncludingLoads(w: World, globals: Context)
    requires "/tmp/t/b.yml" in w.disk && w.disk["/tmp/t/b.yml"] == File(IncludingText)
    requires RendersAsIs(w.lib, IncludingText)
    requires Parses(w.lib, IncludingText, Dict(map[Reserved := List([Str("a.yml")]), "role" := Str("admin")]))
    ensures Exists(w.disk, Root, "b.yml")
    ensures Loaded(w, Root, globals, "b.yml") == Ok(Dict(map["role" := Str("admin")][Reserved := List([Str("a.yml")])]))
  {
    UnderRoot();
    TemplateAtRoot(w.disk, "b.yml", IncludingText);
    var ctx := RenderContext(YamlKwargs(w.lib, "b.yml"), globals, GenerateSeed(w.lib, "b.yml"));
    assert w.lib.render(IncludingText, ctx) == Some(IncludingText);
    IncludingMapping();
  }

  /** The parsed `b.yml`, as the own key with the include list added. */
  lemma IncludingMapping()
    ensures map["role" := Str("admin")][Reserved := List([Str("a.yml")])] == map[Reserved := List([Str("a.yml")]), "role" := Str("admin")]
  {
  }

  /** A data file including `a.yml` has its keys and then its own on top. */
  lemma IncludeExample(w: World, globals: Context, fuel: nat)
    requires AliceFile(w)
    requires "/tmp/t/b.yml" in w.disk && w.disk["/tmp/t/b.yml"] == File(IncludingText)
    requires RendersAsIs(w.lib, IncludingText)
    requires Parses(w.lib, IncludingText, Dict(map[Reserved := List([Str("a.yml")]), "role" := Str("admin")]))
    ensures YamlData(w, Root, globals, "b.yml", fuel + 1) == Ok(map["name" := Str("Alice"), "role" := Str("admin")])
  {
    IncludingLoads(w, globals);
    AliceData(w, globals, fuel);
    IncludesAlice(w, Root, globals, "b.yml", "a.yml", fuel);
  }

  /** Once the included file resolves to `name: Alice` and the including
      file parses to that include and `role: admin`, the including file
      resolves to both keys. */
  lemma IncludesAlice(w: World, root: string, globals: Context, path: string, target: string, fuel: nat)
    requires Exists(w.disk, root, path)
    requires Loaded(w, root, globals, path) == Ok(Dict(map["role" := Str("admin")][Reserved := List([Str(target)])]))
    requires YamlData(w, root, globals, target, fuel) == Ok(map["name" := Str("Alice")])
    ensures YamlData(w, root, globals, path, fuel + 1) == Ok(map["name" := Str("Alice"), "role" := Str("admin")])
  {
    var own := map["role" := Str("admin")];
    SingleInclude(w, root, globals, path, target, own, fuel);
    AliceThenRole();
  }

  /** The included keys, updated with the including file's own. */
  lemma AliceThenRole()
    ensures map["name" := Str("Alice")] + map["role" := Str("admin")] == map["name" := Str("Alice"), "role" := Str("admin")]
  {
  }

  // ---------------------------------------------------------------------
  // Pages

  /** `Hello {{name}}` with `name: Alice` renders to `Hello Alice`. */
  lemma RenderTemplateExample(w: World, fuel: nat)
    requires AliceFile(w) && FillsName(w.lib)
    requires "/tmp/t/a.html" in w.disk && w.disk["/tmp/t/a.html"] == File("Hello {{name}}")
    ensures Page(w, Root, map[], "a.html", fuel) == Ok("Hello Alice")
  {
    ReadArgumentsExample(w, map[], fuel);
    NameDoesNotClash();
    HelloTemplate(w);
    HelloRenders(w.lib, GenerateSeed(w.lib, "a.html"));
    PageRenders(w, Root, "a.html", fuel, "Hello {{name}}", map["name" := Str("Alice")], "Hello Alice");
  }

  /** `name` is neither `path` nor `self`. */
  lemma NameDoesNotClash()
    ensures !ClashesWithParameters(map["name" := Str("Alice")])
  {
  }

  /** The page template is found under the root. */
  lemma HelloTemplate(w: World)
    requires "/tmp/t/a.html" in w.disk && w.disk["/tmp/t/a.html"] == File("Hello {{name}}")
    ensures LoadTemplate(w.disk, Root, "a.html") == Ok("Hello {{name}}")
  {
    UnderRoot();
    TemplateAtRoot(w.disk, "a.html", "Hello {{name}}");
  }

  /** With no globals, the page data's `name` reaches the template. */
  lemma HelloRenders(lib: Lib, seed: nat)
    requires FillsName(lib)
    ensures lib.render("Hello {{name}}", RenderContext(AsBindings(map["name" := Str("Alice")]), map[], seed)) == Some("Hello Alice")
  {
    var ctx := RenderContext(AsBindings(map["name" := Str("Alice")]), map[], seed);
    assert ctx["name"] == Data(Str("Alice"));
  }

  /** A page whose data resolves without clashing keys and whose template
      renders with that data is the rendered text. */
  lemma PageRenders(w: World, root: string, path: string, fuel: nat, text: string, args: map<string, Value>, out: string)
    requires Arguments(w, root, map[], path, fuel) == Ok(args)
    requires !ClashesWithParameters(args)
    requires LoadTemplate(w.disk, root, path) == Ok(text)
    requires w.lib.render(text, RenderContext(AsBindings(args), map[], GenerateSeed(w.lib, path))) == Some(out)
    ensures Page(w, root, map[], path, fuel) == Ok(out)
  {
    PageContext(w, root, map[], path, fuel, text);
  }

  // ---------------------------------------------------------------------
  // The older server

  /** The older server finds `a.yml` beside `a.html`, and `{}` when it is absent. */
  lemma MockerReadArgumentsExample(load: string -> Option<Value>)
    requires load("name: Alice") == Some(Dict(map["name" := Str("Alice")]))
    ensures Mocker.ReplaceExt("a.html", ".yml") == "a.yml"
    ensures Mocker.ReadArguments(map[], load, "a.html") == Ok(Dict(map[]))
    ensures Mocker.ReadArguments(map["a.yml" := File("name: Alice")], load, "a.html") == Ok(Dict(map["name" := Str("Alice")]))
  {
    RFindUnique("a.html", '/', -1);
    RFindUnique("a.html", '.', 1);
    assert HasNonDot("a.html"[0..1]) by { assert "a.html"[0..1][0] != '.'; }
    assert "a.html"[..1] == "a";
  }
}
