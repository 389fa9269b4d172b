# mockdown in Dafny

mockdown serves HTML mockups. Each page `x.html` is a Jinja2 template rendered with the data of its sibling YAML file `x.yml`. That data file is itself rendered as a template first, with a `fake` data provider seeded from the file's path. Its `_includes` list names further data files; they are read recursively and merged in order, and the file's own keys go on top. This project models that pipeline and the routing of its two servers:

- **The `Mockdown` object** of `mockdown/mockdown.py`.
  - In module `Mockdown`, a class with the fields `root`, `env` and `templateGlobals`.
  - Its methods build the template environment lazily and reset it on `set_root`.
  - They render templates with the source's argument precedence (caller's arguments, then template globals, then `fake`).
  - They read data files and resolve includes. `ResolveIncludes` is a loop over the include list.
  - Every method that reads or renders (`RenderTemplateWith`, `RenderTemplate`, `ReadArguments`, `ReadYamlFile`, `ResolveIncludes`, `ReadInclude` and `Environment.GetTemplate`) is proved to compute what a function in module `Resolver` specifies. The constructors, `SetRoot` and `GetEnv` are specified by the object state they leave: the root, the environment and the template globals. The lemmas in `Resolver` state what the source promises of those functions: absent files are empty, later includes win, own keys win, `_includes` never appears in a result, and a file that lists itself anywhere among its includes never resolves.
- **Template lookup** in module `Templates`: Jinja2's `FileSystemLoader` splits a template name on `/`, drops empty and `.` pieces, refuses `..`, and looks for a file at the remaining pieces joined under its search path. An absolute name is therefore looked up under the root.
- **Path handling** in module `Paths`: pathlib's `Path(root, path)`, `name`, `suffix` and `with_suffix`, and `os.path.splitext` and `os.path.dirname`, over POSIX paths.
- **Seed derivation** in module `Seeds`: `_generate_seed` reads MD5's hexadecimal digest back as an integer and reduces it modulo 10000. Reading the hex text back gives the digest's big-endian value.
- **The older server**, `mocker/__init__.py`, in module `Mocker`: `mock` dispatch, `mock_index`'s `dirname` and `parent`, `replace_ext` and `read_arguments`.
- **The current server**, `mockdown/__init__.py`, in module `Blueprint`: `mock` dispatch, the trailing-slash redirect of `mock_index`, `mockdown_url_for`, and its installation as a template global.
- **The cases of `tests/test_mockdown.py`**, plus an include case, in module `Scenarios`. Each case states only what it needs Jinja2 and PyYAML to do with its own texts.

Module `Data` holds the shared values:
- parsed YAML values;
- the file system, as a map from paths to files and directories (joined under the root for the `Mockdown` object, relative to the working directory for the older server);
- the exceptions the core raises, as an `Error` datatype returned in a `Result`;
- the foreign libraries as one `Lib` value: MD5, Jinja2's render, PyYAML's `safe_load`.

Include nesting is bounded by a `fuel` depth. Running out of it is Python's `RecursionError`; the `*MoreFuel` lemmas and `YamlDataStable` show the bound changes no other answer.

## Model

| member | source | states |
|---|---|---|
| Mockdown.Mockdown.constructor | mockdown/mockdown.py:14-16 | a new object has the given root, no environment and empty template globals |
| Mockdown.Mockdown.SetRoot | mockdown/mockdown.py:18-20 | `set_root` changes the root, drops the environment and leaves the template globals alone |
| Mockdown.Mockdown.GetEnv | mockdown/mockdown.py:22-26 | the environment is built on first use for the current root and reused afterwards |
| Mockdown.Mockdown.EnvironmentLifecycle | mockdown/mockdown.py:18-26 | two calls share one environment, and after `set_root` a new one is built for the new root |
| Mockdown.Environment.constructor | mockdown/mockdown.py:24-25 | the loader searches the given directory |
| Mockdown.Environment.GetTemplate | mockdown/mockdown.py:41-42 | `get_template` is the loader's lookup (`Resolver.LoadTemplate`) in the environment's search path |
| Mockdown.Mockdown.RenderTemplateWith | mockdown/mockdown.py:37-45 | `_render_template` renders with the caller's arguments, the template globals over them and `fake` over both (`Resolver.Rendered`) |
| Mockdown.Mockdown.RenderTemplate | mockdown/mockdown.py:28-35 | as written: `render_template` reads the page data and renders with it as keyword arguments, failing with TypeError on a key `path` or `self` after the data file is read but before the page template is loaded (`Resolver.Page`, see Findings) |
| Mockdown.Mockdown.ReadArguments | mockdown/mockdown.py:47-51 | `read_arguments` reads the data file named by the page path with suffix `.yml` |
| Mockdown.Mockdown.ReadYamlFile | mockdown/mockdown.py:53-60 | `read_yaml_file` is `{}` for a missing file; otherwise the file is rendered, parsed, required to be a mapping and resolved (`Resolver.YamlData`) |
| Mockdown.Mockdown.ResolveIncludes | mockdown/mockdown.py:69-75 | the loop merges each include in order and stops at the first failure; the loop invariant is the merge of the includes seen so far (`Resolver.Resolved`) |
| Mockdown.Mockdown.ReadInclude | mockdown/mockdown.py:72-73 | one include entry is read one level deeper; a non-path entry fails |
| Resolver.RenderContext | mockdown/mockdown.py:41-45 | template globals override the caller's arguments, `fake` overrides both, and the context has exactly the keys of all three |
| Resolver.LoadTemplate | mockdown/mockdown.py:41-42 | a template is found exactly when the name has no `..` piece and the loader's file under the search path is a file (not a directory); its text is that file's, and otherwise the error is TemplateNotFound of the name |
| Templates.LoaderPieces | mockdown/mockdown.py:41-42 | the loader keeps the name's pieces other than empty and `.`, in order, and refuses the name exactly when a piece is `..` |
| Templates.LoaderKeepsPlainPieces | mockdown/mockdown.py:41-42 | a name of plain pieces is kept whole |
| Templates.LoaderDropsLeadingEmpty | mockdown/mockdown.py:41-42 | a leading empty piece (a leading `/`) changes nothing |
| Templates.JoinPiecesOfPieces | mockdown/mockdown.py:41-42 | joining the pieces of a name with `/` gives the name back |
| Templates.PiecesOfJoinPieces | mockdown/mockdown.py:41-42 | splitting pieces without `/` joined by `/` gives the pieces back |
| Templates.PiecesOfAbsolute | mockdown/mockdown.py:41-42 | a leading `/` adds one empty piece in front |
| Templates.TemplateFile | mockdown/mockdown.py:41-42 | the loader names a file exactly when no piece of the name is `..` |
| Templates.TemplateFileUnderSearchPath | mockdown/mockdown.py:41-42 | the file the loader names starts with the search path, and is the search path itself or the search path joined with plain pieces none of which holds a `/`, so no name reaches outside the search path |
| Templates.PlainTemplateName | mockdown/mockdown.py:41-42 | a name of plain pieces is looked up at `Path(search path, name)` |
| Templates.BareTemplateName | mockdown/mockdown.py:41-42 | so is a single plain file name |
| Templates.AbsoluteTemplateName | mockdown/mockdown.py:41-42 | a name with a leading `/` is looked up where the name without it is |
| Templates.AbsoluteTwoPieceName | mockdown/mockdown.py:41-42 | `/dir/file` is looked up at `dir/file` under the search path |
| Resolver.YamlData | mockdown/mockdown.py:53-60 | a data file missing under the root is `{}`; a resolved file never holds `_includes` |
| Resolver.Entries | mockdown/mockdown.py:72 | `for path in includes` visits a list's items, or a string's one-character strings; other values cannot be iterated |
| Resolver.Resolved | mockdown/mockdown.py:69-75 | a resolved document keeps every own key except `_includes` with its own value, and never holds `_includes` |
| Resolver.Merged | mockdown/mockdown.py:70-73 | the merged includes never hold `_includes` |
| Resolver.Included | mockdown/mockdown.py:72-73 | an include's data never holds `_includes` |
| Resolver.MergeAvoids | mockdown/mockdown.py:71-73 | a key none of the include mappings has is never merged |
| Resolver.MergeOk | mockdown/mockdown.py:71-73 | the merge succeeds exactly when every include is read |
| Resolver.MergeFirstFailure | mockdown/mockdown.py:71-73 | includes are read in order: the first failing one decides the error |
| Resolver.MergedKeysFromEntries | mockdown/mockdown.py:71-73 | every merged key comes from some include |
| Resolver.EntryKeysMerged | mockdown/mockdown.py:71-73 | every key of every include is merged |
| Resolver.MergeKeys | mockdown/mockdown.py:71-73 | the merged keys are exactly the keys of the includes |
| Resolver.LaterIncludeWins | mockdown/mockdown.py:71-73 | on a collision the later include wins: a key takes its value from the last include that has it |
| Resolver.MergeStep | mockdown/mockdown.py:72-73 | one loop turn: a failing include's error is the merge's, otherwise the include is merged on top of the accumulator |
| Resolver.ResolvedKeys | mockdown/mockdown.py:69-75 | a resolved document's keys are the merged include keys plus its own keys other than `_includes`, and an included key it does not redefine keeps the merged value |
| Resolver.NoIncludes | mockdown/mockdown.py:69-75 | a mapping without `_includes` resolves to itself |
| Resolver.MergedSingle | mockdown/mockdown.py:71-73 | merging a single include gives that file's data or its error |
| Resolver.ResolvedSingle | mockdown/mockdown.py:69-75 | a mapping with a single include is that include's data updated with the mapping's own keys |
| Resolver.SingleInclude | mockdown/mockdown.py:53-75 | a data file with a single include reads as that include's data with the file's own keys on top |
| Resolver.IncludesItselfFails | mockdown/mockdown.py:60-73 | a data file listing itself at any position of its includes fails at every depth |
| Resolver.SelfIncludeNeverResolves | mockdown/mockdown.py:60-73 | a data file whose first include is itself fails with RecursionError at every depth |
| Resolver.YamlDataMoreFuel | mockdown/mockdown.py:53-60 | one more level of nesting changes no answer except a RecursionError |
| Resolver.ResolvedMoreFuel | mockdown/mockdown.py:69-75 | the same for resolving a mapping |
| Resolver.MergedMoreFuel | mockdown/mockdown.py:71-73 | the same for the merge of includes |
| Resolver.IncludedMoreFuel | mockdown/mockdown.py:72-73 | the same for one include |
| Resolver.YamlDataStable | mockdown/mockdown.py:53-75 | once a data file resolves at some depth, every larger depth gives the same answer |
| Resolver.Arguments | mockdown/mockdown.py:47-51 | the page's arguments are `read_yaml_file` of its path with suffix `.yml`; a page path `with_suffix` rejects fails |
| Resolver.AsBindings | mockdown/mockdown.py:34-35 | the page data as keyword arguments: the same keys, each bound to its value |
| Resolver.PageContext | mockdown/mockdown.py:28-45 | a page renders with its data, except where a global or `fake` shadows it, and with `fake` seeded from the page's path |
| Resolver.PathKeyBreaksPage | mockdown/mockdown.py:34-37 | as written, page data with a key `path` makes `render_template` fail with TypeError; the intended render never fails that way |
| Resolver.PageIsIntendedWithoutClash | mockdown/mockdown.py:34-37 | without a `path` or `self` key the page renders as intended |
| Resolver.IntendedPageBindsAllData | mockdown/mockdown.py:28-45 | the intended render fails only where reading data, loading the template or rendering fails, and binds every page key not shadowed by a global or `fake` |
| Resolver.YamlContext | mockdown/mockdown.py:57-58 | a data file renders with `include`, the globals over it, and `fake` seeded from the data file's own path over both |
| Seeds.HexDigest | mockdown/mockdown.py:90 | `hexdigest()` prints two hexadecimal digits per byte |
| Seeds.HexDigestValue | mockdown/mockdown.py:90 | reading the hexadecimal text back gives the digest's big-endian value |
| Seeds.HexDigestRoundTrip | mockdown/mockdown.py:90 | `int(hexdigest, 16)` never fails on a digest and gives its big-endian value |
| Seeds.GenerateSeed | mockdown/mockdown.py:87-90 | the seed depends on the text alone, is the digest's value modulo 10000, and lies in [0, 10000) |
| Seeds.GetFake | mockdown/mockdown.py:77-85 | the fake provider is seeded with the file name's seed |
| Paths.Join | mockdown/mockdown.py:103-109 | a relative path joined under a root ends with `/` and that path |
| Paths.Suffix | mockdown/mockdown.py:111-114 | a suffix is empty, or a dot followed by at least one character and no further dot |
| Paths.Stem | mockdown/mockdown.py:111-114 | the stem followed by the suffix is the name |
| Paths.WithSuffix | mockdown/mockdown.py:111-114 | `with_suffix` fails exactly for an invalid suffix or an empty name |
| Paths.WithSuffixReplacesSuffix | mockdown/mockdown.py:111-114 | `with_suffix` keeps the directory and the stem and the new path's suffix is the given one |
| Paths.WithSuffixIdempotent | mockdown/mockdown.py:111-114 | giving the same suffix twice changes nothing |
| Paths.SplitExt | mocker/__init__.py:64 | `os.path.splitext` splits the path into two parts that concatenate back to it |
| Paths.SplitExtShape | mocker/__init__.py:64 | the extension is empty, or one dot followed by no dot and no separator |
| Paths.Dirname | mocker/__init__.py:45 | `os.path.dirname` is a prefix of the path |
| Paths.DirnameOfChild | mocker/__init__.py:45 | the parent of `d/n` is `d` |
| Paths.DirnameOfBareName | mocker/__init__.py:45 | a path without a separator has an empty parent |
| Mocker.MockIndex | mocker/__init__.py:39-45 | `dirname` is empty for `""` or `"."` and `path + "/"` otherwise; `parent` is `os.path.dirname(path)` |
| Mocker.Mock | mocker/__init__.py:28-37 | 404 when the path (`.` when empty) is missing; an existing directory is indexed before any extension test; an existing `.html` file is rendered; anything else is 404 |
| Mocker.ChildIndexLinksBack | mocker/__init__.py:39-49 | a sub-directory listed on an index page links back to that index as its parent |
| Mocker.ReplaceExt | mocker/__init__.py:61-65 | the result ends with the new extension; a path without an extension gets it appended |
| Mocker.ReplaceExtKeepsRoot | mocker/__init__.py:61-65 | the path is its root and old extension, and the result is that root with the new extension |
| Mocker.SplitExtRootName | mocker/__init__.py:64 | the root `splitext` leaves keeps a final component with a character other than a dot |
| Mocker.SimpleSuffixAppend | mocker/__init__.py:64 | appending a simple extension moves the last `.` to its start and leaves the last `/` where it was |
| Mocker.NameBeforeSuffix | mocker/__init__.py:64 | the root's name is still in place before the appended extension |
| Mocker.SplitExtAppend | mocker/__init__.py:64 | a simple extension appended to such a root is exactly what `splitext` splits off |
| Mocker.SplitExtOfReplaceExt | mocker/__init__.py:61-65 | `splitext` of the result finds the new extension, so replacing it again changes nothing |
| Mocker.ReadArguments | mocker/__init__.py:67-71 | `read_arguments` is `{}` when the `.yml` sibling does not exist |
| Mocker.ReadArgumentsLooksOnlyAtSibling | mocker/__init__.py:67-71 | only the `.yml` sibling matters: disks that agree on it give the same arguments |
| Blueprint.MockIndex | mockdown/__init__.py:42-44 | a non-empty path without a trailing slash is redirected to `"/" + path + "/"`, and only such a path |
| Blueprint.Mock | mockdown/__init__.py:28-40 | 404 for a missing path; an existing directory goes to the index first; `.html` files are rendered, `.yml` files dumped, every other file is 404 |
| Blueprint.MockOnDisk | mockdown/__init__.py:28-40 | with `exists` and `is_dir` of the Mockdown object, a path absent at `Path(root, path)` is 404, a directory there goes to the index, and a file there is rendered exactly for `.html`, dumped exactly for `.yml` and 404 otherwise |
| Blueprint.HtmlIsNotYml | mockdown/__init__.py:33-35 | no path ends with both `.html` and `.yml`, so the order of those two tests is immaterial |
| Blueprint.RedirectSettles | mockdown/__init__.py:42-44 | following the redirect reaches the index itself, with no second redirect |
| Blueprint.UrlFor | mockdown/__init__.py:18-22 | `static` keeps its values; every other endpoint links to the mock route with the single `path` value `endpoint + ".html"`, an `.html` page |
| Blueprint.UrlForReachesPage | mockdown/__init__.py:18-34 | a link made by `url_for` to an existing page is served by rendering that page |
| Blueprint.InstallUrlFor | mockdown/__init__.py:24 | importing the module adds `url_for` to the template globals and changes no other global |
| Scenarios.ExistsExample | tests/test_mockdown.py:5-10 | `exists("a.txt")` is false until the file is written |
| Scenarios.MissingDataFile | tests/test_mockdown.py:12-14 | `read_yaml_file("a.yml")` is `{}` without the file |
| Scenarios.AliceData | tests/test_mockdown.py:16-17 | `a.yml` with `name: Alice` reads as `{"name": "Alice"}` |
| Scenarios.DataFileOfPage | mockdown/mockdown.py:111-114 | `a.html` with suffix `.yml` is `a.yml` |
| Scenarios.NoArgumentsExample | tests/test_mockdown.py:19-21 | `read_arguments("a.html")` is `{}` without `a.yml` |
| Scenarios.ReadArgumentsExample | tests/test_mockdown.py:23-24 | with `a.yml` holding `name: Alice`, `read_arguments("a.html")` is `{"name": "Alice"}` |
| Scenarios.RenderTemplateExample | tests/test_mockdown.py:26-30 | `Hello {{name}}` with `name: Alice` renders to `Hello Alice` |
| Scenarios.PageRenders | mockdown/mockdown.py:28-45 | a page whose data resolves without clashing keys and whose template renders with it is that rendered text |
| Scenarios.FakeExample | tests/test_mockdown.py:32-43 | a data file calling `fake.name()` reads as what the provider returned |
| Scenarios.EmptyDataFileFails | mockdown/mockdown.py:59-60 | an empty data file parses to `None` and `_resolve_includes` fails on it |
| Scenarios.IncludingLoads | mockdown/mockdown.py:57-59 | a data file without template syntax renders to itself and parses to its include list and its own key |
| Scenarios.IncludeExample | mockdown/mockdown.py:69-75 | a data file including `a.yml` and adding `role` reads as both keys |
| Scenarios.IncludesAlice | mockdown/mockdown.py:69-75 | once the included file reads as `name: Alice`, the including file reads as that key and its own |
| Scenarios.AbsoluteDataFile | mockdown/mockdown.py:53-58 | a data file named `/dir/file` exists for `exists` (pathlib keeps the absolute path) but is loaded by Jinja2 from `dir/file` under the root, so with no file there reading it fails with TemplateNotFound |
| Scenarios.MockerReadArgumentsExample | mocker/__init__.py:67-71 | the older server finds `a.yml` beside `a.html`, and `{}` when it is absent |

## Left out

- Jinja2, PyYAML and MD5 are parameters (`Data.Lib`): rendering, parsing and the digest are black boxes, and only the use the core makes of their results is modelled. The UTF-8 encoding before hashing is folded into `md5`.
- `include_function` (mockdown/mockdown.py:62-67) is modelled only as the `include` binding in a data file's context. What it returns is JSON text produced inside Jinja2's rendering, which is not modelled. Two consequences follow. `Lib.render` never sees the disk, so in the model the output of `{{ include(...) }}` in a data file does not depend on the included file. And reading through `include()` is not counted by `fuel`: in the source a data file that calls `include()` on itself recurses until Python raises RecursionError (mockdown/mockdown.py:57, 62-67), which the model does not show.
- Faker's process-global seeding (`Faker.seed`, mockdown/mockdown.py:81-84) is modelled as a provider value carrying its seed, as if each file had its own random state. In the source the state is global. It is shared between threads. It is also shared between a data file and every file it reads through `include()` during the same render: each such read calls `get_fake` and reseeds (mockdown/mockdown.py:57, 65, 81-84), so `fake` values after an `include()` call come from the included file's seed. Neither sharing is modelled.
- `build`, `_find_files` and `get_relative_path` (mockdown/mockdown.py:92-101, 116-144) walk, write and print: file-system I/O outside the data pipeline.
- Flask plumbing is outside the model: `abort`, `redirect`, `make_response`, `render_template("index.html")`, and the directory listings by `glob`/`iterdir` in both `mock_index` functions. Routes return an `Outcome` value; `mock_html` and `yaml.dump` appear only as the outcome that names them.
- Blueprint.Mock: the `print("aborting...")` before a 404 (mockdown/__init__.py:39) writes to the console and is not modelled.
- mockdown/app.py (command line) and setup.py (packaging) are not part of this model.
- `exists` and `is_dir` are lookups in the disk map at `Path(root, path)`. pathlib's own normalisation (`.` and repeated separators), symbolic links and Windows paths are not modelled; paths are taken in the normal form pathlib prints. Jinja2's loader is modelled in `Templates`, except its check for `os.sep`/`os.altsep` other than `/`, which matters only on Windows.
- Resolver.Entries: an `_includes` value that is a mapping is iterated by its keys in Python; this model has no key order for maps, so it treats such a value like other non-iterable values (`IncludesNotIterable`). Numbers, booleans and `None` as `_includes` raise TypeError in Python, as here.
- YAML mapping keys are strings and there are no floats, dates or other YAML types: `Data.Value` covers null, booleans, integers, strings, lists and string-keyed mappings.
- Dict key order (insertion order of the merged result) is not modelled; results are compared as maps.
- Python's recursion limit is a `fuel` depth of include nesting, not a count of stack frames; `Resolver.YamlDataStable` shows it affects nothing but that error.
- Template globals override page data in `_render_template` (mockdown/mockdown.py:43), and `fake` overrides both (line 44); `Resolver.RenderContext` states this precedence, and nothing of it is left out.
- pathlib's `with_suffix` differs between Python versions for names like `..`; the model follows the rule that a name that is empty or `.` is an error.

## Findings

| source | as written | input that shows it | evidently intended | confidence | as-written member | corrected member |
|---|---|---|---|---|---|---|
| mockdown/mockdown.py:34-37 | `render_template` passes the page data as `**kwargs` to `_render_template(self, path, **kwargs)`, so a data key `path` or `self` is a second value for a positional parameter and Python raises TypeError | page `a.html` whose `a.yml` is `path: x` | every key of the page data reaches the template | not executed | Resolver.PathKeyBreaksPage | Resolver.IntendedPageBindsAllData |

`Mockdown.Mockdown.RenderTemplate` follows the code as written (`Resolver.Page`). `Resolver.IntendedPage` is the corrected render, and `Resolver.PageIsIntendedWithoutClash` shows that the two agree on every page without a `path` or `self` key.
