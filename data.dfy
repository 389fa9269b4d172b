/** Values shared by every part of the model: parsed YAML data, the file
    system as the core sees it, the errors the core can raise, and the
    foreign libraries (MD5, Jinja2, PyYAML) it calls as black boxes. */
module Data {

  datatype Option<T> = None | Some(value: T)

  /** A parsed YAML value, as `yaml.safe_load` returns it (mapping keys are strings). */
  datatype Value =
    | Null
    | Bool(b: bool)
    | Int(i: int)
    | Str(s: string)
    | List(items: seq<Value>)
    | Dict(entries: map<string, Value>)

  /** What a path names on disk. */
  datatype Entry = Directory | File(text: string)

  /**
   * The file system: every existing path and what it names. The `Mockdown`
   * object looks paths up joined under its root; the older server looks them
   * up as given, relative to the working directory.
   */
  type Disk = map<string, Entry>

  /** The exceptions the modelled code raises or lets through. */
  datatype Error =
    | InvalidSuffix(suffix: string)     // pathlib: ValueError for a bad suffix
    | EmptyName(path: string)           // pathlib: ValueError, the path has an empty name
    | TemplateNotFound(name: string)    // Jinja2: no file with that name under the search path
    | RenderFailed(name: string)        // Jinja2: syntax error or failing expression
    | ParseFailed(name: string)         // PyYAML: the rendered text is not YAML
    | NotAMapping(name: string)         // `data.pop` on a document that is not a mapping
    | IncludesNotIterable               // `for path in includes` on a value that cannot be iterated
    | BadIncludeEntry                   // an include entry that is not a path string
    | RecursionLimit                    // Python's RecursionError: includes nested too deeply
    | DuplicateArgument                 // TypeError: a keyword argument given twice
    | IsADirectory(path: string)        // `open` on a directory

  datatype Result<T> = Ok(value: T) | Err(error: Error)

  newtype byte = b: int | 0 <= b < 256

  /** An MD5 digest: sixteen bytes. */
  type Digest = d: seq<byte> | |d| == 16 witness seq(16, _ => 0 as byte)

  /** What a template is rendered with: a data value, a fake-data provider
      seeded with `seed`, the `include` function, or another callable global
      (such as `url_for`) known by its name. */
  datatype Binding =
    | Data(value: Value)
    | Fake(seed: nat)
    | Include
    | Callable(name: string)

  type Context = map<string, Binding>

  /** The foreign libraries: the MD5 digest of a text's UTF-8 encoding,
      rendering a template text with a context (None when Jinja2 raises),
      and parsing YAML text (None when PyYAML raises). */
  datatype Lib = Lib(
    md5: string -> Digest,
    render: (string, Context) -> Option<string>,
    load: string -> Option<Value>)

  /** Everything outside the Mockdown object that its operations depend on. */
  datatype World = World(disk: Disk, lib: Lib)
}
