/** Template names as Jinja2's `FileSystemLoader` reads them: the name is
    split on `/`, empty and `.` pieces are dropped, a `..` piece is refused
    (TemplateNotFound), and the rest is joined under the search path. An
    absolute name is therefore looked up under the search path, unlike
    pathlib's `Path(root, name)`. */
module Templates {
  import opened Data
  import opened Paths

  /** `s.split("/")`: the pieces of `s` between separators, in order. */
  function Pieces(s: string): (ps: seq<string>)
    ensures |ps| >= 1
  {
    if s == [] then [""]
    else
      var rest := Pieces(s[1..]);
      if s[0] == '/' then [""] + rest else [[s[0]] + rest[0]] + rest[1..]
  }

  /** `"/".join(ps)`. */
  function JoinPieces(ps: seq<string>): (s: string)
    requires |ps| >= 1
    ensures |ps[0]| <= |s| && s[..|ps[0]|] == ps[0]
  {
    if |ps| == 1 then ps[0] else ps[0] + "/" + JoinPieces(ps[1..])
  }

  /** No piece holds a separator. */
  lemma {:induction false} PiecesHaveNoSeparator(s: string)
    ensures forall k :: 0 <= k < |Pieces(s)| ==> '/' !in Pieces(s)[k]
  {
    if s != [] {
      var rest := Pieces(s[1..]);
      PiecesHaveNoSeparator(s[1..]);
      if s[0] != '/' {
        assert '/' !in [s[0]] + rest[0] by { assert rest[0] == rest[0]; }
      }
    }
  }

  /** A character before the first piece joins that piece. */
  lemma JoinPiecesGrowsFirst(c: char, ps: seq<string>)
    requires |ps| >= 1
    ensures JoinPieces([[c] + ps[0]] + ps[1..]) == [c] + JoinPieces(ps)
  {
    var qs := [[c] + ps[0]] + ps[1..];
    if |ps| > 1 {
      var tail := JoinPieces(ps[1..]);
      assert qs[1..] == ps[1..];
      assert JoinPieces(qs) == ([c] + ps[0]) + "/" + tail;
      assert JoinPieces(ps) == ps[0] + "/" + tail;
      Regroup([c], ps[0], "/", tail);
    } else {
      assert qs == [[c] + ps[0]];
    }
  }

  lemma Regroup(a: string, b: string, c: string, d: string)
    ensures (a + b) + c + d == a + (b + c + d)
  {
  }

  /** Joining the pieces of a path gives the path back. */
  lemma {:induction false} JoinPiecesOfPieces(s: string)
    ensures JoinPieces(Pieces(s)) == s
  {
    if s != [] {
      var rest := Pieces(s[1..]);
      JoinPiecesOfPieces(s[1..]);
      if s[0] == '/' {
        assert ([""] + rest)[1..] == rest;
      } else {
        JoinPiecesGrowsFirst(s[0], rest);
      }
      assert s == [s[0]] + s[1..];
    }
  }

  /** A name without separators is one piece. */
  lemma {:induction false} PiecesOfBareName(p: string)
    requires '/' !in p
    ensures Pieces(p) == [p]
  {
    if p != [] {
      PiecesOfBareName(p[1..]);
      assert [p[0]] + p[1..] == p;
    }
  }

  /** A separator-free piece followed by a separator starts the pieces. */
  lemma {:induction false} PiecesOfPrefixed(p: string, rest: string)
    requires '/' !in p
    ensures Pieces(p + "/" + rest) == [p] + Pieces(rest)
  {
    var s := p + "/" + rest;
    if p == [] {
      assert s == "/" + rest && s[1..] == rest;
    } else {
      assert s[1..] == p[1..] + "/" + rest;
      PiecesOfPrefixed(p[1..], rest);
      assert [p[0]] + p[1..] == p;
    }
  }

  /** Splitting joined separator-free pieces gives the pieces back. */
  lemma {:induction false} PiecesOfJoinPieces(ps: seq<string>)
    requires |ps| >= 1
    requires forall k :: 0 <= k < |ps| ==> '/' !in ps[k]
    ensures Pieces(JoinPieces(ps)) == ps
  {
    if |ps| == 1 {
      PiecesOfBareName(ps[0]);
    } else {
      PiecesOfJoinPieces(ps[1..]);
      PiecesOfPrefixed(ps[0], JoinPieces(ps[1..]));
      assert ps == [ps[0]] + ps[1..];
    }
  }

  /** The pieces of `"/" + s` are an empty piece and the pieces of `s`. */
  lemma PiecesOfAbsolute(s: string)
    ensures Pieces("/" + s) == [""] + Pieces(s)
  {
    assert ("/" + s)[1..] == s;
  }

  /** A piece the loader keeps: not empty, not `.` and not `..`. */
  predicate PlainPiece(p: string) {
    p != "" && p != "." && p != ".."
  }

  /** Jinja2's `split_template_path`: the pieces without the empty and `.`
      ones, or None (TemplateNotFound) when a piece is `..`. */
  function LoaderPieces(ps: seq<string>): (r: Option<seq<string>>)
    ensures r.Some? <==> forall k :: 0 <= k < |ps| ==> ps[k] != ".."
    ensures r.Some? ==> |r.value| <= |ps|
    ensures r.Some? ==> forall k :: 0 <= k < |r.value| ==> PlainPiece(r.value[k]) && r.value[k] in ps
  {
    if ps == [] then Some([])
    else
      var rest := LoaderPieces(ps[1..]);
      if ps[0] == ".." || rest.None? then None
      else if ps[0] == "" || ps[0] == "." then rest
      else Some([ps[0]] + rest.value)
  }

  /** A name made of plain pieces keeps them all. */
  lemma {:induction false} LoaderKeepsPlainPieces(ps: seq<string>)
    requires forall k :: 0 <= k < |ps| ==> PlainPiece(ps[k])
    ensures LoaderPieces(ps) == Some(ps)
  {
    if ps != [] {
      LoaderKeepsPlainPieces(ps[1..]);
      assert ps == [ps[0]] + ps[1..];
    }
  }

  /** A leading empty piece is dropped. */
  lemma LoaderDropsLeadingEmpty(ps: seq<string>)
    ensures LoaderPieces([""] + ps) == LoaderPieces(ps)
  {
    assert ([""] + ps)[1..] == ps;
  }

  /** The file `FileSystemLoader(searchPath)` opens for template `name`:
      `os.path.join(searchPath, *pieces)`, or None when a piece is `..`. */
  function TemplateFile(searchPath: string, name: string): (r: Option<string>)
    ensures r.Some? <==> forall k :: 0 <= k < |Pieces(name)| ==> Pieces(name)[k] != ".."
  {
    if LoaderPieces(Pieces(name)).None? then
      assert exists k :: 0 <= k < |Pieces(name)| && Pieces(name)[k] == "..";
      None
    else if LoaderPieces(Pieces(name)).value == [] then Some(searchPath)
    else Some(Join(searchPath, JoinPieces(LoaderPieces(Pieces(name)).value)))
  }

  /** The loader never leaves its search path: the file it opens starts with
      the search path, and is the search path itself or the search path
      joined with a relative path of plain pieces, none holding a `/`. */
  lemma TemplateFileUnderSearchPath(searchPath: string, name: string)
    requires searchPath != ""
    requires TemplateFile(searchPath, name).Some?
    ensures var f := TemplateFile(searchPath, name).value;
      |searchPath| <= |f| && f[..|searchPath|] == searchPath &&
      (f == searchPath ||
       exists kept: seq<string> :: |kept| >= 1 && (forall k :: 0 <= k < |kept| ==> PlainPiece(kept[k]) && '/' !in kept[k])
         && f == Join(searchPath, JoinPieces(kept)))
  {
    var kept := LoaderPieces(Pieces(name)).value;
    if kept != [] {
      PiecesHaveNoSeparator(name);
      assert kept[0] in Pieces(name);
      var rel := JoinPieces(kept);
      assert rel[..|kept[0]|] == kept[0];
      assert rel[0] == kept[0][0];
      assert Join(searchPath, rel)[..|searchPath|] == searchPath;
    }
  }

  /** A relative name made of plain pieces is opened at `Path(searchPath, name)`. */
  lemma PlainTemplateName(searchPath: string, name: string)
    requires forall k :: 0 <= k < |Pieces(name)| ==> PlainPiece(Pieces(name)[k])
    ensures TemplateFile(searchPath, name) == Some(Join(searchPath, name))
  {
    LoaderKeepsPlainPieces(Pieces(name));
    JoinPiecesOfPieces(name);
  }

  /** A bare file name such as `a.yml` is opened at `Path(searchPath, name)`. */
  lemma BareTemplateName(searchPath: string, name: string)
    requires '/' !in name && PlainPiece(name)
    ensures TemplateFile(searchPath, name) == Some(Join(searchPath, name))
  {
    PiecesOfBareName(name);
    PlainTemplateName(searchPath, name);
  }

  /** A leading separator is ignored: an absolute name is looked up under
      the search path, not at the absolute path. */
  lemma AbsoluteTemplateName(searchPath: string, name: string)
    ensures TemplateFile(searchPath, "/" + name) == TemplateFile(searchPath, name)
  {
    PiecesOfAbsolute(name);
    LoaderDropsLeadingEmpty(Pieces(name));
  }

  /** An absolute name of two plain pieces, such as `/etc/x.yml`, is opened
      under the search path. */
  lemma AbsoluteTwoPieceName(searchPath: string, dir: string, file: string)
    requires '/' !in dir && PlainPiece(dir)
    requires '/' !in file && PlainPiece(file)
    ensures TemplateFile(searchPath, "/" + (dir + "/" + file)) == Some(Join(searchPath, dir + "/" + file))
  {
    var rel := dir + "/" + file;
    PiecesOfPrefixed(dir, file);
    PiecesOfBareName(file);
    PlainTemplateName(searchPath, rel);
    AbsoluteTemplateName(searchPath, rel);
  }
}
