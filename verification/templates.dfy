/** Expansion of the requested template names into template files
    (`get_templates`). */
module Templates {
  import opened Results
  import opened Paths
  import opened Errors

  const PreviewToken := "preview"
  const CssToken := "css"

  /** The packaged template file each shorthand stands for. */
  const Shorthands: map<string, string> := map[
    "preview" := "fontcustom-preview.html",
    "css" := "fontcustom.css",
    "scss" := "_fontcustom.scss",
    "bootstrap" := "fontcustom-bootstrap.css",
    "bootstrap-scss" := "_fontcustom-bootstrap.scss",
    "bootstrap-ie7" := "fontcustom-bootstrap-ie7.css",
    "bootstrap-ie7-scss" := "_fontcustom-bootstrap-ie7.scss"
  ]

  /** A packaged template file, under the `templates` directory of the
      library root. */
  function PackagedPath(lib: Path, file: string): Path {
    Join(Join(lib, "templates"), file)
  }

  function Elements<T>(s: seq<T>): set<T> {
    set x | x in s
  }

  predicate Distinct<T(==)>(s: seq<T>) {
    forall i, j :: 0 <= i < j < |s| ==> s[i] != s[j]
  }

  /** The tokens to resolve: the requested ones, plus `css` when `preview`
      is requested without it. */
  function WithDependencies(tokens: seq<string>): (r: seq<string>)
    ensures Elements(r) == Elements(tokens) + (if PreviewToken in tokens then {CssToken} else {})
    ensures |r| >= |tokens| && r[..|tokens|] == tokens
  {
    if PreviewToken in tokens && CssToken !in tokens then tokens + [CssToken] else tokens
  }

  /** The file a token would stand for: a packaged template for a
      shorthand, otherwise the file of that name in the custom template
      directory, if there is one. */
  function Candidate(token: string, customDir: Option<Path>, lib: Path): Option<Path> {
    if token in Shorthands then Some(PackagedPath(lib, Shorthands[token]))
    else if customDir.Some? then Some(Join(customDir.value, token))
    else None
  }

  /** A token is found when it is a shorthand or names an existing file in
      the custom template directory. */
  predicate Found(token: string, customDir: Option<Path>, lib: Path, fs: FileSystem) {
    token in Shorthands || (Candidate(token, customDir, lib).Some? && IsFile(fs, Candidate(token, customDir, lib).value))
  }

  /** The file for one token. */
  function TokenPath(token: string, customDir: Option<Path>, lib: Path, fs: FileSystem): (r: Result<Path, Error>)
    ensures r.Ok? <==> Found(token, customDir, lib, fs)
    ensures r.Ok? ==> Candidate(token, customDir, lib) == Some(r.value)
    ensures r.Err? ==> r.error == TemplateNotFound(token)
  {
    if Found(token, customDir, lib, fs) then Ok(Candidate(token, customDir, lib).value)
    else Err(TemplateNotFound(token))
  }

  /** The files for a list of tokens, in order; the first token that is not
      found fails the whole list. */
  function TokenPaths(tokens: seq<string>, customDir: Option<Path>, lib: Path, fs: FileSystem): (r: Result<seq<Path>, Error>)
    ensures r.Ok? <==> forall i :: 0 <= i < |tokens| ==> Found(tokens[i], customDir, lib, fs)
    ensures r.Ok? ==> |r.value| == |tokens|
    ensures r.Ok? ==> forall i :: 0 <= i < |tokens| ==> Candidate(tokens[i], customDir, lib) == Some(r.value[i])
    ensures r.Err? ==>
      exists i :: (&& 0 <= i < |tokens|
                   && r.error == TemplateNotFound(tokens[i])
                   && !Found(tokens[i], customDir, lib, fs)
                   && forall k :: 0 <= k < i ==> Found(tokens[k], customDir, lib, fs))
  {
    if |tokens| == 0 then Ok([])
    else
      var first :- TokenPath(tokens[0], customDir, lib, fs);
      var rest := TokenPaths(tokens[1..], customDir, lib, fs);
      assert forall i :: 1 <= i < |tokens| ==> tokens[i] == tokens[1..][i - 1];
      if rest.Err? then rest
      else Ok([first] + rest.value)
  }

  /** `ps` without repetitions, keeping the first occurrence of each path. */
  function Dedup<T(==)>(ps: seq<T>): (r: seq<T>)
    ensures Elements(r) == Elements(ps)
    ensures Distinct(r)
  {
    if |ps| == 0 then []
    else
      var init := ps[..|ps| - 1];
      var last := ps[|ps| - 1];
      assert ps == init + [last];
      var d := Dedup(init);
      assert Elements(ps) == Elements(init) + {last};
      assert Elements(d + [last]) == Elements(d) + {last};
      if last in d then d else d + [last]
  }

  /** The files the requested tokens stand for, with the stylesheet
      template added whenever the preview is requested. */
  function RequestedFiles(tokens: seq<string>, customDir: Option<Path>, lib: Path): set<Path> {
    (set t | t in tokens && Candidate(t, customDir, lib).Some? :: Candidate(t, customDir, lib).value)
    + (if PreviewToken in tokens then {PackagedPath(lib, Shorthands[CssToken])} else {})
  }

  /** The template files for the requested tokens: each file once, the
      stylesheet template whenever the preview is requested, and a
      TemplateNotFound error naming the first token that is neither a
      shorthand nor a file in the custom template directory. */
  function GetTemplates(tokens: seq<string>, customDir: Option<Path>, lib: Path, fs: FileSystem): (r: Result<seq<Path>, Error>)
    ensures r.Ok? <==> forall t :: t in tokens ==> Found(t, customDir, lib, fs)
    ensures r.Ok? ==> Distinct(r.value)
    ensures r.Ok? ==>
      Elements(r.value) == RequestedFiles(tokens, customDir, lib)
    ensures r.Err? ==>
      r.error.TemplateNotFound? && r.error.name in tokens && !Found(r.error.name, customDir, lib, fs)
  {
    var expanded := WithDependencies(tokens);
    ExpandedFound(tokens, customDir, lib, fs);
    var paths :- TokenPaths(expanded, customDir, lib, fs);
    ExpandedFiles(tokens, customDir, lib, paths);
    Ok(Dedup(paths))
  }

  /** The added stylesheet token is always found, so the expanded tokens are
      all found exactly when the requested ones are. */
  lemma ExpandedFound(tokens: seq<string>, customDir: Option<Path>, lib: Path, fs: FileSystem)
    ensures var w := WithDependencies(tokens);
      (forall i :: 0 <= i < |w| ==> Found(w[i], customDir, lib, fs))
      <==> (forall t :: t in tokens ==> Found(t, customDir, lib, fs))
    ensures forall t :: t in WithDependencies(tokens) && !Found(t, customDir, lib, fs) ==> t in tokens
  {
    var w := WithDependencies(tokens);
    assert Found(CssToken, customDir, lib, fs);
    assert forall t :: t in w ==> t in Elements(w);
    assert forall t :: t in tokens ==> t in Elements(tokens);
  }

  /** The files of the expanded tokens are the requested files. */
  lemma ExpandedFiles(tokens: seq<string>, customDir: Option<Path>, lib: Path, paths: seq<Path>)
    requires var w := WithDependencies(tokens);
      |paths| == |w| && forall i :: 0 <= i < |w| ==> Candidate(w[i], customDir, lib) == Some(paths[i])
    ensures Elements(paths) == RequestedFiles(tokens, customDir, lib)
  {
    var w := WithDependencies(tokens);
    var css := PackagedPath(lib, Shorthands[CssToken]);
    assert Candidate(CssToken, customDir, lib) == Some(css);
    forall p | p in Elements(paths)
      ensures p in RequestedFiles(tokens, customDir, lib)
    {
      var i :| 0 <= i < |paths| && paths[i] == p;
      assert w[i] in Elements(w);
      if w[i] !in tokens {
        assert w[i] == CssToken && PreviewToken in tokens;
      }
    }
    forall p | p in RequestedFiles(tokens, customDir, lib)
      ensures p in Elements(paths)
    {
      if t :| t in tokens && Candidate(t, customDir, lib).Some? && p == Candidate(t, customDir, lib).value {
        var i :| 0 <= i < |tokens| && tokens[i] == t;
        assert w[i] == t;
        assert paths[i] == p;
      } else {
        assert p == css && PreviewToken in tokens;
        assert CssToken in Elements(w);
        var i :| 0 <= i < |w| && w[i] == CssToken;
        assert paths[i] == p;
      }
    }
  }

  /** Requesting the preview always yields the preview template and the
      stylesheet template it depends on. */
  lemma PreviewBringsStylesheet(tokens: seq<string>, customDir: Option<Path>, lib: Path, fs: FileSystem)
    requires PreviewToken in tokens
    requires forall t :: t in tokens ==> Found(t, customDir, lib, fs)
    ensures GetTemplates(tokens, customDir, lib, fs).Ok?
    ensures var files := GetTemplates(tokens, customDir, lib, fs).value;
      PackagedPath(lib, "fontcustom-preview.html") in files && PackagedPath(lib, "fontcustom.css") in files
  {
    var files := GetTemplates(tokens, customDir, lib, fs).value;
    assert Candidate(PreviewToken, customDir, lib) == Some(PackagedPath(lib, "fontcustom-preview.html"));
    assert PackagedPath(lib, "fontcustom-preview.html") in Elements(files);
    assert PackagedPath(lib, "fontcustom.css") in Elements(files);
  }

  /** Distinct packaged files live at distinct paths. */
  lemma PackagedPathInjective(lib: Path, a: string, b: string)
    requires PackagedPath(lib, a) == PackagedPath(lib, b)
    ensures a == b
  {
    var prefix := Join(lib, "templates") + "/";
    assert PackagedPath(lib, a) == prefix + a;
    assert PackagedPath(lib, b) == prefix + b;
    assert (prefix + a)[|prefix|..] == a;
    assert (prefix + b)[|prefix|..] == b;
  }

  /** A sequence without repetitions holds each of its elements once. */
  lemma {:induction false} DistinctCount<T>(s: seq<T>, x: T)
    requires Distinct(s)
    ensures multiset(s)[x] == if x in s then 1 else 0
  {
    if |s| > 0 {
      var init := s[..|s| - 1];
      assert s == init + [s[|s| - 1]];
      assert Distinct(init);
      DistinctCount(init, x);
      assert s[|s| - 1] !in init;
    }
  }

  /** Two sequences without repetitions that hold the same elements are
      permutations of each other. */
  lemma SameElementsPermutation<T>(a: seq<T>, b: seq<T>)
    requires Distinct(a) && Distinct(b) && Elements(a) == Elements(b)
    ensures multiset(a) == multiset(b)
  {
    forall x
      ensures multiset(a)[x] == multiset(b)[x]
    {
      DistinctCount(a, x);
      DistinctCount(b, x);
      assert x in a <==> x in Elements(a);
      assert x in b <==> x in Elements(b);
    }
  }

  /** The seven shorthands, and the packaged file each stands for. */
  const AllTokens := ["preview", "css", "scss", "bootstrap", "bootstrap-scss", "bootstrap-ie7", "bootstrap-ie7-scss"]
  const AllFiles := ["fontcustom-preview.html", "fontcustom.css", "_fontcustom.scss", "fontcustom-bootstrap.css",
                     "_fontcustom-bootstrap.scss", "fontcustom-bootstrap-ie7.css", "_fontcustom-bootstrap-ie7.scss"]

  lemma ShorthandTable()
    ensures |AllTokens| == |AllFiles| == 7
    ensures forall i :: 0 <= i < 7 ==> AllTokens[i] in Shorthands && Shorthands[AllTokens[i]] == AllFiles[i]
    ensures Distinct(AllFiles)
  {
  }

  /** The packaged files of all seven shorthands, in table order. */
  function PackagedFiles(lib: Path): (r: seq<Path>)
    ensures |r| == 7 && forall i :: 0 <= i < 7 ==> r[i] == PackagedPath(lib, AllFiles[i])
  {
    seq(7, i requires 0 <= i < 7 => PackagedPath(lib, AllFiles[i]))
  }

  lemma PackagedFilesDistinct(lib: Path)
    ensures Distinct(PackagedFiles(lib))
  {
    ShorthandTable();
    var expected := PackagedFiles(lib);
    forall i, j | 0 <= i < j < 7
      ensures expected[i] != expected[j]
    {
      if expected[i] == expected[j] {
        PackagedPathInjective(lib, AllFiles[i], AllFiles[j]);
      }
    }
  }

  lemma AllShorthandsRequest(customDir: Option<Path>, lib: Path, fs: FileSystem)
    ensures forall t :: t in AllTokens ==> Found(t, customDir, lib, fs)
    ensures RequestedFiles(AllTokens, customDir, lib) == Elements(PackagedFiles(lib))
  {
    ShorthandTable();
    var expected := PackagedFiles(lib);
    assert forall i :: 0 <= i < 7 ==> Candidate(AllTokens[i], customDir, lib) == Some(expected[i]);
    forall p | p in Elements(expected)
      ensures p in RequestedFiles(AllTokens, customDir, lib)
    {
      var i :| 0 <= i < 7 && expected[i] == p;
      assert AllTokens[i] in AllTokens;
    }
    forall p | p in RequestedFiles(AllTokens, customDir, lib)
      ensures p in Elements(expected)
    {
      if p == PackagedPath(lib, Shorthands[CssToken]) {
        assert p == expected[1];
      } else {
        var t :| t in AllTokens && Candidate(t, customDir, lib).Some? && p == Candidate(t, customDir, lib).value;
        var i :| 0 <= i < 7 && AllTokens[i] == t;
        assert p == expected[i];
      }
    }
  }

  /** All seven shorthands together expand to the seven packaged templates,
      in some order. */
  lemma AllShorthands(customDir: Option<Path>, lib: Path, fs: FileSystem)
    ensures var r := GetTemplates(AllTokens, customDir, lib, fs);
      && r.Ok?
      && multiset(r.value) == multiset([
           PackagedPath(lib, "fontcustom-preview.html"),
           PackagedPath(lib, "fontcustom.css"),
           PackagedPath(lib, "_fontcustom.scss"),
           PackagedPath(lib, "fontcustom-bootstrap.css"),
           PackagedPath(lib, "_fontcustom-bootstrap.scss"),
           PackagedPath(lib, "fontcustom-bootstrap-ie7.css"),
           PackagedPath(lib, "_fontcustom-bootstrap-ie7.scss")])
  {
    AllShorthandsRequest(customDir, lib, fs);
    PackagedFilesDistinct(lib);
    var r := GetTemplates(AllTokens, customDir, lib, fs);
    SameElementsPermutation(r.value, PackagedFiles(lib));
    PackagedFilesListed(lib);
  }

  lemma PackagedFilesListed(lib: Path)
    ensures PackagedFiles(lib) == [
           PackagedPath(lib, "fontcustom-preview.html"),
           PackagedPath(lib, "fontcustom.css"),
           PackagedPath(lib, "_fontcustom.scss"),
           PackagedPath(lib, "fontcustom-bootstrap.css"),
           PackagedPath(lib, "_fontcustom-bootstrap.scss"),
           PackagedPath(lib, "fontcustom-bootstrap-ie7.css"),
           PackagedPath(lib, "_fontcustom-bootstrap-ie7.scss")]
  {
  }

  /** A name that is not a shorthand resolves to the file of that name in the
      custom template directory. */
  lemma CustomTemplate(token: string, dir: Path, lib: Path, fs: FileSystem)
    requires token !in Shorthands
    requires IsFile(fs, Join(dir, token))
    ensures GetTemplates([token], Some(dir), lib, fs) == Ok([Join(dir, token)])
  {
    assert TokenPath(token, Some(dir), lib, fs) == Ok(Join(dir, token));
    assert TokenPaths([], Some(dir), lib, fs) == Ok([]);
    var r := TokenPaths([token], Some(dir), lib, fs);
    assert [token][1..] == [];
    assert r.Ok?;
    assert Candidate([token][0], Some(dir), lib) == Some(r.value[0]);
    assert r.value == [r.value[0]];
    assert r == Ok([Join(dir, token)]);
    assert Dedup([Join(dir, token)]) == [Join(dir, token)];
  }

  /** A name that is neither a shorthand nor a file in the custom template
      directory fails the request, even after a valid shorthand, and the
      message names it after "couldn't find". */
  lemma MissingTemplate(token: string, dir: Path, lib: Path, fs: FileSystem)
    requires token !in Shorthands
    requires !IsFile(fs, Join(dir, token))
    ensures GetTemplates([CssToken, token], Some(dir), lib, fs) == Err(TemplateNotFound(token))
    ensures MatchesGap(Message(TemplateNotFound(token)), CouldNotFind, token)
  {
    var tokens := [CssToken, token];
    assert WithDependencies(tokens) == tokens;
    assert tokens[1..] == [token];
    TemplateMessageNamesToken(token);
  }
}
