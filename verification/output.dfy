/** Resolution of the `output` option into the directories generated files
    go to (`get_output_paths`). */
module Output {
  import opened Results
  import opened Options
  import opened Paths
  import opened Errors
  import Input

  const Fonts := "fonts"
  const Css := "css"
  const Preview := "preview"

  /** The three roles every resolution yields; any other table key is an
      extra, caller-declared role. */
  predicate IsStandardRole(role: string) {
    role == Fonts || role == Css || role == Preview
  }

  /** An ordered list of (role, path) pairs: the roles to be produced, in
      the order their paths are checked. */
  type Plan = seq<(string, Path)>

  /** All three standard roles at one path. */
  function Uniform(p: Path): Plan {
    [(Fonts, p), (Css, p), (Preview, p)]
  }

  /** The extra roles of an output table, in table order, each expanded
      against the project root. */
  function Extras(t: seq<(string, string)>, root: Path): (r: Plan)
    ensures forall i :: 0 <= i < |r| ==> !IsStandardRole(r[i].0)
    ensures forall role :: !IsStandardRole(role) ==>
      match Lookup(t, role)
      case None => Lookup(r, role).None?
      case Some(v) => Lookup(r, role) == Some(Expand(root, v))
  {
    if |t| == 0 then []
    else if IsStandardRole(t[0].0) then Extras(t[1..], root)
    else [(t[0].0, Expand(root, t[0].1))] + Extras(t[1..], root)
  }

  /** The roles an `output` option asks for. No option means the font
      name under the project root; a string serves all three roles; a
      table must name `fonts`, lets `css` and `preview` default to it, and
      passes any other key through as an extra role. */
  function PlanOutput(output: Option<Value>, root: Path, fontName: string): (r: Result<Plan, Error>)
    ensures r.Ok? ==> |r.value| >= 3 && r.value[0].0 == Fonts && r.value[1].0 == Css && r.value[2].0 == Preview
    ensures r.Err? ==> r.error == InvalidOutputSpec
  {
    match output
    case None => Ok(Uniform(Join(root, fontName)))
    case Some(Text(s)) => Ok(Uniform(Expand(root, s)))
    case Some(Table(t)) =>
      (match Lookup(t, Fonts)
       case None => Err(InvalidOutputSpec)
       case Some(f) =>
         var fonts := Expand(root, f);
         var css := match Lookup(t, Css) case Some(c) => Expand(root, c) case None => fonts;
         var preview := match Lookup(t, Preview) case Some(p) => Expand(root, p) case None => fonts;
         Ok([(Fonts, fonts), (Css, css), (Preview, preview)] + Extras(t, root)))
    case Some(Names(_)) => Err(InvalidOutputSpec)
  }

  /** The first planned path that exists as a file, if any. */
  function FirstFile(fs: FileSystem, plan: Plan): (r: Option<Path>)
    ensures r.None? <==> forall i :: 0 <= i < |plan| ==> !IsFile(fs, plan[i].1)
    ensures r.Some? ==> IsFile(fs, r.value)
    ensures r.Some? ==>
      exists i :: (0 <= i < |plan| && plan[i].1 == r.value && forall k :: 0 <= k < i ==> !IsFile(fs, plan[k].1))
  {
    if |plan| == 0 then None
    else if IsFile(fs, plan[0].1) then Some(plan[0].1)
    else
      var rest := FirstFile(fs, plan[1..]);
      assert forall k :: 1 <= k < |plan| ==> plan[k] == plan[1..][k - 1];
      rest
  }

  /** The role-to-path map of a plan: each role maps to its first path. */
  function ToPathSet(plan: Plan): (m: PathSet)
    ensures forall role :: role in m <==> Lookup(plan, role).Some?
    ensures forall role :: role in m ==> Some(m[role]) == Lookup(plan, role)
  {
    if |plan| == 0 then map[]
    else ToPathSet(plan[1..])[plan[0].0 := plan[0].1]
  }

  /** The resolved output roles. Every path that already exists must be a
      directory; paths that do not exist yet are fine. */
  function ResolveOutput(output: Option<Value>, root: Path, fontName: string, fs: FileSystem): (r: Result<PathSet, Error>)
    ensures r.Ok? ==> Fonts in r.value && Css in r.value && Preview in r.value
    ensures r.Ok? ==> forall role :: role in r.value ==> !IsFile(fs, r.value[role])
    ensures r.Err? && r.error.InvalidOutputPath? ==> IsFile(fs, r.error.path)
    ensures r.Err? ==> r.error.InvalidOutputSpec? || r.error.InvalidOutputPath?
  {
    var plan :- PlanOutput(output, root, fontName);
    match FirstFile(fs, plan)
    case Some(p) => Err(InvalidOutputPath(p))
    case None => Ok(ToPathSet(plan))
  }

  /** A table output: `fonts` is the expanded `fonts` entry; `css` and
      `preview` are their own expanded entries when given and the fonts
      path otherwise; every other key of the table becomes a role of its
      own at its expanded value, and no role appears that the table did not
      ask for. */
  lemma {:induction false} OutputTableRoles(t: Dict, root: Path, fontName: string, fs: FileSystem)
    ensures ResolveOutput(Some(Table(t)), root, fontName, fs).Ok? ==> Lookup(t, Fonts).Some?
    ensures ResolveOutput(Some(Table(t)), root, fontName, fs).Ok? ==>
      var paths := ResolveOutput(Some(Table(t)), root, fontName, fs).value;
      var fonts := Expand(root, Lookup(t, Fonts).value);
      && paths[Fonts] == fonts
      && paths[Css] == (match Lookup(t, Css) case Some(c) => Expand(root, c) case None => fonts)
      && paths[Preview] == (match Lookup(t, Preview) case Some(p) => Expand(root, p) case None => fonts)
      && (forall role :: !IsStandardRole(role) ==> (role in paths <==> Lookup(t, role).Some?))
      && (forall role :: !IsStandardRole(role) && Lookup(t, role).Some? ==>
            paths[role] == Expand(root, Lookup(t, role).value))
  {
    if ResolveOutput(Some(Table(t)), root, fontName, fs).Ok? {
      var plan := PlanOutput(Some(Table(t)), root, fontName).value;
      var head := plan[..3];
      var extras := Extras(t, root);
      assert plan == head + extras;
      forall role | !IsStandardRole(role)
        ensures Lookup(plan, role) == Lookup(extras, role)
      {
        LookupConcat(head, extras, role);
      }
      UniformLookup(head);
      LookupConcat(head, extras, Fonts);
      LookupConcat(head, extras, Css);
      LookupConcat(head, extras, Preview);
    }
  }

  /** Looking up a standard role in a three-entry plan head finds its entry. */
  lemma UniformLookup(head: Plan)
    requires |head| == 3 && head[0].0 == Fonts && head[1].0 == Css && head[2].0 == Preview
    ensures Lookup(head, Fonts) == Some(head[0].1)
    ensures Lookup(head, Css) == Some(head[1].1)
    ensures Lookup(head, Preview) == Some(head[2].1)
  {
    LookupEntry(head, 0);
    LookupEntry(head, 1);
    LookupEntry(head, 2);
  }

  /** A table output without a `fonts` key, or an output that is a list,
      is rejected as an invalid specification; nothing else is. */
  lemma {:induction false} OutputSpecError(output: Option<Value>, root: Path, fontName: string, fs: FileSystem)
    ensures ResolveOutput(output, root, fontName, fs) == Err(InvalidOutputSpec) <==>
      match output
      case Some(Table(t)) => Lookup(t, Fonts).None?
      case Some(Names(_)) => true
      case _ => false
  {
  }

  /** A string output resolves exactly like a table naming only `fonts`,
      so `css` and `preview` share the fonts path. */
  lemma {:induction false} OutputStringIsFontsTable(s: string, root: Path, fontName: string, fs: FileSystem)
    ensures ResolveOutput(Some(Text(s)), root, fontName, fs)
         == ResolveOutput(Some(Table([(Fonts, s)])), root, fontName, fs)
  {
    var t: Dict := [(Fonts, s)];
    assert Lookup(t, Fonts) == Some(s);
    assert Lookup(t, Css) == None;
    assert Lookup(t, Preview) == None;
    assert Extras(t[1..], root) == [];
    assert Extras(t, root) == [];
    var f := Expand(root, s);
    assert [(Fonts, f), (Css, f), (Preview, f)] + [] == Uniform(f);
    assert PlanOutput(Some(Table(t)), root, fontName) == PlanOutput(Some(Text(s)), root, fontName);
  }

  /** Without an `output` option every standard role is the font name under
      the project root, whatever the font name is. */
  lemma {:induction false} OutputDefault(root: Path, fontName: string, fs: FileSystem)
    ensures ResolveOutput(None, root, fontName, fs).Ok? ==>
      var paths := ResolveOutput(None, root, fontName, fs).value;
      paths[Fonts] == Join(root, fontName) && paths[Css] == paths[Fonts] && paths[Preview] == paths[Fonts]
  {
    UniformLookup(Uniform(Join(root, fontName)));
  }

  /** For a relative font name, leaving `output` out is the same as giving
      the font name as the output string. */
  lemma {:induction false} OutputDefaultIsFontName(root: Path, fontName: string, fs: FileSystem)
    requires !IsAbsolute(fontName)
    ensures ResolveOutput(None, root, fontName, fs) == ResolveOutput(Some(Text(fontName)), root, fontName, fs)
  {
  }

  /** Resolution fails on a path exactly when some planned role's path
      exists as a file, and it names such a path. */
  lemma {:induction false} OutputPathError(output: Option<Value>, root: Path, fontName: string, fs: FileSystem)
    requires PlanOutput(output, root, fontName).Ok?
    ensures var plan := PlanOutput(output, root, fontName).value;
      var r := ResolveOutput(output, root, fontName, fs);
      && (r.Err? <==> exists i :: 0 <= i < |plan| && IsFile(fs, plan[i].1))
      && (r.Err? ==> r.error.InvalidOutputPath? && exists i :: 0 <= i < |plan| && plan[i].1 == r.error.path)
  {
  }
}
