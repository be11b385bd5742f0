/** Resolution of the `input` option into the vector and custom-template
    directories (`get_input_paths`). */
module Input {
  import opened Results
  import opened Options
  import opened Paths
  import opened Errors

  const Vectors := "vectors"
  const Templates := "templates"

  /** The vectors path the `input` option asks for, before expansion:
      a string is the vectors path itself, a table names it under `vectors`. */
  function RequestedVectors(input: Option<Value>): Option<string> {
    match input
    case Some(Text(s)) => Some(s)
    case Some(Table(t)) => Lookup(t, Vectors)
    case _ => None
  }

  /** The directory holds at least one entry the vector-file test accepts. */
  predicate HoldsVectors(fs: FileSystem, dir: Path, isVector: string -> bool)
    requires IsDir(fs, dir)
  {
    exists name | name in fs[dir].entries :: isVector(name)
  }

  /** The custom-template directory the `input` option names, as the template
      lookup reads it: a table's `templates` entry, else its `vectors` entry;
      a string is both. */
  function TemplateDirOf(input: Option<Value>, root: Path): (r: Option<Path>)
    ensures RequestedVectors(input).Some? ==> r.Some?
  {
    match input
    case Some(Text(s)) => Some(Expand(root, s))
    case Some(Table(t)) =>
      (match Lookup(t, Templates)
       case Some(d) => Some(Expand(root, d))
       case None =>
         (match Lookup(t, Vectors)
          case Some(v) => Some(Expand(root, v))
          case None => None))
    case _ => None
  }

  /** The `vectors` and `templates` roles for an `input` option. A string
      serves as both; a table must name `vectors`, and `templates` is the
      vectors path unless the table names its own. The vectors path must be
      an existing directory holding at least one vector file. */
  function ResolveInput(input: Option<Value>, root: Path, fs: FileSystem, isVector: string -> bool): (r: Result<PathSet, Error>)
    ensures r.Ok? ==> r.value.Keys == {Vectors, Templates}
    ensures r.Ok? ==> IsDir(fs, r.value[Vectors]) && HoldsVectors(fs, r.value[Vectors], isVector)
    ensures r.Ok? ==> Some(r.value[Templates]) == TemplateDirOf(input, root)
    ensures r == Err(InvalidInputSpec) <==> RequestedVectors(input).None?
    ensures RequestedVectors(input).Some? ==>
      var v := Expand(root, RequestedVectors(input).value);
      && (r.Ok? ==> r.value[Vectors] == v)
      && (r == Err(InvalidInputPath(v)) <==> !IsDir(fs, v))
      && (r == Err(EmptyInputDirectory(v)) <==> IsDir(fs, v) && !HoldsVectors(fs, v, isVector))
      && (r.Ok? <==> IsDir(fs, v) && HoldsVectors(fs, v, isVector))
  {
    match RequestedVectors(input)
    case None => Err(InvalidInputSpec)
    case Some(requested) =>
      var vectors := Expand(root, requested);
      var templates :=
        match input
        case Some(Table(t)) =>
          (match Lookup(t, Templates)
           case Some(d) => Expand(root, d)
           case None => vectors)
        case _ => vectors;
      if !IsDir(fs, vectors) then Err(InvalidInputPath(vectors))
      else if !HoldsVectors(fs, vectors, isVector) then Err(EmptyInputDirectory(vectors))
      else Ok(map[Vectors := vectors, Templates := templates])
  }

  /** A table that names only `vectors` resolves to the same paths as the
      bare string, and a table without `templates` gives that role the
      vectors path. */
  lemma {:induction false} InputStringIsVectorsTable(s: string, root: Path, fs: FileSystem, isVector: string -> bool)
    ensures ResolveInput(Some(Text(s)), root, fs, isVector)
         == ResolveInput(Some(Table([(Vectors, s)])), root, fs, isVector)
    ensures ResolveInput(Some(Text(s)), root, fs, isVector).Ok? ==>
      var paths := ResolveInput(Some(Text(s)), root, fs, isVector).value;
      paths[Templates] == paths[Vectors]
  {
    var t: Dict := [(Vectors, s)];
    assert Lookup(t, Vectors) == Some(s);
    assert Lookup(t, Templates) == None;
  }

  /** For a table input: `templates` defaults to the vectors path when
      absent and is the table's own expanded entry when present. */
  lemma {:induction false} InputTableTemplates(t: Dict, root: Path, fs: FileSystem, isVector: string -> bool)
    requires ResolveInput(Some(Table(t)), root, fs, isVector).Ok?
    ensures var paths := ResolveInput(Some(Table(t)), root, fs, isVector).value;
      match Lookup(t, Templates)
      case None => paths[Templates] == paths[Vectors]
      case Some(d) => paths[Templates] == Expand(root, d)
  {
  }
}
