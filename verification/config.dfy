/** Locating and reading the configuration file (`get_config_path` and the
    loading step of `collect_options`). */
module Config {
  import opened Results
  import opened Options
  import opened Paths
  import opened Errors

  const ConfigFileName := "fontcustom.yml"

  /** Where the configuration file is, given the project root and the
      caller's optional `config` hint (a directory or a file, relative to
      the root unless absolute). `None` means there is no configuration to
      read, which is not an error. */
  function LocateConfig(root: Path, hint: Option<string>, fs: FileSystem): (r: Result<Option<Path>, Error>)
    // whatever is located is an existing file
    ensures r.Ok? && r.value.Some? ==> IsFile(fs, r.value.value)
    // without a hint: the root's fontcustom.yml if there is one, else nothing, never an error
    ensures hint.None? ==> r.Ok? && (r.value.Some? <==> IsFile(fs, Join(root, ConfigFileName)))
    ensures hint.None? && r.value.Some? ==> r.value.value == Join(root, ConfigFileName)
    // a hint naming a file locates that file
    ensures hint.Some? && IsFile(fs, Expand(root, hint.value)) ==> r == Ok(Some(Expand(root, hint.value)))
    // a hint naming a directory locates the fontcustom.yml inside it
    ensures hint.Some? && IsDir(fs, Expand(root, hint.value)) ==>
      r.Ok? ==> r.value == Some(Join(Expand(root, hint.value), ConfigFileName))
    // a hint always locates something or fails with ConfigNotFound
    ensures hint.Some? ==> (r.Ok? ==> r.value.Some?) && (r.Err? ==> r.error.ConfigNotFound?)
    ensures hint.Some? && r.Err? <==>
      hint.Some? && !IsFile(fs, Expand(root, hint.value))
      && !(IsDir(fs, Expand(root, hint.value)) && IsFile(fs, Join(Expand(root, hint.value), ConfigFileName)))
  {
    match hint
    case None =>
      var candidate := Join(root, ConfigFileName);
      if IsFile(fs, candidate) then Ok(Some(candidate)) else Ok(None)
    case Some(h) =>
      var target := Expand(root, h);
      if IsDir(fs, target) then
        var inside := Join(target, ConfigFileName);
        if IsFile(fs, inside) then Ok(Some(inside)) else Err(ConfigNotFound(inside))
      else if IsFile(fs, target) then Ok(Some(target))
      else Err(ConfigNotFound(target))
  }

  /** The options the located configuration file holds; no file means no
      options. A file the parser cannot read fails with ConfigParseError.
      Only a path `LocateConfig` produced is loaded, so it is a file. */
  function LoadConfig(located: Option<Path>, fs: FileSystem): (r: Result<OptionSet, Error>)
    requires located.Some? ==> IsFile(fs, located.value)
    ensures located.None? ==> r == Ok(map[])
    ensures located.Some? ==>
      match fs[located.value].content
      case Parsed(o) => r == Ok(o)
      case Unparseable(why) => r == Err(ConfigParseError(located.value, why))
    ensures r.Err? ==> located.Some? && r.error.ConfigParseError? && r.error.path == located.value
  {
    match located
    case None => Ok(map[])
    case Some(p) =>
      match fs[p].content
      case Parsed(o) => Ok(o)
      case Unparseable(why) => Err(ConfigParseError(p, why))
  }

  /** Locating and then loading never reports a missing file as a parse
      failure: a located configuration is a file, so loading it either
      yields its options or reports that it is malformed. */
  lemma {:induction false} LocatedConfigLoads(root: Path, hint: Option<string>, fs: FileSystem)
    requires LocateConfig(root, hint, fs).Ok?
    requires LocateConfig(root, hint, fs).value.Some?
    ensures var p := LocateConfig(root, hint, fs).value.value;
      match fs[p].content
      case Parsed(o) => LoadConfig(Some(p), fs) == Ok(o)
      case Unparseable(why) => LoadConfig(Some(p), fs) == Err(ConfigParseError(p, why))
  {
  }
}
