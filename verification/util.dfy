/** The whole options-collection pass (`collect_options`): locate and load
    the configuration, merge it between the defaults and the caller's
    options, normalise the font name, then resolve input, output and
    templates. */
module Util {
  import opened Results
  import opened Options
  import opened Paths
  import opened Errors
  import FontName
  import Config
  import Input
  import Output
  import Templates

  /** Everything one collection pass produces. */
  datatype Collected = Collected(
    options: OptionSet,        // the merged options, font name normalised
    configPath: Option<Path>,  // the configuration file that was read, if any
    fontName: string,
    input: PathSet,            // `vectors` and `templates`
    output: PathSet,           // `fonts`, `css`, `preview` and any extra roles
    templates: seq<Path>)

  /** A string-valued option; a missing or differently shaped value cannot be
      used. */
  function TextOption(o: OptionSet, key: string): (r: Result<string, Error>)
    ensures r.Ok? <==> key in o && o[key].Text?
    ensures r.Ok? ==> r.value == o[key].text
    ensures r.Err? ==> r.error == UnusableOption(key)
  {
    if key in o && o[key].Text? then Ok(o[key].text) else Err(UnusableOption(key))
  }

  /** A list-valued option; a missing or differently shaped value cannot be
      used. */
  function NamesOption(o: OptionSet, key: string): (r: Result<seq<string>, Error>)
    ensures r.Ok? <==> key in o && o[key].Names?
    ensures r.Ok? ==> r.value == o[key].names
    ensures r.Err? ==> r.error == UnusableOption(key)
  {
    if key in o && o[key].Names? then Ok(o[key].names) else Err(UnusableOption(key))
  }

  /** The `config` hint the caller gave, if it is a string. */
  function ConfigHint(args: OptionSet): Option<string> {
    if "config" in args && args["config"].Text? then Some(args["config"].text) else None
  }

  /** The options after layering, with where the file layer came from. */
  datatype Layered = Layered(configPath: Option<Path>, fromFile: OptionSet, merged: OptionSet)

  function Root(args: OptionSet): Path
    requires "project_root" in args && args["project_root"].Text?
  {
    args["project_root"].text
  }

  /** Locates and loads the configuration file and layers it between the
      defaults and the caller's options. */
  function LayerOptions(args: OptionSet, defaults: OptionSet, fs: FileSystem): (r: Result<Layered, Error>)
    requires "project_root" in args && args["project_root"].Text?
    ensures r.Ok? ==> Config.LocateConfig(Root(args), ConfigHint(args), fs) == Ok(r.value.configPath)
    ensures r.Ok? ==> Config.LoadConfig(r.value.configPath, fs) == Ok(r.value.fromFile)
    ensures r.Ok? ==> r.value.merged == Merge(defaults, r.value.fromFile, args)
    ensures r.Err? ==> r.error.ConfigNotFound? || r.error.ConfigParseError?
  {
    var located :- Config.LocateConfig(Root(args), ConfigHint(args), fs);
    var fromFile :- Config.LoadConfig(located, fs);
    Ok(Layered(located, fromFile, Merge(defaults, fromFile, args)))
  }

  /** The part of the pass after layering: normalise the font name, then
      resolve input, output and templates from the merged options. */
  function ResolveMerged(layered: Layered, root: Path, fs: FileSystem,
                         isVector: string -> bool, lib: Path): (r: Result<Collected, Error>)
    ensures r.Ok? ==> r.value.configPath == layered.configPath
    ensures r.Ok? ==> FontName.IsSafeName(r.value.fontName)
    ensures r.Ok? ==>
      && "font_name" in layered.merged && layered.merged["font_name"].Text?
      && r.value.fontName == FontName.Normalize(layered.merged["font_name"].text)
    ensures r.Ok? ==> r.value.options == layered.merged["font_name" := Text(r.value.fontName)]
    ensures r.Ok? ==> r.value.input.Keys == {Input.Vectors, Input.Templates}
    ensures r.Ok? ==> Output.Fonts in r.value.output && Output.Css in r.value.output && Output.Preview in r.value.output
    ensures r.Ok? ==> forall role :: role in r.value.output ==> !IsFile(fs, r.value.output[role])
    ensures r.Err? ==> !r.error.ConfigNotFound? && !r.error.ConfigParseError?
  {
    var merged := layered.merged;
    var rawName :- TextOption(merged, "font_name");
    var name := FontName.Normalize(rawName);
    var inputPaths :- Input.ResolveInput(Get(merged, "input"), root, fs, isVector);
    var outputPaths :- Output.ResolveOutput(Get(merged, "output"), root, name, fs);
    var tokens :- NamesOption(merged, "templates");
    var templates :- Templates.GetTemplates(tokens, Some(inputPaths[Input.Templates]), lib, fs);
    Ok(Collected(merged["font_name" := Text(name)], layered.configPath, name, inputPaths, outputPaths, templates))
  }

  /** Runs the whole pass. `args` are the caller's options and must name the
      project root; `defaults` are the built-in defaults; `isVector` tells
      which file names are vector images; `lib` is the library directory
      holding the packaged templates. */
  function CollectOptions(args: OptionSet, defaults: OptionSet, fs: FileSystem,
                          isVector: string -> bool, lib: Path): (r: Result<Collected, Error>)
    requires "project_root" in args && args["project_root"].Text?
    ensures r.Ok? ==> FontName.IsSafeName(r.value.fontName)
    ensures r.Ok? ==> "font_name" in r.value.options && r.value.options["font_name"] == Text(r.value.fontName)
    ensures r.Ok? ==> forall k :: k in args && k != "font_name" ==> k in r.value.options && r.value.options[k] == args[k]
    ensures r.Ok? ==> r.value.input.Keys == {Input.Vectors, Input.Templates}
    ensures r.Ok? ==> Output.Fonts in r.value.output && Output.Css in r.value.output && Output.Preview in r.value.output
    ensures r.Ok? ==> forall role :: role in r.value.output ==> !IsFile(fs, r.value.output[role])
    ensures r.Ok? && r.value.configPath.Some? ==> IsFile(fs, r.value.configPath.value)
    ensures ConfigHint(args).None? && r.Err? ==> !r.error.ConfigNotFound?
  {
    var layered :- LayerOptions(args, defaults, fs);
    ResolveMerged(layered, Root(args), fs, isVector, lib)
  }

  /** The pass succeeds exactly when every stage does: the configuration is
      located and loaded, the merged font name is a string, input and output
      resolve, and `templates` is a list whose every name is found. */
  lemma {:induction false} CollectSucceeds(args: OptionSet, defaults: OptionSet, fs: FileSystem,
                                           isVector: string -> bool, lib: Path)
    requires "project_root" in args && args["project_root"].Text?
    ensures var root := Root(args);
      var located := Config.LocateConfig(root, ConfigHint(args), fs);
      CollectOptions(args, defaults, fs, isVector, lib).Ok? <==>
        && located.Ok?
        && Config.LoadConfig(located.value, fs).Ok?
        && var merged := Merge(defaults, Config.LoadConfig(located.value, fs).value, args);
           && "font_name" in merged && merged["font_name"].Text?
           && Input.ResolveInput(Get(merged, "input"), root, fs, isVector).Ok?
           && Output.ResolveOutput(Get(merged, "output"), root, FontName.Normalize(merged["font_name"].text), fs).Ok?
           && "templates" in merged && merged["templates"].Names?
           && forall t :: t in merged["templates"].names ==>
                Templates.Found(t, Input.TemplateDirOf(Get(merged, "input"), root), lib, fs)
  {
    var layered := LayerOptions(args, defaults, fs);
    if layered.Ok? {
      MergedSucceeds(layered.value, Root(args), fs, isVector, lib);
    }
  }

  /** The stage-by-stage success condition of the part after layering. */
  lemma {:induction false} MergedSucceeds(layered: Layered, root: Path, fs: FileSystem,
                                          isVector: string -> bool, lib: Path)
    ensures var merged := layered.merged;
      ResolveMerged(layered, root, fs, isVector, lib).Ok? <==>
        && "font_name" in merged && merged["font_name"].Text?
        && Input.ResolveInput(Get(merged, "input"), root, fs, isVector).Ok?
        && Output.ResolveOutput(Get(merged, "output"), root, FontName.Normalize(merged["font_name"].text), fs).Ok?
        && "templates" in merged && merged["templates"].Names?
        && forall t :: t in merged["templates"].names ==>
             Templates.Found(t, Input.TemplateDirOf(Get(merged, "input"), root), lib, fs)
  {
    var merged := layered.merged;
    var inputPaths := Input.ResolveInput(Get(merged, "input"), root, fs, isVector);
    if inputPaths.Ok? {
      assert Some(inputPaths.value[Input.Templates]) == Input.TemplateDirOf(Get(merged, "input"), root);
    }
  }

  /** A failing pass reports the error of its first failing stage, in the
      order: locate, load, font name, input, output, templates. */
  lemma {:induction false} CollectFirstError(args: OptionSet, defaults: OptionSet, fs: FileSystem,
                                             isVector: string -> bool, lib: Path)
    requires "project_root" in args && args["project_root"].Text?
    ensures var root := Root(args);
      var r := CollectOptions(args, defaults, fs, isVector, lib);
      var located := Config.LocateConfig(root, ConfigHint(args), fs);
      && (located.Err? ==> r == Err(located.error))
      && (located.Ok? && Config.LoadConfig(located.value, fs).Err? ==>
            r == Err(Config.LoadConfig(located.value, fs).error))
      && (located.Ok? && Config.LoadConfig(located.value, fs).Ok? ==>
            var merged := Merge(defaults, Config.LoadConfig(located.value, fs).value, args);
            var input := Input.ResolveInput(Get(merged, "input"), root, fs, isVector);
            && (!("font_name" in merged && merged["font_name"].Text?) ==> r == Err(UnusableOption("font_name")))
            && ("font_name" in merged && merged["font_name"].Text? ==>
                  var output := Output.ResolveOutput(Get(merged, "output"), root, FontName.Normalize(merged["font_name"].text), fs);
                  && (input.Err? ==> r == Err(input.error))
                  && (input.Ok? && output.Err? ==> r == Err(output.error))
                  && (input.Ok? && output.Ok? && !("templates" in merged && merged["templates"].Names?) ==>
                        r == Err(UnusableOption("templates")))
                  && (input.Ok? && output.Ok? && "templates" in merged && merged["templates"].Names? ==>
                        var templates := Templates.GetTemplates(merged["templates"].names,
                                           Input.TemplateDirOf(Get(merged, "input"), root), lib, fs);
                        templates.Err? ==> r == Err(templates.error))))
  {
    var root := Root(args);
    var layered := LayerOptions(args, defaults, fs);
    if layered.Ok? {
      var merged := layered.value.merged;
      var inputPaths := Input.ResolveInput(Get(merged, "input"), root, fs, isVector);
      if inputPaths.Ok? {
        assert Some(inputPaths.value[Input.Templates]) == Input.TemplateDirOf(Get(merged, "input"), root);
      }
    }
  }

  /** The font name comes from the caller if the caller gave one, else from
      the configuration file if it has one, else from the defaults, and is
      then normalised. */
  lemma FontNamePrecedence(args: OptionSet, defaults: OptionSet, fs: FileSystem, isVector: string -> bool, lib: Path)
    requires "project_root" in args && args["project_root"].Text?
    ensures CollectOptions(args, defaults, fs, isVector, lib).Ok? ==>
      var c := CollectOptions(args, defaults, fs, isVector, lib).value;
      var fromFile := LayerOptions(args, defaults, fs).value.fromFile;
      && Config.LoadConfig(c.configPath, fs) == Ok(fromFile)
      && ("font_name" in args ==>
            args["font_name"].Text? && c.fontName == FontName.Normalize(args["font_name"].text))
      && ("font_name" !in args && "font_name" in fromFile ==>
            fromFile["font_name"].Text? && c.fontName == FontName.Normalize(fromFile["font_name"].text))
      && ("font_name" !in args && "font_name" !in fromFile ==>
            "font_name" in defaults && defaults["font_name"].Text?
            && c.fontName == FontName.Normalize(defaults["font_name"].text))
  {
    if CollectOptions(args, defaults, fs, isVector, lib).Ok? {
      var layered := LayerOptions(args, defaults, fs).value;
      var c := ResolveMerged(layered, Root(args), fs, isVector, lib).value;
      assert c == CollectOptions(args, defaults, fs, isVector, lib).value;
      var merged := layered.merged;
      assert merged == Merge(defaults, layered.fromFile, args);
      assert "font_name" in merged && c.fontName == FontName.Normalize(merged["font_name"].text);
    }
  }

  /** A located configuration file the parser cannot read stops the pass
      with a "couldn't read your configuration" error naming that file. */
  lemma MalformedConfigRejected(args: OptionSet, defaults: OptionSet, fs: FileSystem,
                                isVector: string -> bool, lib: Path, p: Path, why: string)
    requires "project_root" in args && args["project_root"].Text?
    requires Config.LocateConfig(Root(args), ConfigHint(args), fs) == Ok(Some(p))
    requires p in fs && fs[p] == File(Unparseable(why))
    ensures CollectOptions(args, defaults, fs, isVector, lib) == Err(ConfigParseError(p, why))
    ensures Contains(Message(ConfigParseError(p, why)), CouldNotRead)
  {
    MessagesName(ConfigParseError(p, why));
  }

  /** A `config` hint that names neither a file nor a directory stops the
      pass with a "couldn't find" error naming the expanded hint. */
  lemma MissingConfigRejected(args: OptionSet, defaults: OptionSet, fs: FileSystem,
                              isVector: string -> bool, lib: Path)
    requires "project_root" in args && args["project_root"].Text?
    requires ConfigHint(args).Some?
    requires Expand(Root(args), ConfigHint(args).value) !in fs
    ensures CollectOptions(args, defaults, fs, isVector, lib)
         == Err(ConfigNotFound(Expand(Root(args), ConfigHint(args).value)))
    ensures Contains(Message(ConfigNotFound(Expand(Root(args), ConfigHint(args).value))), CouldNotFind)
  {
    MessagesName(ConfigNotFound(Expand(Root(args), ConfigHint(args).value)));
  }

  /** Once the options are layered and the font name is a string, a string
      input that is not an existing directory stops the pass with a "should
      be a directory" error. */
  lemma InputNotDirectoryRejected(args: OptionSet, defaults: OptionSet, fs: FileSystem,
                                  isVector: string -> bool, lib: Path, s: string)
    requires "project_root" in args && args["project_root"].Text?
    requires LayerOptions(args, defaults, fs).Ok?
    requires var merged := LayerOptions(args, defaults, fs).value.merged;
      && "font_name" in merged && merged["font_name"].Text?
      && "input" in merged && merged["input"] == Text(s)
    requires !IsDir(fs, Expand(Root(args), s))
    ensures CollectOptions(args, defaults, fs, isVector, lib) == Err(InvalidInputPath(Expand(Root(args), s)))
    ensures Contains(Message(InvalidInputPath(Expand(Root(args), s))), ShouldBeDirectory)
  {
    MessagesName(InvalidInputPath(Expand(Root(args), s)));
  }

  /** The templates the pass collects are the ones the template lookup finds
      when it reads the custom template directory straight from the merged
      `input` option, and the output defaults to the font name under the
      project root when no `output` option is set. */
  lemma CollectedAgreesWithParts(args: OptionSet, defaults: OptionSet, fs: FileSystem,
                                 isVector: string -> bool, lib: Path)
    requires "project_root" in args && args["project_root"].Text?
    ensures CollectOptions(args, defaults, fs, isVector, lib).Ok? ==>
      var c := CollectOptions(args, defaults, fs, isVector, lib).value;
      var merged := LayerOptions(args, defaults, fs).value.merged;
      && "templates" in merged && merged["templates"].Names?
      && Templates.GetTemplates(merged["templates"].names, Input.TemplateDirOf(Get(merged, "input"), Root(args)), lib, fs)
         == Ok(c.templates)
      && ("output" !in merged ==> c.output[Output.Fonts] == Join(Root(args), c.fontName))
  {
    if CollectOptions(args, defaults, fs, isVector, lib).Ok? {
      var layered := LayerOptions(args, defaults, fs).value;
      var merged := layered.merged;
      var c := ResolveMerged(layered, Root(args), fs, isVector, lib).value;
      var root := Root(args);
      var inputPaths := Input.ResolveInput(Get(merged, "input"), root, fs, isVector).value;
      assert Some(inputPaths[Input.Templates]) == Input.TemplateDirOf(Get(merged, "input"), root);
      Output.OutputDefault(root, c.fontName, fs);
    }
  }
}
