# Fontcustom option collection and path resolution, modelled in Dafny

This project models the options-collection and path-resolution engine of
Fontcustom's `Fontcustom::Util`: the code that runs before any font is
generated. It covers these steps:

- **`get_config_path`**: finds the `fontcustom.yml` configuration file.
- **Loading**: reads that file.
- **`collect_options`**: layers the built-in defaults, the configuration file
  and the command-line options.
- **Font-name normalisation**: cleans up the font name.
- **`get_input_paths`**: resolves the vector and custom-template directories.
- **`get_output_paths`**: resolves the output directories.
- **`get_templates`**: expands the requested template names into template files.

The model follows what `spec/fontcustom/util_spec.rb` asserts. Choices the
tests leave open are listed under "## Left out".

Everything is a pure function returning `Result<_, Error>`:

- `results.dfy`: `Option` and `Result` (usable with `:-`).
- `options.dfy`: option values. An option is a string (`Text`), an ordered
  table with distinct keys (`Table`, like a Ruby hash), or a list of names
  (`Names`). The module also holds the three-layer `Merge`.
- `paths.dfy`: paths and the abstract filesystem. The filesystem maps a path
  to `Dir(entry names)` or `File(document)`, and a path that is not a key does
  not exist. A file's document is what the YAML parser makes of it:
  `Parsed(options)` or `Unparseable(reason)`.
- `errors.dfy`: the error kinds and their messages. Each message contains the
  phrase the tests match.
- `font_name.dfy`: `strip`, then `gsub(/\W/, "-")`.
- `config.dfy`: locating and loading the configuration.
- `input.dfy`, `output.dfy`, `templates.dfy`: the three resolvers.
- `util.dfy`: the whole `collect_options` pass.

A run of disallowed characters in the font name does not collapse: the test
at `util_spec.rb:46-54` turns `" A_stR4nG3  nAm3 Ø&  "` into
`"A_stR4nG3--nAm3---"`, one hyphen per character, and so does the model.

## Model

| member | source | states |
|---|---|---|
| FontName.Normalize | spec/fontcustom/util_spec.rb:46-54 | the normalised name holds only word characters and hyphens; it is as long as the stripped input (runs are not collapsed); word characters stay in place and every other character becomes one hyphen |
| FontName.Strip | spec/fontcustom/util_spec.rb:50-53 | the result is a slice of the input with only whitespace outside it, and it neither starts nor ends with whitespace |
| FontName.StripExact | spec/fontcustom/util_spec.rb:50-53 | any non-empty trimming of a string is the one `strip` returns, so trimming is unique |
| FontName.NormalizeIdempotent | spec/fontcustom/util_spec.rb:46-54 | normalising a normalised name changes nothing |
| FontName.NormalizeExample | spec/fontcustom/util_spec.rb:50-53 | `" A_stR4nG3  nAm3 Ø&  "` normalises to `"A_stR4nG3--nAm3---"` |
| FontName.NormalizedIsRelative | spec/fontcustom/util_spec.rb:173-177 | a normalised name never starts with `/`, so the default output stays under the project root |
| Options.Merge | spec/fontcustom/util_spec.rb:25-44 | the merged keys are the union of the three layers; a caller value wins over a file value, which wins over a default, key by key |
| Util.FontNamePrecedence | spec/fontcustom/util_spec.rb:25-44 | whenever the pass succeeds, the collected font name is the normalised caller value if given, else the configuration file's, else the default's |
| Util.CollectOptions | spec/fontcustom/util_spec.rb:15-55 | on success: the font name is safe and stored back into the options; every caller option other than the font name survives unchanged; input has exactly `vectors` and `templates`; output has `fonts`, `css` and `preview`, and none of them is an existing file; any configuration read is an existing file; without a `config` hint the pass never fails with ConfigNotFound |
| Util.CollectSucceeds | spec/fontcustom/util_spec.rb:15-55 | the pass returns options exactly when the configuration locates and loads, the merged font name is a string, input and output resolve, and `templates` is a list whose every name is found |
| Util.CollectFirstError | spec/fontcustom/util_spec.rb:15-55 | a failing pass reports the error of the first failing stage, in the order locate, load, font name, input, output, templates |
| Util.MalformedConfigRejected | spec/fontcustom/util_spec.rb:16-23 | a located configuration the parser cannot read fails the pass with ConfigParseError for that file, whose message contains "couldn't read your configuration" |
| Util.MissingConfigRejected | spec/fontcustom/util_spec.rb:74-81 | a `config` hint naming nothing fails the pass with ConfigNotFound, whose message contains "couldn't find" |
| Util.InputNotDirectoryRejected | spec/fontcustom/util_spec.rb:162-168 | in the full pass, a string input that is not an existing directory fails with InvalidInputPath, whose message contains "should be a directory" |
| Util.CollectedAgreesWithParts | spec/fontcustom/util_spec.rb:296-307 | whenever the pass succeeds, the templates it collects are those the template lookup finds from the raw `input` option; with no `output` option, fonts go to the font name under the project root |
| Config.LocateConfig | spec/fontcustom/util_spec.rb:57-81 | without a hint: the root's `fontcustom.yml` or nothing, never an error. A file hint is used as is. A directory hint gives its `fontcustom.yml`. A hint naming neither, or a directory without the file, gives ConfigNotFound. Whatever is located is an existing file |
| Config.LoadConfig | spec/fontcustom/util_spec.rb:16-23 | only a located file is loaded; no file gives no options; a parsed file gives its options; an unparseable file gives ConfigParseError with the parser's reason; no other error |
| Config.LocatedConfigLoads | spec/fontcustom/util_spec.rb:16-33 | a located configuration always loads to its options or to a parse error, never to a missing-file error |
| Input.ResolveInput | spec/fontcustom/util_spec.rb:87-170 | success gives exactly `vectors` and `templates`; the vectors path is an existing directory holding a vector file; InvalidInputSpec exactly when no vectors path is named; InvalidInputPath exactly when the expanded vectors path is not a directory; EmptyInputDirectory exactly when it is a directory without vectors; the templates role is the directory the template lookup uses |
| Input.InputStringIsVectorsTable | spec/fontcustom/util_spec.rb:142-160 | a string input resolves exactly like a table naming only `vectors`, and its `templates` equals its `vectors` |
| Input.InputTableTemplates | spec/fontcustom/util_spec.rb:107-123 | a table input's `templates` is the vectors path when absent and its own expanded entry when present |
| Output.ResolveOutput | spec/fontcustom/util_spec.rb:172-268 | success always gives `fonts`, `css` and `preview`, and no resolved path is an existing file; every error is InvalidOutputSpec or InvalidOutputPath, and the latter names an existing file |
| Output.OutputTableRoles | spec/fontcustom/util_spec.rb:181-227 | for a table that resolves: `fonts` is the expanded `fonts` entry; `css` and `preview` are their own expanded entries or else the fonts path; each other key becomes a role at its expanded value; no role appears that was not asked for |
| Output.OutputSpecError | spec/fontcustom/util_spec.rb:229-235 | InvalidOutputSpec exactly when the output is a table without `fonts` or is a list |
| Output.OutputStringIsFontsTable | spec/fontcustom/util_spec.rb:238-258 | a string output resolves exactly like a table naming only `fonts`, so `css` and `preview` share its path |
| Output.OutputDefault | spec/fontcustom/util_spec.rb:173-177 | with no output option, for every font name, all three roles are the font name joined to the project root |
| Output.OutputDefaultIsFontName | spec/fontcustom/util_spec.rb:173-177 | for a relative font name, leaving `output` out resolves exactly like giving the font name as the output string |
| Output.OutputPathError | spec/fontcustom/util_spec.rb:260-266 | resolution fails exactly when some planned path exists as a file, and it reports such a path |
| Output.FirstFile | spec/fontcustom/util_spec.rb:260-266 | reports nothing exactly when no planned path is a file; otherwise reports the first planned path that is a file |
| Templates.GetTemplates | spec/fontcustom/util_spec.rb:270-317 | succeeds exactly when every requested name is a shorthand or a file in the custom template directory; the result has no repeats and its files are exactly those the names stand for, plus the stylesheet when `preview` is asked for; an error names a requested, unfound name |
| Templates.PreviewBringsStylesheet | spec/fontcustom/util_spec.rb:271-279 | when every requested name is found, the request succeeds, and requesting `preview` yields both `fontcustom-preview.html` and `fontcustom.css` |
| Templates.AllShorthands | spec/fontcustom/util_spec.rb:281-294 | the seven shorthands expand to the seven packaged template files, as a multiset |
| Templates.CustomTemplate | spec/fontcustom/util_spec.rb:296-307 | a non-shorthand name that is a file in the custom template directory resolves to exactly that file |
| Templates.MissingTemplate | spec/fontcustom/util_spec.rb:309-316 | a name that is neither a shorthand nor a custom file fails the request, even after a valid shorthand, with TemplateNotFound; its message matches `couldn't find.+<name>` |
| Templates.Dedup | spec/fontcustom/util_spec.rb:281-294 | the deduplicated list holds the same elements and has no repeats |
| Templates.SameElementsPermutation | spec/fontcustom/util_spec.rb:275-278 | two repeat-free lists with the same elements are equal as multisets (the `=~` comparison) |
| Errors.MessagesName | spec/fontcustom/util_spec.rb:16-266 | each error's message contains the phrase the tests match for it |
| Errors.TemplateMessageNamesToken | spec/fontcustom/util_spec.rb:315 | a missing template's message matches `couldn't find.+<name>` |

## Left out

- `check_fontforge` (`util_spec.rb:8-13`): it probes for an external program with a shell call, so it is not modelled, and neither is the toolchain-missing error.
- YAML parsing: a file's content is given as what the parser would make of it, `Parsed(options)` or `Unparseable(reason)`.
- The real filesystem: it is an abstract map from path to node. `Join` is plain concatenation with `/`. `Expand` keeps absolute paths and joins relative ones to the root. Neither removes `..` or repeated slashes.
- The packaged-template root (`gem_lib_path`): it is an opaque parameter `lib`.
- What counts as a vector file: the extension set is not in the tests, so it is the parameter `isVector` on entry names.
- Printing: which configuration is used, and the warnings for a missing configuration or a defaulted output (`util_spec.rb:83-84`, `179`), are pending tests with no assertions.
- Ruby object identity: the `equal` / `should_not equal` checks (`util_spec.rb:113`, `122`, `159`, `199-200`, `213-214`, `256-257`) are modelled as value equality. The `should_not` cases are not stated, because two explicitly given paths may coincide.
- Symbol and string keys: Ruby's mix of symbol and string keys is modelled as string keys throughout.
- Falsy values: the model assumes that a `nil` or `false` option value means the option is not set, so such a value is modelled as a missing key.
- Other value types: only string, table and list values are modelled; numbers and booleans are not.
- UnusableOption: it stands for the runtime exception Ruby would raise on a `font_name` that is not a string or `templates` that is not a list. It is not one of the engine's own errors.
- Util.CollectOptions requires the caller's options to name the project root as a string, which the engine assumes of every caller.
- Output.ResolveOutput: when several resolved output paths are existing files, the one reported is the first in the order fonts, css, preview, then extra roles in table order. The tests do not fix this order.
- Input.ResolveInput: it does not check the custom-template directory; the tests do not say it is checked.
- FontName.Strip: it trims the six ASCII whitespace characters; it does not model Ruby's removal of trailing NUL characters.
- `spec/fontcustom/generator/manifest_spec.rb`: every example in it is commented out, so there is no behaviour to model.
