/** The user-facing failures of option collection and path resolution, and
    the messages that carry them. */
module Errors {
  import opened Paths

  datatype Error =
    | ConfigNotFound(path: Path)
    | ConfigParseError(path: Path, reason: string)
    | InvalidInputSpec
    | InvalidInputPath(path: Path)
    | EmptyInputDirectory(path: Path)
    | InvalidOutputSpec
    | InvalidOutputPath(path: Path)
    | TemplateNotFound(name: string)
      /** A merged option whose value has a shape the engine cannot use
          (a `font_name` that is not a string, `templates` that is not a list). */
    | UnusableOption(key: string)

  const CouldNotFind := "couldn't find"
  const CouldNotRead := "couldn't read your configuration"
  const StringOrHash := "should be a string or a hash"
  const ShouldBeDirectory := "should be a directory"
  const NoVectors := "doesn't contain any vectors"
  const FontsKey := "containing a \"fonts\" key"
  const NotAFile := "directory, not a file"

  /** The text shown to the user; the offending path or name is interpolated. */
  function Message(e: Error): string {
    match e
    case ConfigNotFound(p) => "I " + CouldNotFind + " a configuration file at " + p + "."
    case ConfigParseError(p, why) => "I " + CouldNotRead + " file " + p + ": " + why
    case InvalidInputSpec => "Input " + StringOrHash + " containing a \"vectors\" key."
    case InvalidInputPath(p) => "Input " + p + " " + ShouldBeDirectory + "."
    case EmptyInputDirectory(p) => "Input " + p + " " + NoVectors + "."
    case InvalidOutputSpec => "Output should be a string or a hash " + FontsKey + "."
    case InvalidOutputPath(p) => "Output " + p + " should be a " + NotAFile + "."
    case TemplateNotFound(name) => "I " + CouldNotFind + " the template " + name + "."
    case UnusableOption(k) => "The option " + k + " has a value of an unusable shape."
  }

  /** `part` occurs in `s` starting at index `i`. */
  predicate OccursAt(s: string, part: string, i: int) {
    0 <= i <= |s| - |part| && s[i..i + |part|] == part
  }

  /** `part` occurs somewhere in `s`. */
  ghost predicate Contains(s: string, part: string) {
    exists i :: OccursAt(s, part, i)
  }

  /** `s` matches the regular expression `a.+b`: `b` occurs starting at least
      one character after an occurrence of `a` ends. */
  ghost predicate MatchesGap(s: string, a: string, b: string) {
    exists i, j :: i + |a| < j && OccursAt(s, a, i) && OccursAt(s, b, j)
  }

  lemma ContainsMiddle(pre: string, part: string, post: string)
    ensures Contains(pre + part + post, part)
  {
    var s := pre + part + post;
    assert OccursAt(s, part, |pre|);
  }

  /** Every message contains the phrase the tests match it against. */
  lemma {:induction false} MessagesName(e: Error)
    ensures e.ConfigNotFound? ==> Contains(Message(e), CouldNotFind)
    ensures e.ConfigParseError? ==> Contains(Message(e), CouldNotRead)
    ensures e.InvalidInputSpec? ==> Contains(Message(e), StringOrHash)
    ensures e.InvalidInputPath? ==> Contains(Message(e), ShouldBeDirectory)
    ensures e.EmptyInputDirectory? ==> Contains(Message(e), NoVectors)
    ensures e.InvalidOutputSpec? ==> Contains(Message(e), FontsKey)
    ensures e.InvalidOutputPath? ==> Contains(Message(e), NotAFile)
  {
    match e
    case ConfigNotFound(p) =>
      assert Message(e) == "I " + CouldNotFind + (" a configuration file at " + p + ".");
      ContainsMiddle("I ", CouldNotFind, " a configuration file at " + p + ".");
    case ConfigParseError(p, why) =>
      assert Message(e) == "I " + CouldNotRead + (" file " + p + ": " + why);
      ContainsMiddle("I ", CouldNotRead, " file " + p + ": " + why);
    case InvalidInputSpec =>
      ContainsMiddle("Input ", StringOrHash, " containing a \"vectors\" key.");
    case InvalidInputPath(p) =>
      ContainsMiddle("Input " + p + " ", ShouldBeDirectory, ".");
    case EmptyInputDirectory(p) =>
      ContainsMiddle("Input " + p + " ", NoVectors, ".");
    case InvalidOutputSpec =>
      ContainsMiddle("Output should be a string or a hash ", FontsKey, ".");
    case InvalidOutputPath(p) =>
      ContainsMiddle("Output " + p + " should be a ", NotAFile, ".");
    case TemplateNotFound(_) =>
    case UnusableOption(_) =>
  }

  /** A missing template's message matches `couldn't find.+<name>`. */
  lemma {:induction false} TemplateMessageNamesToken(name: string)
    ensures MatchesGap(Message(TemplateNotFound(name)), CouldNotFind, name)
  {
    var s := Message(TemplateNotFound(name));
    var i := 2;
    var j := 2 + |CouldNotFind| + |" the template "|;
    assert s == "I " + CouldNotFind + " the template " + name + ".";
    assert OccursAt(s, CouldNotFind, i);
    assert OccursAt(s, name, j);
  }
}
