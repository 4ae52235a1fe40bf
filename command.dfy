/** The shell command `writeTags` hands to `exec`: the `xattr` utility setting the Finder
    tag attribute of one file to a property-list text. Both arguments are interpolated
    between single quotes with no escaping. */
module Command {
  import opened Wrappers
  import opened JsString

  /** Everything before the first quoted argument. */
  const XattrPrefix: string := "xattr -w com.apple.metadata:_kMDItemUserTags "

  /** `<basePath>/<path>`: the vault's base directory joined to the vault-relative
      path by one `/`; both parts are kept as they are. */
  function FullPath(basePath: string, path: string): (fullPath: string)
    ensures |fullPath| == |basePath| + 1 + |path|
    ensures fullPath[..|basePath|] == basePath && fullPath[|basePath|] == '/'
    ensures fullPath[|basePath| + 1..] == path
  {
    basePath + "/" + path
  }

  /** The `xattr` command line: the fixed
      prefix, the plist text between quotes, a space, the path between quotes. Neither
      argument is escaped: the command is exactly five characters longer than the prefix and
      the two arguments together, and each argument stands verbatim between its quotes. */
  function XattrCommand(plistText: string, fullPath: string): (command: string)
    ensures |command| == |XattrPrefix| + |plistText| + |fullPath| + 5
    ensures command[..|XattrPrefix|] == XattrPrefix
    ensures command[|XattrPrefix|] == '\''
    ensures command[|XattrPrefix| + 1..|XattrPrefix| + 1 + |plistText|] == plistText
    ensures command[|XattrPrefix| + 1 + |plistText|..|XattrPrefix| + 4 + |plistText|] == "' '"
    ensures command[|XattrPrefix| + 4 + |plistText|..|command| - 1] == fullPath
    ensures command[|command| - 1] == '\''
  {
    XattrPrefix + "'" + plistText + "' '" + fullPath + "'"
  }

  /** Reads the two quoted arguments back out of a command: the plist text runs up to the
      first quote after the prefix, the path runs from after the separating `' '` to the
      closing quote. None when the command does not have that shape. */
  function ParseXattrCommand(cmd: string): Option<(string, string)>
  {
    var head := XattrPrefix + "'";
    if |cmd| < |head| || cmd[..|head|] != head then None
    else ParseArguments(cmd[|head|..])
  }

  /** The part of `ParseXattrCommand` after the prefix and the opening quote. */
  function ParseArguments(rest: string): Option<(string, string)>
  {
    var q := IndexOf(rest, "'");
    if q == -1 || q + 4 > |rest| || rest[q..q + 3] != "' '" || rest[|rest| - 1] != '\'' then None
    else Some((rest[..q], rest[q + 3..|rest| - 1]))
  }

  lemma ParseArgumentsRoundTrip(plistText: string, fullPath: string)
    requires '\'' !in plistText
    ensures ParseArguments(plistText + ("' '" + fullPath + "'")) == Some((plistText, fullPath))
  {
    var rest := plistText + ("' '" + fullPath + "'");
    IndexOfAfterPrefix(plistText, '\'', "' '" + fullPath + "'");
    assert rest[|plistText|..|plistText| + 3] == "' '";
    assert rest[..|plistText|] == plistText;
    assert rest[|plistText| + 3..|rest| - 1] == fullPath;
  }

  /** When the plist text holds no single quote, the command determines both of its
      arguments: parsing it gives them back, whatever the path contains. */
  lemma ParseXattrCommandRoundTrip(plistText: string, fullPath: string)
    requires '\'' !in plistText
    ensures ParseXattrCommand(XattrCommand(plistText, fullPath)) == Some((plistText, fullPath))
  {
    var head := XattrPrefix + "'";
    var rest := plistText + ("' '" + fullPath + "'");
    XattrCommandSplit(plistText, fullPath);
    assert (head + rest)[..|head|] == head;
    assert (head + rest)[|head|..] == rest;
    ParseArgumentsRoundTrip(plistText, fullPath);
  }

  lemma ParseArgumentsSound(rest: string, plistText: string, fullPath: string)
    requires ParseArguments(rest) == Some((plistText, fullPath))
    ensures rest == plistText + ("' '" + fullPath + "'")
  {
    var q := IndexOf(rest, "'");
    assert rest[q..q + 3] == "' '";
    assert rest == rest[..q] + rest[q..q + 3] + rest[q + 3..|rest| - 1] + [rest[|rest| - 1]];
  }

  /** Whatever parses was built by `XattrCommand` from the two parts parsing returns. */
  lemma ParseXattrCommandSound(cmd: string, plistText: string, fullPath: string)
    requires ParseXattrCommand(cmd) == Some((plistText, fullPath))
    ensures cmd == XattrCommand(plistText, fullPath)
  {
    var head := XattrPrefix + "'";
    var rest := cmd[|head|..];
    ParseArgumentsSound(rest, plistText, fullPath);
    assert cmd[..|head|] == head;
    assert cmd == head + rest;
    XattrCommandSplit(plistText, fullPath);
  }

  lemma XattrCommandSplit(plistText: string, fullPath: string)
    ensures XattrCommand(plistText, fullPath) == (XattrPrefix + "'") + (plistText + ("' '" + fullPath + "'"))
  {
  }

  /** Two commands built from quote-free plist texts are equal only when both arguments are. */
  lemma XattrCommandInjective(p1: string, f1: string, p2: string, f2: string)
    requires '\'' !in p1 && '\'' !in p2
    requires XattrCommand(p1, f1) == XattrCommand(p2, f2)
    ensures p1 == p2 && f1 == f2
  {
    ParseXattrCommandRoundTrip(p1, f1);
    ParseXattrCommandRoundTrip(p2, f2);
  }

  /** No escaping: a quote inside an argument is copied verbatim, so different argument
      pairs can give the very same command text. */
  lemma QuotesAreNotEscaped()
    ensures XattrCommand("a' 'b", "c") == XattrCommand("a", "b' 'c")
  {
  }
}
