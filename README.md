# Mac tagger plugin: verified model

This project models an Obsidian plugin that copies a note's tags into the macOS Finder
tag attribute (`com.apple.metadata:_kMDItemUserTags`). It models the plugin's three
pieces of logic:

- **Tag extraction.** `getTags` takes the inline tags from the note's cached metadata,
  in cache order, then appends the frontmatter `tags`. A bare string counts as a
  one-element list. Then `s.replace("#", "")` runs on every element.
  - Module `JsString` models JavaScript's `indexOf` and first-occurrence `replace`.
  - Module `Tags` holds the metadata datatypes, the specification function `Extracted`
    and the imperative `GetTags`, which pushes tags in two loops.
- **Command string.** `writeTags` builds
  `xattr -w com.apple.metadata:_kMDItemUserTags '<plist>' '<basePath>/<path>'`.
  Module `Command` builds it and reads it back, and it proves:
  - the two arguments can be recovered when the plist text has no single quote;
  - without escaping, a quote makes two different argument pairs give the same command.
- **Commands.** Module `Plugin` holds the class `MacTagPlugin`.
  - Every command handed to `exec` is appended to its `executed` log.
  - `WriteTags` serves the single-file command.
  - `WriteFolderTags` serves the folder command: it writes the file children of the
    parent folder, in order, and skips sub-folders.

Two behaviours of the code are easy to misread, and the model keeps both:

- The code does not deduplicate: a tag that is both inline and in the frontmatter
  appears twice (`DuplicatesKeptExample`).
- The code removes the first `#` wherever it stands, not only a leading one: `a#b#`
  becomes `ab#` (`StripMarkerInterior`).

Inputs that stand in for the host:

- the cached metadata of each file: the `getFileCache` parameter;
- the vault base path: `basePath`;
- the property-list serializer: `buildPlist`, an opaque function;
- the children of the parent folder: a sequence of `Entry` values.

JavaScript truthiness is modelled as the code uses it:

- an inline `tags` array counts as present even when it is empty;
- an empty-string frontmatter `tags` value counts as absent;
- an empty frontmatter list is truthy but contributes nothing.

## Model

| member | source | states |
|---|---|---|
| JsString.IndexOfFrom | main.ts:66 | the result is -1 or a position at or after `from` where the pattern occurs, and the pattern occurs nowhere between `from` and that position (nowhere at all for -1) |
| JsString.IndexOf | main.ts:66 | -1 exactly when the pattern occurs nowhere; otherwise the first position where it occurs |
| JsString.StripMarker | main.ts:66 | `s.replace("#", "")` equals the reference walk `DropFirstHash`, which drops the first `#` it meets and keeps every other character in place |
| JsString.StripMarkerNone | main.ts:66 | a string without `#` comes out of `replace("#", "")` unchanged |
| JsString.StripMarkerAt | main.ts:66 | when the first `#` is at position i, the result is the string with exactly that character removed; the characters before and after it, later `#` included, stay in order |
| JsString.ReplaceHashIsDropFirstHash | main.ts:66 | the `indexOf`-based removal equals an independent definition that walks the string and drops the first `#` it meets |
| JsString.StripMarkerLength | main.ts:66 | the result is one character shorter when the string contains `#`, and the same length otherwise |
| JsString.StripMarkerMultiset | main.ts:66 | exactly one `#` is lost from a string that has one; every other character is kept |
| JsString.StripMarkerInterior | main.ts:66 | a `#` that is not leading is removed too: `a#b#` becomes `ab#` |
| Tags.GetTags | main.ts:50-67 | the two push loops followed by the map return exactly `Extracted(metadata)`: the inline tags, then the frontmatter tags, each stripped of its first `#` |
| Tags.Extracted | main.ts:51-66 | what `getTags` returns has one element per inline entry plus one per frontmatter tag, a non-empty bare string counting as one |
| Tags.ExtractedAt | main.ts:53-66 | the element at i is the i-th inline tag when i is below the inline count, else the frontmatter tag at i minus that count; it has its first `#` dropped, so it is one shorter exactly when the raw tag contains `#` |
| Tags.ExtractedEmpty | main.ts:52-59 | the result is empty if and only if every source is missing or empty; no case is an error |
| Tags.BareFrontmatterIsOneTag | main.ts:60 | a non-empty bare-string frontmatter value adds exactly one tag, that string stripped, after the inline tags |
| Tags.InlineOnlyExample | main.ts:53-66 | inline `#a`, `#b` and no frontmatter give `a`, `b` |
| Tags.InlineThenFrontmatterExample | main.ts:53-66 | inline `#a` with frontmatter `[b, c]` gives `a`, `b`, `c` in that order |
| Tags.DuplicatesKeptExample | main.ts:53-63 | inline `#a` with frontmatter `[a]` gives `a` twice: nothing is deduplicated |
| Command.FullPath | main.ts:35 | the absolute path is the base path, one `/`, then the vault-relative path, each part kept verbatim |
| Command.XattrCommand | main.ts:38 | the command is the fixed `xattr -w com.apple.metadata:_kMDItemUserTags ` prefix, an opening quote, the plist text verbatim, the separator `' '`, the full path verbatim and a closing quote, and nothing else: its length is the prefix plus both arguments plus 5, so no character of either argument is escaped |
| Command.ParseXattrCommandRoundTrip | main.ts:38 | when the plist text holds no single quote, both arguments are recovered from the command text, whatever the path holds |
| Command.ParseXattrCommandSound | main.ts:38 | any text the parser accepts is exactly the command the template builds from the two parts it returns |
| Command.XattrCommandInjective | main.ts:38 | commands built from quote-free plist texts are equal only when both their plist texts and their paths are equal |
| Command.QuotesAreNotEscaped | main.ts:35-38 | quotes are copied verbatim, so the argument pairs (`a' 'b`, `c`) and (`a`, `b' 'c`) give the same command |
| Plugin.FileChildren | main.ts:20-24 | never more files are selected than there are children |
| Plugin.FileChildrenMembership | main.ts:20-24 | a file is selected if and only if it is one of the children |
| Plugin.FileChildrenAppend | main.ts:20-24 | visiting one more child adds its file at the end if it is a file, and adds nothing if it is a folder |
| Plugin.FileChildrenCount | main.ts:20-24 | each file is selected exactly as many times as it occurs among the children; sub-folders are never selected |
| Plugin.FileChildrenAt | main.ts:20-24 | the file child at position i is selected right after the file children before it, so child order is kept |
| Plugin.FolderExample | main.ts:20-24 | two files around a sub-folder give both files, in order, and not the sub-folder |
| Plugin.MacTagPlugin.constructor | main.ts:6-7 | the plugin starts with the host services it is given and with no commands issued |
| Plugin.MacTagPlugin.CommandFor | main.ts:33-38 | when the plist text holds no quote, the command's two arguments are exactly the property list of the file's extracted tags and `basePath/path` |
| Plugin.MacTagPlugin.CommandsForAt | main.ts:20-24 | the folder's commands are one per selected file, the k-th being the `writeTags` command of the k-th file |
| Plugin.MacTagPlugin.CommandsForStep | main.ts:20-24 | visiting child i adds that file's `writeTags` command at the end when it is a file, and adds nothing when it is a folder |
| Plugin.MacTagPlugin.Exec | main.ts:38 | one call hands exactly one command to the shell, after those issued before |
| Plugin.MacTagPlugin.WriteTags | main.ts:33-38 | writing a file issues exactly one command: the `xattr` command carrying the plist of the file's extracted tags, aimed at `basePath/path` |
| Plugin.MacTagPlugin.WriteChild | main.ts:21-23 | visiting one child issues that file's `writeTags` command when it is a file, and issues nothing for a sub-folder |
| Plugin.MacTagPlugin.WriteFolderTags | main.ts:16-24 | the folder command issues one `writeTags` command per file child, in child order, and none for a sub-folder |

## Left out

- The `exec` callback and its asynchrony (main.ts:38-47). The model stops at the command
  handed to the shell. Exit codes and stderr are only logged by the code.
- `plist.build` (main.ts:36) is an external library. Its output is an opaque function of
  the tag list, and the property-list format is not modelled.
- The Obsidian host API is replaced by parameters: `Plugin`, `addCommand`,
  `metadataCache.getFileCache`, `vault.adapter.basePath` and
  `view.file.parent.children`. Resolving the parent folder is not modelled.
- `onload`/`onunload` registration and `console.log` output carry no stateable behaviour.
- Frontmatter `tags` values that are neither a string nor an array of strings are not
  modelled. Numbers, nested lists and null list items are examples; JavaScript behaviour
  there depends on the runtime value.
- Strings are sequences of `char`. JavaScript's UTF-16 code units are not distinguished.
- Plugin.FileChildren: its own contract only bounds the length. The exact selection is
  stated by FileChildrenMembership, FileChildrenAppend, FileChildrenCount and FileChildrenAt.
