/** The plugin object and its two commands: "Write Mac OS tags" writes the current file's
    tags; "Write Mac OS tags for current folder" writes them for every plain file among the
    children of the current file's parent folder. Each write hands one `xattr` command to
    the shell; here that hand-over appends the command to `executed`. */
module Plugin {
  import opened Wrappers
  import opened Tags
  import opened Command

  /** A note file of the vault, known by its vault-relative path. */
  datatype File = File(path: string)

  /** One child of a folder: a file, or a sub-folder. */
  datatype Entry = FileEntry(file: File) | FolderEntry(path: string)

  /** The children the folder command writes: the files, in child order, sub-folders skipped. */
  function FileChildren(children: seq<Entry>): (files: seq<File>)
    ensures |files| <= |children|
  {
    if children == [] then []
    else (if children[0].FileEntry? then [children[0].file] else []) + FileChildren(children[1..])
  }

  /** A file is written if and only if it is one of the children. */
  lemma {:induction false} FileChildrenMembership(children: seq<Entry>, f: File)
    ensures f in FileChildren(children) <==> FileEntry(f) in children
  {
    if children != [] {
      FileChildrenMembership(children[1..], f);
      assert children == [children[0]] + children[1..];
    }
  }

  lemma {:induction false} FileChildrenAppend(children: seq<Entry>, e: Entry)
    ensures FileChildren(children + [e]) == FileChildren(children) + (if e.FileEntry? then [e.file] else [])
  {
    if children != [] {
      assert (children + [e])[1..] == children[1..] + [e];
      FileChildrenAppend(children[1..], e);
    }
  }

  lemma FileChildrenStep(children: seq<Entry>, i: int)
    requires 0 <= i < |children|
    ensures FileChildren(children[..i + 1])
         == FileChildren(children[..i]) + (if children[i].FileEntry? then [children[i].file] else [])
  {
    assert children[..i + 1] == children[..i] + [children[i]];
    FileChildrenAppend(children[..i], children[i]);
  }

  /** Files are written exactly as often as they occur among the children: a file child
      once, a sub-folder never. */
  lemma {:induction false} FileChildrenCount(children: seq<Entry>, f: File)
    ensures multiset(FileChildren(children))[f] == multiset(children)[FileEntry(f)]
  {
    if children != [] {
      FileChildrenCount(children[1..], f);
      assert children == [children[0]] + children[1..];
      assert multiset(children) == multiset{children[0]} + multiset(children[1..]);
      var head := if children[0].FileEntry? then [children[0].file] else [];
      assert multiset(FileChildren(children)) == multiset(head) + multiset(FileChildren(children[1..]));
    }
  }

  /** The files before position `i` of `children` are written first, so the file at
      position `i` is written right after them: file children keep their order. */
  lemma {:induction false} FileChildrenAt(children: seq<Entry>, i: int)
    requires 0 <= i < |children| && children[i].FileEntry?
    ensures var before := |FileChildren(children[..i])|;
            before < |FileChildren(children)| && FileChildren(children)[before] == children[i].file
  {
    if i == 0 {
    } else {
      assert children[1..][..i - 1] == children[1..i];
      FileChildrenAt(children[1..], i - 1);
      assert children[..i] == [children[0]] + children[1..i];
      assert children[..i][1..] == children[1..i];
    }
  }

  /** Two file children around a sub-folder: both files are written, in order, the
      sub-folder is not. */
  lemma FolderExample(a: File, b: File, sub: string)
    ensures FileChildren([FileEntry(a), FolderEntry(sub), FileEntry(b)]) == [a, b]
  {
    var children := [FileEntry(a), FolderEntry(sub), FileEntry(b)];
    assert children[1..] == [FolderEntry(sub), FileEntry(b)];
    assert children[1..][1..] == [FileEntry(b)];
    assert children[1..][1..][1..] == [];
    assert FileChildren(children[1..][1..]) == [b];
    assert FileChildren(children[1..]) == [b];
  }

  lemma AppendAssociative<T>(a: seq<T>, b: seq<T>, c: seq<T>)
    ensures a + b + c == a + (b + c)
  {
  }

  /** The plugin object. The host's services are fixed at construction: the vault's base
      path, the metadata cache lookup, and the property-list serializer. */
  class MacTagPlugin {
    const basePath: string
    const getFileCache: File -> Option<CachedMetadata>
    const buildPlist: seq<string> -> string
    /** The shell commands handed to `exec`, in the order they were issued. */
    var executed: seq<string>

    constructor (basePath: string, getFileCache: File -> Option<CachedMetadata>,
                 buildPlist: seq<string> -> string)
      ensures this.basePath == basePath && this.getFileCache == getFileCache
      ensures this.buildPlist == buildPlist
      ensures executed == []
    {
      this.basePath := basePath;
      this.getFileCache := getFileCache;
      this.buildPlist := buildPlist;
      executed := [];
    }

    /** The command `writeTags` issues for `file`. Unless the property-list text holds a
        quote, its two arguments are exactly the property list of the file's extracted tags
        and the file's absolute path. */
    function CommandFor(file: File): (command: string)
      ensures var plistText := buildPlist(Extracted(getFileCache(file)));
              '\'' !in plistText ==>
                ParseXattrCommand(command) == Some((plistText, FullPath(basePath, file.path)))
    {
      var plistText := buildPlist(Extracted(getFileCache(file)));
      var fullPath := FullPath(basePath, file.path);
      assert '\'' !in plistText ==> ParseXattrCommand(XattrCommand(plistText, fullPath)) == Some((plistText, fullPath)) by {
        if '\'' !in plistText {
          ParseXattrCommandRoundTrip(plistText, fullPath);
        }
      }
      XattrCommand(plistText, fullPath)
    }

    /** The commands `writeTags` issues for `files`, one per file, in order. */
    function CommandsFor(files: seq<File>): seq<string>
    {
      if files == [] then [] else [CommandFor(files[0])] + CommandsFor(files[1..])
    }

    /** One command per file, the k-th for the k-th file. */
    lemma {:induction false} CommandsForAt(files: seq<File>, k: int)
      requires 0 <= k < |files|
      ensures |CommandsFor(files)| == |files| && CommandsFor(files)[k] == CommandFor(files[k])
    {
      assert CommandsFor(files) == [CommandFor(files[0])] + CommandsFor(files[1..]);
      if k > 0 {
        CommandsForAt(files[1..], k - 1);
        assert files[1..][k - 1] == files[k];
      } else {
        CommandsForLength(files[1..]);
      }
    }

    lemma {:induction false} CommandsForLength(files: seq<File>)
      ensures |CommandsFor(files)| == |files|
    {
      if files != [] {
        CommandsForLength(files[1..]);
      }
    }

    lemma {:induction false} CommandsForAppend(files: seq<File>, file: File)
      ensures CommandsFor(files + [file]) == CommandsFor(files) + [CommandFor(file)]
    {
      if files != [] {
        assert (files + [file])[1..] == files[1..] + [file];
        CommandsForAppend(files[1..], file);
      }
    }

    /** Visiting child `i` adds its command if it is a file, and nothing if it is a folder. */
    lemma CommandsForStep(children: seq<Entry>, i: int)
      requires 0 <= i < |children|
      ensures CommandsFor(FileChildren(children[..i + 1]))
           == CommandsFor(FileChildren(children[..i]))
              + (if children[i].FileEntry? then [CommandFor(children[i].file)] else [])
    {
      FileChildrenStep(children, i);
      if children[i].FileEntry? {
        CommandsForAppend(FileChildren(children[..i]), children[i].file);
      } else {
        assert FileChildren(children[..i]) + [] == FileChildren(children[..i]);
      }
    }

    /** Hands one command to the shell; the outcome is only logged by the plugin's `exec` callback. */
    method Exec(command: string)
      modifies this
      ensures executed == old(executed) + [command]
    {
      executed := executed + [command];
    }

    /** `writeTags`: one `xattr` command carrying the file's extracted tags as a property
        list, aimed at the file's absolute path. */
    method WriteTags(file: File)
      modifies this
      ensures executed == old(executed) + [CommandFor(file)]
    {
      var fileWithPath := FullPath(basePath, file.path);
      var tags := GetTags(getFileCache(file));
      var plTags := buildPlist(tags);
      Exec(XattrCommand(plTags, fileWithPath));
    }

    /** One step of the folder command: `writeTags` for a file child, nothing for a sub-folder. */
    method WriteChild(child: Entry)
      modifies this
      ensures executed == old(executed) + (if child.FileEntry? then [CommandFor(child.file)] else [])
    {
      if child.FileEntry? {
        WriteTags(child.file);
      }
    }

    /** The folder command: `writeTags` once for each file child of the parent folder,
        in child order, and nothing for a sub-folder. */
    method WriteFolderTags(children: seq<Entry>)
      modifies this
      ensures executed == old(executed) + CommandsFor(FileChildren(children))
    {
      var i := 0;
      while i < |children|
        invariant 0 <= i <= |children|
        invariant executed == old(executed) + CommandsFor(FileChildren(children[..i]))
      {
        ghost var done := CommandsFor(FileChildren(children[..i]));
        ghost var step := if children[i].FileEntry? then [CommandFor(children[i].file)] else [];
        CommandsForStep(children, i);
        WriteChild(children[i]);
        AppendAssociative(old(executed), done, step);
        i := i + 1;
      }
      assert children[..i] == children;
    }
  }
}
