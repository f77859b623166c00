/**
 * The storage facade (src/db/storage.rs): a directory whose entries are addressed by name, either
 * as sub-directories or as files named `name` + a configured extension. Reads and writes go to a
 * `Files.FileSystem` value; the directory listing that `get_names` walks is a parameter.
 */
module DbStorage {
  import opened Wrappers
  import opened Files

  /** `Storage`: a label for messages, the directory, the entry kind and the file extension. */
  datatype Storage = Storage(labelText: string, dir: Path, isDir: bool, extension: Option<string>)

  // ---------------------------------------------------------------- names and paths

  /** `build_file_name`: the name with the extension appended verbatim, if one is configured. */
  function BuildFileName(st: Storage, name: string): string
  {
    match st.extension
    case Some(ext) => name + ext
    case None => name
  }

  /** `build_file_path`: the file name joined onto the storage directory. */
  function BuildFilePath(st: Storage, name: string): Path
  {
    st.dir + [BuildFileName(st, name)]
  }

  /** Different names never share a file: the name is recovered from the path. */
  lemma BuildFilePathInjective(st: Storage, a: string, b: string)
    requires BuildFilePath(st, a) == BuildFilePath(st, b)
    ensures a == b
  {
    var fa, fb := BuildFileName(st, a), BuildFileName(st, b);
    assert fa == BuildFilePath(st, a)[|st.dir|] == BuildFilePath(st, b)[|st.dir|] == fb;
    if st.extension.Some? {
      assert a == fa[..|a|];
      assert b == fb[..|b|];
    }
  }

  /** Every storage path sits directly in the storage directory. */
  lemma BuildFilePathParent(st: Storage, name: string)
    ensures |BuildFilePath(st, name)| > 0 && Parent(BuildFilePath(st, name)) == st.dir
  {
    assert BuildFilePath(st, name)[..|st.dir|] == st.dir;
  }

  // ---------------------------------------------------------------- file operations

  /** `exists`: the name's path is present, as a file or a directory. */
  predicate Exists(st: Storage, fs: FileSystem, name: string)
  {
    PathExists(fs, BuildFilePath(st, name))
  }

  /** `save`: create (or truncate) the name's file and write the bytes. */
  function Save(st: Storage, fs: FileSystem, name: string, content: Bytes): Result<FileSystem, IoError>
  {
    CreateAndWrite(fs, BuildFilePath(st, name), content)
  }

  /** `load`: the whole content of the name's file. */
  function Load(st: Storage, fs: FileSystem, name: string): Result<Bytes, IoError>
  {
    ReadFile(fs, BuildFilePath(st, name))
  }

  /** `delete`: remove the name's file. */
  function Delete(st: Storage, fs: FileSystem, name: string): Result<FileSystem, IoError>
  {
    RemoveFile(fs, BuildFilePath(st, name))
  }

  /** `rename`: move the file of one name to the path of another. */
  function Rename(st: Storage, fs: FileSystem, oldName: string, newName: string): Result<FileSystem, IoError>
  {
    RenamePath(fs, BuildFilePath(st, oldName), BuildFilePath(st, newName))
  }

  /** `exists` holds exactly when loading does not fail with NotFound. */
  lemma ExistsIffFound(st: Storage, fs: FileSystem, name: string)
    ensures Exists(st, fs, name) <==> Load(st, fs, name) != Err(NotFound)
  {
  }

  /**
   * `save` succeeds exactly when the storage directory exists and the name's path is not a
   * directory; then loading the name gives the bytes back, every other name loads as before and
   * the directories are untouched.
   */
  lemma SaveThenLoad(st: Storage, fs: FileSystem, name: string, content: Bytes)
    ensures Save(st, fs, name, content).Ok? <==> st.dir in fs.dirs && BuildFilePath(st, name) !in fs.dirs
    ensures Save(st, fs, name, content).Ok? ==>
      var fs' := Save(st, fs, name, content).value;
      && Load(st, fs', name) == Ok(content)
      && Exists(st, fs', name)
      && fs'.dirs == fs.dirs
      && (WellFormed(fs) ==> WellFormed(fs'))
      && (forall other :: other != name ==> Load(st, fs', other) == Load(st, fs, other))
  {
    BuildFilePathParent(st, name);
    if Save(st, fs, name, content).Ok? {
      var fs' := Save(st, fs, name, content).value;
      forall other | other != name
        ensures Load(st, fs', other) == Load(st, fs, other)
      {
        if BuildFilePath(st, other) == BuildFilePath(st, name) {
          BuildFilePathInjective(st, other, name);
        }
      }
    }
  }

  /**
   * `delete` succeeds exactly when the name's path is a file; afterwards the name is gone and
   * every other name loads as before.
   */
  lemma DeleteRemoves(st: Storage, fs: FileSystem, name: string)
    requires WellFormed(fs)
    ensures Delete(st, fs, name).Ok? <==> BuildFilePath(st, name) in fs.files
    ensures Delete(st, fs, name).Ok? ==>
      var fs' := Delete(st, fs, name).value;
      && !Exists(st, fs', name)
      && Load(st, fs', name) == Err(NotFound)
      && WellFormed(fs')
      && (forall other :: other != name ==> Load(st, fs', other) == Load(st, fs, other))
  {
    if Delete(st, fs, name).Ok? {
      var fs' := Delete(st, fs, name).value;
      forall other | other != name
        ensures Load(st, fs', other) == Load(st, fs, other)
      {
        if BuildFilePath(st, other) == BuildFilePath(st, name) {
          BuildFilePathInjective(st, other, name);
        }
      }
    }
  }

  /**
   * `rename` succeeds exactly when the old name is a file, the storage directory exists and the
   * new name's path is not a directory; afterwards the new name holds the old content, the old
   * name is gone (unless the two are the same) and every third name loads as before.
   */
  lemma RenameMoves(st: Storage, fs: FileSystem, oldName: string, newName: string)
    requires WellFormed(fs)
    ensures Rename(st, fs, oldName, newName).Ok? <==>
      BuildFilePath(st, oldName) in fs.files && st.dir in fs.dirs && BuildFilePath(st, newName) !in fs.dirs
    ensures Rename(st, fs, oldName, newName).Ok? ==>
      var fs' := Rename(st, fs, oldName, newName).value;
      && Load(st, fs', newName) == Load(st, fs, oldName)
      && (oldName != newName ==> Load(st, fs', oldName) == Err(NotFound))
      && WellFormed(fs')
      && (forall other :: other != oldName && other != newName ==> Load(st, fs', other) == Load(st, fs, other))
  {
    BuildFilePathParent(st, newName);
    if Rename(st, fs, oldName, newName).Ok? {
      var fs' := Rename(st, fs, oldName, newName).value;
      if oldName != newName {
        if BuildFilePath(st, oldName) == BuildFilePath(st, newName) {
          BuildFilePathInjective(st, oldName, newName);
        }
      }
      forall other | other != oldName && other != newName
        ensures Load(st, fs', other) == Load(st, fs, other)
      {
        if BuildFilePath(st, other) == BuildFilePath(st, oldName) {
          BuildFilePathInjective(st, other, oldName);
        }
        if BuildFilePath(st, other) == BuildFilePath(st, newName) {
          BuildFilePathInjective(st, other, newName);
        }
      }
    }
  }

  // ---------------------------------------------------------------- listing

  /** The position of the last '.' in a file name, if any. */
  function LastDot(s: string): (r: Option<nat>)
    ensures r.Some? ==> r.value < |s| && s[r.value] == '.' && '.' !in s[r.value + 1..]
    ensures r.None? ==> '.' !in s
    decreases |s|
  {
    if s == [] then None
    else if s[|s| - 1] == '.' then Some(|s| - 1)
    else
      var r := LastDot(s[..|s| - 1]);
      if r.Some? then
        assert s[r.value + 1..] == s[..|s| - 1][r.value + 1..] + [s[|s| - 1]];
        r
      else
        assert s == s[..|s| - 1] + [s[|s| - 1]];
        r
  }

  /**
   * `Path::extension` of a file name: the text after the last '.', where a name without a dot,
   * a name whose only dot leads it, and ".." have none.
   */
  function Extension(fileName: string): (r: Option<string>)
    ensures r.Some? ==> '.' !in r.value
  {
    if fileName == ".." then None
    else
      match LastDot(fileName)
      case None => None
      case Some(i) => if i == 0 then None else Some(fileName[i + 1..])
  }

  /** A name with a non-empty stem, a dot and a dot-free tail has that tail as its extension. */
  lemma ExtensionOfDotted(stem: string, ext: string)
    requires |stem| > 0 && '.' !in ext && stem + "." + ext != ".."
    ensures Extension(stem + "." + ext) == Some(ext)
  {
    var s := stem + "." + ext;
    assert s[|stem|] == '.';
    assert s[|stem| + 1..] == ext;
    var r := LastDot(s);
    assert r.Some? by { assert s[|stem|] in s; }
  }

  /** A directory entry as `read_dir` yields it: its file name and the outcome of reading its metadata. */
  datatype DirEntry = DirEntry(fileName: string, metadata: Result<bool, IoError>)

  /** The entry filter of `get_names`, given the entry's name and whether it is a directory. */
  predicate Keeps(st: Storage, fileName: string, isDir: bool)
  {
    if st.isDir then isDir
    else if st.extension.Some? then !isDir && OrEmpty(Extension(fileName)) == st.extension.value
    else !isDir
  }

  /** What `get_names` returns for the entries from a position on: the kept names, or the first error. */
  function Collect(st: Storage, entries: seq<Result<DirEntry, IoError>>): Result<seq<string>, IoError>
    decreases |entries|
  {
    if entries == [] then Ok([])
    else
      match entries[0]
      case Err(e) => Err(e)
      case Ok(entry) =>
        match entry.metadata
        case Err(e) => Err(e)
        case Ok(isDir) =>
          match Collect(st, entries[1..])
          case Err(e) => Err(e)
          case Ok(rest) => Ok((if Keeps(st, entry.fileName, isDir) then [entry.fileName] else []) + rest)
  }

  /** `get_names` on a listing: the directory must be readable, then every entry is examined in order. */
  function Names(st: Storage, listing: Result<seq<Result<DirEntry, IoError>>, IoError>): Result<seq<string>, IoError>
  {
    match listing
    case Err(e) => Err(e)
    case Ok(entries) => Collect(st, entries)
  }

  /** Names gathered so far, followed by whatever the rest of the walk gives. */
  function Prepend(names: seq<string>, rest: Result<seq<string>, IoError>): Result<seq<string>, IoError>
  {
    match rest
    case Err(e) => Err(e)
    case Ok(more) => Ok(names + more)
  }

  /** `get_names`: the `for` loop over the listing, pushing each kept name and stopping at the first error. */
  method GetNames(st: Storage, listing: Result<seq<Result<DirEntry, IoError>>, IoError>)
    returns (r: Result<seq<string>, IoError>)
    ensures r == Names(st, listing)
  {
    if listing.Err? {
      return Err(listing.error);
    }
    var entries := listing.value;
    var names: seq<string> := [];
    var i := 0;
    assert entries[i..] == entries;
    assert forall more :: names + more == more;
    while i < |entries|
      invariant i <= |entries|
      invariant Collect(st, entries) == Prepend(names, Collect(st, entries[i..]))
    {
      assert entries[i..][1..] == entries[i + 1..];
      match entries[i] {
        case Err(e) =>
          return Err(e);
        case Ok(entry) =>
          match entry.metadata {
            case Err(e) =>
              return Err(e);
            case Ok(isDir) =>
              var kept := if Keeps(st, entry.fileName, isDir) then [entry.fileName] else [];
              assert forall more :: names + (kept + more) == names + kept + more;
              names := names + kept;
          }
      }
      i := i + 1;
    }
    assert entries[i..] == [];
    assert names + [] == names;
    r := Ok(names);
  }

  /** A listing whose every entry and metadata read succeeds. */
  function Clean(entries: seq<(string, bool)>): (r: seq<Result<DirEntry, IoError>>)
    ensures |r| == |entries|
  {
    seq(|entries|, i requires 0 <= i < |entries| => Ok(DirEntry(entries[i].0, Ok(entries[i].1))))
  }

  /** The kept names of a clean listing, in listing order. */
  function Filter(st: Storage, entries: seq<(string, bool)>): seq<string>
    decreases |entries|
  {
    if entries == [] then []
    else (if Keeps(st, entries[0].0, entries[0].1) then [entries[0].0] else []) + Filter(st, entries[1..])
  }

  /** Without errors, `get_names` returns exactly the kept names, in listing order. */
  lemma {:induction false} CleanListing(st: Storage, entries: seq<(string, bool)>)
    ensures Collect(st, Clean(entries)) == Ok(Filter(st, entries))
    decreases |entries|
  {
    if entries != [] {
      assert Clean(entries)[1..] == Clean(entries[1..]);
      CleanListing(st, entries[1..]);
    }
  }

  /** A name is returned exactly when some entry has it and passes the filter. */
  lemma {:induction false} FilterMembers(st: Storage, entries: seq<(string, bool)>, name: string)
    ensures name in Filter(st, entries) <==>
      exists i :: 0 <= i < |entries| && entries[i].0 == name && Keeps(st, name, entries[i].1)
    decreases |entries|
  {
    if entries != [] {
      FilterMembers(st, entries[1..], name);
      if exists i :: 0 <= i < |entries[1..]| && entries[1..][i].0 == name && Keeps(st, name, entries[1..][i].1) {
        var i :| 0 <= i < |entries[1..]| && entries[1..][i].0 == name && Keeps(st, name, entries[1..][i].1);
        assert entries[i + 1] == entries[1..][i];
      }
      if exists i :: 0 <= i < |entries| && entries[i].0 == name && Keeps(st, name, entries[i].1) {
        var i :| 0 <= i < |entries| && entries[i].0 == name && Keeps(st, name, entries[i].1);
        if i > 0 {
          assert entries[1..][i - 1] == entries[i];
        }
      }
    }
  }

  /**
   * In directory mode a name is returned exactly when a directory entry has it, and a listing of
   * directories only comes back whole, in listing order.
   */
  lemma {:induction false} DirModeListsDirectories(st: Storage, entries: seq<(string, bool)>)
    requires st.isDir
    ensures forall name :: name in Filter(st, entries) <==>
      exists i :: 0 <= i < |entries| && entries[i].0 == name && entries[i].1
    ensures (forall i :: 0 <= i < |entries| ==> entries[i].1) ==>
      Filter(st, entries) == seq(|entries|, i requires 0 <= i < |entries| => entries[i].0)
    decreases |entries|
  {
    forall name
      ensures name in Filter(st, entries) <==> exists i :: 0 <= i < |entries| && entries[i].0 == name && entries[i].1
    {
      FilterMembers(st, entries, name);
    }
    if entries != [] {
      DirModeListsDirectories(st, entries[1..]);
    }
  }

  /**
   * In file mode with an extension that contains a '.', such as ".json", no entry is ever kept:
   * `Path::extension` has no dot and so never equals the configured text.
   */
  lemma DottedExtensionMatchesNothing(st: Storage, entries: seq<(string, bool)>)
    requires !st.isDir && st.extension.Some? && '.' in st.extension.value
    ensures Names(st, Ok(Clean(entries))) == Ok([])
  {
    CleanListing(st, entries);
    if Filter(st, entries) != [] {
      FilterMembers(st, entries, Filter(st, entries)[0]);
    }
  }

  /** So a file written by `save` under a ".json" storage is never listed by `get_names`. */
  lemma SavedJsonNeverListed(st: Storage, name: string)
    requires !st.isDir && st.extension == Some(".json")
    ensures !Keeps(st, BuildFileName(st, name), false)
  {
    assert '.' in st.extension.value by { assert st.extension.value[0] == '.'; }
  }

  /** In file mode with a dot-free extension, a regular file "stem.ext" is kept. */
  lemma DotFreeExtensionMatches(st: Storage, stem: string)
    requires !st.isDir && st.extension.Some? && '.' !in st.extension.value
    requires |stem| > 0 && stem + "." + st.extension.value != ".."
    ensures Keeps(st, stem + "." + st.extension.value, false)
  {
    ExtensionOfDotted(stem, st.extension.value);
  }

  /** The first failing entry (or metadata read) decides the result, whatever follows it. */
  lemma {:induction false} FirstErrorWins(st: Storage, before: seq<(string, bool)>, failed: Result<DirEntry, IoError>,
                                          after: seq<Result<DirEntry, IoError>>)
    requires failed.Err? || failed.value.metadata.Err?
    ensures Names(st, Ok(Clean(before) + [failed] + after))
         == Err(if failed.Err? then failed.error else failed.value.metadata.error)
    decreases |before|
  {
    var entries := Clean(before) + [failed] + after;
    if before == [] {
      assert entries[0] == failed;
    } else {
      assert entries[0] == Clean(before)[0];
      assert entries[1..] == Clean(before[1..]) + [failed] + after;
      FirstErrorWins(st, before[1..], failed, after);
    }
  }
}
