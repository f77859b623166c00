/**
 * The part of the file system the db modules use, as a value: a set of directories and a map
 * from file paths to their bytes. A path is its sequence of components. The operations are the
 * outcomes of the std::fs calls on such a value; UTF-8 decoding is the parameter `utf8`.
 */
module Files {
  import opened Wrappers

  type Bytes = seq<bv8>

  /** A path as its components; `dir.join(name)` appends one component. */
  type Path = seq<string>

  /** The `io::ErrorKind`s the model produces. */
  datatype IoError = NotFound | IsADirectory | InvalidData | Unsupported

  datatype FileSystem = FileSystem(dirs: set<Path>, files: map<Path, Bytes>)

  /** No path is both a directory and a file. */
  predicate WellFormed(fs: FileSystem)
  {
    forall p :: p in fs.files ==> p !in fs.dirs
  }

  /** `Path::exists`: a file or a directory is there. */
  predicate PathExists(fs: FileSystem, p: Path)
  {
    p in fs.dirs || p in fs.files
  }

  /** The directory a path lives in. */
  function Parent(p: Path): Path
    requires |p| > 0
  {
    p[..|p| - 1]
  }

  /** `File::open` then `read_to_end` (also `fs::read`): a directory opens but cannot be read. */
  function ReadFile(fs: FileSystem, p: Path): Result<Bytes, IoError>
  {
    if p in fs.files then Ok(fs.files[p])
    else if p in fs.dirs then Err(IsADirectory)
    else Err(NotFound)
  }

  /** `fs::read_to_string`: the bytes must decode as UTF-8. */
  function ReadToString(fs: FileSystem, p: Path, utf8: Bytes -> Option<string>): Result<string, IoError>
  {
    match ReadFile(fs, p)
    case Err(e) => Err(e)
    case Ok(bytes) => if utf8(bytes).Some? then Ok(utf8(bytes).value) else Err(InvalidData)
  }

  /** `File::create` then `write_all`: the parent directory must exist and the path must not be a directory. */
  function CreateAndWrite(fs: FileSystem, p: Path, content: Bytes): Result<FileSystem, IoError>
  {
    if p in fs.dirs then Err(IsADirectory)
    else if |p| == 0 || Parent(p) !in fs.dirs then Err(NotFound)
    else Ok(fs.(files := fs.files[p := content]))
  }

  /** `fs::remove_file`: only a file can be removed. */
  function RemoveFile(fs: FileSystem, p: Path): Result<FileSystem, IoError>
  {
    if p in fs.files then Ok(fs.(files := fs.files - {p}))
    else if p in fs.dirs then Err(IsADirectory)
    else Err(NotFound)
  }

  /**
   * `fs::rename` of a file: the target's parent must exist, a directory target is refused and a
   * file target is replaced. Renaming a directory is outside the model (Unsupported).
   */
  function RenamePath(fs: FileSystem, from: Path, to: Path): Result<FileSystem, IoError>
  {
    if from in fs.files then
      if to in fs.dirs then Err(IsADirectory)
      else if |to| == 0 || Parent(to) !in fs.dirs then Err(NotFound)
      else Ok(fs.(files := (fs.files - {from})[to := fs.files[from]]))
    else if from in fs.dirs then Err(Unsupported)
    else Err(NotFound)
  }
}
