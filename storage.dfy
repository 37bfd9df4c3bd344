/** `modules/storage.py`: the chat history and the event log, two JSON
    lists in files under `data/`. Every operation first makes sure both
    files exist; an append reads the whole list, adds one entry at its
    tail and writes the list back.

    The pure functions `Ensured`, `Read` and `Append` say what each
    operation does to the filesystem and returns; the methods below them
    perform the same steps on a `Disk` and are proved to agree. */
module Storage {
  import opened PyValues
  import opened Files

  const ChatFile: Path := "data/chat_history.json"
  const LogFile: Path := "data/logs.json"

  /** The two files this module manages. */
  predicate IsStoreFile(p: Path) {
    p == ChatFile || p == LogFile
  }

  /** The filesystem after an operation, with what the operation returned
      or the exception it raised. */
  datatype Effect<+T> = Effect(files: FileMap, result: Result<T, LoadError>)

  /** The filesystem after `ensure_data_dir`: each of the two files that is
      absent is created holding `[]`; a file that exists is left exactly as
      it is, whatever it holds. */
  function Ensured(fs: FileMap): (r: FileMap)
    ensures r.Keys == fs.Keys + {ChatFile, LogFile}
    ensures forall p :: p in fs ==> r[p] == fs[p]
    ensures ChatFile !in fs ==> r[ChatFile] == Doc([])
    ensures LogFile !in fs ==> r[LogFile] == Doc([])
  {
    var withChat := if ChatFile in fs then fs else fs[ChatFile := Doc([])];
    if LogFile in withChat then withChat else withChat[LogFile := Doc([])]
  }

  /** `read_chat` (path `ChatFile`) or `read_logs` (path `LogFile`). A file
      that was absent reads as `[]`; one that does not decode raises. The
      only change to the filesystem is `ensure_data_dir`'s. */
  function Read(fs: FileMap, path: Path): (r: Effect<seq<Json>>)
    requires IsStoreFile(path)
    ensures r.files == Ensured(fs)
    ensures path !in fs ==> r.result == Ok([])
    ensures path in fs ==> r.result == Load(fs, path)
  {
    var after := Ensured(fs);
    Effect(after, Load(after, path))
  }

  /** `append_chat(e)` (path `ChatFile`) or `append_log(e)` (path
      `LogFile`). When the list reads, the file afterwards reads as that
      list followed by `e`; when it does not, the exception propagates
      and nothing is written. The other file is left as `ensure_data_dir`
      left it. */
  function Append(fs: FileMap, path: Path, e: Json): (r: Effect<()>)
    requires IsStoreFile(path)
    ensures r.result.Ok? <==> Read(fs, path).result.Ok?
    ensures r.result.Err? ==> r.result.error == Read(fs, path).result.error
    ensures r.result.Ok? ==> Read(r.files, path).result == Ok(Read(fs, path).result.value + [e])
    ensures r.result.Err? ==> r.files == Ensured(fs)
    ensures r.files.Keys == Ensured(fs).Keys
    ensures forall p :: p in Ensured(fs) && p != path ==> r.files[p] == Ensured(fs)[p]
  {
    var before := Read(fs, path);
    match before.result
    case Ok(entries) => Effect(before.files[path := Doc(entries + [e])], Ok(()))
    case Err(err) => Effect(before.files, Err(err))
  }

  /** Consecutive appends of `es`, in order, stopping at the first one that
      raises. */
  function AppendAll(fs: FileMap, path: Path, es: seq<Json>): Effect<()>
    requires IsStoreFile(path)
    decreases |es|
  {
    if es == [] then Effect(fs, Ok(()))
    else
      var step := Append(fs, path, es[0]);
      if step.result.Err? then step else AppendAll(step.files, path, es[1..])
  }

  // ---------------------------------------------------------------------
  // Properties of the store
  // ---------------------------------------------------------------------

  /** `ensure_data_dir` is idempotent. */
  lemma EnsureIdempotent(fs: FileMap)
    ensures Ensured(Ensured(fs)) == Ensured(fs)
  {
  }

  /** Reading does not change what a later read returns. */
  lemma ReadTwiceSame(fs: FileMap, path: Path)
    requires IsStoreFile(path)
    ensures Read(Read(fs, path).files, path).result == Read(fs, path).result
  {
  }

  /** An append to one of the files leaves what the other file reads as
      unchanged. */
  lemma AppendKeepsOther(fs: FileMap, path: Path, other: Path, e: Json)
    requires IsStoreFile(path) && IsStoreFile(other) && path != other
    ensures Read(Append(fs, path, e).files, other).result == Read(fs, other).result
  {
  }

  /** A sequence of appends is read back in exactly the order appended,
      after the entries that were already there. */
  lemma {:induction false} AppendAllInOrder(fs: FileMap, path: Path, es: seq<Json>)
    requires IsStoreFile(path) && Read(fs, path).result.Ok?
    ensures AppendAll(fs, path, es).result == Ok(())
    ensures Read(AppendAll(fs, path, es).files, path).result == Ok(Read(fs, path).result.value + es)
    decreases |es|
  {
    var xs := Read(fs, path).result.value;
    if es == [] {
      assert xs + es == xs;
    } else {
      var step := Append(fs, path, es[0]);
      AppendAllInOrder(step.files, path, es[1..]);
      assert xs + [es[0]] + es[1..] == xs + es;
    }
  }

  /** A sequence of appends to one file leaves what the other reads as. */
  lemma {:induction false} AppendAllKeepsOther(fs: FileMap, path: Path, other: Path, es: seq<Json>)
    requires IsStoreFile(path) && IsStoreFile(other) && path != other
    ensures Read(AppendAll(fs, path, es).files, other).result == Read(fs, other).result
    decreases |es|
  {
    if es != [] {
      var step := Append(fs, path, es[0]);
      AppendKeepsOther(fs, path, other, es[0]);
      if step.result.Ok? {
        AppendAllKeepsOther(step.files, path, other, es[1..]);
      }
    }
  }

  // ---------------------------------------------------------------------
  // The operations, step by step on the filesystem
  // ---------------------------------------------------------------------

  /** `ensure_data_dir()`. */
  method EnsureDataDir(disk: Disk)
    modifies disk
    ensures disk.files == Ensured(old(disk.files))
  {
    if ChatFile !in disk.files {
      disk.files := disk.files[ChatFile := Doc([])];
    }
    if LogFile !in disk.files {
      disk.files := disk.files[LogFile := Doc([])];
    }
  }

  method ReadList(disk: Disk, path: Path) returns (r: Result<seq<Json>, LoadError>)
    requires IsStoreFile(path)
    modifies disk
    ensures Effect(disk.files, r) == Read(old(disk.files), path)
  {
    EnsureDataDir(disk);
    r := Load(disk.files, path);
  }

  method AppendEntry(disk: Disk, path: Path, e: Json) returns (r: Result<(), LoadError>)
    requires IsStoreFile(path)
    modifies disk
    ensures Effect(disk.files, r) == Append(old(disk.files), path, e)
  {
    var loaded := ReadList(disk, path);
    match loaded
    case Err(err) =>
      r := Err(err);
    case Ok(entries) =>
      var written := entries + [e];
      disk.files := disk.files[path := Doc(written)];
      r := Ok(());
  }

  /** `read_chat()`. */
  method ReadChat(disk: Disk) returns (r: Result<seq<Json>, LoadError>)
    modifies disk
    ensures Effect(disk.files, r) == Read(old(disk.files), ChatFile)
  {
    r := ReadList(disk, ChatFile);
  }

  /** `append_chat(entry)`. */
  method AppendChat(disk: Disk, entry: Json) returns (r: Result<(), LoadError>)
    modifies disk
    ensures Effect(disk.files, r) == Append(old(disk.files), ChatFile, entry)
  {
    r := AppendEntry(disk, ChatFile, entry);
  }

  /** `read_logs()`. */
  method ReadLogs(disk: Disk) returns (r: Result<seq<Json>, LoadError>)
    modifies disk
    ensures Effect(disk.files, r) == Read(old(disk.files), LogFile)
  {
    r := ReadList(disk, LogFile);
  }

  /** `append_log(entry)`. */
  method AppendLog(disk: Disk, entry: Json) returns (r: Result<(), LoadError>)
    modifies disk
    ensures Effect(disk.files, r) == Append(old(disk.files), LogFile, entry)
  {
    r := AppendEntry(disk, LogFile, entry);
  }
}
