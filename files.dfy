/** The part of the filesystem the app uses: JSON documents under `data/`,
    each one a list of records as `json.dump` wrote it. */
module Files {
  import opened PyValues

  type Path = string

  /** What a file holds, as far as `json.load` and the code after it are
      concerned: a JSON list, or content that is not one (bytes that do not
      decode, or a decoded value that is not a list). */
  datatype Content = Doc(items: seq<Json>) | Unreadable

  type FileMap = map<Path, Content>

  /** A failed `json.load` of the file at `path`. */
  datatype LoadError = Undecodable(path: Path)

  /** `json.load` of an existing file. Writing a list and loading it back
      is exact: the model abstracts away indentation and escaping. */
  function Load(files: FileMap, path: Path): (r: Result<seq<Json>, LoadError>)
    requires path in files
    ensures r.Ok? <==> files[path].Doc?
    ensures r.Ok? ==> r.value == files[path].items
    ensures r.Err? ==> r.error == Undecodable(path)
  {
    match files[path]
    case Doc(items) => Ok(items)
    case Unreadable => Err(Undecodable(path))
  }

  /** The filesystem, shared by everything that opens a file. */
  class Disk {
    var files: FileMap

    constructor (initial: FileMap)
      ensures files == initial
    {
      files := initial;
    }
  }
}
