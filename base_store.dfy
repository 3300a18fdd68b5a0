/**
 * `BaseStore`, the part every provider shares: the base paths read from the
 * configuration when a store is made, and the directory and file paths derived
 * from them. Two behaviours are kept exactly as the source has them: the
 * destination is appended to the absolute directory only when it is falsy
 * (so a real destination is never part of it, and the default None makes
 * `os.path.join` raise), and `relative_dir_path`, being a property, always sees
 * its `destination` argument as None.
 */
module BaseStores {
  import opened Wrappers
  import opened PosixPath
  import opened Uploads
  import opened FlaskApp

  /** `os.path.join` was handed None (an AttributeError in Python 2). */
  datatype PathError = NoneInJoin

  /** The constructor's rewrite of `STORE_RELATIVE_BASE_PATH`: one leading separator goes, no more. */
  function StripOneLeadingSep(raw: string): (r: string)
    ensures StartsWithSep(raw) ==> raw == [Sep] + r
    ensures !StartsWithSep(raw) ==> r == raw
  {
    if StartsWithSep(raw) then raw[1..] else raw
  }

  class BaseStore {
    const absoluteBasePath: string
    const relativeBasePath: string
    const file: Upload
    const destination: Option<string>
    /** werkzeug's `secure_filename`, which this model does not define. */
    const secureFilename: string -> string

    /** `BaseStore(file, destination)` with `config` the application's configuration. */
    constructor(config: Config, file: Upload, destination: Option<string>, secureFilename: string -> string)
      requires "STORE_ABSOLUTE_BASE_PATH" in config && "STORE_RELATIVE_BASE_PATH" in config
      ensures absoluteBasePath == config["STORE_ABSOLUTE_BASE_PATH"]
      ensures relativeBasePath == StripOneLeadingSep(config["STORE_RELATIVE_BASE_PATH"])
      ensures this.file == file && this.destination == destination
      ensures this.secureFilename == secureFilename
    {
      absoluteBasePath := config["STORE_ABSOLUTE_BASE_PATH"];
      var relative := config["STORE_RELATIVE_BASE_PATH"];
      if StartsWithSep(relative) {
        relative := relative[1..];
      }
      relativeBasePath := relative;
      this.file := file;
      this.destination := destination;
      this.secureFilename := secureFilename;
    }

    /** The `filename` property: the upload's declared name made safe. */
    function Filename(): (r: string)
      ensures r == secureFilename(file.filename)
    {
      secureFilename(file.filename)
    }

    /** The `absolute_dir_path` property. */
    function AbsoluteDirPath(): (r: Result<string, PathError>)
      ensures r.Failure? <==> destination == None
      ensures Truthy(destination) ==> r == Success(Join(absoluteBasePath, [relativeBasePath]))
      ensures destination == Some("") ==> r == Success(Join(absoluteBasePath, [relativeBasePath, ""]))
    {
      var parts := [relativeBasePath];
      if Truthy(destination) then Success(Join(absoluteBasePath, parts))
      else if destination.None? then Failure(NoneInJoin)
      else
        assert parts + [destination.value] == [relativeBasePath, ""];
        Success(Join(absoluteBasePath, parts + [destination.value]))
    }

    /** The `absolute_file_path` property. */
    function AbsoluteFilePath(): (r: Result<string, PathError>)
      ensures r.Failure? <==> AbsoluteDirPath().Failure?
      ensures r.Success? ==> r.value == Join2(AbsoluteDirPath().value, Filename())
    {
      match AbsoluteDirPath()
      case Failure(e) => Failure(e)
      case Success(dir) =>
        JoinOne(dir, Filename());
        Success(Join(dir, [Filename()]))
    }

    /**
     * The `relative_dir_path` property. Read as a property, its `destination`
     * argument is always None, so nothing is appended to the relative base.
     */
    function RelativeDirPath(): (r: string)
      ensures r == relativeBasePath
    {
      Join(relativeBasePath, [])
    }

    /** The `relative_file_path` property. */
    function RelativeFilePath(): (r: string)
      ensures r == Join2(RelativeDirPath(), Filename())
      ensures !StartsWithSep(Filename()) ==> relativeBasePath <= r
      ensures StartsWithSep(Filename()) ==> r == Filename()
      ensures relativeBasePath == "" ==> r == Filename()
    {
      JoinOne(RelativeDirPath(), Filename());
      Join(RelativeDirPath(), [Filename()])
    }

    /** Two stores that differ only in a real destination have the same absolute directory. */
    lemma AbsoluteDirPathIgnoresDestination(other: BaseStore)
      requires other.absoluteBasePath == absoluteBasePath && other.relativeBasePath == relativeBasePath
      requires Truthy(destination) && Truthy(other.destination)
      ensures AbsoluteDirPath() == other.AbsoluteDirPath()
    {
    }

    /**
     * With a relative base that does not start with a separator, the directory
     * and the file lie under the absolute base; only one leading separator is
     * stripped from the configured value, so a configured value starting with
     * two makes the relative base absolute and the absolute base is dropped.
     */
    lemma AbsoluteDirPathBase()
      requires destination.Some?
      ensures !StartsWithSep(relativeBasePath) ==> absoluteBasePath <= AbsoluteDirPath().value
      ensures StartsWithSep(relativeBasePath) && Truthy(destination) ==> AbsoluteDirPath() == Success(relativeBasePath)
    {
      var b := relativeBasePath;
      var one, two := [b], [b, ""];
      if !StartsWithSep(b) {
        assert forall i :: 0 <= i < |one| ==> !StartsWithSep(one[i]);
        assert forall i :: 0 <= i < |two| ==> !StartsWithSep(two[i]);
      } else {
        assert StartsWithSep(one[|one| - 1]);
      }
    }
  }
}
