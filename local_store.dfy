/**
 * `LocalStore`, the provider that keeps uploads on the local filesystem: the
 * separator-safe `join`, the paths and URL parts built on it, `exists`, the
 * `save` protocol (resolve, create the directory, check it, write, close) and
 * the configuration defaults the provider installs.
 */
module LocalStores {
  import opened Wrappers
  import opened PosixPath
  import opened OsModel
  import opened Uploads
  import opened FlaskApp

  /** What `save` and `relative_url` raise. */
  datatype StoreError =
    | KeyError(key: string)        // a configuration key is missing
    | OSError(errno: int)          // `os.makedirs` failed with something other than EEXIST
    | NotADirectory(path: string)  // the IOError raised when the parent is not a directory
    | WriteError(errno: int)       // `file.save` failed

  /**
   * The accumulator of the loop in `LocalStore.join` once it has consumed
   * `parts`: every part but the first loses its leading separators and is
   * appended with `os.path.join`.
   */
  function Accumulate(parts: seq<string>): string
  {
    if |parts| == 0 then ""
    else
      var last := parts[|parts| - 1];
      Join2(Accumulate(parts[..|parts| - 1]), if |parts| > 1 then LStrip(last) else last)
  }

  /** The result of `LocalStore.join(*parts)`: the accumulator without trailing separators. */
  function SafeJoin(parts: seq<string>): (r: string)
    ensures !EndsWithSep(r)
  {
    RStrip(Accumulate(parts))
  }

  /** `p` is `dir` itself or lies below it. */
  predicate Under(dir: string, p: string) {
    dir <= p && (dir != "" && |p| > |dir| ==> p[|dir|] == Sep)
  }

  lemma {:induction false} AccumulateReplaceLater(parts: seq<string>, k: nat, t: string)
    requires 0 < k < |parts| && LStrip(t) == LStrip(parts[k])
    ensures Accumulate(parts[k := t]) == Accumulate(parts)
  {
    var n := |parts|;
    var q := parts[k := t];
    assert Accumulate(parts) == Join2(Accumulate(parts[..n - 1]), LStrip(parts[n - 1]));
    assert Accumulate(q) == Join2(Accumulate(q[..n - 1]), LStrip(q[n - 1]));
    if k < n - 1 {
      assert q[..n - 1] == parts[..n - 1][k := t];
      AccumulateReplaceLater(parts[..n - 1], k, t);
      assert q[n - 1] == parts[n - 1];
    } else {
      assert q[..n - 1] == parts[..n - 1];
    }
  }

  /**
   * Leading separators on any part after the first make no difference: a later
   * part can only be appended, never restart the path at the root.
   */
  lemma {:induction false} LaterLeadingSepsIgnored(parts: seq<string>, k: nat, t: string)
    requires 0 < k < |parts| && LStrip(t) == LStrip(parts[k])
    ensures SafeJoin(parts[k := t]) == SafeJoin(parts)
  {
    AccumulateReplaceLater(parts, k, t);
  }

  /** The instance `join("a", "/b") == join("a", "b") == "a/b"`. */
  lemma JoinDropsLaterRoot()
    ensures SafeJoin(["a", "/b"]) == SafeJoin(["a", "b"]) == "a/b"
  {
    LaterLeadingSepsIgnored(["a", "b"], 1, "/b");
    assert ["a", "b"][1 := "/b"] == ["a", "/b"];
    assert ["a", "b"][..1] == ["a"];
    assert Accumulate(["a"]) == "a";
  }

  /** The accumulator starts with the first part and continues it with a separator. */
  lemma {:induction false} AccumulateExtendsFirst(parts: seq<string>)
    requires |parts| > 0
    ensures parts[0] <= Accumulate(parts)
    ensures var a, p := Accumulate(parts), parts[0];
      |a| > |p| && p != "" && !EndsWithSep(p) ==> a[|p|] == Sep
  {
    var n := |parts|;
    if n > 1 {
      var init := parts[..n - 1];
      AccumulateExtendsFirst(init);
      assert init[0] == parts[0];
      var b, p := Accumulate(init), parts[0];
      var tail := LStrip(parts[n - 1]);
      assert Accumulate(parts) == Join2(b, tail);
      Join2Appends(b, tail);
      assert b <= Join2(b, tail);
    }
  }

  /** Two prefixes of the same string: the shorter is a prefix of the longer. */
  lemma PrefixesOfOne(x: string, y: string, z: string)
    requires x <= z && y <= z && |x| <= |y|
    ensures x <= y
  {
    assert forall i :: 0 <= i < |x| ==> x[i] == z[i] == y[i];
  }

  /**
   * The joined path stays below its first part (with that part's trailing
   * separators removed): no later part can lead out of it.
   */
  lemma {:induction false} JoinStaysUnderFirst(parts: seq<string>)
    requires |parts| > 0
    ensures Under(RStrip(parts[0]), SafeJoin(parts))
  {
    AccumulateExtendsFirst(parts);
    StrippedStaysUnder(parts[0], Accumulate(parts));
  }

  /**
   * If `a` continues `p` with a separator, then `a` with its trailing
   * separators removed lies under `p` with its trailing separators removed.
   */
  lemma StrippedStaysUnder(p: string, a: string)
    requires p <= a
    requires |a| > |p| && p != "" && !EndsWithSep(p) ==> a[|p|] == Sep
    ensures Under(RStrip(p), RStrip(a))
  {
    var d, r := RStrip(p), RStrip(a);
    if d != "" {
      assert a[|d| - 1] == p[|d| - 1] == d[|d| - 1] != Sep;
      RStripKeeps(a, |d| - 1);
      PrefixesOfOne(d, p, a);
      PrefixesOfOne(d, r, a);
      if |r| > |d| {
        if |p| > |d| {
          assert p[|d|..][0] == Sep;
        }
        assert r[|d|] == a[|d|] == Sep;
      }
    }
  }

  /** A part that is neither first nor absolute never makes the accumulator absolute. */
  lemma {:induction false} AccumulateRelative(parts: seq<string>)
    requires |parts| > 0 && !StartsWithSep(parts[0])
    ensures !StartsWithSep(Accumulate(parts))
  {
    var n := |parts|;
    if n > 1 {
      var init := parts[..n - 1];
      assert init[0] == parts[0];
      AccumulateRelative(init);
    }
  }

  /** Only the first part can anchor the joined path at the root. */
  lemma {:induction false} OnlyFirstPartAnchors(parts: seq<string>)
    requires |parts| > 0
    ensures StartsWithSep(SafeJoin(parts)) <==> StartsWithSep(parts[0]) && SafeJoin(parts) != ""
  {
    var a, r := Accumulate(parts), SafeJoin(parts);
    if StartsWithSep(parts[0]) {
      AccumulateExtendsFirst(parts);
      assert r != "" ==> r[0] == a[0] == parts[0][0];
    } else {
      AccumulateRelative(parts);
      assert r != "" ==> r[0] == a[0];
    }
  }

  /** `app.config` after `LocalStore.app_defaults(app)` with `cwd` the working directory. */
  function LocalDefaults(config: Config, cwd: string): (r: Config)
    ensures r.Keys == config.Keys + {"STORE_PATH", "STORE_URL_PREFIX"}
    ensures forall k :: k in config ==> r[k] == config[k]
    ensures "STORE_PATH" !in config ==> r["STORE_PATH"] == cwd
    ensures "STORE_URL_PREFIX" !in config ==> r["STORE_URL_PREFIX"] == "/flaskstore"
  {
    WithDefault(WithDefault(config, "STORE_PATH", cwd), "STORE_URL_PREFIX", "/flaskstore")
  }

  /** Installing the defaults again, even from another working directory, changes nothing. */
  lemma LocalDefaultsIdempotent(config: Config, cwd: string, cwd': string)
    ensures LocalDefaults(LocalDefaults(config, cwd), cwd') == LocalDefaults(config, cwd)
  {
  }

  /** The accumulator of two parts joins the first with the second stripped of leading separators. */
  lemma AccumulatePair(a: string, b: string)
    ensures Accumulate([a, b]) == Join2(a, LStrip(b))
  {
    var parts := [a, b];
    assert parts[..1] == [a];
    assert [a][..0] == [];
    assert Accumulate([a]) == Join2("", a) == a;
    assert Accumulate(parts) == Join2(Accumulate(parts[..1]), LStrip(parts[1]));
  }

  /** Joining a name that neither starts nor ends with a separator and stripping the result keeps the name at the end. */
  lemma JoinKeepsLastName(a: string, f: string)
    requires !StartsWithSep(f)
    ensures f != "" && !EndsWithSep(f) ==> RStrip(Join2(a, f)) == Join2(a, f)
    ensures f != "" && !EndsWithSep(f) ==> var r := RStrip(Join2(a, f)); |f| <= |r| && r[|r| - |f|..] == f
  {
    var j := Join2(a, f);
    Join2Appends(a, f);
    if f != "" && !EndsWithSep(f) {
      assert j[|j| - 1] == f[|f| - 1];
      assert RStrip(j) == j;
    }
  }

  /** A non-empty name without separators is left alone by `lstrip` and does not end with one. */
  lemma PlainName(f: string)
    ensures f != "" && Sep !in f ==> LStrip(f) == f && !EndsWithSep(f)
  {
    if f != "" && Sep !in f {
      assert f[0] in f && f[|f| - 1] in f;
    }
  }

  /** Everything `LocalStore.save` leaves behind: its result, the filesystem and the upload's calls. */
  datatype SaveTrace = SaveTrace(result: Result<string, StoreError>, nodes: Nodes, events: seq<Event>)

  class LocalStore {
    /** `self.store_path`: the directory every file is stored under. */
    const storePath: string
    const destination: Option<string>
    /** `self.safe_filename`, `self.url_join` and `path_to_uri`, none of which this model defines. */
    const safeFilename: string -> string
    const urlJoin: seq<string> -> string
    const pathToUri: string -> string

    constructor(storePath: string, destination: Option<string>, safeFilename: string -> string,
                urlJoin: seq<string> -> string, pathToUri: string -> string)
      ensures this.storePath == storePath && this.destination == destination
      ensures this.safeFilename == safeFilename && this.urlJoin == urlJoin && this.pathToUri == pathToUri
    {
      this.storePath := storePath;
      this.destination := destination;
      this.safeFilename := safeFilename;
      this.urlJoin := urlJoin;
      this.pathToUri := pathToUri;
    }

    /** `LocalStore.app_defaults(app)`: `setdefault` of the store path and the URL prefix. */
    static method AppDefaults<E>(app: App<E>, cwd: string)
      modifies app
      ensures app.config == LocalDefaults(old(app.config), cwd)
      ensures app.extensions == old(app.extensions)
    {
      app.SetDefault("STORE_PATH", cwd);
      app.SetDefault("STORE_URL_PREFIX", "/flaskstore");
    }

    /** `self.join(*parts)`. */
    method Join(parts: seq<string>) returns (path: string)
      ensures path == SafeJoin(parts)
      ensures !EndsWithSep(path)
    {
      path := "";
      var i := 0;
      while i < |parts|
        invariant 0 <= i <= |parts|
        invariant path == Accumulate(parts[..i])
      {
        var part := parts[i];
        if i > 0 {
          part := LStrip(part);
        }
        assert parts[..i + 1][..i] == parts[..i];
        path := Join2(path, part);
        i := i + 1;
      }
      assert parts[..i] == parts;
      path := RStrip(path);
    }

    /** `self.absolute_path(filename)`: the file's place under the store path. */
    function AbsolutePath(filename: string): (r: string)
      ensures Under(RStrip(storePath), r)
      ensures StartsWithSep(r) ==> StartsWithSep(storePath)
      ensures !EndsWithSep(r)
    {
      JoinStaysUnderFirst([storePath, filename]);
      OnlyFirstPartAnchors([storePath, filename]);
      SafeJoin([storePath, filename])
    }

    /**
     * The absolute path names the file: it ends with the filename (leading
     * separators dropped), and a plain name is joined onto the store path.
     */
    lemma AbsolutePathNamesFile(filename: string)
      ensures var r, f := AbsolutePath(filename), LStrip(filename);
        f != "" && !EndsWithSep(f) ==> |f| <= |r| && r[|r| - |f|..] == f
      ensures filename != "" && Sep !in filename ==> AbsolutePath(filename) == Join2(storePath, filename)
    {
      var f := LStrip(filename);
      AccumulatePair(storePath, filename);
      assert AbsolutePath(filename) == RStrip(Join2(storePath, f));
      JoinKeepsLastName(storePath, f);
      PlainName(filename);
    }

    /** The parts `relative_path` and `relative_url` build: the destination if it is truthy, then the file. */
    function PathParts(filename: string): (parts: seq<string>)
      ensures |parts| == (if Truthy(destination) then 2 else 1)
      ensures parts[|parts| - 1] == filename
      ensures Truthy(destination) ==> parts[0] == destination.value
    {
      (if Truthy(destination) then [destination.value] else []) + [filename]
    }

    /** `self.relative_path(filename)`. */
    function RelativePath(filename: string): (r: string)
      ensures Truthy(destination) ==> r == SafeJoin([destination.value, filename])
      ensures !Truthy(destination) ==> r == RStrip(filename)
    {
      var parts := PathParts(filename);
      assert Truthy(destination) ==> parts == [destination.value, filename];
      assert !Truthy(destination) ==> Accumulate(parts) == filename by {
        assert parts[..0] == [];
      }
      SafeJoin(parts)
    }

    /** The parts handed to `url_join` by `relative_url`: the URL prefix, then the relative path's parts. */
    function UrlParts(prefix: string, filename: string): (parts: seq<string>)
      ensures parts == [prefix] + PathParts(filename)
      ensures parts[0] == prefix && parts[|parts| - 1] == filename
    {
      var parts := [prefix];
      var parts := if Truthy(destination) then parts + [destination.value] else parts;
      parts + [filename]
    }

    /** `self.relative_url(filename)`, reading `STORE_URL_PREFIX` from the configuration. */
    function RelativeUrl(config: Config, filename: string): (r: Result<string, StoreError>)
      ensures r.Failure? <==> "STORE_URL_PREFIX" !in config
      ensures r.Failure? ==> r.error == KeyError("STORE_URL_PREFIX")
      ensures r.Success? ==> r.value == pathToUri(urlJoin([config["STORE_URL_PREFIX"]] + PathParts(filename)))
    {
      if "STORE_URL_PREFIX" !in config then Failure(KeyError("STORE_URL_PREFIX"))
      else Success(pathToUri(urlJoin(UrlParts(config["STORE_URL_PREFIX"], filename))))
    }

    /** `self.exists(filename)`: a filesystem query at the file's absolute path. */
    function Exists(fs: FileSystem, filename: string): (b: bool)
      reads fs
      ensures b <==> PathExists(fs.nodes, AbsolutePath(filename))
    {
      PathExists(fs.nodes, SafeJoin([storePath, filename]))
    }

    /**
     * What `self.save(file)` does, step by step, to filesystem `nodes` and an
     * upload whose calls so far are `events` and whose declared name is
     * `declared`; `effect` and `writeFault` are the operating system's answers.
     */
    function SaveOutcome(nodes: Nodes, events: seq<Event>, declared: string,
                         effect: MakeDirsEffect, writeFault: Option<int>): (t: SaveTrace)
      ensures events <= t.events && |t.events| <= |events| + 2
      ensures t.result.Success? ==> t.result.value == safeFilename(declared)
    {
      var filename := safeFilename(declared);
      var path := AbsolutePath(filename);
      var directory := Dirname(path);
      FinishSave(PrepareDirectory(nodes, directory, effect), events, filename, path, directory, writeFault)
    }

    /** `save`'s directory step: `makedirs` runs only when the directory is missing. */
    static function PrepareDirectory(nodes: Nodes, directory: string, effect: MakeDirsEffect): (made: (Option<int>, Nodes))
      ensures forall q :: q in nodes ==> q in made.1 && made.1[q] == nodes[q]
    {
      if PathExists(nodes, directory) then (None, nodes) else MakeDirsResult(nodes, directory, effect)
    }

    /** `save` after the directory step: the error checks, the write and the close. */
    static function FinishSave(made: (Option<int>, Nodes), events: seq<Event>, filename: string,
                               path: string, directory: string, writeFault: Option<int>): (t: SaveTrace)
      ensures forall q :: q in made.1 && q != path ==> q in t.nodes && t.nodes[q] == made.1[q]
      ensures events <= t.events && |t.events| <= |events| + 2
      ensures t.result.Success? ==> t.result.value == filename
    {
      if made.0.Some? && made.0.value != EEXIST then
        SaveTrace(Failure(OSError(made.0.value)), made.1, events)
      else if !IsDir(made.1, directory) then
        SaveTrace(Failure(NotADirectory(directory)), made.1, events)
      else
        var written := WriteResult(made.1, path, writeFault);
        if written.0.Some? then
          SaveTrace(Failure(WriteError(written.0.value)), written.1, events + [SaveCalled(path)])
        else
          SaveTrace(Success(filename), written.1, events + [SaveCalled(path), CloseCalled])
    }

    /** `save` keeps every existing entry other than the file it writes. */
    lemma SaveKeepsOtherEntries(nodes: Nodes, events: seq<Event>, declared: string,
                                effect: MakeDirsEffect, writeFault: Option<int>)
      ensures var t := SaveOutcome(nodes, events, declared, effect, writeFault);
        var path := AbsolutePath(safeFilename(declared));
        forall q :: q in nodes && q != path ==> q in t.nodes && t.nodes[q] == nodes[q]
    {
      var filename := safeFilename(declared);
      var path := AbsolutePath(filename);
      var directory := Dirname(path);
      var made := PrepareDirectory(nodes, directory, effect);
      assert SaveOutcome(nodes, events, declared, effect, writeFault)
          == FinishSave(made, events, filename, path, directory, writeFault);
    }

    /** `self.save(file)`. */
    method Save(file: Upload, fs: FileSystem, effect: MakeDirsEffect, writeFault: Option<int>)
      returns (r: Result<string, StoreError>)
      modifies file, fs
      ensures SaveTrace(r, fs.nodes, file.events)
           == SaveOutcome(old(fs.nodes), old(file.events), file.filename, effect, writeFault)
    {
      var filename := safeFilename(file.filename);
      var path := Join([storePath, filename]);
      var directory := Dirname(path);
      ghost var made := PrepareDirectory(fs.nodes, directory, effect);
      assert SaveOutcome(fs.nodes, file.events, file.filename, effect, writeFault)
          == FinishSave(made, file.events, filename, path, directory, writeFault);

      if !PathExists(fs.nodes, directory) {
        var err := fs.MakeDirs(directory, effect);
        assert made == (err, fs.nodes);
        if err.Some? && err.value != EEXIST {
          return Failure(OSError(err.value));
        }
      }

      if !IsDir(fs.nodes, directory) {
        return Failure(NotADirectory(directory));
      }

      var err := file.SaveTo(path, fs, writeFault);
      if err.Some? {
        return Failure(WriteError(err.value));
      }
      file.Close();

      return Success(filename);
    }

    /**
     * A successful save returns the sanitized name, not a path; the file is
     * then found by `exists` at the same absolute path, inside a directory,
     * and the upload was saved there and then closed.
     */
    lemma SaveThenExists(nodes: Nodes, events: seq<Event>, declared: string,
                         effect: MakeDirsEffect, writeFault: Option<int>)
      ensures var t := SaveOutcome(nodes, events, declared, effect, writeFault);
        t.result.Success? ==>
          var name := t.result.value;
          var path := AbsolutePath(name);
          && name == safeFilename(declared)
          && PathExists(t.nodes, path) && t.nodes[path] == File
          && IsDir(t.nodes, Dirname(path))
          && t.events == events + [SaveCalled(path), CloseCalled]
    {
    }

    /** `makedirs` is only attempted when the directory is missing: otherwise its outcome is irrelevant. */
    lemma SaveSkipsMakeDirsWhenPresent(nodes: Nodes, events: seq<Event>, declared: string,
                                       effect: MakeDirsEffect, effect': MakeDirsEffect, writeFault: Option<int>)
      requires PathExists(nodes, Dirname(AbsolutePath(safeFilename(declared))))
      ensures SaveOutcome(nodes, events, declared, effect, writeFault)
           == SaveOutcome(nodes, events, declared, effect', writeFault)
    {
    }

    /**
     * A `makedirs` failure other than EEXIST propagates: the upload is neither
     * saved nor closed, the directory is still missing, and the only new
     * entries are the ancestor directories made before the failure.
     */
    lemma SaveMakeDirsFailure(nodes: Nodes, events: seq<Event>, declared: string,
                              errno: int, created: set<string>, writeFault: Option<int>)
      requires var directory := Dirname(AbsolutePath(safeFilename(declared)));
        directory != "" && !PathExists(nodes, directory)
      requires errno != EEXIST
      ensures var t := SaveOutcome(nodes, events, declared, Fails(errno, created), writeFault);
        var directory := Dirname(AbsolutePath(safeFilename(declared)));
        && t.result == Failure(OSError(errno))
        && t.events == events
        && directory !in t.nodes
        && (forall q :: q in nodes ==> q in t.nodes && t.nodes[q] == nodes[q])
        && (forall q :: q in t.nodes && q !in nodes ==> q in Ancestors(directory) && t.nodes[q] == Dir)
    {
    }

    /**
     * Losing the race to create the directory is tolerated: when another
     * process made it first, the save succeeds just as if this one had.
     */
    lemma SaveToleratesLostRace(nodes: Nodes, events: seq<Event>, declared: string)
      requires var path := AbsolutePath(safeFilename(declared));
        Dirname(path) != "" && !PathExists(nodes, Dirname(path)) && !IsDir(nodes, path)
      ensures SaveOutcome(nodes, events, declared, LosesRace(Dir), None).result
           == SaveOutcome(nodes, events, declared, Creates, None).result
           == Success(safeFilename(declared))
    {
      var path := AbsolutePath(safeFilename(declared));
      var directory := Dirname(path);
      assert |directory| < |path|;
      var raced := MakeDirsResult(nodes, directory, LosesRace(Dir));
      var made := MakeDirsResult(nodes, directory, Creates);
      assert raced == (Some(EEXIST), nodes[directory := Dir]);
      assert IsDir(raced.1, directory) && IsDir(made.1, directory);
      assert path != directory && path !in Ancestors(directory);
      assert !IsDir(raced.1, path) && !IsDir(made.1, path);
    }

    /**
     * When the parent is not a directory after the creation step, `save`
     * raises the IOError naming it, and the upload is neither saved nor closed.
     */
    lemma SaveRejectsNonDirectory(nodes: Nodes, events: seq<Event>, declared: string,
                                  effect: MakeDirsEffect, writeFault: Option<int>)
      ensures var t := SaveOutcome(nodes, events, declared, effect, writeFault);
        var directory := Dirname(AbsolutePath(safeFilename(declared)));
        t.result == Failure(NotADirectory(directory)) <==>
          (PathExists(nodes, directory) && nodes[directory] == File) ||
          (!PathExists(nodes, directory) && directory != "" && (effect == LosesRace(File) || (effect.Fails? && effect.errno == EEXIST)))
      ensures var t := SaveOutcome(nodes, events, declared, effect, writeFault);
        t.result.Failure? && t.result.error.NotADirectory? ==> t.events == events
    {
    }

    /**
     * There is no `finally`: when writing fails the error propagates after
     * `file.save` and before `file.close`, so the upload is never closed.
     */
    lemma SaveWriteFailureSkipsClose(nodes: Nodes, events: seq<Event>, declared: string,
                                     effect: MakeDirsEffect, writeFault: Option<int>)
      ensures var t := SaveOutcome(nodes, events, declared, effect, writeFault);
        t.result.Failure? && t.result.error.WriteError? ==>
          t.events == events + [SaveCalled(AbsolutePath(safeFilename(declared)))] && CloseCalled !in t.events[|events|..]
    {
    }
  }
}
