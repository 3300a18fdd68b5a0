# Flask-Store core, modelled in Dafny

Flask-Store lets a Flask application hand an uploaded file to a storage
provider. This project models the core in three parts:

- `LocalStore`, the provider that keeps files on the local filesystem. It covers the
  separator-safe `join`, the absolute and relative paths, the relative-URL parts and
  `exists`. It also covers the `save` protocol (resolve the path, create the directory
  unless it is there, check that it is a directory, write, close) and the
  configuration defaults the provider installs.
- `BaseStore`, which every provider shares. Its constructor reads the base paths from
  the configuration and strips one leading separator from the relative one. Its
  properties derive the directory and file paths from those values.
- `Store`, the integration object. `init_app` installs configuration defaults and
  registers the store in the application's extensions. `provider` turns the dotted
  class name in `STORE_DEFAULT_PROVIDER` into a class and caches it.

Modules, one per concern:

| file | module | models |
|---|---|---|
| `wrappers.dfy` | `Wrappers` | `Option`, `Result`, Python truthiness of an optional string |
| `posix_path.dfy` | `PosixPath` | `os.path.sep`, `lstrip`/`rstrip` of it, `os.path.join`, `os.path.dirname` |
| `os_model.dfy` | `OsModel` | the filesystem as a map from path to `Dir`/`File`, `os.path.exists`/`isdir`, `os.makedirs`, opening a file for writing |
| `uploads.dfy` | `Uploads` | the upload handle; `save(path)` and `close()` recorded as events |
| `flask_app.dfy` | `FlaskApp` | the application's `config` (`setdefault`) and `extensions` |
| `local_store.dfy` | `LocalStores` | `flask_store/stores/local.py` |
| `base_store.dfy` | `BaseStores` | `flask_store/stores/__init__.py` |
| `dotted_names.dfy` | `DottedNames` | `str.split('.')`, `'.'.join`, `rfind('.')` |
| `store.dfy` | `FlaskStore` | `flask_store/__init__.py` |

State that the source changes in place is held in classes:

- `FileSystem.nodes` is the filesystem.
- `Upload.events` records the calls made on the upload.
- `App.config` and `App.extensions` are the application's dictionaries.
- `Store.cachedProvider` is `_provider` and `Store.providerClass` is `Provider`.

The `join` loop and `save` are methods. `join` is proved equal to the function
`SafeJoin`. `save` is proved equal to the function `SaveOutcome`, which gives its
result, the new filesystem and the upload's events. The lemmas about those functions
state what the source promises.

The operating system's answers are parameters:

- `MakeDirsEffect` gives the outcome of `makedirs` on a missing directory. It can
  create the directory, lose a race to another process that put a node there first
  (EEXIST), or fail with some errno after creating some of the missing ancestors.
- The write fault gives the outcome of writing the file.

`makedirs` of the empty path fails with ENOENT and `makedirs` of an existing path
fails with EEXIST. Writing to a directory fails with EISDIR. The empty path never
exists.

Some behaviours of the source are easy to miss. The model keeps them as written:

- **Upload not closed on a failed write.** `save` has no `finally`, so a caller that
  expects `close()` on every path does not get it when the write fails
  (`SaveWriteFailureSkipsClose`).
- **Inverted destination test.** `absolute_dir_path` appends the destination only
  when it is falsy. A real destination therefore never appears in the directory.
  The default destination, None, is passed to `os.path.join`, which raises in
  Python 2 (`AbsoluteDirPath` returns `Failure(NoneInJoin)`).
- **`relative_dir_path` ignores the destination.** It is a property, so its
  `destination` argument is always None, and the result is the relative base itself.
- **Only one leading separator is stripped.** The constructor strips one separator
  from `STORE_RELATIVE_BASE_PATH`. A configured value starting with two separators
  leaves the relative base absolute, and `os.path.join` then drops the absolute base
  (`AbsoluteDirPathBase`).

## Model

| member | source | states |
|---|---|---|
| `PosixPath.LStrip` | flask_store/stores/local.py:82 | the result has no leading separator; a string without one is unchanged |
| `PosixPath.LStripSuffix` | flask_store/stores/local.py:82 | the result is a suffix of the input, and what was removed consists of separators only (with `LStrip`'s own contract this fixes the value) |
| `PosixPath.RStrip` | flask_store/stores/local.py:85 | the result is a prefix with no trailing separator, and only separators were removed |
| `PosixPath.Join2` | flask_store/stores/local.py:83 | an absolute second part replaces the first; otherwise the first part is a prefix of the result; joining onto the empty path gives the second part |
| `PosixPath.Join2Appends` | flask_store/stores/local.py:83 | for a relative second part the result is the first part, then one separator exactly when the first part is non-empty and does not end with one, then the second part in full |
| `PosixPath.Join` | flask_store/stores/__init__.py:84 | `os.path.join(first, *rest)`: no further parts give the first; the result ends with the last part; an absolute last part is the whole result; with no absolute later part the first part is a prefix |
| `PosixPath.Dirname` | flask_store/stores/local.py:184 | the directory is a prefix of the path, empty exactly when the path has no separator, and strictly shorter than a non-empty path without a trailing separator |
| `PosixPath.DirnameEndsAtLastSep` | flask_store/stores/local.py:184 | the directory ends at the last separator: only separators lie between its end and that separator, and a head made only of separators is kept whole |
| `OsModel.PathExists` | flask_store/stores/local.py:166 | `os.path.exists`: the empty path never exists; any other path exists exactly when the filesystem has an entry for it |
| `OsModel.IsDir` | flask_store/stores/local.py:195 | `os.path.isdir`: only an existing path can be a directory, and an existing path is one exactly when its entry is `Dir` |
| `OsModel.MakeDirsResult` | flask_store/stores/local.py:186-193 | makedirs never changes an existing entry, and its only new entries are the path and ancestor directories; success leaves a directory at the path; an existing path gives EEXIST and no change; a failure returns its errno and does not create the path, though it may leave ancestors behind; a change by a non-failing call puts something at the path |
| `OsModel.WriteResult` | flask_store/stores/local.py:199 | a successful write puts a file at the path and changes nothing else; a failed one changes nothing; a directory cannot be written (EISDIR) |
| `OsModel.FileSystem.MakeDirs` | flask_store/stores/local.py:190 | `os.makedirs` returns the raised errno and updates the filesystem as `MakeDirsResult` says |
| `Uploads.Upload.SaveTo` | flask_store/stores/local.py:199 | `file.save(path)` is logged, then the write happens as `WriteResult` says |
| `Uploads.Upload.Close` | flask_store/stores/local.py:200 | `file.close()` is appended to the upload's log |
| `FlaskApp.WithDefault` | flask_store/stores/local.py:67-68 | `setdefault` adds the key, keeps every present value, and gives an absent key the default |
| `FlaskApp.App.SetDefault` | flask_store/__init__.py:92-94 | the application's config becomes `WithDefault` of the old one |
| `LocalStores.SafeJoin` | flask_store/stores/local.py:79-85 | the joined path never ends with a separator |
| `LocalStores.LaterLeadingSepsIgnored` | flask_store/stores/local.py:80-83 | replacing any part after the first with one that has the same text after leading separators does not change `join` |
| `LocalStores.JoinDropsLaterRoot` | flask_store/stores/local.py:80-85 | `join("a", "/b") == join("a", "b") == "a/b"` |
| `LocalStores.JoinStaysUnderFirst` | flask_store/stores/local.py:79-85 | the joined path is the first part (without trailing separators) or lies below it: a separator follows that prefix |
| `LocalStores.OnlyFirstPartAnchors` | flask_store/stores/local.py:80-83 | the joined path starts at the root exactly when the first part does and the result is non-empty |
| `LocalStores.LocalDefaults` | flask_store/stores/local.py:67-68 | `STORE_PATH` (the working directory) and `STORE_URL_PREFIX` (`/flaskstore`) are added only when absent; every value the host set is kept |
| `LocalStores.LocalDefaultsIdempotent` | flask_store/stores/local.py:67-68 | a second `app_defaults`, even from another working directory, changes nothing |
| `LocalStores.LocalStore.constructor` | flask_store/stores/local.py:48-54 | the store keeps its store path, destination and the three helpers it was given |
| `LocalStores.LocalStore.AppDefaults` | flask_store/stores/local.py:56-68 | the application's config becomes `LocalDefaults` of the old one; extensions are untouched |
| `LocalStores.LocalStore.Join` | flask_store/stores/local.py:70-85 | the loop computes `SafeJoin(parts)`, which never ends with a separator |
| `LocalStores.LocalStore.AbsolutePath` | flask_store/stores/local.py:87-96 | the absolute path lies textually under the store path (the stripped store path itself, or it followed by a separator and more; `..` is not resolved), starts at the root only if the store path does, and has no trailing separator |
| `LocalStores.LocalStore.AbsolutePathNamesFile` | flask_store/stores/local.py:87-96 | the absolute path ends with the filename (its leading separators dropped, when it does not end with one), and a plain name without separators gives exactly `os.path.join(store_path, filename)` |
| `LocalStores.LocalStore.PathParts` | flask_store/stores/local.py:108-111 | the parts are the destination when it is truthy, then the filename |
| `LocalStores.LocalStore.RelativePath` | flask_store/stores/local.py:98-113 | with a truthy destination it is `join(destination, filename)`, otherwise the filename with trailing separators removed |
| `LocalStores.LocalStore.UrlParts` | flask_store/stores/local.py:143-146 | the URL parts are the prefix followed by exactly the relative path's parts |
| `LocalStores.LocalStore.RelativeUrl` | flask_store/stores/local.py:134-148 | a missing `STORE_URL_PREFIX` is a KeyError; otherwise the result is `path_to_uri(url_join(prefix, [destination,] filename))` |
| `LocalStores.LocalStore.Exists` | flask_store/stores/local.py:150-166 | `exists` queries the filesystem at `AbsolutePath(filename)` |
| `LocalStores.LocalStore.SaveOutcome` | flask_store/stores/local.py:182-202 | `save` only adds to the upload's calls, at most two; a success returns the sanitized name |
| `LocalStores.LocalStore.PrepareDirectory` | flask_store/stores/local.py:186-193 | the directory step (makedirs only when the directory is missing) never changes an existing entry |
| `LocalStores.LocalStore.FinishSave` | flask_store/stores/local.py:195-202 | after the directory step only the file's own path can change; the upload gets at most `save` and `close`; success returns the sanitized name |
| `LocalStores.LocalStore.SaveKeepsOtherEntries` | flask_store/stores/local.py:182-202 | every existing filesystem entry other than the file's own path is kept by `save`, whatever makedirs and the write do |
| `LocalStores.LocalStore.Save` | flask_store/stores/local.py:168-202 | the result, the new filesystem and the upload's calls are those of `SaveOutcome` |
| `LocalStores.LocalStore.SaveThenExists` | flask_store/stores/local.py:182-202 | a successful save returns the sanitized name; a file is then at its absolute path, inside a directory, and the upload was saved there and then closed |
| `LocalStores.LocalStore.SaveSkipsMakeDirsWhenPresent` | flask_store/stores/local.py:186-193 | when the directory exists, makedirs's outcome cannot affect the save |
| `LocalStores.LocalStore.SaveMakeDirsFailure` | flask_store/stores/local.py:189-193 | a makedirs errno other than EEXIST propagates; the upload is neither saved nor closed, the directory is still missing, existing entries are kept and the only new entries are ancestor directories |
| `LocalStores.LocalStore.SaveToleratesLostRace` | flask_store/stores/local.py:186-193 | losing the race to another process that made the directory gives the same success as creating it |
| `LocalStores.LocalStore.SaveRejectsNonDirectory` | flask_store/stores/local.py:195-196 | the not-a-directory IOError names the parent and happens exactly when a file is there (before or after makedirs) or makedirs gave EEXIST with nothing there; the upload is then neither saved nor closed |
| `LocalStores.LocalStore.SaveWriteFailureSkipsClose` | flask_store/stores/local.py:199-200 | when the write fails, `file.save` was called and `file.close` was not |
| `BaseStores.StripOneLeadingSep` | flask_store/stores/__init__.py:47-50 | exactly one leading separator is removed, and only if there is one |
| `BaseStores.BaseStore.constructor` | flask_store/stores/__init__.py:20-56 | the absolute base, file and destination are stored unchanged; the relative base loses one leading separator |
| `BaseStores.BaseStore.AbsoluteDirPath` | flask_store/stores/__init__.py:69-84 | a None destination makes it fail; a truthy destination is never included; an empty destination appends an empty part |
| `BaseStores.BaseStore.AbsoluteFilePath` | flask_store/stores/__init__.py:86-96 | it fails exactly when `AbsoluteDirPath` does, otherwise it joins that directory with the filename |
| `BaseStores.BaseStore.RelativeDirPath` | flask_store/stores/__init__.py:98-113 | always the relative base path itself |
| `BaseStores.BaseStore.Filename` | flask_store/stores/__init__.py:58-67 | the upload's declared name passed through `secure_filename` |
| `BaseStores.BaseStore.RelativeFilePath` | flask_store/stores/__init__.py:115-126 | it is `os.path.join(relative_dir_path, filename)`; a relative filename lies under the relative base; an absolute one replaces it; with the default (empty) relative base it is the filename |
| `BaseStores.BaseStore.AbsoluteDirPathIgnoresDestination` | flask_store/stores/__init__.py:80-84 | two stores differing only in their truthy destinations have the same absolute directory |
| `BaseStores.BaseStore.AbsoluteDirPathBase` | flask_store/stores/__init__.py:80-84 | a relative base that does not start with a separator keeps the absolute base as a prefix; one that does replaces it when the destination is truthy |
| `DottedNames.Split` | flask_store/__init__.py:118 | at least one segment, exactly one when there is no dot, and no segment contains a dot |
| `DottedNames.JoinDots` | flask_store/__init__.py:120 | `'.'.join(parts)`: one part is itself; with more, the result starts with the first part and a dot and ends with a dot and the last part |
| `DottedNames.JoinSplit` | flask_store/__init__.py:118-120 | joining the segments with dots gives the name back |
| `DottedNames.SplitJoin` | flask_store/__init__.py:118-120 | splitting a dot-join of dotless segments gives the segments back |
| `FlaskStore.StoreDefaults` | flask_store/__init__.py:92-94 | the three keys are added only when absent, with the default provider and `/` twice; host-set values are kept |
| `FlaskStore.StoreDefaultsIdempotent` | flask_store/__init__.py:92-94 | a second `init_app` leaves every config value as the first left it |
| `FlaskStore.SplitProvider` | flask_store/__init__.py:118-120 | the class name has no dot, and path + "." + class rebuilds a dotted name; without a dot the path is empty |
| `FlaskStore.SplitProviderAt` | flask_store/__init__.py:118-120 | a name ending in "." + a dotless class splits into exactly that path and class |
| `FlaskStore.DefaultProviderSplit` | flask_store/__init__.py:21 | the default provider splits into `flask_store.stores.local` and `LocalStore` |
| `FlaskStore.LoadProvider` | flask_store/__init__.py:117-128 | a missing key is a KeyError; for a present key, split at the last dot: an invalid module name (empty, relative or with an empty segment) is the error `import_module` raises for it, a missing module is an ImportError, a module without the attribute is the ImportError `provider` raises, and otherwise that class loads; a dotless name never loads; success rebuilds the configured name |
| `FlaskStore.DefaultModuleValid` | flask_store/__init__.py:21 | the default provider's module name is one `import_module` accepts |
| `FlaskStore.DefaultProviderLoads` | flask_store/__init__.py:92-128 | with the defaults installed and the local module importable, the provider is `LocalStore` |
| `FlaskStore.StoreState.constructor` | flask_store/__init__.py:39-45 | the state holds the store and the application |
| `FlaskStore.Store.constructor` | flask_store/__init__.py:68-79 | a new store has no cached provider and no `Provider` |
| `FlaskStore.Store.Provider` | flask_store/__init__.py:102-130 | a cached class is returned without reading the config; otherwise the result is `LoadProvider`, cached only on success |
| `FlaskStore.Store.InstallDefaults` | flask_store/__init__.py:92-94 | the three `setdefault` calls turn the config into `StoreDefaults` of the old one |
| `FlaskStore.Store.Register` | flask_store/__init__.py:96-98 | `extensions` is created if missing and gains `store`, a new state holding this store and the app; other entries are kept |
| `FlaskStore.Store.InitApp` | flask_store/__init__.py:81-100 | the config gets `StoreDefaults`; `extensions` is created if missing and gains `store`, a new state holding this store and app, with other entries kept; `Provider` is set from `provider`, or left as it was when that raises |

## Left out

- `LocalStore.absolute_url`: it relies on `urlparse.urljoin`, which is URL reference resolution (section 5.2 of RFC 3986), and on `path_to_uri`. Neither is part of this model.
- `url_join`, `safe_filename`, `path_to_uri` and werkzeug's `secure_filename` are not defined here. Their code is not part of this model. They are function-valued fields with no assumed properties.
- `LocalStores.LocalStore.RelativeUrl`: what the URL contains beyond the order of its parts is not stated, because `url_join` is opaque.
- `flask_store/stores/s3.py`: an S3 network client that spawns greenlets.
- Flask's `current_app`, `LocalProxy` and `store_provider`: the configuration is an explicit parameter or field instead.
- `os.getcwdu()`: the working directory is the `cwd` parameter of `AppDefaults`.
- Class inheritance: `LocalStore` is not a subclass of `BaseStore` here. It carries the fields it reads (`store_path`, `destination`). `BaseStore`'s properties are modelled on their own class.
- `BaseStore.save`, `delete` and `exists` are empty stubs in the source. `LocalStore.register_route` is a constant the model does not use.
- `BaseStores.BaseStore.constructor`: a missing `STORE_ABSOLUTE_BASE_PATH` or `STORE_RELATIVE_BASE_PATH` raises KeyError in the source. Here both keys are a precondition instead. `FlaskStore.StoreDefaults` shows that `init_app` always provides them.
- `FlaskStore.Store.constructor`: `Store(app)` is modelled as `Store()` followed by `InitApp(app)`.
- `FlaskStore.LoadProvider`: `import_module` and `getattr` are a lookup in a module table. ValueError and TypeError are one error, `InvalidModuleName`. The real import's other checks are not modelled.
- `FlaskStore.StoreState.constructor`: the application is `App<StoreState>`, so every `extensions` entry is a `StoreState`. The host's other extensions, which can be any object, are not modelled.
- Configuration values are strings only. Values of other types are not modelled.
- Real filesystem and upload I/O are modelled only as the node map and the event log. File contents are not modelled.
- Paths in the filesystem map are not normalised: `a//b` and `a/b` are different keys.
- `OsModel.MakeDirsResult`: the operating system's own checks are left to the `effect` parameter. This includes ENOTDIR when an ancestor is a file and permission errors. Which missing ancestors a failure leaves behind is also a parameter.
- `LocalStores.LocalStore.AbsolutePath`: `.` and `..` segments are not resolved, and `join` does not resolve them either. "Under the store path" is textual only: `join` does not keep a path such as `../etc/passwd` inside the store directory.
- `OsModel.WriteResult`: a partial write that leaves a file behind is not modelled. A failed write changes nothing.
- Concurrency: the race between `os.path.exists` and `makedirs` appears only as the `LosesRace` outcome. Interleavings and concurrent writers to the same file are not modelled.
