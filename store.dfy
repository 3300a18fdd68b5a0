/**
 * `Store`, the integration object an application creates: `init_app`
 * installs the configuration defaults, registers the store among the
 * application's extensions and resolves the provider class, and `provider`
 * turns the dotted name in `STORE_DEFAULT_PROVIDER` into a class, caching it.
 * Importing a module and reading one of its attributes is a lookup in a table
 * from module name to the names the module defines.
 */
module FlaskStore {
  import opened Wrappers
  import opened FlaskApp
  import opened DottedNames

  const DefaultProvider: string := "flask_store.stores.local.LocalStore"

  const ProviderKey: string := "STORE_DEFAULT_PROVIDER"
  const AbsoluteBaseKey: string := "STORE_ABSOLUTE_BASE_PATH"
  const RelativeBaseKey: string := "STORE_RELATIVE_BASE_PATH"

  /** The modules that can be imported, each with the names it defines. */
  type ModuleTable = map<string, set<string>>

  /** A provider class: the attribute `name` of module `module`. */
  datatype ProviderClass = ProviderClass(moduleName: string, name: string)

  datatype ProviderError =
    | KeyError(key: string)                        // the configuration names no provider
    | InvalidModuleName(moduleName: string)            // `import_module` raises ValueError or TypeError
    | ModuleNotFound(moduleName: string)               // `import_module` raises ImportError
    | ProviderNotFound(name: string, moduleName: string) // the ImportError `provider` raises itself

  /** `app.config` after the three `setdefault` calls of `init_app`. */
  function StoreDefaults(config: Config): (r: Config)
    ensures r.Keys == config.Keys + {ProviderKey, AbsoluteBaseKey, RelativeBaseKey}
    ensures forall k :: k in config ==> r[k] == config[k]
    ensures ProviderKey !in config ==> r[ProviderKey] == DefaultProvider
    ensures AbsoluteBaseKey !in config ==> r[AbsoluteBaseKey] == "/"
    ensures RelativeBaseKey !in config ==> r[RelativeBaseKey] == "/"
  {
    WithDefault(WithDefault(WithDefault(config, ProviderKey, DefaultProvider), AbsoluteBaseKey, "/"), RelativeBaseKey, "/")
  }

  /** A second `init_app` leaves every configuration value as the first one left it. */
  lemma StoreDefaultsIdempotent(config: Config)
    ensures StoreDefaults(StoreDefaults(config)) == StoreDefaults(config)
  {
  }

  /**
   * The class name is the text after the last dot and the module path the
   * segments before it joined with dots; together they give the dotted name back.
   */
  function SplitProvider(dotted: string): (r: (string, string))
    ensures Dot !in r.1
    ensures Dot in dotted ==> r.0 + [Dot] + r.1 == dotted
    ensures Dot !in dotted ==> r == ("", dotted)
  {
    var parts := Split(dotted);
    var klass := parts[|parts| - 1];
    var path := JoinDots(parts[..|parts| - 1]);
    JoinSplit(dotted);
    assert |parts| > 1 ==> JoinDots(parts) == path + [Dot] + klass;
    (path, klass)
  }

  /** A name whose last segment is `klass` splits into its module path and `klass`. */
  lemma {:induction false} SplitProviderAt(path: string, klass: string)
    requires Dot !in klass
    ensures SplitProvider(path + [Dot] + klass) == (path, klass)
  {
    var s := path + [Dot] + klass;
    SplitLast(path, klass);
    var parts := Split(s);
    assert parts[..|parts| - 1] == Split(path);
    JoinSplit(path);
  }

  /** The default provider lives in `flask_store.stores.local` and is called `LocalStore`. */
  lemma DefaultProviderSplit()
    ensures SplitProvider(DefaultProvider) == ("flask_store.stores.local", "LocalStore")
  {
    var a, b := "flask_store.stores.local", "LocalStore";
    assert DefaultProvider == a + [Dot] + b;
    assert Dot !in b;
    SplitProviderAt(a, b);
  }

  /**
   * A name `import_module` accepts without a package: no segment is empty, so
   * it is neither empty, nor relative, nor has doubled or trailing dots. For any
   * other name it raises ValueError (an empty segment) or TypeError (a leading dot).
   */
  predicate ValidModuleName(path: string) {
    "" !in Split(path)
  }

  /** A valid module name extended by a non-empty dotless segment is valid. */
  lemma {:induction false} ValidModuleNameExtend(path: string, segment: string)
    requires ValidModuleName(path) && segment != "" && Dot !in segment
    ensures ValidModuleName(path + [Dot] + segment)
  {
    SplitLast(path, segment);
  }

  /** A non-empty dotless name is a valid top-level module name. */
  lemma ValidModuleNameSegment(segment: string)
    requires segment != "" && Dot !in segment
    ensures ValidModuleName(segment)
  {
  }

  /** What `provider` computes when nothing is cached yet. */
  function LoadProvider(config: Config, modules: ModuleTable): (r: Result<ProviderClass, ProviderError>)
    ensures ProviderKey !in config ==> r == Failure(KeyError(ProviderKey))
    ensures ProviderKey in config ==>
      var (path, klass) := SplitProvider(config[ProviderKey]);
      && (!ValidModuleName(path) ==> r == Failure(InvalidModuleName(path)))
      && (ValidModuleName(path) && path !in modules ==> r == Failure(ModuleNotFound(path)))
      && (ValidModuleName(path) && path in modules && klass !in modules[path] ==>
            r == Failure(ProviderNotFound(klass, path)))
      && (ValidModuleName(path) && path in modules && klass in modules[path] ==>
            r == Success(ProviderClass(path, klass)))
    ensures r.Success? ==>
      && ValidModuleName(r.value.moduleName)
      && r.value.moduleName in modules && r.value.name in modules[r.value.moduleName]
      && config[ProviderKey] == r.value.moduleName + [Dot] + r.value.name
    ensures ProviderKey in config && Dot !in config[ProviderKey] ==> r == Failure(InvalidModuleName(""))
  {
    if ProviderKey !in config then Failure(KeyError(ProviderKey))
    else
      var (path, klass) := SplitProvider(config[ProviderKey]);
      if !ValidModuleName(path) then Failure(InvalidModuleName(path))
      else if path !in modules then Failure(ModuleNotFound(path))
      else if klass !in modules[path] then Failure(ProviderNotFound(klass, path))
      else Success(ProviderClass(path, klass))
  }

  /** With the defaults installed and the local module importable, `LocalStore` is the provider. */
  lemma DefaultProviderLoads(config: Config, modules: ModuleTable)
    requires ProviderKey !in config
    requires "flask_store.stores.local" in modules && "LocalStore" in modules["flask_store.stores.local"]
    ensures LoadProvider(StoreDefaults(config), modules) == Success(ProviderClass("flask_store.stores.local", "LocalStore"))
  {
    var config' := StoreDefaults(config);
    DefaultProviderSplit();
    DefaultModuleValid();
    assert SplitProvider(config'[ProviderKey]) == ("flask_store.stores.local", "LocalStore");
  }

  /** `flask_store.stores.local` is a name `import_module` accepts. */
  lemma DefaultModuleValid()
    ensures ValidModuleName("flask_store.stores.local")
  {
    var a, b, c := "flask_store", "stores", "local";
    assert Dot !in a && Dot !in b && Dot !in c;
    ValidModuleNameSegment(a);
    ValidModuleNameExtend(a, b);
    ValidModuleNameExtend(a + [Dot] + b, c);
    assert a + [Dot] + b + [Dot] + c == "flask_store.stores.local";
  }

  /** `StoreState`: what `init_app` registers as the application's `store` extension. */
  class StoreState {
    const store: Store
    const app: App<StoreState>

    constructor(store: Store, app: App<StoreState>)
      ensures this.store == store && this.app == app
    {
      this.store := store;
      this.app := app;
    }
  }

  class Store {
    /** `self._provider`, absent until `provider` first succeeds. */
    var cachedProvider: Option<ProviderClass>
    /** `self.Provider`, set by `init_app`. */
    var providerClass: Option<ProviderClass>

    /** `Store()`; `Store(app)` is this followed by `InitApp(app)`. */
    constructor()
      ensures cachedProvider == None && providerClass == None
    {
      cachedProvider := None;
      providerClass := None;
    }

    /** `self.provider(app)`: the cached class, or the one the configuration names. */
    method Provider(app: App<StoreState>, modules: ModuleTable) returns (r: Result<ProviderClass, ProviderError>)
      modifies this`cachedProvider
      ensures old(cachedProvider).Some? ==> r == Success(old(cachedProvider).value) && cachedProvider == old(cachedProvider)
      ensures old(cachedProvider).None? ==> r == LoadProvider(app.config, modules)
      ensures old(cachedProvider).None? ==> cachedProvider == if r.Success? then Some(r.value) else None
    {
      if cachedProvider.None? {
        if ProviderKey !in app.config {
          return Failure(KeyError(ProviderKey));
        }
        var parts := Split(app.config[ProviderKey]);
        var klass := parts[|parts| - 1];
        parts := parts[..|parts| - 1];
        var path := JoinDots(parts);
        if !ValidModuleName(path) {
          return Failure(InvalidModuleName(path));
        }
        if path !in modules {
          return Failure(ModuleNotFound(path));
        }
        if klass !in modules[path] {
          return Failure(ProviderNotFound(klass, path));
        }
        cachedProvider := Some(ProviderClass(path, klass));
      }
      r := Success(cachedProvider.value);
    }

    /** The three `setdefault` calls at the start of `init_app`. */
    static method InstallDefaults(app: App<StoreState>)
      modifies app`config
      ensures app.config == StoreDefaults(old(app.config))
    {
      app.SetDefault(ProviderKey, DefaultProvider);
      app.SetDefault(AbsoluteBaseKey, "/");
      app.SetDefault(RelativeBaseKey, "/");
    }

    /** `init_app`'s registration of a new `StoreState` as the application's `store` extension. */
    method Register(app: App<StoreState>) returns (state: StoreState)
      modifies app`extensions
      ensures fresh(state) && state.store == this && state.app == app
      ensures app.extensions == Some((if old(app.extensions).Some? then old(app.extensions).value else map[])["store" := state])
    {
      if app.extensions.None? {
        app.extensions := Some(map[]);
      }
      state := new StoreState(this, app);
      app.extensions := Some(app.extensions.value["store" := state]);
    }

    /**
     * `self.init_app(app)`. When `provider` raises, the configuration and the
     * extension are already in place and `Provider` is left as it was.
     */
    method InitApp(app: App<StoreState>, modules: ModuleTable) returns (err: Option<ProviderError>)
      modifies this, app
      ensures app.config == StoreDefaults(old(app.config))
      ensures app.extensions.Some? && "store" in app.extensions.value
      ensures var state := app.extensions.value["store"];
        && fresh(state) && state.store == this && state.app == app
        && app.extensions.value == (if old(app.extensions).Some? then old(app.extensions).value else map[])["store" := state]
      ensures old(cachedProvider).Some? ==>
        err == None && cachedProvider == old(cachedProvider) && providerClass == cachedProvider
      ensures old(cachedProvider).None? ==>
        match LoadProvider(app.config, modules)
        case Success(c) => err == None && cachedProvider == Some(c) && providerClass == Some(c)
        case Failure(e) => err == Some(e) && cachedProvider == None && providerClass == old(providerClass)
    {
      InstallDefaults(app);
      var state := Register(app);

      var r := Provider(app, modules);
      match r
      case Success(c) =>
        providerClass := Some(c);
        err := None;
      case Failure(e) =>
        err := Some(e);
    }
  }
}
