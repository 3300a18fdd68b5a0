/**
 * The host web application as far as the store touches it: a configuration
 * dictionary with `setdefault`, and the `extensions` dictionary, which an
 * application may lack (the source tests it with `hasattr`).
 */
module FlaskApp {
  import opened Wrappers

  /** `app.config`; every value the store reads or sets is a string. */
  type Config = map<string, string>

  /** `config.setdefault(key, value)`, as a value: a present key is never overwritten. */
  function WithDefault(config: Config, key: string, value: string): (r: Config)
    ensures r.Keys == config.Keys + {key}
    ensures forall k :: k in config ==> r[k] == config[k]
    ensures key !in config ==> r[key] == value
  {
    if key in config then config else config[key := value]
  }

  class App<E> {
    var config: Config
    var extensions: Option<map<string, E>>

    constructor(config: Config, extensions: Option<map<string, E>>)
      ensures this.config == config && this.extensions == extensions
    {
      this.config := config;
      this.extensions := extensions;
    }

    /** `app.config.setdefault(key, value)`. */
    method SetDefault(key: string, value: string)
      modifies this`config
      ensures config == WithDefault(old(config), key, value)
    {
      if key !in config {
        config := config[key := value];
      }
    }
  }
}
