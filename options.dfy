/** The plugin's option split (index.js lines 10-12): `enableCSPNonces` and
    `global` are pulled out, every other option is passed on to helmet. */
module PluginOptions {
  import opened JsValue

  datatype Settings = Settings(
    globalConfiguration: map<string, Value>,
    enableCSPNonces: Value,
    isGlobal: bool)

  /** `const { enableCSPNonces, global, ...globalConfiguration } = options` and
      `isGlobal = typeof global === 'boolean' ? global : true`. The two
      plugin-only options never reach helmet, and nothing else is dropped or
      altered. */
  function SplitOptions(options: map<string, Value>): (s: Settings)
    ensures s.globalConfiguration.Keys == options.Keys - {"enableCSPNonces", "global"}
    ensures forall k :: k in s.globalConfiguration ==> s.globalConfiguration[k] == options[k]
    ensures s.enableCSPNonces == Get(options, "enableCSPNonces")
  {
    var global := Get(options, "global");
    Settings(
      options - {"enableCSPNonces", "global"},
      Get(options, "enableCSPNonces"),
      if TypeOf(global) == "boolean" then global.b else true)
  }

  /** Automatic application is on unless `global` is exactly the boolean
      `false`; an absent or non-boolean `global` means `true`. */
  lemma IsGlobalUnlessFalse(options: map<string, Value>)
    ensures SplitOptions(options).isGlobal <==> Get(options, "global") != Bool(false)
    ensures Get(options, "global").Bool? ==> SplitOptions(options).isGlobal == Get(options, "global").b
  {
  }
}
