/** The `onRoute` hook (index.js lines 24-34): a route's `helmet` option is
    stored into the route's `config`, turned into a skip marker, or rejected. */
module RouteHook {
  import opened JsValue

  /** `{ skipRoute: true }`, stored for `helmet: false`. */
  const SkipMarker: Value := Obj(map["skipRoute" := Bool(true)])

  /** The route's `config` object after the hook, or the registration error.
      `None` is an absent `config`; the hook creates a fresh one when it
      has something to store. */
  function ClassifyRoute(helmet: Value, config: Option<map<string, Value>>): (r: Result<Option<map<string, Value>>>)
    ensures r.Err? <==> !(helmet.Undefined? || TypeOf(helmet) == "object" || helmet == Bool(false))
    ensures r.Err? ==> r.error == UnknownRouteHelmetValue
  {
    if TypeOf(helmet) != "undefined" then
      var base := if config.Some? then config.value else map[];
      if TypeOf(helmet) == "object" then Ok(Some(Assign(base, map["helmet" := helmet])))
      else if helmet == Bool(false) then Ok(Some(Assign(base, map["helmet" := SkipMarker])))
      else Err(UnknownRouteHelmetValue)
    else Ok(config)
  }

  /** The stored value of `config.helmet` for each accepted option, with every
      other key of an existing `config` kept. */
  lemma ClassifyRouteCases(helmet: Value, config: Option<map<string, Value>>)
    ensures helmet.Undefined? ==> ClassifyRoute(helmet, config) == Ok(config)
    ensures (helmet.Null? || helmet.Arr? || helmet.Obj?) ==>
      ClassifyRoute(helmet, config).Ok? && ClassifyRoute(helmet, config).value.Some? &&
      ClassifyRoute(helmet, config).value.value["helmet"] == helmet
    ensures helmet == Bool(false) ==>
      ClassifyRoute(helmet, config).Ok? && ClassifyRoute(helmet, config).value.Some? &&
      ClassifyRoute(helmet, config).value.value["helmet"] == SkipMarker
    ensures (helmet == Bool(true) || helmet.Str? || helmet.Num? || helmet.Func?) ==>
      ClassifyRoute(helmet, config) == Err(UnknownRouteHelmetValue)
  {
  }

  /** Keys other than `helmet` already in `config` are preserved in every case. */
  lemma ClassifyRouteKeepsConfig(helmet: Value, config: map<string, Value>, k: string)
    requires k in config && k != "helmet"
    requires ClassifyRoute(helmet, Some(config)).Ok?
    ensures ClassifyRoute(helmet, Some(config)).value.Some?
    ensures k in ClassifyRoute(helmet, Some(config)).value.value
    ensures ClassifyRoute(helmet, Some(config)).value.value[k] == config[k]
  {
  }

  /** An accepted option adds no key other than `helmet` to `config`. */
  lemma ClassifyRouteAddsOnlyHelmet(helmet: Value, config: Option<map<string, Value>>)
    requires !helmet.Undefined? && ClassifyRoute(helmet, config).Ok?
    ensures ClassifyRoute(helmet, config).value.Some?
    ensures ClassifyRoute(helmet, config).value.value.Keys ==
      (if config.Some? then config.value.Keys else {}) + {"helmet"}
  {
  }

  /** The route options the framework hands to `onRoute`. */
  class RouteOptions {
    const helmet: Value
    var config: Option<map<string, Value>>

    constructor (helmet: Value, config: Option<map<string, Value>>)
      ensures this.helmet == helmet && this.config == config
    {
      this.helmet := helmet;
      this.config := config;
    }

    /** The hook body: updates `config` in place, or throws and leaves it. */
    method OnRoute() returns (err: Option<Error>)
      modifies this
      ensures ClassifyRoute(helmet, old(config)).Ok? ==>
        err == None && config == ClassifyRoute(helmet, old(config)).value
      ensures ClassifyRoute(helmet, old(config)).Err? ==>
        err == Some(UnknownRouteHelmetValue) && config == old(config)
    {
      if TypeOf(helmet) != "undefined" {
        var base := if config.Some? then config.value else map[];
        if TypeOf(helmet) == "object" {
          config := Some(Assign(base, map["helmet" := helmet]));
        } else if helmet == Bool(false) {
          config := Some(Assign(base, map["helmet" := SkipMarker]));
        } else {
          return Some(UnknownRouteHelmetValue);
        }
      }
      return None;
    }
  }
}
