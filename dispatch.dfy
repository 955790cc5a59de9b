/** The decision the `onRequest` hook makes for each request (index.js lines
    36-64): which configuration the reply is decorated with, which nonce flag
    is used, and whether headers are applied automatically. */
module RequestDispatch {
  import opened JsValue
  import opened PluginOptions

  datatype Outcome =
    | Skip          // `skipRoute === true`: decorate with the global config only
    | Override      // route override: decorate and apply the merged config
    | Global        // no override, plugin global: decorate and apply
    | DecorateOnly  // no override, plugin not global: decorate only

  datatype Decision = Decision(outcome: Outcome, configuration: map<string, Value>, enableCSP: Value)

  /** The outcomes whose branch calls `buildHelmetOnRoutes`: skip and
      decorate-only never apply headers automatically. */
  predicate AppliesHeaders(o: Outcome)
    ensures o == Skip || o == DecorateOnly ==> !AppliesHeaders(o)
    ensures o == Override || o == Global ==> AppliesHeaders(o)
  {
    o == Override || o == Global
  }

  /** `const { enableCSPNonces, skipRoute, ...helmetRouteConfiguration } = routeOptions`
      followed by the shallow merge over the global configuration. */
  function MergeRoute(globalConfiguration: map<string, Value>, routeOptions: Value): (r: map<string, Value>)
    ensures r.Keys == globalConfiguration.Keys + (OwnProps(routeOptions).Keys - {"enableCSPNonces", "skipRoute"})
  {
    Assign(globalConfiguration, OwnProps(routeOptions) - {"enableCSPNonces", "skipRoute"})
  }

  function Dispatch(s: Settings, routeConfig: map<string, Value>): (r: Result<Decision>)
    ensures r.Err? <==> Get(routeConfig, "helmet").Null?
    ensures r.Ok? ==> (AppliesHeaders(r.value.outcome) <==>
      (!Get(routeConfig, "helmet").Undefined? && Prop(Get(routeConfig, "helmet"), "skipRoute") != Bool(true)) ||
      (Get(routeConfig, "helmet").Undefined? && s.isGlobal))
  {
    var routeOptions := Get(routeConfig, "helmet");
    if TypeOf(routeOptions) != "undefined" then
      if routeOptions.Null? then Err(CannotDestructureNull)
      else if Prop(routeOptions, "skipRoute") == Bool(true) then
        Ok(Decision(Skip, s.globalConfiguration, s.enableCSPNonces))
      else
        Ok(Decision(Override, MergeRoute(s.globalConfiguration, routeOptions), Prop(routeOptions, "enableCSPNonces")))
    else if s.isGlobal then Ok(Decision(Global, s.globalConfiguration, s.enableCSPNonces))
    else Ok(Decision(DecorateOnly, s.globalConfiguration, s.enableCSPNonces))
  }

  /** The dispatch table: every request that does not fail falls into exactly
      one of the four outcomes, each fixing configuration and nonce flag. */
  lemma DispatchTable(s: Settings, routeConfig: map<string, Value>)
    requires Dispatch(s, routeConfig).Ok?
    ensures var d := Dispatch(s, routeConfig).value; var h := Get(routeConfig, "helmet");
      && (d.outcome == Skip <==> !h.Undefined? && Prop(h, "skipRoute") == Bool(true))
      && (d.outcome == Override <==> !h.Undefined? && Prop(h, "skipRoute") != Bool(true))
      && (d.outcome == Global <==> h.Undefined? && s.isGlobal)
      && (d.outcome == DecorateOnly <==> h.Undefined? && !s.isGlobal)
      && (d.outcome != Override ==> d.configuration == s.globalConfiguration && d.enableCSP == s.enableCSPNonces)
      && (d.outcome == Override ==> d.enableCSP == Prop(h, "enableCSPNonces"))
  {
  }

  /** Merge precedence: the route's keys win, except the two plugin-only
      keys, which never reach the configuration; every other key keeps its
      global value. */
  lemma MergePrecedence(globalConfiguration: map<string, Value>, routeOptions: Value, k: string)
    ensures var r := MergeRoute(globalConfiguration, routeOptions); var p := OwnProps(routeOptions);
      && (k in p && k != "enableCSPNonces" && k != "skipRoute" ==> r[k] == p[k])
      && (k in globalConfiguration && (k !in p || k == "enableCSPNonces" || k == "skipRoute") ==> r[k] == globalConfiguration[k])
      && (k !in globalConfiguration && (k !in p || k == "enableCSPNonces" || k == "skipRoute") ==> k !in r)
  {
  }

  /** An override route's nonce flag is its own: omitting `enableCSPNonces`
      leaves it `undefined`, hence off, whatever the global flag says. */
  lemma OverrideIgnoresGlobalNonceFlag(s: Settings, routeConfig: map<string, Value>)
    requires Dispatch(s, routeConfig).Ok? && Dispatch(s, routeConfig).value.outcome == Override
    requires "enableCSPNonces" !in OwnProps(Get(routeConfig, "helmet"))
    ensures !Truthy(Dispatch(s, routeConfig).value.enableCSP)
  {
  }

  /** A route whose stored `helmet` is `null` (accepted at registration, as
      `typeof null` is "object") fails on every request. */
  lemma NullRouteHelmetFails(s: Settings, routeConfig: map<string, Value>)
    requires Get(routeConfig, "helmet") == Null
    ensures Dispatch(s, routeConfig) == Err(CannotDestructureNull)
  {
  }
}
