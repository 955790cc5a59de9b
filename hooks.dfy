/** The `onRequest` hook body (index.js lines 36-64) run against one reply,
    and the properties of the whole route lifecycle: registration through
    `onRoute`, then requests on that route. */
module Hooks {
  import opened JsValue
  import opened Hex
  import opened PluginOptions
  import opened RouteHook
  import opened RequestDispatch
  import opened CspNonces
  import opened ReplyDecoration

  /** The hook for one request on a route whose `config` is `routeConfig`.
      The helpers are `async` but contain no `await`, so each runs to its end
      before the hook goes on; a failure inside `buildHelmetOnRoutes` would be
      a rejected promise nobody awaits, and it is shown here never to happen. */
  method OnRequest(s: Settings, routeConfig: map<string, Value>, reply: Reply, defaults: map<string, Value>,
                   scriptBytes: seq<byte>, styleBytes: seq<byte>) returns (err: Option<Error>)
    requires |scriptBytes| == 16 && |styleBytes| == 16
    modifies reply
    ensures Dispatch(s, routeConfig).Err? ==>
      && err == Some(Dispatch(s, routeConfig).error)
      && reply.cspNonce == old(reply.cspNonce) && reply.helmet == old(reply.helmet) && reply.sent == old(reply.sent)
    ensures Dispatch(s, routeConfig).Ok? ==>
      var d := Dispatch(s, routeConfig).value;
      && err == None
      && reply.cspNonce == DecoratedNonce(d.enableCSP, scriptBytes, styleBytes, old(reply.cspNonce))
      && reply.helmet == Some(d.configuration)
      && (AppliesHeaders(d.outcome) ==> RouteHeaders(d.configuration, d.enableCSP, defaults, reply.cspNonce).Ok?)
      && reply.sent == old(reply.sent) +
           (if AppliesHeaders(d.outcome) then [RouteHeaders(d.configuration, d.enableCSP, defaults, reply.cspNonce).value] else [])
    ensures Dispatch(s, routeConfig).Ok? && AppliesHeaders(Dispatch(s, routeConfig).value.outcome)
            && Dispatch(s, routeConfig).value.enableCSP == Bool(true) ==>
      reply.cspNonce.Some? && |reply.sent| == |old(reply.sent)| + 1 &&
      CarriesNonces(reply.sent[|reply.sent| - 1], CspDirectives(Dispatch(s, routeConfig).value.configuration, defaults), reply.cspNonce.value)
  {
    var routeOptions := Get(routeConfig, "helmet");
    if TypeOf(routeOptions) != "undefined" {
      if routeOptions.Null? {
        return Some(CannotDestructureNull);
      }
      var enableRouteCSPNonces := Prop(routeOptions, "enableCSPNonces");
      var skipRoute := Prop(routeOptions, "skipRoute");
      var helmetRouteConfiguration := OwnProps(routeOptions) - {"enableCSPNonces", "skipRoute"};
      if skipRoute == Bool(true) {
        reply.Decorate(s.globalConfiguration, s.enableCSPNonces, scriptBytes, styleBytes);
      } else {
        var merged := Assign(s.globalConfiguration, helmetRouteConfiguration);
        reply.Decorate(merged, enableRouteCSPNonces, scriptBytes, styleBytes);
        var rejected := reply.BuildHelmetOnRoutes(merged, enableRouteCSPNonces, defaults);
        assert rejected == None;
        if enableRouteCSPNonces == Bool(true) {
          InjectedNoncesAreStored(merged, defaults, scriptBytes, styleBytes, old(reply.cspNonce));
        }
      }
    } else if s.isGlobal {
      reply.Decorate(s.globalConfiguration, s.enableCSPNonces, scriptBytes, styleBytes);
      var rejected := reply.BuildHelmetOnRoutes(s.globalConfiguration, s.enableCSPNonces, defaults);
      assert rejected == None;
      if s.enableCSPNonces == Bool(true) {
        InjectedNoncesAreStored(s.globalConfiguration, defaults, scriptBytes, styleBytes, old(reply.cspNonce));
      }
    } else {
      reply.Decorate(s.globalConfiguration, s.enableCSPNonces, scriptBytes, styleBytes);
    }
    return None;
  }

  /** The `config` a request sees: the route's, or an empty one when the
      route was registered without any. */
  function RequestConfig(config: Option<map<string, Value>>): map<string, Value> {
    if config.Some? then config.value else map[]
  }

  /** `helmet: false` on a route: no automatic headers on any request, and
      the reply is still decorated with the global configuration and the
      global nonce flag. */
  lemma DisabledRouteDecoratesOnly(options: map<string, Value>, config: Option<map<string, Value>>)
    ensures var c := ClassifyRoute(Bool(false), config);
      var d := Dispatch(SplitOptions(options), RequestConfig(c.value));
      && c.Ok? && d.Ok? && d.value.outcome == Skip && !AppliesHeaders(d.value.outcome)
      && d.value.configuration == SplitOptions(options).globalConfiguration
      && d.value.enableCSP == Get(options, "enableCSPNonces")
  {
  }

  /** An object override without `skipRoute: true` applies headers with the
      global configuration overlaid by the override's own keys, minus the
      two plugin-only keys, and the override's own nonce flag. */
  lemma OverrideRouteMerges(options: map<string, Value>, override: map<string, Value>, config: Option<map<string, Value>>)
    requires Get(override, "skipRoute") != Bool(true)
    ensures var c := ClassifyRoute(Obj(override), config);
      var d := Dispatch(SplitOptions(options), RequestConfig(c.value));
      && c.Ok? && d.Ok? && d.value.outcome == Override && AppliesHeaders(d.value.outcome)
      && d.value.configuration == Assign(SplitOptions(options).globalConfiguration, override - {"enableCSPNonces", "skipRoute"})
      && d.value.enableCSP == Get(override, "enableCSPNonces")
  {
  }

  /** A route with no `helmet` option (and none already in its `config`)
      applies the global configuration automatically exactly when the plugin
      is global, and is decorated either way. */
  lemma PlainRouteFollowsGlobal(options: map<string, Value>, config: Option<map<string, Value>>)
    requires config.Some? ==> "helmet" !in config.value
    ensures var c := ClassifyRoute(Undefined, config);
      var d := Dispatch(SplitOptions(options), RequestConfig(c.value));
      && c.Ok? && d.Ok?
      && (d.value.outcome == Global <==> Get(options, "global") != Bool(false))
      && (d.value.outcome == DecorateOnly <==> Get(options, "global") == Bool(false))
      && d.value.configuration == SplitOptions(options).globalConfiguration
  {
  }

  /** `helmet: null` passes registration but every request on the route
      fails before the reply is touched. */
  lemma NullRouteRegistersThenFails(options: map<string, Value>, config: Option<map<string, Value>>)
    ensures var c := ClassifyRoute(Null, config);
      c.Ok? && Dispatch(SplitOptions(options), RequestConfig(c.value)) == Err(CannotDestructureNull)
  {
  }

  /** Global nonces on a plain route of a global plugin: the headers carry a
      script and a style nonce, each a 32-digit hex token, distinct when the
      random bytes differ, and the same tokens are on `reply.cspNonce`. */
  lemma GlobalNonceScenario(options: map<string, Value>, defaults: map<string, Value>,
                            scriptBytes: seq<byte>, styleBytes: seq<byte>)
    requires Get(options, "enableCSPNonces") == Bool(true)
    requires Get(options, "global") != Bool(false)
    requires |scriptBytes| == 16 && |styleBytes| == 16 && scriptBytes != styleBytes
    ensures var s := SplitOptions(options);
      var d := Dispatch(s, map[]);
      d.Ok? && d.value.outcome == Global &&
      var n := DecoratedNonce(d.value.enableCSP, scriptBytes, styleBytes, None);
      var r := RouteHeaders(d.value.configuration, d.value.enableCSP, defaults, n);
      && n.Some? && IsToken(n.value.script) && IsToken(n.value.style) && n.value.script != n.value.style
      && r.Ok? && CarriesNonces(r.value, CspDirectives(s.globalConfiguration, defaults), n.value)
  {
    var s := SplitOptions(options);
    IsGlobalUnlessFalse(options);
    FreshNoncesDistinct(scriptBytes, styleBytes);
    InjectedNoncesAreStored(s.globalConfiguration, defaults, scriptBytes, styleBytes, None);
  }

  /** The directives `{ 'script-src': ["'self'"] }` of the override below. */
  const SelfScriptDirectives: map<string, Value> := map["script-src" := Arr([Str("'self'")])]

  /** `{ contentSecurityPolicy: { directives: { 'script-src': ["'self'"] } }, enableCSPNonces: true }`. */
  const SelfScriptOverride: map<string, Value> := map[
    "contentSecurityPolicy" := Obj(map["directives" := Obj(SelfScriptDirectives)]),
    "enableCSPNonces" := Bool(true)]

  lemma SelfScriptDispatch(options: map<string, Value>)
    ensures var d := Dispatch(SplitOptions(options), map["helmet" := Obj(SelfScriptOverride)]);
      && d.Ok? && d.value.outcome == Override && d.value.enableCSP == Bool(true)
      && Get(d.value.configuration, "contentSecurityPolicy") == SelfScriptOverride["contentSecurityPolicy"]
  {
  }

  lemma SelfScriptHeaders(configuration: map<string, Value>, defaults: map<string, Value>, n: NoncePair)
    requires Get(configuration, "contentSecurityPolicy") == SelfScriptOverride["contentSecurityPolicy"]
    ensures CspDirectives(configuration, defaults) == SelfScriptDirectives
    ensures ScriptKey(SelfScriptDirectives) == "script-src" && StyleKey(SelfScriptDirectives) == "styleSrc"
    ensures SourceList(Get(SelfScriptDirectives, "script-src")) == [Str("'self'")]
    ensures SourceList(Get(SelfScriptDirectives, "styleSrc")) == []
  {
  }

  lemma SelfScriptSent(config: map<string, Value>, n: NoncePair)
    requires CarriesNonces(config, SelfScriptDirectives, n)
    ensures SentDirective(config, "script-src") == Arr([Str("'self'"), Str(NonceSource(n.script))])
    ensures SentDirective(config, "styleSrc") == Arr([Str(NonceSource(n.style))])
  {
    SelfScriptHeaders(map["contentSecurityPolicy" := SelfScriptOverride["contentSecurityPolicy"]], map[], n);
  }

  /** The override `SelfScriptOverride` on top of any global options: the
      script list sent is `'self'` followed by the reply's script nonce, and
      the style nonce goes alone into `styleSrc`. */
  lemma SelfScriptScenario(options: map<string, Value>, defaults: map<string, Value>,
                           scriptBytes: seq<byte>, styleBytes: seq<byte>)
    requires |scriptBytes| == 16 && |styleBytes| == 16
    ensures var d := Dispatch(SplitOptions(options), map["helmet" := Obj(SelfScriptOverride)]);
      d.Ok? && d.value.outcome == Override && d.value.enableCSP == Bool(true) &&
      var n := DecoratedNonce(d.value.enableCSP, scriptBytes, styleBytes, None);
      var r := RouteHeaders(d.value.configuration, d.value.enableCSP, defaults, n);
      && n.Some? && r.Ok?
      && SentDirective(r.value, "script-src") == Arr([Str("'self'"), Str(NonceSource(n.value.script))])
      && SentDirective(r.value, "styleSrc") == Arr([Str(NonceSource(n.value.style))])
  {
    SelfScriptDispatch(options);
    var d := Dispatch(SplitOptions(options), map["helmet" := Obj(SelfScriptOverride)]);
    var n := DecoratedNonce(Bool(true), scriptBytes, styleBytes, None);
    var r := RouteHeaders(d.value.configuration, Bool(true), defaults, n);
    assert n.Some? && r.Ok? && CarriesNonces(r.value, SelfScriptDirectives, n.value) by {
      SelfScriptHeaders(d.value.configuration, defaults, n.value);
      InjectedNoncesAreStored(d.value.configuration, defaults, scriptBytes, styleBytes, None);
    }
    SelfScriptSent(r.value, n.value);
  }
}
