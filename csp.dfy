/** The nonce tokens of `replyDecorators` (index.js lines 67-82) and the
    directive rewrite of `buildHelmetOnRoutes` (index.js lines 84-116). */
module CspNonces {
  import opened JsValue
  import opened Hex

  /** The `{ script, style }` object stored on `reply.cspNonce`. */
  datatype NoncePair = NoncePair(script: string, style: string)

  predicate IsToken(t: string) {
    |t| == 32 && forall i :: 0 <= i < |t| ==> IsLowerHex(t[i])
  }

  /** Two tokens from `randomBytes(16).toString('hex')` each; the random bytes
      are inputs of the model. */
  function FreshNonces(scriptBytes: seq<byte>, styleBytes: seq<byte>): (n: NoncePair)
    requires |scriptBytes| == 16 && |styleBytes| == 16
    ensures IsToken(n.script) && IsToken(n.style)
    ensures HexDecode(n.script) == scriptBytes && HexDecode(n.style) == styleBytes
  {
    HexRoundTrip(scriptBytes);
    HexRoundTrip(styleBytes);
    NoncePair(HexEncode(scriptBytes), HexEncode(styleBytes))
  }

  /** Distinct random bytes give distinct script and style tokens. */
  lemma FreshNoncesDistinct(scriptBytes: seq<byte>, styleBytes: seq<byte>)
    requires |scriptBytes| == 16 && |styleBytes| == 16 && scriptBytes != styleBytes
    ensures FreshNonces(scriptBytes, styleBytes).script != FreshNonces(scriptBytes, styleBytes).style
  {
  }

  /** The configuration the manual `reply.helmet(opts)` hands to helmet:
      a fresh merge with `opts` winning when `opts` is truthy. */
  function ManualConfiguration(configuration: map<string, Value>, opts: Value): (r: map<string, Value>)
    ensures !Truthy(opts) ==> r == configuration
    ensures Truthy(opts) ==> r.Keys == configuration.Keys + OwnProps(opts).Keys
    ensures Truthy(opts) ==> forall k :: k in OwnProps(opts) ==> r[k] == OwnProps(opts)[k]
    ensures Truthy(opts) ==> forall k :: k in configuration && k !in OwnProps(opts) ==> r[k] == configuration[k]
  {
    if Truthy(opts) then Assign(configuration, OwnProps(opts)) else configuration
  }

  /** The CSP source entry `'nonce-<token>'`. */
  function NonceSource(token: string): (src: string)
    ensures |src| == |token| + 8
    ensures src[..7] == "'nonce-" && src[7..|src| - 1] == token && src[|src| - 1] == '\''
  {
    "'nonce-" + token + "'"
  }

  lemma NonceSourceInjective(a: string, b: string)
    requires NonceSource(a) == NonceSource(b)
    ensures a == b
  {
  }

  /** `Array.isArray(v) ? [...v] : []`: an array's elements in order, or an
      empty list for anything that is not an array. */
  function SourceList(v: Value): (r: seq<Value>)
    ensures v.Arr? ==> r == v.items
    ensures !v.Arr? ==> r == []
  {
    if v.Arr? then v.items else []
  }

  /** The key a directive is stored under: the hyphenated spelling when it
      holds an array, the camel-cased one otherwise. */
  function DirectiveKey(d: map<string, Value>, hyphen: string, camel: string): (key: string)
    ensures key == hyphen || key == camel
    ensures key == hyphen <==> Get(d, hyphen).Arr? || hyphen == camel
  {
    if Get(d, hyphen).Arr? then hyphen else camel
  }

  /** Reassigns the chosen directive to a copy of its list with one nonce
      source appended (the `push` onto the copied array). */
  function AddNonce(d: map<string, Value>, hyphen: string, camel: string, token: string): (r: map<string, Value>)
    ensures r.Keys == d.Keys + {DirectiveKey(d, hyphen, camel)}
    ensures r[DirectiveKey(d, hyphen, camel)] ==
      Arr(SourceList(Get(d, DirectiveKey(d, hyphen, camel))) + [Str(NonceSource(token))])
    ensures forall k :: k in d && k != DirectiveKey(d, hyphen, camel) ==> r[k] == d[k]
  {
    var key := DirectiveKey(d, hyphen, camel);
    d[key := Arr(SourceList(Get(d, key)) + [Str(NonceSource(token))])]
  }

  function ScriptKey(d: map<string, Value>): string {
    DirectiveKey(d, "script-src", "scriptSrc")
  }

  function StyleKey(d: map<string, Value>): string {
    DirectiveKey(d, "style-src", "styleSrc")
  }

  /** Both nonce appends on the copied directive map; the style key is chosen
      after the script entry has been rewritten, as the source does. Stated on
      the INPUT map: the result has the input's keys plus the two chosen ones,
      each chosen list is the old one (or empty) plus exactly one nonce source,
      and every other directive is unchanged. */
  function InjectNonces(d: map<string, Value>, n: NoncePair): (r: map<string, Value>)
    ensures r.Keys == d.Keys + {ScriptKey(d), StyleKey(d)}
    ensures r[ScriptKey(d)] == Arr(SourceList(Get(d, ScriptKey(d))) + [Str(NonceSource(n.script))])
    ensures r[StyleKey(d)] == Arr(SourceList(Get(d, StyleKey(d))) + [Str(NonceSource(n.style))])
    ensures forall k :: k in d && k != ScriptKey(d) && k != StyleKey(d) ==> r[k] == d[k]
  {
    var withScript := AddNonce(d, "script-src", "scriptSrc", n.script);
    assert StyleKey(withScript) == StyleKey(d);
    AddNonce(withScript, "style-src", "styleSrc", n.style)
  }

  /** The script key is `'script-src'` exactly when that key holds an array. */
  lemma ScriptKeyChoice(d: map<string, Value>)
    ensures ScriptKey(d) == "script-src" <==> "script-src" in d && d["script-src"].Arr?
    ensures ScriptKey(d) != "script-src" ==> ScriptKey(d) == "scriptSrc"
    ensures StyleKey(d) == "style-src" <==> "style-src" in d && d["style-src"].Arr?
    ensures StyleKey(d) != "style-src" ==> StyleKey(d) == "styleSrc"
  {
  }

  /** Directive source: the configured `directives` copied when
      `contentSecurityPolicy` is truthy, else the default directives. */
  function CspDirectives(configuration: map<string, Value>, defaults: map<string, Value>): (r: map<string, Value>)
    ensures !Truthy(Get(configuration, "contentSecurityPolicy")) ==> r == defaults
    ensures Truthy(Get(configuration, "contentSecurityPolicy")) ==>
      r == OwnProps(Prop(Get(configuration, "contentSecurityPolicy"), "directives"))
  {
    var csp := Get(configuration, "contentSecurityPolicy");
    OwnProps(if Truthy(csp) then Prop(csp, "directives") else Obj(defaults))
  }

  function CspReportOnly(configuration: map<string, Value>): (r: Value)
    ensures !Truthy(Get(configuration, "contentSecurityPolicy")) ==> r == Undefined
    ensures Truthy(Get(configuration, "contentSecurityPolicy")) ==>
      r == Prop(Get(configuration, "contentSecurityPolicy"), "reportOnly")
  {
    var csp := Get(configuration, "contentSecurityPolicy");
    if Truthy(csp) then Prop(csp, "reportOnly") else Undefined
  }

  /** `{ directives, reportOnly: cspReportOnly }`: exactly those two keys, the
      rewritten copy of the source directives and the carried-over
      `reportOnly`. */
  function CspOption(configuration: map<string, Value>, defaults: map<string, Value>, n: NoncePair): (r: Value)
    ensures r.Obj? && r.props.Keys == {"directives", "reportOnly"}
    ensures r.props["directives"] == Obj(InjectNonces(CspDirectives(configuration, defaults), n))
    ensures var csp := Get(configuration, "contentSecurityPolicy");
      r.props["reportOnly"] == if Truthy(csp) then Prop(csp, "reportOnly") else Undefined
  {
    Obj(map["directives" := Obj(InjectNonces(CspDirectives(configuration, defaults), n)),
            "reportOnly" := CspReportOnly(configuration)])
  }

  /** The configuration handed to helmet when nonces are injected: it differs
      from `configuration` only in `contentSecurityPolicy`. */
  function NonceConfiguration(configuration: map<string, Value>, defaults: map<string, Value>, n: NoncePair): (r: map<string, Value>)
    ensures r.Keys == configuration.Keys + {"contentSecurityPolicy"}
    ensures forall k :: k in configuration && k != "contentSecurityPolicy" ==> r[k] == configuration[k]
  {
    Assign(configuration, map["contentSecurityPolicy" := CspOption(configuration, defaults, n)])
  }

  /** What `contentSecurityPolicy` is in the configuration handed to helmet:
      an object with exactly `directives` and `reportOnly`; the directives are
      the source's with the two chosen keys added, every other directive
      unchanged and the two chosen lists carrying the nonces; `reportOnly` is
      carried over from a truthy `contentSecurityPolicy`, or undefined. */
  lemma NonceConfigurationSpec(configuration: map<string, Value>, defaults: map<string, Value>, n: NoncePair)
    ensures var r := NonceConfiguration(configuration, defaults, n); var sent := r["contentSecurityPolicy"];
      && sent.Obj? && sent.props.Keys == {"directives", "reportOnly"}
      && sent.props["directives"].Obj?
    ensures var r := NonceConfiguration(configuration, defaults, n); var csp := Get(configuration, "contentSecurityPolicy");
      r["contentSecurityPolicy"].props["reportOnly"] == if Truthy(csp) then Prop(csp, "reportOnly") else Undefined
    ensures var r := NonceConfiguration(configuration, defaults, n); var src := CspDirectives(configuration, defaults);
      r["contentSecurityPolicy"].props["directives"].props.Keys == src.Keys + {ScriptKey(src), StyleKey(src)}
    ensures var r := NonceConfiguration(configuration, defaults, n); var src := CspDirectives(configuration, defaults);
      forall k :: k in src && k != ScriptKey(src) && k != StyleKey(src) ==> SentDirective(r, k) == src[k]
    ensures CarriesNonces(NonceConfiguration(configuration, defaults, n), CspDirectives(configuration, defaults), n)
  {
    var injected := InjectNonces(CspDirectives(configuration, defaults), n);
    SentDirectivesAre(NonceConfiguration(configuration, defaults, n), injected, CspReportOnly(configuration));
  }

  /** What `buildHelmetOnRoutes` hands to helmet: the nonce-injected
      configuration when the flag is strictly `true`, the configuration itself
      otherwise. Reading the nonce pair from a reply still holding the `null`
      decorator throws before helmet is called. */
  function RouteHeaders(configuration: map<string, Value>, enableCSP: Value, defaults: map<string, Value>,
                        cspNonce: Option<NoncePair>): (r: Result<map<string, Value>>)
    ensures enableCSP != Bool(true) ==> r == Ok(configuration)
    ensures enableCSP == Bool(true) ==> (r.Err? <==> cspNonce.None?)
    ensures r.Err? ==> r.error == CannotDestructureNull
    ensures enableCSP == Bool(true) && cspNonce.Some? ==> r == Ok(NonceConfiguration(configuration, defaults, cspNonce.value))
  {
    if enableCSP == Bool(true) then
      if cspNonce.None? then Err(CannotDestructureNull)
      else Ok(NonceConfiguration(configuration, defaults, cspNonce.value))
    else Ok(configuration)
  }

  /** `reply.cspNonce` after `replyDecorators`: a fresh pair when the flag is
      truthy, the previous value otherwise. */
  function DecoratedNonce(enableCSP: Value, scriptBytes: seq<byte>, styleBytes: seq<byte>,
                          prior: Option<NoncePair>): (r: Option<NoncePair>)
    requires |scriptBytes| == 16 && |styleBytes| == 16
    ensures Truthy(enableCSP) ==> r.Some? && IsToken(r.value.script) && IsToken(r.value.style)
    ensures !Truthy(enableCSP) ==> r == prior
  {
    if Truthy(enableCSP) then Some(FreshNonces(scriptBytes, styleBytes)) else prior
  }

  /** The directive list of `key` in the configuration handed to helmet. */
  function SentDirective(config: map<string, Value>, key: string): Value {
    var csp := Get(config, "contentSecurityPolicy");
    if csp.Obj? then Get(OwnProps(Get(csp.props, "directives")), key) else Undefined
  }

  /** The directive lists sent are those of the `directives` object placed
      under `contentSecurityPolicy`. */
  lemma SentDirectivesAre(config: map<string, Value>, d: map<string, Value>, reportOnly: Value)
    requires "contentSecurityPolicy" in config
    requires config["contentSecurityPolicy"] == Obj(map["directives" := Obj(d), "reportOnly" := reportOnly])
    ensures forall k :: SentDirective(config, k) == Get(d, k)
  {
  }

  /** The configuration handed to helmet carries, under the script and style
      keys chosen on the source directives `src`, the source lists with the
      pair's nonce sources appended once at the end. */
  predicate CarriesNonces(config: map<string, Value>, src: map<string, Value>, n: NoncePair) {
    && SentDirective(config, ScriptKey(src)) == Arr(SourceList(Get(src, ScriptKey(src))) + [Str(NonceSource(n.script))])
    && SentDirective(config, StyleKey(src)) == Arr(SourceList(Get(src, StyleKey(src))) + [Str(NonceSource(n.style))])
  }

  /** Same-nonce consistency: when the flag is strictly `true`, the nonce
      sources appended to the script and style lists are exactly the tokens
      `replyDecorators` just stored on the reply, each appended once at the
      end of the configured (or default) list. */
  lemma InjectedNoncesAreStored(configuration: map<string, Value>, defaults: map<string, Value>,
                                scriptBytes: seq<byte>, styleBytes: seq<byte>, prior: Option<NoncePair>)
    requires |scriptBytes| == 16 && |styleBytes| == 16
    ensures var n := DecoratedNonce(Bool(true), scriptBytes, styleBytes, prior);
      var r := RouteHeaders(configuration, Bool(true), defaults, n);
      var d := CspDirectives(configuration, defaults);
      n.Some? && r.Ok? && CarriesNonces(r.value, d, n.value)
  {
    NonceConfigurationSpec(configuration, defaults, FreshNonces(scriptBytes, styleBytes));
  }

  /** A truthy flag other than `true` (say `1` or `"yes"`) still yields a
      nonce pair on the reply, but nothing is injected into the headers. */
  lemma TruthyNonTrueFlagDoesNotInject(configuration: map<string, Value>, enableCSP: Value, defaults: map<string, Value>,
                                       scriptBytes: seq<byte>, styleBytes: seq<byte>, prior: Option<NoncePair>)
    requires |scriptBytes| == 16 && |styleBytes| == 16
    requires Truthy(enableCSP) && enableCSP != Bool(true)
    ensures DecoratedNonce(enableCSP, scriptBytes, styleBytes, prior).Some?
    ensures RouteHeaders(configuration, enableCSP, defaults, DecoratedNonce(enableCSP, scriptBytes, styleBytes, prior)) == Ok(configuration)
  {
  }
}
