# fastify-helmet: configuration merge and CSP nonce injection

A Dafny model of the decision-and-rewrite core of the `fastify-helmet` plugin
(`index.js`). The plugin sits between Fastify and the `helmet` security-header
middleware:

- it splits its options into the helmet configuration, the `enableCSPNonces`
  flag and the `global` flag;
- its `onRoute` hook turns each route's `helmet` option into a stored
  override, a `{ skipRoute: true }` marker, or a registration error;
- its `onRequest` hook sends each request to one of four outcomes (skip,
  override, global, decorate-only), decorates the reply with a manual
  `reply.helmet(opts)` and, when enabled, a `{ script, style }` nonce pair;
- when headers are applied with nonces enabled, it copies the CSP directive
  map, picks the `script-src`/`scriptSrc` and `style-src`/`styleSrc` keys and
  appends `'nonce-<token>'` to copies of those lists.

JavaScript values are the datatype `JsValue.Value`. Objects are
`map<string, Value>`. `OwnProps` gives the own enumerable properties that
spread, rest and `Object.assign` copy. Arrays and strings contribute exactly
their decimal index keys; a string is split per Unicode code point (see
"## Left out"). `helmet(...)` is a sink: `ReplyDecoration.Reply.sent` records every
configuration handed to it. The randomness and helmet's default directives
are inputs.

Modules, one per part of `index.js`:

- `values.dfy`: `JsValue`, with `typeof`, truthiness, own properties, property lookup and `Object.assign`.
- `hex.dfy`: `Hex`, the `toString('hex')` encoding and the decoding that inverts it.
- `options.dfy`: `PluginOptions`, the option split.
- `route.dfy`: `RouteHook`, the `onRoute` classifier and the in-place update of a route's `config`.
- `dispatch.dfy`: `RequestDispatch`, the per-request decision and the merge.
- `csp.dfy`: `CspNonces`, the nonce pair, the manual configuration and the directive rewrite.
- `reply.dfy`: `ReplyDecoration`, the reply object with `replyDecorators` and `buildHelmetOnRoutes` as methods.
- `hooks.dfy`: `Hooks`, the `onRequest` body over a reply, plus whole-lifecycle lemmas.

## Behaviour worth noting

- An override route's nonce flag is the route's own `enableCSPNonces` and
  nothing else. A route that omits it gets no nonces, even when the global
  flag is `true` (index.js:40, 51-52). See `RequestDispatch.OverrideIgnoresGlobalNonceFlag`.
- `onRoute` accepts every value whose `typeof` is `"object"`, so `null` and
  arrays pass as well as objects. A stored `null` then makes every request on
  that route throw when it is destructured (index.js:26, 40). See
  `Hooks.NullRouteRegistersThenFails`.
- Headers are applied inside the `onRequest` hook itself (index.js:52, 58).
  The plugin registers no pre-send hook.
- The merge is shallow, so an override's `contentSecurityPolicy` replaces the
  global one whole (index.js:49, 86-87). The directives sent are then only the
  override's, plus the nonce lists. Nothing is inherited from the global or
  default directives. See `Hooks.SelfScriptScenario`: the override
  `'script-src': ["'self'"]` sends `'self'` plus the script nonce, and a new
  `styleSrc` list that holds only the style nonce.

## Model

| member | source | states |
|---|---|---|
| `JsValue.Truthy` | index.js:68-89 | `null` and `undefined` are falsy; objects, arrays and functions are truthy; a boolean is itself, a string is truthy when non-empty, a number when non-zero |
| `JsValue.Get` | index.js:37 | reading a key an object lacks gives `undefined`; otherwise the stored value |
| `JsValue.Prop` | index.js:86-94 | property reads on an object see its own keys; booleans, numbers and functions have no own property; an array answers only at its index keys |
| `JsValue.TypeOf` | index.js:25-26 | `typeof` is "object" exactly for null, arrays and objects, and "undefined" exactly for undefined |
| `JsValue.OwnProps` | index.js:40 | object rest and spread copy an object's own properties; arrays and strings give exactly their elements or characters, under their decimal index keys and no other key; other primitives give nothing |
| `JsValue.DecimalInjective` | index.js:40 | distinct array indices have distinct property keys, so no array element hides another |
| `JsValue.Assign` | index.js:49 | `Object.assign` into a fresh object holds the keys of both sources, the later source winning on shared keys |
| `Hex.HexEncode` | index.js:70-71 | the hex token has two characters per byte, all from the lower-case hex alphabet |
| `Hex.HexRoundTrip` | index.js:70-71 | decoding a token gives back the random bytes it came from |
| `Hex.HexEncodeInjective` | index.js:70-71 | different random bytes give different tokens |
| `PluginOptions.SplitOptions` | index.js:10-12 | the global configuration is the options without exactly `enableCSPNonces` and `global`, every other key unchanged; the nonce flag is the `enableCSPNonces` option |
| `PluginOptions.IsGlobalUnlessFalse` | index.js:12 | `isGlobal` equals `global` when that is a boolean, and is `true` otherwise |
| `RouteHook.ClassifyRoute` | index.js:24-34 | registration fails, with "Unknown value for route helmet configuration", exactly when the option is neither undefined, nor of `typeof` "object", nor `false` |
| `RouteHook.ClassifyRouteCases` | index.js:25-32 | undefined leaves `config` untouched; null, arrays and objects are stored as `config.helmet`; `false` stores the skip marker; `true`, strings, numbers and functions are rejected |
| `RouteHook.ClassifyRouteKeepsConfig` | index.js:27-29 | keys other than `helmet` already in `config` are kept with their values in every accepted case |
| `RouteHook.ClassifyRouteAddsOnlyHelmet` | index.js:27-29 | an accepted, defined option adds exactly the key `helmet` to `config` and no other key |
| `RouteHook.RouteOptions.OnRoute` | index.js:24-34 | the hook replaces `config` by the classified one, or reports the error and leaves `config` as it was |
| `RequestDispatch.AppliesHeaders` | index.js:52-58 | headers are applied for the override and global outcomes, never for skip or decorate-only |
| `RequestDispatch.MergeRoute` | index.js:40-49 | the merged configuration's keys are the global keys plus the override's keys other than `enableCSPNonces` and `skipRoute` |
| `RequestDispatch.Dispatch` | index.js:36-64 | a request fails exactly when the stored route option is null; headers are applied exactly for a defined option without `skipRoute === true`, or for no option on a global plugin |
| `RequestDispatch.DispatchTable` | index.js:39-63 | exactly one of skip, override, global and decorate-only applies; every outcome except override uses the global configuration and global flag; override uses the route's own flag |
| `RequestDispatch.MergePrecedence` | index.js:40-49 | override keys except the two plugin-only ones take the route's value; every other key keeps its global value or stays absent |
| `RequestDispatch.OverrideIgnoresGlobalNonceFlag` | index.js:40-52 | an override route that omits `enableCSPNonces` gets no nonces, whatever the global flag |
| `RequestDispatch.NullRouteHelmetFails` | index.js:37-40 | a stored `helmet: null` makes the request fail with the destructuring TypeError |
| `CspNonces.FreshNonces` | index.js:69-72 | both tokens are 32 lower-case hex characters and decode to their random bytes |
| `CspNonces.FreshNoncesDistinct` | index.js:70-71 | the script and style tokens differ when the random bytes differ |
| `CspNonces.ManualConfiguration` | index.js:75-79 | with truthy `opts`, a fresh merge in which the keys of `opts` win; otherwise the captured configuration unchanged |
| `CspNonces.NonceSource` | index.js:103 | the source entry is `'nonce-`, then the token, then a closing quote |
| `CspNonces.SourceList` | index.js:102 | the copied list holds an array's elements in order, or is empty for anything that is not an array |
| `CspNonces.DirectiveKey` | index.js:101-105 | the hyphenated key is chosen exactly when it holds an array, the camel-cased one otherwise |
| `CspNonces.ScriptKeyChoice` | index.js:101-105 | the script key is `'script-src'` exactly when that key holds an array, else `'scriptSrc'`; the same for the style keys |
| `CspNonces.AddNonce` | index.js:101-107 | one rewrite step adds the chosen key only; its list is the old list, or an empty one, followed by exactly one nonce source; every other directive is unchanged |
| `CspNonces.InjectNonces` | index.js:97-107 | stated on the input map: the result has the input's keys plus the two chosen ones; each chosen list is the old list, or an empty one, followed by exactly one nonce source; all other directives are unchanged |
| `CspNonces.CspDirectives` | index.js:86-88 | the directives come from the configured `contentSecurityPolicy.directives` when that option is truthy, and are the defaults otherwise |
| `CspNonces.CspOption` | index.js:109 | the new `contentSecurityPolicy` has exactly `directives` and `reportOnly`: the rewritten copy of the source directives, and `reportOnly` from a truthy `contentSecurityPolicy`, else undefined |
| `CspNonces.NonceConfiguration` | index.js:109-110 | the final configuration differs from the input only in the key `contentSecurityPolicy` |
| `CspNonces.NonceConfigurationSpec` | index.js:89-110 | in what helmet receives, `contentSecurityPolicy` is an object with exactly `directives` and `reportOnly`; the directive keys are the source's plus the two chosen ones; every other source directive is unchanged; the chosen lists carry the nonces; `reportOnly` is carried over from a truthy `contentSecurityPolicy`, else undefined |
| `CspNonces.RouteHeaders` | index.js:84-115 | nonces are injected only when the flag is strictly `true`; otherwise helmet gets the configuration unchanged; a missing nonce pair is the only failure |
| `CspNonces.DecoratedNonce` | index.js:67-73 | a truthy flag stores a fresh pair of 32-character hex tokens; otherwise `reply.cspNonce` keeps its value |
| `CspNonces.InjectedNoncesAreStored` | index.js:68-107 | with the flag `true`, injection succeeds and appends exactly the tokens just stored on the reply, once each, at the end of the source lists |
| `CspNonces.TruthyNonTrueFlagDoesNotInject` | index.js:68-85 | a truthy flag other than `true` gives a nonce pair but no injection |
| `ReplyDecoration.Reply.constructor` | index.js:15-22 | a new reply has both decorators `null` and no headers applied |
| `ReplyDecoration.Reply.Decorate` | index.js:67-82 | `reply.cspNonce` becomes the decorated nonce, and `reply.helmet` captures the configuration; no headers are applied |
| `ReplyDecoration.Reply.ApplyManual` | index.js:75-81 | a manual call hands the manual configuration to helmet; before decoration it fails as not a function |
| `ReplyDecoration.Reply.BuildHelmetOnRoutes` | index.js:84-116 | the configuration handed to helmet is the nonce-injected one or the plain one; the decorators are untouched |
| `Hooks.OnRequest` | index.js:36-64 | the reply gets the decision's configuration and nonce flag; headers are applied once exactly for override and global outcomes; the injected tokens are the ones on `reply.cspNonce`; a failing request leaves the reply untouched |
| `Hooks.DisabledRouteDecoratesOnly` | index.js:28-46 | a `helmet: false` route never applies headers automatically, but is decorated with the global configuration and global flag |
| `Hooks.OverrideRouteMerges` | index.js:26-52 | an object override applies headers with the global configuration overlaid by the override minus the two plugin-only keys, and with the override's own flag |
| `Hooks.PlainRouteFollowsGlobal` | index.js:54-63 | a route without an option applies the global configuration automatically exactly when `global` is not `false` |
| `Hooks.NullRouteRegistersThenFails` | index.js:25-40 | `helmet: null` passes registration, then every request on the route fails |
| `Hooks.GlobalNonceScenario` | index.js:54-58 | global nonces on a plain route: two 32-character hex tokens, distinct for distinct bytes, are injected into the script and style lists |
| `Hooks.SelfScriptScenario` | index.js:47-107 | an override with `'script-src': ["'self'"]` and nonces sends `'self'` followed by the script nonce, and the style nonce alone under `styleSrc` |

## Left out

- The `helmet` middleware (index.js:5, 80, 112, 114) generates the headers.
  It is a sink here: `Reply.sent` records the configuration each call receives.
  Header contents, and helmet throwing on options set to `true`, are not modelled.
- `helmet.contentSecurityPolicy.getDefaultDirectives()` (index.js:88) is the input `defaults`.
- `crypto.randomBytes(16)` (index.js:70-71) is not modelled; its two results are
  inputs of 16 bytes each. Distinct tokens are proved only for distinct bytes.
- Fastify plumbing is not modelled:
  - the `hasReplyDecorator`/`decorateReply` guard (index.js:15-22), except that a new reply starts with both decorators `null`;
  - hook registration with `addHook`;
  - the `fastify-plugin` wrapper and the exports (index.js:118-123);
  - `request.raw` and `reply.raw`.
- `Hooks.RequestConfig` stands in for Fastify giving a route registered
  without a `config` an empty one at request time.
- Route `config` is absent or a plain object. A truthy non-object `config` is not modelled.
- Async semantics are not modelled. The two helpers contain no `await`, so
  each runs to completion, in order. A failure inside them would be a rejected
  promise nothing awaits. `Hooks.OnRequest` proves that no such failure happens.
- The error callback `(err) => new Error(err)` (index.js:80, 112, 114) discards its result and is not modelled.
- JsValue.OwnProps: a string is split into one index key per Unicode code
  point. JavaScript splits it per UTF-16 code unit, so a character outside
  the Basic Multilingual Plane gives one key here where JavaScript gives two.
- JavaScript values leave out several things:
  - numbers are integers, so NaN and fractions are missing;
  - symbols, BigInts, getters, prototype-inherited properties and non-enumerable properties (such as `length`) are missing;
  - object key order is not kept.
- Object identity and aliasing are not modelled, because maps and lists are
  values. That the shared global configuration and its directive lists are
  never mutated therefore holds by construction. The model cannot show
  what went wrong when the directives object was shared without a copy.
- `ReplyDecoration.Reply.cspNonce` holds either a nonce pair or `null`.
  Handler code writing some other value to `reply.cspNonce` between the two
  helpers is not modelled.
