/** The per-request reply object and the two helpers of the `onRequest` hook
    that write to it: `replyDecorators` (index.js lines 67-82) and
    `buildHelmetOnRoutes` (index.js lines 84-116). The helmet middleware is a
    sink: the reply records every configuration handed to it. */
module ReplyDecoration {
  import opened JsValue
  import opened Hex
  import opened CspNonces

  class Reply {
    /** `reply.cspNonce`; `None` is the `null` the decorator starts with. */
    var cspNonce: Option<NoncePair>
    /** The configuration the `reply.helmet` closure captured; `None` is the
        `null` the decorator starts with. */
    var helmet: Option<map<string, Value>>
    /** The configurations handed to `helmet(...)` against this reply, in order. */
    var sent: seq<map<string, Value>>

    /** A reply as the framework creates it, with both decorators `null`. */
    constructor ()
      ensures cspNonce == None && helmet == None && sent == []
    {
      cspNonce := None;
      helmet := None;
      sent := [];
    }

    /** `replyDecorators(request, reply, configuration, enableCSP)`, with the
        two `randomBytes(16)` results as inputs. */
    method Decorate(configuration: map<string, Value>, enableCSP: Value, scriptBytes: seq<byte>, styleBytes: seq<byte>)
      requires |scriptBytes| == 16 && |styleBytes| == 16
      modifies this
      ensures cspNonce == DecoratedNonce(enableCSP, scriptBytes, styleBytes, old(cspNonce))
      ensures helmet == Some(configuration)
      ensures sent == old(sent)
    {
      if Truthy(enableCSP) {
        cspNonce := Some(NoncePair(HexEncode(scriptBytes), HexEncode(styleBytes)));
      }
      helmet := Some(configuration);
    }

    /** The manual `reply.helmet(opts)` call. */
    method ApplyManual(opts: Value) returns (err: Option<Error>)
      modifies this
      ensures helmet.None? ==> err == Some(NotAFunction) && sent == old(sent)
      ensures helmet.Some? ==> err == None && sent == old(sent) + [ManualConfiguration(helmet.value, opts)]
      ensures cspNonce == old(cspNonce) && helmet == old(helmet)
    {
      if helmet.None? {
        return Some(NotAFunction);
      }
      var configuration := helmet.value;
      var helmetConfiguration := if Truthy(opts) then Assign(configuration, OwnProps(opts)) else configuration;
      sent := sent + [helmetConfiguration];
      return None;
    }

    /** `buildHelmetOnRoutes(request, reply, configuration, enableCSP)`: copies
        the directives, appends the reply's nonces and hands the result to
        helmet; with the flag not strictly `true`, hands over `configuration`. */
    method BuildHelmetOnRoutes(configuration: map<string, Value>, enableCSP: Value, defaults: map<string, Value>)
      returns (err: Option<Error>)
      modifies this
      ensures RouteHeaders(configuration, enableCSP, defaults, cspNonce).Ok? ==>
        err == None && sent == old(sent) + [RouteHeaders(configuration, enableCSP, defaults, cspNonce).value]
      ensures RouteHeaders(configuration, enableCSP, defaults, cspNonce).Err? ==>
        err == Some(RouteHeaders(configuration, enableCSP, defaults, cspNonce).error) && sent == old(sent)
      ensures cspNonce == old(cspNonce) && helmet == old(helmet)
    {
      if enableCSP == Bool(true) {
        if cspNonce.None? {
          return Some(CannotDestructureNull);
        }
        var nonces := cspNonce.value;
        var directives := CspDirectives(configuration, defaults);
        directives := AddNonce(directives, "script-src", "scriptSrc", nonces.script);
        directives := AddNonce(directives, "style-src", "styleSrc", nonces.style);
        var contentSecurityPolicy := Obj(map["directives" := Obj(directives), "reportOnly" := CspReportOnly(configuration)]);
        sent := sent + [Assign(configuration, map["contentSecurityPolicy" := contentSecurityPolicy])];
      } else {
        sent := sent + [configuration];
      }
      return None;
    }
  }
}
