/**
 * The imaging service client: its session state, the request runner
 * `buildRequest` with its argument checks and dual calling convention, the
 * operations that build a body and hand it to the runner, and the operations
 * that are not implemented. One model covers both copies of the module; the
 * copy is chosen by the `build` the object is made with.
 */
module ImagingService {

  import opened Wrappers
  import opened JsValues
  import opened Util
  import opened Promises
  import opened Xml
  import opened Soap
  import opened Bodies

  /** The service category every imaging request is dispatched under. */
  const Category: string := "imaging"

  /** The namespace declarations every imaging envelope carries, in order. */
  const NamespaceAttributes: seq<string> := [
    "xmlns:tns1=\"http://www.onvif.org/ver10/topics\"",
    "xmlns:timg=\"http://www.onvif.org/ver20/imaging/wsdl\""
  ]

  const MethodNameRequired: string := "The \"methodName\" argument for buildRequest is required."
  const MethodNameInvalid: string := "The \"methodName\" argument for buildRequest is invalid:"
  const NotImplementedMessage: string := "Not implemented"

  function CallbackInvalid(methodName: JsValue): string {
    "The \"callback\" argument for " + ToStr(methodName) + " is invalid:"
  }

  predicate StartsWith(s: string, prefix: string) {
    |prefix| <= |s| && s[..|prefix|] == prefix
  }

  /** A callback argument that passes the checks: absent (undefined or null), or a function. */
  predicate CallbackAcceptable(callback: JsValue) {
    IsNullish(callback) || callback.Func?
  }

  /**
   * The checks `buildRequest` makes before it builds anything, in order: a
   * callback that is present must be a function, then the method name must be
   * present, then it must be a string. The first failing check decides the
   * error.
   */
  function Validate(methodName: JsValue, callback: JsValue): (r: Option<Reason>)
    ensures r.None? <==> CallbackAcceptable(callback) && methodName.Str?
    ensures !CallbackAcceptable(callback) ==>
      r.Some? && r.value.Error? && StartsWith(r.value.message, CallbackInvalid(methodName))
    ensures CallbackAcceptable(callback) && IsNullish(methodName) ==>
      r == Some(Error(MethodNameRequired))
    ensures CallbackAcceptable(callback) && !IsNullish(methodName) && !methodName.Str? ==>
      r.Some? && r.value.Error? && StartsWith(r.value.message, MethodNameInvalid)
  {
    if !IsNullish(callback) && IsInvalidValue(callback, FunctionKind) != "" then
      Some(Error(CallbackInvalid(methodName) + IsInvalidValue(callback, FunctionKind)))
    else if IsNullish(methodName) then
      Some(Error(MethodNameRequired))
    else if IsInvalidValue(methodName, StringKind) != "" then
      Some(Error(MethodNameInvalid + IsInvalidValue(methodName, StringKind)))
    else
      None
  }

  /**
   * The checks setImagingSettings and move make before building their body: a
   * present callback must be a function, the token must be a string, and a
   * truthy settings or focus argument must be an object. Each failing branch
   * calls `reject`, which is not bound in these methods, so what happens is
   * that a ReferenceError is thrown; the Error the branch meant to reject with
   * is never built, since the callee is evaluated before the arguments.
   */
  function ArgumentCheck(token: JsValue, value: JsValue, callback: JsValue): (r: Option<Exception>)
    ensures r.None? <==> CallbackAcceptable(callback) && token.Str? && (!Truthy(value) || value.Obj?)
    ensures r.Some? ==> r.value == ReferenceError("reject")
  {
    if !IsNullish(callback) && IsInvalidValue(callback, FunctionKind) != "" then
      Some(ReferenceError("reject"))
    else if IsInvalidValue(token, StringKind) != "" then
      Some(ReferenceError("reject"))
    else if Truthy(value) && IsInvalidValue(value, ObjectKind) != "" then
      Some(ReferenceError("reject"))
    else
      None
  }

  /**
   * What setImagingSettings does before it calls buildRequest, for the token
   * left after the fallback: it throws, or it yields the body it sends.
   */
  function SettingsRequest(b: Build, token: JsValue, settings: JsValue, callback: JsValue): (r: Evaluation<string>)
    ensures r == Abrupt(ReferenceError("reject")) <==>
      !(CallbackAcceptable(callback) && token.Str? && (!Truthy(settings) || settings.Obj?))
    ensures r == Abrupt(TypeErrorReadingProperty("Brightness")) <==>
      CallbackAcceptable(callback) && token.Str? && IsNullish(settings)
    ensures CallbackAcceptable(callback) && token.Str? && (!Truthy(settings) || settings.Obj?) && !IsNullish(settings) ==>
      r == Normal(RenderAll(SettingsNodes(b, token, settings)))
    ensures r.Normal? ==> r.value == RenderAll(SettingsNodes(b, token, settings)) && r.value != ""
  {
    match ArgumentCheck(token, settings, callback)
    case Some(e) => Abrupt(e)
    case None =>
      SettingsBodySent(b, token, settings);
      SettingsBody(b, token, settings)
  }

  /** A settings body that is built is the non-empty rendering of the settings nodes. */
  lemma SettingsBodySent(b: Build, token: JsValue, settings: JsValue)
    ensures !IsNullish(settings) ==>
      SettingsBody(b, token, settings) == Normal(RenderAll(SettingsNodes(b, token, settings))) &&
      RenderAll(SettingsNodes(b, token, settings)) != ""
  {
    if !IsNullish(settings) {
      SettingsBodyRendersTree(b, token, settings);
      RenderTwo(SettingsNodes(b, token, settings)[0], SettingsNodes(b, token, settings)[1]);
    }
  }

  /**
   * What move does before it calls buildRequest, for the token left after
   * the fallback: it throws, or it yields the body it sends.
   */
  function MoveRequest(b: Build, token: JsValue, focus: JsValue, callback: JsValue): (r: Evaluation<string>)
    ensures r == Abrupt(ReferenceError("reject")) <==>
      !(CallbackAcceptable(callback) && token.Str? && (!Truthy(focus) || focus.Obj?))
    ensures r == Abrupt(TypeErrorReadingProperty("position")) <==>
      CallbackAcceptable(callback) && token.Str? && IsNullish(focus)
    ensures CallbackAcceptable(callback) && token.Str? && (!Truthy(focus) || focus.Obj?) && !IsNullish(focus) ==>
      r == Normal(RenderAll(MoveNodes(b, token, focus)))
    ensures r.Normal? ==> r.value == RenderAll(MoveNodes(b, token, focus)) && r.value != ""
  {
    match ArgumentCheck(token, focus, callback)
    case Some(e) => Abrupt(e)
    case None =>
      MoveBodySent(b, token, focus);
      MoveBody(b, token, focus)
  }

  /** A move body that is built is the non-empty rendering of the move nodes. */
  lemma MoveBodySent(b: Build, token: JsValue, focus: JsValue)
    ensures !IsNullish(focus) ==>
      MoveBody(b, token, focus) == Normal(RenderAll(MoveNodes(b, token, focus))) &&
      RenderAll(MoveNodes(b, token, focus)) != ""
  {
    if !IsNullish(focus) {
      MoveBodyRendersTree(b, token, focus);
      RenderTwo(MoveNodes(b, token, focus)[0], MoveNodes(b, token, focus)[1]);
    }
  }

  /** When setImagingSettings gets as far as buildRequest, the method element it sends holds the settings tree. */
  lemma SettingsEnvelopeBody(b: Build, token: JsValue, settings: JsValue, callback: JsValue)
    requires SettingsRequest(b, token, settings, callback).Normal?
    ensures MethodBody("SetImagingSettings", Str(SettingsRequest(b, token, settings, callback).value))
         == Render(Element("timg:" + "SetImagingSettings", SettingsNodes(b, token, settings)))
  {
    var nodes := SettingsNodes(b, token, settings);
    var body := SettingsRequest(b, token, settings, callback).value;
    assert body == RenderAll(nodes) && RenderAll(nodes) != "";
    MethodBodyOfNodes("SetImagingSettings", nodes);
  }

  /** When move gets as far as buildRequest, the method element it sends holds the move tree. */
  lemma MoveEnvelopeBody(b: Build, token: JsValue, focus: JsValue, callback: JsValue)
    requires MoveRequest(b, token, focus, callback).Normal?
    ensures MethodBody("Move", Str(MoveRequest(b, token, focus, callback).value))
         == Render(Element("timg:" + "Move", MoveNodes(b, token, focus)))
  {
    var nodes := MoveNodes(b, token, focus);
    var body := MoveRequest(b, token, focus, callback).value;
    assert body == RenderAll(nodes) && RenderAll(nodes) != "";
    MethodBodyOfNodes("Move", nodes);
  }

  /** What one buildRequest call does: the request it dispatches, if any, and what its caller gets. */
  datatype Run = Run(dispatched: Option<Request>, call: Call) {
    function Sent(): seq<Request> {
      if dispatched.Some? then [dispatched.value] else []
    }
  }

  class Imaging {
    /** Which copy of the module this object follows. */
    const build: Build
    const soap: SoapClient
    const namespaceAttributes: seq<string>
    var timeDiff: JsValue
    var serviceAddress: JsValue
    var username: JsValue
    var password: JsValue
    var defaultVideoSourceToken: JsValue

    /** A fresh client, with a SOAP library whose device answers as `device` says. */
    constructor (build: Build, device: (nat, Request) -> Settlement)
      ensures this.build == build && fresh(soap) && soap.sent == [] && soap.respond == device
      ensures namespaceAttributes == NamespaceAttributes
      ensures timeDiff == Num("0") && serviceAddress == Null && username == Null && password == Null
      ensures defaultVideoSourceToken == Null
    {
      this.build := build;
      soap := new SoapClient(device);
      namespaceAttributes := NamespaceAttributes;
      timeDiff := Num("0");
      serviceAddress := Null;
      username := Null;
      password := Null;
      defaultVideoSourceToken := Null;
    }

    /** Records the session: clock difference, service address and credentials. */
    method Init(timeDiff: JsValue, serviceAddress: JsValue, username: JsValue, password: JsValue)
      modifies this`timeDiff, this`serviceAddress, this`username, this`password
      ensures this.timeDiff == timeDiff && this.serviceAddress == serviceAddress
      ensures this.username == username && this.password == password
      ensures defaultVideoSourceToken == old(defaultVideoSourceToken)
    {
      this.timeDiff := timeDiff;
      this.serviceAddress := serviceAddress;
      this.username := username;
      this.password := password;
    }

    method SetDefaultVideoSourceToken(videoSourceToken: JsValue)
      modifies this`defaultVideoSourceToken
      ensures defaultVideoSourceToken == videoSourceToken
    {
      defaultVideoSourceToken := videoSourceToken;
    }

    /** The envelope `createRequest(body)` asks the SOAP library for. */
    function CreateRequest(body: string): (e: Envelope)
      reads this
      ensures e.body == body && e.xmlns == namespaceAttributes && e.diff == timeDiff
      ensures e.username == username && e.password == password
    {
      Envelope(body, namespaceAttributes, timeDiff, username, password)
    }

    /**
     * What `buildRequest(methodName, xml, callback)` does in the current
     * state: it dispatches exactly when the checks pass, then exactly one
     * request for this category, address and method, whose envelope body is
     * the method element around xml; the caller observes the dispatcher's
     * outcome unchanged, or the first failed check, through the callback when
     * one is valid and through the returned promise otherwise.
     */
    function Plan(methodName: JsValue, xml: JsValue, callback: JsValue): (p: Run)
      reads this, soap
      ensures p.dispatched.Some? <==> CallbackAcceptable(callback) && methodName.Str?
      ensures p.dispatched.Some? ==>
        p.dispatched.value == Request(Category, serviceAddress, methodName.s, CreateRequest(MethodBody(methodName.s, xml)))
      ensures p.call.InvokesCallback? <==> IsValidCallback(callback)
      ensures p.call.InvokesCallback? ==> p.call.callback == callback
      ensures p.dispatched.Some? ==> Observed(p.call) == soap.respond(|soap.sent|, p.dispatched.value)
      ensures p.dispatched.None? ==> Observed(p.call) == Rejected(Validate(methodName, callback).value)
    {
      match Validate(methodName, callback)
      case Some(reason) =>
        Run(None, Deliver(callback, Rejected(reason)))
      case None =>
        var request := Request(Category, serviceAddress, methodName.s, CreateRequest(MethodBody(methodName.s, xml)));
        Run(Some(request), Deliver(callback, soap.respond(|soap.sent|, request)))
    }

    /**
     * A caller that passes a function observes the same outcome, and causes
     * the same dispatch, as a caller that passes no callback and reads the
     * returned promise.
     */
    lemma ConventionsAgree(methodName: JsValue, xml: JsValue, f: JsValue)
      requires IsValidCallback(f)
      ensures Plan(methodName, xml, f).dispatched == Plan(methodName, xml, Undefined).dispatched
      ensures Observed(Plan(methodName, xml, f).call) == Observed(Plan(methodName, xml, Undefined).call)
      ensures Plan(methodName, xml, Undefined).call.ReturnsPromise?
      ensures Plan(methodName, xml, f).call.InvokesCallback?
    {
    }

    method BuildRequest(methodName: JsValue, xml: JsValue, callback: JsValue) returns (r: Call)
      modifies soap
      ensures soap.sent == old(soap.sent) + old(Plan(methodName, xml, callback)).Sent()
      ensures r == old(Plan(methodName, xml, callback)).call
    {
      var settlement: Settlement;
      var reason := Validate(methodName, callback);
      if reason.Some? {
        settlement := Rejected(reason.value);
      } else {
        var body := MethodBody(methodName.s, xml);
        var envelope := CreateRequest(body);
        settlement := soap.MakeRequest(Category, serviceAddress, methodName.s, envelope);
      }
      r := Deliver(callback, settlement);
    }

    method GetImagingSettings(videoSourceToken: JsValue, callback: JsValue) returns (r: Call)
      modifies soap
      ensures var p := old(Plan(Str("GetImagingSettings"),
                                Str(TokenElement(EffectiveToken(videoSourceToken, defaultVideoSourceToken))), callback));
        soap.sent == old(soap.sent) + p.Sent() && r == p.call
    {
      var token := EffectiveToken(videoSourceToken, defaultVideoSourceToken);
      r := BuildRequest(Str("GetImagingSettings"), Str(TokenElement(token)), callback);
    }

    method GetCurrentPreset(videoSourceToken: JsValue, callback: JsValue) returns (r: Call)
      modifies soap
      ensures var p := old(Plan(Str("GetCurrentPreset"),
                                Str(TokenElement(EffectiveToken(videoSourceToken, defaultVideoSourceToken))), callback));
        soap.sent == old(soap.sent) + p.Sent() && r == p.call
    {
      var token := EffectiveToken(videoSourceToken, defaultVideoSourceToken);
      r := BuildRequest(Str("GetCurrentPreset"), Str(TokenElement(token)), callback);
    }

    method Stop(videoSourceToken: JsValue, callback: JsValue) returns (r: Call)
      modifies soap
      ensures var p := old(Plan(Str("Stop"),
                                Str(TokenElement(EffectiveToken(videoSourceToken, defaultVideoSourceToken))), callback));
        soap.sent == old(soap.sent) + p.Sent() && r == p.call
    {
      var token := EffectiveToken(videoSourceToken, defaultVideoSourceToken);
      r := BuildRequest(Str("Stop"), Str(TokenElement(token)), callback);
    }

    /** Throws before anything is sent, or hands the settings body to buildRequest. */
    method SetImagingSettings(videoSourceToken: JsValue, settings: JsValue, callback: JsValue) returns (r: Evaluation<Call>)
      modifies soap
      ensures var request := SettingsRequest(build, EffectiveToken(videoSourceToken, defaultVideoSourceToken), settings, callback);
        if request.Abrupt? then
          r == Abrupt(request.exception) && soap.sent == old(soap.sent)
        else
          var p := old(Plan(Str("SetImagingSettings"), Str(request.value), callback));
          soap.sent == old(soap.sent) + p.Sent() && r == Normal(p.call)
    {
      var token := EffectiveToken(videoSourceToken, defaultVideoSourceToken);
      var request := SettingsRequest(build, token, settings, callback);
      if request.Abrupt? {
        r := Abrupt(request.exception);
      } else {
        var call := BuildRequest(Str("SetImagingSettings"), Str(request.value), callback);
        r := Normal(call);
      }
    }

    /** Throws before anything is sent, or hands the focus command to buildRequest. */
    method Move(videoSourceToken: JsValue, focus: JsValue, callback: JsValue) returns (r: Evaluation<Call>)
      modifies soap
      ensures var request := MoveRequest(build, EffectiveToken(videoSourceToken, defaultVideoSourceToken), focus, callback);
        if request.Abrupt? then
          r == Abrupt(request.exception) && soap.sent == old(soap.sent)
        else
          var p := old(Plan(Str("Move"), Str(request.value), callback));
          soap.sent == old(soap.sent) + p.Sent() && r == Normal(p.call)
    {
      var token := EffectiveToken(videoSourceToken, defaultVideoSourceToken);
      var request := MoveRequest(build, token, focus, callback);
      if request.Abrupt? {
        r := Abrupt(request.exception);
      } else {
        var call := BuildRequest(Str("Move"), Str(request.value), callback);
        r := Normal(call);
      }
    }

    // The operations that are not implemented: each returns a promise rejected
    // with "Not implemented", reads no state and sends nothing.

    function GetOptions(): (r: Call)
      ensures r.ReturnsPromise? && r.settlement == Rejected(Error(NotImplementedMessage))
    {
      ReturnsPromise(Rejected(Error(NotImplementedMessage)))
    }

    function GetPresets(): (r: Call)
      ensures r.ReturnsPromise? && r.settlement == Rejected(Error(NotImplementedMessage))
    {
      ReturnsPromise(Rejected(Error(NotImplementedMessage)))
    }

    function SetCurrentPreset(): (r: Call)
      ensures r.ReturnsPromise? && r.settlement == Rejected(Error(NotImplementedMessage))
    {
      ReturnsPromise(Rejected(Error(NotImplementedMessage)))
    }

    function GetImagingStatus(): (r: Call)
      ensures r.ReturnsPromise? && r.settlement == Rejected(Error(NotImplementedMessage))
    {
      ReturnsPromise(Rejected(Error(NotImplementedMessage)))
    }

    function GetCapabilities(): (r: Call)
      ensures r.ReturnsPromise? && r.settlement == Rejected(Error(NotImplementedMessage))
    {
      ReturnsPromise(Rejected(Error(NotImplementedMessage)))
    }
  }
}
