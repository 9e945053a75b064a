# Imaging service request layer (onvif-nvt), modelled in Dafny

This project models the `Imaging` class of the onvif-nvt camera client. The class exists in two copies: the source `lib/modules/imaging.js` and the built `dist/modules/imaging.js`. The model covers:

- the session state set by `init` and `setDefaultVideoSourceToken`;
- the request runner `buildRequest`. It checks its arguments in a fixed order, wraps the XML fragment in a `timg:` method element, and dispatches one request under the `imaging` category. It then hands the dispatcher's outcome back through the returned promise or through `callback(err, res)`;
- the operations that build a body: `getImagingSettings`, `getCurrentPreset`, `stop`, `setImagingSettings` and `move`. Each falls back to the default video source token when the one given is falsy. Each then emits its XML elements in a fixed order, each optional element guarded by JavaScript truthiness;
- the operations that are not implemented yet. They reject with `"Not implemented"`.

Files, in dependency order:

- `wrappers.dfy`: `Option`.
- `js_values.dfy`: JavaScript values, truthiness, `${v}` conversion, property reads and thrown exceptions. A number is represented by its `Number.prototype.toString` text. That text decides both its truthiness (only `0`, `-0` and `NaN` are falsy, and they render as `"0"` and `"NaN"`) and what interpolation inserts.
- `util.dfy`: the two checks borrowed from the utility module, `isInvalidValue` and `isValidCallback`.
- `promises.dfy`: the two calling conventions. A promise is its one settlement, and a callback is its one invocation.
- `xml.dfy`: element trees and their raw serialisation. This is the reference that each appended body is proved equal to.
- `soap.dfy`: the interface of the SOAP library. An envelope is the record of what `createRequest` is given. `makeRequest` logs each request and answers from a device oracle.
- `bodies.dfy`: the bodies as the code appends them, the trees they render, and the order and presence properties. The two copies differ only in two wrapper tags, chosen by `Build` (`Lib` or `Dist`).
- `imaging.dfy`: the argument checks, the `Imaging` class and its operations.

The methods of `Imaging` that dispatch are proved against the pure function `Imaging.Plan`. Each method's `ensures` says two things:

- the SOAP log grows by exactly the request `Plan` names, or by nothing;
- the caller gets exactly `Plan`'s call outcome.

The properties of `Plan`, of the checks and of the bodies are stated on those functions and in lemmas.

Both copies have the same code, line for line, except in three places:

- the settings wrapper: lib 157/187, dist 119/160;
- the `move` focus wrapper: lib 273/289, dist 212/230;
- a `console.log` of the envelope: dist 70.

The rows below cite the lib copy. The matching dist lines are:

| lib | dist |
|---|---|
| 12-24 | 6-14 |
| 33-42 | 16-25 |
| 48-57 | 27-36 |
| 59-118 | 38-87 |
| 124-129 | 89-93 |
| 131-190 | 95-162 |
| 192-215 | 164-186 |
| 251-292 | 188-232 |
| 294-311 | 234-250 |

Setting the object's `build` to `Dist` gives the dist copy's wrappers.

In `setImagingSettings` and `move`, each failing argument check calls `reject`. No `reject` is bound there, so evaluating the callee throws a `ReferenceError`. That happens before the `Error` argument is built. The model says exactly this: these calls throw `ReferenceError("reject")` synchronously, and nothing is sent and no promise is returned. When the checks pass but `settings` (or `focus`) is undefined or null, the first property read throws a `TypeError`. The model says that too.

## Model

| member | source | states |
|---|---|---|
| JsValues.ReadProp | lib/modules/imaging.js:158 | reading a property throws a TypeError naming the property exactly when the value is undefined or null |
| Util.IsInvalidValue | lib/modules/imaging.js:63 | the check yields the empty (falsy) message exactly when the value has the requested kind, and a non-empty message otherwise |
| Promises.Deliver | lib/modules/imaging.js:107-117 | a callback is invoked exactly when it is a valid callback, and the promise is returned otherwise; whichever channel is used, the caller observes exactly the settlement of the inner promise |
| Promises.ConventionsAgree | lib/modules/imaging.js:107-117 | with a function callback the outcome observed is the one a promise caller would see; the callback form keeps distinct outcomes distinct |
| Bodies.MethodBody | lib/modules/imaging.js:87-94 | for undefined, null or `""` xml the body is the self-closing `timg:M` element; otherwise it is `<timg:M>`, then xml's text verbatim (located by offsets), then `</timg:M>` |
| Bodies.EffectiveToken | lib/modules/imaging.js:125 | a truthy token is kept and a falsy one is replaced by the default; the result is truthy iff either is |
| Bodies.TokenElement | lib/modules/imaging.js:126 | the token body is the rendering of the `timg:VideoSourceToken` element holding the token's text |
| Bodies.SettingsBody | lib/modules/imaging.js:156-187 | building the settings body throws (TypeError reading `Brightness`) exactly when settings is undefined or null |
| Bodies.MoveBody | lib/modules/imaging.js:272-289 | building the move body throws (TypeError reading `position`) exactly when focus is undefined or null |
| Bodies.MoveCommandNode | lib/modules/imaging.js:274-288 | the command is Absolute iff position is truthy, Relative iff position is falsy and distance truthy, Continuous iff both are falsy; Absolute holds exactly `tt:Position` (the position's text) then `tt:Speed`, Relative exactly `tt:Distance` (the distance's text) then `tt:Speed`, Continuous only `tt:Speed`; the Speed element always carries the speed's text |
| Bodies.SettingsBodyRendersTree | lib/modules/imaging.js:156-187 | for non-nullish settings the appended body equals the rendering of the token element followed by the settings wrapper holding the settings tree |
| Bodies.FocusSettingsRendersTree | lib/modules/imaging.js:170-186 | the appended focus part equals the rendering of the `tt:Focus` element of the tree, present only for a truthy focus |
| Bodies.MoveBodyRendersTree | lib/modules/imaging.js:272-289 | for non-nullish focus the appended move body equals the rendering of the token element followed by the focus wrapper holding the one command |
| Bodies.MoveCommandRendersTree | lib/modules/imaging.js:274-288 | the appended command string equals the rendering of the command element |
| Bodies.RenderOptionalLeavesCons | lib/modules/imaging.js:158-160 | one guarded field renders as its optional element followed by the rest of the run |
| Bodies.RenderFourOptional | lib/modules/imaging.js:158-169 | four guarded appends in a row render the optional elements of the four keys, in order |
| Bodies.Qualified | lib/modules/imaging.js:158-169 | each emitted field name becomes the `tt:`-qualified tag at the same position |
| Bodies.TruthyKeysIff | lib/modules/imaging.js:158-169 | a field is emitted exactly when it is one of the fields and its value is truthy |
| Bodies.OptionalLeavesAreTruthyKeys | lib/modules/imaging.js:158-169 | the optional elements are exactly those of the truthy fields, in field order, each named `tt:` plus the field and carrying the field's text |
| Bodies.SettingsFieldsInOrder | lib/modules/imaging.js:157-187 | inside the settings wrapper the elements are `tt:Brightness`, `tt:ColorSaturation`, `tt:Contrast`, `tt:Sharpness`, `tt:Focus` in that order, each present iff its value is truthy |
| Bodies.FocusFieldsInOrder | lib/modules/imaging.js:170-186 | for a truthy Focus the last settings element is `tt:Focus`, holding AutoFocusMode, DefaultSpeed, NearLimit, FarLimit in that order, each present iff truthy and carrying its value |
| Bodies.MethodBodyOfNodes | lib/modules/imaging.js:91-93 | a non-empty rendered body sent through buildRequest becomes the `timg:M` element holding those nodes |
| Bodies.TokenRequestBody | lib/modules/imaging.js:124-129 | the token-only operations send the `timg:M` element holding just the `timg:VideoSourceToken` element |
| Bodies.CopiesDifferOnlyInWrappers | dist/modules/imaging.js:118-230 | the dist copy wraps settings in `tt:ImagingSettings` (dist lines 119 and 160) and the move command in `tt:Focus` (dist lines 212 and 230), the lib copy in `timg:ImagingSettings` and `timg:Focus`; the contents are the same trees |
| ImagingService.Validate | lib/modules/imaging.js:62-86 | the checks pass iff the callback is absent or a function and methodName is a string; a bad callback is reported first, with methodName in the message; otherwise a missing methodName gives "is required" and a non-string one "is invalid:" |
| ImagingService.ArgumentCheck | lib/modules/imaging.js:138-154 | the checks pass iff the callback is absent or a function, the token is a string and a truthy value is an object; every failure is a ReferenceError on `reject` |
| ImagingService.SettingsRequest | lib/modules/imaging.js:136-187 | setImagingSettings throws ReferenceError exactly when a check fails, and throws TypeError exactly when the checks pass with nullish settings; when the checks pass with non-nullish settings it yields the body, the non-empty rendering of the settings nodes |
| ImagingService.SettingsBodySent | lib/modules/imaging.js:156-187 | for non-nullish settings the built body is the rendering of the settings nodes, and it is not empty |
| ImagingService.MoveRequest | lib/modules/imaging.js:252-289 | move throws ReferenceError exactly when a check fails, and throws TypeError exactly when the checks pass with nullish focus; when the checks pass with non-nullish focus it yields the body, the non-empty rendering of the move nodes |
| ImagingService.MoveBodySent | lib/modules/imaging.js:272-289 | for non-nullish focus the built body is the rendering of the move nodes, and it is not empty |
| ImagingService.SettingsEnvelopeBody | lib/modules/imaging.js:156-189 | the body setImagingSettings hands to buildRequest is sent as the `timg:SetImagingSettings` element holding the settings tree |
| ImagingService.MoveEnvelopeBody | lib/modules/imaging.js:272-291 | the body move hands to buildRequest is sent as the `timg:Move` element holding the move tree |
| ImagingService.Imaging.constructor | lib/modules/imaging.js:12-24 | a new object has time difference 0, null address, credentials and default token, the two namespace declarations, and a SOAP client that has sent nothing |
| ImagingService.Imaging.Init | lib/modules/imaging.js:33-38 | init stores the four session values and leaves the default token alone |
| ImagingService.Imaging.SetDefaultVideoSourceToken | lib/modules/imaging.js:40-42 | the default token becomes the value given, and nothing else changes |
| ImagingService.Imaging.CreateRequest | lib/modules/imaging.js:48-57 | the envelope is requested with the body, the namespace list, the time difference and the credentials of the session |
| ImagingService.Imaging.Plan | lib/modules/imaging.js:59-118 | buildRequest dispatches iff the checks pass, and then exactly one request (category `imaging`, stored address, same method name, envelope of the method element); the outcome is the dispatcher's result or error unchanged, or the first failed check |
| ImagingService.Imaging.ConventionsAgree | lib/modules/imaging.js:107-117 | passing a function instead of no callback changes neither what is dispatched nor the outcome observed, only the channel |
| ImagingService.Imaging.BuildRequest | lib/modules/imaging.js:59-118 | the SOAP log grows by exactly the request Plan names (nothing on a failed check), and the caller gets Plan's call |
| ImagingService.Imaging.GetImagingSettings | lib/modules/imaging.js:124-129 | it runs buildRequest for `GetImagingSettings` with the token element of the token after fallback |
| ImagingService.Imaging.GetCurrentPreset | lib/modules/imaging.js:204-209 | it runs buildRequest for `GetCurrentPreset` with the token element of the token after fallback |
| ImagingService.Imaging.Stop | lib/modules/imaging.js:294-299 | it runs buildRequest for `Stop` with the token element of the token after fallback |
| ImagingService.Imaging.SetImagingSettings | lib/modules/imaging.js:131-190 | it throws and sends nothing when SettingsRequest throws; otherwise it runs buildRequest for `SetImagingSettings` with the settings body |
| ImagingService.Imaging.Move | lib/modules/imaging.js:251-292 | it throws and sends nothing when MoveRequest throws; otherwise it runs buildRequest for `Move` with the move body |
| ImagingService.Imaging.GetOptions | lib/modules/imaging.js:192-196 | it returns a promise rejected with "Not implemented" and touches no state |
| ImagingService.Imaging.GetPresets | lib/modules/imaging.js:198-202 | it returns a promise rejected with "Not implemented" and touches no state |
| ImagingService.Imaging.SetCurrentPreset | lib/modules/imaging.js:211-215 | it returns a promise rejected with "Not implemented" and touches no state |
| ImagingService.Imaging.GetImagingStatus | lib/modules/imaging.js:301-305 | it returns a promise rejected with "Not implemented" and touches no state |
| ImagingService.Imaging.GetCapabilities | lib/modules/imaging.js:307-311 | it returns a promise rejected with "Not implemented" and touches no state |
| Soap.SoapClient.MakeRequest | lib/modules/imaging.js:97-104 | each dispatch appends exactly one request to the log, and its promise settles with the device's answer to that request |

## Left out

- The SOAP library (`../utils/soap`) is not part of this model. It holds envelope assembly, the WS-Security nonce, timestamp and digest, HTTP transport and response parsing. An envelope is the record of the inputs `createRequest` receives. A device's answer to the n-th request is whatever the oracle `respond(n, request)` gives.
- The utility module (`../utils/util`) is not part of this model. Util.IsInvalidValue: the model accepts exactly the values of the requested kind. Its mismatch message is a stand-in text. Any further refusals the real check makes (for example of empty strings) are not modelled.
- The `console.log` of the envelope in the dist copy (dist/modules/imaging.js:70): it is output only.
- Promise scheduling: each promise is modelled by the one settlement it reaches. One `.then`/`.catch` case is not modelled. If the user's callback throws while receiving results, the `.catch` calls it a second time with that error.
- Exceptions thrown inside the promise executor by `createRequest` or `makeRequest` themselves (they would become rejections): their behaviour lives in the SOAP library.
- JavaScript values beyond what the layer inspects: no arrays, symbols, BigInt, getters, prototypes or custom `toString`. An object is its own properties and renders as `[object Object]`. The property names read here are taken to be undefined on strings, numbers, booleans and functions.
- XML escaping: values are interpolated raw, as the code does.
- dist/modules/display.js (only "Not implemented" stubs and a forwarding `createRequest`) and run/config.js (test configuration and debug capture to disk) are not part of this model.
