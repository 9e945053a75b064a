/**
 * The XML bodies the imaging operations send, built the way the layer builds
 * them (string pieces appended in order, each optional piece guarded by JS
 * truthiness), together with the element trees they are renderings of and the
 * properties of those trees. The two copies of the module differ only in two
 * wrapper tags, selected by `Build`.
 */
module Bodies {

  import opened JsValues
  import opened Xml

  /** Which copy of the imaging module: the source under lib/ or the built one under dist/. */
  datatype Build = Lib | Dist

  /** The element that wraps the settings sent by SetImagingSettings. */
  function SettingsWrapper(b: Build): string {
    match b
    case Lib => "timg:ImagingSettings"
    case Dist => "tt:ImagingSettings"
  }

  /** The element that wraps the focus command sent by Move. */
  function MoveWrapper(b: Build): string {
    match b
    case Lib => "timg:Focus"
    case Dist => "tt:Focus"
  }

  /** The plain settings fields, in the order they are emitted; Focus follows them. */
  const SettingsFields: seq<string> := ["Brightness", "ColorSaturation", "Contrast", "Sharpness"]
  const SettingsOrder: seq<string> := SettingsFields + ["Focus"]
  /** The fields of a focus configuration, in the order they are emitted. */
  const FocusFields: seq<string> := ["AutoFocusMode", "DefaultSpeed", "NearLimit", "FarLimit"]

  // ---------------------------------------------------------------------------
  // The bodies, as the layer appends them
  // ---------------------------------------------------------------------------

  /** `typeof xml === "undefined" || xml === null || xml === ""` */
  predicate IsAbsentXml(xml: JsValue) {
    xml.Undefined? || xml.Null? || xml == Str("")
  }

  /**
   * The method element `buildRequest` puts around its xml argument: self-closing
   * when there is no fragment, otherwise open and close tags around the fragment
   * copied verbatim.
   */
  function MethodBody(methodName: string, xml: JsValue): (body: string)
    ensures IsAbsentXml(xml) ==> body == Render(SelfClosing("timg:" + methodName))
    ensures !IsAbsentXml(xml) ==> body == Render(Element("timg:" + methodName, [Text(ToStr(xml))]))
    ensures !IsAbsentXml(xml) ==>
      var open, close := OpenTag("timg:" + methodName), CloseTag("timg:" + methodName);
      |body| == |open| + |ToStr(xml)| + |close| &&
      body[..|open|] == open && body[|open|..|body| - |close|] == ToStr(xml) && body[|body| - |close|..] == close
  {
    RenderLeaf("timg:" + methodName, ToStr(xml));
    if IsAbsentXml(xml) then
      EmptyTag("timg:" + methodName)
    else
      OpenTag("timg:" + methodName) + ToStr(xml) + CloseTag("timg:" + methodName)
  }

  /** `videoSourceToken || this.defaultVideoSourceToken` */
  function EffectiveToken(given: JsValue, fallback: JsValue): (t: JsValue)
    ensures Truthy(given) ==> t == given
    ensures !Truthy(given) ==> t == fallback
    ensures Truthy(t) <==> Truthy(given) || Truthy(fallback)
  {
    if Truthy(given) then given else fallback
  }

  /** `<tag>${v}</tag>` */
  function TextElement(tag: string, v: JsValue): string {
    OpenTag(tag) + ToStr(v) + CloseTag(tag)
  }

  /** The body of GetImagingSettings, GetCurrentPreset and Stop, and the first element of the others. */
  function TokenElement(token: JsValue): (body: string)
    ensures body == Render(TokenNode(token))
  {
    RenderLeaf("timg:VideoSourceToken", ToStr(token));
    TextElement("timg:VideoSourceToken", token)
  }

  /** `if (v) { soapBody += `<tag>${v}</tag>` }` */
  function Optional(tag: string, v: JsValue): string {
    if Truthy(v) then TextElement(tag, v) else ""
  }

  /** `if (obj.key) { soapBody += `<tt:key>${obj.key}</tt:key>` }` */
  function Field(key: string, obj: JsValue): string {
    Optional("tt:" + key, Prop(obj, key))
  }

  /** The `<tt:Focus>` part of the settings, present only for a truthy focus. */
  function FocusSettings(focus: JsValue): string {
    if Truthy(focus) then
      OpenTag("tt:Focus")
      + Field("AutoFocusMode", focus)
      + Field("DefaultSpeed", focus)
      + Field("NearLimit", focus)
      + Field("FarLimit", focus)
      + CloseTag("tt:Focus")
    else
      ""
  }

  /**
   * The body of SetImagingSettings. Reading `settings.Brightness` throws when
   * settings is undefined or null; every later read is then safe.
   */
  function SettingsBody(b: Build, token: JsValue, settings: JsValue): (r: Evaluation<string>)
    ensures r.Abrupt? <==> IsNullish(settings)
    ensures r.Abrupt? ==> r.exception == TypeErrorReadingProperty("Brightness")
  {
    match ReadProp(settings, "Brightness")
    case Abrupt(e) => Abrupt(e)
    case Normal(_) =>
      Normal(
        TokenElement(token)
        + OpenTag(SettingsWrapper(b))
        + Field("Brightness", settings)
        + Field("ColorSaturation", settings)
        + Field("Contrast", settings)
        + Field("Sharpness", settings)
        + FocusSettings(Prop(settings, "Focus"))
        + CloseTag(SettingsWrapper(b)))
  }

  /** The focus command of Move: Absolute, else Relative, else Continuous. */
  function MoveCommand(focus: JsValue): string {
    var position, distance, speed := Prop(focus, "position"), Prop(focus, "distance"), Prop(focus, "speed");
    if Truthy(position) then
      OpenTag("tt:Absolute") + TextElement("tt:Position", position) + TextElement("tt:Speed", speed) + CloseTag("tt:Absolute")
    else if Truthy(distance) then
      OpenTag("tt:Relative") + TextElement("tt:Distance", distance) + TextElement("tt:Speed", speed) + CloseTag("tt:Relative")
    else
      OpenTag("tt:Continuous") + TextElement("tt:Speed", speed) + CloseTag("tt:Continuous")
  }

  /**
   * The body of Move. Reading `focus.position` throws when focus is undefined
   * or null.
   */
  function MoveBody(b: Build, token: JsValue, focus: JsValue): (r: Evaluation<string>)
    ensures r.Abrupt? <==> IsNullish(focus)
    ensures r.Abrupt? ==> r.exception == TypeErrorReadingProperty("position")
  {
    match ReadProp(focus, "position")
    case Abrupt(e) => Abrupt(e)
    case Normal(_) =>
      Normal(TokenElement(token) + OpenTag(MoveWrapper(b)) + MoveCommand(focus) + CloseTag(MoveWrapper(b)))
  }

  // ---------------------------------------------------------------------------
  // The element trees the bodies are renderings of
  // ---------------------------------------------------------------------------

  function TokenNode(token: JsValue): Node {
    Leaf("timg:VideoSourceToken", ToStr(token))
  }

  /** The keys whose property in `v` is truthy, in the order given. */
  function TruthyKeys(keys: seq<string>, v: JsValue): seq<string> {
    if keys == [] then []
    else (if Truthy(Prop(v, keys[0])) then [keys[0]] else []) + TruthyKeys(keys[1..], v)
  }

  /** `tt:`-prefixed names. */
  function Qualified(keys: seq<string>): (r: seq<string>)
    ensures |r| == |keys|
    ensures forall i :: 0 <= i < |keys| ==> r[i] == "tt:" + keys[i]
  {
    if keys == [] then [] else ["tt:" + keys[0]] + Qualified(keys[1..])
  }

  /** `<tt:key>value</tt:key>` when the value is truthy, nothing otherwise. */
  function OptionalLeaf(key: string, v: JsValue): seq<Node> {
    if Truthy(Prop(v, key)) then [Leaf("tt:" + key, ToStr(Prop(v, key)))] else []
  }

  /** The optional elements for a run of keys, in the order given. */
  function OptionalLeaves(keys: seq<string>, v: JsValue): seq<Node> {
    if keys == [] then [] else OptionalLeaf(keys[0], v) + OptionalLeaves(keys[1..], v)
  }

  /** The focus configuration inside the settings: absent unless focus is truthy. */
  function FocusNodes(focus: JsValue): seq<Node> {
    if Truthy(focus) then [Element("tt:Focus", OptionalLeaves(FocusFields, focus))] else []
  }

  /** The children of the settings wrapper: the optional fields, then the focus. */
  function SettingsTree(settings: JsValue): seq<Node> {
    OptionalLeaves(SettingsFields, settings) + FocusNodes(Prop(settings, "Focus"))
  }

  function SettingsNodes(b: Build, token: JsValue, settings: JsValue): seq<Node> {
    [TokenNode(token), Element(SettingsWrapper(b), SettingsTree(settings))]
  }

  /** The one command element of a Move. */
  function MoveCommandNode(focus: JsValue): (n: Node)
    ensures n.Element? && |n.children| >= 1
    ensures n.tag == "tt:Absolute" <==> Truthy(Prop(focus, "position"))
    ensures n.tag == "tt:Relative" <==> !Truthy(Prop(focus, "position")) && Truthy(Prop(focus, "distance"))
    ensures n.tag == "tt:Continuous" <==> !Truthy(Prop(focus, "position")) && !Truthy(Prop(focus, "distance"))
    ensures n.children[|n.children| - 1] == Leaf("tt:Speed", ToStr(Prop(focus, "speed")))
    ensures n.tag == "tt:Absolute" ==>
      Tags(n.children) == ["tt:Position", "tt:Speed"] && n.children[0] == Leaf("tt:Position", ToStr(Prop(focus, "position")))
    ensures n.tag == "tt:Relative" ==>
      Tags(n.children) == ["tt:Distance", "tt:Speed"] && n.children[0] == Leaf("tt:Distance", ToStr(Prop(focus, "distance")))
    ensures n.tag == "tt:Continuous" ==> Tags(n.children) == ["tt:Speed"]
  {
    var position, distance, speed := Prop(focus, "position"), Prop(focus, "distance"), Prop(focus, "speed");
    if Truthy(position) then
      Element("tt:Absolute", [Leaf("tt:Position", ToStr(position)), Leaf("tt:Speed", ToStr(speed))])
    else if Truthy(distance) then
      Element("tt:Relative", [Leaf("tt:Distance", ToStr(distance)), Leaf("tt:Speed", ToStr(speed))])
    else
      Element("tt:Continuous", [Leaf("tt:Speed", ToStr(speed))])
  }

  function MoveNodes(b: Build, token: JsValue, focus: JsValue): seq<Node> {
    [TokenNode(token), Element(MoveWrapper(b), [MoveCommandNode(focus)])]
  }

  // ---------------------------------------------------------------------------
  // The bodies render the trees
  // ---------------------------------------------------------------------------

  lemma RenderOptionalLeaf(key: string, v: JsValue)
    ensures RenderAll(OptionalLeaf(key, v)) == Field(key, v)
  {
    if Truthy(Prop(v, key)) {
      RenderOne(Leaf("tt:" + key, ToStr(Prop(v, key))));
      RenderLeaf("tt:" + key, ToStr(Prop(v, key)));
    }
  }

  /** Unfolds the first key of a run of optional elements. */
  lemma RenderOptionalLeavesCons(key: string, rest: seq<string>, v: JsValue)
    ensures RenderAll(OptionalLeaves([key] + rest, v)) == Field(key, v) + RenderAll(OptionalLeaves(rest, v))
  {
    var keys := [key] + rest;
    assert keys[0] == key && keys[1..] == rest;
    RenderAllAppend(OptionalLeaf(key, v), OptionalLeaves(rest, v));
    RenderOptionalLeaf(key, v);
  }

  /** Four optional elements render as the four guarded appends, in order. */
  lemma RenderFourOptional(k0: string, k1: string, k2: string, k3: string, v: JsValue)
    ensures RenderAll(OptionalLeaves([k0, k1, k2, k3], v))
         == Field(k0, v) + Field(k1, v)
          + Field(k2, v) + Field(k3, v)
  {
    assert [k0, k1, k2, k3] == [k0] + [k1, k2, k3];
    assert [k1, k2, k3] == [k1] + [k2, k3];
    assert [k2, k3] == [k2] + [k3];
    assert [k3] == [k3] + [];
    RenderOptionalLeavesCons(k0, [k1, k2, k3], v);
    RenderOptionalLeavesCons(k1, [k2, k3], v);
    RenderOptionalLeavesCons(k2, [k3], v);
    RenderOptionalLeavesCons(k3, [], v);
    assert RenderAll(OptionalLeaves([], v)) == "";
    var o0, o1 := Field(k0, v), Field(k1, v);
    var o2, o3 := Field(k2, v), Field(k3, v);
    Concat4(o0, o1, o2, o3);
  }

  lemma Concat4(a: string, b: string, c: string, d: string)
    ensures a + (b + (c + (d + ""))) == a + b + c + d
  {
  }

  lemma Concat6(a: string, b: string, c: string, d: string, e: string, f: string)
    ensures a + (b + c + d + e) + f == a + b + c + d + e + f
  {
  }

  lemma Concat8(t: string, open: string, a: string, b: string, c: string, d: string, f: string, close: string)
    ensures t + (open + (a + b + c + d + f) + close) == t + open + a + b + c + d + f + close
  {
  }

  lemma FocusSettingsRendersTree(focus: JsValue)
    ensures FocusSettings(focus) == RenderAll(FocusNodes(focus))
  {
    if Truthy(focus) {
      var leaves := OptionalLeaves(FocusFields, focus);
      RenderFourOptional("AutoFocusMode", "DefaultSpeed", "NearLimit", "FarLimit", focus);
      RenderOne(Element("tt:Focus", leaves));
      var o0, o1 := Field("AutoFocusMode", focus), Field("DefaultSpeed", focus);
      var o2, o3 := Field("NearLimit", focus), Field("FarLimit", focus);
      assert RenderAll(leaves) == o0 + o1 + o2 + o3;
      Concat6(OpenTag("tt:Focus"), o0, o1, o2, o3, CloseTag("tt:Focus"));
    }
  }

  /** The SetImagingSettings body is the rendering of its element tree. */
  lemma SettingsBodyRendersTree(b: Build, token: JsValue, settings: JsValue)
    requires !IsNullish(settings)
    ensures SettingsBody(b, token, settings) == Normal(RenderAll(SettingsNodes(b, token, settings)))
  {
    var focus := Prop(settings, "Focus");
    var fields := OptionalLeaves(SettingsFields, settings);
    var o0, o1 := Field("Brightness", settings), Field("ColorSaturation", settings);
    var o2, o3 := Field("Contrast", settings), Field("Sharpness", settings);
    var f := FocusSettings(focus);
    RenderFourOptional("Brightness", "ColorSaturation", "Contrast", "Sharpness", settings);
    FocusSettingsRendersTree(focus);
    RenderAllAppend(fields, FocusNodes(focus));
    assert RenderAll(SettingsTree(settings)) == o0 + o1 + o2 + o3 + f;
    RenderTwo(TokenNode(token), Element(SettingsWrapper(b), SettingsTree(settings)));
    Concat8(TokenElement(token), OpenTag(SettingsWrapper(b)), o0, o1, o2, o3, f, CloseTag(SettingsWrapper(b)));
  }

  lemma Concat4Nested(a: string, b: string, c: string, d: string)
    ensures a + (b + c) + d == a + b + c + d
  {
  }

  lemma MoveCommandRendersTree(focus: JsValue)
    ensures Render(MoveCommandNode(focus)) == MoveCommand(focus)
  {
    var position, distance, speed := Prop(focus, "position"), Prop(focus, "distance"), Prop(focus, "speed");
    var sp := Leaf("tt:Speed", ToStr(speed));
    RenderLeaf("tt:Speed", ToStr(speed));
    if Truthy(position) {
      var p := Leaf("tt:Position", ToStr(position));
      RenderLeaf("tt:Position", ToStr(position));
      RenderTwo(p, sp);
      Concat4Nested(OpenTag("tt:Absolute"), Render(p), Render(sp), CloseTag("tt:Absolute"));
    } else if Truthy(distance) {
      var d := Leaf("tt:Distance", ToStr(distance));
      RenderLeaf("tt:Distance", ToStr(distance));
      RenderTwo(d, sp);
      Concat4Nested(OpenTag("tt:Relative"), Render(d), Render(sp), CloseTag("tt:Relative"));
    } else {
      RenderOne(sp);
    }
  }

  /** The Move body is the rendering of its element tree. */
  lemma MoveBodyRendersTree(b: Build, token: JsValue, focus: JsValue)
    requires !IsNullish(focus)
    ensures MoveBody(b, token, focus) == Normal(RenderAll(MoveNodes(b, token, focus)))
  {
    var n := MoveCommandNode(focus);
    MoveCommandRendersTree(focus);
    RenderOne(n);
    RenderTwo(TokenNode(token), Element(MoveWrapper(b), [n]));
    var tok, open, close := TokenElement(token), OpenTag(MoveWrapper(b)), CloseTag(MoveWrapper(b));
    assert tok + (open + Render(n) + close) == tok + open + Render(n) + close;
  }

  // ---------------------------------------------------------------------------
  // What the trees say
  // ---------------------------------------------------------------------------

  /** A key is kept exactly when it is one of the keys and its property is truthy. */
  lemma {:induction false} TruthyKeysIff(keys: seq<string>, v: JsValue, k: string)
    ensures k in TruthyKeys(keys, v) <==> k in keys && Truthy(Prop(v, k))
    decreases |keys|
  {
    if keys != [] {
      TruthyKeysIff(keys[1..], v, k);
      assert k in keys <==> k == keys[0] || k in keys[1..];
    }
  }

  /**
   * The optional elements are exactly those of the truthy keys, in key order,
   * each named after its key and carrying its value.
   */
  lemma {:induction false} OptionalLeavesAreTruthyKeys(keys: seq<string>, v: JsValue)
    ensures var present := TruthyKeys(keys, v);
      Tags(OptionalLeaves(keys, v)) == Qualified(present) &&
      forall i :: 0 <= i < |present| ==> OptionalLeaves(keys, v)[i] == Leaf("tt:" + present[i], ToStr(Prop(v, present[i])))
    decreases |keys|
  {
    if keys != [] {
      OptionalLeavesAreTruthyKeys(keys[1..], v);
      var head, rest := OptionalLeaf(keys[0], v), OptionalLeaves(keys[1..], v);
      var present, restPresent := TruthyKeys(keys, v), TruthyKeys(keys[1..], v);
      if Truthy(Prop(v, keys[0])) {
        assert present == [keys[0]] + restPresent;
        assert present[1..] == restPresent;
        assert (head + rest)[1..] == rest;
        assert Tags(head + rest) == [TagOf(head[0])] + Tags(rest);
      } else {
        assert present == restPresent;
        assert head + rest == rest;
      }
    }
  }

  lemma {:induction false} QualifiedAppend(a: seq<string>, b: seq<string>)
    ensures Qualified(a + b) == Qualified(a) + Qualified(b)
    decreases |a|
  {
    if a == [] {
      assert a + b == b;
    } else {
      assert (a + b)[1..] == a[1..] + b;
      QualifiedAppend(a[1..], b);
    }
  }

  lemma {:induction false} TruthyKeysAppend(a: seq<string>, b: seq<string>, v: JsValue)
    ensures TruthyKeys(a + b, v) == TruthyKeys(a, v) + TruthyKeys(b, v)
    decreases |a|
  {
    if a == [] {
      assert a + b == b;
    } else {
      assert (a + b)[1..] == a[1..] + b;
      TruthyKeysAppend(a[1..], b, v);
    }
  }

  lemma TagsAppend(a: seq<Node>, b: seq<Node>)
    ensures Tags(a + b) == Tags(a) + Tags(b)
  {
  }

  lemma FocusTagIsQualified()
    ensures Qualified(["Focus"]) == ["tt:Focus"]
  {
    assert ["Focus"][1..] == [];
    assert "tt:" + "Focus" == "tt:Focus";
  }

  lemma FocusKeyKept(settings: JsValue)
    ensures TruthyKeys(["Focus"], settings) == if Truthy(Prop(settings, "Focus")) then ["Focus"] else []
  {
    assert ["Focus"][1..] == [];
  }

  /**
   * Inside the settings wrapper, Brightness, ColorSaturation, Contrast,
   * Sharpness and Focus appear in that order, each exactly when its value is
   * truthy.
   */
  lemma SettingsFieldsInOrder(settings: JsValue)
    ensures Tags(SettingsTree(settings)) == Qualified(TruthyKeys(SettingsOrder, settings))
    ensures forall k :: k in TruthyKeys(SettingsOrder, settings) <==> k in SettingsOrder && Truthy(Prop(settings, k))
  {
    var focus := Prop(settings, "Focus");
    var fields := TruthyKeys(SettingsFields, settings);
    OptionalLeavesAreTruthyKeys(SettingsFields, settings);
    TruthyKeysAppend(SettingsFields, ["Focus"], settings);
    FocusKeyKept(settings);
    FocusTagIsQualified();
    QualifiedAppend(fields, TruthyKeys(["Focus"], settings));
    TagsAppend(OptionalLeaves(SettingsFields, settings), FocusNodes(focus));
    if Truthy(focus) {
      assert Tags(FocusNodes(focus)) == ["tt:Focus"];
    } else {
      assert Tags(FocusNodes(focus)) == [];
    }
    forall k ensures k in TruthyKeys(SettingsOrder, settings) <==> k in SettingsOrder && Truthy(Prop(settings, k)) {
      TruthyKeysIff(SettingsOrder, settings, k);
    }
  }

  /**
   * Inside the Focus element of the settings, AutoFocusMode, DefaultSpeed,
   * NearLimit and FarLimit appear in that order, each exactly when its value
   * is truthy and carrying that value.
   */
  lemma FocusFieldsInOrder(settings: JsValue)
    requires Truthy(Prop(settings, "Focus"))
    ensures var focus, tree := Prop(settings, "Focus"), SettingsTree(settings);
      var present := TruthyKeys(FocusFields, focus);
      |tree| > 0 && tree[|tree| - 1] == Element("tt:Focus", OptionalLeaves(FocusFields, focus)) &&
      Tags(OptionalLeaves(FocusFields, focus)) == Qualified(present) &&
      (forall i :: 0 <= i < |present| ==> OptionalLeaves(FocusFields, focus)[i] == Leaf("tt:" + present[i], ToStr(Prop(focus, present[i])))) &&
      forall k :: k in present <==> k in FocusFields && Truthy(Prop(focus, k))
  {
    var focus := Prop(settings, "Focus");
    OptionalLeavesAreTruthyKeys(FocusFields, focus);
    forall k ensures k in TruthyKeys(FocusFields, focus) <==> k in FocusFields && Truthy(Prop(focus, k)) {
      TruthyKeysIff(FocusFields, focus, k);
    }
  }

  /**
   * The method element buildRequest sends around a non-empty rendered body is
   * the element of that method holding those nodes.
   */
  lemma MethodBodyOfNodes(methodName: string, nodes: seq<Node>)
    requires RenderAll(nodes) != ""
    ensures MethodBody(methodName, Str(RenderAll(nodes))) == Render(Element("timg:" + methodName, nodes))
  {
    RenderOne(Text(RenderAll(nodes)));
  }

  /** The token-only body of GetImagingSettings, GetCurrentPreset and Stop, inside its method element. */
  lemma TokenRequestBody(methodName: string, token: JsValue)
    ensures MethodBody(methodName, Str(TokenElement(token))) == Render(Element("timg:" + methodName, [TokenNode(token)]))
  {
    RenderOne(TokenNode(token));
    MethodBodyOfNodes(methodName, [TokenNode(token)]);
  }

  /**
   * The two copies build the same settings and move trees; they differ only
   * in the wrapper tag: `timg:` in the lib copy and `tt:` in the dist copy.
   */
  lemma CopiesDifferOnlyInWrappers(token: JsValue, settings: JsValue, focus: JsValue)
    ensures SettingsNodes(Lib, token, settings) == [TokenNode(token), Element("timg:ImagingSettings", SettingsTree(settings))]
    ensures SettingsNodes(Dist, token, settings) == [TokenNode(token), Element("tt:ImagingSettings", SettingsTree(settings))]
    ensures MoveNodes(Lib, token, focus) == [TokenNode(token), Element("timg:Focus", [MoveCommandNode(focus)])]
    ensures MoveNodes(Dist, token, focus) == [TokenNode(token), Element("tt:Focus", [MoveCommandNode(focus)])]
  {
  }
}
