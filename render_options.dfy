/** The base renderer's options: the defaults, the shallow merge the
    constructor performs, and the property reads that can throw. */
module RenderOptions {
  import opened Js

  /** `defaultOptions` of the base renderer. */
  const DefaultOptions: map<string, JsValue> := map[
    "showAxes" := Bool(false),
    "showGrid" := Bool(false),
    "autoResize" := Bool(false),
    "controls" := Obj(map["enabled" := Bool(true), "zoom" := Bool(true), "rotate" := Bool(true),
                          "pan" := Bool(true), "keys" := Bool(true)]),
    "camera" := Obj(map["type" := Str("perspective"), "x" := Num(20.0), "y" := Num(35.0), "z" := Num(20.0),
                        "target" := Arr([Num(0.0), Num(0.0), Num(0.0)])]),
    "canvas" := Obj(map["width" := Undefined, "height" := Undefined]),
    "frameRateLimit" := Num(-1.0),
    "enableStats" := Bool(false),
    "pauseHidden" := Bool(true),
    "forceContext" := Bool(false)]

  /** The own properties `Object.assign` copies from a source: those of an
      object; none from `undefined`, `null`, a boolean or a number. */
  function OwnProps(v: JsValue): map<string, JsValue>
  {
    if v.Obj? then v.props else map[]
  }

  /** `Object.assign(target, ...sources)`: each source's properties in turn
      overwrite the target's, whole values at the top level only. */
  function Assign(target: map<string, JsValue>, sources: seq<JsValue>): map<string, JsValue>
  {
    if sources == [] then target
    else Assign(target, sources[..|sources| - 1]) + OwnProps(sources[|sources| - 1])
  }

  /** `Object.assign({}, defaultOptions, defOptions, options)`. */
  function MergeOptions(defOptions: JsValue, options: JsValue): (r: map<string, JsValue>)
    ensures forall k :: k in r <==> k in DefaultOptions || k in OwnProps(defOptions) || k in OwnProps(options)
    ensures forall k :: k in OwnProps(options) ==> r[k] == OwnProps(options)[k]
    ensures forall k :: k !in OwnProps(options) && k in OwnProps(defOptions) ==> r[k] == OwnProps(defOptions)[k]
    ensures forall k :: k !in OwnProps(options) && k !in OwnProps(defOptions) && k in DefaultOptions ==>
      r[k] == DefaultOptions[k]
  {
    AssignThree(map[], Obj(DefaultOptions), defOptions, options);
    Assign(map[], [Obj(DefaultOptions), defOptions, options])
  }

  /** Three sources are applied left to right. */
  lemma AssignThree(target: map<string, JsValue>, a: JsValue, b: JsValue, c: JsValue)
    ensures Assign(target, [a, b, c]) == target + OwnProps(a) + OwnProps(b) + OwnProps(c)
  {
    assert [a, b, c][..2] == [a, b];
    assert [a, b][..1] == [a];
    assert [a][..0] == [];
    assert Assign(target, [a]) == target + OwnProps(a);
    assert Assign(target, [a, b]) == target + OwnProps(a) + OwnProps(b);
  }

  /** A nested option object replaces the default one whole: passing
      `{camera: {type: "orthographic"}}` loses the default camera position
      and target. */
  lemma NestedOptionsReplaceWhole()
    ensures var camera := Obj(map["type" := Str("orthographic")]);
      var r := MergeOptions(Undefined, Obj(map["camera" := camera]));
      && r["camera"] == camera
      && GetNested(r, "camera", "target") == Undefined
  {
    var camera := Obj(map["type" := Str("orthographic")]);
    var options := Obj(map["camera" := camera]);
    var r := MergeOptions(Undefined, options);
    assert "camera" in OwnProps(options);
    assert r["camera"] == camera;
    assert "target" !in camera.props;
  }

  // ---------------------------------------------------------------------------
  // Reading options
  // ---------------------------------------------------------------------------

  /** `v.key`: reading a property of `undefined` or `null` throws; an object
      yields its property; any other value has none of the properties read
      here. */
  function Prop(v: JsValue, key: string): (r: Result<JsValue>)
    ensures r.Err? <==> v.Undefined? || v.Null?
  {
    match v
    case Undefined => Err(TypeError)
    case Null => Err(TypeError)
    case Obj(m) => Ok(Get(m, key))
    case _ => Ok(Undefined)
  }

  /** `v[i]` for the index `i` of a camera target. */
  function Elem(v: JsValue, i: nat): (r: Result<JsValue>)
    ensures r.Err? <==> v.Undefined? || v.Null?
  {
    match v
    case Undefined => Err(TypeError)
    case Null => Err(TypeError)
    case Arr(items) => Ok(if i < |items| then items[i] else Undefined)
    case _ => Ok(Undefined)
  }

  /** `options.key` of the merged options. */
  function Setting(options: map<string, JsValue>, key: string): JsValue
  {
    Get(options, key)
  }

  /** `x > 0` for a value compared with a number, as far as modelled: a
      number or a boolean compares by value; `undefined` (NaN) and `null`
      (0) are never greater. */
  predicate Positive(v: JsValue)
  {
    match v
    case Num(n) => n > 0.0
    case Bool(b) => b
    case _ => false
  }

  /** The number `1.0 / v` divides by when `v` is positive. */
  function AsNumber(v: JsValue): (r: real)
    requires Positive(v)
    ensures r > 0.0
  {
    if v.Num? then v.n else 1.0
  }
}
