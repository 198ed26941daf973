/**
  The factory bundle `LayoutFuncs` of include/pebble-layout.h: four function
  pointers. Each pointer is modelled as a choice among the functions the
  repository defines and functions defined outside it (an application
  registering its own node kinds), told apart by a tag; a registered bundle
  may mix them as C allows.
  `create` is dispatched by the tree builder (it needs the token stream);
  the other three are interpreted here as the SDK effect they have.
 */
module Factory {
  import opened Pebble

  datatype CreateFunc = DefaultCreate | TextCreate | BitmapCreate | ExternalCreate(tag: nat)
  datatype DestroyFunc = DefaultDestroy | TextDestroy | BitmapDestroy | ExternalDestroy(tag: nat)
  datatype GetLayerFunc = DefaultGetLayer | TextGetLayer | BitmapGetLayer | ExternalGetLayer(tag: nat)
  datatype SetFrameFunc = DefaultSetFrame | TextSetFrame | BitmapSetFrame | ExternalSetFrame(tag: nat)

  datatype LayoutFuncs = LayoutFuncs(
    create: CreateFunc,
    destroy: DestroyFunc,
    getLayer: GetLayerFunc,
    setFrame: SetFrameFunc)

  /** `get_layer(obj)`: a plain layer is its own handle; the text and bitmap
      layers hand out the `Layer` they wrap; an external function hands out
      a layer of its own. */
  function GetLayer(f: GetLayerFunc, obj: Node): (r: Ref)
    ensures r.node == obj
    ensures r.Object? <==> f == DefaultGetLayer
  {
    match f
    case DefaultGetLayer => Object(obj)
    case TextGetLayer => Inner(obj)
    case BitmapGetLayer => Inner(obj)
    case ExternalGetLayer(tag) => ExternalLayer(tag, obj)
  }

  /** `set_frame(obj, frame)`: `layer_set_frame` on the layer the object
      stands for; an external function sets the frame of a layer of its
      own. */
  function SetFrameEffect(f: SetFrameFunc, obj: Node, frame: GRect): (e: Effect)
    ensures e.call == SetFrame(frame) && e.target.node == obj
    ensures e.target.Object? <==> f == DefaultSetFrame
  {
    match f
    case DefaultSetFrame => Effect(Object(obj), SetFrame(frame))
    case TextSetFrame => Effect(Inner(obj), SetFrame(frame))
    case BitmapSetFrame => Effect(Inner(obj), SetFrame(frame))
    case ExternalSetFrame(tag) => Effect(ExternalLayer(tag, obj), SetFrame(frame))
  }

  /** `destroy(obj)`: one destruction call on the object. */
  function DestroyEffect(f: DestroyFunc, obj: Node): (e: Effect)
    ensures e.target == Object(obj)
    ensures e.call.LayerDestroy? || e.call.TextLayerDestroy? || e.call.BitmapLayerDestroy? || e.call.ExternalDestroyCall?
    ensures e.call.ExternalDestroyCall? <==> f.ExternalDestroy?
  {
    match f
    case DefaultDestroy => Effect(Object(obj), LayerDestroy)
    case TextDestroy => Effect(Object(obj), TextLayerDestroy)
    case BitmapDestroy => Effect(Object(obj), BitmapLayerDestroy)
    case ExternalDestroy(tag) => Effect(Object(obj), ExternalDestroyCall(tag))
  }

  /** A bundle whose `set_frame` acts on the layer its `get_layer` returns, as
      all three bundles of the repository do, and as an external pair of
      functions with one tag is taken to. */
  predicate Coherent(funcs: LayoutFuncs)
  {
    match funcs.getLayer
    case DefaultGetLayer => funcs.setFrame == DefaultSetFrame
    case ExternalGetLayer(tag) => funcs.setFrame == ExternalSetFrame(tag)
    case _ => funcs.setFrame == TextSetFrame || funcs.setFrame == BitmapSetFrame
  }

  /** For a coherent bundle, the frame set through `set_frame` is the frame
      `layer_get_frame` then reads on the handle `get_layer` returns. */
  lemma SetFrameReachesHandle(funcs: LayoutFuncs, obj: Node, frame: GRect, effects: seq<Effect>)
    requires Coherent(funcs)
    ensures FrameOf(effects + [SetFrameEffect(funcs.setFrame, obj, frame)], GetLayer(funcs.getLayer, obj)) == frame
  {
    var es := effects + [SetFrameEffect(funcs.setFrame, obj, frame)];
    assert es[..|es| - 1] == effects;
  }
}
