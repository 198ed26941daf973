/**
  The registry-driven tree builder of src/c/pebble-layout.c.

  A `Layout` owns a registry of factory bundles by type name (always holding
  "default"), an ownership stack of `{funcs, object}` records, and an
  association list from ids to objects. `json_create_layer` builds one node
  in three passes over the same key/value pairs: it finds "type" and rewinds;
  it runs the chosen factory's `create`, pushes the record, and rewinds
  again; and it handles "id" and "frame", skipping every other value. The
  default factory builds the children listed under "layers" by calling back
  into `json_create_layer`.

  The building is specified by functions over a `Build` value (fresh-node
  counter, stack, ids, SDK calls); the methods of the class do the same work
  step by step on the cursor and the containers and are proved to agree.
 */
module PebbleLayout {
  import opened Wrappers
  import opened Pebble
  import opened Factory
  import opened JsonStream
  import Dict
  import Stack
  import StandardTypes

  /** struct LayerData: the bundle that built an object, and the object. */
  datatype LayerData = LayerData(funcs: LayoutFuncs, obj: Node)

  /** The bundle layout_create registers as "default". */
  const DefaultFuncs := LayoutFuncs(DefaultCreate, DefaultDestroy, DefaultGetLayer, DefaultSetFrame)

  /** The `create` functions defined outside the repository, by tag: given
      the document, the position just past the object token, its number of
      pairs and the new object, where the function leaves the cursor and the
      SDK calls it makes; None when it would read past the last token. */
  type ExternalCreates = (nat, Doc, nat, nat, Node) -> Option<(nat, seq<Effect>)>

  /** An external `create` reads forward and leaves the cursor within the
      document. It cannot reach the stack or the ids of the layout, which
      only the static functions of the builder touch. */
  ghost predicate StaysInDocument(externals: ExternalCreates)
  {
    forall tag: nat, d: Doc, at: nat, size: nat, obj: Node ::
      d.Valid() && at <= |d.tokens| && externals(tag, d, at, size, obj).Some? ==>
        at <= externals(tag, d, at, size, obj).value.0 <= |d.tokens|
  }

  /** What building reads and never changes: the document, the registry,
      the font and resource lookups of the layout and the external
      `create` functions. */
  datatype Env = Env(
    doc: Doc,
    types: seq<(string, LayoutFuncs)>,
    fonts: string -> Option<Font>,
    resources: string -> Option<ResourceId>,
    externals: ExternalCreates)
  {
    ghost predicate Valid()
    {
      doc.Valid() && Dict.Lookup(types, "default").Some? && StaysInDocument(externals)
    }
  }

  /** What building changes: the next fresh object, the ownership stack (top
      first), the ids list and the SDK calls made so far. */
  datatype Build = Build(next: Node, layers: seq<LayerData>, ids: seq<(string, Node)>, effects: seq<Effect>)

  // ---------------------------------------------------------------------
  // How a build may grow

  /** The records `seg` are for distinct objects, all in [lo, hi). */
  predicate FreshObjects(seg: seq<LayerData>, lo: nat, hi: nat)
  {
    && (forall q :: 0 <= q < |seg| ==> lo <= seg[q].obj < hi)
    && (forall p, q :: 0 <= p < q < |seg| ==> seg[p].obj != seg[q].obj)
  }

  /** `r` is `s` after building: one record was pushed per object created,
      each for a distinct new object, on top of the untouched old stack; ids
      and calls were only appended to. */
  predicate Extends(s: Build, r: Build)
  {
    && s.next <= r.next
    && |r.layers| == |s.layers| + (r.next - s.next)
    && r.layers[r.next - s.next..] == s.layers
    && FreshObjects(r.layers[..r.next - s.next], s.next, r.next)
    && s.ids <= r.ids
    && s.effects <= r.effects
  }

  lemma ExtendsByCalls(s: Build, r: Build)
    requires r.next == s.next && r.layers == s.layers && s.ids <= r.ids && s.effects <= r.effects
    ensures Extends(s, r)
  {
    assert r.layers[0..] == r.layers;
  }

  /** Calls made before a build that extends. */
  lemma ExtendsAfterCalls(s: Build, s1: Build, r: Build)
    requires s1.next == s.next && s1.layers == s.layers && s.ids <= s1.ids && s.effects <= s1.effects
    requires Extends(s1, r)
    ensures Extends(s, r)
  {
  }

  /** Calls made after a build that extends. */
  lemma ExtendsThenCalls(s: Build, s1: Build, r: Build)
    requires Extends(s, s1)
    requires r.next == s1.next && r.layers == s1.layers && s1.ids <= r.ids && s1.effects <= r.effects
    ensures Extends(s, r)
  {
  }

  /** Records for objects in [mid, hi) on top of records for objects in
      [lo, mid) are records for distinct objects in [lo, hi). */
  lemma FreshObjectsAppend(x: seq<LayerData>, y: seq<LayerData>, lo: nat, mid: nat, hi: nat)
    requires lo <= mid <= hi && FreshObjects(x, mid, hi) && FreshObjects(y, lo, mid)
    ensures FreshObjects(x + y, lo, hi)
  {
    var xy := x + y;
    forall q | 0 <= q < |xy| ensures lo <= xy[q].obj < hi {
      if q >= |x| { assert xy[q] == y[q - |x|]; } else { assert xy[q] == x[q]; }
    }
    forall p, q | 0 <= p < q < |xy| ensures xy[p].obj != xy[q].obj {
      if q < |x| {
        assert xy[p] == x[p] && xy[q] == x[q];
      } else if p >= |x| {
        assert xy[p] == y[p - |x|] && xy[q] == y[q - |x|];
      } else {
        assert xy[p] == x[p] && xy[q] == y[q - |x|];
      }
    }
  }

  lemma ExtendsTrans(a: Build, b: Build, c: Build)
    requires Extends(a, b) && Extends(b, c)
    ensures Extends(a, c)
  {
    var m, n := c.next - b.next, b.next - a.next;
    var x, y := c.layers[..m], b.layers[..n];
    DropDrop(c.layers, m, n);
    assert c.layers[m + n..] == a.layers;
    assert c.layers[..m + n] == x + y;
    FreshObjectsAppend(x, y, a.next, b.next, c.next);
  }

  /** Dropping `m` then `n` elements is dropping `m + n`; the `m + n` first
      are the `m` first, then the `n` after them. */
  lemma DropDrop<T>(s: seq<T>, m: nat, n: nat)
    requires m + n <= |s|
    ensures s[m..][n..] == s[m + n..]
    ensures s[..m + n] == s[..m] + s[m..][..n]
  {
  }

  /** Pushing the record of the object `s.next` after its children were built
      from `s1` (where `s.next` was already taken). */
  lemma ExtendsByPush(s: Build, s1: Build, s2: Build, funcs: LayoutFuncs)
    requires s1.next == s.next + 1 && s1.layers == s.layers && s.ids <= s1.ids && s.effects <= s1.effects
    requires Extends(s1, s2)
    ensures Extends(s, s2.(layers := [LayerData(funcs, s.next)] + s2.layers))
  {
    var r := s2.(layers := [LayerData(funcs, s.next)] + s2.layers);
    var x := s2.layers[..s2.next - s1.next];
    assert r.layers == [LayerData(funcs, s.next)] + x + s.layers;
    assert r.layers[..r.next - s.next] == [LayerData(funcs, s.next)] + x;
    assert r.layers[r.next - s.next..] == s.layers;
  }

  // ---------------------------------------------------------------------
  // The three passes

  /** The "type" pass: the bundle registered under the first "type" value
      among `k` pairs from `j`, None inside when "type" is absent or its name
      unregistered; None outside when the scan runs past the last token. */
  function TypeScan(doc: Doc, types: seq<(string, LayoutFuncs)>, j: nat, k: nat): Option<Option<LayoutFuncs>>
    requires doc.Valid() && j <= |doc.tokens|
    decreases k
  {
    if k == 0 then Some(None)
    else if j == |doc.tokens| then None
    else if TokenEq(doc, doc.tokens[j], "type") then
      if j + 1 < |doc.tokens| then Some(Dict.Lookup(types, doc.Text(doc.tokens[j + 1]))) else None
    else
      match SubtreeEnd(doc.tokens, j + 1)
      case None => None
      case Some(e) => TypeScan(doc, types, e, k - 1)
  }

  /** The bundle used: the one found, else the one registered as "default". */
  function Selected(env: Env, found: Option<LayoutFuncs>): LayoutFuncs
    requires env.Valid()
  {
    if found.Some? then found.value else Dict.Lookup(env.types, "default").value
  }

  /** The "id"/"frame" pass over `k` pairs from `j` for the object `obj`
      built by `funcs`. */
  function IdFramePass(doc: Doc, j: nat, k: nat, funcs: LayoutFuncs, obj: Node, s: Build): (r: Option<(nat, Build)>)
    requires doc.Valid() && j <= |doc.tokens|
    ensures r.Some? ==> j <= r.value.0 <= |doc.tokens|
    ensures r.Some? ==> r.value.1.next == s.next && r.value.1.layers == s.layers
    decreases k
  {
    if k == 0 then Some((j, s))
    else if j == |doc.tokens| then None
    else
      match IdFrameOne(doc, j, funcs, obj, s)
      case None => None
      case Some((p, s1)) => IdFramePass(doc, p, k - 1, funcs, obj, s1)
  }

  /** One pair of the last pass, from its key at `j`: an id is recorded for
      the object itself, a frame is applied through the bundle's
      `set_frame`, every other value is skipped whole. */
  function IdFrameOne(doc: Doc, j: nat, funcs: LayoutFuncs, obj: Node, s: Build): (r: Option<(nat, Build)>)
    requires doc.Valid() && j < |doc.tokens|
    ensures r.Some? ==> j < r.value.0 <= |doc.tokens|
    ensures r.Some? ==> r.value.1.next == s.next && r.value.1.layers == s.layers
    ensures r.Some? ==> s.ids <= r.value.1.ids && s.effects <= r.value.1.effects
    ensures r.Some? ==> forall q :: |s.ids| <= q < |r.value.1.ids| ==> r.value.1.ids[q].1 == obj
  {
    var toks := doc.tokens;
    if TokenEq(doc, toks[j], "id") then
      if j + 1 < |toks| then Some((j + 2, s.(ids := s.ids + [(doc.Text(toks[j + 1]), obj)]))) else None
    else if TokenEq(doc, toks[j], "frame") then
      match GRectAt(doc, j + 1)
      case None => None
      case Some((frame, p)) => Some((p, s.(effects := s.effects + [SetFrameEffect(funcs.setFrame, obj, frame)])))
    else
      match SubtreeEnd(toks, j + 1)
      case None => None
      case Some(e) => Some((e, s))
  }

  /** A non-empty last pass is its first pair, then the rest. */
  lemma IdFramePassFirst(doc: Doc, j: nat, k: nat, funcs: LayoutFuncs, obj: Node, s: Build)
    requires doc.Valid() && j <= |doc.tokens| && k > 0 && IdFramePass(doc, j, k, funcs, obj, s).Some?
    ensures j < |doc.tokens| && IdFrameOne(doc, j, funcs, obj, s).Some?
    ensures IdFramePass(doc, j, k, funcs, obj, s)
         == IdFramePass(doc, IdFrameOne(doc, j, funcs, obj, s).value.0, k - 1, funcs, obj, IdFrameOne(doc, j, funcs, obj, s).value.1)
  {
  }

  /** The last pass only records ids and makes calls: both lists grow by
      appending, and every id it records names the factory's object `obj`
      itself, not the handle `get_layer` returns for it. */
  lemma {:induction false} IdFramePassOnlyAppends(doc: Doc, j: nat, k: nat, funcs: LayoutFuncs, obj: Node, s: Build)
    requires doc.Valid() && j <= |doc.tokens| && IdFramePass(doc, j, k, funcs, obj, s).Some?
    ensures s.ids <= IdFramePass(doc, j, k, funcs, obj, s).value.1.ids
    ensures forall q :: |s.ids| <= q < |IdFramePass(doc, j, k, funcs, obj, s).value.1.ids| ==>
      IdFramePass(doc, j, k, funcs, obj, s).value.1.ids[q].1 == obj
    ensures s.effects <= IdFramePass(doc, j, k, funcs, obj, s).value.1.effects
    decreases k
  {
    if k > 0 {
      var (p, s1) := IdFrameOne(doc, j, funcs, obj, s).value;
      IdFramePassOnlyAppends(doc, p, k - 1, funcs, obj, s1);
    }
  }

  /** The calls prv_default_create makes before reading any key: the layer,
      its clear fill colour, and its update procedure. */
  function DefaultInit(obj: Node): seq<Effect>
  {
    [Effect(Object(obj), NewLayer), Effect(Object(obj), SetColor(GColorClear)), Effect(Object(obj), SetUpdateProc)]
  }

  /** json_create_layer at token `i`: the position after it, the handle
      returned (None for NULL) and the build after it; None when it would
      read past the last token. */
  function CreateLayerSpec(env: Env, i: nat, s: Build): (r: Option<(nat, Option<Ref>, Build)>)
    requires env.Valid() && i <= |env.doc.tokens|
    ensures r.Some? ==> i < r.value.0 <= |env.doc.tokens|
    ensures r.Some? && env.doc.tokens[i].kind != JsonObject ==> r.value == (i + 1, None, s)
    ensures r.Some? && env.doc.tokens[i].kind == JsonObject ==>
      && r.value.2.layers != []
      && r.value.2.layers[0].obj == s.next
      && r.value.1 == Some(GetLayer(r.value.2.layers[0].funcs.getLayer, s.next))
    decreases |env.doc.tokens| - i, 3, 0
  {
    var toks := env.doc.tokens;
    if i == |toks| then None
    else if toks[i].kind != JsonObject then Some((i + 1, None, s))
    else
      match TypeScan(env.doc, env.types, i + 1, toks[i].size)
      case None => None
      case Some(found) =>
        var funcs := Selected(env, found);
        match ObjectSpec(env, i + 1, toks[i].size, funcs, s)
        case None => None
        case Some((p, s4)) => Some((p, Some(GetLayer(funcs.getLayer, s.next)), s4))
  }

  /** The object `s.next` built by `funcs` from the `size` pairs at `at`:
      created and its record pushed, then the "id"/"frame" pass from `at`
      again. */
  function ObjectSpec(env: Env, at: nat, size: nat, funcs: LayoutFuncs, s: Build): (r: Option<(nat, Build)>)
    requires env.Valid() && at <= |env.doc.tokens|
    ensures r.Some? ==> at <= r.value.0 <= |env.doc.tokens|
    ensures r.Some? ==> r.value.1.layers != [] && r.value.1.layers[0] == LayerData(funcs, s.next)
    decreases |env.doc.tokens| - at, 3, 0
  {
    match Created(env, at, size, funcs, s)
    case None => None
    case Some(s3) => IdFramePass(env.doc, at, size, funcs, s.next, s3)
  }

  /** The bundle's `create` for the object `s.next` from the `size` pairs at
      `at`, then its record pushed; where `create` left the cursor does not
      matter, since json_create_layer rewinds it. */
  function Created(env: Env, at: nat, size: nat, funcs: LayoutFuncs, s: Build): (r: Option<Build>)
    requires env.Valid() && at <= |env.doc.tokens|
    ensures r.Some? ==> r.value.layers != [] && r.value.layers[0] == LayerData(funcs, s.next)
    decreases |env.doc.tokens| - at, 2, 1
  {
    match FactoryCreate(env, funcs.create, at, size, s.next, s.(next := s.next + 1))
    case None => None
    case Some((_, s2)) => Some(s2.(layers := [LayerData(funcs, s.next)] + s2.layers))
  }

  /** A factory's `create` for object `obj`, entered just past an object
      token of `size` pairs at `at`. */
  function FactoryCreate(env: Env, create: CreateFunc, at: nat, size: nat, obj: Node, s: Build): (r: Option<(nat, Build)>)
    requires env.Valid() && at <= |env.doc.tokens|
    ensures r.Some? ==> at <= r.value.0 <= |env.doc.tokens|
    decreases |env.doc.tokens| - at, 2, 0
  {
    match create
    case DefaultCreate =>
      DefaultPairs(env, at, size, obj, s.(effects := s.effects + DefaultInit(obj)))
    case TextCreate =>
      Appended(StandardTypes.TextPairs(env.doc, env.fonts, obj, at, size, StandardTypes.TextInit(obj)), s)
    case BitmapCreate =>
      Appended(StandardTypes.BitmapPairs(env.doc, env.resources, obj, at, size, StandardTypes.BitmapInit(obj)), s)
    case ExternalCreate(tag) =>
      Appended(env.externals(tag, env.doc, at, size, obj), s)
  }

  /** A `create` that only makes SDK calls: where it left the cursor, and
      its calls appended to the build. */
  function Appended(made: Option<(nat, seq<Effect>)>, s: Build): (r: Option<(nat, Build)>)
  {
    match made
    case None => None
    case Some((p, es)) => Some((p, s.(effects := s.effects + es)))
  }

  /** `k` pairs of prv_default_create's loop from `j`, for the plain layer
      `obj`, each handled by DefaultOne. */
  function DefaultPairs(env: Env, j: nat, k: nat, obj: Node, s: Build): (r: Option<(nat, Build)>)
    requires env.Valid() && j <= |env.doc.tokens|
    ensures r.Some? ==> j <= r.value.0 <= |env.doc.tokens|
    decreases |env.doc.tokens| - j, 1, k
  {
    if k == 0 then Some((j, s))
    else if j == |env.doc.tokens| then None
    else
      match DefaultOne(env, j, obj, s)
      case None => None
      case Some((p, s1)) => DefaultPairs(env, p, k - 1, obj, s1)
  }

  /** One pair of prv_default_create's loop from its key at `j`: "layers"
      builds each element and adds the non-NULL ones as children; every
      other key is handled by DefaultValue. */
  function DefaultOne(env: Env, j: nat, obj: Node, s: Build): (r: Option<(nat, Build)>)
    requires env.Valid() && j < |env.doc.tokens|
    ensures r.Some? ==> j < r.value.0 <= |env.doc.tokens|
    decreases |env.doc.tokens| - j, 0, 0
  {
    var doc := env.doc;
    if TokenEq(doc, doc.tokens[j], "layers") then
      if j + 1 < |doc.tokens| then LayersLoop(env, j + 2, doc.tokens[j + 1].size, obj, s) else None
    else
      DefaultValue(doc, j, obj, s)
  }

  /** One pair of prv_default_create's loop whose key at `j` is not
      "layers": "background" sets the fill colour, "clips" clipping, and any
      other value is skipped whole. */
  function DefaultValue(doc: Doc, j: nat, obj: Node, s: Build): (r: Option<(nat, Build)>)
    requires doc.Valid() && j < |doc.tokens|
    ensures r.Some? ==> j < r.value.0 <= |doc.tokens|
    ensures r.Some? ==> r.value.1.next == s.next && r.value.1.layers == s.layers && r.value.1.ids == s.ids
    ensures r.Some? ==> s.effects <= r.value.1.effects
  {
    var toks := doc.tokens;
    if TokenEq(doc, toks[j], "background") then
      if j + 1 < |toks| then
        Some((j + 2, s.(effects := s.effects + [Effect(Object(obj), SetColor(ColorFromText(doc.Text(toks[j + 1]))))])))
      else None
    else if TokenEq(doc, toks[j], "clips") then
      if j + 1 < |toks| then
        Some((j + 2, s.(effects := s.effects + [Effect(Object(obj), SetClips(BoolAt(doc, j + 1)))])))
      else None
    else
      match SubtreeEnd(toks, j + 1)
      case None => None
      case Some(e) => Some((e, s))
  }

  /** The `n` elements of a "layers" array from `j`, each built by
      json_create_layer and, when not NULL, added as a child of `parent`. */
  function LayersLoop(env: Env, j: nat, n: nat, parent: Node, s: Build): (r: Option<(nat, Build)>)
    requires env.Valid() && j <= |env.doc.tokens|
    ensures r.Some? ==> j <= r.value.0 <= |env.doc.tokens|
    decreases |env.doc.tokens| - j, 4, n
  {
    if n == 0 then Some((j, s))
    else
      match LayersOne(env, j, parent, s)
      case None => None
      case Some((p, s1)) => LayersLoop(env, p, n - 1, parent, s1)
  }

  /** One element of a "layers" array at `j`: built by json_create_layer
      and, when not NULL, added as a child of `parent`. */
  function LayersOne(env: Env, j: nat, parent: Node, s: Build): (r: Option<(nat, Build)>)
    requires env.Valid() && j <= |env.doc.tokens|
    ensures r.Some? ==> j < r.value.0 <= |env.doc.tokens|
    decreases |env.doc.tokens| - j, 4, 0
  {
    match CreateLayerSpec(env, j, s)
    case None => None
    case Some((p, child, s1)) =>
      Some((p, if child.Some? then s1.(effects := s1.effects + [Effect(Object(parent), AddChild(child.value))]) else s1))
  }

  // ---------------------------------------------------------------------
  // Building only grows the build

  /** json_create_layer creates fresh objects only, pushes exactly one record
      per object it creates, leaves the stack below untouched and only
      appends ids and calls. */
  lemma {:induction false} CreateLayerExtends(env: Env, i: nat, s: Build)
    requires env.Valid() && i <= |env.doc.tokens| && CreateLayerSpec(env, i, s).Some?
    ensures Extends(s, CreateLayerSpec(env, i, s).value.2)
    ensures env.doc.tokens[i].kind == JsonObject ==> s.next < CreateLayerSpec(env, i, s).value.2.next
    decreases |env.doc.tokens| - i, 3, 0
  {
    var toks := env.doc.tokens;
    if toks[i].kind != JsonObject {
      ExtendsByCalls(s, s);
    } else {
      var funcs := Selected(env, TypeScan(env.doc, env.types, i + 1, toks[i].size).value);
      ObjectSpecExtends(env, i + 1, toks[i].size, funcs, s);
    }
  }

  lemma {:induction false} ObjectSpecExtends(env: Env, at: nat, size: nat, funcs: LayoutFuncs, s: Build)
    requires env.Valid() && at <= |env.doc.tokens| && ObjectSpec(env, at, size, funcs, s).Some?
    ensures Extends(s, ObjectSpec(env, at, size, funcs, s).value.1)
    ensures s.next < ObjectSpec(env, at, size, funcs, s).value.1.next
    decreases |env.doc.tokens| - at, 3, 0
  {
    var s3 := Created(env, at, size, funcs, s).value;
    CreatedExtends(env, at, size, funcs, s);
    IdFramePassOnlyAppends(env.doc, at, size, funcs, s.next, s3);
    ExtendsThenCalls(s, s3, ObjectSpec(env, at, size, funcs, s).value.1);
  }

  lemma {:induction false} CreatedExtends(env: Env, at: nat, size: nat, funcs: LayoutFuncs, s: Build)
    requires env.Valid() && at <= |env.doc.tokens| && Created(env, at, size, funcs, s).Some?
    ensures Extends(s, Created(env, at, size, funcs, s).value)
    ensures s.next < Created(env, at, size, funcs, s).value.next
    decreases |env.doc.tokens| - at, 2, 1
  {
    var s1 := s.(next := s.next + 1);
    FactoryCreateExtends(env, funcs.create, at, size, s.next, s1);
    ExtendsByPush(s, s1, FactoryCreate(env, funcs.create, at, size, s.next, s1).value.1, funcs);
  }

  lemma {:induction false} FactoryCreateExtends(env: Env, create: CreateFunc, at: nat, size: nat, obj: Node, s: Build)
    requires env.Valid() && at <= |env.doc.tokens| && FactoryCreate(env, create, at, size, obj, s).Some?
    ensures Extends(s, FactoryCreate(env, create, at, size, obj, s).value.1)
    decreases |env.doc.tokens| - at, 2, 0
  {
    if create == DefaultCreate {
      var s1 := s.(effects := s.effects + DefaultInit(obj));
      DefaultPairsExtends(env, at, size, obj, s1);
      ExtendsAfterCalls(s, s1, FactoryCreate(env, create, at, size, obj, s).value.1);
    } else {
      ExtendsByCalls(s, FactoryCreate(env, create, at, size, obj, s).value.1);
    }
  }

  /** A non-empty run of pairs is its first pair, then the rest. */
  lemma DefaultPairsFirst(env: Env, j: nat, k: nat, obj: Node, s: Build)
    requires env.Valid() && j <= |env.doc.tokens| && k > 0 && DefaultPairs(env, j, k, obj, s).Some?
    ensures j < |env.doc.tokens| && DefaultOne(env, j, obj, s).Some?
    ensures DefaultPairs(env, j, k, obj, s)
         == DefaultPairs(env, DefaultOne(env, j, obj, s).value.0, k - 1, obj, DefaultOne(env, j, obj, s).value.1)
  {
  }

  lemma {:induction false} DefaultPairsExtends(env: Env, j: nat, k: nat, obj: Node, s: Build)
    requires env.Valid() && j <= |env.doc.tokens| && DefaultPairs(env, j, k, obj, s).Some?
    ensures Extends(s, DefaultPairs(env, j, k, obj, s).value.1)
    decreases |env.doc.tokens| - j, 1, k
  {
    if k == 0 {
      ExtendsByCalls(s, s);
    } else {
      var (p, s1) := DefaultOne(env, j, obj, s).value;
      DefaultOneExtends(env, j, obj, s);
      DefaultPairsExtends(env, p, k - 1, obj, s1);
      ExtendsTrans(s, s1, DefaultPairs(env, j, k, obj, s).value.1);
    }
  }

  lemma {:induction false} DefaultOneExtends(env: Env, j: nat, obj: Node, s: Build)
    requires env.Valid() && j < |env.doc.tokens| && DefaultOne(env, j, obj, s).Some?
    ensures Extends(s, DefaultOne(env, j, obj, s).value.1)
    decreases |env.doc.tokens| - j, 0, 0
  {
    var doc := env.doc;
    if TokenEq(doc, doc.tokens[j], "layers") {
      LayersLoopExtends(env, j + 2, doc.tokens[j + 1].size, obj, s);
    } else {
      ExtendsByCalls(s, DefaultValue(doc, j, obj, s).value.1);
    }
  }

  lemma {:induction false} LayersLoopExtends(env: Env, j: nat, n: nat, parent: Node, s: Build)
    requires env.Valid() && j <= |env.doc.tokens| && LayersLoop(env, j, n, parent, s).Some?
    ensures Extends(s, LayersLoop(env, j, n, parent, s).value.1)
    decreases |env.doc.tokens| - j, 4, n
  {
    if n == 0 {
      ExtendsByCalls(s, s);
    } else {
      var (p, s1) := LayersOne(env, j, parent, s).value;
      LayersOneExtends(env, j, parent, s);
      LayersLoopExtends(env, p, n - 1, parent, s1);
      ExtendsTrans(s, s1, LayersLoop(env, j, n, parent, s).value.1);
    }
  }

  lemma {:induction false} LayersOneExtends(env: Env, j: nat, parent: Node, s: Build)
    requires env.Valid() && j <= |env.doc.tokens| && LayersOne(env, j, parent, s).Some?
    ensures Extends(s, LayersOne(env, j, parent, s).value.1)
    decreases |env.doc.tokens| - j, 4, 0
  {
    CreateLayerExtends(env, j, s);
    ExtendsThenCalls(s, CreateLayerSpec(env, j, s).value.2, LayersOne(env, j, parent, s).value.1);
  }

  /** layout_parse after the document is loaded: nothing happens unless the
      first token is an object; then the tree is built from it, and a root
      whose frame is still GRectZero gets the display bounds. */
  function ParseSpec(env: Env, root: Option<Ref>, s: Build): Option<(Option<Ref>, Build)>
    requires env.Valid()
  {
    var toks := env.doc.tokens;
    if toks == [] || toks[0].kind != JsonObject then Some((root, s))
    else
      match CreateLayerSpec(env, 0, s)
      case None => None
      case Some((_, r, s1)) => Some((r, s1.(effects := WithRootFrame(s1.effects, r.value))))
  }

  /** The calls layout_destroy's pop loop makes for the records `ls`, top
      first. */
  function DestroyAll(ls: seq<LayerData>): seq<Effect>
  {
    if ls == [] then [] else [DestroyEffect(ls[0].funcs.destroy, ls[0].obj)] + DestroyAll(ls[1..])
  }

  // ---------------------------------------------------------------------
  // Properties of the builder

  /** The q-th destruction is that of the q-th record from the top: objects
      are destroyed in the reverse of the order they were pushed in, each by
      the bundle that built it. */
  lemma {:induction false} DestroyAllInOrder(ls: seq<LayerData>)
    ensures |DestroyAll(ls)| == |ls|
    ensures forall q :: 0 <= q < |ls| ==> DestroyAll(ls)[q] == DestroyEffect(ls[q].funcs.destroy, ls[q].obj)
  {
    if ls != [] {
      DestroyAllInOrder(ls[1..]);
      forall q | 1 <= q < |ls| ensures DestroyAll(ls)[q] == DestroyEffect(ls[q].funcs.destroy, ls[q].obj) {
        assert ls[1..][q - 1] == ls[q];
      }
    }
  }

  /** Tearing down what was built on an empty stack destroys every object
      created, each exactly once. */
  lemma DestroyEachOnce(s: Build, r: Build)
    requires s.layers == [] && Extends(s, r)
    ensures |DestroyAll(r.layers)| == r.next - s.next
    ensures forall q :: 0 <= q < |r.layers| ==>
      var o := DestroyAll(r.layers)[q].target.node;
      DestroyAll(r.layers)[q].target == Object(o) && s.next <= o < r.next
    ensures forall p, q :: 0 <= p < q < |r.layers| ==> DestroyAll(r.layers)[p].target != DestroyAll(r.layers)[q].target
  {
    DestroyAllInOrder(r.layers);
    assert r.layers[..r.next - s.next] == r.layers;
  }

  /** json_create_layer pushes the record of the object it builds only after
      that object's `create` has returned: the record is on top, and every
      record below it that this call pushed is for a child built inside
      `create`, an object created after it. */
  lemma ChildrenPushedBeforeParent(env: Env, i: nat, s: Build)
    requires env.Valid() && i < |env.doc.tokens| && env.doc.tokens[i].kind == JsonObject
    requires CreateLayerSpec(env, i, s).Some?
    ensures var r := CreateLayerSpec(env, i, s).value.2;
      && s.next < r.next
      && |r.layers| == |s.layers| + (r.next - s.next)
      && r.layers[0].obj == s.next
      && (forall q :: 0 < q < r.next - s.next ==> s.next < r.layers[q].obj < r.next)
      && r.layers[r.next - s.next..] == s.layers
  {
    var r := CreateLayerSpec(env, i, s).value.2;
    CreateLayerExtends(env, i, s);
    var seg := r.layers[..r.next - s.next];
    assert seg[0] == r.layers[0];
    forall q | 0 < q < r.next - s.next ensures s.next < r.layers[q].obj < r.next {
      assert seg[q] == r.layers[q];
      assert seg[0].obj != seg[q].obj;
    }
  }

  /** After the root is built its frame is never GRectZero: it keeps the
      frame the build gave it, or gets the display bounds when that frame
      was GRectZero. */
  lemma RootFrameNeverZero(env: Env, root: Option<Ref>, s: Build)
    requires env.Valid() && |env.doc.tokens| > 0 && env.doc.tokens[0].kind == JsonObject
    requires ParseSpec(env, root, s).Some?
    ensures ParseSpec(env, root, s).value.0.Some?
    ensures var (_, r, s1) := CreateLayerSpec(env, 0, s).value;
      && ParseSpec(env, root, s).value.0 == r
      && FrameOf(ParseSpec(env, root, s).value.1.effects, r.value)
         == if FrameOf(s1.effects, r.value) == GRectZero then DisplayBounds else FrameOf(s1.effects, r.value)
    ensures FrameOf(ParseSpec(env, root, s).value.1.effects, ParseSpec(env, root, s).value.0.value) != GRectZero
  {
    var (_, r, s1) := CreateLayerSpec(env, 0, s).value;
    WithRootFrameNonZero(s1.effects, r.value);
  }

  /** layout_parse only grows the build: one record per object created, on
      top of what the stack held before. */
  lemma ParseExtends(env: Env, root: Option<Ref>, s: Build)
    requires env.Valid() && ParseSpec(env, root, s).Some?
    ensures Extends(s, ParseSpec(env, root, s).value.1)
  {
    var toks := env.doc.tokens;
    if toks == [] || toks[0].kind != JsonObject {
      ExtendsByCalls(s, s);
    } else {
      var (_, r, s1) := CreateLayerSpec(env, 0, s).value;
      CreateLayerExtends(env, 0, s);
      WithRootFrameNonZero(s1.effects, r.value);
      ExtendsByCalls(s1, ParseSpec(env, root, s).value.1);
      ExtendsTrans(s, s1, ParseSpec(env, root, s).value.1);
    }
  }

  /** The pairs from `j` are well formed, and each has a value shaped as
      the last pass reads it. */
  predicate IdFrameAligned(doc: Doc, j: nat, k: nat)
    requires doc.Valid()
    decreases k
  {
    k == 0 ||
      (&& j + 1 < |doc.tokens|
       && ValueShaped(doc, j)
       && SubtreeEnd(doc.tokens, j + 1).Some?
       && IdFrameAligned(doc, SubtreeEnd(doc.tokens, j + 1).value, k - 1))
  }

  /** An "id" has a one-token value, and a "frame" a one-token value or an
      array of four scalars. */
  predicate ValueShaped(doc: Doc, j: nat)
    requires doc.Valid() && j + 1 < |doc.tokens|
  {
    && (Spells(doc, doc.tokens[j], "id") ==> Scalar(doc.tokens, j + 1))
    && (Spells(doc, doc.tokens[j], "frame") ==> Scalar(doc.tokens, j + 1) || FourScalars(doc.tokens, j + 1))
  }

  /** An array token of size four followed by four scalars. */
  predicate FourScalars(toks: seq<JsonToken>, v: nat)
  {
    && v + 5 <= |toks| && toks[v].kind == JsonArray && toks[v].size == 4
    && forall q :: v < q < v + 5 ==> Scalar(toks, q)
  }

  lemma FourScalarsEnd(toks: seq<JsonToken>, v: nat)
    requires FourScalars(toks, v)
    ensures SubtreeEnd(toks, v) == Some(v + 5)
  {
    assert Scalar(toks, v + 1) && Scalar(toks, v + 2) && Scalar(toks, v + 3) && Scalar(toks, v + 4);
    assert SkipChildren(toks, v + 5, 0, false) == Some(v + 5);
    assert SkipChildren(toks, v + 4, 1, false) == Some(v + 5);
    assert SkipChildren(toks, v + 3, 2, false) == Some(v + 5);
    assert SkipChildren(toks, v + 2, 3, false) == Some(v + 5);
    assert SkipChildren(toks, v + 1, 4, false) == Some(v + 5);
  }

  /** A pair whose value is shaped as the last pass reads it is consumed
      whole. */
  lemma IdFrameOneSkipsWholePair(doc: Doc, j: nat, funcs: LayoutFuncs, obj: Node, s: Build)
    requires doc.Valid() && j + 1 < |doc.tokens| && ValueShaped(doc, j) && SubtreeEnd(doc.tokens, j + 1).Some?
    ensures IdFrameOne(doc, j, funcs, obj, s).Some?
    ensures IdFrameOne(doc, j, funcs, obj, s).value.0 == SubtreeEnd(doc.tokens, j + 1).value
  {
    if TokenEq(doc, doc.tokens[j], "frame") && !Scalar(doc.tokens, j + 1) {
      FourScalarsEnd(doc.tokens, j + 1);
    }
  }

  /** Under IdFrameAligned, the last pass ends where skipping the pairs
      whole would. */
  lemma {:induction false} IdFramePassSkipsWholePairs(doc: Doc, j: nat, k: nat, funcs: LayoutFuncs, obj: Node, s: Build)
    requires doc.Valid() && j <= |doc.tokens| && IdFrameAligned(doc, j, k)
    ensures IdFramePass(doc, j, k, funcs, obj, s).Some?
    ensures SkipChildren(doc.tokens, j, k, true) == Some(IdFramePass(doc, j, k, funcs, obj, s).value.0)
    decreases k
  {
    if k > 0 {
      IdFrameOneSkipsWholePair(doc, j, funcs, obj, s);
      var (p, s1) := IdFrameOne(doc, j, funcs, obj, s).value;
      IdFramePassSkipsWholePairs(doc, p, k - 1, funcs, obj, s1);
    }
  }

  /** Where one pair of the last pass ends, read from the document alone:
      an "id" value is one token, a "frame" value what json_next_grect
      consumes, any other value its whole subtree. */
  function IdFrameOneEnd(doc: Doc, j: nat): (r: Option<nat>)
    requires doc.Valid() && j < |doc.tokens|
    ensures r.Some? ==> j < r.value <= |doc.tokens|
  {
    if TokenEq(doc, doc.tokens[j], "id") then
      if j + 1 < |doc.tokens| then Some(j + 2) else None
    else if TokenEq(doc, doc.tokens[j], "frame") then
      match GRectAt(doc, j + 1)
      case None => None
      case Some((_, p)) => Some(p)
    else SubtreeEnd(doc.tokens, j + 1)
  }

  /** Where the whole last pass ends, read from the document alone. */
  function IdFrameEnd(doc: Doc, j: nat, k: nat): Option<nat>
    requires doc.Valid() && j <= |doc.tokens|
    decreases k
  {
    if k == 0 then Some(j)
    else if j == |doc.tokens| then None
    else
      match IdFrameOneEnd(doc, j)
      case None => None
      case Some(p) => IdFrameEnd(doc, p, k - 1)
  }

  /** The last pass ends where IdFrameEnd says, whatever the object, its
      bundle and what was built before. */
  lemma {:induction false} IdFramePassEnd(doc: Doc, j: nat, k: nat, funcs: LayoutFuncs, obj: Node, s: Build)
    requires doc.Valid() && j <= |doc.tokens|
    ensures IdFramePass(doc, j, k, funcs, obj, s).Some? <==> IdFrameEnd(doc, j, k).Some?
    ensures IdFramePass(doc, j, k, funcs, obj, s).Some? ==> IdFramePass(doc, j, k, funcs, obj, s).value.0 == IdFrameEnd(doc, j, k).value
    decreases k
  {
    if k > 0 && j < |doc.tokens| {
      IdFrameOneEndAgrees(doc, j, funcs, obj, s);
      var one := IdFrameOne(doc, j, funcs, obj, s);
      if one.Some? {
        IdFramePassEnd(doc, one.value.0, k - 1, funcs, obj, one.value.1);
      }
    }
  }

  lemma IdFrameOneEndAgrees(doc: Doc, j: nat, funcs: LayoutFuncs, obj: Node, s: Build)
    requires doc.Valid() && j < |doc.tokens|
    ensures IdFrameOne(doc, j, funcs, obj, s).Some? <==> IdFrameOneEnd(doc, j).Some?
    ensures IdFrameOne(doc, j, funcs, obj, s).Some? ==> IdFrameOne(doc, j, funcs, obj, s).value.0 == IdFrameOneEnd(doc, j).value
  {
  }

  /** The net cursor advance of json_create_layer on an object is that of
      one json_skip_tree from the same token, whatever the factory consumed,
      provided "id" and "frame" values are shaped as their readers expect. */
  lemma CreateLayerEndsAtSubtreeEnd(env: Env, i: nat, s: Build)
    requires env.Valid() && i < |env.doc.tokens| && env.doc.tokens[i].kind == JsonObject
    requires IdFrameAligned(env.doc, i + 1, env.doc.tokens[i].size)
    requires CreateLayerSpec(env, i, s).Some?
    ensures SubtreeEnd(env.doc.tokens, i) == Some(CreateLayerSpec(env, i, s).value.0)
  {
    var size := env.doc.tokens[i].size;
    var b := Build(0, [], [], []);
    CreateLayerEnd(env, i, s);
    IdFramePassSkipsWholePairs(env.doc, i + 1, size, DefaultFuncs, 0, b);
    IdFramePassEnd(env.doc, i + 1, size, DefaultFuncs, 0, b);
  }

  /** The position after json_create_layer depends on the document only:
      not on which bundles are registered nor on the fonts and resources, so
      whatever a factory's `create` consumes is discarded. */
  lemma CreateLayerEndIndependentOfFactories(env1: Env, env2: Env, i: nat, s1: Build, s2: Build)
    requires env1.Valid() && env2.Valid() && env1.doc == env2.doc && i <= |env1.doc.tokens|
    requires CreateLayerSpec(env1, i, s1).Some? && CreateLayerSpec(env2, i, s2).Some?
    ensures CreateLayerSpec(env1, i, s1).value.0 == CreateLayerSpec(env2, i, s2).value.0
  {
    if env1.doc.tokens[i].kind == JsonObject {
      CreateLayerEnd(env1, i, s1);
      CreateLayerEnd(env2, i, s2);
    }
  }

  /** On an object, json_create_layer ends where the last pass ends. */
  lemma CreateLayerEnd(env: Env, i: nat, s: Build)
    requires env.Valid() && i < |env.doc.tokens| && env.doc.tokens[i].kind == JsonObject
    requires CreateLayerSpec(env, i, s).Some?
    ensures IdFrameEnd(env.doc, i + 1, env.doc.tokens[i].size) == Some(CreateLayerSpec(env, i, s).value.0)
  {
    var size := env.doc.tokens[i].size;
    ObjectSpecEnd(env, i + 1, size, Selected(env, TypeScan(env.doc, env.types, i + 1, size).value), s);
  }

  lemma ObjectSpecEnd(env: Env, at: nat, size: nat, funcs: LayoutFuncs, s: Build)
    requires env.Valid() && at <= |env.doc.tokens| && ObjectSpec(env, at, size, funcs, s).Some?
    ensures IdFrameEnd(env.doc, at, size) == Some(ObjectSpec(env, at, size, funcs, s).value.0)
  {
    IdFramePassEnd(env.doc, at, size, funcs, s.next, Created(env, at, size, funcs, s).value);
  }

  // ---------------------------------------------------------------------
  // Lifetime of the registered bundles in layout_destroy

  /** A step of layout_destroy that touches a registered bundle copy (the
      copy layout_add_type allocates, which a record's `layout_funcs` points
      at): the copy at registry position `entry` is freed, or its `destroy`
      pointer is read to destroy an object. */
  datatype BundleAccess = FreeBundle(entry: nat) | ReadDestroy(entry: nat)

  /** The registry walk of prv_types_destroy_callback: copies 0 .. n-1. */
  function FreeBundles(n: nat): seq<BundleAccess>
  {
    seq(n, e requires 0 <= e < n => FreeBundle(e))
  }

  /** The pop loop: the record q from the top points at registry position
      `links[q]`. */
  function ReadDestroys(links: seq<nat>): seq<BundleAccess>
  {
    seq(|links|, q requires 0 <= q < |links| => ReadDestroy(links[q]))
  }

  /** No bundle copy is read after it has been freed. */
  predicate ReadsOnlyLive(trace: seq<BundleAccess>)
  {
    forall p, q :: 0 <= p < q < |trace| && trace[p].FreeBundle? && trace[q].ReadDestroy? ==> trace[p].entry != trace[q].entry
  }

  /** layout_destroy as written: the registry copies are all freed, then
      the pop loop reads a `destroy` pointer from each record's copy. */
  function DestroyAccessesAsWritten(n: nat, links: seq<nat>): seq<BundleAccess>
  {
    FreeBundles(n) + ReadDestroys(links)
  }

  /** The order the pop loop needs: every record's bundle is read before
      the registry is freed. `Layout.Destroy` follows it. */
  function DestroyAccesses(n: nat, links: seq<nat>): seq<BundleAccess>
  {
    ReadDestroys(links) + FreeBundles(n)
  }

  /** As written, each destruction reads a bundle copy that was freed
      before it: as soon as one object was built, layout_destroy reads freed
      memory. */
  lemma AsWrittenReadsFreedBundles(n: nat, links: seq<nat>)
    requires forall q :: 0 <= q < |links| ==> links[q] < n
    ensures forall q :: 0 <= q < |links| ==>
      && DestroyAccessesAsWritten(n, links)[links[q]] == FreeBundle(links[q])
      && DestroyAccessesAsWritten(n, links)[n + q] == ReadDestroy(links[q])
    ensures links != [] ==> !ReadsOnlyLive(DestroyAccessesAsWritten(n, links))
  {
    var trace := DestroyAccessesAsWritten(n, links);
    if links != [] {
      assert trace[links[0]] == FreeBundle(links[0]);
      assert trace[n] == ReadDestroy(links[0]);
    }
  }

  /** The smallest case: one bundle registered ("default") and one object
      built with it. */
  lemma AsWrittenOneObject()
    ensures DestroyAccessesAsWritten(1, [0]) == [FreeBundle(0), ReadDestroy(0)]
    ensures !ReadsOnlyLive(DestroyAccessesAsWritten(1, [0]))
  {
    AsWrittenReadsFreedBundles(1, [0]);
  }

  /** In the corrected order no bundle copy is read after it is freed. */
  lemma DestroyReadsOnlyLive(n: nat, links: seq<nat>)
    ensures |DestroyAccesses(n, links)| == |links| + n
    ensures forall q :: 0 <= q < |links| ==> DestroyAccesses(n, links)[q] == ReadDestroy(links[q])
    ensures ReadsOnlyLive(DestroyAccesses(n, links))
  {
  }

  // ---------------------------------------------------------------------
  // The layout

  class Layout {
    /** The root layer handle; None until a document with an object at its
        top has been parsed. */
    var root: Option<Ref>
    /** The ownership stack of `{funcs, object}` records. */
    const layers: Stack.Stack<LayerData>
    /** Object by id, in the order the ids were read. */
    const ids: Dict.Dict<Node>
    /** Factory bundle by type name, in the order of registration. */
    const types: Dict.Dict<LayoutFuncs>
    /** The SDK calls made so far, oldest first. */
    var effects: seq<Effect>
    /** The object the SDK will create next. */
    var next: Node
    /** layout_get_font and layout_get_resource_id. */
    const fonts: string -> Option<Font>
    const resources: string -> Option<ResourceId>
    /** The `create` functions of bundles defined outside the repository. */
    const externals: ExternalCreates

    ghost predicate Valid()
      reads layers, types
    {
      layers.Valid() && Dict.Lookup(types.entries, "default").Some? && StaysInDocument(externals)
    }

    function State(): Build
      reads this, layers, ids
    {
      Build(next, layers.Contents(), ids.entries, effects)
    }

    function EnvOf(doc: Doc): Env
      reads types
    {
      Env(doc, types.entries, fonts, resources, externals)
    }

    /** layout_create: empty containers, no root, and the "default" bundle
        registered. */
    constructor (fonts: string -> Option<Font>, resources: string -> Option<ResourceId>, externals: ExternalCreates)
      requires StaysInDocument(externals)
      ensures Valid() && root.None? && State() == Build(0, [], [], [])
      ensures types.entries == [("default", DefaultFuncs)]
      ensures fresh(layers) && fresh(ids) && fresh(types)
      ensures this.fonts == fonts && this.resources == resources && this.externals == externals
    {
      this.fonts := fonts;
      this.resources := resources;
      this.externals := externals;
      root := None;
      layers := new Stack.Stack();
      ids := new Dict.Dict();
      types := new Dict.Dict();
      effects := [];
      next := 0;
      new;
      AddType("default", DefaultFuncs);
    }

    /** layout_add_type: appends a copy of the bundle. A name registered
        before keeps its first bundle, "default" included. */
    method AddType(name: string, funcs: LayoutFuncs)
      modifies types
      ensures types.entries == old(types.entries) + [(name, funcs)]
      ensures Dict.Lookup(types.entries, name) ==
        if Dict.Lookup(old(types.entries), name).Some? then Dict.Lookup(old(types.entries), name) else Some(funcs)
      ensures Dict.Lookup(old(types.entries), "default").Some? ==>
        Dict.Lookup(types.entries, "default") == Dict.Lookup(old(types.entries), "default")
    {
      Dict.LookupAfterAppend(types.entries, name, funcs, name);
      Dict.LookupAfterAppend(types.entries, name, funcs, "default");
      types.Put(name, funcs);
    }

    /** standard_types_add: "TextLayer", then "BitmapLayer". */
    method AddStandardTypes()
      modifies types
      ensures types.entries == old(types.entries) + StandardTypes.StandardTypes
      ensures Dict.Lookup(old(types.entries), "default").Some? ==>
        Dict.Lookup(types.entries, "default") == Dict.Lookup(old(types.entries), "default")
    {
      AddType("TextLayer", StandardTypes.TextLayerFuncs);
      AddType("BitmapLayer", StandardTypes.BitmapLayerFuncs);
    }

    /** The first loop of json_create_layer: looks for "type" among `size`
        pairs; the cursor is left wherever the scan stopped. */
    method TypePass(json: Json, size: nat) returns (found: Option<LayoutFuncs>)
      requires json.doc.Valid() && 0 <= json.index as int <= |json.doc.tokens|
      requires TypeScan(json.doc, types.entries, json.index as nat, size).Some?
      modifies json
      ensures TypeScan(json.doc, types.entries, old(json.index) as nat, size) == Some(found)
    {
      var doc := json.doc;
      found := None;
      var i := 0;
      while i < size
        invariant 0 <= i <= size
        invariant 0 <= json.index as int <= |doc.tokens|
        invariant found == None
        invariant TypeScan(doc, types.entries, json.index as nat, size - i)
               == TypeScan(doc, types.entries, old(json.index) as nat, size)
      {
        var key := json.Next();
        if TokenEq(doc, key, "type") {
          var s := json.NextString();
          found := types.Get(s);
          break;
        }
        json.SkipTree();
        i := i + 1;
      }
    }

    /** One pair of the last loop of json_create_layer. */
    method IdFrameStep(json: Json, funcs: LayoutFuncs, obj: Node)
      requires json.doc.Valid() && 0 <= json.index as int < |json.doc.tokens|
      requires IdFrameOne(json.doc, json.index as nat, funcs, obj, State()).Some?
      modifies this, ids, json
      ensures root == old(root)
      ensures old(json.index) < json.index as int <= |json.doc.tokens|
      ensures IdFrameOne(json.doc, old(json.index) as nat, funcs, obj, old(State())) == Some((json.index as nat, State()))
    {
      var doc := json.doc;
      var key := json.Next();
      if TokenEq(doc, key, "id") {
        var id := json.NextString();
        ids.Put(id, obj);
      } else if TokenEq(doc, key, "frame") {
        var frame := json.NextGRect();
        effects := effects + [SetFrameEffect(funcs.setFrame, obj, frame)];
      } else {
        json.SkipTree();
      }
    }

    /** The last loop of json_create_layer for the object `obj` built by
        `funcs`. */
    method IdFrameLoop(json: Json, size: nat, funcs: LayoutFuncs, obj: Node)
      requires json.doc.Valid() && 0 <= json.index as int <= |json.doc.tokens|
      requires IdFramePass(json.doc, json.index as nat, size, funcs, obj, State()).Some?
      modifies this, ids, json
      ensures root == old(root)
      ensures 0 <= json.index as int <= |json.doc.tokens|
      ensures IdFramePass(json.doc, old(json.index) as nat, size, funcs, obj, old(State())) == Some((json.index as nat, State()))
    {
      ghost var goal := IdFramePass(json.doc, json.index as nat, size, funcs, obj, State());
      for i := 0 to size
        invariant root == old(root)
        invariant 0 <= json.index as int <= |json.doc.tokens|
        invariant IdFramePass(json.doc, json.index as nat, size - i, funcs, obj, State()) == goal
      {
        IdFramePassFirst(json.doc, json.index as nat, size - i, funcs, obj, State());
        IdFrameStep(json, funcs, obj);
      }
    }

    /** json_create_layer: NULL for a token that is not an object, otherwise
        the `get_layer` handle of the object built. */
    method CreateLayer(json: Json) returns (r: Option<Ref>)
      requires Valid() && json.doc.Valid() && 0 <= json.index as int <= |json.doc.tokens|
      requires CreateLayerSpec(EnvOf(json.doc), json.index as nat, State()).Some?
      modifies this, layers, ids, json
      ensures Valid() && root == old(root)
      ensures old(json.index) < json.index as int <= |json.doc.tokens|
      ensures CreateLayerSpec(EnvOf(json.doc), old(json.index) as nat, old(State())) == Some((json.index as nat, r, State()))
      decreases |json.doc.tokens| - json.index as int, 5, 0
    {
      var tok := json.Next();
      if tok.kind != JsonObject {
        return None;
      }
      var size := tok.size;
      var index := json.GetIndex();
      var found := TypePass(json, size);
      json.SetIndex(index);
      var funcs: LayoutFuncs;
      if found.Some? {
        funcs := found.value;
      } else {
        var d := types.Get("default");
        funcs := d.value;
      }
      var obj := next;
      BuildObject(json, size, funcs);
      r := Some(GetLayer(funcs.getLayer, obj));
    }

    /** The rest of json_create_layer once the bundle is chosen: the object
        is created, its record pushed, and the pairs read again for "id" and
        "frame". */
    method BuildObject(json: Json, size: nat, funcs: LayoutFuncs)
      requires Valid() && json.doc.Valid() && 0 <= json.index as int <= |json.doc.tokens|
      requires ObjectSpec(EnvOf(json.doc), json.index as nat, size, funcs, State()).Some?
      modifies this, layers, ids, json
      ensures Valid() && root == old(root)
      ensures old(json.index) <= json.index as int <= |json.doc.tokens|
      ensures ObjectSpec(EnvOf(json.doc), old(json.index) as nat, size, funcs, old(State())) == Some((json.index as nat, State()))
      decreases |json.doc.tokens| - json.index as int, 5, 0
    {
      var obj := next;
      CreateObject(json, size, funcs);
      IdFrameLoop(json, size, funcs, obj);
    }

    /** The middle of json_create_layer: the cursor is saved, the next
        object created by the bundle's `create`, its record pushed, and the
        cursor restored. */
    method CreateObject(json: Json, size: nat, funcs: LayoutFuncs)
      requires Valid() && json.doc.Valid() && 0 <= json.index as int <= |json.doc.tokens|
      requires Created(EnvOf(json.doc), json.index as nat, size, funcs, State()).Some?
      modifies this, layers, ids, json
      ensures Valid() && root == old(root) && json.index == old(json.index)
      ensures Created(EnvOf(json.doc), json.index as nat, size, funcs, old(State())) == Some(State())
      decreases |json.doc.tokens| - json.index as int, 4, 1
    {
      var index := json.GetIndex();
      var obj := next;
      next := next + 1;
      Create(json, size, funcs.create, obj);
      layers.Push(LayerData(funcs, obj));
      json.SetIndex(index);
    }

    /** The call through the bundle's `create` pointer for the object `obj`,
        entered just past an object token of `size` pairs. */
    method Create(json: Json, size: nat, create: CreateFunc, obj: Node)
      requires Valid() && json.doc.Valid() && 0 <= json.index as int <= |json.doc.tokens|
      requires FactoryCreate(EnvOf(json.doc), create, json.index as nat, size, obj, State()).Some?
      modifies this, layers, ids, json
      ensures Valid() && root == old(root)
      ensures old(json.index) <= json.index as int <= |json.doc.tokens|
      ensures FactoryCreate(EnvOf(json.doc), create, old(json.index) as nat, size, obj, old(State())) == Some((json.index as nat, State()))
      decreases |json.doc.tokens| - json.index as int, 4, 0
    {
      match create
      case DefaultCreate =>
        DefaultLayerCreate(json, size, obj);
      case TextCreate =>
        var es := StandardTypes.TextLayerCreate(json, size, obj, fonts);
        effects := effects + es;
      case BitmapCreate =>
        var es := StandardTypes.BitmapLayerCreate(json, size, obj, resources);
        effects := effects + es;
      case ExternalCreate(tag) =>
        var (p, es) := externals(tag, json.doc, json.index as nat, size, obj).value;
        json.SetIndex(p as int16);
        effects := effects + es;
    }

    /** prv_default_create for the plain layer `obj`, entered just past an
        object token of `size` pairs. */
    method DefaultLayerCreate(json: Json, size: nat, obj: Node)
      requires Valid() && json.doc.Valid() && 0 <= json.index as int <= |json.doc.tokens|
      requires DefaultPairs(EnvOf(json.doc), json.index as nat, size, obj, State().(effects := effects + DefaultInit(obj))).Some?
      modifies this, layers, ids, json
      ensures Valid() && root == old(root)
      ensures old(json.index) <= json.index as int <= |json.doc.tokens|
      ensures DefaultPairs(EnvOf(json.doc), old(json.index) as nat, size, obj, old(State()).(effects := old(effects) + DefaultInit(obj)))
           == Some((json.index as nat, State()))
      decreases |json.doc.tokens| - json.index as int, 3, 0
    {
      var o := Object(obj);
      effects := effects + [Effect(o, NewLayer), Effect(o, SetColor(GColorClear)), Effect(o, SetUpdateProc)];
      ghost var env := EnvOf(json.doc);
      ghost var goal := DefaultPairs(env, json.index as nat, size, obj, State());
      for i := 0 to size
        invariant Valid() && root == old(root)
        invariant old(json.index) <= json.index as int <= |json.doc.tokens|
        invariant DefaultPairs(env, json.index as nat, size - i, obj, State()) == goal
      {
        DefaultPairsFirst(env, json.index as nat, size - i, obj, State());
        DefaultPairStep(json, obj);
      }
    }

    /** One pair of prv_default_create's loop. */
    method DefaultPairStep(json: Json, obj: Node)
      requires Valid() && json.doc.Valid() && 0 <= json.index as int < |json.doc.tokens|
      requires DefaultOne(EnvOf(json.doc), json.index as nat, obj, State()).Some?
      modifies this, layers, ids, json
      ensures Valid() && root == old(root)
      ensures old(json.index) < json.index as int <= |json.doc.tokens|
      ensures DefaultOne(EnvOf(json.doc), old(json.index) as nat, obj, old(State())) == Some((json.index as nat, State()))
      decreases |json.doc.tokens| - json.index as int, 2, 0
    {
      var doc := json.doc;
      var key := json.Next();
      if TokenEq(doc, key, "background") {
        var color := json.NextGColor();
        effects := effects + [Effect(Object(obj), SetColor(color))];
      } else if TokenEq(doc, key, "layers") {
        var tok := json.Next();
        ChildrenLoop(json, tok.size, obj);
      } else if TokenEq(doc, key, "clips") {
        var clips := json.NextBool();
        effects := effects + [Effect(Object(obj), SetClips(clips))];
      } else {
        json.SkipTree();
      }
    }

    /** The inner loop over a "layers" array of `n` elements: each element is
        built, and the non-NULL ones are added as children of `parent`. */
    method ChildrenLoop(json: Json, n: nat, parent: Node)
      requires Valid() && json.doc.Valid() && 0 <= json.index as int <= |json.doc.tokens|
      requires LayersLoop(EnvOf(json.doc), json.index as nat, n, parent, State()).Some?
      modifies this, layers, ids, json
      ensures Valid() && root == old(root)
      ensures old(json.index) <= json.index as int <= |json.doc.tokens|
      ensures LayersLoop(EnvOf(json.doc), old(json.index) as nat, n, parent, old(State())) == Some((json.index as nat, State()))
      decreases |json.doc.tokens| - json.index as int, 6, 0
    {
      for j := 0 to n
        invariant Valid() && root == old(root)
        invariant old(json.index) <= json.index as int <= |json.doc.tokens|
        invariant LayersLoop(EnvOf(json.doc), json.index as nat, n - j, parent, State())
               == LayersLoop(EnvOf(json.doc), old(json.index) as nat, n, parent, old(State()))
      {
        ChildStep(json, parent);
      }
    }

    /** One element of the inner loop. */
    method ChildStep(json: Json, parent: Node)
      requires Valid() && json.doc.Valid() && 0 <= json.index as int <= |json.doc.tokens|
      requires LayersOne(EnvOf(json.doc), json.index as nat, parent, State()).Some?
      modifies this, layers, ids, json
      ensures Valid() && root == old(root)
      ensures old(json.index) < json.index as int <= |json.doc.tokens|
      ensures LayersOne(EnvOf(json.doc), old(json.index) as nat, parent, old(State())) == Some((json.index as nat, State()))
      decreases |json.doc.tokens| - json.index as int, 5, 1
    {
      var child := CreateLayer(json);
      if child.Some? {
        effects := effects + [Effect(Object(parent), AddChild(child.value))];
      }
    }

    /** layout_parse, given the loaded document. */
    method Parse(doc: Doc)
      requires Valid() && doc.Valid()
      requires ParseSpec(EnvOf(doc), root, State()).Some?
      modifies this, layers, ids
      ensures Valid()
      ensures ParseSpec(EnvOf(doc), old(root), old(State())) == Some((root, State()))
    {
      var json := new Json(doc);
      if !json.HasNext() {
        return;
      }
      var index := json.GetIndex();
      var token := json.Next();
      if token.kind != JsonObject {
        return;
      }
      json.SetIndex(index);
      root := CreateLayer(json);
      var frame := FrameOf(effects, root.value);
      if frame == GRectZero {
        effects := effects + [Effect(root.value, SetFrame(DisplayBounds))];
      }
    }

    /** layout_destroy in the order of `DestroyAccesses`: every record is
        popped and its object destroyed by its own bundle until the stack
        is empty, and only then are the registry and the ids released. */
    method Destroy()
      requires Valid()
      modifies this, layers, ids, types
      ensures effects == old(effects) + DestroyAll(old(layers.Contents()))
      ensures layers.Contents() == [] && ids.entries == [] && types.entries == [] && root.None?
    {
      ghost var all := layers.Contents();
      ghost var pending := all;
      var data := layers.Pop();
      while data.Some?
        invariant layers.Valid() && root == old(root)
        invariant data.Some? ==> pending != [] && data.value == pending[0] && layers.Contents() == pending[1..]
        invariant data.None? ==> pending == [] && layers.Contents() == []
        invariant effects + DestroyAll(pending) == old(effects) + DestroyAll(all)
        decreases |pending|
      {
        effects := effects + [DestroyEffect(data.value.funcs.destroy, data.value.obj)];
        pending := pending[1..];
        data := layers.Pop();
      }
      types.Destroy();
      ids.Destroy();
      layers.Destroy();
      root := None;
    }

    /** layout_get_root_layer. */
    method GetRootLayer() returns (r: Option<Ref>)
      ensures r == root
    {
      r := root;
    }

    /** layout_find_by_id: the object recorded with the earliest entry for
        `id`, as a handle on the object itself; None (NULL) when no entry
        has that id. */
    method FindById(id: string) returns (r: Option<Ref>)
      ensures r.None? <==> forall q :: 0 <= q < |ids.entries| ==> ids.entries[q].0 != id
      ensures r.Some? ==> r.value.Object? && exists q :: 0 <= q < |ids.entries| && ids.entries[q] == (id, r.value.node)
                                                          && forall p :: 0 <= p < q ==> ids.entries[p].0 != id
    {
      var o := ids.Get(id);
      r := if o.Some? then Some(Object(o.value)) else None;
    }
  }
}
