/**
  The older single-pass tree builder of src/c/layout.c.

  `json_layer` creates a plain layer for an object token and pushes it on the
  layout's stack at once, before reading the object's pairs; it then handles
  "frame", "background", "layers", "clips" and "id" inline, building the
  "layers" children by calling itself. A key it does not know consumes only
  the key token: its value is then read as the next key.

  As in the registry-driven builder, the building is specified by functions
  over a `Build` value and the class's methods are proved to agree with them.
 */
module Layout {
  import opened Wrappers
  import opened Pebble
  import opened JsonStream
  import Dict
  import Stack

  /** What building changes: the next fresh layer, the stack of layers (top
      first), the ids list and the SDK calls made so far. */
  datatype Build = Build(next: Node, layers: seq<Node>, ids: seq<(string, Node)>, effects: seq<Effect>)

  /** The layers lo .. hi-1, newest first: how they sit on the stack when
      they were pushed in the order they were created. */
  function Desc(lo: nat, hi: nat): (r: seq<Node>)
    requires lo <= hi
    ensures |r| == hi - lo
    decreases hi - lo
  {
    if lo == hi then [] else [hi - 1] + Desc(lo, hi - 1)
  }

  lemma {:induction false} DescAt(lo: nat, hi: nat, q: nat)
    requires lo <= hi && q < hi - lo
    ensures Desc(lo, hi)[q] == hi - 1 - q
    decreases hi - lo
  {
    if q > 0 {
      DescAt(lo, hi - 1, q - 1);
    }
  }

  lemma {:induction false} DescSplit(lo: nat, mid: nat, hi: nat)
    requires lo <= mid <= hi
    ensures Desc(mid, hi) + Desc(lo, mid) == Desc(lo, hi)
    decreases hi - mid
  {
    if mid < hi {
      DescSplit(lo, mid, hi - 1);
      assert [hi - 1] + Desc(mid, hi - 1) + Desc(lo, mid) == [hi - 1] + (Desc(mid, hi - 1) + Desc(lo, mid));
    }
  }

  /** `r` is `s` after building: every layer created was pushed when it was
      created, so the stack gained exactly the new layers, newest on top, and
      ids and calls were only appended to. */
  predicate Grows(s: Build, r: Build)
  {
    && s.next <= r.next
    && r.layers == Desc(s.next, r.next) + s.layers
    && s.ids <= r.ids
    && s.effects <= r.effects
  }

  lemma GrowsByCalls(s: Build, r: Build)
    requires r.next == s.next && r.layers == s.layers && s.ids <= r.ids && s.effects <= r.effects
    ensures Grows(s, r)
  {
  }

  /** Calls made before a build that grows. */
  lemma GrowsAfterCalls(s: Build, s1: Build, r: Build)
    requires s1.next == s.next && s1.layers == s.layers && s.ids <= s1.ids && s.effects <= s1.effects
    requires Grows(s1, r)
    ensures Grows(s, r)
  {
  }

  lemma GrowsTrans(a: Build, b: Build, c: Build)
    requires Grows(a, b) && Grows(b, c)
    ensures Grows(a, c)
  {
    DescSplit(a.next, b.next, c.next);
    assert c.layers == Desc(b.next, c.next) + (Desc(a.next, b.next) + a.layers);
  }

  /** The calls json_layer makes for a new layer before reading any key: the
      layer, its clear fill colour and its update procedure. */
  function LayerInit(obj: Node): seq<Effect>
  {
    [Effect(Object(obj), NewLayer), Effect(Object(obj), SetColor(GColorClear)), Effect(Object(obj), SetUpdateProc)]
  }

  /** json_layer at token `i`: the position after it, the layer returned
      (None for NULL) and the build after it; None when it would read past
      the last token. */
  function LayerSpec(doc: Doc, i: nat, s: Build): (r: Option<(nat, Option<Node>, Build)>)
    requires doc.Valid() && i <= |doc.tokens|
    ensures r.Some? ==> i < r.value.0 <= |doc.tokens|
    ensures r.Some? && doc.tokens[i].kind != JsonObject ==> r.value == (i + 1, None, s)
    ensures r.Some? && doc.tokens[i].kind == JsonObject ==> r.value.1 == Some(s.next)
    decreases |doc.tokens| - i, 2, 0
  {
    var toks := doc.tokens;
    if i == |toks| then None
    else if toks[i].kind != JsonObject then Some((i + 1, None, s))
    else
      var obj := s.next;
      match LayerPairs(doc, i + 1, toks[i].size, obj, Build(obj + 1, [obj] + s.layers, s.ids, s.effects + LayerInit(obj)))
      case None => None
      case Some((p, s1)) => Some((p, Some(obj), s1))
  }

  /** `k` pairs of json_layer's loop from `j`, for the layer `obj`:
      "layers" builds each element and adds the non-NULL ones as children;
      every other key is handled by ScalarPair. */
  function LayerPairs(doc: Doc, j: nat, k: nat, obj: Node, s: Build): (r: Option<(nat, Build)>)
    requires doc.Valid() && j <= |doc.tokens|
    ensures r.Some? ==> j <= r.value.0 <= |doc.tokens|
    decreases |doc.tokens| - j, 1, k
  {
    var toks := doc.tokens;
    if k == 0 then Some((j, s))
    else if j == |toks| then None
    else if TokenEq(doc, toks[j], "layers") then
      if j + 1 < |toks| then
        match ChildrenSpec(doc, j + 2, toks[j + 1].size, obj, s)
        case None => None
        case Some((p, s1)) => LayerPairs(doc, p, k - 1, obj, s1)
      else None
    else
      match ScalarPair(doc, j, obj, s)
      case None => None
      case Some((p, s1)) => LayerPairs(doc, p, k - 1, obj, s1)
  }

  /** One pair whose key at `j` is not "layers": "frame" sets the frame read
      as json_grect reads it, "background" the fill colour, "clips"
      clipping, "id" records the layer itself under the id; any other key
      consumes only itself. */
  function ScalarPair(doc: Doc, j: nat, obj: Node, s: Build): (r: Option<(nat, Build)>)
    requires doc.Valid() && j < |doc.tokens|
    ensures r.Some? ==> j < r.value.0 <= |doc.tokens|
    ensures r.Some? ==> r.value.1.next == s.next && r.value.1.layers == s.layers
    ensures r.Some? ==> s.ids <= r.value.1.ids && s.effects <= r.value.1.effects
  {
    var toks := doc.tokens;
    if TokenEq(doc, toks[j], "frame") then
      match GRectAt(doc, j + 1)
      case None => None
      case Some((frame, p)) => Some((p, s.(effects := s.effects + [Effect(Object(obj), SetFrame(frame))])))
    else if TokenEq(doc, toks[j], "background") then
      if j + 1 < |toks| then
        Some((j + 2, s.(effects := s.effects + [Effect(Object(obj), SetColor(ColorFromText(doc.Text(toks[j + 1]))))])))
      else None
    else if TokenEq(doc, toks[j], "clips") then
      if j + 1 < |toks| then
        Some((j + 2, s.(effects := s.effects + [Effect(Object(obj), SetClips(BoolAt(doc, j + 1)))])))
      else None
    else if TokenEq(doc, toks[j], "id") then
      if j + 1 < |toks| then
        Some((j + 2, s.(ids := s.ids + [(doc.Text(toks[j + 1]), obj)])))
      else None
    else
      Some((j + 1, s))
  }

  /** The `n` elements of a "layers" array from `j`, each built by json_layer
      and, when not NULL, added as a child of `parent`. */
  function ChildrenSpec(doc: Doc, j: nat, n: nat, parent: Node, s: Build): (r: Option<(nat, Build)>)
    requires doc.Valid() && j <= |doc.tokens|
    ensures r.Some? ==> j <= r.value.0 <= |doc.tokens|
    decreases |doc.tokens| - j, 3, n
  {
    if n == 0 then Some((j, s))
    else
      match LayerSpec(doc, j, s)
      case None => None
      case Some((p, child, s1)) =>
        var s2 := if child.Some? then s1.(effects := s1.effects + [Effect(Object(parent), AddChild(Object(child.value)))]) else s1;
        ChildrenSpec(doc, p, n - 1, parent, s2)
  }

  /** layout_create_with_resource, given the loaded document: a layout with
      no root (never assigned) unless the first token is an object; then the
      tree is built from it, and a root whose frame is still GRectZero gets
      the display bounds. */
  function CreateSpec(doc: Doc): Option<(Option<Node>, Build)>
    requires doc.Valid()
  {
    var toks := doc.tokens;
    var s := Build(0, [], [], []);
    if toks == [] || toks[0].kind != JsonObject then Some((None, s))
    else
      match LayerSpec(doc, 0, s)
      case None => None
      case Some((_, r, s1)) => Some((r, s1.(effects := WithRootFrame(s1.effects, Object(r.value)))))
  }

  /** The calls layout_destroy's pop loop makes for the stack `ls`, top
      first. */
  function DestroyAll(ls: seq<Node>): seq<Effect>
  {
    if ls == [] then [] else [Effect(Object(ls[0]), LayerDestroy)] + DestroyAll(ls[1..])
  }

  // ---------------------------------------------------------------------
  // Properties

  /** json_layer pushes each layer as it creates it: the stack gains exactly
      the layers created, newest on top. As the layer of an object is created
      before any of its children, it lies below all of them: the stack is in
      pre-order from the bottom. */
  lemma {:induction false} LayerSpecGrows(doc: Doc, i: nat, s: Build)
    requires doc.Valid() && i <= |doc.tokens| && LayerSpec(doc, i, s).Some?
    ensures Grows(s, LayerSpec(doc, i, s).value.2)
    ensures doc.tokens[i].kind == JsonObject ==> s.next < LayerSpec(doc, i, s).value.2.next
    decreases |doc.tokens| - i, 2, 0
  {
    var toks := doc.tokens;
    if toks[i].kind != JsonObject {
      GrowsByCalls(s, s);
    } else {
      var obj := s.next;
      var s1 := Build(obj + 1, [obj] + s.layers, s.ids, s.effects + LayerInit(obj));
      assert Grows(s, s1) by {
        assert Desc(s.next, s1.next) == [obj];
      }
      LayerPairsGrows(doc, i + 1, toks[i].size, obj, s1);
      GrowsTrans(s, s1, LayerSpec(doc, i, s).value.2);
    }
  }

  lemma {:induction false} LayerPairsGrows(doc: Doc, j: nat, k: nat, obj: Node, s: Build)
    requires doc.Valid() && j <= |doc.tokens| && LayerPairs(doc, j, k, obj, s).Some?
    ensures Grows(s, LayerPairs(doc, j, k, obj, s).value.1)
    decreases |doc.tokens| - j, 1, k
  {
    var toks := doc.tokens;
    if k == 0 {
      GrowsByCalls(s, s);
    } else if TokenEq(doc, toks[j], "layers") {
      var (p, s1) := ChildrenSpec(doc, j + 2, toks[j + 1].size, obj, s).value;
      ChildrenSpecGrows(doc, j + 2, toks[j + 1].size, obj, s);
      LayerPairsGrows(doc, p, k - 1, obj, s1);
      GrowsTrans(s, s1, LayerPairs(doc, j, k, obj, s).value.1);
    } else {
      var (p, s1) := ScalarPair(doc, j, obj, s).value;
      LayerPairsGrows(doc, p, k - 1, obj, s1);
      GrowsAfterCalls(s, s1, LayerPairs(doc, j, k, obj, s).value.1);
    }
  }

  lemma {:induction false} ChildrenSpecGrows(doc: Doc, j: nat, n: nat, parent: Node, s: Build)
    requires doc.Valid() && j <= |doc.tokens| && ChildrenSpec(doc, j, n, parent, s).Some?
    ensures Grows(s, ChildrenSpec(doc, j, n, parent, s).value.1)
    decreases |doc.tokens| - j, 3, n
  {
    if n == 0 {
      GrowsByCalls(s, s);
    } else {
      var (p, child, s1) := LayerSpec(doc, j, s).value;
      var s2 := if child.Some? then s1.(effects := s1.effects + [Effect(Object(parent), AddChild(Object(child.value)))]) else s1;
      LayerSpecGrows(doc, j, s);
      ChildrenSpecGrows(doc, p, n - 1, parent, s2);
      GrowsByCalls(s1, s2);
      GrowsTrans(s, s1, s2);
      GrowsTrans(s, s2, ChildrenSpec(doc, j, n, parent, s).value.1);
    }
  }

  /** After layout_create_with_resource the stack holds every layer created,
      the first one (the root) at the bottom and the last one on top. */
  lemma CreateStacksAllLayers(doc: Doc)
    requires doc.Valid() && CreateSpec(doc).Some?
    ensures CreateSpec(doc).value.1.layers == Desc(0, CreateSpec(doc).value.1.next)
    ensures CreateSpec(doc).value.0.Some? ==>
      && CreateSpec(doc).value.0.value == 0
      && |CreateSpec(doc).value.1.layers| > 0
      && CreateSpec(doc).value.1.layers[|CreateSpec(doc).value.1.layers| - 1] == 0
  {
    var toks := doc.tokens;
    if toks != [] && toks[0].kind == JsonObject {
      LayerSpecGrows(doc, 0, Build(0, [], [], []));
      var r := CreateSpec(doc).value.1;
      DescAt(0, r.next, r.next - 1);
    }
  }

  /** The q-th destruction is that of the q-th layer from the top. */
  lemma {:induction false} DestroyAllInOrder(ls: seq<Node>)
    ensures |DestroyAll(ls)| == |ls|
    ensures forall q :: 0 <= q < |ls| ==> DestroyAll(ls)[q] == Effect(Object(ls[q]), LayerDestroy)
  {
    if ls != [] {
      DestroyAllInOrder(ls[1..]);
      forall q | 1 <= q < |ls| ensures DestroyAll(ls)[q] == Effect(Object(ls[q]), LayerDestroy) {
        assert ls[1..][q - 1] == ls[q];
      }
    }
  }

  /** Tearing down the layout destroys every layer created exactly once, in
      the reverse of the order they were created in. */
  lemma DestroyReversesCreation(doc: Doc)
    requires doc.Valid() && CreateSpec(doc).Some?
    ensures var r := CreateSpec(doc).value.1;
      && |DestroyAll(r.layers)| == r.next
      && forall q :: 0 <= q < r.next ==> DestroyAll(r.layers)[q] == Effect(Object(r.next - 1 - q), LayerDestroy)
  {
    var r := CreateSpec(doc).value.1;
    CreateStacksAllLayers(doc);
    DestroyAllInOrder(r.layers);
    forall q | 0 <= q < r.next ensures DestroyAll(r.layers)[q] == Effect(Object(r.next - 1 - q), LayerDestroy) {
      DescAt(0, r.next, q);
    }
  }

  /** A root built from an object never keeps a GRectZero frame: it keeps
      the frame its pairs gave it, or gets the display bounds when that was
      GRectZero. */
  lemma RootFrameNeverZero(doc: Doc)
    requires doc.Valid() && |doc.tokens| > 0 && doc.tokens[0].kind == JsonObject && CreateSpec(doc).Some?
    ensures CreateSpec(doc).value.0.Some?
    ensures var (_, r, s1) := LayerSpec(doc, 0, Build(0, [], [], [])).value;
      && CreateSpec(doc).value.0 == r
      && FrameOf(CreateSpec(doc).value.1.effects, Object(r.value))
         == if FrameOf(s1.effects, Object(r.value)) == GRectZero then DisplayBounds else FrameOf(s1.effects, Object(r.value))
    ensures FrameOf(CreateSpec(doc).value.1.effects, Object(CreateSpec(doc).value.0.value)) != GRectZero
  {
    var (_, r, s1) := LayerSpec(doc, 0, Build(0, [], [], [])).value;
    WithRootFrameNonZero(s1.effects, Object(r.value));
  }

  /** A key json_layer acts on. */
  predicate LayerKey(doc: Doc, tok: JsonToken)
    requires doc.InBuf(tok)
  {
    || TokenEq(doc, tok, "frame")
    || TokenEq(doc, tok, "background")
    || TokenEq(doc, tok, "clips")
    || TokenEq(doc, tok, "id")
    || TokenEq(doc, tok, "layers")
  }

  /** A key json_layer does not know consumes only itself and changes
      nothing. */
  lemma UnknownKeyConsumesItself(doc: Doc, j: nat, obj: Node, s: Build)
    requires doc.Valid() && j < |doc.tokens| && !LayerKey(doc, doc.tokens[j])
    ensures ScalarPair(doc, j, obj, s) == Some((j + 1, s))
  {
  }

  /** `k` pairs whose keys, as json_layer reads them one token at a time,
      are all unknown take `k` tokens and change nothing. */
  lemma {:induction false} UnknownKeysConsumeThemselves(doc: Doc, j: nat, k: nat, obj: Node, s: Build)
    requires doc.Valid() && j + k <= |doc.tokens|
    requires forall q :: j <= q < j + k ==> !LayerKey(doc, doc.tokens[q])
    ensures LayerPairs(doc, j, k, obj, s) == Some((j + k, s))
    decreases k
  {
    if k > 0 {
      UnknownKeyConsumesItself(doc, j, obj, s);
      UnknownKeysConsumeThemselves(doc, j + 1, k - 1, obj, s);
    }
  }

  /** Each member of a well-shaped object takes at least two tokens: its key
      and its value. */
  lemma {:induction false} MembersSpan(t: Tree, m: nat)
    requires WellShaped(t) && t.Branch? && t.tok.kind == JsonObject && m <= |t.kids|
    ensures |FlattenKids(t, m)| >= 2 * (|t.kids| - m)
    decreases |t.kids| - m
  {
    if m < |t.kids| {
      assert KidShaped(t, m);
      var kid := t.kids[m];
      assert FlattenKids(kid, 0) == Flatten(kid.kids[0]) + FlattenKids(kid, 1);
      MembersSpan(t, m + 1);
    }
  }

  /** On a well-shaped object none of whose keys json_layer knows, it takes
      one token per pair and stops inside the object, short of where
      json_skip_tree lands: each value is left to be read as a key or an
      element by whatever comes next. */
  lemma UnknownKeyValueNotSkipped(doc: Doc, t: Tree, i: nat, s: Build)
    requires doc.Valid() && WellShaped(t) && t.tok.kind == JsonObject && |t.kids| > 0
    requires i + |Flatten(t)| <= |doc.tokens| && doc.tokens[i..i + |Flatten(t)|] == Flatten(t)
    requires forall q :: i + 1 <= q <= i + |t.kids| && q < |doc.tokens| ==> !LayerKey(doc, doc.tokens[q])
    ensures SubtreeEnd(doc.tokens, i) == Some(i + |Flatten(t)|)
    ensures LayerSpec(doc, i, s).Some?
    ensures LayerSpec(doc, i, s).value.0 == i + 1 + |t.kids| < i + |Flatten(t)|
    ensures LayerSpec(doc, i, s).value.2 == Build(s.next + 1, [s.next] + s.layers, s.ids, s.effects + LayerInit(s.next))
  {
    SubtreeEndOfTree(t, doc.tokens, i);
    assert doc.tokens[i] == Flatten(t)[0];
    MembersSpan(t, 0);
    var obj := s.next;
    UnknownKeysConsumeThemselves(doc, i + 1, |t.kids|, obj, Build(obj + 1, [obj] + s.layers, s.ids, s.effects + LayerInit(obj)));
  }

  // ---------------------------------------------------------------------
  // The layout

  class Layout {
    /** The root layer; None where the C code leaves it unassigned. */
    var root: Option<Node>
    /** The stack of every layer created. */
    const layers: Stack.Stack<Node>
    /** Layer by id, in the order the ids were read. */
    const ids: Dict.Dict<Node>
    /** The SDK calls made so far, oldest first. */
    var effects: seq<Effect>
    /** The layer the SDK will create next. */
    var next: Node

    ghost predicate Valid()
      reads layers
    {
      layers.Valid()
    }

    function State(): Build
      reads this, layers, ids
    {
      Build(next, layers.Contents(), ids.entries, effects)
    }

    /** layout_create_with_resource, given the loaded document; json_mark
        and json_reset save and restore the cursor. */
    constructor CreateWithResource(doc: Doc)
      requires doc.Valid() && CreateSpec(doc).Some?
      ensures Valid()
      ensures CreateSpec(doc) == Some((root, State()))
      ensures fresh(layers) && fresh(ids)
    {
      root := None;
      layers := new Stack.Stack();
      ids := new Dict.Dict();
      effects := [];
      next := 0;
      new;
      var json := new Json(doc);
      if !json.HasNext() {
        return;
      }
      var mark := json.GetIndex();
      var token := json.Next();
      if token.kind != JsonObject {
        return;
      }
      json.SetIndex(mark);
      root := JsonLayer(json);
      var frame := FrameOf(effects, Object(root.value));
      if frame == GRectZero {
        effects := effects + [Effect(Object(root.value), SetFrame(DisplayBounds))];
      }
    }

    /** json_grect, given the token json_next just returned: GRectZero and
        nothing more consumed unless it is an array; then four ints, each
        truncated to int16_t. Together with that json_next it is exactly
        json_next_grect. */
    static method JsonGRect(json: Json, tok: JsonToken) returns (r: GRect)
      requires json.doc.Valid() && 0 < json.index as int <= |json.doc.tokens| && tok == json.doc.tokens[json.index - 1]
      requires tok.kind == JsonArray ==> json.index as int + 4 <= |json.doc.tokens|
      modifies json
      ensures tok.kind != JsonArray ==> r == GRectZero && json.index == old(json.index)
      ensures tok.kind == JsonArray ==> r == RectAt(json.doc, old(json.index) as nat) && json.index == old(json.index) + 4
      ensures GRectAt(json.doc, old(json.index) - 1) == Some((r, json.index as nat))
    {
      if tok.kind != JsonArray {
        return GRectZero;
      }
      ghost var start: nat := json.index as nat;
      var values: seq<int16> := [];
      for k := 0 to 4
        invariant json.index as int == start + k
        invariant |values| == k
        invariant forall q :: 0 <= q < k ==> values[q] == Int16(IntAt(json.doc, start + q))
      {
        var v := json.NextInt();
        values := values + [Int16(v)];
      }
      r := GRect(values[0], values[1], values[2], values[3]);
      assert r == RectAt(json.doc, start);
    }

    /** json_layer: NULL for a token that is not an object, otherwise the new
        layer, pushed before its pairs are read. */
    method JsonLayer(json: Json) returns (r: Option<Node>)
      requires Valid() && json.doc.Valid() && 0 <= json.index as int <= |json.doc.tokens|
      requires LayerSpec(json.doc, json.index as nat, State()).Some?
      modifies this, layers, ids, json
      ensures Valid() && root == old(root)
      ensures old(json.index) < json.index as int <= |json.doc.tokens|
      ensures LayerSpec(json.doc, old(json.index) as nat, old(State())) == Some((json.index as nat, r, State()))
      decreases |json.doc.tokens| - json.index as int, 2, 0
    {
      var tok := json.Next();
      if tok.kind != JsonObject {
        return None;
      }
      var obj := next;
      next := next + 1;
      var o := Object(obj);
      effects := effects + [Effect(o, NewLayer), Effect(o, SetColor(GColorClear)), Effect(o, SetUpdateProc)];
      layers.Push(obj);
      var size := tok.size;
      for i := 0 to size
        invariant Valid() && root == old(root)
        invariant old(json.index) < json.index as int <= |json.doc.tokens|
        invariant LayerPairs(json.doc, json.index as nat, size - i, obj, State())
               == LayerPairs(json.doc, old(json.index) as nat + 1, size, obj, Build(obj + 1, [obj] + old(layers.Contents()), old(ids.entries), old(effects) + LayerInit(obj)))
      {
        PairStep(json, size - i, obj);
      }
      r := Some(obj);
    }

    /** One pair of json_layer's loop for the layer `obj`. */
    method PairStep(json: Json, k: nat, obj: Node)
      requires Valid() && json.doc.Valid() && 0 <= json.index as int <= |json.doc.tokens| && k > 0
      requires LayerPairs(json.doc, json.index as nat, k, obj, State()).Some?
      modifies this, layers, ids, json
      ensures Valid() && root == old(root)
      ensures old(json.index) < json.index as int <= |json.doc.tokens|
      ensures LayerPairs(json.doc, old(json.index) as nat, k, obj, old(State()))
           == LayerPairs(json.doc, json.index as nat, k - 1, obj, State())
      decreases |json.doc.tokens| - json.index as int, 1, 0
    {
      var doc := json.doc;
      var key := json.Next();
      if TokenEq(doc, key, "layers") {
        var tok := json.Next();
        ChildrenLoop(json, tok.size, obj);
      } else {
        ScalarValue(json, key, obj);
      }
    }

    /** The value of a pair whose key `key` was just read, for every key but
        "layers": no layer is built. */
    method ScalarValue(json: Json, key: JsonToken, obj: Node)
      requires Valid() && json.doc.Valid() && 0 < json.index as int <= |json.doc.tokens|
      requires key == json.doc.tokens[json.index - 1]
      requires ScalarPair(json.doc, json.index as nat - 1, obj, State()).Some?
      modifies this, ids, json
      ensures Valid() && root == old(root) && next == old(next)
      ensures old(json.index) <= json.index as int <= |json.doc.tokens|
      ensures ScalarPair(json.doc, old(json.index) as nat - 1, obj, old(State())) == Some((json.index as nat, State()))
    {
      var doc := json.doc;
      if TokenEq(doc, key, "frame") {
        var tok := json.Next();
        var frame := JsonGRect(json, tok);
        effects := effects + [Effect(Object(obj), SetFrame(frame))];
      } else if TokenEq(doc, key, "background") {
        var s := json.NextString();
        var digits := if |s| > 0 && s[0] == '#' then s[1..] else s;
        effects := effects + [Effect(Object(obj), SetColor(FromHex(HexValue(digits))))];
      } else if TokenEq(doc, key, "clips") {
        var clips := json.NextBool();
        effects := effects + [Effect(Object(obj), SetClips(clips))];
      } else if TokenEq(doc, key, "id") {
        var id := json.NextString();
        ids.Put(id, obj);
      }
    }

    /** The inner loop over a "layers" array of `n` elements. */
    method ChildrenLoop(json: Json, n: nat, parent: Node)
      requires Valid() && json.doc.Valid() && 0 <= json.index as int <= |json.doc.tokens|
      requires ChildrenSpec(json.doc, json.index as nat, n, parent, State()).Some?
      modifies this, layers, ids, json
      ensures Valid() && root == old(root)
      ensures old(json.index) <= json.index as int <= |json.doc.tokens|
      ensures ChildrenSpec(json.doc, old(json.index) as nat, n, parent, old(State())) == Some((json.index as nat, State()))
      decreases |json.doc.tokens| - json.index as int, 3, 0
    {
      for j := 0 to n
        invariant Valid() && root == old(root)
        invariant old(json.index) <= json.index as int <= |json.doc.tokens|
        invariant ChildrenSpec(json.doc, json.index as nat, n - j, parent, State())
               == ChildrenSpec(json.doc, old(json.index) as nat, n, parent, old(State()))
      {
        var child := JsonLayer(json);
        if child.Some? {
          effects := effects + [Effect(Object(parent), AddChild(Object(child.value)))];
        }
      }
    }

    /** layout_destroy: the ids are released, then every layer is popped
        and destroyed, until the stack is empty. */
    method Destroy()
      requires Valid()
      modifies this, layers, ids
      ensures effects == old(effects) + DestroyAll(old(layers.Contents()))
      ensures layers.Contents() == [] && ids.entries == [] && root.None?
    {
      ids.Destroy();
      ghost var all := layers.Contents();
      var layer := layers.Pop();
      while layer.Some?
        invariant layers.Valid() && ids.entries == []
        invariant layer.None? ==> layers.Contents() == [] && effects == old(effects) + DestroyAll(all)
        invariant layer.Some? ==> effects + DestroyAll([layer.value] + layers.Contents()) == old(effects) + DestroyAll(all)
        decreases |layers.Contents()| + (if layer.Some? then 1 else 0)
      {
        effects := effects + [Effect(Object(layer.value), LayerDestroy)];
        layer := layers.Pop();
      }
      layers.Destroy();
      root := None;
    }

    /** layout_find_by_id: the layer of the earliest entry for `id`, or None
        (NULL). */
    method FindById(id: string) returns (r: Option<Node>)
      ensures r.None? <==> forall q :: 0 <= q < |ids.entries| ==> ids.entries[q].0 != id
      ensures r.Some? ==> exists q :: 0 <= q < |ids.entries| && ids.entries[q] == (id, r.value)
                                      && forall p :: 0 <= p < q ==> ids.entries[p].0 != id
    {
      r := ids.Get(id);
    }
  }
}
