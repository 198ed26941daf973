/**
  The two standard factories of src/c/standard-types.c, for `TextLayer` and
  `BitmapLayer` objects. Each `create` scans the `size` key/value pairs of the
  object it is given: a recognised key reads exactly one value token and
  records the SDK call it makes; any other key has its value skipped whole.
 */
module StandardTypes {
  import opened Wrappers
  import opened Pebble
  import opened Factory
  import opened JsonStream
  import Dict

  /** The bundles standard_types_add registers. */
  const TextLayerFuncs := LayoutFuncs(TextCreate, TextDestroy, TextGetLayer, TextSetFrame)
  const BitmapLayerFuncs := LayoutFuncs(BitmapCreate, BitmapDestroy, BitmapGetLayer, BitmapSetFrame)

  /** The registrations standard_types_add makes, in order. */
  const StandardTypes: seq<(string, LayoutFuncs)> :=
    [("TextLayer", TextLayerFuncs), ("BitmapLayer", BitmapLayerFuncs)]

  // ---------------------------------------------------------------------
  // Decoding: the names each if/else chain recognises

  /** The text `"alignment"` decoding: Right and Center by name, Left for
      any other token. */
  function TextAlignmentOf(doc: Doc, tok: JsonToken): (a: GTextAlignment)
    requires doc.InBuf(tok)
    ensures a == GTextAlignmentRight <==> Spells(doc, tok, "GTextAlignmentRight")
    ensures a == GTextAlignmentCenter <==> Spells(doc, tok, "GTextAlignmentCenter")
  {
    if TokenEq(doc, tok, "GTextAlignmentRight") then GTextAlignmentRight
    else if TokenEq(doc, tok, "GTextAlignmentCenter") then GTextAlignmentCenter
    else GTextAlignmentLeft
  }

  /** The `"overflow"` decoding: WordWrap and Fill by name, TrailingEllipsis
      for any other token. */
  function OverflowOf(doc: Doc, tok: JsonToken): (m: GTextOverflowMode)
    requires doc.InBuf(tok)
    ensures m == GTextOverflowModeWordWrap <==> Spells(doc, tok, "GTextOverflowModeWordWrap")
    ensures m == GTextOverflowModeFill <==> Spells(doc, tok, "GTextOverflowModeFill")
  {
    if TokenEq(doc, tok, "GTextOverflowModeWordWrap") then GTextOverflowModeWordWrap
    else if TokenEq(doc, tok, "GTextOverflowModeFill") then GTextOverflowModeFill
    else GTextOverflowModeTrailingEllipsis
  }

  /** The bitmap `"alignment"` decoding: seven names; any other token,
      `"GAlignBottom"` and `"GAlignCenter"` included, is GAlignCenter. */
  function AlignOf(doc: Doc, tok: JsonToken): (a: GAlign)
    requires doc.InBuf(tok)
    ensures a == GAlignTopLeft <==> Spells(doc, tok, "GAlignTopLeft")
    ensures a == GAlignTop <==> Spells(doc, tok, "GAlignTop")
    ensures a == GAlignTopRight <==> Spells(doc, tok, "GAlignTopRight")
    ensures a == GAlignLeft <==> Spells(doc, tok, "GAlignLeft")
    ensures a == GAlignRight <==> Spells(doc, tok, "GAlignRight")
    ensures a == GAlignBottomLeft <==> Spells(doc, tok, "GAlignBottomLeft")
    ensures a == GAlignBottomRight <==> Spells(doc, tok, "GAlignBottomRight")
    ensures a != GAlignBottom
  {
    if TokenEq(doc, tok, "GAlignTopLeft") then GAlignTopLeft
    else if TokenEq(doc, tok, "GAlignTop") then GAlignTop
    else if TokenEq(doc, tok, "GAlignTopRight") then GAlignTopRight
    else if TokenEq(doc, tok, "GAlignLeft") then GAlignLeft
    else if TokenEq(doc, tok, "GAlignRight") then GAlignRight
    else if TokenEq(doc, tok, "GAlignBottomLeft") then GAlignBottomLeft
    else if TokenEq(doc, tok, "GAlignBottomRight") then GAlignBottomRight
    else GAlignCenter
  }

  /** The `"compositing"` decoding: five names; any other token is
      GCompOpAssign. */
  function CompOpOf(doc: Doc, tok: JsonToken): (op: GCompOp)
    requires doc.InBuf(tok)
    ensures op == GCompOpAssignInverted <==> Spells(doc, tok, "GCompOpAssignInverted")
    ensures op == GCompOpOr <==> Spells(doc, tok, "GCompOpOr")
    ensures op == GCompOpAnd <==> Spells(doc, tok, "GCompOpAnd")
    ensures op == GCompOpClear <==> Spells(doc, tok, "GCompOpClear")
    ensures op == GCompOpSet <==> Spells(doc, tok, "GCompOpSet")
  {
    if TokenEq(doc, tok, "GCompOpAssignInverted") then GCompOpAssignInverted
    else if TokenEq(doc, tok, "GCompOpOr") then GCompOpOr
    else if TokenEq(doc, tok, "GCompOpAnd") then GCompOpAnd
    else if TokenEq(doc, tok, "GCompOpClear") then GCompOpClear
    else if TokenEq(doc, tok, "GCompOpSet") then GCompOpSet
    else GCompOpAssign
  }

  // ---------------------------------------------------------------------
  // The key scanners

  /** A string token whose text is one of `names`. */
  predicate IsKeyIn(doc: Doc, tok: JsonToken, names: seq<string>)
    requires doc.InBuf(tok)
  {
    tok.kind == JsonString && doc.Text(tok) in names
  }

  const TextKeys := ["text", "color", "background", "alignment", "overflow", "font"]
  const BitmapKeys := ["bitmap", "background", "alignment", "compositing"]

  /** The calls the text factory makes on creating its object, before any
      key is read. */
  function TextInit(obj: Node): seq<Effect>
  {
    [Effect(Object(obj), NewTextLayer), Effect(Object(obj), SetBackgroundColor(GColorClear))]
  }

  function BitmapInit(obj: Node): seq<Effect>
  {
    [Effect(Object(obj), NewBitmapLayer)]
  }

  /** The call a recognised text key makes with its value token. A font is
      set only when `fonts` knows the name. */
  function TextSetter(doc: Doc, fonts: string -> Option<Font>, obj: Node, key: JsonToken, value: JsonToken): seq<Effect>
    requires doc.InBuf(key) && doc.InBuf(value)
  {
    var o := Object(obj);
    if TokenEq(doc, key, "text") then [Effect(o, SetText(doc.Text(value)))]
    else if TokenEq(doc, key, "color") then [Effect(o, SetTextColor(ColorFromText(doc.Text(value))))]
    else if TokenEq(doc, key, "background") then [Effect(o, SetBackgroundColor(ColorFromText(doc.Text(value))))]
    else if TokenEq(doc, key, "alignment") then [Effect(o, SetTextAlignment(TextAlignmentOf(doc, value)))]
    else if TokenEq(doc, key, "overflow") then [Effect(o, SetOverflowMode(OverflowOf(doc, value)))]
    else
      match fonts(doc.Text(value))
      case Some(f) => [Effect(o, SetFont(f))]
      case None => []
  }

  /** The call a recognised bitmap key makes with its value token. A bitmap
      is set only when `resources` knows the name. */
  function BitmapSetter(doc: Doc, resources: string -> Option<ResourceId>, obj: Node, key: JsonToken, value: JsonToken): seq<Effect>
    requires doc.InBuf(key) && doc.InBuf(value)
  {
    var o := Object(obj);
    if TokenEq(doc, key, "bitmap") then
      match resources(doc.Text(value))
      case Some(id) => [Effect(o, SetBitmap(id))]
      case None => []
    else if TokenEq(doc, key, "background") then [Effect(o, SetBackgroundColor(ColorFromText(doc.Text(value))))]
    else if TokenEq(doc, key, "alignment") then [Effect(o, SetAlignment(AlignOf(doc, value)))]
    else [Effect(o, SetCompositing(CompOpOf(doc, value)))]
  }

  /** One key/value pair of a text object, from its key at `j`: the position
      after it and the calls made; None when it runs past the last token. */
  function TextPair(doc: Doc, fonts: string -> Option<Font>, obj: Node, j: nat): (r: Option<(nat, seq<Effect>)>)
    requires doc.Valid() && j < |doc.tokens|
    ensures r.Some? ==> j < r.value.0 <= |doc.tokens|
  {
    var key := doc.tokens[j];
    if IsKeyIn(doc, key, TextKeys) then
      if j + 1 < |doc.tokens| then Some((j + 2, TextSetter(doc, fonts, obj, key, doc.tokens[j + 1]))) else None
    else
      match SubtreeEnd(doc.tokens, j + 1)
      case Some(e) => Some((e, []))
      case None => None
  }

  function BitmapPair(doc: Doc, resources: string -> Option<ResourceId>, obj: Node, j: nat): (r: Option<(nat, seq<Effect>)>)
    requires doc.Valid() && j < |doc.tokens|
    ensures r.Some? ==> j < r.value.0 <= |doc.tokens|
  {
    var key := doc.tokens[j];
    if IsKeyIn(doc, key, BitmapKeys) then
      if j + 1 < |doc.tokens| then Some((j + 2, BitmapSetter(doc, resources, obj, key, doc.tokens[j + 1]))) else None
    else
      match SubtreeEnd(doc.tokens, j + 1)
      case Some(e) => Some((e, []))
      case None => None
  }

  /** `k` pairs of a text object from position `j`, after the calls `acc`. */
  function TextPairs(doc: Doc, fonts: string -> Option<Font>, obj: Node, j: nat, k: nat, acc: seq<Effect>): (r: Option<(nat, seq<Effect>)>)
    requires doc.Valid() && j <= |doc.tokens|
    ensures r.Some? ==> j <= r.value.0 <= |doc.tokens| && acc <= r.value.1
    decreases k
  {
    if k == 0 then Some((j, acc))
    else if j == |doc.tokens| then None
    else
      match TextPair(doc, fonts, obj, j)
      case None => None
      case Some((p, es)) => TextPairs(doc, fonts, obj, p, k - 1, acc + es)
  }

  function BitmapPairs(doc: Doc, resources: string -> Option<ResourceId>, obj: Node, j: nat, k: nat, acc: seq<Effect>): (r: Option<(nat, seq<Effect>)>)
    requires doc.Valid() && j <= |doc.tokens|
    ensures r.Some? ==> j <= r.value.0 <= |doc.tokens| && acc <= r.value.1
    decreases k
  {
    if k == 0 then Some((j, acc))
    else if j == |doc.tokens| then None
    else
      match BitmapPair(doc, resources, obj, j)
      case None => None
      case Some((p, es)) => BitmapPairs(doc, resources, obj, p, k - 1, acc + es)
  }

  /** Every calls a key makes lands on the object being created. */
  predicate OnlyOn(effects: seq<Effect>, obj: Node)
  {
    forall e :: e in effects ==> e.target == Object(obj)
  }

  /** Every call the text scanner makes targets its own text layer. */
  lemma {:induction false} TextPairsOnlyOn(doc: Doc, fonts: string -> Option<Font>, obj: Node, j: nat, k: nat, acc: seq<Effect>)
    requires doc.Valid() && j <= |doc.tokens| && OnlyOn(acc, obj)
    ensures TextPairs(doc, fonts, obj, j, k, acc).Some? ==> OnlyOn(TextPairs(doc, fonts, obj, j, k, acc).value.1, obj)
    decreases k
  {
    if k > 0 && j < |doc.tokens| {
      match TextPair(doc, fonts, obj, j)
      case None =>
      case Some((p, es)) =>
        TextPairsOnlyOn(doc, fonts, obj, p, k - 1, acc + es);
    }
  }

  /** Every call the bitmap scanner makes targets its own bitmap layer. */
  lemma {:induction false} BitmapPairsOnlyOn(doc: Doc, resources: string -> Option<ResourceId>, obj: Node, j: nat, k: nat, acc: seq<Effect>)
    requires doc.Valid() && j <= |doc.tokens| && OnlyOn(acc, obj)
    ensures BitmapPairs(doc, resources, obj, j, k, acc).Some? ==> OnlyOn(BitmapPairs(doc, resources, obj, j, k, acc).value.1, obj)
    decreases k
  {
    if k > 0 && j < |doc.tokens| {
      match BitmapPair(doc, resources, obj, j)
      case None =>
      case Some((p, es)) =>
        BitmapPairsOnlyOn(doc, resources, obj, p, k - 1, acc + es);
    }
  }

  /** The `k` pairs from `j` are well formed, and every key in `names` has
      a scalar value. */
  predicate ScalarValues(doc: Doc, j: nat, k: nat, names: seq<string>)
    requires doc.Valid()
    decreases k
  {
    k == 0 ||
      (&& j + 1 < |doc.tokens|
       && (IsKeyIn(doc, doc.tokens[j], names) ==> Scalar(doc.tokens, j + 1))
       && SubtreeEnd(doc.tokens, j + 1).Some?
       && ScalarValues(doc, SubtreeEnd(doc.tokens, j + 1).value, k - 1, names))
  }

  /** When every recognised key has a one-token value, the text scanner ends
      exactly where json_skip_tree would end the pairs. */
  lemma {:induction false} TextPairsSkipWholePairs(doc: Doc, fonts: string -> Option<Font>, obj: Node, j: nat, k: nat, acc: seq<Effect>)
    requires doc.Valid() && j <= |doc.tokens| && ScalarValues(doc, j, k, TextKeys)
    ensures TextPairs(doc, fonts, obj, j, k, acc).Some?
    ensures SkipChildren(doc.tokens, j, k, true) == Some(TextPairs(doc, fonts, obj, j, k, acc).value.0)
    decreases k
  {
    if k > 0 {
      var e := SubtreeEnd(doc.tokens, j + 1).value;
      assert TextPair(doc, fonts, obj, j).value.0 == e;
      TextPairsSkipWholePairs(doc, fonts, obj, e, k - 1, acc + TextPair(doc, fonts, obj, j).value.1);
    }
  }

  lemma {:induction false} BitmapPairsSkipWholePairs(doc: Doc, resources: string -> Option<ResourceId>, obj: Node, j: nat, k: nat, acc: seq<Effect>)
    requires doc.Valid() && j <= |doc.tokens| && ScalarValues(doc, j, k, BitmapKeys)
    ensures BitmapPairs(doc, resources, obj, j, k, acc).Some?
    ensures SkipChildren(doc.tokens, j, k, true) == Some(BitmapPairs(doc, resources, obj, j, k, acc).value.0)
    decreases k
  {
    if k > 0 {
      var e := SubtreeEnd(doc.tokens, j + 1).value;
      assert BitmapPair(doc, resources, obj, j).value.0 == e;
      BitmapPairsSkipWholePairs(doc, resources, obj, e, k - 1, acc + BitmapPair(doc, resources, obj, j).value.1);
    }
  }

  // ---------------------------------------------------------------------
  // The factories

  /** The value reading of a recognised text key: the one token after the
      key is read and the call made with it returned. */
  method TextSet(json: Json, key: JsonToken, obj: Node, fonts: string -> Option<Font>) returns (effects: seq<Effect>)
    requires json.doc.Valid() && 0 <= json.index as int < |json.doc.tokens| && json.doc.InBuf(key)
    modifies json
    ensures json.index == old(json.index) + 1
    ensures effects == TextSetter(json.doc, fonts, obj, key, json.doc.tokens[old(json.index)])
  {
    var doc := json.doc;
    var o := Object(obj);
    if TokenEq(doc, key, "text") {
      var s := json.NextString();
      effects := [Effect(o, SetText(s))];
    } else if TokenEq(doc, key, "color") {
      var color := json.NextGColor();
      effects := [Effect(o, SetTextColor(color))];
    } else if TokenEq(doc, key, "background") {
      var color := json.NextGColor();
      effects := [Effect(o, SetBackgroundColor(color))];
    } else if TokenEq(doc, key, "alignment") {
      var tok := json.Next();
      effects := [Effect(o, SetTextAlignment(TextAlignmentOf(doc, tok)))];
    } else if TokenEq(doc, key, "overflow") {
      var tok := json.Next();
      effects := [Effect(o, SetOverflowMode(OverflowOf(doc, tok)))];
    } else {
      var s := json.NextString();
      var font := fonts(s);
      effects := if font.Some? then [Effect(o, SetFont(font.value))] else [];
    }
  }

  /** One iteration of prv_text_create's loop: reads the key at the cursor,
      then its value, and returns the calls made. The if/else chain of the
      source is split between this method, which tells a recognised key from
      one whose value is skipped, and TextSet. */
  method TextPairStep(json: Json, obj: Node, fonts: string -> Option<Font>) returns (effects: seq<Effect>)
    requires json.doc.Valid() && 0 <= json.index as int < |json.doc.tokens|
    requires TextPair(json.doc, fonts, obj, json.index as nat).Some?
    modifies json
    ensures 0 <= json.index as int <= |json.doc.tokens|
    ensures TextPair(json.doc, fonts, obj, old(json.index) as nat) == Some((json.index as nat, effects))
  {
    var key := json.Next();
    if IsKeyIn(json.doc, key, TextKeys) {
      effects := TextSet(json, key, obj, fonts);
    } else {
      json.SkipTree();
      effects := [];
    }
  }

  /** prv_text_create, entered with the cursor just past the object token
      of `size` pairs: the calls it makes on the new text layer `obj`. */
  method TextLayerCreate(json: Json, size: nat, obj: Node, fonts: string -> Option<Font>) returns (effects: seq<Effect>)
    requires json.doc.Valid() && 0 <= json.index as int <= |json.doc.tokens|
    requires TextPairs(json.doc, fonts, obj, json.index as nat, size, TextInit(obj)).Some?
    modifies json
    ensures 0 <= json.index as int <= |json.doc.tokens|
    ensures TextPairs(json.doc, fonts, obj, old(json.index) as nat, size, TextInit(obj)) == Some((json.index as nat, effects))
  {
    var doc := json.doc;
    // text_layer_create, then the clear background set before any key
    effects := [Effect(Object(obj), NewTextLayer), Effect(Object(obj), SetBackgroundColor(GColorClear))];
    for i := 0 to size
      invariant 0 <= json.index as int <= |doc.tokens|
      invariant TextPairs(doc, fonts, obj, json.index as nat, size - i, effects)
             == TextPairs(doc, fonts, obj, old(json.index) as nat, size, TextInit(obj))
    {
      var es := TextPairStep(json, obj, fonts);
      effects := effects + es;
    }
  }

  /** The value reading of a recognised bitmap key. */
  method BitmapSet(json: Json, key: JsonToken, obj: Node, resources: string -> Option<ResourceId>) returns (effects: seq<Effect>)
    requires json.doc.Valid() && 0 <= json.index as int < |json.doc.tokens| && json.doc.InBuf(key)
    modifies json
    ensures json.index == old(json.index) + 1
    ensures effects == BitmapSetter(json.doc, resources, obj, key, json.doc.tokens[old(json.index)])
  {
    var doc := json.doc;
    var o := Object(obj);
    if TokenEq(doc, key, "bitmap") {
      var s := json.NextString();
      var id := resources(s);
      effects := if id.Some? then [Effect(o, SetBitmap(id.value))] else [];
    } else if TokenEq(doc, key, "background") {
      var color := json.NextGColor();
      effects := [Effect(o, SetBackgroundColor(color))];
    } else if TokenEq(doc, key, "alignment") {
      var tok := json.Next();
      effects := [Effect(o, SetAlignment(AlignOf(doc, tok)))];
    } else {
      var tok := json.Next();
      effects := [Effect(o, SetCompositing(CompOpOf(doc, tok)))];
    }
  }

  /** One iteration of prv_bitmap_create's loop. */
  method BitmapPairStep(json: Json, obj: Node, resources: string -> Option<ResourceId>) returns (effects: seq<Effect>)
    requires json.doc.Valid() && 0 <= json.index as int < |json.doc.tokens|
    requires BitmapPair(json.doc, resources, obj, json.index as nat).Some?
    modifies json
    ensures 0 <= json.index as int <= |json.doc.tokens|
    ensures BitmapPair(json.doc, resources, obj, old(json.index) as nat) == Some((json.index as nat, effects))
  {
    var key := json.Next();
    if IsKeyIn(json.doc, key, BitmapKeys) {
      effects := BitmapSet(json, key, obj, resources);
    } else {
      json.SkipTree();
      effects := [];
    }
  }

  /** prv_bitmap_create, entered with the cursor just past the object token
      of `size` pairs: the calls it makes on the new bitmap layer `obj`. */
  method BitmapLayerCreate(json: Json, size: nat, obj: Node, resources: string -> Option<ResourceId>) returns (effects: seq<Effect>)
    requires json.doc.Valid() && 0 <= json.index as int <= |json.doc.tokens|
    requires BitmapPairs(json.doc, resources, obj, json.index as nat, size, BitmapInit(obj)).Some?
    modifies json
    ensures 0 <= json.index as int <= |json.doc.tokens|
    ensures BitmapPairs(json.doc, resources, obj, old(json.index) as nat, size, BitmapInit(obj)) == Some((json.index as nat, effects))
  {
    var doc := json.doc;
    effects := [Effect(Object(obj), NewBitmapLayer)];
    for i := 0 to size
      invariant 0 <= json.index as int <= |doc.tokens|
      invariant BitmapPairs(doc, resources, obj, json.index as nat, size - i, effects)
             == BitmapPairs(doc, resources, obj, old(json.index) as nat, size, BitmapInit(obj))
    {
      var es := BitmapPairStep(json, obj, resources);
      effects := effects + es;
    }
  }
}
