/**
  The vocabulary of the Pebble SDK that the layout core touches: rectangles,
  colours, the enums the standard factories decode, and opaque native objects.

  Native widgets are never executed: each SDK call the core makes is recorded
  as an `Effect` on an opaque object, so that the order and the arguments of
  those calls can be stated and proved.
 */
module Pebble {

  /** C's `int16_t`. */
  type int16 = x: int | -0x8000 <= x < 0x8000

  /** Converts a C `int` to `int16_t` the way the compilers used for Pebble
      do: the value is reduced modulo 2^16 into the signed range. */
  function Int16(x: int): (r: int16)
    ensures -0x8000 <= x < 0x8000 ==> r == x
  {
    var m := x % 0x10000;
    if m < 0x8000 then m else m - 0x10000
  }

  /** Out of range, the value differs from the original by a multiple of
      2^16. */
  lemma Int16Wraps(x: int)
    ensures (x - Int16(x)) % 0x10000 == 0
  {
  }

  datatype GRect = GRect(x: int16, y: int16, w: int16, h: int16)

  const GRectZero := GRect(0, 0, 0, 0)

  /** PBL_DISPLAY_WIDTH and PBL_DISPLAY_HEIGHT of the rectangular watches. */
  const DisplayWidth: int16 := 144
  const DisplayHeight: int16 := 168
  const DisplayBounds := GRect(0, 0, DisplayWidth, DisplayHeight)

  /** `GColorClear`, or a colour made by `GColorFromHEX` from a 24-bit value.
      `GColorFromHEX` always yields an opaque colour, so it never equals
      `GColorClear`. */
  datatype GColor = GColorClear | FromHex(rgb: nat)

  datatype GTextAlignment = GTextAlignmentLeft | GTextAlignmentCenter | GTextAlignmentRight

  datatype GTextOverflowMode =
    | GTextOverflowModeWordWrap
    | GTextOverflowModeTrailingEllipsis
    | GTextOverflowModeFill

  datatype GAlign =
    | GAlignCenter
    | GAlignTopLeft
    | GAlignTopRight
    | GAlignTop
    | GAlignLeft
    | GAlignBottom
    | GAlignRight
    | GAlignBottomRight
    | GAlignBottomLeft

  datatype GCompOp =
    | GCompOpAssign
    | GCompOpAssignInverted
    | GCompOpOr
    | GCompOpAnd
    | GCompOpClear
    | GCompOpSet

  /** A native object (a `Layer`, `TextLayer` or `BitmapLayer`), named by the
      order in which it was created. */
  type Node = nat

  type Font = nat
  type ResourceId = nat

  /** What a `Layer *` handle points at: the object itself (a plain `Layer`),
      the `Layer` inside a `TextLayer` or `BitmapLayer` object, or the layer
      the `get_layer` function `tag` of a bundle defined outside the
      repository hands out for the object. */
  datatype Ref = Object(node: Node) | Inner(node: Node) | ExternalLayer(tag: nat, node: Node)

  /** The SDK calls the core makes. */
  datatype Call =
    | NewLayer                            // layer_create_with_data(GRectZero, ...)
    | NewTextLayer                        // text_layer_create(GRectZero)
    | NewBitmapLayer                      // bitmap_layer_create(GRectZero)
    | SetUpdateProc                       // layer_set_update_proc
    | SetColor(color: GColor)             // the fill colour kept in a plain layer's data
    | SetClips(clips: bool)               // layer_set_clips
    | AddChild(child: Ref)                // layer_add_child
    | SetFrame(frame: GRect)              // layer_set_frame
    | SetText(text: string)               // text_layer_set_text
    | SetTextColor(color: GColor)         // text_layer_set_text_color
    | SetBackgroundColor(color: GColor)   // text_layer_ / bitmap_layer_set_background_color
    | SetTextAlignment(alignment: GTextAlignment)
    | SetOverflowMode(mode: GTextOverflowMode)
    | SetFont(font: Font)
    | SetBitmap(resource: ResourceId)     // gbitmap_create_with_resource + bitmap_layer_set_bitmap
    | SetAlignment(align: GAlign)         // bitmap_layer_set_alignment
    | SetCompositing(op: GCompOp)         // bitmap_layer_set_compositing_mode
    | LayerDestroy                        // layer_destroy
    | TextLayerDestroy                    // text_layer_destroy, after freeing its text
    | BitmapLayerDestroy                  // bitmap_layer_destroy, after destroying its bitmap
    | ExternalDestroyCall(tag: nat)       // a `destroy` defined outside the repository

  datatype Effect = Effect(target: Ref, call: Call)

  /** The frame `layer_get_frame` reports for `r` after `effects`: the last
      frame set on it, or the `GRectZero` every layer is created with. */
  function FrameOf(effects: seq<Effect>, r: Ref): GRect
  {
    if effects == [] then GRectZero
    else
      var e := effects[|effects| - 1];
      if e.target == r && e.call.SetFrame? then e.call.frame
      else FrameOf(effects[..|effects| - 1], r)
  }

  /** The calls after building the root `r`: when its frame is still
      GRectZero it is given the display bounds. */
  function WithRootFrame(effects: seq<Effect>, r: Ref): seq<Effect>
  {
    if FrameOf(effects, r) == GRectZero then effects + [Effect(r, SetFrame(DisplayBounds))] else effects
  }

  /** Afterwards the root's frame is the display bounds if it was
      GRectZero and is kept otherwise, so it is never GRectZero; the calls
      before are kept. */
  lemma WithRootFrameNonZero(effects: seq<Effect>, r: Ref)
    ensures FrameOf(WithRootFrame(effects, r), r) == if FrameOf(effects, r) == GRectZero then DisplayBounds else FrameOf(effects, r)
    ensures FrameOf(WithRootFrame(effects, r), r) != GRectZero
    ensures effects <= WithRootFrame(effects, r)
  {
    var es := effects + [Effect(r, SetFrame(DisplayBounds))];
    assert es[..|es| - 1] == effects;
  }

  /** Effects aimed at other layers, or that set no frame, do not change the
      frame of `r`. */
  lemma {:induction false} FrameOfUnaffected(effects: seq<Effect>, more: seq<Effect>, r: Ref)
    requires forall k :: 0 <= k < |more| ==> more[k].target != r || !more[k].call.SetFrame?
    ensures FrameOf(effects + more, r) == FrameOf(effects, r)
  {
    if more != [] {
      var init := more[..|more| - 1];
      assert (effects + more)[..|effects + more| - 1] == effects + init;
      FrameOfUnaffected(effects, init, r);
    } else {
      assert effects + more == effects;
    }
  }
}
