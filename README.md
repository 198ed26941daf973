# pebble-layout, modelled in Dafny

A model of the core of pebble-layout, a Pebble watch library that builds a
tree of SDK layers from a JSON description. The JSON text has already been
split into a flat token array. A single cursor walks that array. Builders read
key/value pairs through the cursor, create native layers, push each object on
an ownership stack so that it can be torn down later, and record ids in an
association list.

The model has one module per source file:

- `Pebble` holds the SDK vocabulary: `int16_t`, `GRect`, `GColor`, the text
  and bitmap enums, and opaque native objects (`Node`). Every SDK call the
  core makes is recorded as an `Effect` on an object. The order and the
  arguments of those calls are what the contracts speak about.
- `Factory` holds the `LayoutFuncs` bundle of four function pointers, from
  include/pebble-layout.h. Each pointer is a choice among the functions the
  repository defines and external functions, told apart by a tag, that an
  application registers through `layout_add_type` for node kinds of its own.
  The layout is given the external `create` functions as a function-valued
  input.
- `JsonStream` models src/c/json.c. Its class `Json` is the cursor over a
  `Doc`, a text plus its tokens. `SubtreeEnd` is the position just past a
  token and all its descendants. It is proved correct against a tree-shaped
  reference (`SubtreeEndOfTree`), and `json_skip_tree` is proved to land there.
- `Dict` models src/c/dict.c, an association list of entries kept in insertion
  order. The first match wins.
- `Stack` models src/c/stack.c, a LIFO list whose root is NULL exactly when
  the stack is empty.
- `StandardTypes` models src/c/standard-types.c: the text and bitmap
  factories' key scanners and their string-to-enum tables.
- `PebbleLayout` models src/c/pebble-layout.c, the registry-driven
  three-pass builder. A `Layout` object owns:
  - a registry of bundles by type name, always holding "default";
  - a stack of `{funcs, object}` records;
  - the ids list.
- `Layout` models src/c/layout.c, the older single-pass builder. It cannot
  be linked with `PebbleLayout`, so it is a separate module with its own
  `Layout` class.

Each builder follows the same pattern:

- It is specified by functions over a `Build` value:
  - the next fresh object;
  - the stack, top first;
  - the ids;
  - the SDK calls made so far.
- Each returns `None` when the C code would read past the last token.
- The imperative methods of the classes move the cursor and fill the stack
  and dictionary objects step by step. Each is proved to end in the state the
  specification function computes from the state on entry.
- The properties of the builders are then proved about those functions:
  - cursor positions;
  - push order;
  - that every object is destroyed once;
  - lookup semantics.

The document text, its tokens, and the font and resource lookups of a layout
are inputs to the model (see "Left out").

## Model

| member | source | states |
|---|---|---|
| Pebble.Int16 | src/c/json.c:100-104 | storing an `int` into `int16_t` yields a value in range and keeps every value that already was |
| Pebble.Int16Wraps | src/c/json.c:100-104 | out of range, the stored value differs from the `int` by a multiple of 2^16 |
| Pebble.FrameOfUnaffected | src/c/pebble-layout.c:151-152 | calls that target another layer, or that set no frame, do not change the frame `layer_get_frame` reports |
| Pebble.WithRootFrameNonZero | src/c/pebble-layout.c:151-154 | after the root-frame fix a GRectZero root frame is exactly the display bounds (0, 0, 144, 168) and any other frame is kept, so it is never GRectZero; the calls made before are kept |
| Factory.GetLayer | src/c/pebble-layout.c:69-71 | `get_layer` hands out a layer of the object itself; the handle is the object exactly for the default bundle, the layer wrapped inside it for text and bitmap objects, and a layer of the external function's own otherwise |
| Factory.SetFrameEffect | src/c/pebble-layout.c:73-75 | `set_frame` makes one `layer_set_frame` call with the given frame on the object's layer, on the object itself exactly for the default bundle |
| Factory.DestroyEffect | src/c/pebble-layout.c:65-67 | `destroy` makes exactly one destruction call, on the object itself; it is an external call iff the bundle's `destroy` is external |
| Factory.SetFrameReachesHandle | src/c/standard-types.c:61-70 | for a bundle whose `set_frame` and `get_layer` agree, as all three in the repository do and an external pair with one tag is taken to, the frame set through `set_frame` is the one read back on the `get_layer` handle |
| JsonStream.StrnEqIsSliceEquality | src/c/json.c:142-144 | strncmp over `strlen(s)` bytes from the token start is equality of that slice of the text with `s` |
| JsonStream.SpanEquals | src/c/json.c:91-92 | the length test plus strncmp holds iff the token's text is exactly `s` |
| JsonStream.TokenEqIsStrncmp | src/c/json.c:140-145 | `json_eq` holds iff the token is a STRING of length `strlen(s)` whose bytes match `s`; a PRIMITIVE never matches |
| JsonStream.LeadingDigits | src/c/json.c:82 | the digits a C number parser consumes: a prefix of the input, all digits, followed by a non-digit or the end |
| JsonStream.SkipSpaces | src/c/json.c:82 | atoi's leading white space is dropped and what is left does not start with white space |
| JsonStream.AtoiOfDecimal | src/c/json.c:79-85 | `json_next_int` reads back every integer from its decimal text, negative ones included |
| JsonStream.HexValue | src/c/json.c:110-111 | strtoul in base 16 never yields more than ULONG_MAX (2^32 - 1 on the watch) |
| JsonStream.HexValueForms | src/c/json.c:110-111 | strtoul in base 16 skips leading white space and a `+`, accepts a `0x` or `0X` prefix, and negates modulo 2^32 after a `-`; so `"0xrrggbb"` decodes to its value |
| JsonStream.ColorOfHexText | src/c/json.c:107-113 | `"#rrggbb"` and `"rrggbb"` both decode to their hex value, saturated at ULONG_MAX; only one leading `#` is dropped, so `"##rrggbb"` decodes to 0 |
| JsonStream.ColorOfDoubleHash | src/c/json.c:110-111 | whatever follows two `#`s, the colour decodes to 0, as strtoul reads no digit at the second `#` |
| JsonStream.SubtreeEnd | src/c/json.c:115-128 | the end of a subtree lies after the token itself and within the array |
| JsonStream.SkipChildren | src/c/json.c:118-127 | skipping `k` children never moves backwards nor past the array |
| JsonStream.SubtreeEndOfTree | src/c/json.c:115-128 | wherever the tokens of a well-shaped JSON value sit in the array, `SubtreeEnd` is just past the last of them |
| JsonStream.SkipKidsOfTree | src/c/json.c:118-127 | skipping the remaining children of a well-shaped array or object (keys plus values for an object) lands just past their tokens |
| JsonStream.MemberEnd | src/c/json.c:118-127 | the value of an object member starts just after its key, and skipping it lands just past the member's tokens |
| JsonStream.Json.constructor | src/c/json.c:14-47 | a new stream holds the given document with the cursor on the first token |
| JsonStream.Json.HasNext | src/c/json.c:63-66 | true iff the cursor is before the end of the tokens; being a function, it does not move the cursor |
| JsonStream.Json.Next | src/c/json.c:68-71 | returns the token at the cursor, which lies inside the text, and advances the cursor by exactly one; callers must have a token there |
| JsonStream.Json.NextString | src/c/json.c:73-77 | returns the text of the next token and consumes exactly that token |
| JsonStream.Json.NextInt | src/c/json.c:79-85 | returns atoi of the next token's text and consumes exactly one token |
| JsonStream.Json.NextBool | src/c/json.c:87-93 | consumes one token and returns true iff it is the PRIMITIVE `true`; the STRING "true" gives false |
| JsonStream.Json.NextGRect | src/c/json.c:95-105 | a non-array token gives GRectZero and only that token is consumed; an array consumes exactly five tokens and gives the four following ints, each truncated to int16_t, whatever the array's size; both agree with `GRectAt` |
| JsonStream.Json.NextGColor | src/c/json.c:107-113 | consumes one token and decodes its text as strtoul in base 16 does (white space, sign, `0x` prefix, saturation) after dropping one optional leading `#` |
| JsonStream.Json.SkipTree | src/c/json.c:115-128 | the cursor lands exactly at `SubtreeEnd` of the token it started on |
| JsonStream.Json.GetIndex | src/c/json.c:130-133 | returns the cursor and does not move it |
| JsonStream.Json.SetIndex | src/c/json.c:135-138 | after `json_set_index(i)`, `json_get_index()` returns `i`, so a save and restore puts the cursor back exactly |
| Dict.FirstIndex | src/c/dict.c:66 | -1 iff no entry has the key; otherwise the position of a matching entry with no match before it |
| Dict.Lookup | src/c/dict.c:63-70 | None iff no entry has the key; otherwise the value of the earliest entry for it |
| Dict.LookupAfterAppend | src/c/dict.c:41-48 | after a put, a key that was found keeps its old value; a key seen for the first time finds the new entry; others are still absent |
| Dict.FirstIndexIsFirstMatch | src/c/dict.c:66 | a matching position with no match before it is the one the scan returns |
| Dict.FirstRegistrationWins | src/c/dict.c:41-48 | putting two values under one new key: the first is the one found |
| Dict.Dict.constructor | src/c/dict.c:16-21 | a new dictionary is empty |
| Dict.Dict.Destroy | src/c/dict.c:30-39 | the entries are released |
| Dict.Dict.Put | src/c/dict.c:41-48 | appends `(key, value)` at the end; an existing entry for the key is neither replaced nor removed |
| Dict.Dict.Find | src/c/dict.c:66 | the linear scan returns -1 iff no entry has the key, else the first matching position |
| Dict.Dict.Contains | src/c/dict.c:57-61 | true iff some entry has the key; false on an empty dictionary |
| Dict.Dict.Get | src/c/dict.c:63-70 | the value of the earliest entry for the key, or None (NULL), which is what an empty dictionary always gives |
| Dict.Dict.Remove | src/c/dict.c:72-87 | returns the value of the first match, or None when the key is absent or the dictionary empty |
| Dict.Dict.ForEach | src/c/dict.c:101-109 | the callback receives every `(key, value)` in insertion order, and nothing for an empty dictionary |
| Stack.PushAllIsReversePrefix | src/c/stack.c:26-30 | pushing a1..an puts them on top in reverse order, above the old contents |
| Stack.PopNOfPrefix | src/c/stack.c:32-42 | popping as many times as there are elements above the old contents returns them top first and leaves the old contents |
| Stack.PushThenPopIsReversed | src/c/stack.c:26-42 | pushing a1..an and then popping n times yields an..a1 and restores the stack |
| Stack.Stack.Contents | src/c/stack.c:5-7 | under the invariant, the stack is empty iff its root is NULL |
| Stack.Stack.constructor | src/c/stack.c:9-14 | a new stack is empty with a NULL root |
| Stack.Stack.Push | src/c/stack.c:26-30 | the element goes on top of the old contents; the root is allocated when needed |
| Stack.Stack.Pop | src/c/stack.c:32-42 | None on an empty stack, which stays empty; otherwise the top element is removed and returned; the root is reset to NULL when it was the last |
| Stack.Stack.Peek | src/c/stack.c:44-47 | None iff the stack is empty, otherwise the most recently pushed element still present; nothing is removed |
| Stack.Stack.Destroy | src/c/stack.c:16-24 | the list is released and the root reset |
| Stack.PushPop | src/c/stack.c:26-42 | a push followed by a pop returns the pushed value and restores the previous contents |
| Stack.PushEach | src/c/stack.c:26-30 | pushing each value in turn on a stack leaves the contents `PushAll` computes |
| Stack.PopEach | src/c/stack.c:32-42 | popping `n` times returns the values and leaves the contents `PopN` computes |
| Stack.PushThenPop | src/c/stack.c:26-42 | pushing a1..an on a stack and then popping n times returns an..a1 and leaves the stack as it was |
| StandardTypes.TextAlignmentOf | src/c/standard-types.c:23-30 | Right iff the token is "GTextAlignmentRight", Center iff "GTextAlignmentCenter", Left for every other token |
| StandardTypes.OverflowOf | src/c/standard-types.c:31-38 | WordWrap iff "GTextOverflowModeWordWrap", Fill iff "GTextOverflowModeFill", TrailingEllipsis for every other token |
| StandardTypes.AlignOf | src/c/standard-types.c:90-107 | each of the seven names maps to its alignment and only it does; every other token maps to GAlignCenter; GAlignBottom is never produced |
| StandardTypes.CompOpOf | src/c/standard-types.c:108-121 | each of the five names maps to its operation and only it does; everything else maps to GCompOpAssign |
| StandardTypes.TextPair | src/c/standard-types.c:13-46 | one pair of the text scanner moves the cursor forward, within the array |
| StandardTypes.BitmapPair | src/c/standard-types.c:78-124 | one pair of the bitmap scanner moves the cursor forward, within the array |
| StandardTypes.TextPairs | src/c/standard-types.c:11-47 | the text scanner only appends calls and never moves the cursor backwards |
| StandardTypes.BitmapPairs | src/c/standard-types.c:76-125 | the bitmap scanner only appends calls and never moves the cursor backwards |
| StandardTypes.TextPairsOnlyOn | src/c/standard-types.c:11-47 | every call the text scanner makes targets the text layer being created |
| StandardTypes.BitmapPairsOnlyOn | src/c/standard-types.c:76-125 | every call the bitmap scanner makes targets the bitmap layer being created |
| StandardTypes.TextPairsSkipWholePairs | src/c/standard-types.c:11-47 | when every recognised key has a one-token value, the text scanner runs exactly `size` pairs and ends where skipping them whole ends |
| StandardTypes.BitmapPairsSkipWholePairs | src/c/standard-types.c:76-125 | likewise for the bitmap scanner |
| StandardTypes.TextSet | src/c/standard-types.c:14-43 | a recognised text key consumes exactly one value token and makes its setter's call; a font only when the lookup knows the name |
| StandardTypes.TextPairStep | src/c/standard-types.c:13-46 | one loop iteration: a recognised key reads one value, and any other key has its value skipped whole |
| StandardTypes.TextLayerCreate | src/c/standard-types.c:6-50 | `prv_text_create` creates the text layer, sets a clear background before any key, then runs `size` pairs, as `TextPairs` computes |
| StandardTypes.BitmapSet | src/c/standard-types.c:79-121 | a recognised bitmap key consumes exactly one value token; a bitmap is set only when the resource lookup knows the name |
| StandardTypes.BitmapPairStep | src/c/standard-types.c:78-124 | one loop iteration of the bitmap scanner |
| StandardTypes.BitmapLayerCreate | src/c/standard-types.c:72-128 | `prv_bitmap_create` creates the bitmap layer and runs `size` pairs, as `BitmapPairs` computes |
| PebbleLayout.IdFramePass | src/c/pebble-layout.c:107-118 | the last pass moves the cursor forward and never creates nor pushes an object |
| PebbleLayout.IdFrameOne | src/c/pebble-layout.c:108-117 | one pair of the last pass moves the cursor forward, builds nothing, only appends ids and calls, and every id it appends names the object itself |
| PebbleLayout.IdFramePassOnlyAppends | src/c/pebble-layout.c:109-114 | the last pass only appends ids and calls, and every id it records names the factory object itself, not the `get_layer` handle |
| PebbleLayout.CreateLayerSpec | src/c/pebble-layout.c:77-121 | a non-object token gives NULL after one token with nothing built; an object is pushed on top as the fresh object, and the handle returned is its bundle's `get_layer` of it |
| PebbleLayout.ObjectSpec | src/c/pebble-layout.c:100-118 | after `create` the record of the new object with its bundle is on top of the stack |
| PebbleLayout.Created | src/c/pebble-layout.c:100-105 | after `create` and the push, the record of the new object with its bundle is on top of the stack |
| PebbleLayout.FactoryCreate | src/c/pebble-layout.c:103 | the call through `create`, of the repository's factories or an external one, never moves the cursor backwards nor past the array |
| PebbleLayout.DefaultPairs | src/c/pebble-layout.c:43-60 | the default factory's loop never moves the cursor backwards nor past the array |
| PebbleLayout.DefaultOne | src/c/pebble-layout.c:45-59 | one pair of the default factory's loop moves the cursor forward and stays within the array |
| PebbleLayout.DefaultValue | src/c/pebble-layout.c:46-59 | a "background", "clips" or skipped value only appends a call, and builds nothing |
| PebbleLayout.LayersLoop | src/c/pebble-layout.c:49-54 | the "layers" loop never moves the cursor backwards nor past the array |
| PebbleLayout.LayersOne | src/c/pebble-layout.c:52-53 | building one element of "layers" moves the cursor forward and stays within the array |
| PebbleLayout.CreateLayerExtends | src/c/pebble-layout.c:77-121 | `json_create_layer` pushes exactly one record per object it creates, each for a distinct fresh object, on top of the untouched stack, and only appends ids and calls |
| PebbleLayout.ObjectSpecExtends | src/c/pebble-layout.c:100-118 | the same for `create` plus push plus the last pass |
| PebbleLayout.CreatedExtends | src/c/pebble-layout.c:100-105 | the same for `create` plus push, which takes at least one fresh object |
| PebbleLayout.FactoryCreateExtends | src/c/pebble-layout.c:103 | the same for each factory's `create` |
| PebbleLayout.DefaultPairsExtends | src/c/pebble-layout.c:43-60 | the same for the default factory's loop |
| PebbleLayout.DefaultOneExtends | src/c/pebble-layout.c:45-59 | the same for one pair of the default factory's loop |
| PebbleLayout.LayersLoopExtends | src/c/pebble-layout.c:49-54 | the same for the children of one "layers" array |
| PebbleLayout.LayersOneExtends | src/c/pebble-layout.c:52-53 | the same for one element of "layers" and the `layer_add_child` after it |
| PebbleLayout.ChildrenPushedBeforeParent | src/c/pebble-layout.c:100-105 | the record of the object built is on top, and every other record the call pushed is for a child created after it, so children are pushed before their parent |
| PebbleLayout.DestroyAllInOrder | src/c/pebble-layout.c:184-188 | the q-th destruction is of the q-th record from the top, by the `destroy` of the bundle that built it |
| PebbleLayout.DestroyEachOnce | src/c/pebble-layout.c:184-188 | tearing down what was built on an empty stack destroys every object created, each exactly once, and nothing else |
| PebbleLayout.RootFrameNeverZero | src/c/pebble-layout.c:150-154 | after `layout_parse` of an object the root is the handle `json_create_layer` returned; its frame is the display bounds if the build left it GRectZero and the build's frame otherwise, so never GRectZero |
| PebbleLayout.ParseExtends | src/c/pebble-layout.c:140-158 | `layout_parse` only grows the build: one record per object created, above the previous stack |
| PebbleLayout.FourScalarsEnd | src/c/pebble-layout.c:113 | an array of four scalars spans five tokens, which is what `json_next_grect` consumes |
| PebbleLayout.IdFrameOneSkipsWholePair | src/c/pebble-layout.c:108-117 | one pair whose "id" or "frame" value is shaped as its reader expects is consumed whole, ending where skipping its value would |
| PebbleLayout.IdFramePassSkipsWholePairs | src/c/pebble-layout.c:107-118 | when each "id" value is one token and each "frame" value is one token or an array of four scalars, the last pass ends where skipping the pairs whole ends |
| PebbleLayout.IdFramePassEnd | src/c/pebble-layout.c:107-118 | where the last pass ends, and whether it stays in bounds, depends on the document alone, not on the bundle, the object or what was built |
| PebbleLayout.IdFrameOneEnd | src/c/pebble-layout.c:108-117 | where one pair of the last pass ends, read from the document alone, lies after its key and within the array |
| PebbleLayout.CreateLayerEndsAtSubtreeEnd | src/c/pebble-layout.c:77-121 | under those value shapes, `json_create_layer` advances the cursor exactly as one `json_skip_tree` from the same token, whatever the factory consumed |
| PebbleLayout.CreateLayerEndIndependentOfFactories | src/c/pebble-layout.c:100-105 | the cursor after `json_create_layer` does not depend on the registry, fonts, resources or the build, so the factory's own cursor movement is discarded |
| PebbleLayout.CreateLayerEnd | src/c/pebble-layout.c:105-118 | on an object, `json_create_layer` ends where the last pass over its pairs ends, read from the document alone |
| PebbleLayout.ObjectSpecEnd | src/c/pebble-layout.c:100-118 | the same for `create`, push and the last pass: the cursor reset at line 105 discards whatever `create` consumed |
| PebbleLayout.AsWrittenReadsFreedBundles | src/c/pebble-layout.c:174-188 | as written, every destruction in the pop loop reads a registered bundle copy that the registry walk freed before it, so after any build the trace reads freed memory |
| PebbleLayout.AsWrittenOneObject | src/c/pebble-layout.c:174-188 | with "default" alone registered and one object built, the trace is: free copy 0, then read copy 0 |
| PebbleLayout.DestroyReadsOnlyLive | src/c/pebble-layout.c:174-188 | in the corrected order, each record's bundle is read first, in pop order, and no copy is read after it is freed |
| PebbleLayout.Layout.constructor | src/c/pebble-layout.c:123-138 | `layout_create`: no root, empty stack and ids, and exactly the "default" bundle registered |
| PebbleLayout.Layout.AddType | src/c/pebble-layout.c:206-211 | appends a copy of the bundle; a name registered before keeps its first bundle, so "default" is never overridden |
| PebbleLayout.Layout.AddStandardTypes | src/c/standard-types.c:150-164 | registers exactly "TextLayer" and then "BitmapLayer", keeping "default" |
| PebbleLayout.Layout.TypePass | src/c/pebble-layout.c:84-96 | the first loop finds the bundle registered under the first "type" value, or none, as `TypeScan` computes |
| PebbleLayout.Layout.IdFrameStep | src/c/pebble-layout.c:108-117 | one iteration of the last loop advances the cursor and ends in the position and state `IdFrameOne` computes |
| PebbleLayout.Layout.IdFrameLoop | src/c/pebble-layout.c:107-118 | the last loop ends in the position and state `IdFramePass` computes |
| PebbleLayout.Layout.CreateLayer | src/c/pebble-layout.c:77-121 | `json_create_layer` consumes at least one token and ends in the position, handle and state `CreateLayerSpec` computes |
| PebbleLayout.Layout.BuildObject | src/c/pebble-layout.c:99-118 | `create`, push and the last pass, with the cursor reset to just after the object token before and after `create` |
| PebbleLayout.Layout.CreateObject | src/c/pebble-layout.c:100-105 | the cursor is saved, the object created and pushed, and the cursor restored, as `Created` computes |
| PebbleLayout.Layout.Create | src/c/pebble-layout.c:103 | the call through `create` dispatches to the bundle's factory, an external one included, as `FactoryCreate` computes |
| PebbleLayout.Layout.DefaultLayerCreate | src/c/pebble-layout.c:36-63 | `prv_default_create` creates the layer with a clear colour and its update procedure, then runs `size` pairs, as `DefaultPairs` computes |
| PebbleLayout.Layout.DefaultPairStep | src/c/pebble-layout.c:45-59 | one iteration of the default factory's loop (background, layers, clips, or a skipped value) ends in the position and state `DefaultOne` computes |
| PebbleLayout.Layout.ChildrenLoop | src/c/pebble-layout.c:49-54 | each element of "layers" is built and the non-NULL ones are added as children, as `LayersLoop` computes |
| PebbleLayout.Layout.ChildStep | src/c/pebble-layout.c:52-53 | one element is built and, when not NULL, added as a child, as `LayersOne` computes |
| PebbleLayout.Layout.Parse | src/c/pebble-layout.c:140-158 | `layout_parse` ends in the root and state `ParseSpec` computes: nothing when the first token is not an object; otherwise the tree is built and a GRectZero root frame is replaced by the display bounds |
| PebbleLayout.Layout.Destroy | src/c/pebble-layout.c:174-194 | every record is popped and destroyed by its own bundle, top first, until the stack is empty, and only then are the registry and ids released (the corrected order, see "Findings") |
| PebbleLayout.Layout.GetRootLayer | src/c/pebble-layout.c:196-199 | returns the root handle, None until a root was built |
| PebbleLayout.Layout.FindById | src/c/pebble-layout.c:201-204 | the object of the earliest entry for the id, as a handle on the object itself, or None (NULL) iff no entry has it |
| Layout.LayerSpec | src/c/layout.c:40-78 | a non-object token gives NULL after one token with nothing built; an object gives the fresh layer |
| Layout.LayerPairs | src/c/layout.c:51-75 | `json_layer`'s loop never moves the cursor backwards nor past the array |
| Layout.ScalarPair | src/c/layout.c:53-74 | a non-"layers" pair builds nothing and only appends ids or calls |
| Layout.ChildrenSpec | src/c/layout.c:62-67 | the "layers" loop never moves the cursor backwards nor past the array |
| Layout.LayerSpecGrows | src/c/layout.c:40-78 | each layer is pushed when it is created: the stack gains exactly the new layers, newest on top, so a parent lies below all its children (pre-order from the bottom) |
| Layout.LayerPairsGrows | src/c/layout.c:51-75 | the same for the pairs of one object |
| Layout.ChildrenSpecGrows | src/c/layout.c:62-67 | the same for the children of one "layers" array |
| Layout.CreateStacksAllLayers | src/c/layout.c:80-104 | after `layout_create_with_resource` the stack holds every layer created, the root at the bottom |
| Layout.DestroyAllInOrder | src/c/layout.c:119-122 | the q-th destruction is of the q-th layer from the top |
| Layout.DestroyReversesCreation | src/c/layout.c:113-128 | tearing down destroys every layer created exactly once, in reverse creation order |
| Layout.RootFrameNeverZero | src/c/layout.c:94-98 | the root built from an object is the first layer; its frame is the display bounds if its pairs left it GRectZero and the frame they set otherwise, so never GRectZero |
| Layout.UnknownKeyConsumesItself | src/c/layout.c:52-74 | a key that is none of "frame", "background", "clips", "id" and "layers" consumes only itself and changes nothing |
| Layout.UnknownKeysConsumeThemselves | src/c/layout.c:51-75 | `k` pairs whose keys, read one token at a time, are all unknown take exactly `k` tokens and change nothing |
| Layout.UnknownKeyValueNotSkipped | src/c/layout.c:40-78 | on any well-shaped object none of whose keys `json_layer` knows, it creates and pushes only the object's layer and stops one token per pair after it, strictly before where `json_skip_tree` lands |
| Layout.Layout.CreateWithResource | src/c/layout.c:80-104 | ends in the root and state `CreateSpec` computes: no root unless the first token is an object; otherwise the tree, with a GRectZero root frame replaced by the display bounds |
| Layout.Layout.JsonGRect | src/c/layout.c:29-38 | given the token just read, GRectZero and nothing more consumed unless it is an array; otherwise four more tokens read as int16_t; together with that read it agrees with `json_next_grect` |
| Layout.Layout.JsonLayer | src/c/layout.c:40-78 | `json_layer` consumes at least one token and ends in the position, layer and state `LayerSpec` computes |
| Layout.Layout.PairStep | src/c/layout.c:52-75 | one iteration of `json_layer`'s loop |
| Layout.Layout.ScalarValue | src/c/layout.c:54-74 | the value of a non-"layers" pair as `ScalarPair` reads it; no layer is created |
| Layout.Layout.ChildrenLoop | src/c/layout.c:62-67 | each element of "layers" is built and the non-NULL ones are added as children, as `ChildrenSpec` computes |
| Layout.Layout.Destroy | src/c/layout.c:113-128 | the ids are released, and every layer is popped and destroyed, top first, until the stack is empty |
| Layout.Layout.FindById | src/c/layout.c:135-138 | the layer of the earliest entry for the id, or None (NULL) iff no entry has it |

## Left out

- Resource loading and tokenisation (src/c/json.c:14-47) are storage I/O and a foreign tokenizer. The document text and its token array are inputs (`Doc`). `Doc.Valid` asks only that every token lies inside the text and that the count fits `int16_t`.
- `json_destroy` (src/c/json.c:49-61) and all malloc, free and strndup ownership are not modelled. Nothing is freed, and allocation never fails.
- JsonStream.Json.HasNext: does not model the NULL token array or a negative token count. Tokenisation is an input, so a document the tokenizer rejects (src/c/json.c:30 stores `jsmn_parse`'s negative result) is not representable, and `json_destroy` is left out.
- Reading past the last token is undefined in C, because `json_next` has no bounds check. Each method that reads the stream therefore requires that its specification function is not `None`. In other words, the document must not lead the C code out of the array.
- JsonStream.Atoi does not model overflow or the C library's locale.
- JsonStream.HexValue models strtoul's saturation at ULONG_MAX but not `errno` or the C library's locale.
- The text is compared and copied in full: strncmp and strndup would stop at a NUL byte inside a token.
- JsonStream.ColorFromText: `GColorFromHEX` is an SDK macro that is not part of this model. The colour is kept as the decoded hex value.
- Dict.Dict.Remove: models the return value only. `dict_remove` frees the entry without unlinking it from the list (src/c/dict.c:77-79), so its effect on the entries is not modelled.
- Dict.Dict.ForEach: the callback's boolean early stop is not modelled. Every callback in the repository returns true, and the model returns the sequence of arguments the callback receives. Freeing keys and bundles in `layout_destroy`'s callbacks is left out with memory management.
- The linked-list library behind the dictionary and the stack is a sequence.
- Factory.DestroyEffect: the text and bitmap `destroy` functions first release the text or the bitmap. Each `destroy` is one recorded destruction call.
- The SDK calls are recorded as `Effect`s, never executed. `prv_update_proc` (drawing) is left out. The fill colour a plain layer keeps in its data is recorded as a `SetColor` call.
- The display size is that of the rectangular watches (144 x 168). Other platforms' `PBL_DISPLAY_WIDTH`/`PBL_DISPLAY_HEIGHT` are not modelled.
- `layout_get_font`, `layout_get_resource_id`, `layout_add_system_fonts` and `layout_add_font` are not part of this model. The font and resource lookups, like the external `create` functions, are function-valued inputs of the `PebbleLayout.Layout` constructor.
- `json_mark` and `json_reset` (src/c/json.h:14-15) are not part of this model. They are taken as saving and restoring the cursor in `Layout.Layout.CreateWithResource`.
- In src/c/layout.c, `root` is never assigned when the document is empty or does not start with an object; the model keeps `None` there.
- `layout_add_to_layer` (src/c/layout.c:130-133) is a single SDK call on the root and is not modelled.
- src/c/main.c (application wiring and the event loop) is not modelled.
- PebbleLayout.StaysInDocument: an external `create` is taken to move the cursor forward and to leave it within the document. It is also taken to make SDK calls only: calling back into the layout (`layout_add_type`, `layout_find_by_id`) is not modelled. Objects it creates itself are not counted by the build's `next`.
- PebbleLayout.Layout.Destroy: follows the corrected order of the finding below, not the order of src/c/pebble-layout.c:174-188. The records hold their bundle by value. The as-written order is modelled by `DestroyAccessesAsWritten`.
- `standard_types_add` lives in src/c/standard-types.c but registers through `layout_add_type`. It is `PebbleLayout.Layout.AddStandardTypes`, which keeps the modules free of cycles.

## Findings

| source | as written | input that shows it | evidently intended | confidence | as-written member | corrected member |
|---|---|---|---|---|---|---|
| src/c/pebble-layout.c:174-188 | `layout_destroy` frees every bundle copy in the registry (lines 176-177, through `prv_types_destroy_callback` at 160-165). Only then does the pop loop call `data->layout_funcs->destroy` (line 186). That pointer points into one of those copies: `layout_add_type` allocates it at 208-210, and `json_create_layer` stores `dict_get`'s result at 90 and 99. | any layout with one object built: "default" is the only bundle registered, and one record points at it | destroy every object through its bundle before the registry is freed | high (not executed) | PebbleLayout.AsWrittenReadsFreedBundles | PebbleLayout.DestroyReadsOnlyLive |
