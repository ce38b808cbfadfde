# GSP core in Dafny

GSP (Graphic Server Protocol) describes a scene as plain objects. A canvas
holds viewports. Visuals (pixels, points, segments, paths, markers, texts,
images) draw into those viewports through a camera. Each visual attribute
is either a typed `Buffer` or a `TransformChain` that computes one. Scenes
are turned into pydantic records or JSON messages and back, and a set of
pure helpers sits around them: vertex groups, unit conversion, axes ticks,
pan and zoom, an expression-tree transform and an Object3D scene graph.

This project models that core in Dafny and proves properties of the
model. Each source file becomes one module:

- **Value types.** Buffer types, Python's exceptions and byte sequences
  are datatypes (`BufferTypes`, `Wrappers`, `Bytes`). A Python float is a
  `real`; a failing call returns `Err` with the exception's class.
- **Mutable objects as classes.** `Buffer`, `TransformChain`, `Event`,
  `Canvas`, `Viewport`, `Camera`, `Texture`, the seven visuals, the JSON
  renderer, the axes display and its pan/zoom controller, `Object3D` and
  the pyramid's file cache are classes. Their fields are the source's
  fields, and their methods state the new state in full.
- **Collections.** The lists and dictionaries these objects mutate are
  `seq` and `map` fields.
- **Pure logic.** Everything else is functions and lemmas: type dispatch,
  group arithmetic, the serializer and parser, the converters, expression
  evaluation, unit arithmetic, UTF-8 decoding and `split_argv`.
- **Base64 and uuids.** Base64 (RFC 4648, section 4) is modelled
  concretely. Decoding follows Python's non-strict `b64decode`, and the
  round trip is proved. Uuid generation takes the counter or the random
  bytes as inputs.

Where the code contradicts its own documentation or its evident intent,
the operations follow the code as written. A corrected definition stands
beside each, with the intended property proved about it; see
"## Findings". There are two exceptions, both listed under "## Left out".
`Buffers.Buffer.SetData` and `Buffers.Buffer.GetData` carry the corrected
range checks. The centimetre conversions of `ViewportUnitUtils` use 2.54
for the missing `in_to_cm`. The axes display imports the library copy
`gsp.utils.viewport_unit_utils`, which is not part of this model, so it is
modelled with these conversions.

The pyramid viewer exists in two copies:

- `tmp/pyramid/datoviz/pyramid_01.py:70-156`;
- `examples/pyramid/pyramid_original.py:36-72`.

Their `safe_slice`, `load_data` and `find_indices` are the same code, so
the `Pyramids` module models both, and the table cites whichever copy it
follows.

## Model

| member | source | states |
|---|---|---|
| PyLists.FirstIndex | src/gsp/core/event.py:40 | the index `list.remove` deletes at: an occurrence of x with no earlier one |
| PyLists.RemoveFirst | src/gsp/core/event.py:40 | removing one occurrence shortens the list by one and takes exactly one copy of x out of its multiset |
| PyLists.RemoveAppended | src/gsp/core/event.py:31-40 | subscribing then unsubscribing a callback that was not subscribed gives the list back |
| Uuids.DecimalChar | src/gsp/utils/uuid_utils.py:19 | a digit is written as a character '0'..'9' |
| Uuids.DigitValue | src/gsp/utils/uuid_utils.py:19 | reading a digit character back succeeds exactly on '0'..'9' and inverts DecimalChar |
| Uuids.Decimal | src/gsp/utils/uuid_utils.py:19 | `str` of a counter is a non-empty string of decimal digits |
| Uuids.ParseDecimalOfDecimal | src/gsp/utils/uuid_utils.py:19 | the decimal text of a counter reads back as the same number |
| Uuids.CounterId | src/gsp/utils/uuid_utils.py:19 | a deterministic id starts with the prefix `uuid-counter-` followed by at least one character |
| Uuids.ParseCounterIdOfCounterId | src/gsp/utils/uuid_utils.py:19 | the counter can be read back from the id it produced |
| Uuids.CounterIdInjective | src/gsp/utils/uuid_utils.py:16-19 | different counter values give different ids |
| Uuids.HexChar | src/gsp/utils/uuid_utils.py:66 | a nibble is written as a lower-case hexadecimal digit |
| Uuids.HexValue | src/gsp/utils/uuid_utils.py:66 | a recognised hex digit is the one HexChar writes for its value |
| Uuids.HexValueOfHexChar | src/gsp/utils/uuid_utils.py:66 | every nibble reads back from its hex digit |
| Uuids.Hex | src/gsp/utils/uuid_utils.py:66 | `bytes.hex()` gives two lower-case hex digits per byte |
| Uuids.UnhexCons | src/gsp/utils/uuid_utils.py:66 | one byte's two digits in front of a decodable text decode to that byte in front |
| Uuids.UnhexHexStep | src/gsp/utils/uuid_utils.py:66 | the hex round trip extends from the tail of a byte string to the whole |
| Uuids.UnhexHex | src/gsp/utils/uuid_utils.py:66 | decoding the hex text of any byte string gives the bytes back |
| Uuids.WithVersion | src/gsp/utils/uuid_utils.py:53 | byte 6 gets high nibble 4 and keeps its low nibble |
| Uuids.WithVariant | src/gsp/utils/uuid_utils.py:61 | byte 8 gets top bits 10 and keeps its low six bits |
| Uuids.FixVersionAndVariant | src/gsp/utils/uuid_utils.py:50-61 | of 16 random bytes only bytes 6 and 8 change, to version 4 and the RFC 4122 variant |
| Uuids.Hyphenate | src/gsp/utils/uuid_utils.py:69 | 32 hex digits become 36 characters, with hyphens at 8, 13, 18 and 23 and the digits in order between them |
| Uuids.UnhyphenateHyphenate | src/gsp/utils/uuid_utils.py:69 | removing the hyphens gives the 32 digits back |
| Uuids.UuidV4 | src/gsp/utils/uuid_utils.py:26-71 | the result has the 8-4-4-4-12 shape of hex digits and parses back to the random bytes with version 4 and variant bits set and nothing else changed |
| Uuids.UuidRoundTrip | src/gsp/utils/uuid_utils.py:63-69 | any 16 bytes survive hex formatting with hyphens |
| Uuids.UuidUtils.constructor | src/gsp/utils/uuid_utils.py:10 | the class counter starts at 0; counter mode stands for the environment variable |
| Uuids.UuidUtils.GenerateUuid | src/gsp/utils/uuid_utils.py:13-23 | in counter mode the id is `uuid-counter-<old counter>` and the counter grows by one; otherwise the counter is untouched and the id is the 36-character version 4 text of the random bytes: hyphens at 8, 13, 18 and 23, hex digits elsewhere, parsing back to 16 bytes with version nibble 4, variant bits 10 and every other bit from the random bytes |
| Uuids.SuccessiveIdsDiffer | src/gsp/utils/uuid_utils.py:16-19 | two ids generated one after the other in counter mode differ |
| Events.Callees | src/gsp/core/event.py:50-51 | the callbacks a dispatch reaches, one per call, in call order |
| Events.Event.constructor | src/gsp/core/event.py:19-21 | a new event has no subscribers |
| Events.Event.Subscribe | src/gsp/core/event.py:23-31 | the callback is appended, so it is called last |
| Events.Event.Unsubscribe | src/gsp/core/event.py:33-40 | succeeds iff the callback was subscribed, removing its first occurrence; otherwise ValueError and nothing changes |
| Events.Event.Dispatch | src/gsp/core/event.py:42-51 | every subscriber is called once per subscription, in subscription order, with the dispatched arguments |
| Events.Event.EventListener | src/gsp/core/event.py:53-65 | the decorator subscribes the callback and returns it unchanged |
| Events.DispatchCountsSubscriptions | src/gsp/core/event.py:50-51 | a callback subscribed k times is called k times per dispatch |
| Events.CountMatches | src/gsp/core/event.py:50-51 | the number of positions holding x equals x's multiplicity |
| BufferTypes.FromName | src/gsp/types/buffer_type.py:9-28 | looking a member up by name finds only the member with that name |
| BufferTypes.FromNameOfName | src/gsp/types/buffer_type.py:9-28 | every member is found by its own name |
| BufferTypes.ItemSize | src/gsp/types/buffer_type.py:31-56 | the item size is positive and is the component count times the component width (vec3 12, mat4 64, rgba8 4, ...) |
| BufferTypes.ToNumpyDtype | src/gsp/types/buffer_type.py:59-75 | each scalar type maps to the dtype of its own name and size, the vector types to float32, rgba8 to uint32, and only uvec4 and mat4 raise ValueError |
| BufferTypes.ToNumpyShape | src/gsp/types/buffer_type.py:91-101 | the per-item shape has one positive entry: the component count for vec2/vec3/vec4/rgba8, 1 for the rest |
| BufferTypes.FromNumpy | src/gsp/types/buffer_type.py:78-88 | only float32 arrays convert: 1-D to float32, 2-D with 2, 3 or 4 columns to the vector of that size; everything else is ValueError |
| BufferTypes.FromNumpyInvertsView | src/gsp/types/buffer_type.py:59-101 | the array view of a float type converts back to that type |
| BufferTypes.FromNumpyOnlyViews | src/gsp/types/buffer_type.py:78-88 | whatever converts is the view of its result type |
| BufferTypes.ViewBytes | src/gsp/types/buffer_type.py:59-101 | the bytes per item of the numpy view exist exactly when the dtype does |
| BufferTypes.Rgba8ViewMismatch | src/gsp/types/buffer_type.py:72-73 | the rgba8 view takes 16 bytes per item while an rgba8 item is 4 bytes |
| BufferTypes.ToNumpyDtypeCorrected | src/gsp/types/buffer_type.py:72-73 | rgba8 maps to uint8, every other type as before |
| BufferTypes.CorrectedViewMatchesItemSize | src/gsp/types/buffer_type.py:31-101 | with the correction, every viewable type's view has exactly the item size in bytes |
| Buffers.Zeros | src/gsp/types/buffer.py:29 | a fresh bytearray of n bytes, all zero |
| Buffers.Splice | src/gsp/types/buffer.py:92 | replacing a range keeps the length; the range holds the new bytes and every other byte is unchanged |
| Buffers.Buffer.constructor | src/gsp/types/buffer.py:19-29 | count and type are kept and the content is count times item size zero bytes |
| Buffers.Buffer.SetData | src/gsp/types/buffer.py:77-92 | fails with AssertionError iff offset + count exceeds the buffer's count, leaving it unchanged; otherwise exactly the target items are overwritten with the source's first bytes and the length is kept |
| Buffers.Buffer.GetData | src/gsp/types/buffer.py:59-75 | corrected: a new buffer of the same type holding the requested items' bytes, or AssertionError when they run past the end (the source has no such check) |
| Buffers.Buffer.ToBytearray | src/gsp/types/buffer.py:98-104 | the content, whose length is count times item size |
| Buffers.NewBuffer | src/gsp/types/buffer.py:19-29 | a negative count raises ValueError (from `bytearray`); otherwise a zeroed buffer of that count and type |
| Buffers.FromBytearray | src/gsp/types/buffer.py:106-124 | succeeds iff the length is a multiple of the item size (else AssertionError), with count length / item size and the same bytes |
| Buffers.BytesRoundTrip | src/gsp/types/buffer.py:98-124 | `from_bytearray(b.to_bytearray(), b.type)` has b's count, type and content |
| Buffers.SetDataAsWritten | src/gsp/types/buffer.py:77-92 | the splice as written keeps the buffer's length exactly when the source holds enough bytes |
| Buffers.SetDataAsWrittenAgrees | src/gsp/types/buffer.py:77-92 | with a long enough source, the splice as written is the corrected SetData |
| Buffers.ShortSourceShrinksBuffer | src/gsp/types/buffer.py:92 | copying 2 items from a 1-byte source into a 4-byte uint8 buffer leaves 3 bytes |
| Buffers.GetDataAsWritten | src/gsp/types/buffer.py:59-75 | `get_data` as written never checks the source range itself |
| Buffers.GetDataPastEndBreaksLength | src/gsp/types/buffer.py:59-75 | reading 2 items from offset 1 of a 2-item buffer yields a 2-item buffer holding 1 byte |
| Base64.Char | src/gsp/transforms/links/transform_link_immediate.py:49 | a sextet is written as one alphabet character, never the pad '=' |
| Base64.Index | src/gsp/transforms/links/transform_link_immediate.py:77 | a recognised character is the one Char writes for its value |
| Base64.IndexChar | src/gsp/transforms/links/transform_link_immediate.py:49-77 | every sextet reads back from its character |
| Base64.Encode | src/gsp/transforms/links/transform_link_immediate.py:49 | `b64encode` writes 4 characters per started group of 3 bytes, all from the alphabet except the padding |
| Base64.Run | src/gsp/transforms/links/transform_link_immediate.py:77 | the non-strict decoding loop only appends to the bytes already written |
| Base64.Decode | src/gsp_pydantic/serializer/pydantic_parser.py:95 | `b64decode` on a str: text with a non-ASCII character never decodes |
| Base64.DecodeUtf8 | src/gsp/transforms/links/transform_link_immediate.py:77 | `b64decode` of the UTF-8 bytes of a text: on ASCII text the same as decoding the str |
| Base64.Group3Values | src/gsp/transforms/links/transform_link_immediate.py:49-77 | the four sextets of a 3-byte group reassemble the three bytes |
| Base64.RunGroup3 | src/gsp/transforms/links/transform_link_immediate.py:49-77 | a full group writes its three bytes and leaves the loop at the start of the next group |
| Base64.RunGroup2 | src/gsp/transforms/links/transform_link_immediate.py:49-77 | a final group of two bytes and one pad writes the two bytes and ends the decoding, whatever follows |
| Base64.RunGroup1 | src/gsp/transforms/links/transform_link_immediate.py:49-77 | a final group of one byte and two pads writes the byte and ends the decoding, whatever follows |
| Base64.RunEncode | src/gsp/transforms/links/transform_link_immediate.py:49-77 | the loop run over an encoding appends exactly the encoded bytes |
| Base64.DecodeEncode | src/gsp_pydantic/serializer/pydantic_parser.py:95 | `b64decode(b64encode(b)) == b` for every byte string |
| Base64.DecodeUtf8Encode | src/gsp/transforms/links/transform_link_immediate.py:49-77 | decoding the UTF-8 bytes of `b64encode(b)` gives b back |
| Base64.RunSkips | src/gsp/transforms/links/transform_link_immediate.py:77 | a character outside the alphabet other than '=' can be removed from anywhere without changing the loop's result |
| Base64.DecodeSkips | src/gsp_pydantic/serializer/pydantic_parser.py:95 | an ASCII character outside the alphabet, such as a line break, is discarded wherever it stands |
| Base64.DecodeUtf8SkipsNonAscii | src/gsp/transforms/links/transform_link_immediate.py:77 | the UTF-8 bytes of a non-ASCII character are discarded wherever it stands |
| Base64.TrailingNewlineDecodes | src/gsp_pydantic/serializer/pydantic_parser.py:95 | an encoded payload followed by a line break decodes to the payload's bytes |
| Base64.DataAfterPaddingIgnored | src/gsp_pydantic/serializer/pydantic_parser.py:95 | characters after the padding that completes a group are not decoded, though a non-ASCII one still makes the str fail |
| TransformLinks.FieldIndex | src/gsp/transforms/links/transform_accessor.py:23-24 | r/x select component 0, g/y 1, b/z 2 and a/w 3 |
| TransformLinks.Apply | src/gsp/transforms/links/transform_link_immediate.py:28-37 | an immediate link returns its own buffer whatever the input; an accessor fails: AssertionError without input or with a count not a multiple of 4, otherwise NotImplementedError (src/gsp/transforms/links/transform_accessor.py:18-34) |
| TransformLinks.Serialize | src/gsp/transforms/links/transform_link_immediate.py:43-57 | the record names the link type, carries the count, a type name that looks up to the buffer's type, and base64 text that decodes to the buffer's bytes both as a str and as its UTF-8 bytes |
| TransformLinks.Deserialize | src/gsp/transforms/links/transform_link_immediate.py:59-82 | a wrong link type is AssertionError and an unknown type name KeyError; on success a fresh buffer of the given count and type holding the first count items of the payload, whose UTF-8 bytes are decoded non-strictly; it succeeds exactly when the payload decodes to at least count items |
| TransformLinks.SerializeRoundTrip | src/gsp/transforms/links/transform_link_immediate.py:43-82 | deserializing a serialized link gives a link whose output has the original's count, type and bytes |
| TransformChains.FoldSnoc | src/gsp/transforms/transform_chain.py:81-82 | running one more link feeds it the previous output and stops at the first error |
| TransformChains.RunIsLastOutput | src/gsp/transforms/transform_chain.py:74-88 | a non-empty chain's result is its last link applied to the output of the others |
| TransformChains.RunEmptyFails | src/gsp/transforms/transform_chain.py:85 | running an empty chain fails its assertion |
| TransformChains.FoldNonEmptyProduces | src/gsp/transforms/transform_chain.py:81-85 | a non-empty chain that does not raise always produces a buffer, so the final assertion only fails on an empty chain |
| TransformChains.AccessorChainFails | src/gsp/transforms/links/transform_accessor.py:18-34 | any chain containing an accessor link raises |
| TransformChains.ImmediateChainReturnsLast | src/gsp/transforms/transform_chain.py:74-88 | a chain of immediate links returns the last link's buffer |
| TransformChains.ImmediateFoldSucceeds | src/gsp/transforms/transform_chain.py:81-82 | folding immediate links never raises |
| TransformChains.TransformChain.constructor | src/gsp/transforms/transform_chain.py:12-23 | the chain starts without links and keeps the declared count (-1 or more) and type |
| TransformChains.TransformChain.GetBufferCount | src/gsp/transforms/transform_chain.py:38-46 | the count, exactly when the chain is fully defined (type set, count not negative); AssertionError otherwise |
| TransformChains.TransformChain.GetBufferType | src/gsp/transforms/transform_chain.py:48-56 | the type, exactly when the chain is fully defined; AssertionError otherwise |
| TransformChains.TransformChain.Add | src/gsp/transforms/transform_chain.py:62-64 | appends the link |
| TransformChains.TransformChain.Remove | src/gsp/transforms/transform_chain.py:66-68 | removes the first occurrence of a present link; ValueError and no change otherwise |
| TransformChains.TransformChain.Run | src/gsp/transforms/transform_chain.py:74-88 | the loop computes the fold of the links from no input, failing on an empty chain |
| TransformChains.NewTransformChain | src/gsp/transforms/transform_chain.py:12-23 | a count below -1 fails the assertion; otherwise an empty chain with that count and type |
| TransformRegistry.Registry.constructor | src/gsp/transforms/transform_registry.py:24 | the registry starts empty |
| TransformRegistry.Registry.RegisterLink | src/gsp/transforms/transform_registry.py:26-34 | the name now maps to the class, replacing any earlier one, and no other name changes |
| TransformRegistry.Registry.GetLinkClass | src/gsp/transforms/transform_registry.py:36-51 | the registered class for a known name, ValueError for any other |
| TransformRegistry.ImportLinks | src/gsp/transforms/links/transform_link_immediate.py:85-86 | after the links module is imported exactly `TransformImmediate` is registered |
| TransBufs.ToBuffer | src/gsp/utils/transbuf_utils.py:25-47 | a buffer is returned as is, a chain is run, any other object raises ValueError |
| TransBufs.ResolveIdempotent | src/gsp/utils/transbuf_utils.py:25-47 | converting an already converted value gives the same buffer |
| GroupUtils.IntsOf | src/gsp/utils/group_utils.py:105 | the integers of a list of ints, in order |
| GroupUtils.IntListsOf | src/gsp/utils/group_utils.py:113 | the integer lists of a list of int lists, in order |
| GroupUtils.TypedGroupsAreInstances | src/gsp/utils/group_utils.py:34-53 | every value of the typed union int / list[int] / list[list[int]] passes `is_instance_of_groups` |
| GroupUtils.GroupsFormatOf | src/gsp/utils/group_utils.py:63-79 | an int is format_int; a non-empty list whose first item is an int is format_list_int; a non-empty list whose first item is a non-empty list starting with an int is format_list_list_int; anything else is ValueError |
| GroupUtils.GetGroupCount | src/gsp/utils/group_utils.py:11-28 | the int itself, or the list's length, whenever the format is known; ValueError otherwise |
| GroupUtils.Range | src/gsp/utils/group_utils.py:205 | `list(range(a, b))`: b - a consecutive integers from a, or nothing |
| GroupUtils.RangeConcat | src/gsp/utils/group_utils.py:199-205 | adjacent ranges join into one |
| GroupUtils.FlattenContains | src/gsp/utils/group_utils.py:114 | an index of any group is in the flattened list |
| GroupUtils.DistinctIffSetSize | src/gsp/utils/group_utils.py:117 | `len(set(x)) == len(x)` holds exactly when no index repeats |
| GroupUtils.AllInParts | src/gsp/utils/group_utils.py:115 | indices all in range when flattened are in range in every group |
| GroupUtils.SanityCheck | src/gsp/utils/group_utils.py:85-121 | an int must be in (0, vertex_count]; sizes must be positive and sum to vertex_count; index lists must stay in [0, vertex_count) without repeats; any other value, or any violation, is ValueError |
| GroupUtils.SanityCheckSafe | src/gsp/utils/group_utils.py:123-136 | true exactly when the sanity check raises nothing |
| GroupUtils.Ranges | src/gsp/utils/group_utils.py:199-205 | one range per pair of consecutive bounds |
| GroupUtils.FlattenRanges | src/gsp/utils/group_utils.py:199-205 | ranges between ordered bounds flatten to the range from the first to the last bound |
| GroupUtils.RangesDisjoint | src/gsp/utils/group_utils.py:199-205 | ranges between ordered bounds never share an index |
| GroupUtils.IntBounds | src/gsp/utils/group_utils.py:199-202 | g + 1 group bounds, from 0 up to vertex_count, the last group taking what remains |
| GroupUtils.IntBoundsOrdered | src/gsp/utils/group_utils.py:199-202 | the bounds are non-decreasing while e(g - 1) fits in the vertex count |
| GroupUtils.ElementCountFits | src/gsp/utils/group_utils.py:197 | the group size as written never overshoots: e(g - 1) <= n |
| GroupUtils.ConsecutiveGroups | src/gsp/utils/group_utils.py:199-205 | the loop appends exactly the ranges between consecutive bounds |
| GroupUtils.IndicesPerGroupInt | src/gsp/utils/group_utils.py:174-207 | `_compute_indices_per_group_int` as written: the ranges of the bounds with its group size |
| GroupUtils.IntPartitionCovers | src/gsp/utils/group_utils.py:174-207 | as written, the groups still cover 0..n-1 exactly once |
| GroupUtils.IntPartitionExample | src/gsp/utils/group_utils.py:184-185 | 7 vertices in 4 groups give [[0, 1], [2, 3], [4, 5], [6]], the documented example |
| GroupUtils.IntPartitionEmptyGroup | src/gsp/utils/group_utils.py:197 | 4 vertices in 3 groups leave the last group empty |
| GroupUtils.CorrectedCountFits | src/gsp/utils/group_utils.py:197 | the corrected size is at least 1 and leaves a non-empty last group |
| GroupUtils.IntBoundsIncreasing | src/gsp/utils/group_utils.py:199-202 | with that size the bounds strictly increase |
| GroupUtils.StrictPartition | src/gsp/utils/group_utils.py:199-205 | strictly increasing bounds give disjoint, non-empty ranges covering the span |
| GroupUtils.CorrectedPartitionNonEmpty | src/gsp/utils/group_utils.py:174-207 | with the corrected size, g groups cover 0..n-1 exactly once and none is empty |
| GroupUtils.SizeBounds | src/gsp/utils/group_utils.py:226-233 | the running start index before each group is the sum of the sizes before it |
| GroupUtils.SumSnoc | src/gsp/utils/group_utils.py:233 | the running sum grows by the current group size |
| GroupUtils.SizeBoundsOrdered | src/gsp/utils/group_utils.py:226-233 | non-negative sizes give non-decreasing starts |
| GroupUtils.PrefixSumMono | src/gsp/utils/group_utils.py:226-233 | sums of longer prefixes of non-negative sizes are not smaller |
| GroupUtils.IndicesPerGroupListInt | src/gsp/utils/group_utils.py:210-235 | the loop appends the range of each group size from the running start |
| GroupUtils.SizesPartitionCovers | src/gsp/utils/group_utils.py:210-235 | positive sizes give disjoint groups of exactly those sizes covering 0..sum-1 |
| GroupUtils.ComputeIndicesPerGroup | src/gsp/utils/group_utils.py:142-167 | AssertionError iff the sanity check fails; otherwise the int form gives the ranges of `_compute_indices_per_group_int` as written (group length `n // (g - 1)` when g does not divide n, possibly an empty last group), the size form one range per size with that many indices, both partitioning 0..vertex_count-1, and the list-of-lists form the given lists unchanged |
| GroupUtils.IndicesPerGroupIntCorrected | src/gsp/utils/group_utils.py:174-207 | the int form with the corrected group size |
| Canvases.Canvas.constructor | src/gsp/core/canvas.py:14-25 | the canvas keeps the given width, height and dpi; its uuid is a parameter |
| Canvases.Canvas.SetWidth | src/gsp/core/canvas.py:44-50 | the width changes and nothing else |
| Canvases.Canvas.SetHeight | src/gsp/core/canvas.py:56-62 | the height changes and nothing else |
| Canvases.Canvas.SetDpi | src/gsp/core/canvas.py:68-74 | the dpi changes and nothing else |
| Viewports.Viewport.constructor | src/gsp/core/viewport.py:15-28 | the viewport keeps the given x, y, width and height; its uuid is a parameter |
| Viewports.Viewport.SetX | src/gsp/core/viewport.py:51-57 | x changes and nothing else |
| Viewports.Viewport.SetY | src/gsp/core/viewport.py:67-73 | y changes and nothing else |
| Viewports.Viewport.SetWidth | src/gsp/core/viewport.py:83-89 | the width changes and nothing else |
| Viewports.Viewport.SetHeight | src/gsp/core/viewport.py:99-105 | the height changes and nothing else |
| Cameras.Camera.constructor | src/gsp/core/camera.py:14-23 | the camera keeps both matrices; its uuid is a parameter |
| Cameras.Camera.SetViewMatrix | src/gsp/core/camera.py:39-45 | the view matrix changes and nothing else |
| Cameras.Camera.SetProjectionMatrix | src/gsp/core/camera.py:55-61 | the projection matrix changes and nothing else |
| Textures.Texture.constructor | src/gsp/core/texture.py:16-29 | positive dimensions give a valid texture with the given buffer and size |
| Textures.Texture.SetBuffer | src/gsp/core/texture.py:45-47 | the buffer changes and nothing else |
| Textures.Texture.SetWidth | src/gsp/core/texture.py:53-56 | a positive width is stored; any other fails the assertion and leaves the texture as it was; the dimensions stay positive |
| Textures.Texture.SetHeight | src/gsp/core/texture.py:62-65 | a positive height is stored; any other fails the assertion and leaves the texture as it was |
| Textures.NewTexture | src/gsp/core/texture.py:16-29 | construction fails the assertion iff a dimension is not positive |
| VisualBases.AllBuffers | src/gsp/visuals/points.py:143-147 | the buffer-only checks pass exactly when every slot holds a buffer, else AssertionError |
| PointsVisual.SanityCheckAttributesBuffer | src/gsp/visuals/points.py:136-149 | passes exactly when all five attributes are buffers, since the general check accepts anything |
| PointsVisual.Points.constructor | src/gsp/visuals/points.py:17-35 | the visual keeps the five attributes; the check cannot fail |
| PointsVisual.Points.SetPositions | src/gsp/visuals/points.py:45-52 | positions change and nothing else |
| PointsVisual.Points.SetSizes | src/gsp/visuals/points.py:58-65 | sizes change and nothing else |
| PointsVisual.Points.SetFaceColors | src/gsp/visuals/points.py:71-78 | face colors change and nothing else |
| PointsVisual.Points.SetEdgeColors | src/gsp/visuals/points.py:84-91 | edge colors change and nothing else |
| PointsVisual.Points.SetEdgeWidths | src/gsp/visuals/points.py:97-104 | edge widths change and nothing else |
| PointsVisual.Points.SetAttributes | src/gsp/visuals/points.py:106-126 | each attribute passed as non-None replaces the old one, the others stay |
| PixelsVisual.SlotCount | src/gsp/visuals/pixels.py:91 | a buffer's count, a defined chain's declared count, AttributeError for anything else |
| PixelsVisual.SanityCheckAttributes | src/gsp/visuals/pixels.py:74-103 | skipped while either chain is undefined; otherwise passes iff the groups are valid for the position count and the color count equals the group count |
| PixelsVisual.SanityCheckAttributeBuffers | src/gsp/visuals/pixels.py:62-72 | requires both attributes to be buffers, then the same conditions |
| PixelsVisual.GroupIndices | src/gsp/visuals/pixels.py:91-103 | for checked buffers there is one index list per color, all in range, partitioning the positions unless the groups are explicit lists |
| PixelsVisual.Pixels.constructor | src/gsp/visuals/pixels.py:10-15 | the visual keeps positions, colors and groups |
| PixelsVisual.Pixels.SetPositions | src/gsp/visuals/pixels.py:26-28 | positions are stored even when the following check fails, and the result is that check |
| PixelsVisual.Pixels.SetColors | src/gsp/visuals/pixels.py:33-35 | colors are stored, then checked |
| PixelsVisual.Pixels.SetGroups | src/gsp/visuals/pixels.py:40-42 | groups are stored, then checked |
| PixelsVisual.Pixels.SetAttributes | src/gsp/visuals/pixels.py:44-52 | the non-None arguments replace their attributes, then one check runs |
| PixelsVisual.NewPixels | src/gsp/visuals/pixels.py:10-17 | construction raises exactly what the check raises |
| SegmentsVisual.SanityCheckAttributesBuffer | src/gsp/visuals/segments.py:117-128 | passes exactly when positions, line widths and colors are buffers, since the general check accepts anything |
| SegmentsVisual.Segments.constructor | src/gsp/visuals/segments.py:19-33 | the visual keeps the four attributes |
| SegmentsVisual.Segments.SetPositions | src/gsp/visuals/segments.py:43-49 | positions change and nothing else |
| SegmentsVisual.Segments.SetLineWidths | src/gsp/visuals/segments.py:56-62 | line widths change and nothing else |
| SegmentsVisual.Segments.SetCapStyle | src/gsp/visuals/segments.py:69-75 | the cap style changes and nothing else |
| SegmentsVisual.Segments.SetColors | src/gsp/visuals/segments.py:82-88 | colors change and nothing else |
| SegmentsVisual.Segments.SetAttributes | src/gsp/visuals/segments.py:91-107 | the non-None arguments replace their attributes, the others stay |
| PathsVisual.SanityCheckAttributesBuffer | src/gsp/visuals/paths.py:193-212 | passes exactly when positions, path sizes, colors and line widths are buffers |
| PathsVisual.Paths.constructor | src/gsp/visuals/paths.py:24-43 | the visual keeps the six attributes |
| PathsVisual.Paths.SetPositions | src/gsp/visuals/paths.py:57-64 | positions change and nothing else |
| PathsVisual.Paths.SetPathSizes | src/gsp/visuals/paths.py:74-81 | path sizes change and nothing else |
| PathsVisual.Paths.SetColors | src/gsp/visuals/paths.py:91-98 | colors change and nothing else |
| PathsVisual.Paths.SetLineWidths | src/gsp/visuals/paths.py:108-115 | line widths change and nothing else |
| PathsVisual.Paths.SetCapStyle | src/gsp/visuals/paths.py:142-149 | the cap style changes and nothing else |
| PathsVisual.Paths.SetJoinStyle | src/gsp/visuals/paths.py:125-132 | the join style changes and nothing else |
| PathsVisual.Paths.SetAttributes | src/gsp/visuals/paths.py:151-182 | the non-None arguments replace their attributes, the others stay |
| MarkersVisual.SanityCheckAttributesBuffer | src/gsp/visuals/markers.py:187-207 | passes exactly when the five array attributes are buffers |
| MarkersVisual.Markers.constructor | src/gsp/visuals/markers.py:26-46 | the visual keeps the shape and the five attributes |
| MarkersVisual.Markers.SetMarkerShape | src/gsp/visuals/markers.py:60-67 | the shape changes and nothing else |
| MarkersVisual.Markers.SetPositions | src/gsp/visuals/markers.py:77-84 | positions change and nothing else |
| MarkersVisual.Markers.SetSizes | src/gsp/visuals/markers.py:94-101 | sizes change and nothing else |
| MarkersVisual.Markers.SetFaceColors | src/gsp/visuals/markers.py:111-118 | face colors change and nothing else |
| MarkersVisual.Markers.SetEdgeColors | src/gsp/visuals/markers.py:128-135 | edge colors change and nothing else |
| MarkersVisual.Markers.SetEdgeWidths | src/gsp/visuals/markers.py:145-152 | edge widths change and nothing else |
| MarkersVisual.Markers.SetAttributes | src/gsp/visuals/markers.py:154-176 | the non-None arguments replace their attributes, the others stay |
| TextsVisual.SanityCheckAttributesBuffer | src/gsp/visuals/texts.py:176-209 | passes exactly when the five array attributes are buffers each holding one item per string, the font name is not empty and every string is a str; AssertionError otherwise |
| TextsVisual.Texts.constructor | src/gsp/visuals/texts.py:13-43 | the visual keeps the seven attributes |
| TextsVisual.Texts.SetPositions | src/gsp/visuals/texts.py:53-60 | positions change and nothing else |
| TextsVisual.Texts.SetStrings | src/gsp/visuals/texts.py:66-73 | the strings change and nothing else |
| TextsVisual.Texts.SetColors | src/gsp/visuals/texts.py:79-86 | colors change and nothing else |
| TextsVisual.Texts.SetFontSizes | src/gsp/visuals/texts.py:92-99 | font sizes change and nothing else |
| TextsVisual.Texts.SetAnchors | src/gsp/visuals/texts.py:105-112 | anchors change and nothing else |
| TextsVisual.Texts.SetAngles | src/gsp/visuals/texts.py:118-125 | angles change and nothing else |
| TextsVisual.Texts.SetFontName | src/gsp/visuals/texts.py:131-138 | the font name changes and nothing else |
| TextsVisual.Texts.SetAttributes | src/gsp/visuals/texts.py:140-165 | the non-None arguments replace their attributes, the others stay |
| ImageVisual.SanityCheckAttributes | src/gsp/visuals/image.py:84-94 | passes exactly when the texture argument is a Texture, else TypeError; the buffer variant is the same check |
| ImageVisual.Image.constructor | src/gsp/visuals/image.py:14-28 | the visual keeps texture, position and extent |
| ImageVisual.Image.SetTexture | src/gsp/visuals/image.py:42-45 | the texture is stored, and the check then passes exactly when it is a Texture |
| ImageVisual.Image.SetPosition | src/gsp/visuals/image.py:51-54 | the position is stored, then checked |
| ImageVisual.Image.SetExtent | src/gsp/visuals/image.py:60-63 | the extent is stored, then checked |
| ImageVisual.Image.SetAttributes | src/gsp/visuals/image.py:65-75 | the non-None arguments replace their attributes, then one check runs |
| ImageVisual.NewImage | src/gsp/visuals/image.py:14-28 | construction raises TypeError exactly when the texture is not a Texture |
| UnitUtils.PixelToPoint | src/gsp/utils/unit_utils.py:9-22 | ZeroDivisionError iff dpi is 0; otherwise points times dpi equals pixels times 72 |
| UnitUtils.PointToPixel | src/gsp/utils/unit_utils.py:25-38 | pixels times 72 equals points times dpi |
| UnitUtils.PixelPointRoundTrip | src/gsp/utils/unit_utils.py:9-38 | for a non-zero dpi the two conversions undo each other in both orders |
| UnitUtils.ConversionsLinear | src/gsp/utils/unit_utils.py:9-38 | both conversions are linear in the size, and at 72 dpi a pixel is a point |
| ViewportUnitUtils.InToCm | examples/gsp_extra/misc/viewport_unit_utils.py:34 | inches to centimetres: times 2.54 |
| ViewportUnitUtils.Divide | examples/gsp_extra/misc/viewport_unit_utils.py:33 | Python's `/`: ZeroDivisionError iff the divisor is 0, otherwise the quotient |
| ViewportUnitUtils.ViewportUnitConverter.constructor | examples/gsp_extra/misc/viewport_unit_utils.py:12-15 | the converter keeps the canvas and the viewport |
| ViewportUnitUtils.ViewportUnitConverter.CanvasWidthCmAsWritten | examples/gsp_extra/misc/viewport_unit_utils.py:31-35 | as written it always raises: ZeroDivisionError for dpi 0, AttributeError otherwise, since the inch-to-centimetre helper does not exist |
| ViewportUnitUtils.ViewportUnitConverter.CanvasWidthCm | examples/gsp_extra/misc/viewport_unit_utils.py:31-35 | the canvas width in centimetres: width / dpi inches times 2.54, ZeroDivisionError for dpi 0 |
| ViewportUnitUtils.ViewportUnitConverter.CanvasHeightCm | examples/gsp_extra/misc/viewport_unit_utils.py:37-41 | the canvas height in centimetres, ZeroDivisionError for dpi 0 |
| ViewportUnitUtils.ViewportUnitConverter.ViewportWidthCm | examples/gsp_extra/misc/viewport_unit_utils.py:49-53 | the viewport's share of the canvas width in centimetres; ZeroDivisionError iff the canvas width or dpi is 0 |
| ViewportUnitUtils.ViewportUnitConverter.ViewportHeightCm | examples/gsp_extra/misc/viewport_unit_utils.py:55-59 | the viewport's share of the canvas height in centimetres; ZeroDivisionError iff the canvas height or dpi is 0 |
| ViewportUnitUtils.ViewportUnitConverter.DeltaPixelToNdc | examples/gsp_extra/misc/viewport_unit_utils.py:61-69 | a pixel delta over the viewport size times the NDC range 2, per axis; ZeroDivisionError for an empty viewport |
| ViewportUnitUtils.ViewportUnitConverter.DeltaCmToNdc | examples/gsp_extra/misc/viewport_unit_utils.py:71-79 | a centimetre delta over the viewport size in centimetres times 2, per axis; ZeroDivisionError when any size involved is 0 |
| ViewportUnitUtils.ViewportUnitConverter.FullViewportIsTwo | examples/gsp_extra/misc/viewport_unit_utils.py:61-79 | the whole viewport, in pixels or in centimetres, spans 2 NDC units on each axis |
| ViewportUnitUtils.ViewportUnitConverter.PixelConversionLinear | examples/gsp_extra/misc/viewport_unit_utils.py:61-69 | the pixel conversion is linear and maps 0 to 0 |
| ViewportUnitUtils.ViewportUnitConverter.CmConversionLinear | examples/gsp_extra/misc/viewport_unit_utils.py:71-79 | the centimetre conversion is linear and maps 0 to 0 |
| ViewportUnitUtils.ViewportUnitConverter.CentimetresAgreeWithPixels | examples/gsp_extra/misc/viewport_unit_utils.py:61-79 | a pixel delta converted to centimetres at the canvas dpi lands on the same NDC delta as the pixel conversion |
| PydanticTypes.VisualType | src/gsp_pydantic/types/pydantic_types.py:229 | the discriminator is one of the seven literal type names |
| PydanticTypes.VisualTypeDiscriminates | src/gsp_pydantic/types/pydantic_types.py:222-230 | two serialized visuals have the same type name exactly when they are the same kind of visual |
| PydanticSerializers.BufferToPydantic | src/gsp_pydantic/serializer/pydantic_serializer.py:208-214 | the serialized buffer keeps the buffer's count |
| PydanticSerializers.BufferToPydanticReadsBack | src/gsp_pydantic/serializer/pydantic_serializer.py:208-214 | the serialized type name reads back as the buffer's type and the base64 payload decodes to the buffer's bytes |
| PydanticSerializers.TransBufToPydantic | src/gsp_pydantic/serializer/pydantic_serializer.py:205-227 | succeeds exactly on a buffer, giving the serialized buffer; a transform chain fails with AttributeError and any other object with ValueError |
| PydanticSerializers.SlotsToPydantic | src/gsp_pydantic/serializer/pydantic_serializer.py:113-127 | the slots of a visual serialized left to right: success exactly when every slot is a buffer, each serialized as `_transbuf_to_pydantic` does, and otherwise the AttributeError or ValueError of the first slot that is not |
| PydanticSerializers.GroupsFromPy | src/gsp_pydantic/types/pydantic_types.py:49-52 | accepts exactly an int, a list of ints or a list of lists of ints, and what it accepts converts back to the same value; everything else is a ValueError |
| PydanticSerializers.StringsOf | src/gsp_pydantic/types/pydantic_types.py:214 | accepts exactly a list whose items are all strings, keeping them in order; otherwise a ValueError |
| PydanticSerializers.MarkersToPydantic | src/gsp_pydantic/serializer/pydantic_serializer.py:113-127 | a markers visual serializes with its uuid, its shape's name and its five slots serialized in order, and fails with the first slot's error |
| PydanticSerializers.PathsToPydantic | src/gsp_pydantic/serializer/pydantic_serializer.py:128-142 | a paths visual serializes with its uuid, its four slots and its cap and join style names, and fails with the first slot's error |
| PydanticSerializers.PixelsToPydantic | src/gsp_pydantic/serializer/pydantic_serializer.py:143-154 | a pixels visual serializes with its uuid, its two slots and groups that convert back to its own; groups of another shape are a ValueError |
| PydanticSerializers.PointsToPydantic | src/gsp_pydantic/serializer/pydantic_serializer.py:155-168 | a points visual serializes with its uuid and its five slots, and fails with the first slot's error |
| PydanticSerializers.SegmentsToPydantic | src/gsp_pydantic/serializer/pydantic_serializer.py:169-181 | a segments visual serializes with its uuid, its three slots and its cap style name, and fails with the first slot's error |
| PydanticSerializers.TextsToPydantic | src/gsp_pydantic/serializer/pydantic_serializer.py:182-197 | a texts visual serializes exactly when its slots are buffers and its strings are strings; a failing slot's error comes first, since every slot is serialized before the strings are validated, and otherwise the error is ValueError; the record keeps its uuid, font name, slots and strings |
| PydanticSerializers.VisualToPydantic | src/gsp_pydantic/serializer/pydantic_serializer.py:112-199 | succeeds exactly on a serializable visual, with the visual's type name and uuid and its slots serialized; an image raises NotImplementedError |
| PydanticSerializers.VisualsToPydantic | src/gsp_pydantic/serializer/pydantic_serializer.py:110-202 | succeeds exactly when every visual is serializable, giving their serialized forms in order; otherwise fails with the error of the first visual that is not, a NotImplementedError, AttributeError or ValueError |
| PydanticSerializers.ModelMatricesToPydantic | src/gsp_pydantic/serializer/pydantic_serializer.py:77 | succeeds exactly when every model matrix is a buffer, serializing each in order |
| PydanticSerializers.CamerasToPydantic | src/gsp_pydantic/serializer/pydantic_serializer.py:79-86 | succeeds exactly when both matrices of every camera are buffers, keeping each camera's uuid and serializing its view and projection matrices |
| PydanticSerializers.Serialize | src/gsp_pydantic/serializer/pydantic_serializer.py:46-103 | the scene is produced exactly when every visual, model matrix and camera serializes, and then holds the canvas, every viewport, visual, model matrix and camera in order |
| PydanticParsers.DecodeTransBuf | src/gsp_pydantic/serializer/pydantic_parser.py:90-102 | a serialized buffer decodes exactly when its type name is a known type, its payload decodes under `b64decode`'s non-strict rules and the payload holds exactly count items; the result keeps that count, type and payload; a transform chain is NotImplementedError |
| PydanticParsers.SerializedBufferDecodes | src/gsp_pydantic/serializer/pydantic_parser.py:90-102 | serializing a valid buffer and decoding the result gives back its type, count and bytes |
| PydanticParsers.PydanticToTransBuf | src/gsp_pydantic/serializer/pydantic_parser.py:90-102 | builds a new buffer holding the decoded value exactly when the serialized buffer decodes, and fails with the decoding's error otherwise |
| PydanticParsers.ParseModelMatrices | src/gsp_pydantic/serializer/pydantic_parser.py:66-72 | succeeds exactly when every model matrix decodes, giving new buffers holding them in order |
| PydanticParsers.ParseCameras | src/gsp_pydantic/serializer/pydantic_parser.py:74-84 | succeeds exactly when both matrices of every camera decode, giving new cameras with the same uuids holding the decoded matrices |
| PydanticParsers.Parse | src/gsp_pydantic/serializer/pydantic_parser.py:28-87 | the scene parses exactly when every buffer in it decodes; the canvas and viewports keep their uuids and sizes, the visuals list is empty, and model matrices and cameras hold their decoded buffers |
| PydanticParsers.SerializeThenParse | src/gsp_pydantic/serializer/pydantic_parser.py:28-87 | parsing a serialized scene succeeds exactly when serializing did, and gives back the canvas, the viewports, the model matrices' contents and the cameras' uuids and matrix contents |
| JsonMessages.OperatorFromName | src/gsp/renderer/json/gsp_messages_pydantic.py:91-92 | accepts exactly the four literal names, each as the operator it spells |
| JsonMessages.OperatorNameRoundTrip | src/gsp/renderer/json/gsp_messages_pydantic.py:91-92 | every operator's name reads back as that operator |
| JsonRenderers.ConsecutiveIdsIncrease | src/gsp/renderer/json/gsp_messages_pydantic.py:8-10 | messages numbered one after another from any first id have increasing ids, as the id field is documented |
| JsonRenderers.JsonRenderer.constructor | src/gsp/renderers/json/renderer.py:11-13 | the renderer keeps its canvas and its counter starts at zero |
| JsonRenderers.JsonRenderer.GetMessageId | src/gsp/renderers/json/renderer.py:53-56 | the counter goes up by one and the new value is the id |
| JsonRenderers.JsonRenderer.RenderPoints | src/gsp/renderers/json/renderer.py:58-62 | a Points visual renders to no messages |
| JsonRenderers.JsonRenderer.Render | src/gsp/renderers/json/renderer.py:15-51 | as written: any viewport ends in AttributeError after two ids are taken; without viewports a Points visual ends in NameError, and otherwise the result is the canvas message alone |
| JsonRenderers.JsonRenderer.RenderCorrected | src/gsp/renderers/json/renderer.py:15-51 | the canvas message and then one message per viewport in order, naming the canvas, with ids continuing the counter so that they increase |
| ExprTrees.Symbol | src/gsp_extra/transform_links/expr_tree/transform_exprtree.py:200-263 | each operator's symbol is a single character |
| ExprTrees.Apply | src/gsp_extra/transform_links/expr_tree/transform_exprtree.py:205-274 | an operator fails only for a division by zero, with ZeroDivisionError, and a quotient times the divisor gives back the dividend |
| ExprTrees.Eval | src/gsp_extra/transform_links/expr_tree/transform_exprtree.py:104-149 | a successful evaluation had every variable of the tree in the context; the only failures are KeyError and ZeroDivisionError |
| ExprTrees.KeyErrorOnlyWhenMissing | src/gsp_extra/transform_links/expr_tree/transform_exprtree.py:147-148 | a KeyError means some variable of the tree is missing from the context |
| ExprTrees.EvalLocal | src/gsp_extra/transform_links/expr_tree/transform_exprtree.py:135-149 | two contexts that agree on the tree's variables give the same result |
| ExprTrees.ClosedEvalIgnoresContext | src/gsp_extra/transform_links/expr_tree/transform_exprtree.py:104-113 | a tree without variables evaluates the same in any context |
| ExprTrees.ToNode | src/gsp_extra/transform_links/expr_tree/transform_exprtree.py:72-83 | a node is kept as it is, and a number becomes a node that evaluates to that number in every context |
| ExprTrees.Forward | src/gsp_extra/transform_links/expr_tree/transform_exprtree.py:39-65 | the forward operator puts the node on the left of the new operation |
| ExprTrees.Reflected | src/gsp_extra/transform_links/expr_tree/transform_exprtree.py:43-69 | the reflected operator puts the node on the right of the new operation |
| ExprTrees.OperateKeepsOrder | src/gsp_extra/transform_links/expr_tree/transform_exprtree.py:39-83 | whichever operand is the node, the operation keeps the written order of its operands and evaluates them left to right |
| ExprTrees.ExampleEvaluatesToEight | src/gsp_extra/transform_links/expr_tree/transform_exprtree.py:298-304 | (5 + x) * (y - 1) builds the expected tree and evaluates to 8 with x = 3 and y = 2 |
| ExprTrees.ReprParenthesized | src/gsp_extra/transform_links/expr_tree/transform_exprtree.py:189-191 | the printed form holds exactly one opening and one closing parenthesis per operator when names and numbers hold none |
| ExprTrees.PrettyPrintLines | src/gsp_extra/transform_links/expr_tree/transform_exprtree.py:280-292 | the tree print is one line per node in pre-order, left child before right, each line under the given indentation with a branch marker |
| ExprTreeDemo.Apply | examples/gsp_extra/transform_links/expr_tree/transform_exprtree.py:80-97 | an operator fails only for a division by zero, with ZeroDivisionError |
| ExprTreeDemo.Evaluate | examples/gsp_extra/transform_links/expr_tree/transform_exprtree.py:47-97 | a successful evaluation of a tree with variables had a context holding all of them; the only failures are ValueError and ZeroDivisionError |
| ExprTreeDemo.ToNode | examples/gsp_extra/transform_links/expr_tree/transform_exprtree.py:39-41 | a node is kept as it is, and a number becomes a node that evaluates to that number |
| ExprTreeDemo.MakeBinOp | examples/gsp_extra/transform_links/expr_tree/transform_exprtree.py:71-74 | both operands are converted to nodes and the operation's variables are theirs together |
| ExprTreeDemo.Operate | examples/gsp_extra/transform_links/expr_tree/transform_exprtree.py:14-29 | an operation with a node on the left always builds, a number on the left builds only for addition, and anything else is a TypeError |
| ExprTreeDemo.ToLibraryVars | examples/gsp_extra/transform_links/expr_tree/transform_exprtree.py:58-65 | the demo tree and its library counterpart have the same variables |
| ExprTreeDemo.AgreesWithLibrary | examples/gsp_extra/transform_links/expr_tree/transform_exprtree.py:47-97 | the demo tree evaluates like the library tree, with the library's KeyError read as a ValueError |
| ExprTreeDemo.NoContext | examples/gsp_extra/transform_links/expr_tree/transform_exprtree.py:62-65 | without a context a tree with variables fails, and a tree without any evaluates as with any context |
| UnitExprTrees.AsNode | examples/gsp_extra/transform_links/expr_tree/transform_exprtree_g.py:38-51 | a node is kept and any other operand becomes a number node without a unit |
| UnitExprTrees.PyOp | examples/gsp_extra/transform_links/expr_tree/transform_exprtree_g.py:38-60 | with a node on the left the operation is that node's, with the other side converted; a number on the left of a node works for + and * with the operands swapped but not for -; a number times a unit works only for *; a unit on the left of a non-node is unsupported |
| UnitExprTrees.MulUnit | examples/gsp_extra/transform_links/expr_tree/transform_exprtree_g.py:150 | a product keeps the unit of whichever side has one and has none when both do |
| UnitExprTrees.EvaluateUnitIsUnitOf | examples/gsp_extra/transform_links/expr_tree/transform_exprtree_g.py:131-156 | the unit an evaluation reports is the one computed from the units alone |
| UnitExprTrees.NumericEvaluates | examples/gsp_extra/transform_links/expr_tree/transform_exprtree_g.py:131-156 | a tree of plain numbers evaluates exactly when its units check, to a number, and otherwise with the units' error |
| UnitExprTrees.Times | examples/gsp_extra/transform_links/expr_tree/transform_exprtree_g.py:175-179 | a number times a unit is a number node carrying that unit |
| UnitExprTrees.SumOfCentimetres | examples/gsp_extra/transform_links/expr_tree/transform_exprtree_g.py:206-215 | 5 cm + 10 cm evaluates to 15 cm |
| UnitExprTrees.VariableTimesTwoPlusTen | examples/gsp_extra/transform_links/expr_tree/transform_exprtree_g.py:218-228 | length * 2 + 10 with length = 20 evaluates to 50 without a unit |
| UnitExprTrees.NodeTimesUnit | examples/gsp_extra/transform_links/expr_tree/transform_exprtree_g.py:48-51 | as written: a node times a unit is the node's own multiplication, which wraps the unit object in a number node |
| UnitExprTrees.InchPlusCentimetresAsWritten | examples/gsp_extra/transform_links/expr_tree/transform_exprtree_g.py:231-242 | as written: length * inch evaluates to a number node rather than a number with a unit, so adding 10 cm fails with units None and cm instead of inch and cm |
| UnitExprTrees.InchTimesCountPlusFiftyAsWritten | examples/gsp_extra/transform_links/expr_tree/transform_exprtree_g.py:245-263 | as written: length * inch * count + 50 evaluates without error to a node and no unit, where a unit mismatch is expected |
| UnitExprTrees.NodeTimesUnitCorrected | examples/gsp_extra/transform_links/expr_tree/transform_exprtree_g.py:182-184 | a node times a unit multiplies the node by one of that unit |
| UnitExprTrees.NodeTimesUnitCorrectedCarriesUnit | examples/gsp_extra/transform_links/expr_tree/transform_exprtree_g.py:182-184 | a unitless numeric node times a unit evaluates to the same number carrying the unit |
| UnitExprTrees.InchPlusCentimetresCorrected | examples/gsp_extra/transform_links/expr_tree/transform_exprtree_g.py:231-242 | corrected: length * inch + 10 cm fails with the units inch and cm |
| UnitExprTrees.InchTimesCountPlusFiftyCorrected | examples/gsp_extra/transform_links/expr_tree/transform_exprtree_g.py:245-263 | corrected: length * inch * count + 50 fails with the units inch and None, as the test expects |
| AxesDisplays.Ceil | src/vispy_2/axes/axes_display.py:260 | the ceiling is the least integer not below its argument |
| AxesDisplays.TicksBelowExact | src/vispy_2/axes/axes_display.py:260-263 | the kept ticks are exactly the consecutive integers of the range that do not exceed the maximum, in increasing order |
| AxesDisplays.TicksExact | src/vispy_2/axes/axes_display.py:260-263 | the ticks of a range of limits are exactly the integers from the ceiling of the minimum up to the maximum, consecutive and increasing |
| AxesDisplays.TickMakesTicksNonEmpty | src/vispy_2/axes/axes_display.py:260-263 | any integer between the limits gives at least one tick |
| AxesDisplays.IntString | src/vispy_2/axes/axes_display.py:395 | the label of a tick is never empty |
| AxesDisplays.ParseIntOfIntString | src/vispy_2/axes/axes_display.py:395 | a tick's label reads back as the tick |
| AxesDisplays.IntStringInjective | src/vispy_2/axes/axes_display.py:395 | different ticks have different labels |
| AxesDisplays.LimitsOnEdges | src/vispy_2/axes/axes_display.py:266-269 | the minimum limit lands on the inner viewport's first edge and the maximum on its far edge, in the outer viewport's normalized coordinates |
| AxesDisplays.VerticalAnchorAsWrittenMisplaced | src/vispy_2/axes/axes_display.py:318-326 | as written: with a 100-pixel inner viewport in a 200-pixel-wide, 100-pixel-high canvas, the tick for the maximum limit 1 lands at height 0 instead of at the top edge 1 |
| AxesDisplays.ToNdcSameExtent | src/vispy_2/axes/axes_display.py:318-326 | a non-zero pixel offset lands on the same NDC coordinate over two extents exactly when they are equal |
| AxesDisplays.VerticalAnchorsAgree | src/vispy_2/axes/axes_display.py:318-326 | the vertical ticks as written sit where the per-axis conversion puts them, for every value, exactly when the outer viewport is square (inner viewport off the left edge) |
| AxesDisplays.NdcOfDelta | src/vispy_2/axes/axes_display.py:266-269 | a pixel offset converted to a normalized delta and shifted by one is that pixel's normalized coordinate |
| AxesDisplays.InnerNdcFraction | src/vispy_2/axes/axes_display.py:266-267 | the normalized tick position maps back to the fraction of the range the tick sits at |
| PyLists.Repeat | src/vispy_2/axes/axes_display.py:291-295 | n copies of one value, for the widths and colors of every segment |
| AxesDisplays.TickPositions | src/vispy_2/axes/axes_display.py:260-281 | two points per tick |
| AxesDisplays.LabelPositions | src/vispy_2/axes/axes_display.py:364-384 | one position per tick |
| AxesDisplays.TickPositionsAt | src/vispy_2/axes/axes_display.py:266-281 | each tick is a segment from its anchor outward by 0.2 cm, downward for the horizontal axis and leftward for the vertical one, with the vertical anchor as written (the y offset over the outer width, the x offset over the outer height) |
| AxesDisplays.Labels | src/vispy_2/axes/axes_display.py:389-396 | one label per tick |
| AxesDisplays.LabelsAt | src/vispy_2/axes/axes_display.py:395 | each label is its tick written in decimal |
| AxesDisplays.LabelsReadBack | src/vispy_2/axes/axes_display.py:395 | each label reads back as its tick |
| AxesDisplays.TicksVisualSizes | src/vispy_2/axes/axes_display.py:283-298 | a ticks visual has two points, one width and one color per tick |
| AxesDisplays.TextsVisualSizes | src/vispy_2/axes/axes_display.py:396-416 | a texts visual has one position, string, color, font size, anchor and angle per tick |
| AxesDisplays.AxisLinesMeetLimits | src/vispy_2/axes/axes_display.py:212-246 | the horizontal axis line runs from the minimum to the maximum x limit along the bottom edge, the vertical one from the minimum to the maximum y limit along the left edge |
| AxesDisplays.HorizontalTickAt | src/vispy_2/axes/axes_display.py:266-278 | a horizontal tick's anchor and length, or ZeroDivisionError exactly when the outer viewport or the dpi makes the conversion divide by zero |
| AxesDisplays.VerticalTickAt | src/vispy_2/axes/axes_display.py:318-330 | as written: the vertical tick's y comes from the x component of the pixel-to-NDC conversion and its x from the y component, with its length along x; ZeroDivisionError exactly when the outer viewport or the dpi makes a conversion divide by zero |
| AxesDisplays.TickAt | src/vispy_2/axes/axes_display.py:266-330 | the anchor and length of a tick on either axis, with the vertical anchor as written (the y offset over the outer width, the x offset over the outer height), and the same division-by-zero condition |
| AxesDisplays.TickSegmentAt | src/vispy_2/axes/axes_display.py:266-333 | the segment of one tick, with the vertical anchor as written (the y offset over the outer width, the x offset over the outer height), or ZeroDivisionError under the same condition |
| AxesDisplays.LabelPositionAt | src/vispy_2/axes/axes_display.py:364-450 | the position of one label 0.3 cm from the axis, with the vertical anchor as written (the y offset over the outer width, the x offset over the outer height), or ZeroDivisionError under the same condition |
| AxesDisplays.GenerateAxesSegments | src/vispy_2/axes/axes_display.py:212-246 | the two axis lines, or ZeroDivisionError exactly when the outer viewport has a zero side or the canvas a zero dpi |
| AxesDisplays.TickPositionsLoop | src/vispy_2/axes/axes_display.py:260-281 | the positions of the ticks kept from range(first, end) (the integers not above the maximum limit), in order, with the vertical anchor as written (the y offset over the outer width, the x offset over the outer height), failing exactly when a tick is kept and the conversion divides by zero |
| AxesDisplays.LabelPositionsLoop | src/vispy_2/axes/axes_display.py:364-384 | the positions of the labels of the ticks kept from range(first, end), in order, with the vertical anchor as written (the y offset over the outer width, the x offset over the outer height), failing exactly when a label is kept and the conversion divides by zero |
| AxesDisplays.LabelStringsLoop | src/vispy_2/axes/axes_display.py:389-396 | the labels `f"{k}"` of the ticks kept from range(first, end), in order |
| AxesDisplays.TickPositionsBuffer | src/vispy_2/axes/axes_display.py:259-284 | the positions of the axis's ticks in order, or an AssertionError when the axis has no integer tick between its limits (the empty positions array fails the (n, 3) shape assertion of `Bufferx.from_numpy`), otherwise ZeroDivisionError exactly when its conversions divide by zero |
| AxesDisplays.LabelPositionsBuffer | src/vispy_2/axes/axes_display.py:363-387 | the positions of the axis's labels in order, or an AssertionError when the axis has no integer tick between its limits (the empty positions array fails the (n, 3) shape assertion of `Bufferx.from_numpy`), otherwise ZeroDivisionError exactly when its conversions divide by zero |
| AxesDisplays.AxisError | src/gsp_matplotlib/extra/bufferx.py:69-71 | a failing axis raises AssertionError exactly when it has no tick (the (n, 3) shape assertion on an empty array), and ZeroDivisionError otherwise |
| AxesDisplays.GenerateTicks | src/vispy_2/axes/axes_display.py:249-350 | the ticks visual of an axis, vertical ticks placed as written, or an AssertionError when the axis has no integer tick between its limits (the empty positions array fails the (n, 3) shape assertion of `Bufferx.from_numpy`), otherwise ZeroDivisionError exactly when its conversions divide by zero |
| AxesDisplays.GenerateTexts | src/vispy_2/axes/axes_display.py:353-481 | the labels visual of an axis, vertical labels placed as written, or an AssertionError when the axis has no integer tick between its limits (the empty positions array fails the (n, 3) shape assertion of `Bufferx.from_numpy`), otherwise ZeroDivisionError exactly when its conversions divide by zero |
| AxesDisplays.DataToNdcLimits | src/vispy_2/axes/axes_display.py:96-105 | the data transform maps the minimum limit to -1, the maximum to 1 and the midpoint to 0 |
| AxesDisplays.DataToNdcIncreasing | src/vispy_2/axes/axes_display.py:96-105 | the data transform preserves order |
| AxesDisplays.TicksAlignWithData | src/vispy_2/axes/axes_display.py:96-105 | a tick is placed where the data transform sends its value inside the inner viewport |
| AxesDisplays.KeptUuid | src/vispy_2/axes/axes_display.py:145-153 | a rebuilt item keeps the uuid of the item it replaces, and a first build takes a new one |
| AxesDisplays.BuildOkFrom | src/vispy_2/axes/axes_display.py:139-209 | every generator from the first on succeeds exactly when the axis lines and both axes can be generated |
| AxesDisplays.BuildError | src/vispy_2/axes/axes_display.py:139-209 | the exception of a failing build is an AssertionError only when one of the axes has no tick |
| AxesDisplays.BuildErrorIsFirst | src/vispy_2/axes/axes_display.py:139-209 | the build's closed-form error is the exception of its first failing generator, the generators running in item order |
| AxesDisplays.BuiltItems | src/vispy_2/axes/axes_display.py:139-209 | five item slots |
| AxesDisplays.BuildOkFillsItems | src/vispy_2/axes/axes_display.py:139-209 | a build that succeeds leaves all five items set |
| AxesDisplays.StepItemPlacement | src/vispy_2/axes/axes_display.py:145-209 | the item each generator creates lives in the outer viewport and carries the previous uuid, or the new one when there was no previous item |
| AxesDisplays.BuiltItemsKeepUuids | src/vispy_2/axes/axes_display.py:139-209 | every slot is either left as it was or holds an item in the outer viewport whose uuid is the previous item's, or a new one on a first build |
| AxesDisplays.SegmentsStep | src/vispy_2/axes/axes_display.py:145-153 | the axis lines' item, or ZeroDivisionError exactly when their conversion divides by zero |
| AxesDisplays.TicksStep | src/vispy_2/axes/axes_display.py:158-181 | one axis's ticks item, vertical ticks placed as written, or an AssertionError when the axis has no integer tick between its limits (the empty positions array fails the (n, 3) shape assertion of `Bufferx.from_numpy`), otherwise ZeroDivisionError exactly when its conversions divide by zero |
| AxesDisplays.TextsStep | src/vispy_2/axes/axes_display.py:186-209 | one axis's labels item, vertical labels placed as written, or an AssertionError when the axis has no integer tick between its limits (the empty positions array fails the (n, 3) shape assertion of `Bufferx.from_numpy`), otherwise ZeroDivisionError exactly when its conversions divide by zero |
| AxesDisplays.BuildAfterTextsX | src/vispy_2/axes/axes_display.py:200-209 | the vertical labels step, failing exactly when the vertical axis has no tick or its conversions divide by zero, with the error of the first failing generator (AssertionError for an axis without ticks, ZeroDivisionError for a conversion dividing by zero) and the slots built before the failure kept |
| AxesDisplays.BuildAfterTicksY | src/vispy_2/axes/axes_display.py:186-209 | the steps from the horizontal labels on, failing exactly when either axis has no tick or its conversions divide by zero, with the error of the first failing generator (AssertionError for an axis without ticks, ZeroDivisionError for a conversion dividing by zero) and the slots built before the failure kept |
| AxesDisplays.BuildAfterTicksX | src/vispy_2/axes/axes_display.py:172-209 | the steps from the vertical ticks on, failing exactly when either axis has no tick or its conversions divide by zero, with the error of the first failing generator (AssertionError for an axis without ticks, ZeroDivisionError for a conversion dividing by zero) and the slots built before the failure kept |
| AxesDisplays.BuildAfterSegments | src/vispy_2/axes/axes_display.py:158-209 | the steps from the horizontal ticks on, failing exactly when either axis has no tick or its conversions divide by zero, with the error of the first failing generator (AssertionError for an axis without ticks, ZeroDivisionError for a conversion dividing by zero) and the slots built before the failure kept |
| AxesDisplays.BuildItems | src/vispy_2/axes/axes_display.py:139-209 | all five steps in order, failing exactly when the axis lines or an axis cannot be generated, with `BuildError` (ZeroDivisionError for the lines, then the horizontal axis's error before the vertical one's) and the slots built before the failure kept |
| AxesDisplays.AxesDisplay.Items | src/vispy_2/axes/axes_display.py:65-69 | the five item slots |
| AxesDisplays.AxesDisplay.constructor | src/vispy_2/axes/axes_display.py:36-69 | the display keeps its canvas and inner viewport, makes an outer viewport covering the canvas, starts with limits -1 to 1 on both axes, no listeners and no items |
| AxesDisplays.AxesDisplay.BuildRenderItems | src/vispy_2/axes/axes_display.py:139-209 | the limits are kept and the items become the build's result, failing exactly when the axis lines or an axis cannot be generated, with the first failing generator's exception (AssertionError for an axis without ticks, ZeroDivisionError for a zero divisor) |
| AxesDisplays.AxesDisplay.SetLimitsDunit | src/vispy_2/axes/axes_display.py:74-90 | limits out of order are an AssertionError that changes nothing; otherwise the limits are stored, the items rebuilt with the build's first exception (AssertionError for an axis without ticks, ZeroDivisionError for a zero divisor) on failure, and on success every listener is called once in order |
| AxesDisplays.AxesDisplay.GetRenderItems | src/vispy_2/axes/axes_display.py:115-133 | the five items in order exactly when all are set, and an AssertionError otherwise |
| AxesDisplays.AxesDisplay.TransformMapsLimits | src/vispy_2/axes/axes_display.py:96-105 | the transform maps the lower-left data corner to (-1, -1) and the upper-right one to (1, 1) |
| AxesDisplays.NewAxesDisplay | src/vispy_2/axes/axes_display.py:36-72 | construction succeeds exactly when the canvas has nonzero sides and dpi, giving limits -1 to 1 and five items with the new uuids |
| AxesPanZooms.ViewportEvents.constructor | src/gsp/types/viewport_events_base.py:28-35 | the four mouse events start without subscribers |
| AxesPanZooms.PanKeepsWidth | src/vispy_2/axes/axes_panzoom.py:74-77 | panning keeps the width of the limits and their order |
| AxesPanZooms.PanFollowsCursor | src/vispy_2/axes/axes_panzoom.py:70-80 | after panning every data value sits at its old normalized position plus the cursor's displacement, so the data follows the cursor |
| AxesPanZooms.ScaleFactor | src/vispy_2/axes/axes_panzoom.py:83 | scrolling up gives the reciprocal of the base scale, failing with ZeroDivisionError exactly for a zero base scale, and scrolling down gives the base scale; the factor is positive exactly when the base scale is |
| AxesPanZooms.ZoomScalesWidth | src/vispy_2/axes/axes_panzoom.py:89-100 | zooming multiplies the width of the limits by the factor, and keeps them in order exactly when the factor is positive |
| AxesPanZooms.ZoomKeepsCursor | src/vispy_2/axes/axes_panzoom.py:89-100 | the data value under the cursor stays under the cursor after a zoom |
| AxesPanZooms.AxesPanZoom.Pressed | src/vispy_2/axes/axes_panzoom.py:64-67 | a drag is in progress exactly when the press position and all four limits are recorded |
| AxesPanZooms.AxesPanZoom.constructor | src/vispy_2/axes/axes_panzoom.py:12-38 | the controller keeps its inputs, has no drag in progress, and adds one handler to the end of each of the four mouse events |
| AxesPanZooms.AxesPanZoom.Close | src/vispy_2/axes/axes_panzoom.py:40-45 | each handler is removed from its event in turn, and the first one missing stops with ValueError, leaving the later events unchanged |
| AxesPanZooms.AxesPanZoom.HandleButtonPress | src/vispy_2/axes/axes_panzoom.py:47-52 | a drag starts at the cursor with the display's current limits |
| AxesPanZooms.AxesPanZoom.HandleButtonRelease | src/vispy_2/axes/axes_panzoom.py:54-60 | the drag state is cleared |
| AxesPanZooms.AxesPanZoom.HandleButtonMove | src/vispy_2/axes/axes_panzoom.py:62-80 | without a drag nothing changes; during one the display's limits become the pressed limits panned by the cursor's displacement, and the items are rebuilt, failing with the build's first exception (AssertionError for an axis without ticks, ZeroDivisionError for a zero divisor), with their listeners called on success |
| AxesPanZooms.AxesPanZoom.HandleMouseScroll | src/vispy_2/axes/axes_panzoom.py:82-102 | a zero base scale on an upward scroll is a ZeroDivisionError, a factor that is not positive gives limits out of order and an AssertionError, both changing nothing; otherwise the limits zoom about the cursor and the items are rebuilt, failing with the build's first exception (AssertionError for an axis without ticks, ZeroDivisionError for a zero divisor) |
| AxesPanZooms.OpenThenClose | src/vispy_2/axes/axes_panzoom.py:35-45 | closing a controller right after creating it succeeds and leaves every mouse event's subscribers as they were |
| Object3Ds.AxisRotation | examples/gsp_extra/object3d.py:143-149 | an axis letter names a rotation exactly when it is X, Y or Z |
| Object3Ds.RotationStep | examples/gsp_extra/object3d.py:142-149 | each further axis letter of the order multiplies the rotation so far on the right by that axis's rotation |
| Object3Ds.RotationIsProductOfFactors | examples/gsp_extra/object3d.py:142-149 | the rotation is the identity multiplied on the right by the factors of the order's letters, first letter first, letters other than X, Y and Z contributing nothing |
| Object3Ds.DefaultOrderRotation | examples/gsp_extra/object3d.py:142-149 | with the default order the rotation is X, then Y, then Z, each angle converted from radians to degrees |
| Object3Ds.UpdatedKeepsShape | examples/gsp_extra/object3d.py:157-174 | updating the matrices leaves the tree's structure, visuals and cameras as they were |
| Object3Ds.UpdatedIdempotent | examples/gsp_extra/object3d.py:157-174 | updating twice with the same parent matrix gives the same matrices as updating once |
| Object3Ds.UpdatedWorldIsChain | examples/gsp_extra/object3d.py:164-174 | below a parent, when no node is pinned, each node's world matrix is the parent's matrix times the local matrices along the path to it |
| Object3Ds.RootWorldIsChain | examples/gsp_extra/object3d.py:164-174 | for a root update each node's world matrix is the root's local matrix times the local matrices down to the node |
| Object3Ds.FlaggedChildKeepsWorld | examples/gsp_extra/object3d.py:169-170 | a child that does not update its world matrix keeps it, since children are never forced |
| Object3Ds.Preorder | examples/gsp_extra/object3d.py:121-125 | the traversal starts at the node itself |
| Object3Ds.GatherAligned | examples/gsp_extra/object3d.py:192-193 | the visual list and the model-matrix list have the same length, and each visual is paired with the world matrix of the object holding it |
| Object3Ds.CameraViewsCover | examples/gsp_extra/object3d.py:185-189 | every camera attached to a visited object gets the inverse of that object's world matrix as its view |
| Object3Ds.RenderCallAligned | examples/gsp_extra/object3d.py:192-199 | the renderer gets one viewport, model matrix and camera per visual, the given viewport and camera each time, and each visual's own object's world matrix |
| Object3Ds.GatherPreorder | examples/gsp_extra/object3d.py:121-125 | the visuals gathered over the traversal are the visuals below the root, each object's before its children's |
| Object3Ds.UpdatedKeepsVisuals | examples/gsp_extra/object3d.py:157-174 | updating the matrices does not change the visuals below a node |
| Object3Ds.Object3D.constructor | examples/gsp_extra/object3d.py:20-51 | a new object has the given uuid, the given name or the default one built from it, identity matrices, no flags set, the XYZ order, zero position and angles, unit scale, and no children, visuals or cameras |
| Object3Ds.Object3D.Add | examples/gsp_extra/object3d.py:61-67 | the child is appended and nothing else changes; the tree stays well formed when the child's subtree is disjoint from it |
| Object3Ds.Object3D.Remove | examples/gsp_extra/object3d.py:69-75 | the first occurrence of the child is removed, or ValueError with nothing changed when it is not a child |
| Object3Ds.Object3D.RemoveAt | examples/gsp_extra/object3d.py:69-75 | the child at the found index leaves the children and its subtree leaves the footprint; a valid tree stays valid and nothing else changes |
| Object3Ds.Object3D.AttachVisual | examples/gsp_extra/object3d.py:81-87 | the visual is appended and nothing else changes |
| Object3Ds.Object3D.DetachVisual | examples/gsp_extra/object3d.py:89-95 | the first occurrence of the visual is removed, or ValueError with nothing changed when it is not attached |
| Object3Ds.Object3D.AttachCamera | examples/gsp_extra/object3d.py:101-107 | the camera is appended and nothing else changes |
| Object3Ds.Object3D.DetachCamera | examples/gsp_extra/object3d.py:109-115 | the first occurrence of the camera is removed, or ValueError with nothing changed when it is not attached |
| Object3Ds.Object3D.Traverse | examples/gsp_extra/object3d.py:121-125 | the traversal starts at the object itself |
| Object3Ds.Object3D.UpdateMatrixLocal | examples/gsp_extra/object3d.py:131-155 | the local matrix becomes translation times rotation times scale unless it is pinned and not forced; nothing else changes |
| Object3Ds.Object3D.UpdateChildrenWorld | examples/gsp_extra/object3d.py:173-174 | every child subtree is updated from the given world matrix, unforced |
| Object3Ds.Object3D.UpdateMatrixWorld | examples/gsp_extra/object3d.py:157-174 | the subtree's matrices become those of the reference update for the given parent matrix and force flag |
| Object3Ds.TraverseVisitsOnce | examples/gsp_extra/object3d.py:121-125 | the traversal starts at the object, visits no object twice and stays inside the tree |
| Object3Ds.CameraViewsLoop | examples/gsp_extra/object3d.py:185-189 | computes the view of every camera of every visited object, in traversal order |
| Object3Ds.Render | examples/gsp_extra/object3d.py:179-202 | the scene's matrices are updated from the root, every camera gets its object's inverse world matrix, the renderer call pairs each visual with its object's world matrix, and the visuals returned are those below the root in traversal order |
| MatplotlibConverters.CapStyleToMpl | src/gsp_matplotlib/utils/converter_utils.py:13-30 | matplotlib's cap style name is the style's own value: butt, round or projecting |
| MatplotlibConverters.JoinStyleToMpl | src/gsp_matplotlib/utils/converter_utils.py:32-49 | matplotlib's join style name is the style's own value: miter, round or bevel |
| MatplotlibConverters.MarkerShapeToMpl | src/gsp_matplotlib/utils/converter_utils.py:51-70 | the disc and the square get one-letter marker codes and the club a mathtext symbol between `$` signs |
| MatplotlibConverters.MarkerShapeFromMpl | src/gsp_matplotlib/utils/converter_utils.py:51-70 | a matplotlib marker name reads back only as the shape that converts to it |
| MatplotlibConverters.CapStyleFromMpl | src/gsp_matplotlib/utils/converter_utils.py:13-30 | a matplotlib cap name reads back only as the style that converts to it |
| MatplotlibConverters.JoinStyleFromMpl | src/gsp_matplotlib/utils/converter_utils.py:32-49 | a matplotlib join name reads back only as the style that converts to it |
| MatplotlibConverters.MplRoundTrips | src/gsp_matplotlib/utils/converter_utils.py:13-70 | every cap style, join style and marker shape reads back from its matplotlib name |
| MatplotlibConverters.MplInjective | src/gsp_matplotlib/utils/converter_utils.py:13-70 | different styles and shapes get different matplotlib names |
| DatovizConverters.CapStyleToDvz | src/gsp_datoviz/utils/converter_utils.py:10-27 | datoviz's cap name is the style's own value, except that projecting becomes square |
| DatovizConverters.JoinStyleToDvz | src/gsp_datoviz/utils/converter_utils.py:29-46 | the miter join is a ValueError, the round join is round and the bevel join becomes square |
| DatovizConverters.MarkerShapeToDvz | src/gsp_datoviz/utils/converter_utils.py:48-67 | datoviz's marker name is the shape's own value |
| DatovizConverters.DvzInjective | src/gsp_datoviz/utils/converter_utils.py:10-67 | different cap styles, supported join styles and marker shapes get different datoviz names |
| DatovizConverters.SquareStandsForTwoStyles | src/gsp_datoviz/utils/converter_utils.py:24-44 | square stands for the projecting cap and for the bevel join, neither of which has that value itself |
| NicoBuffers.StrtypeToBuftype | src/gsp_nico/buffer.py:24-49 | a type string is accepted only as the buffer type of that name, and anything else is a ValueError |
| NicoBuffers.StrtypeOfName | src/gsp_nico/buffer.py:24-49 | every buffer type's name is accepted as that type, and a string is accepted exactly when it names a buffer type |
| NicoBuffers.FromBytes | src/gsp_nico/buffer.py:18-22 | a buffer is built exactly when the type string is known and the bytes hold a whole number of items; it holds those bytes, that type and the matching count; an unknown type is a ValueError and a partial item an AssertionError |
| Pyramids.SliceBound | tmp/pyramid/datoviz/pyramid_01.py:98 | a slice bound lands inside the sequence and a bound already inside it is kept |
| Pyramids.PySlice | tmp/pyramid/datoviz/pyramid_01.py:98 | a slice with bounds inside the sequence is the ordinary subsequence |
| Pyramids.AssignSlice | tmp/pyramid/datoviz/pyramid_01.py:98 | an assignment into a slice keeps the length of the target, and a source that neither fits nor broadcasts is a ValueError |
| Pyramids.SafeSliceAsWritten | tmp/pyramid/datoviz/pyramid_01.py:70-99 | as written: a window that ends before it starts is a ValueError, and a result has the window's length |
| Pyramids.SafeSliceInRange | examples/pyramid/pyramid_original.py:36-47 | as written, a window that overlaps the data or touches it succeeds and holds the data where the data exists and the fill value elsewhere |
| Pyramids.SafeSliceBeforeDataFails | tmp/pyramid/datoviz/pyramid_01.py:91-98 | as written, a window lying wholly before the data with at least two elements of data before its end fails, because the clamped bounds make a negative-length copy |
| Pyramids.SafeSliceAfterDataFails | tmp/pyramid/datoviz/pyramid_01.py:91-98 | as written, a window lying wholly after the data and long enough fails the same way |
| Pyramids.SafeSliceFailsOnExample | tmp/pyramid/datoviz/pyramid_01.py:91-98 | as written, the window -4 to -1 of three values fails instead of giving three fill values |
| Pyramids.SafeSlice | tmp/pyramid/datoviz/pyramid_01.py:70-99 | corrected: succeeds exactly when the window does not end before it starts, and then holds the data where it exists and the fill value elsewhere |
| Pyramids.SafeSliceAgrees | tmp/pyramid/datoviz/pyramid_01.py:70-99 | on windows that overlap or touch the data the corrected and the written slice give the same result |
| Pyramids.WindowUnique | tmp/pyramid/datoviz/pyramid_01.py:84 | a window of given bounds over given data is determined uniquely |
| Pyramids.Rows | tmp/pyramid/datoviz/pyramid_01.py:63-65 | a file of whole rows splits into rows of 384 two-byte values, each the corresponding bytes of the file |
| Pyramids.RowsFlatten | tmp/pyramid/datoviz/pyramid_01.py:63-65 | joining the rows gives back the file's bytes |
| Pyramids.LoadFile | tmp/pyramid/datoviz/pyramid_01.py:47-67 | a missing file gives nothing, a file that is not a whole number of rows is an AssertionError, and otherwise the rows cover the whole file |
| Pyramids.FileCache.constructor | tmp/pyramid/datoviz/pyramid_01.py:31 | the cache starts empty |
| Pyramids.FileCache.LoadData | tmp/pyramid/datoviz/pyramid_01.py:102-131 | an empty window is an AssertionError that changes nothing; a level is read from disk only when not cached, a read error is passed on uncached, a missing or empty file gives nothing, and otherwise the result is `safe_slice` as written on the cached data: the padded window when it overlaps or touches the data, and the slice's ValueError otherwise |
| Pyramids.LoadTwice | tmp/pyramid/datoviz/pyramid_01.py:119-126 | the second request for the same window reads nothing more from disk and gives the same result as the first |
| Pyramids.RoundHalfEven | tmp/pyramid/datoviz/pyramid_01.py:154-155 | rounding lands within one half of its argument |
| Pyramids.RoundMonotone | tmp/pyramid/datoviz/pyramid_01.py:154-155 | rounding preserves order |
| Pyramids.FindIndices | tmp/pyramid/datoviz/pyramid_01.py:134-156 | the indices are computed exactly when the level is between 0 and 11 and the start time is before the end time, and an AssertionError otherwise |
| Pyramids.PositionMonotone | tmp/pyramid/datoviz/pyramid_01.py:154-155 | a later time has a later exact position at any level |
| Pyramids.FindIndicesOrdered | examples/pyramid/pyramid_original.py:65-72 | the start index is not after the end index, and each is within one half of its exact position |
| Pyramids.IndicesCanCoincide | tmp/pyramid/datoviz/pyramid_01.py:154-155 | at level 11 the times 0 and 0.1 give the same index 0, an empty window for the loader |
| RunAllExamples.SplitArgv | tools/run_all_examples.py:74-82 | without a separator every argument after the program name is the runner's; the runner's list never holds the separator; with one, the two lists and the separator between them make up the arguments after the program name, and a separator in the program's place gives everything to the examples |
| RunAllExamples.SplitJoin | tools/run_all_examples.py:74-82 | splitting a command line built from a program name, runner arguments without the separator, the separator and example arguments gives back the two lists |
| RunAllExamples.SplitWithoutSeparator | tools/run_all_examples.py:74-82 | without a separator every argument goes to the runner and none to the examples |
| AssetDownloads.SequenceLength | examples/common/asset_downloader.py:29 | a well-formed UTF-8 sequence is at most four bytes, and an ASCII byte is a sequence of one |
| AssetDownloads.CodePoint | examples/common/asset_downloader.py:29 | a well-formed sequence encodes a Unicode scalar value |
| AssetDownloads.Decode | examples/common/asset_downloader.py:29 | decoding with undecodable bytes dropped never gives more characters than bytes |
| AssetDownloads.EncodeChar | examples/common/asset_downloader.py:29 | a character encodes to one to four bytes |
| AssetDownloads.EncodeCharDecodes | examples/common/asset_downloader.py:29 | the encoding of a character is a well-formed sequence of its own length that decodes to that character |
| AssetDownloads.DecodeEncode | examples/common/asset_downloader.py:29 | decoding undoes encoding for every text |
| AssetDownloads.DecodeAscii | examples/common/asset_downloader.py:29 | ASCII bytes decode to the characters with the same codes |
| AssetDownloads.DecodeDropsStrayByte | examples/common/asset_downloader.py:29 | a byte that starts no sequence is dropped |
| AssetDownloads.ContainsAfter | examples/common/asset_downloader.py:30 | a text contains any string it has in the middle |
| AssetDownloads.LfsPointerOfText | examples/common/asset_downloader.py:26-30 | content that is the UTF-8 of some text is a pointer exactly when the text starts with the version line and mentions a sha256 object id |
| AssetDownloads.PointerFileIsPointer | examples/common/asset_downloader.py:26-30 | the version line followed, anywhere later, by an object id makes a pointer |
| AssetDownloads.LeadingTextIsNoPointer | examples/common/asset_downloader.py:30 | text before the version line makes the content no pointer even with both markers present |
| AssetDownloads.StrayByteBeforePointer | examples/common/asset_downloader.py:29 | a stray byte in front of the content does not change whether it is a pointer |

## Left out

- Drawing backends: the matplotlib, datoviz and nico renderers and the network client and server call foreign libraries. Only their pure converter tables are modelled (`MatplotlibConverters`, `DatovizConverters`, `NicoBuffers`).
- Floating point: every Python float is an exact `real`. Rounding, NaN and infinities are not modelled. `MathUtils.apply_mvp_to_vertices`, both `glm.py` copies, the tick locator and formatter and the pyramid's zoom-level selection are numeric code over numpy. They are not part of this model.
- Matrices: camera and Object3D matrices are symbolic values, and products are terms rather than numbers. `Object3Ds.Render` returns each camera's view instead of writing it into a numpy buffer.
- Animators, timers, video writers, viewport event handlers and camera controls are event-loop code. They are not part of this model. The pan/zoom handlers are modelled with their events as inputs.
- `Bufferx`, `CmapUtils`, `TextureUtils`, `TransformDataSource` and `TransformLoad` wrap numpy, imageio and requests. They are not part of this model. `Bufferx.from_numpy` asserts a float32 array for a float32 buffer and a two-dimensional (n, 3) array for a vec3 buffer. The axes generators model the vec3 assertion, which an axis without ticks fails (`AxesDisplays.AxisError`).
- The axes module imports `gsp_extra.bufferx`, which is not part of this model. Only the float32 and vec3 assertions are taken from its copy `gsp_matplotlib/extra/bufferx.py`. That copy raises NotImplementedError for every other buffer type, vec2 included.
- `AxesDisplays.GenerateTexts`: its vec2 anchor conversion through the imported `gsp_extra.bufferx` (axes_display.py:406 and :471) is taken to succeed. Under the copy `gsp_matplotlib/extra/bufferx.py`, it would raise NotImplementedError.
- `Events.Event.Dispatch`: callbacks are foreign code and are taken to return normally without subscribing or unsubscribing. Python iterates the live subscriber list, so a callback that raises stops the dispatch and one that changes the list changes which callbacks run.
- Pydantic and JSON validation: treated as the identity on the modelled records. A message is its datatype, and no text is parsed.
- Message streams: no check of dangling references or of id order beyond what `JsonRenderers.JsonRenderer.RenderCorrected` states about its own ids.
- Transform links: operator links exist only as a schema and are never evaluated. Accessor fields that would be filled from a context are not modelled.
- `TransformChain.serialize`/`deserialize` are called but not defined. A chain in a visual slot therefore makes the serializer fail with AttributeError, which `PydanticSerializers` models.
- `UnitUtils.in_to_cm` is called but not defined. The corrected converter uses a factor of 2.54 (`ViewportUnitUtils.InToCm`).
- `set_pan_limits_dunit` and `set_zoom_range_limits_dunit` are referenced but not defined, so pan and zoom have no limits.
- The image visual has no interpolation setting in its source, so the model has none either.
- `__repr__` of `Canvas`, `Viewport`, `Camera` and `Texture` only formats text. It is not part of this model.
- Exception messages: only the exception's class is kept.
- Identifiers: the global uuid counter and the random bytes of a version 4 uuid are parameters. Every constructor receives its uuid from the caller.
- Files: `load_file` reads the disk, so its outcome is a parameter of `Pyramids.FileCache.LoadData`. The float16-to-byte conversion (`dvz.to_byte`) is not modelled; `LoadData` returns the padded window itself.
- `Pyramids.FileCache.LoadData`: the `out.size == 0` branch is kept but never taken, because a non-empty window of 384-channel rows is never empty.
- Pyramid indices: `round` is modelled as exact round-half-to-even on reals (`Pyramids.RoundHalfEven`). The float error of `t * 2500 / 2**level` is not modelled.
- `AssetDownloads.IsLfsPointer`: models only the test that chooses between the two paths of `download_data`. The HTTP download and the file writes are not part of this model.
- `ExprTreeDemo`: the demo's `Pow` operator and `Func` wrappers are not part of this model.
- Stale schema: the older `gsp_pydantic/serializer/pydantic_types.py` is not part of this model. `PydanticTypes` follows `gsp_pydantic/types/pydantic_types.py`.
- Example scripts that copy the axes, unit-converter and pan/zoom code are not modelled separately. The `AxesDisplays`, `AxesPanZooms` and `ViewportUnitUtils` modules model the library versions they copy.
- `Buffers.Buffer.SetData` requires a source of at least `n` items. A shorter source shrinks the byte array (see Findings), and the method leaves that case to `Buffers.SetDataAsWritten`.
- `TransformLinks.Deserialize` returns ValueError for a payload shorter than the stated count. The source would build a buffer whose bytes are too short, the case `Buffers.ShortSourceShrinksBuffer` exhibits.
- `Buffers.Buffer.SetData`, `Buffers.Buffer.GetData`, `Buffers.SetDataAsWritten` and `Buffers.GetDataAsWritten` take offsets and counts as `nat`. Python also accepts negative ints there. Its assertion `offset + count <= count` lets some through, and its slices then count from the end. No caller in the modelled code passes negative values.
- `Buffers.Buffer.GetData`: corrected. It raises AssertionError when the requested items run past the end, where the source returns a buffer whose bytes are too short; `Buffers.GetDataAsWritten` models the source.
- `Object3Ds.Object3D.Traverse`, `Object3Ds.Object3D.UpdateMatrixWorld` and `Object3Ds.Render` require the scene graph to be a tree (`Valid`). Python also accepts an object added under two parents or a cycle; such graphs are not part of this model.
- `TransformChains.TransformChain.Remove`: links are values, so two links wrapping the same buffer are equal. Python's `list.remove` compares link objects by identity.

## Findings

| source | as written | input that shows it | evidently intended | confidence | as-written member | corrected member |
|---|---|---|---|---|---|---|
| src/gsp/types/buffer.py:92 | `set_data` splices in `src[0:n*item]` without checking the source's length, so a short source shrinks the byte array | 4-item uint8 buffer, `set_data([7], 0, 2)`: 3 bytes remain | the buffer keeps `count * item_size` bytes; a short source is rejected | not executed | Buffers.ShortSourceShrinksBuffer | Buffers.Buffer.SetData |
| src/gsp/types/buffer.py:59-75 | `get_data` slices without a range check and passes the slice to `set_data` | 2-item uint8 buffer `[1, 2]`, `get_data(1, 2)`: a 2-item buffer holding 1 byte | an out-of-range request fails | not executed | Buffers.GetDataPastEndBreaksLength | Buffers.Buffer.GetData |
| src/gsp/types/buffer_type.py:72-73 | rgba8 maps to dtype uint32 with per-item shape (4,) | rgba8: a view of 16 bytes per 4-byte item | uint8 with shape (4,), as the rest of the code base reads rgba8 | not executed | BufferTypes.Rgba8ViewMismatch | BufferTypes.CorrectedViewMatchesItemSize |
| src/gsp/utils/group_utils.py:197 | when g does not divide n, each group gets `n // (g - 1)` elements and the last group gets the rest | 4 vertices, 3 groups: groups [0, 1], [2, 3], [] | every group non-empty, with `(n - 1) // (g - 1)` | not executed | GroupUtils.IntPartitionEmptyGroup | GroupUtils.CorrectedPartitionNonEmpty |
| src/gsp/renderers/json/renderer.py:38 | the viewport message reads `viewport.get_origin_x()`, which `Viewport` lacks | any scene with one viewport: AttributeError | `viewport.get_x()` / `get_y()` | not executed | JsonRenderers.JsonRenderer.Render | JsonRenderers.JsonRenderer.RenderCorrected |
| src/gsp/renderers/json/renderer.py:49 | Points messages are extended from `visual_msg`, a name never bound | no viewports, one Points visual: NameError | extend with the messages the Points renderer returns | not executed | JsonRenderers.JsonRenderer.Render | JsonRenderers.JsonRenderer.RenderCorrected |
| examples/gsp_extra/transform_links/expr_tree/transform_exprtree_g.py:48-51 | `Node * Unit` wraps the Unit in a unit-less NumberNode, so the unit is lost | `(length * inch) + (10 * cm)` with length = 5: mismatch None vs "cm" | `Unit.__rmul__` attaches the unit | not executed | UnitExprTrees.InchPlusCentimetresAsWritten | UnitExprTrees.NodeTimesUnitCorrectedCarriesUnit |
| examples/gsp_extra/misc/viewport_unit_utils.py:34 | calls `UnitUtils.in_to_cm`, which `UnitUtils` does not define | any canvas with non-zero dpi: AttributeError | inches times 2.54 | not executed | ViewportUnitUtils.ViewportUnitConverter.CanvasWidthCmAsWritten | ViewportUnitUtils.ViewportUnitConverter.CanvasWidthCm |
| src/vispy_2/axes/axes_display.py:318-326 | the vertical ticks send the y pixel offset through the x component of `delta_pixel_to_ndc` and the x offset through y | 200 x 100 canvas filled by the inner viewport, limits [-1, 1]: the tick at 1 lands at y = 0 instead of 1 | y through the outer height and x through the outer width, so the ticks at the limits meet the ends of the vertical axis line; the two agree only on a square outer viewport (`AxesDisplays.VerticalAnchorsAgree`) | not executed | AxesDisplays.VerticalAnchorAsWrittenMisplaced | AxesDisplays.AxisLinesMeetLimits |
| tmp/pyramid/datoviz/pyramid_01.py:91-98 | the clamped bounds are copied without checking that they overlap; a negative end then counts from the end of the data | three rows, window [-4, -1): ValueError instead of three fill values | skip the copy when the clamped bounds do not overlap | not executed | Pyramids.SafeSliceFailsOnExample | Pyramids.SafeSlice |
