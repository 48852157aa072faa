# msdfont-proto: glyph layout, quad records and camera input, in Dafny

This project models the core of a prototype renderer that draws text from a
multi-channel signed-distance-field glyph atlas:

- **Text layout (`src/text.rs`).** `Text::create_buffer` walks the characters
  of a line of text. It places one quad per character in world space from an
  anchor `(x, y, z)` and a table of glyph metrics keyed by codepoint. The first
  glyph is placed from the anchor. Each later glyph is placed from a running
  cursor, the previous quad's right edge. The atlas rectangle of each glyph is
  copied into its quad. The quads are packed into an instance buffer, and the
  function returns the instance count.
- **Instance record (`src/util.rs`).** `Quad` is the record the GPU reads per
  instance: nine `f32`s in declaration order. `Quad::buffer_layout` tells the
  shader where each field lies: stride 36, per-instance stepping, and four
  attributes at offsets 0, 12, 20 and 28.
- **Camera input (`src/camera.rs`).** `CameraController::process_input` turns
  device events into movement flags and a pending field-of-view change.
  `Camera::update` applies that change to the field of view and clears it.

Files:

- `util.dfy` (module `Util`): `Quad`, its serialisation (`Floats`, `Pack`,
  `Unpack`), and the vertex-buffer layout. The layout is proved against a
  reference layout derived from the field widths.
- `text.dfy` (module `Text`): glyph records, UTF-8 byte length and the
  `CreateBuffer` loop. `CreateBuffer` is proved against the relational
  specification `LaidOut`. The lemmas about `LaidOut` state uniqueness, the
  closed form of the cursor, its monotonicity, and the per-glyph facts.
- `camera.dfy` (module `Camera`): the event types and a pure `Process`
  function describing one event. The `CameraController` and `Camera` classes
  change their fields in place, as the source does. Their methods are proved
  against `Process` and `UpdateFov`.

Modelling decisions:

- Coordinates are `real`. The source only adds them, and the model makes no
  claim about `f32` rounding.
- A panic (`unwrap` on `None`) is a value. It is `Panicked(..)` in `Text` and
  `None`/`ok == false` in `Camera`. Each failure case is stated exactly.
- Text is a `string` (a sequence of Unicode scalar values). `ByteLen` gives
  its UTF-8 length, which is what `String::len` returns. The source's loop runs
  to that byte length while it consumes characters. So non-ASCII text panics
  once the character iterator runs dry. This happens after every character has
  been looked up, so a missing glyph is always reported first.
- `result.len() as u32` is modelled as `|result| % 2^32`.
- The GPU buffer is its contents: the packed sequence of floats.
- The source for the layout handles an empty string by panicking on the first
  `unwrap`. The model follows the code and does not return an empty layout.
- `CursorMonotone` needs `advance_x + plane_bounds.right >= 0` for every
  later glyph, because that sum is how far a later glyph moves the cursor.
  `advance_x >= 0` alone is not enough, since `plane_bounds.right` may be
  negative.

## Model

| member | source | states |
|---|---|---|
| `Text.New` | src/text.rs:16-23 | The text keeps `pos.0`, `pos.1` and `pos.2` as `x`, `y` and `z`, and the string unchanged. |
| `Text.ByteLen` | src/text.rs:53 | The UTF-8 byte length is at least the character count, and equals it exactly when the text is ASCII. |
| `Text.FirstMissing` | src/text.rs:54 | Gives the index of the first character without a glyph: every earlier character has one, and the one at that index has none (or the index is the length). |
| `Text.CreateBuffer` | src/text.rs:25-82 | Succeeds exactly when the text is non-empty, every character has a glyph and the text is ASCII. Empty text panics on the first character. Otherwise it fails with `MissingGlyph(c)`, where c is the codepoint of the first character whose lookup panics. Otherwise non-ASCII text fails with `CharsExhausted`, where `chars.next().unwrap()` panics. The source's panics carry no codepoint; the two labels tell the `unwrap`s at line 54 apart. On success the buffer holds 9 floats per character, the count is the character count truncated to `u32`, and the unpacked quads satisfy `LaidOut`. |
| `Text.CreateBufferByChars` | src/text.rs:53 | Bounded by characters instead of bytes, the loop succeeds exactly when the text is non-empty and every character has a glyph. It fails on the first missing glyph, and otherwise yields `LaidOut` quads and the character count. |
| `Text.LaidOutUnique` | src/text.rs:30-71 | Two layouts of the same text, anchor and table are equal, so the layout is deterministic. |
| `Text.LaidOutPerGlyph` | src/text.rs:56-68 | Each quad's top and bottom are the anchor's `y` plus its own glyph's `plane_bounds.top` and `plane_bounds.bottom`. Its depth is the anchor's `z`. Its texture corners are its glyph's atlas (left, top) and (right, bottom). |
| `Text.CursorClosedForm` | src/text.rs:36-63 | Quad k's right edge is `x + first.plane.right` plus, for each of glyphs 1..k, `advance_x + plane.right`. For k > 0 its left edge is the previous right edge plus its own `advance_x`. |
| `Text.CursorMonotone` | src/text.rs:57-63 | If every later glyph has `advance_x + plane.right >= 0`, right edges never decrease along the line. |
| `Text.ExampleAB` | src/text.rs:35-70 | With A = (10, (0,8,8,0), (0,0,0.1,0.1)) and B = (12, (1,8,9,0), ..) at the origin, A is (0,8,0)-(8,0) with texture (0,0)-(0.1,0.1), and B spans 20 to 29. |
| `Text.NonAsciiTextRejected` | src/text.rs:53 | "é" has a glyph but is two bytes long and not ASCII, so `CreateBuffer` must panic on it while `CreateBufferByChars` builds it. |
| `Text.NonAsciiCounterexample` | src/text.rs:53-54 | On "é" with a glyph for 'é', `CreateBuffer` fails with `CharsExhausted` while `CreateBufferByChars` builds one quad of 9 floats with count 1. |
| `Util.Floats` | src/util.rs:45-52 | A quad serialises to 9 floats, and reading them back gives the quad. |
| `Util.Pack` | src/text.rs:77 | The packed buffer has 9 floats per quad. |
| `Util.UnpackPack` | src/text.rs:77 | Reading a packed buffer back gives the quads that were packed. |
| `Util.PackUnpack` | src/text.rs:77 | Every buffer of whole records is the packing of the quads read from it. |
| `Util.PackAt` | src/text.rs:77 | Quad i occupies floats 9i to 9i+9 of the buffer, in field order. |
| `Util.SizeOfQuad` | src/util.rs:57 | `size_of::<Quad>()` is 9 `f32`s, that is 36 bytes. |
| `Util.FieldFloats` | src/util.rs:48-51 | Field i of a quad has 3, 2, 2 or 2 floats. |
| `Util.FormatFor` | src/util.rs:61-78 | The format chosen for a field reads as many components as the field has. |
| `Util.BufferLayout` | src/util.rs:55-85 | The stride is `size_of::<Quad>()` = 36, the step mode is per-instance, and the attributes are the reference layout packed from the field widths [3, 2, 2, 2]. |
| `Util.PackedAttributesContiguous` | src/util.rs:59-83 | The reference layout starts at its offset, leaves no gap between attributes, and ends after 4 bytes per float. |
| `Util.PackedAttributesFields` | src/util.rs:60-81 | Attribute i of the reference layout reads as many components as field i has, at shader location `loc + i`. |
| `Util.ContiguousDisjoint` | src/util.rs:59-83 | Attributes that follow one another without a gap never overlap. |
| `Util.BufferLayoutMatchesQuad` | src/util.rs:59-83 | The offsets are 0, 12, 20 and 28 and the locations are 0 to 3. Formats match field widths. The attributes are contiguous and disjoint, and the last ends exactly at the stride. |
| `Util.AttributeReadsField` | src/util.rs:59-83 | The floats at attribute i's byte offset in a serialised quad are exactly field i. |
| `Camera.Process` | src/camera.rs:123-186 | Processing an event panics exactly for a key event without a virtual keycode. |
| `Camera.InitialStateAtRest` | src/camera.rs:107-121 | A new controller has all six flags and `fov_delta` at 0, yaw 270, pitch 0 and speed 0.08. |
| `Camera.KeySetsOnlyItsFlag` | src/camera.rs:151-183 | A bound key sets its flag to 1 if pressed and 0 otherwise, and changes no other flag and no other field. |
| `Camera.UnboundKeyIgnored` | src/camera.rs:181 | A key outside Space, LShift, W, S, A, D leaves the controller unchanged. |
| `Camera.WheelReplacesFovDelta` | src/camera.rs:141-147 | A wheel event replaces `fov_delta` by the line or pixel y delta, whatever was pending, and changes nothing else. |
| `Camera.OtherEventsIgnored` | src/camera.rs:149-150 | Motion, button and all other non-key, non-wheel events leave the controller unchanged. |
| `Camera.PressReleaseRestores` | src/camera.rs:157-180 | Pressing a bound key sets its flag to 1, and releasing it restores the state it had with the flag at 0. |
| `Camera.UpdateFovSettles` | src/camera.rs:65-66 | After an update nothing is pending, so a second update leaves `fov` unchanged. |
| `Camera.CameraController.constructor` | src/camera.rs:107-121 | The new controller's state is the initial state. |
| `Camera.CameraController.ProcessInput` | src/camera.rs:123-186 | The new state is `Process` of the old state and the event. Where the source panics, nothing changes. |
| `Camera.Camera.constructor` | src/camera.rs:28-41 | A new camera has fov 60 and a fresh controller in the initial state. |
| `Camera.Camera.Update` | src/camera.rs:64-66 | `fov` becomes `fov + fov_delta`, `fov_delta` becomes 0, and the rest of the controller is unchanged. |
| `Camera.Camera.Input` | src/camera.rs:87-89 | The controller's new state is `Process` of its old state and the event. |

## Findings

| source | as written | input that shows it | evidently intended | confidence | as-written member | corrected member |
|---|---|---|---|---|---|---|
| src/text.rs:53 | The loop runs `1..self.text.len()`, the UTF-8 byte length, while it takes one character per iteration and unwraps it. | The text "é" with a glyph for 'é': byte length 2, one character, so the second `chars.next().unwrap()` panics. | Loop once per remaining character (`chars().count()`), so any text whose characters all have glyphs is laid out. | high; not executed | `Text.CreateBuffer` | `Text.CreateBufferByChars` |

## Left out

- `src/main.rs`: the window, event loop, GPU adapter, device and surface set-up, and `Graphics::resize`. This is platform and GPU glue.
- `pipeline1` in `src/util.rs`: shader-module and render-pipeline construction in a foreign GPU library.
- The `create_buffer_init` call (src/text.rs:73-79): the GPU buffer handle is modelled by its contents only.
- `f32` arithmetic: coordinates are exact reals, and the model says nothing about rounding. The pixel scroll delta is cast from `f64` to `f32` in the source; here it is taken as is.
- `Camera::update_global_matrix`, `Camera::resize`, and the trigonometric target and eye updates in `Camera::update`: projection and view matrix math. The `Camera` class keeps only `fov` and the controller.
- `Camera::new`: only its `fov` (60) and controller are modelled. The eye, target, up vector, aspect ratio, near and far planes are left out with the math that uses them.
- The mouse-motion branch of `process_input` is commented out in the source, so it is not live code. `MouseMotion` events are therefore ignored like other events.
- Parsing the font atlas and scaling atlas bounds to [0, 1] are not in this source. The glyph table is taken as given, and `Rect` is a plain four-edge record.
- Unwinding: a panic is modelled as a returned failure value, not as unwinding the thread.
