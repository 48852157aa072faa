/** The per-instance record handed to the GPU for one glyph (`Quad`) and the
    vertex-buffer layout that tells the shader how to read it. */
module Util {

  /** `[f32; 3]` */
  datatype Vec3 = Vec3(x: real, y: real, z: real)

  /** `[f32; 2]` */
  datatype Vec2 = Vec2(x: real, y: real)

  /** One glyph instance: two opposite corners in world space and the atlas
      rectangle to sample. Fields are in declaration order (`repr(C)`). */
  datatype Quad = Quad(topLeft: Vec3, bottomRight: Vec2, texTopLeft: Vec2, texBottomRight: Vec2)

  /** Size in bytes of one `f32`. */
  const F32Bytes: nat := 4

  /** Number of `f32` components in each field of `Quad`, in declaration order. */
  const QuadFieldWidths: seq<nat> := [3, 2, 2, 2]

  /** Number of `f32`s in one serialised `Quad`. */
  const QuadFloats: nat := 9

  function Sum(ws: seq<nat>): nat
  {
    if ws == [] then 0 else ws[0] + Sum(ws[1..])
  }

  /** `size_of::<[f32; n]>()` */
  function SizeOfF32Array(n: nat): nat
  {
    F32Bytes * n
  }

  /** `size_of::<Quad>()`: every field is an `f32` array, so under `repr(C)`
      all fields share alignment 4 and there is no padding. */
  function SizeOfQuad(): (n: nat)
    ensures n == SizeOfF32Array(QuadFloats)
  {
    SizeOfF32Array(Sum(QuadFieldWidths))
  }

  /** The `f32`s of one field of `q`, by field index. */
  function FieldFloats(q: Quad, field: nat): (fs: seq<real>)
    requires field < |QuadFieldWidths|
    ensures |fs| == QuadFieldWidths[field]
  {
    match field
    case 0 => [q.topLeft.x, q.topLeft.y, q.topLeft.z]
    case 1 => [q.bottomRight.x, q.bottomRight.y]
    case 2 => [q.texTopLeft.x, q.texTopLeft.y]
    case _ => [q.texBottomRight.x, q.texBottomRight.y]
  }

  /** The `f32`s of `q` as `bytemuck` lays them out: the fields one after
      another, in declaration order. */
  function Floats(q: Quad): (fs: seq<real>)
    ensures |fs| == QuadFloats
    ensures FromFloats(fs) == q
  {
    FieldFloats(q, 0) + FieldFloats(q, 1) + FieldFloats(q, 2) + FieldFloats(q, 3)
  }

  /** Reads one `Quad` back from nine `f32`s. */
  function FromFloats(fs: seq<real>): Quad
    requires |fs| == QuadFloats
  {
    Quad(Vec3(fs[0], fs[1], fs[2]), Vec2(fs[3], fs[4]), Vec2(fs[5], fs[6]), Vec2(fs[7], fs[8]))
  }

  /** `bytemuck::cast_slice(&quads)`, as a sequence of `f32`s. */
  function Pack(qs: seq<Quad>): (fs: seq<real>)
    ensures |fs| == QuadFloats * |qs|
  {
    if qs == [] then [] else Floats(qs[0]) + Pack(qs[1..])
  }

  /** The inverse view: a buffer of whole records read back as quads. */
  function Unpack(fs: seq<real>): (qs: seq<Quad>)
    requires |fs| % QuadFloats == 0
    decreases |fs|
  {
    if fs == [] then [] else [FromFloats(fs[..QuadFloats])] + Unpack(fs[QuadFloats..])
  }

  /** Reading a packed buffer back gives the quads that were packed. */
  lemma {:induction false} UnpackPack(qs: seq<Quad>)
    ensures Unpack(Pack(qs)) == qs
  {
    if qs != [] {
      var fs := Pack(qs);
      assert fs[..QuadFloats] == Floats(qs[0]);
      assert fs[QuadFloats..] == Pack(qs[1..]);
      UnpackPack(qs[1..]);
    }
  }

  /** Every buffer of whole records is the packing of some quads. */
  lemma {:induction false} PackUnpack(fs: seq<real>)
    requires |fs| % QuadFloats == 0
    ensures Pack(Unpack(fs)) == fs
    decreases |fs|
  {
    if fs != [] {
      var head := fs[..QuadFloats];
      assert Floats(FromFloats(head)) == head;
      PackUnpack(fs[QuadFloats..]);
      assert fs == head + fs[QuadFloats..];
    }
  }

  /** Quad `i` occupies floats `9 * i` to `9 * i + 9` of the packed buffer,
      in field order. */
  lemma {:induction false} PackAt(qs: seq<Quad>, i: nat)
    requires i < |qs|
    ensures QuadFloats * i + QuadFloats <= |Pack(qs)|
    ensures Pack(qs)[QuadFloats * i .. QuadFloats * i + QuadFloats] == Floats(qs[i])
  {
    if i > 0 {
      PackAt(qs[1..], i - 1);
      var rest := Pack(qs[1..]);
      assert Pack(qs) == Floats(qs[0]) + rest;
      assert Pack(qs)[QuadFloats * i .. QuadFloats * i + QuadFloats]
          == rest[QuadFloats * (i - 1) .. QuadFloats * (i - 1) + QuadFloats];
    }
  }

  // ---------------------------------------------------------------------------
  // Vertex buffer layout
  // ---------------------------------------------------------------------------

  datatype VertexFormat = Float32 | Float32x2 | Float32x3 | Float32x4

  datatype VertexStepMode = Vertex | Instance

  datatype VertexAttribute = VertexAttribute(format: VertexFormat, offset: nat, shaderLocation: nat)

  datatype VertexBufferLayout = VertexBufferLayout(arrayStride: nat, stepMode: VertexStepMode, attributes: seq<VertexAttribute>)

  /** Number of `f32` components the shader reads for an attribute. */
  function Components(f: VertexFormat): nat
  {
    match f
    case Float32 => 1
    case Float32x2 => 2
    case Float32x3 => 3
    case Float32x4 => 4
  }

  /** Bytes an attribute of format `f` occupies. */
  function FormatSize(f: VertexFormat): nat
  {
    SizeOfF32Array(Components(f))
  }

  /** The format that reads a field of `width` `f32`s. */
  function FormatFor(width: nat): (f: VertexFormat)
    requires 1 <= width <= 4
    ensures Components(f) == width
  {
    if width == 1 then Float32 else if width == 2 then Float32x2 else if width == 3 then Float32x3 else Float32x4
  }

  predicate ValidWidths(ws: seq<nat>)
  {
    forall i :: 0 <= i < |ws| ==> 1 <= ws[i] <= 4
  }

  /** Reference layout: one attribute per field of widths `ws`, packed one
      after another from byte `offset`, at consecutive shader locations from `loc`. */
  function PackedAttributes(ws: seq<nat>, offset: nat, loc: nat): (attrs: seq<VertexAttribute>)
    requires ValidWidths(ws)
    ensures |attrs| == |ws|
  {
    if ws == [] then []
    else [VertexAttribute(FormatFor(ws[0]), offset, loc)] + PackedAttributes(ws[1..], offset + SizeOfF32Array(ws[0]), loc + 1)
  }

  /** Attributes that start at `start`, follow one another without a gap and
      end at `end`. */
  ghost predicate Contiguous(attrs: seq<VertexAttribute>, start: nat, end: nat)
  {
    && (attrs == [] ==> start == end)
    && (attrs != [] ==> attrs[0].offset == start && attrs[|attrs| - 1].offset + FormatSize(attrs[|attrs| - 1].format) == end)
    && forall i :: 0 <= i < |attrs| - 1 ==> attrs[i].offset + FormatSize(attrs[i].format) == attrs[i + 1].offset
  }

  /** No two attributes share a byte. */
  ghost predicate Disjoint(attrs: seq<VertexAttribute>)
  {
    forall i, j :: 0 <= i < j < |attrs| ==> attrs[i].offset + FormatSize(attrs[i].format) <= attrs[j].offset
  }

  /** The reference layout covers exactly `4 * Sum(ws)` bytes from `offset`
      without a gap. */
  lemma {:induction false} PackedAttributesContiguous(ws: seq<nat>, offset: nat, loc: nat)
    requires ValidWidths(ws)
    ensures Contiguous(PackedAttributes(ws, offset, loc), offset, offset + SizeOfF32Array(Sum(ws)))
  {
    if ws != [] {
      var next := offset + SizeOfF32Array(ws[0]);
      var rest := PackedAttributes(ws[1..], next, loc + 1);
      PackedAttributesContiguous(ws[1..], next, loc + 1);
      var attrs := PackedAttributes(ws, offset, loc);
      assert attrs == [VertexAttribute(FormatFor(ws[0]), offset, loc)] + rest;
      assert rest != [] ==> attrs[|attrs| - 1] == rest[|rest| - 1];
      forall i | 0 < i < |attrs| - 1
        ensures attrs[i].offset + FormatSize(attrs[i].format) == attrs[i + 1].offset
      {
        assert attrs[i] == rest[i - 1] && attrs[i + 1] == rest[i];
      }
    }
  }

  /** The reference layout reads field `i` with the format as wide as the
      field, at shader location `loc + i`. */
  lemma {:induction false} PackedAttributesFields(ws: seq<nat>, offset: nat, loc: nat)
    requires ValidWidths(ws)
    ensures forall i :: 0 <= i < |ws| ==>
      && Components(PackedAttributes(ws, offset, loc)[i].format) == ws[i]
      && PackedAttributes(ws, offset, loc)[i].shaderLocation == loc + i
  {
    if ws != [] {
      var next := offset + SizeOfF32Array(ws[0]);
      var rest := PackedAttributes(ws[1..], next, loc + 1);
      PackedAttributesFields(ws[1..], next, loc + 1);
      var attrs := PackedAttributes(ws, offset, loc);
      assert attrs == [VertexAttribute(FormatFor(ws[0]), offset, loc)] + rest;
      forall i | 0 < i < |ws|
        ensures Components(attrs[i].format) == ws[i] && attrs[i].shaderLocation == loc + i
      {
        assert attrs[i] == rest[i - 1] && ws[i] == ws[1..][i - 1];
      }
    }
  }

  /** Attributes that follow one another without a gap never overlap. */
  lemma {:induction false} ContiguousDisjoint(attrs: seq<VertexAttribute>, start: nat, end: nat)
    requires Contiguous(attrs, start, end)
    ensures Disjoint(attrs)
  {
    forall i, j | 0 <= i < j < |attrs|
      ensures attrs[i].offset + FormatSize(attrs[i].format) <= attrs[j].offset
    {
      OffsetsGrow(attrs, start, end, i, j);
    }
  }

  lemma {:induction false} OffsetsGrow(attrs: seq<VertexAttribute>, start: nat, end: nat, i: nat, j: nat)
    requires Contiguous(attrs, start, end)
    requires i < j < |attrs|
    ensures attrs[i].offset + FormatSize(attrs[i].format) <= attrs[j].offset
    decreases j - i
  {
    if i + 1 < j {
      OffsetsGrow(attrs, start, end, i + 1, j);
    }
  }

  /** `Quad::buffer_layout()`, as written: the stride is the size of a `Quad`,
      one record per instance, and four attributes whose offsets are the sizes
      of the `f32` arrays that precede each field. */
  function BufferLayout(): (l: VertexBufferLayout)
    ensures l.arrayStride == SizeOfQuad() == 36
    ensures l.stepMode == Instance
    ensures l.attributes == PackedAttributes(QuadFieldWidths, 0, 0)
  {
    VertexBufferLayout(
      SizeOfQuad(),
      Instance,
      [ VertexAttribute(Float32x3, 0, 0),
        VertexAttribute(Float32x2, SizeOfF32Array(3), 1),
        VertexAttribute(Float32x2, SizeOfF32Array(5), 2),
        VertexAttribute(Float32x2, SizeOfF32Array(7), 3) ])
  }

  /** The layout matches the record: offsets 0, 12, 20, 28 at locations 0 to 3,
      formats as wide as the fields, no gap, no overlap, and the last attribute
      ends exactly at the stride. */
  lemma BufferLayoutMatchesQuad()
    ensures var l := BufferLayout();
      && |l.attributes| == |QuadFieldWidths| == 4
      && l.attributes[0].offset == 0 && l.attributes[1].offset == 12
      && l.attributes[2].offset == 20 && l.attributes[3].offset == 28
      && (forall i :: 0 <= i < 4 ==>
            && l.attributes[i].shaderLocation == i
            && Components(l.attributes[i].format) == QuadFieldWidths[i])
      && Contiguous(l.attributes, 0, l.arrayStride)
      && Disjoint(l.attributes)
  {
  }

  /** The shader input at attribute `i` is exactly field `i` of the record:
      the floats at byte offset `offset` of the serialised quad. */
  lemma AttributeReadsField(q: Quad, i: nat)
    requires i < 4
    ensures var a := BufferLayout().attributes[i];
      && a.offset % F32Bytes == 0
      && a.offset / F32Bytes + Components(a.format) <= QuadFloats
      && Floats(q)[a.offset / F32Bytes .. a.offset / F32Bytes + Components(a.format)] == FieldFloats(q, i)
  {
  }
}
