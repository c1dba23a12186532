/**
  The fixed-layout records shared by the engine crates (crates/engine_types).

  Every record except `MeshData` is `repr(C)` and made only of `f32` fields, so
  its memory image is the plain concatenation of its fields' 32-bit words, with no
  padding. Each such record has a `...Words` function giving that image (what
  `bytemuck::cast_slice` hands to the GPU) and the byte size that the renderer's
  capacity arithmetic uses; the vertex and instance records, which the renderer
  uploads, also have a decoder back from the words. `MeshData` is a plain struct
  of two vectors and has no image.
*/
module EngineTypes {

  /** An IEEE-754 single-precision value, kept as its bit pattern. No float
      arithmetic is modelled: values are only copied. */
  datatype F32 = F32(bits: bv32)

  const ZERO: F32 := F32(0x0000_0000)        // 0.0
  const ONE: F32 := F32(0x3F80_0000)         // 1.0
  const HALF: F32 := F32(0x3F00_0000)        // 0.5
  const MINUS_HALF: F32 := F32(0xBF00_0000)  // -0.5

  /** `u32`, as used for mesh indices and the index count. */
  type U32 = x: nat | x < 0x1_0000_0000

  const U32_LIMIT: nat := 0x1_0000_0000

  /** `size_of::<f32>()` and `size_of::<u32>()`. */
  const SIZE_OF_F32: nat := 4
  const SIZE_OF_U32: nat := 4

  /** Fixed-size `[f32; N]` arrays. */
  type Vec2 = s: seq<F32> | |s| == 2 witness [F32(0), F32(0)]
  type Vec3 = s: seq<F32> | |s| == 3 witness [F32(0), F32(0), F32(0)]
  type Vec4 = s: seq<F32> | |s| == 4 witness [F32(0), F32(0), F32(0), F32(0)]
  type Vec8 = s: seq<F32> | |s| == 8 witness [F32(0), F32(0), F32(0), F32(0), F32(0), F32(0), F32(0), F32(0)]
  type Vec16 = s: seq<F32> | |s| == 16 witness seq(16, _ => F32(0))

  /** Camera uniform: a column-major 4x4 matrix. */
  datatype CameraUniform = CameraUniform(viewProj: Vec16)

  /** A mesh vertex: position, normal, texture coordinate. */
  datatype MeshVertex = MeshVertex(position: Vec3, normal: Vec3, uv: Vec2)

  /** 2D transform as packed for the GPU:
      t0 = position.x, position.y, rotation, pad; t1 = scale.x, scale.y, pad, pad. */
  datatype Transform2D = Transform2D(t0: Vec4, t1: Vec4)

  /** Sprite as packed for the GPU: s0 = dimensions.x, dimensions.y, pad, pad; color = RGBA. */
  datatype Sprite = Sprite(s0: Vec4, color: Vec4)

  /** One instance record: a transform followed by a sprite, and nothing else. */
  datatype InstanceData = InstanceData(transform: Transform2D, sprite: Sprite)

  /** 3D transform: t0 = position xyz, rotation xyz, pad, pad; t1 = scale xyz, pad. */
  datatype Transform3D = Transform3D(t0: Vec8, t1: Vec4)

  /** A mesh: its vertices and its `u32` indices, and nothing else. */
  datatype MeshData = MeshData(vertices: seq<MeshVertex>, indices: seq<U32>)

  /** Byte sizes (`size_of::<T>()`) of the records. */
  const CAMERA_UNIFORM_SIZE: nat := 16 * SIZE_OF_F32
  const MESH_VERTEX_SIZE: nat := 8 * SIZE_OF_F32
  const TRANSFORM_2D_SIZE: nat := 8 * SIZE_OF_F32
  const SPRITE_SIZE: nat := 8 * SIZE_OF_F32
  const INSTANCE_DATA_SIZE: nat := 16 * SIZE_OF_F32
  const TRANSFORM_3D_SIZE: nat := 12 * SIZE_OF_F32

  // ---------------------------------------------------------------------------
  // Memory images

  function CameraWords(c: CameraUniform): (w: seq<F32>)
    ensures |w| * SIZE_OF_F32 == CAMERA_UNIFORM_SIZE == 64
  {
    c.viewProj
  }

  function VertexWords(v: MeshVertex): (w: seq<F32>)
    ensures |w| * SIZE_OF_F32 == MESH_VERTEX_SIZE == 32
  {
    v.position + v.normal + v.uv
  }

  function TransformWords(t: Transform2D): (w: seq<F32>)
    ensures |w| * SIZE_OF_F32 == TRANSFORM_2D_SIZE == 32
  {
    t.t0 + t.t1
  }

  function SpriteWords(s: Sprite): (w: seq<F32>)
    ensures |w| * SIZE_OF_F32 == SPRITE_SIZE == 32
  {
    s.s0 + s.color
  }

  /** The instance image is the transform's image followed by the sprite's, so
      its size is exactly the sum of the two. */
  function InstanceWords(d: InstanceData): (w: seq<F32>)
    ensures |w| * SIZE_OF_F32 == INSTANCE_DATA_SIZE == TRANSFORM_2D_SIZE + SPRITE_SIZE == 64
    ensures w[..8] == TransformWords(d.transform) && w[8..] == SpriteWords(d.sprite)
  {
    TransformWords(d.transform) + SpriteWords(d.sprite)
  }

  function Transform3DWords(t: Transform3D): (w: seq<F32>)
    ensures |w| * SIZE_OF_F32 == TRANSFORM_3D_SIZE == 48
  {
    t.t0 + t.t1
  }

  /** `bytemuck::cast_slice` of a vertex slice: the vertices' images back to back. */
  function CastVertices(vs: seq<MeshVertex>): (w: seq<F32>)
    ensures |w| * SIZE_OF_F32 == |vs| * MESH_VERTEX_SIZE
    ensures forall i :: 0 <= i < |vs| ==> w[8 * i .. 8 * i + 8] == VertexWords(vs[i])
  {
    if vs == [] then []
    else
      var rest := CastVertices(vs[1..]);
      assert forall i :: 1 <= i < |vs| ==> vs[i] == vs[1..][i - 1];
      VertexWords(vs[0]) + rest
  }

  // ---------------------------------------------------------------------------
  // Decoders (reading a record back out of its image)

  function VertexFromWords(w: seq<F32>): (v: MeshVertex)
    requires |w| == 8
    ensures VertexWords(v) == w
  {
    MeshVertex(w[0..3], w[3..6], w[6..8])
  }

  function InstanceFromWords(w: seq<F32>): (d: InstanceData)
    requires |w| == 16
    ensures InstanceWords(d) == w
  {
    InstanceData(Transform2D(w[0..4], w[4..8]), Sprite(w[8..12], w[12..16]))
  }

  /** Reading a vertex back from its image gives the same vertex. */
  lemma VertexRoundTrip(v: MeshVertex)
    ensures VertexFromWords(VertexWords(v)) == v
  {
  }

  /** Reading an instance back from its image gives the same instance. */
  lemma InstanceRoundTrip(d: InstanceData)
    ensures InstanceFromWords(InstanceWords(d)) == d
  {
  }
}
