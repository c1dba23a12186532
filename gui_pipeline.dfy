/**
  The CPU-side bookkeeping of the mesh/GUI render pipeline
  (crates/engine_render/src/gui_pipeline.rs): buffer capacity growth, the
  commands `draw` records into a render pass, and the camera update.

  GPU objects are opaque handles. A buffer keeps only its size: its contents are
  not modelled, and growing a buffer allocates a fresh one without copying.
*/
module GuiPipeline {
  import opened Wrappers
  import opened EngineTypes

  // ---------------------------------------------------------------------------
  // Opaque GPU handles

  /** A GPU buffer; only its size is kept. */
  class GpuBuffer {
    const size: nat

    constructor (size: nat)
      ensures this.size == size
    {
      this.size := size;
    }
  }

  /** A bind group whose binding 0 is a buffer. */
  class BindGroup {
    const binding0: GpuBuffer

    constructor (buffer: GpuBuffer)
      ensures binding0 == buffer
    {
      binding0 := buffer;
    }
  }

  /** A compiled render pipeline (shader, layouts, state). */
  class RenderPipeline {
    constructor () {}
  }

  // ---------------------------------------------------------------------------
  // Capacity growth

  /** The smallest size growth starts from: `current.max(64)`. */
  const MIN_GROWTH_BASE: nat := 64

  function Max(a: nat, b: nat): nat { if a >= b then a else b }

  function Pow2(k: nat): (p: nat)
    ensures p >= 1
  {
    if k == 0 then 1 else 2 * Pow2(k - 1)
  }

  function GrowthBase(current: nat): nat { Max(current, MIN_GROWTH_BASE) }

  /** The doubling loop: double `size` until it is at least `needed`. */
  function DoubleUntil(size: nat, needed: nat): nat
    requires size > 0
    decreases needed - size
  {
    if size >= needed then size else DoubleUntil(2 * size, needed)
  }

  /** How many times the doubling loop runs. */
  function Doublings(size: nat, needed: nat): nat
    requires size > 0
    decreases needed - size
  {
    if size >= needed then 0 else 1 + Doublings(2 * size, needed)
  }

  /** The buffer size after an ensure call on a buffer of size `current` for
      `needed` bytes: unchanged when it already fits, otherwise the doubling loop
      started from `current.max(64) * 2`. */
  function GrownSize(current: nat, needed: nat): nat {
    if needed <= current then current else DoubleUntil(2 * GrowthBase(current), needed)
  }

  /** The k with GrownSize = GrowthBase(current) * 2^k when the buffer grows. */
  function GrowthExponent(current: nat, needed: nat): nat
    requires needed > current
  {
    1 + Doublings(2 * GrowthBase(current), needed)
  }

  /** The doubling loop ends on the first `size * 2^j` that covers `needed`. */
  lemma {:induction false} DoubleUntilFirstCover(size: nat, needed: nat)
    requires size > 0
    ensures DoubleUntil(size, needed) == size * Pow2(Doublings(size, needed))
    ensures DoubleUntil(size, needed) >= needed && DoubleUntil(size, needed) >= size
    ensures forall j :: 0 <= j < Doublings(size, needed) ==> size * Pow2(j) < needed
    decreases needed - size
  {
    if size < needed {
      DoubleUntilFirstCover(2 * size, needed);
      var d := Doublings(2 * size, needed);
      assert size * Pow2(d + 1) == (2 * size) * Pow2(d);
      forall j | 0 <= j < d + 1
        ensures size * Pow2(j) < needed
      {
        if j > 0 {
          assert size * Pow2(j) == (2 * size) * Pow2(j - 1);
        }
      }
    }
  }

  /** Growth law: when the buffer grows, its new size is GrowthBase(current) * 2^k
      for the smallest k >= 1 that covers `needed` (the loop doubles at least once). */
  lemma GrowthLaw(current: nat, needed: nat)
    requires needed > current
    ensures GrowthExponent(current, needed) >= 1
    ensures GrownSize(current, needed) == GrowthBase(current) * Pow2(GrowthExponent(current, needed))
    ensures GrownSize(current, needed) >= needed
    ensures forall j :: 1 <= j < GrowthExponent(current, needed) ==> GrowthBase(current) * Pow2(j) < needed
  {
    var base := GrowthBase(current);
    DoubleUntilFirstCover(2 * base, needed);
    var d := Doublings(2 * base, needed);
    assert base * Pow2(d + 1) == (2 * base) * Pow2(d);
    forall j | 1 <= j < d + 1
      ensures base * Pow2(j) < needed
    {
      assert base * Pow2(j) == (2 * base) * Pow2(j - 1);
    }
  }

  /** After an ensure call the buffer holds at least `needed` bytes, it never
      shrinks, and it is left alone when it already fits. */
  lemma GrownSizeCovers(current: nat, needed: nat)
    ensures GrownSize(current, needed) >= needed
    ensures GrownSize(current, needed) >= current
    ensures needed <= current ==> GrownSize(current, needed) == current
  {
    if needed > current {
      DoubleUntilFirstCover(2 * GrowthBase(current), needed);
    }
  }

  /** Growth strictly increases the size; a single doubling gives exactly
      2 * max(current, 64); more than one doubling stays below 2 * needed. */
  lemma GrowthIsTight(current: nat, needed: nat)
    requires needed > current
    ensures GrownSize(current, needed) > current
    ensures GrowthExponent(current, needed) == 1 ==> GrownSize(current, needed) == 2 * GrowthBase(current)
    ensures GrowthExponent(current, needed) > 1 ==> GrownSize(current, needed) < 2 * needed
  {
    GrowthLaw(current, needed);
    var base, k := GrowthBase(current), GrowthExponent(current, needed);
    if k > 1 {
      assert base * Pow2(k) == 2 * (base * Pow2(k - 1));
    }
  }

  /** A second ensure call for the same need changes nothing. */
  lemma GrownSizeIdempotent(current: nat, needed: nat)
    ensures GrownSize(GrownSize(current, needed), needed) == GrownSize(current, needed)
  {
    GrownSizeCovers(current, needed);
  }

  const U64_LIMIT: nat := 0x1_0000_0000_0000_0000

  /** The `u64` arithmetic of the loop cannot overflow while the need is at most
      2^63 bytes: the final size (the largest value the loop computes) fits in a u64. */
  lemma GrownSizeFitsU64(current: nat, needed: nat)
    requires current < U64_LIMIT && needed <= U64_LIMIT / 2
    ensures GrownSize(current, needed) < U64_LIMIT
  {
    if needed > current {
      GrowthIsTight(current, needed);
    }
  }

  /** The size after a series of ensure calls with needs `needs`, in order. */
  function CapacityAfter(current: nat, needs: seq<nat>): nat {
    if needs == [] then current
    else GrownSize(CapacityAfter(current, needs[..|needs| - 1]), needs[|needs| - 1])
  }

  /** Over any series of ensure calls the size never decreases and always covers
      every need seen so far. */
  lemma {:induction false} CapacityCoversEveryNeed(current: nat, needs: seq<nat>)
    ensures CapacityAfter(current, needs) >= current
    ensures forall i :: 0 <= i < |needs| ==> CapacityAfter(current, needs) >= needs[i]
    ensures forall i :: 0 <= i <= |needs| ==> CapacityAfter(current, needs[..i]) <= CapacityAfter(current, needs)
  {
    if needs != [] {
      var n := |needs| - 1;
      var before := needs[..n];
      CapacityCoversEveryNeed(current, before);
      GrownSizeCovers(CapacityAfter(current, before), needs[n]);
      forall i | 0 <= i <= |needs|
        ensures CapacityAfter(current, needs[..i]) <= CapacityAfter(current, needs)
      {
        if i < |needs| {
          assert needs[..i] == before[..i];
        } else {
          assert needs[..i] == needs;
        }
      }
      forall i | 0 <= i < n
        ensures CapacityAfter(current, needs) >= needs[i]
      {
        assert before[i] == needs[i];
      }
    }
  }

  /** Bytes needed for a vertex slice and for an index slice. */
  function VertexBytes(vertices: seq<MeshVertex>): nat { |vertices| * MESH_VERTEX_SIZE }

  function IndexBytes(indices: seq<U32>): nat { |indices| * SIZE_OF_U32 }

  // ---------------------------------------------------------------------------
  // Vertex layout

  /** A vertex attribute: byte offset in the vertex, number of f32 components,
      shader location. */
  datatype VertexAttribute = VertexAttribute(offset: nat, components: nat, location: nat)

  /** The vertex buffer layout: stride `size_of::<MeshVertex>()`, then position
      (Float32x3 at 0), normal (Float32x3 at 12), uv (Float32x2 at 24). */
  const VERTEX_STRIDE: nat := MESH_VERTEX_SIZE
  const VERTEX_ATTRIBUTES: seq<VertexAttribute> :=
    [VertexAttribute(0, 3, 0), VertexAttribute(12, 3, 1), VertexAttribute(24, 2, 2)]

  /** The components an attribute reads out of one vertex's image. */
  function ReadAttribute(image: seq<F32>, a: VertexAttribute): seq<F32>
    requires a.offset % SIZE_OF_F32 == 0 && a.offset / SIZE_OF_F32 + a.components <= |image|
  {
    image[a.offset / SIZE_OF_F32 .. a.offset / SIZE_OF_F32 + a.components]
  }

  /** The layout agrees with `MeshVertex`: every attribute lies inside the
      32-byte stride, the attributes do not overlap, and locations 0, 1, 2 read
      exactly the position, the normal and the uv. */
  lemma VertexLayoutMatchesMeshVertex(v: MeshVertex)
    ensures forall i :: 0 <= i < |VERTEX_ATTRIBUTES| ==>
      VERTEX_ATTRIBUTES[i].offset % SIZE_OF_F32 == 0
      && VERTEX_ATTRIBUTES[i].offset + VERTEX_ATTRIBUTES[i].components * SIZE_OF_F32 <= VERTEX_STRIDE
      && VERTEX_ATTRIBUTES[i].location == i
    ensures forall i :: 0 <= i < |VERTEX_ATTRIBUTES| - 1 ==>
      VERTEX_ATTRIBUTES[i].offset + VERTEX_ATTRIBUTES[i].components * SIZE_OF_F32 <= VERTEX_ATTRIBUTES[i + 1].offset
    ensures ReadAttribute(VertexWords(v), VERTEX_ATTRIBUTES[0]) == v.position
    ensures ReadAttribute(VertexWords(v), VERTEX_ATTRIBUTES[1]) == v.normal
    ensures ReadAttribute(VertexWords(v), VERTEX_ATTRIBUTES[2]) == v.uv
  {
  }

  // ---------------------------------------------------------------------------
  // Render pass commands

  datatype IndexFormat = Uint16 | Uint32

  function IndexFormatSize(f: IndexFormat): nat {
    match f
    case Uint16 => 2
    case Uint32 => 4
  }

  /** The render-pass calls the pipeline makes. `DrawIndexed` carries the index
      range, the base vertex and the instance range. */
  datatype RenderCommand =
    | SetPipeline(pipeline: RenderPipeline)
    | SetBindGroup(index: nat, group: BindGroup)
    | SetVertexBuffer(slot: nat, buffer: GpuBuffer)
    | SetIndexBuffer(buffer: GpuBuffer, format: IndexFormat)
    | DrawIndexed(firstIndex: nat, endIndex: nat, baseVertex: int, firstInstance: nat, endInstance: nat)

  /** A render pass records the commands issued into it. */
  class RenderPass {
    var commands: seq<RenderCommand>

    constructor ()
      ensures commands == []
    {
      commands := [];
    }
  }

  /** What a pass has bound after some commands. */
  datatype Bindings = Bindings(
    pipeline: Option<RenderPipeline>,
    bindGroups: map<nat, BindGroup>,
    vertexBuffers: map<nat, GpuBuffer>,
    indexBuffer: Option<(GpuBuffer, IndexFormat)>)

  function Bound(cmds: seq<RenderCommand>): Bindings {
    if cmds == [] then Bindings(None, map[], map[], None)
    else
      var b := Bound(cmds[..|cmds| - 1]);
      match cmds[|cmds| - 1]
      case SetPipeline(p) => b.(pipeline := Some(p))
      case SetBindGroup(i, g) => b.(bindGroups := b.bindGroups[i := g])
      case SetVertexBuffer(s, buf) => b.(vertexBuffers := b.vertexBuffers[s := buf])
      case SetIndexBuffer(buf, f) => b.(indexBuffer := Some((buf, f)))
      case DrawIndexed(_, _, _, _, _) => b
  }

  /** The conditions an indexed draw of this pipeline needs: a pipeline, bind
      group 0 and vertex slot 0 bound, and an index buffer large enough for the
      index range drawn. */
  predicate DrawAllowed(b: Bindings, c: RenderCommand)
    requires c.DrawIndexed?
  {
    && b.pipeline.Some?
    && 0 in b.bindGroups
    && 0 in b.vertexBuffers
    && b.indexBuffer.Some?
    && c.firstIndex <= c.endIndex
    && c.endIndex * IndexFormatSize(b.indexBuffer.value.1) <= b.indexBuffer.value.0.size
    && c.firstInstance <= c.endInstance
  }

  /** Every indexed draw in the pass meets those conditions. */
  predicate PassValid(cmds: seq<RenderCommand>) {
    if cmds == [] then true
    else
      var n := |cmds| - 1;
      && PassValid(cmds[..n])
      && (cmds[n].DrawIndexed? ==> DrawAllowed(Bound(cmds[..n]), cmds[n]))
  }

  /** The five commands `draw` issues, in order. */
  function DrawCommands(p: RenderPipeline, group: BindGroup, vb: GpuBuffer, ib: GpuBuffer, indexCount: nat)
    : seq<RenderCommand>
  {
    [ SetPipeline(p), SetBindGroup(0, group), SetVertexBuffer(0, vb),
      SetIndexBuffer(ib, Uint32), DrawIndexed(0, indexCount, 0, 0, 1) ]
  }

  /** Unfolding `Bound` and `PassValid` on a pass extended by one command. */
  lemma AppendCommand(cmds: seq<RenderCommand>, c: RenderCommand)
    ensures (cmds + [c])[..|cmds|] == cmds
    ensures PassValid(cmds + [c]) == (PassValid(cmds) && (c.DrawIndexed? ==> DrawAllowed(Bound(cmds), c)))
    ensures Bound(cmds + [c]) == match c
      case SetPipeline(p) => Bound(cmds).(pipeline := Some(p))
      case SetBindGroup(i, g) => Bound(cmds).(bindGroups := Bound(cmds).bindGroups[i := g])
      case SetVertexBuffer(s, buf) => Bound(cmds).(vertexBuffers := Bound(cmds).vertexBuffers[s := buf])
      case SetIndexBuffer(buf, f) => Bound(cmds).(indexBuffer := Some((buf, f)))
      case DrawIndexed(_, _, _, _, _) => Bound(cmds)
  {
  }

  /** Appending `draw`'s commands to a valid pass keeps it valid whenever the
      index buffer holds `indexCount` u32 indices. */
  lemma DrawCommandsKeepPassValid(
    prefix: seq<RenderCommand>, p: RenderPipeline, group: BindGroup, vb: GpuBuffer, ib: GpuBuffer, indexCount: nat)
    requires PassValid(prefix)
    requires indexCount * SIZE_OF_U32 <= ib.size
    ensures PassValid(prefix + DrawCommands(p, group, vb, ib, indexCount))
  {
    var c1 := prefix + [SetPipeline(p)];
    AppendCommand(prefix, SetPipeline(p));
    var c2 := c1 + [SetBindGroup(0, group)];
    AppendCommand(c1, SetBindGroup(0, group));
    var c3 := c2 + [SetVertexBuffer(0, vb)];
    AppendCommand(c2, SetVertexBuffer(0, vb));
    var c4 := c3 + [SetIndexBuffer(ib, Uint32)];
    AppendCommand(c3, SetIndexBuffer(ib, Uint32));
    var draw := DrawIndexed(0, indexCount, 0, 0, 1);
    AppendCommand(c4, draw);
    assert DrawAllowed(Bound(c4), draw);
    assert c4 + [draw] == prefix + DrawCommands(p, group, vb, ib, indexCount);
  }

  // ---------------------------------------------------------------------------
  // Camera

  /** The aspect ratio `update_camera` uses: width / height when both are
      positive, otherwise 16:9. */
  datatype Aspect = WidthOverHeight(width: nat, height: nat) | SixteenByNine

  function AspectFor(width: U32, height: U32): (a: Aspect)
    ensures a.WidthOverHeight? <==> width > 0 && height > 0
    ensures a.WidthOverHeight? ==> a.width == width && a.height == height && a.height > 0
  {
    if width > 0 && height > 0 then WidthOverHeight(width, height) else SixteenByNine
  }

  /** A `queue.write_buffer` call: target buffer, byte offset, data. */
  datatype BufferWrite = BufferWrite(buffer: GpuBuffer, offset: nat, words: seq<F32>)

  predicate WriteInBounds(w: BufferWrite) {
    w.offset + |w.words| * SIZE_OF_F32 <= w.buffer.size
  }

  /** The GPU queue records the writes submitted to it. */
  class Queue {
    var writes: seq<BufferWrite>

    constructor ()
      ensures writes == []
    {
      writes := [];
    }
  }

  // ---------------------------------------------------------------------------
  // The pipeline

  class GuiPipeline {
    var pipeline: RenderPipeline
    var vertexBuffer: GpuBuffer
    var indexBuffer: GpuBuffer
    var cameraBindGroup: BindGroup
    var cameraBuffer: GpuBuffer
    var indexCount: U32

    /** The camera bind group refers to the current camera buffer, which holds
        one camera uniform, and the index buffer holds `indexCount` indices. */
    ghost predicate Valid()
      reads this
    {
      && cameraBindGroup.binding0 == cameraBuffer
      && cameraBuffer.size == CAMERA_UNIFORM_SIZE
      && indexCount * SIZE_OF_U32 <= indexBuffer.size
    }

    /** `GUIPipeline::new` without the wgpu object construction: each buffer is
        created holding exactly its contents, and `index_count` is the number of
        indices, truncated to u32. */
    constructor (vertices: seq<MeshVertex>, indices: seq<U32>)
      ensures Valid()
      ensures fresh(vertexBuffer) && vertexBuffer.size == |CastVertices(vertices)| * SIZE_OF_F32
      ensures vertexBuffer.size == VertexBytes(vertices)
      ensures fresh(indexBuffer) && indexBuffer.size == IndexBytes(indices)
      ensures fresh(cameraBuffer) && fresh(cameraBindGroup) && fresh(pipeline)
      ensures indexCount == |indices| % U32_LIMIT
    {
      var camera := new GpuBuffer(CAMERA_UNIFORM_SIZE);
      vertexBuffer := new GpuBuffer(|CastVertices(vertices)| * SIZE_OF_F32);
      indexBuffer := new GpuBuffer(|indices| * SIZE_OF_U32);
      cameraBindGroup := new BindGroup(camera);
      cameraBuffer := camera;
      pipeline := new RenderPipeline();
      indexCount := |indices| % U32_LIMIT;
    }

    /** `draw`: set the pipeline, bind group 0, vertex slot 0, the index buffer
        as Uint32, then one indexed draw over 0..index_count with one instance. */
    method Draw(rpass: RenderPass)
      requires Valid()
      modifies rpass
      ensures rpass.commands == old(rpass.commands)
        + DrawCommands(pipeline, cameraBindGroup, vertexBuffer, indexBuffer, indexCount)
      ensures PassValid(old(rpass.commands)) ==> PassValid(rpass.commands)
    {
      ghost var before := rpass.commands;
      rpass.commands := rpass.commands + [SetPipeline(pipeline)];
      rpass.commands := rpass.commands + [SetBindGroup(0, cameraBindGroup)];
      rpass.commands := rpass.commands + [SetVertexBuffer(0, vertexBuffer)];
      rpass.commands := rpass.commands + [SetIndexBuffer(indexBuffer, Uint32)];
      rpass.commands := rpass.commands + [DrawIndexed(0, indexCount, 0, 0, 1)];
      assert rpass.commands == before + DrawCommands(pipeline, cameraBindGroup, vertexBuffer, indexBuffer, indexCount);
      if PassValid(before) {
        DrawCommandsKeepPassValid(before, pipeline, cameraBindGroup, vertexBuffer, indexBuffer, indexCount);
      }
    }

    /** `update_camera`: writes the perspective matrix for the chosen aspect
        ratio at offset 0 of the camera buffer; the write fits in the buffer. */
    method UpdateCamera(queue: Queue, width: U32, height: U32, perspective: Aspect -> CameraUniform)
      requires Valid()
      modifies queue
      ensures queue.writes == old(queue.writes)
        + [BufferWrite(cameraBuffer, 0, CameraWords(perspective(AspectFor(width, height))))]
      ensures WriteInBounds(queue.writes[|queue.writes| - 1])
    {
      var cameraUniform := perspective(AspectFor(width, height));
      queue.writes := queue.writes + [BufferWrite(cameraBuffer, 0, CameraWords(cameraUniform))];
    }

    /** `ensure_vertex_capacity`: the vertex buffer ends at GrownSize of its old
        size and the vertices' byte count; it is replaced by a fresh buffer only
        when it was too small, and no other field changes. */
    method EnsureVertexCapacity(vertices: seq<MeshVertex>)
      requires Valid()
      modifies this
      ensures Valid()
      ensures vertexBuffer.size == GrownSize(old(vertexBuffer.size), VertexBytes(vertices))
      ensures VertexBytes(vertices) <= old(vertexBuffer.size) ==> vertexBuffer == old(vertexBuffer)
      ensures VertexBytes(vertices) > old(vertexBuffer.size) ==> fresh(vertexBuffer)
      ensures pipeline == old(pipeline) && indexBuffer == old(indexBuffer) && indexCount == old(indexCount)
      ensures cameraBindGroup == old(cameraBindGroup) && cameraBuffer == old(cameraBuffer)
    {
      var needed := |vertices| * MESH_VERTEX_SIZE;
      var current := vertexBuffer.size;
      if needed > current {
        var newSize := Max(current, MIN_GROWTH_BASE) * 2;
        while newSize < needed
          invariant newSize > 0
          invariant DoubleUntil(newSize, needed) == GrownSize(current, needed)
          decreases needed - newSize
        {
          newSize := newSize * 2;
        }
        vertexBuffer := new GpuBuffer(newSize);
      }
    }

    /** `ensure_index_capacity`: as above for the index buffer; `index_count` is
        not updated. */
    method EnsureIndexCapacity(indices: seq<U32>)
      requires Valid()
      modifies this
      ensures Valid()
      ensures indexBuffer.size == GrownSize(old(indexBuffer.size), IndexBytes(indices))
      ensures IndexBytes(indices) <= old(indexBuffer.size) ==> indexBuffer == old(indexBuffer)
      ensures IndexBytes(indices) > old(indexBuffer.size) ==> fresh(indexBuffer)
      ensures pipeline == old(pipeline) && vertexBuffer == old(vertexBuffer) && indexCount == old(indexCount)
      ensures cameraBindGroup == old(cameraBindGroup) && cameraBuffer == old(cameraBuffer)
    {
      var needed := |indices| * SIZE_OF_U32;
      var current := indexBuffer.size;
      if needed > current {
        var newSize := Max(current, MIN_GROWTH_BASE) * 2;
        while newSize < needed
          invariant newSize > 0
          invariant DoubleUntil(newSize, needed) == GrownSize(current, needed)
          decreases needed - newSize
        {
          newSize := newSize * 2;
        }
        // Valid() needs indexCount * 4 <= the new size; only the index buffer
        // carries such a bound, so only this method needs the lemma.
        GrownSizeCovers(current, needed);
        indexBuffer := new GpuBuffer(newSize);
      }
    }
  }
}
