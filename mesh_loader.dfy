/** `load_mesh_stub` (crates/engine_assets/src/mesh_loader.rs): a fixed triangle
    for every entity that names a mesh. */
module MeshLoader {
  import opened Wrappers
  import opened EngineTypes
  import opened EngineScene

  /** The normal shared by the three stub vertices: +z. */
  const FACING_Z: Vec3 := [ZERO, ZERO, ONE]

  /** The placeholder triangle: apex (0, 0.5), base (-0.5, -0.5) to (0.5, -0.5). */
  const STUB_TRIANGLE: MeshData := MeshData(
    [ MeshVertex([ZERO, HALF, ZERO], FACING_Z, [ZERO, ZERO]),
      MeshVertex([MINUS_HALF, MINUS_HALF, ZERO], FACING_Z, [ONE, ZERO]),
      MeshVertex([HALF, MINUS_HALF, ZERO], FACING_Z, [HALF, ONE]) ],
    [0, 1, 2])

  /** Every index names an existing vertex. */
  predicate IndicesInRange(m: MeshData) {
    forall i :: 0 <= i < |m.indices| ==> m.indices[i] < |m.vertices|
  }

  function LoadMeshStub(e: Entity): (r: Option<MeshData>)
    ensures r.None? <==> e.mesh.None?
    ensures r.Some? ==> |r.value.vertices| == 3 && r.value.indices == [0, 1, 2]
    ensures r.Some? ==> IndicesInRange(r.value)
    ensures r.Some? ==> forall v :: v in r.value.vertices ==> v.normal == FACING_Z
  {
    if e.mesh.None? then None else Some(STUB_TRIANGLE)
  }

  /** The result depends only on whether a mesh is named: not on which mesh,
      nor on the name, transform or sprite. */
  lemma LoadMeshStubDependsOnlyOnMeshPresence(e1: Entity, e2: Entity)
    requires e1.mesh.Some? == e2.mesh.Some?
    ensures LoadMeshStub(e1) == LoadMeshStub(e2)
  {
  }
}
