/**
  Scene-to-GPU projections (crates/engine_wasm_api/src/helpers.rs):
  `scene_to_instances`, an order-preserving filter/map into instance records, and
  `scene_to_meshes`, a loop collecting one placeholder mesh per mesh entity.
*/
module WasmHelpers {
  import opened Wrappers
  import opened EngineTypes
  import opened EngineScene
  import opened MeshLoader

  predicate HasTransform(e: Entity) { e.transform2d.Some? }

  predicate HasMesh(e: Entity) { e.mesh.Some? }

  /** `scene_to_instances` panics on an entity that has a transform but no sprite;
      every entity its caller hands over must avoid that. */
  predicate Projectable(e: Entity) { e.transform2d.Some? ==> e.sprite.Some? }

  predicate AllProjectable(es: seq<Entity>) {
    forall i :: 0 <= i < |es| ==> Projectable(es[i])
  }

  /** Positions, in increasing order, of the entities that satisfy `keep`. */
  function SelectedIndices(es: seq<Entity>, keep: Entity -> bool): (ix: seq<nat>)
    ensures forall k :: 0 <= k < |ix| ==> ix[k] < |es| && keep(es[ix[k]])
    ensures forall k, l :: 0 <= k < l < |ix| ==> ix[k] < ix[l]
    ensures forall j :: 0 <= j < |es| && keep(es[j]) ==> j in ix
  {
    if es == [] then []
    else
      var n := |es| - 1;
      var before := SelectedIndices(es[..n], keep);
      assert forall j :: 0 <= j < n ==> es[..n][j] == es[j];
      if keep(es[n]) then before + [n] else before
  }

  /** Slots of the instance image that are padding. */
  const PAD_SLOTS: set<nat> := {3, 6, 7, 10, 11}

  /** The record for one entity (the closure passed to `map`). */
  function ToInstance(e: Entity, toRadians: F32 -> F32): InstanceData
    requires e.transform2d.Some? && e.sprite.Some?
  {
    var t, s := e.transform2d.value, e.sprite.value;
    InstanceData(
      Transform2D([t.position.0, t.position.1, toRadians(t.rotation), ZERO],
                  [t.scale.0, t.scale.1, ZERO, ZERO]),
      Sprite([s.dimensions.0, s.dimensions.1, ZERO, ZERO],
             [s.color.0, s.color.1, s.color.2, s.color.3]))
  }

  /** Where each authored value lands in the image the shader reads: slots 0-1
      the position, slot 2 the rotation converted to radians (once), slots 4-5
      the scale, slots 8-9 the dimensions, slots 12-15 the colour in RGBA order;
      every padding slot is zero. */
  lemma InstanceLayout(e: Entity, toRadians: F32 -> F32)
    requires e.transform2d.Some? && e.sprite.Some?
    ensures
      var t, s, w := e.transform2d.value, e.sprite.value, InstanceWords(ToInstance(e, toRadians));
      && w[0] == t.position.0 && w[1] == t.position.1
      && w[2] == toRadians(t.rotation)
      && w[4] == t.scale.0 && w[5] == t.scale.1
      && w[8] == s.dimensions.0 && w[9] == s.dimensions.1
      && w[12..16] == [s.color.0, s.color.1, s.color.2, s.color.3]
      && forall i :: i in PAD_SLOTS ==> w[i] == ZERO
  {
  }

  /** The filter/map chain over a list of entities: keep those with a transform,
      map each to its record. */
  function InstancesOf(es: seq<Entity>, toRadians: F32 -> F32): seq<InstanceData>
    requires AllProjectable(es)
  {
    if es == [] then []
    else
      var n := |es| - 1;
      assert AllProjectable(es[..n]) by {
        assert forall j :: 0 <= j < n ==> es[..n][j] == es[j];
      }
      InstancesOf(es[..n], toRadians)
        + (if HasTransform(es[n]) then [ToInstance(es[n], toRadians)] else [])
  }

  /** Exactly one record per entity with a transform, and the k-th record is
      that of the k-th such entity in scene order. */
  lemma {:induction false} InstancesFollowSceneOrder(es: seq<Entity>, toRadians: F32 -> F32)
    requires AllProjectable(es)
    ensures |InstancesOf(es, toRadians)| == |SelectedIndices(es, HasTransform)|
    ensures forall k :: 0 <= k < |SelectedIndices(es, HasTransform)| ==>
      InstancesOf(es, toRadians)[k] == ToInstance(es[SelectedIndices(es, HasTransform)[k]], toRadians)
  {
    if es != [] {
      var n := |es| - 1;
      var prefix := es[..n];
      assert AllProjectable(prefix) by {
        assert forall j :: 0 <= j < n ==> prefix[j] == es[j];
      }
      InstancesFollowSceneOrder(prefix, toRadians);
      var ix, before := SelectedIndices(es, HasTransform), SelectedIndices(prefix, HasTransform);
      var rs, rsBefore := InstancesOf(es, toRadians), InstancesOf(prefix, toRadians);
      assert ix == before + (if HasTransform(es[n]) then [n] else []);
      assert rs == rsBefore + (if HasTransform(es[n]) then [ToInstance(es[n], toRadians)] else []);
      forall k | 0 <= k < |ix|
        ensures rs[k] == ToInstance(es[ix[k]], toRadians)
      {
        if k < |before| {
          assert rs[k] == rsBefore[k] && ix[k] == before[k];
          assert prefix[before[k]] == es[before[k]];
        }
      }
    }
  }

  /** Projecting two scenes back to back gives their projections back to back:
      the projection neither reorders nor mixes records across entities. */
  lemma {:induction false} InstancesOfConcat(a: seq<Entity>, b: seq<Entity>, toRadians: F32 -> F32)
    requires AllProjectable(a) && AllProjectable(b)
    ensures AllProjectable(a + b)
    ensures InstancesOf(a + b, toRadians) == InstancesOf(a, toRadians) + InstancesOf(b, toRadians)
    decreases |b|
  {
    if b == [] {
      assert a + b == a;
    } else {
      var n := |b| - 1;
      assert AllProjectable(b[..n]) by {
        assert forall j :: 0 <= j < n ==> b[..n][j] == b[j];
      }
      InstancesOfConcat(a, b[..n], toRadians);
      assert (a + b)[..|a + b| - 1] == a + b[..n];
    }
  }

  /** `scene_to_instances`. */
  function SceneToInstances(scene: Scene, toRadians: F32 -> F32): (r: seq<InstanceData>)
    requires AllProjectable(scene.entities)
    ensures |r| == |SelectedIndices(scene.entities, HasTransform)|
    ensures forall k :: 0 <= k < |r| ==>
      r[k] == ToInstance(scene.entities[SelectedIndices(scene.entities, HasTransform)[k]], toRadians)
  {
    InstancesFollowSceneOrder(scene.entities, toRadians);
    InstancesOf(scene.entities, toRadians)
  }

  /** What one entity adds to the mesh list. */
  function MeshOf(e: Entity): seq<MeshData> {
    if HasMesh(e) then
      match LoadMeshStub(e)
      case Some(m) => [m]
      case None => []
    else []
  }

  /** The meshes the loop collects from a list of entities. */
  function MeshesOf(es: seq<Entity>): seq<MeshData> {
    if es == [] then [] else MeshesOf(es[..|es| - 1]) + MeshOf(es[|es| - 1])
  }

  /** One placeholder triangle per entity with a mesh; the "could not be loaded"
      case never arises. */
  lemma {:induction false} MeshesOneStubPerMeshEntity(es: seq<Entity>)
    ensures |MeshesOf(es)| == |SelectedIndices(es, HasMesh)|
    ensures forall k :: 0 <= k < |MeshesOf(es)| ==> MeshesOf(es)[k] == STUB_TRIANGLE
  {
    if es != [] {
      MeshesOneStubPerMeshEntity(es[..|es| - 1]);
    }
  }

  /** The console warning for a mesh entity whose mesh could not be loaded. */
  function MissingMeshWarning(name: string): string {
    "Mesh entity '" + name + "' could not be loaded"
  }

  /** `scene_to_meshes`; `warnings` are the messages it would print. */
  method SceneToMeshes(scene: Scene) returns (meshes: seq<MeshData>, warnings: seq<string>)
    ensures meshes == MeshesOf(scene.entities)
    ensures |meshes| == |SelectedIndices(scene.entities, HasMesh)|
    ensures forall k :: 0 <= k < |meshes| ==> meshes[k] == STUB_TRIANGLE
    ensures warnings == []
  {
    meshes, warnings := [], [];
    var i := 0;
    while i < |scene.entities|
      invariant 0 <= i <= |scene.entities|
      invariant meshes == MeshesOf(scene.entities[..i])
      invariant warnings == []
    {
      var entity := scene.entities[i];
      if entity.mesh.Some? {
        var loaded := LoadMeshStub(entity);
        if loaded.Some? {
          meshes := meshes + [loaded.value];
        } else {
          warnings := warnings + [MissingMeshWarning(entity.name)];
        }
      }
      assert scene.entities[..i + 1][..i] == scene.entities[..i];
      i := i + 1;
    }
    assert scene.entities[..i] == scene.entities;
    MeshesOneStubPerMeshEntity(scene.entities);
  }
}
