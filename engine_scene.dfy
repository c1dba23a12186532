/**
  The scene as the projection helpers read it: a named, ordered list of entities,
  each with an optional 2D transform, an optional sprite and an optional mesh.
  The `engine_scene` crate itself declares only `name`; the entity fields below
  are the ones `scene_to_instances`, `scene_to_meshes` and `load_mesh_stub` use.
*/
module EngineScene {
  import opened Wrappers
  import opened EngineTypes

  /** Authored 2D transform; `rotation` is in degrees. */
  datatype SceneTransform2D = SceneTransform2D(position: (F32, F32), rotation: F32, scale: (F32, F32))

  /** Authored sprite: size and RGBA colour. */
  datatype SceneSprite = SceneSprite(dimensions: (F32, F32), color: (F32, F32, F32, F32))

  /** An entity. `mesh` is the mesh reference (for instance a path); only its
      presence matters here. */
  datatype Entity = Entity(
    name: string,
    transform2d: Option<SceneTransform2D>,
    sprite: Option<SceneSprite>,
    mesh: Option<string>)

  datatype Scene = Scene(name: string, entities: seq<Entity>)
}
