/**
 * The imported scene as the importer hands it over: a node tree whose nodes
 * name meshes by index, the meshes' vertex streams and faces, and materials
 * listing texture paths per texture type.
 */
module Scene {
  import opened Wrappers
  import opened Glm
  import opened GlApi

  /** A node names meshes of the scene by index and owns its children. */
  datatype AiNode = AiNode(meshes: seq<nat>, children: seq<AiNode>)

  /** Parallel vertex streams (the first texture-coordinate channel may be absent) and faces of indices. */
  datatype AiMesh = AiMesh(
    vertices: seq<Vec3>,
    normals: seq<Vec3>,
    texCoords: Option<seq<Vec3>>,
    faces: seq<seq<U32>>,
    materialIndex: nat)

  datatype AiTextureType = AiDiffuse | AiSpecular | AiOther

  /** The texture paths a material lists for each texture type. */
  datatype AiMaterial = AiMaterial(textures: map<AiTextureType, seq<string>>)

  datatype AiScene = AiScene(flags: bv32, root: Option<AiNode>, meshes: seq<AiMesh>, materials: seq<AiMaterial>)

  /** The flag the importer sets when it could not build a complete scene. */
  const SceneFlagsIncomplete: bv32 := 0x1

  /** The paths a material lists for one type; a type it does not list has none. */
  function TexturePaths(m: AiMaterial, t: AiTextureType): (paths: seq<string>)
    ensures t !in m.textures ==> paths == []
  {
    if t in m.textures then m.textures[t] else []
  }

  /** The streams of a mesh are parallel. */
  predicate MeshValid(m: AiMesh) {
    && |m.normals| == |m.vertices|
    && (m.texCoords.Some? ==> |m.texCoords.value| == |m.vertices|)
  }

  /** Every mesh index in the tree names a mesh of the scene. */
  predicate NodeValid(n: AiNode, meshCount: nat)
    decreases n
  {
    && (forall i <- n.meshes :: i < meshCount)
    && (forall c <- n.children :: NodeValid(c, meshCount))
  }

  /** What the importer guarantees of a scene it returns: indices in range, parallel streams. */
  predicate SceneValid(s: AiScene) {
    && (forall m <- s.meshes :: MeshValid(m) && m.materialIndex < |s.materials|)
    && (s.root.Some? ==> NodeValid(s.root.value, |s.meshes|))
  }

  /** A scene the model can be built from: present, complete, and with a root node. */
  predicate Usable(s: Option<AiScene>) {
    s.Some? && s.value.flags & SceneFlagsIncomplete == 0 && s.value.root.Some?
  }
}
