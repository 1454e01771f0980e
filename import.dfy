/**
 * What loading a model produces, as values: the meshes in traversal order
 * with their vertices, indices and texture references, and the list of
 * textures the model owns. `Models.Model` is proved against these functions.
 */
module Import {
  import opened Wrappers
  import opened Glm
  import opened GlApi
  import opened Paths
  import opened Textures
  import opened Meshes
  import opened Scene

  /** Options for loading a model; texture coordinates are flipped vertically unless told otherwise. */
  datatype ModelBuilder = ModelBuilder(flipY: bool)

  const DefaultModelBuilder := ModelBuilder(true)

  // ---------------------------------------------------------------- vertices

  /** Vertex `i` of a mesh: position and normal copied, texture coordinate from channel 0
      with V negated when flipping, or (0, 0) when the mesh has no channel 0. */
  function ConvertVertex(m: AiMesh, i: nat, flipY: bool): Vertex
    requires MeshValid(m) && i < |m.vertices|
  {
    var uv := match m.texCoords
      case None => Vec2(0.0, 0.0)
      case Some(tc) => Vec2(tc[i].x, (if flipY then -1.0 else 1.0) * tc[i].y);
    Vertex(m.vertices[i], m.normals[i], uv)
  }

  function Vertices(m: AiMesh, flipY: bool): seq<Vertex>
    requires MeshValid(m)
  {
    seq(|m.vertices|, i requires 0 <= i < |m.vertices| => ConvertVertex(m, i, flipY))
  }

  /** The flip only negates V: positions, normals and U are the same either way. */
  lemma FlipNegatesV(m: AiMesh)
    requires MeshValid(m)
    ensures var a := Vertices(m, true);
      var b := Vertices(m, false);
      && |a| == |b| == |m.vertices|
      && forall i :: 0 <= i < |a| ==>
        && a[i].position == b[i].position == m.vertices[i]
        && a[i].normal == b[i].normal == m.normals[i]
        && a[i].texCoord.x == b[i].texCoord.x
        && a[i].texCoord.y == -b[i].texCoord.y
        && (m.texCoords.None? ==> a[i].texCoord == Vec2(0.0, 0.0))
        && (m.texCoords.Some? ==> b[i].texCoord == Vec2(m.texCoords.value[i].x, m.texCoords.value[i].y))
  {
  }

  // ----------------------------------------------------------------- indices

  /** All faces' indices, face after face. */
  function Flatten(faces: seq<seq<U32>>): seq<U32>
    decreases |faces|
  {
    if faces == [] then [] else Flatten(faces[..|faces| - 1]) + faces[|faces| - 1]
  }

  lemma {:induction false} FlattenAppend(a: seq<seq<U32>>, b: seq<seq<U32>>)
    ensures Flatten(a + b) == Flatten(a) + Flatten(b)
    decreases |b|
  {
    if b == [] {
      assert a + b == a;
    } else {
      var n := |b| - 1;
      assert (a + b)[..|a + b| - 1] == a + b[..n];
      FlattenAppend(a, b[..n]);
    }
  }

  /** An index is in the flattened list exactly when it is in one of the faces. */
  lemma {:induction false} FlattenMembers(faces: seq<seq<U32>>, x: U32)
    ensures x in Flatten(faces) <==> exists f <- faces :: x in f
    decreases |faces|
  {
    if faces != [] {
      var n := |faces| - 1;
      FlattenMembers(faces[..n], x);
      assert forall f <- faces :: f in faces[..n] || f == faces[n];
    }
  }

  /** After triangulation every face has three indices: face `j`'s indices sit at 3j, 3j+1, 3j+2. */
  lemma {:induction false} FlattenTriangles(faces: seq<seq<U32>>)
    requires forall j :: 0 <= j < |faces| ==> |faces[j]| == 3
    ensures |Flatten(faces)| == 3 * |faces|
    ensures forall j :: 0 <= j < |faces| ==> Flatten(faces)[3 * j..3 * j + 3] == faces[j]
    decreases |faces|
  {
    if faces != [] {
      var n := |faces| - 1;
      var front := Flatten(faces[..n]);
      FlattenTriangles(faces[..n]);
      assert Flatten(faces) == front + faces[n];
      forall j | 0 <= j < |faces| ensures Flatten(faces)[3 * j..3 * j + 3] == faces[j] {
        if j < n {
          assert Flatten(faces)[3 * j..3 * j + 3] == front[3 * j..3 * j + 3];
          assert faces[..n][j] == faces[j];
        } else {
          assert Flatten(faces)[3 * j..3 * j + 3] == faces[n];
        }
      }
    }
  }

  // ---------------------------------------------------------------- textures

  /** A texture as the model sees it: the path it was loaded from and its kind. */
  datatype TexData = TexData(path: string, kind: TextureType)

  /** The kind a texture loaded for an importer texture type gets; other types keep the builder default. */
  function KindOf(t: AiTextureType): TextureType {
    match t
    case AiDiffuse => Diffuse
    case AiSpecular => Specular
    case AiOther => DefaultBuilder.kind
  }

  /** The file a material path refers to: relative to the model's directory. */
  function TextureFile(dir: string, p: string): string {
    dir + "/" + p
  }

  predicate NoDuplicates<T(==)>(s: seq<T>) {
    forall i, j :: 0 <= i < j < |s| ==> s[i] != s[j]
  }

  /**
   * Loading a material's textures of one kind, with the texture list `loaded`
   * the model already owns: each path yields a reference to the texture for
   * its file and kind, reusing an owned one and loading (and owning) it
   * otherwise; the first file that cannot be loaded fails the whole call.
   * Result: the references, and the new owned list.
   */
  function Acquire(images: map<string, Image>, dir: string, paths: seq<string>, kind: TextureType, loaded: seq<TexData>)
    : Result<(seq<TexData>, seq<TexData>), LoadError>
    decreases |paths|
  {
    if paths == [] then Success(([], loaded))
    else
      match Acquire(images, dir, paths[..|paths| - 1], kind, loaded)
      case Failure(e) => Failure(e)
      case Success(acc) =>
        var t := TexData(TextureFile(dir, paths[|paths| - 1]), kind);
        if t in acc.1 then Success((acc.0 + [t], acc.1))
        else
          match Decode(images, t.path)
          case Failure(e) => Failure(e)
          case Success(_) => Success((acc.0 + [t], acc.1 + [t]))
  }

  /** The references a material's paths of one kind stand for. */
  function Refs(dir: string, paths: seq<string>, kind: TextureType): (r: seq<TexData>)
    ensures |r| == |paths|
  {
    seq(|paths|, i requires 0 <= i < |paths| => TexData(TextureFile(dir, paths[i]), kind))
  }

  /** Acquiring succeeds exactly when every path's file is owned already or decodes;
      a failure is the decode error of one of the paths. */
  lemma {:induction false} AcquireSucceeds(images: map<string, Image>, dir: string, paths: seq<string>, kind: TextureType, loaded: seq<TexData>)
    ensures var r := Acquire(images, dir, paths, kind, loaded);
      && (r.Success? <==> forall i :: 0 <= i < |paths| ==>
            TexData(TextureFile(dir, paths[i]), kind) in loaded || Decode(images, TextureFile(dir, paths[i])).Success?)
      && (r.Failure? ==> exists i :: 0 <= i < |paths| && Decode(images, TextureFile(dir, paths[i])) == Failure(r.error))
    decreases |paths|
  {
    if paths != [] {
      var n := |paths| - 1;
      AcquireSucceeds(images, dir, paths[..n], kind, loaded);
      AcquireOwns(images, dir, paths[..n], kind, loaded);
      assert forall i :: 0 <= i < n ==> paths[..n][i] == paths[i];
    }
  }

  /** On success every path yields a reference to its own file with the requested kind, in order;
      the owned list only grows, by textures of that kind that decode and were not owned yet,
      stays free of duplicates, and holds every texture referenced. */
  lemma {:induction false} AcquireOwns(images: map<string, Image>, dir: string, paths: seq<string>, kind: TextureType, loaded: seq<TexData>)
    ensures var r := Acquire(images, dir, paths, kind, loaded);
      r.Success? ==>
        var (got, owned) := r.value;
        && got == Refs(dir, paths, kind)
        && |owned| >= |loaded| && owned[..|loaded|] == loaded
        && (forall t <- owned[|loaded|..] :: t.kind == kind && t !in loaded && Decode(images, t.path).Success?)
        && (NoDuplicates(loaded) ==> NoDuplicates(owned))
        && (forall t <- got :: t in owned)
    decreases |paths|
  {
    if paths != [] {
      var n := |paths| - 1;
      AcquireOwns(images, dir, paths[..n], kind, loaded);
      var r := Acquire(images, dir, paths, kind, loaded);
      if r.Success? {
        var acc := Acquire(images, dir, paths[..n], kind, loaded).value;
        var t := TexData(TextureFile(dir, paths[n]), kind);
        assert Refs(dir, paths, kind) == Refs(dir, paths[..n], kind) + [t];
        if t !in acc.1 {
          assert (acc.1 + [t])[..|loaded|] == loaded;
          assert (acc.1 + [t])[|loaded|..] == acc.1[|loaded|..] + [t];
        }
      }
    }
  }

  // ------------------------------------------------------------------ meshes

  datatype MeshData = MeshData(vertices: seq<Vertex>, indices: seq<U32>, textures: seq<TexData>)

  /** The meshes built so far, in order, and the textures the model owns. */
  datatype Imported = Imported(meshes: seq<MeshData>, textures: seq<TexData>)

  /** One mesh: its vertices and indices, then its diffuse textures followed by its specular ones.
      Also the owned texture list after loading them. */
  function ImportMesh(scene: AiScene, images: map<string, Image>, dir: string, flipY: bool, m: AiMesh, loaded: seq<TexData>)
    : Result<(MeshData, seq<TexData>), LoadError>
    requires MeshValid(m) && m.materialIndex < |scene.materials|
  {
    var mat := scene.materials[m.materialIndex];
    match Acquire(images, dir, TexturePaths(mat, AiDiffuse), KindOf(AiDiffuse), loaded)
    case Failure(e) => Failure(e)
    case Success(d) =>
      match Acquire(images, dir, TexturePaths(mat, AiSpecular), KindOf(AiSpecular), d.1)
      case Failure(e) => Failure(e)
      case Success(s) => Success((MeshData(Vertices(m, flipY), Flatten(m.faces), d.0 + s.0), s.1))
  }

  /** Every reference names a mesh of the scene. */
  predicate RefsValid(scene: AiScene, refs: seq<nat>) {
    forall i :: 0 <= i < |refs| ==> refs[i] < |scene.meshes|
  }

  /** Meshes named by `refs`, built one after the other onto `st`. */
  function ImportMeshes(scene: AiScene, images: map<string, Image>, dir: string, flipY: bool, refs: seq<nat>, st: Imported)
    : Result<Imported, LoadError>
    requires SceneValid(scene) && RefsValid(scene, refs)
    decreases |refs|
  {
    if refs == [] then Success(st)
    else
      var n := |refs| - 1;
      assert RefsValid(scene, refs[..n]);
      match ImportMeshes(scene, images, dir, flipY, refs[..n], st)
      case Failure(e) => Failure(e)
      case Success(acc) =>
        match ImportMesh(scene, images, dir, flipY, scene.meshes[refs[n]], acc.textures)
        case Failure(e) => Failure(e)
        case Success(built) => Success(Imported(acc.meshes + [built.0], built.1))
  }

  lemma {:induction false} ImportMeshesConcat(scene: AiScene, images: map<string, Image>, dir: string, flipY: bool,
                                              a: seq<nat>, b: seq<nat>, st: Imported)
    requires SceneValid(scene) && RefsValid(scene, a) && RefsValid(scene, b)
    ensures RefsValid(scene, a + b)
    ensures ImportMeshes(scene, images, dir, flipY, a + b, st)
      == match ImportMeshes(scene, images, dir, flipY, a, st)
         case Failure(e) => Failure(e)
         case Success(mid) => ImportMeshes(scene, images, dir, flipY, b, mid)
    decreases |b|
  {
    if b == [] {
      assert a + b == a;
    } else {
      var n := |b| - 1;
      assert RefsValid(scene, b[..n]);
      assert (a + b)[..|a + b| - 1] == a + b[..n];
      assert (a + b)[|a + b| - 1] == b[n];
      ImportMeshesConcat(scene, images, dir, flipY, a, b[..n], st);
    }
  }

  /** The references of a material: its diffuse textures, then its specular ones. */
  function MaterialRefs(dir: string, mat: AiMaterial): seq<TexData> {
    Refs(dir, TexturePaths(mat, AiDiffuse), Diffuse) + Refs(dir, TexturePaths(mat, AiSpecular), Specular)
  }

  /** A built mesh is the imported mesh: converted vertices, flattened faces, its material's textures. */
  predicate Built(scene: AiScene, dir: string, flipY: bool, md: MeshData, m: AiMesh)
    requires MeshValid(m) && m.materialIndex < |scene.materials|
  {
    && md.vertices == Vertices(m, flipY)
    && md.indices == Flatten(m.faces)
    && md.textures == MaterialRefs(dir, scene.materials[m.materialIndex])
  }

  /** The model's invariant over its textures: owned once each, every mesh's references owned. */
  predicate Owned(st: Imported) {
    && NoDuplicates(st.textures)
    && forall md <- st.meshes :: forall t <- md.textures :: t in st.textures
  }

  lemma ImportMeshBuilds(scene: AiScene, images: map<string, Image>, dir: string, flipY: bool, m: AiMesh, loaded: seq<TexData>)
    requires MeshValid(m) && m.materialIndex < |scene.materials|
    ensures var r := ImportMesh(scene, images, dir, flipY, m, loaded);
      r.Success? ==>
        && Built(scene, dir, flipY, r.value.0, m)
        && |r.value.1| >= |loaded| && r.value.1[..|loaded|] == loaded
        && (NoDuplicates(loaded) ==> NoDuplicates(r.value.1))
        && (forall t <- r.value.0.textures :: t in r.value.1)
  {
    var mat := scene.materials[m.materialIndex];
    AcquireOwns(images, dir, TexturePaths(mat, AiDiffuse), Diffuse, loaded);
    var d := Acquire(images, dir, TexturePaths(mat, AiDiffuse), Diffuse, loaded);
    if d.Success? {
      AcquireOwns(images, dir, TexturePaths(mat, AiSpecular), Specular, d.value.1);
      var s := Acquire(images, dir, TexturePaths(mat, AiSpecular), Specular, d.value.1);
      if s.Success? {
        var owned := s.value.1;
        assert owned[..|d.value.1|] == d.value.1;
        assert owned[..|loaded|] == d.value.1[..|loaded|];
        forall t <- d.value.0 ensures t in owned {
          var k :| 0 <= k < |d.value.1| && d.value.1[k] == t;
          assert owned[k] == t;
        }
      }
    }
  }

  /** A successful build of `refs` is a successful build of all but the last reference,
      followed by the last reference's mesh. */
  lemma ImportMeshesLast(scene: AiScene, images: map<string, Image>, dir: string, flipY: bool, refs: seq<nat>, st: Imported)
    requires SceneValid(scene) && RefsValid(scene, refs) && refs != []
    ensures RefsValid(scene, refs[..|refs| - 1])
    ensures var n := |refs| - 1;
      var r := ImportMeshes(scene, images, dir, flipY, refs, st);
      var acc := ImportMeshes(scene, images, dir, flipY, refs[..n], st);
      r.Success? ==>
        && acc.Success?
        && var built := ImportMesh(scene, images, dir, flipY, scene.meshes[refs[n]], acc.value.textures);
        && built.Success?
        && r.value == Imported(acc.value.meshes + [built.value.0], built.value.1)
  {
    assert RefsValid(scene, refs[..|refs| - 1]);
  }

  /** Building meshes in order: one mesh per reference, each the imported mesh it names,
      appended after the meshes already built. */
  lemma {:induction false} ImportMeshesBuilds(scene: AiScene, images: map<string, Image>, dir: string, flipY: bool,
                                              refs: seq<nat>, st: Imported)
    requires SceneValid(scene) && RefsValid(scene, refs)
    ensures var r := ImportMeshes(scene, images, dir, flipY, refs, st);
      r.Success? ==>
        && |r.value.meshes| == |st.meshes| + |refs|
        && r.value.meshes[..|st.meshes|] == st.meshes
        && (forall i :: 0 <= i < |refs| ==>
              Built(scene, dir, flipY, r.value.meshes[|st.meshes| + i], scene.meshes[refs[i]]))
    decreases |refs|
  {
    if refs != [] {
      var n := |refs| - 1;
      ImportMeshesLast(scene, images, dir, flipY, refs, st);
      ImportMeshesBuilds(scene, images, dir, flipY, refs[..n], st);
      var r := ImportMeshes(scene, images, dir, flipY, refs, st);
      if r.Success? {
        var acc := ImportMeshes(scene, images, dir, flipY, refs[..n], st).value;
        var m := scene.meshes[refs[n]];
        assert m in scene.meshes;
        ImportMeshBuilds(scene, images, dir, flipY, m, acc.textures);
        var k := |st.meshes|;
        forall i | 0 <= i < |refs|
          ensures Built(scene, dir, flipY, r.value.meshes[k + i], scene.meshes[refs[i]])
        {
          if i < n {
            assert refs[..n][i] == refs[i];
            assert r.value.meshes[k + i] == acc.meshes[k + i];
          }
        }
        assert r.value.meshes[..k] == acc.meshes[..k];
      }
    }
  }

  /** Building meshes only appends to the owned texture list and keeps the ownership invariant. */
  lemma {:induction false} ImportMeshesOwns(scene: AiScene, images: map<string, Image>, dir: string, flipY: bool,
                                            refs: seq<nat>, st: Imported)
    requires SceneValid(scene) && RefsValid(scene, refs)
    ensures var r := ImportMeshes(scene, images, dir, flipY, refs, st);
      r.Success? ==>
        && |r.value.textures| >= |st.textures| && r.value.textures[..|st.textures|] == st.textures
        && (Owned(st) ==> Owned(r.value))
    decreases |refs|
  {
    if refs != [] {
      var n := |refs| - 1;
      assert RefsValid(scene, refs[..n]);
      ImportMeshesOwns(scene, images, dir, flipY, refs[..n], st);
      var r := ImportMeshes(scene, images, dir, flipY, refs, st);
      if r.Success? {
        var acc := ImportMeshes(scene, images, dir, flipY, refs[..n], st).value;
        var m := scene.meshes[refs[n]];
        assert m in scene.meshes;
        ImportMeshBuilds(scene, images, dir, flipY, m, acc.textures);
        var built := ImportMesh(scene, images, dir, flipY, m, acc.textures).value;
        assert r.value == Imported(acc.meshes + [built.0], built.1);
        assert r.value.textures[..|acc.textures|] == acc.textures;
        assert r.value.textures[..|st.textures|] == acc.textures[..|st.textures|];
        if Owned(st) {
          forall md <- r.value.meshes, t <- md.textures ensures t in r.value.textures {
            if md in acc.meshes {
              var k :| 0 <= k < |acc.textures| && acc.textures[k] == t;
              assert r.value.textures[k] == t;
            }
          }
        }
      }
    }
  }

  // -------------------------------------------------------------------- tree

  /** Mesh references of a tree in depth-first pre-order: a node's own meshes, then each child's in order. */
  function MeshRefs(n: AiNode): seq<nat>
    decreases n, 1
  {
    n.meshes + ChildRefs(n, |n.children|)
  }

  /** The references of the first `k` children of `n`. */
  function ChildRefs(n: AiNode, k: nat): seq<nat>
    requires k <= |n.children|
    decreases n, 0, k
  {
    if k == 0 then [] else ChildRefs(n, k - 1) + MeshRefs(n.children[k - 1])
  }

  /** How many mesh references a tree holds, counted node by node. */
  function RefCount(n: AiNode): nat
    decreases n
  {
    |n.meshes| + Sum(seq(|n.children|, i requires 0 <= i < |n.children| => RefCount(n.children[i])))
  }

  function Sum(s: seq<nat>): nat {
    if s == [] then 0 else Sum(s[..|s| - 1]) + s[|s| - 1]
  }

  /** The pre-order list has one entry per mesh reference of the tree. */
  lemma {:induction false} MeshRefsCount(n: AiNode)
    ensures |MeshRefs(n)| == RefCount(n)
    decreases n, 1
  {
    ChildRefsCount(n, |n.children|);
    assert seq(|n.children|, i requires 0 <= i < |n.children| => RefCount(n.children[i]))[..|n.children|]
      == seq(|n.children|, i requires 0 <= i < |n.children| => RefCount(n.children[i]));
  }

  lemma {:induction false} ChildRefsCount(n: AiNode, k: nat)
    requires k <= |n.children|
    ensures |ChildRefs(n, k)| == Sum(seq(|n.children|, i requires 0 <= i < |n.children| => RefCount(n.children[i]))[..k])
    decreases n, 0, k
  {
    if k > 0 {
      ChildRefsCount(n, k - 1);
      MeshRefsCount(n.children[k - 1]);
      var counts := seq(|n.children|, i requires 0 <= i < |n.children| => RefCount(n.children[i]));
      assert counts[..k][..k - 1] == counts[..k - 1];
    }
  }

  /** Every reference in a valid tree names a mesh of the scene. */
  lemma {:induction false} MeshRefsValid(n: AiNode, meshCount: nat)
    requires NodeValid(n, meshCount)
    ensures forall i :: 0 <= i < |MeshRefs(n)| ==> MeshRefs(n)[i] < meshCount
    decreases n, 1
  {
    ChildRefsValid(n, |n.children|, meshCount);
    var own := n.meshes;
    var rest := ChildRefs(n, |n.children|);
    forall i | 0 <= i < |MeshRefs(n)| ensures MeshRefs(n)[i] < meshCount {
      if i < |own| {
        assert own[i] in n.meshes;
      } else {
        assert MeshRefs(n)[i] == rest[i - |own|];
      }
    }
  }

  lemma {:induction false} ChildRefsValid(n: AiNode, k: nat, meshCount: nat)
    requires k <= |n.children| && NodeValid(n, meshCount)
    ensures forall i :: 0 <= i < |ChildRefs(n, k)| ==> ChildRefs(n, k)[i] < meshCount
    decreases n, 0, k
  {
    if k > 0 {
      ChildRefsValid(n, k - 1, meshCount);
      assert n.children[k - 1] in n.children;
      MeshRefsValid(n.children[k - 1], meshCount);
      var front := ChildRefs(n, k - 1);
      var last := MeshRefs(n.children[k - 1]);
      forall i | 0 <= i < |ChildRefs(n, k)| ensures ChildRefs(n, k)[i] < meshCount {
        if i >= |front| {
          assert ChildRefs(n, k)[i] == last[i - |front|];
        }
      }
    }
  }

  /** Once building a prefix of the references fails, building all of them fails the same way. */
  lemma ImportMeshesPrefixFails(scene: AiScene, images: map<string, Image>, dir: string, flipY: bool,
                                refs: seq<nat>, k: nat, st: Imported)
    requires SceneValid(scene) && RefsValid(scene, refs) && k <= |refs|
    requires ImportMeshes(scene, images, dir, flipY, refs[..k], st).Failure?
    ensures ImportMeshes(scene, images, dir, flipY, refs, st) == ImportMeshes(scene, images, dir, flipY, refs[..k], st)
  {
    assert refs == refs[..k] + refs[k..];
    assert RefsValid(scene, refs[..k]) && RefsValid(scene, refs[k..]);
    ImportMeshesConcat(scene, images, dir, flipY, refs[..k], refs[k..], st);
  }

  /** Once acquiring a prefix of the paths fails, acquiring all of them fails the same way. */
  lemma {:induction false} AcquirePrefixFails(images: map<string, Image>, dir: string, paths: seq<string>, k: nat,
                                              kind: TextureType, loaded: seq<TexData>)
    requires k <= |paths| && Acquire(images, dir, paths[..k], kind, loaded).Failure?
    ensures Acquire(images, dir, paths, kind, loaded) == Acquire(images, dir, paths[..k], kind, loaded)
    decreases |paths|
  {
    if k == |paths| {
      assert paths[..k] == paths;
    } else {
      var n := |paths| - 1;
      assert paths[..n][..k] == paths[..k];
      AcquirePrefixFails(images, dir, paths[..n], k, kind, loaded);
      AcquireStep(images, dir, paths, n, kind, loaded);
      assert paths[..n + 1] == paths;
    }
  }

  /** Acquiring one more path. */
  lemma AcquireStep(images: map<string, Image>, dir: string, paths: seq<string>, i: nat, kind: TextureType, loaded: seq<TexData>)
    requires i < |paths|
    ensures Acquire(images, dir, paths[..i + 1], kind, loaded)
      == match Acquire(images, dir, paths[..i], kind, loaded)
         case Failure(e) => Failure(e)
         case Success(acc) =>
           var t := TexData(TextureFile(dir, paths[i]), kind);
           if t in acc.1 then Success((acc.0 + [t], acc.1))
           else
             match Decode(images, t.path)
             case Failure(e) => Failure(e)
             case Success(_) => Success((acc.0 + [t], acc.1 + [t]))
  {
    assert paths[..i + 1][..i] == paths[..i];
  }

  /** Loading one more path as written. */
  lemma AcquireAsWrittenStep(images: map<string, Image>, dir: string, paths: seq<string>, i: nat, kind: TextureType, loaded: seq<TexData>)
    requires i < |paths|
    ensures AcquireAsWritten(images, dir, paths[..i + 1], kind, loaded)
      == match AcquireAsWritten(images, dir, paths[..i], kind, loaded)
         case Failure(e) => Failure(e)
         case Success(acc) =>
           if HasFileName(acc.1, paths[i]) then Success(acc)
           else
             var t := TexData(TextureFile(dir, paths[i]), kind);
             match Decode(images, t.path)
             case Failure(e) => Failure(e)
             case Success(_) => Success((acc.0 + [t], acc.1 + [t]))
  {
    assert paths[..i + 1][..i] == paths[..i];
  }

  /** Acquiring one more path after a prefix that succeeded. */
  lemma AcquireNext(images: map<string, Image>, dir: string, paths: seq<string>, i: nat, kind: TextureType,
                    loaded: seq<TexData>, got: seq<TexData>, have: seq<TexData>)
    requires i < |paths|
    requires Acquire(images, dir, paths[..i], kind, loaded) == Success((got, have))
    ensures var t := TexData(TextureFile(dir, paths[i]), kind);
      Acquire(images, dir, paths[..i + 1], kind, loaded)
      == if t in have then Success((got + [t], have))
         else match Decode(images, t.path)
           case Failure(e) => Failure(e)
           case Success(_) => Success((got + [t], have + [t]))
  {
    AcquireStep(images, dir, paths, i, kind, loaded);
  }

  /** The same for loading as written. */
  lemma {:induction false} AcquireAsWrittenPrefixFails(images: map<string, Image>, dir: string, paths: seq<string>, k: nat,
                                                       kind: TextureType, loaded: seq<TexData>)
    requires k <= |paths| && AcquireAsWritten(images, dir, paths[..k], kind, loaded).Failure?
    ensures AcquireAsWritten(images, dir, paths, kind, loaded) == AcquireAsWritten(images, dir, paths[..k], kind, loaded)
    decreases |paths|
  {
    if k == |paths| {
      assert paths[..k] == paths;
    } else {
      var n := |paths| - 1;
      assert paths[..n][..k] == paths[..k];
      AcquireAsWrittenPrefixFails(images, dir, paths[..n], k, kind, loaded);
      AcquireAsWrittenStep(images, dir, paths, n, kind, loaded);
      assert paths[..n + 1] == paths;
    }
  }

  /** A valid node's own references are valid. */
  lemma ImportOwnValid(scene: AiScene, n: AiNode)
    requires NodeValid(n, |scene.meshes|)
    ensures RefsValid(scene, n.meshes)
  {
    assert forall i :: 0 <= i < |n.meshes| ==> n.meshes[i] in n.meshes;
  }

  /** One more of a node's own meshes built onto what its earlier ones produced. */
  lemma ImportOwnStep(scene: AiScene, images: map<string, Image>, dir: string, flipY: bool,
                      n: AiNode, i: nat, st: Imported, acc: Imported)
    requires SceneValid(scene) && NodeValid(n, |scene.meshes|) && i < |n.meshes|
    requires RefsValid(scene, n.meshes[..i])
    requires ImportMeshes(scene, images, dir, flipY, n.meshes[..i], st) == Success(acc)
    ensures n.meshes[i] < |scene.meshes|
    ensures RefsValid(scene, n.meshes[..i + 1])
    ensures ImportMeshes(scene, images, dir, flipY, n.meshes[..i + 1], st)
      == match ImportMesh(scene, images, dir, flipY, scene.meshes[n.meshes[i]], acc.textures)
         case Failure(e) => Failure(e)
         case Success(b) => Success(Imported(acc.meshes + [b.0], b.1))
  {
    assert n.meshes[i] in n.meshes;
    assert n.meshes[..i + 1][..i] == n.meshes[..i];
  }

  /** A subtree built onto `st`: the node's own meshes in order, then each child's subtree in order. */
  function ImportNode(scene: AiScene, images: map<string, Image>, dir: string, flipY: bool, n: AiNode, st: Imported)
    : Result<Imported, LoadError>
    requires SceneValid(scene) && NodeValid(n, |scene.meshes|)
    decreases n, 1
  {
    ImportOwnValid(scene, n);
    match ImportMeshes(scene, images, dir, flipY, n.meshes, st)
    case Failure(e) => Failure(e)
    case Success(acc) => ImportChildren(scene, images, dir, flipY, n, |n.children|, acc)
  }

  /** The subtrees of the first `k` children of `n`, built one after the other onto `st`. */
  function ImportChildren(scene: AiScene, images: map<string, Image>, dir: string, flipY: bool,
                          n: AiNode, k: nat, st: Imported): Result<Imported, LoadError>
    requires SceneValid(scene) && NodeValid(n, |scene.meshes|) && k <= |n.children|
    decreases n, 0, k
  {
    if k == 0 then Success(st)
    else
      assert n.children[k - 1] in n.children;
      match ImportChildren(scene, images, dir, flipY, n, k - 1, st)
      case Failure(e) => Failure(e)
      case Success(acc) => ImportNode(scene, images, dir, flipY, n.children[k - 1], acc)
  }

  /** Building a subtree is building its mesh references, in pre-order, one after the other. */
  lemma {:induction false} ImportNodeFlat(scene: AiScene, images: map<string, Image>, dir: string, flipY: bool,
                                          n: AiNode, st: Imported)
    requires SceneValid(scene) && NodeValid(n, |scene.meshes|)
    ensures RefsValid(scene, MeshRefs(n))
    ensures ImportNode(scene, images, dir, flipY, n, st) == ImportMeshes(scene, images, dir, flipY, MeshRefs(n), st)
    decreases n, 1
  {
    ImportOwnValid(scene, n);
    ImportChildrenRefs(scene, images, dir, flipY, n, |n.children|, n.meshes, st);
  }

  /** Building the references of the first `k` children after `pre` is building `pre`, then those subtrees. */
  lemma {:induction false} ImportChildrenRefs(scene: AiScene, images: map<string, Image>, dir: string, flipY: bool,
                                              n: AiNode, k: nat, pre: seq<nat>, st: Imported)
    requires SceneValid(scene) && NodeValid(n, |scene.meshes|) && k <= |n.children| && RefsValid(scene, pre)
    ensures RefsValid(scene, pre + ChildRefs(n, k))
    ensures ImportMeshes(scene, images, dir, flipY, pre + ChildRefs(n, k), st)
      == match ImportMeshes(scene, images, dir, flipY, pre, st)
         case Failure(e) => Failure(e)
         case Success(acc) => ImportChildren(scene, images, dir, flipY, n, k, acc)
    decreases n, 0, k
  {
    if k == 0 {
      assert pre + ChildRefs(n, 0) == pre;
    } else {
      var c := n.children[k - 1];
      assert c in n.children;
      ImportChildrenRefs(scene, images, dir, flipY, n, k - 1, pre, st);
      var front := pre + ChildRefs(n, k - 1);
      assert pre + ChildRefs(n, k) == front + MeshRefs(c);
      MeshRefsValid(c, |scene.meshes|);
      ImportMeshesConcat(scene, images, dir, flipY, front, MeshRefs(c), st);
      match ImportMeshes(scene, images, dir, flipY, front, st)
      case Failure(_) =>
      case Success(mid) =>
        ImportNodeFlat(scene, images, dir, flipY, c, mid);
    }
  }

  /** Once a child's subtree fails, building all the children fails the same way. */
  lemma {:induction false} ImportChildrenFails(scene: AiScene, images: map<string, Image>, dir: string, flipY: bool,
                                               n: AiNode, k: nat, k': nat, st: Imported)
    requires SceneValid(scene) && NodeValid(n, |scene.meshes|) && k <= k' <= |n.children|
    requires ImportChildren(scene, images, dir, flipY, n, k, st).Failure?
    ensures ImportChildren(scene, images, dir, flipY, n, k', st) == ImportChildren(scene, images, dir, flipY, n, k, st)
    decreases k'
  {
    if k < k' {
      ImportChildrenFails(scene, images, dir, flipY, n, k, k' - 1, st);
    }
  }

  // ------------------------------------------------------------------- model

  datatype ImportError = SceneUnusable(path: string) | TextureUnavailable(cause: LoadError)

  /** Loading a model file: the scene must be usable; meshes are built in pre-order of the tree,
      with texture paths taken relative to the directory of `path`. */
  function ImportScene(scene: Option<AiScene>, images: map<string, Image>, path: string, flipY: bool)
    : Result<Imported, ImportError>
    requires scene.Some? ==> SceneValid(scene.value)
  {
    if !Usable(scene) then Failure(SceneUnusable(path))
    else
      var s := scene.value;
      match ImportNode(s, images, Directory(path), flipY, s.root.value, Imported([], []))
      case Failure(e) => Failure(TextureUnavailable(e))
      case Success(r) => Success(r)
  }

  /** Building a tree from nothing gives one mesh per mesh reference of the tree, in pre-order,
      each built from the mesh it names, and owns each texture once, every referenced one included. */
  lemma ImportNodeBuilds(scene: AiScene, images: map<string, Image>, dir: string, flipY: bool, n: AiNode)
    requires SceneValid(scene) && NodeValid(n, |scene.meshes|)
    ensures var r := ImportNode(scene, images, dir, flipY, n, Imported([], []));
      var refs := MeshRefs(n);
      r.Success? ==>
        && |r.value.meshes| == |refs| == RefCount(n)
        && (forall i :: 0 <= i < |refs| ==>
              refs[i] < |scene.meshes| && Built(scene, dir, flipY, r.value.meshes[i], scene.meshes[refs[i]]))
        && Owned(r.value)
  {
    ImportNodeFlat(scene, images, dir, flipY, n, Imported([], []));
    MeshRefsCount(n);
    ImportMeshesBuilds(scene, images, dir, flipY, MeshRefs(n), Imported([], []));
    ImportMeshesOwns(scene, images, dir, flipY, MeshRefs(n), Imported([], []));
  }

  /** A loaded model holds one mesh per mesh reference of the tree, in pre-order, each built from
      the mesh it names; it owns each texture once and owns every texture a mesh refers to.
      An unusable scene yields no model. */
  lemma ImportSceneBuilds(scene: Option<AiScene>, images: map<string, Image>, path: string, flipY: bool)
    requires scene.Some? ==> SceneValid(scene.value)
    ensures !Usable(scene) ==> ImportScene(scene, images, path, flipY) == Failure(SceneUnusable(path))
    ensures ImportScene(scene, images, path, flipY).Success? ==>
      var s := scene.value;
      var refs := MeshRefs(s.root.value);
      var r := ImportScene(scene, images, path, flipY).value;
      && |r.meshes| == |refs| == RefCount(s.root.value)
      && (forall i :: 0 <= i < |refs| ==>
            refs[i] < |s.meshes| && Built(s, Directory(path), flipY, r.meshes[i], s.meshes[refs[i]]))
      && Owned(r)
  {
    if Usable(scene) {
      ImportNodeBuilds(scene.value, images, Directory(path), flipY, scene.value.root.value);
    }
  }

  // -------------------------------------------------- texture dedup as written

  /** The test `load_material_textures` makes: does an owned texture have file name `p`? */
  predicate HasFileName(loaded: seq<TexData>, p: string) {
    exists t <- loaded :: FileName(t.path) == p
  }

  /**
   * Texture loading as `load_material_textures` does it: a path equal to the
   * file name of an owned texture is skipped and yields no reference; any other
   * path is loaded from its file and owned.
   */
  function AcquireAsWritten(images: map<string, Image>, dir: string, paths: seq<string>, kind: TextureType, loaded: seq<TexData>)
    : Result<(seq<TexData>, seq<TexData>), LoadError>
    decreases |paths|
  {
    if paths == [] then Success(([], loaded))
    else
      match AcquireAsWritten(images, dir, paths[..|paths| - 1], kind, loaded)
      case Failure(e) => Failure(e)
      case Success(acc) =>
        var p := paths[|paths| - 1];
        if HasFileName(acc.1, p) then Success(acc)
        else
          var t := TexData(TextureFile(dir, p), kind);
          match Decode(images, t.path)
          case Failure(e) => Failure(e)
          case Success(_) => Success((acc.0 + [t], acc.1 + [t]))
  }

  /** A single path, as written: skipped when an owned texture has it as file name, loaded otherwise. */
  lemma AcquireAsWrittenSingle(images: map<string, Image>, dir: string, p: string, kind: TextureType, loaded: seq<TexData>)
    ensures AcquireAsWritten(images, dir, [p], kind, loaded)
      == if HasFileName(loaded, p) then Success(([], loaded))
         else match Decode(images, TextureFile(dir, p))
           case Failure(e) => Failure(e)
           case Success(_) => Success(([TexData(TextureFile(dir, p), kind)], loaded + [TexData(TextureFile(dir, p), kind)]))
  {
    var ps := [p];
    assert ps[..|ps| - 1] == [] && ps[|ps| - 1] == p;
    assert AcquireAsWritten(images, dir, [], kind, loaded) == Success(([], loaded));
    var t := TexData(TextureFile(dir, p), kind);
    var empty: seq<TexData> := [];
    assert empty + [t] == [t];
    assert AcquireAsWritten(images, dir, ps, kind, loaded)
      == if HasFileName(loaded, p) then Success((empty, loaded))
         else match Decode(images, t.path)
           case Failure(e) => Failure(e)
           case Success(_) => Success((empty + [t], loaded + [t]));
  }

  /** A single path, with the file as the key: an owned texture is reused, any other is loaded. */
  lemma AcquireSingle(images: map<string, Image>, dir: string, p: string, kind: TextureType, loaded: seq<TexData>)
    ensures var t := TexData(TextureFile(dir, p), kind);
      Acquire(images, dir, [p], kind, loaded)
      == if t in loaded then Success(([t], loaded))
         else match Decode(images, t.path)
           case Failure(e) => Failure(e)
           case Success(_) => Success(([t], loaded + [t]))
  {
    var ps := [p];
    assert ps[..|ps| - 1] == [] && ps[|ps| - 1] == p;
    assert Acquire(images, dir, [], kind, loaded) == Success(([], loaded));
    var t := TexData(TextureFile(dir, p), kind);
    var empty: seq<TexData> := [];
    assert empty + [t] == [t];
    assert Acquire(images, dir, ps, kind, loaded) == if t in loaded then Success((empty + [t], loaded))
         else match Decode(images, t.path)
           case Failure(e) => Failure(e)
           case Success(_) => Success((empty + [t], loaded + [t]));
  }

  lemma SubdirFileName(dir: string, sub: string, name: string)
    requires '/' !in name
    ensures FileName(TextureFile(dir, sub + "/" + name)) == name != sub + "/" + name
  {
    assert TextureFile(dir, sub + "/" + name) == (dir + "/" + sub) + "/" + name;
    FileNameOfJoin(dir + "/" + sub, name);
    assert |name| < |sub + "/" + name|;
  }

  /** A mesh using a texture the model already owns (material path `name`, file `dir/name`) gets
      no reference to it as written, and so draws without it; with the reference kept it gets
      the owned texture. */
  lemma SharedTextureDropped(images: map<string, Image>, dir: string, name: string)
    requires '/' !in name
    ensures var owned := [TexData(TextureFile(dir, name), Diffuse)];
      && AcquireAsWritten(images, dir, [name], Diffuse, owned) == Success(([], owned))
      && Acquire(images, dir, [name], Diffuse, owned) == Success((owned, owned))
  {
    var owned := [TexData(TextureFile(dir, name), Diffuse)];
    FileNameOfJoin(dir, name);
    assert FileName(owned[0].path) == name;
    AcquireAsWrittenSingle(images, dir, name, Diffuse, owned);
    AcquireSingle(images, dir, name, Diffuse, owned);
  }

  /** The corrected loading keys a texture on its file and its kind: a file owned as a diffuse map is
      reused for another diffuse reference, and loaded once more for a specular one, so each
      texture carries the kind whose sampler `Mesh::draw` binds it to. */
  lemma LoadedOncePerKind(images: map<string, Image>, dir: string, p: string)
    requires Decode(images, TextureFile(dir, p)).Success?
    ensures var d := TexData(TextureFile(dir, p), Diffuse);
      var sp := TexData(TextureFile(dir, p), Specular);
      && Acquire(images, dir, [p], Diffuse, [d]) == Success(([d], [d]))
      && Acquire(images, dir, [p], Specular, [d]) == Success(([sp], [d, sp]))
      && NoDuplicates([d, sp])
  {
    var d := TexData(TextureFile(dir, p), Diffuse);
    AcquireSingle(images, dir, p, Diffuse, [d]);
    var sp := TexData(TextureFile(dir, p), Specular);
    assert sp !in [d] && [d] + [sp] == [d, sp];
    AcquireSingle(images, dir, p, Specular, [d]);
  }

  /** As written a material path naming a file in a sub-directory (`sub/name`) never matches the
      texture loaded for it, whose file name is `name`: the file is loaded and owned a second time.
      With the file as the key the owned texture is reused. */
  lemma SubdirTextureReloaded(images: map<string, Image>, dir: string, sub: string, name: string)
    requires '/' !in name
    requires Decode(images, TextureFile(dir, sub + "/" + name)).Success?
    ensures var owned := [TexData(TextureFile(dir, sub + "/" + name), Diffuse)];
      && AcquireAsWritten(images, dir, [sub + "/" + name], Diffuse, owned) == Success((owned, owned + owned))
      && Acquire(images, dir, [sub + "/" + name], Diffuse, owned) == Success((owned, owned))
      && !NoDuplicates(owned + owned)
  {
    var p := sub + "/" + name;
    var owned := [TexData(TextureFile(dir, p), Diffuse)];
    SubdirFileName(dir, sub, name);
    assert FileName(owned[0].path) != p;
    assert forall u <- owned :: u == owned[0];
    AcquireAsWrittenSingle(images, dir, p, Diffuse, owned);
    AcquireSingle(images, dir, p, Diffuse, owned);
    assert (owned + owned)[0] == (owned + owned)[1];
  }

  /** As written a material path `name` matches any owned texture whose file name is `name`, here
      `dir/sub/name`: the different file `dir/name` is never loaded nor referenced. With the file
      as the key it is loaded and referenced. */
  lemma OtherFileNeverLoaded(images: map<string, Image>, dir: string, sub: string, name: string)
    requires '/' !in name
    requires Decode(images, TextureFile(dir, name)).Success?
    ensures var owned := [TexData(TextureFile(dir, sub + "/" + name), Diffuse)];
      var other := TexData(TextureFile(dir, name), Diffuse);
      && AcquireAsWritten(images, dir, [name], Diffuse, owned) == Success(([], owned))
      && Acquire(images, dir, [name], Diffuse, owned) == Success(([other], owned + [other]))
  {
    var owned := [TexData(TextureFile(dir, sub + "/" + name), Diffuse)];
    SubdirFileName(dir, sub, name);
    assert |TextureFile(dir, name)| < |owned[0].path|;
    AcquireAsWrittenSingle(images, dir, name, Diffuse, owned);
    AcquireSingle(images, dir, name, Diffuse, owned);
  }
}
