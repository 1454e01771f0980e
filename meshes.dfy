// A mesh: vertex and index arrays uploaded once into a vertex array object,
// and the draw call that binds its textures to consecutive texture units.

module Meshes {
  import opened Wrappers
  import opened Glm
  import opened GlApi
  import opened Textures
  import opened Shaders

  /** One vertex as the shaders read it: position, normal, texture coordinate. */
  datatype Vertex = Vertex(position: Vec3, normal: Vec3, texCoord: Vec2)

  /** Byte layout of `Vertex`: eight packed 4-byte floats. */
  const FloatBytes: nat := 4
  const VertexBytes: nat := 8 * FloatBytes
  const NormalOffset: nat := 3 * FloatBytes
  const TexCoordOffset: nat := 6 * FloatBytes
  const IndexBytes: nat := 4

  /** `static_cast<unsigned int>(count * size)`: the byte count of a buffer upload. */
  function ByteSize(count: nat, size: nat): (r: nat)
    ensures r < 0x1_0000_0000
    ensures count * size < 0x1_0000_0000 ==> r == count * size
    ensures (count * size - r) % 0x1_0000_0000 == 0
  {
    (count * size) % 0x1_0000_0000
  }

  /** `static_cast<GLsizei>(n)`: the element count passed to the draw call, a signed 32-bit value. */
  function AsGLsizei(n: nat): (r: int)
    ensures -0x8000_0000 <= r < 0x8000_0000
    ensures n < 0x8000_0000 ==> r == n
    ensures (n - r) % 0x1_0000_0000 == 0
  {
    var w := n % 0x1_0000_0000;
    if w < 0x8000_0000 then w else w - 0x1_0000_0000
  }

  /** Bind a buffer to a target and fill it with `size` bytes. */
  function UploadTrace(target: BufferTarget, buffer: nat, size: nat): seq<Cmd> {
    [BindBuffer(target, buffer), BufferData(target, size)]
  }

  /** Enable attribute `index` and describe where it lies in the bound array buffer. */
  function AttribTrace(index: nat, components: nat, offset: nat): seq<Cmd> {
    [EnableVertexAttribArray(index), VertexAttribPointer(index, components, VertexBytes, offset)]
  }

  /** The commands `Mesh::setup` issues for freshly generated names. */
  function SetupTrace(vao: nat, vbo: nat, ebo: nat, vertexCount: nat, indexCount: nat): seq<Cmd> {
    [Create(VertexArrayObject, vao), Create(BufferObject, vbo), Create(BufferObject, ebo), BindVertexArray(vao)]
    + UploadTrace(ArrayBuffer, vbo, ByteSize(vertexCount, VertexBytes))
    + UploadTrace(ElementArrayBuffer, ebo, ByteSize(indexCount, IndexBytes))
    + AttribTrace(0, 3, 0) + AttribTrace(1, 3, NormalOffset) + AttribTrace(2, 2, TexCoordOffset)
    + [BindVertexArray(0)]
  }

  /** The vertex array object bound in `s`, with attribute `index` replaced. */
  function WithAttrib(s: GlState, index: nat, a: Attrib): GlState {
    var v := VaoOf(s);
    s.(vaos := s.vaos[s.boundVao := v.(attribs := v.attribs[index := a])])
  }

  lemma AttribEffect(s: GlState, index: nat, components: nat, offset: nat)
    ensures Replay(s, AttribTrace(index, components, offset))
      == WithAttrib(s, index, Attrib(true, components, VertexBytes, offset, s.arrayBuffer))
  {
    ReplayPair(s, EnableVertexAttribArray(index), VertexAttribPointer(index, components, VertexBytes, offset));
    EnableThenPoint(s, index, components, offset);
  }

  /** The pointer call overwrites the attribute the enable call switched on, keeping it enabled. */
  lemma EnableThenPoint(s: GlState, index: nat, components: nat, offset: nat)
    ensures Apply(Apply(s, EnableVertexAttribArray(index)), VertexAttribPointer(index, components, VertexBytes, offset))
      == WithAttrib(s, index, Attrib(true, components, VertexBytes, offset, s.arrayBuffer))
  {
    var v := VaoOf(s);
    var a := Attrib(true, components, VertexBytes, offset, s.arrayBuffer);
    var v1 := v.(attribs := v.attribs[index := AttribOf(v, index).(enabled := true)]);
    var s1 := Apply(s, EnableVertexAttribArray(index));
    assert s1 == s.(vaos := s.vaos[s.boundVao := v1]);
    assert VaoOf(s1) == v1 && AttribOf(v1, index).enabled;
    assert v1.attribs[index := a] == v.attribs[index := a];
    assert s1.vaos[s.boundVao := v.(attribs := v.attribs[index := a])] == s.vaos[s.boundVao := v.(attribs := v.attribs[index := a])];
  }

  lemma ArrayUploadEffect(s: GlState, buffer: nat, size: nat)
    ensures Replay(s, UploadTrace(ArrayBuffer, buffer, size))
      == s.(arrayBuffer := buffer, bufferSizes := s.bufferSizes[buffer := size])
  {
    ReplayPair(s, BindBuffer(ArrayBuffer, buffer), BufferData(ArrayBuffer, size));
  }

  lemma ElementUploadEffect(s: GlState, buffer: nat, size: nat)
    ensures Replay(s, UploadTrace(ElementArrayBuffer, buffer, size))
      == s.(vaos := s.vaos[s.boundVao := VaoOf(s).(elementBuffer := buffer)], bufferSizes := s.bufferSizes[buffer := size])
  {
    ReplayPair(s, BindBuffer(ElementArrayBuffer, buffer), BufferData(ElementArrayBuffer, size));
  }

  lemma CreatesEffect(s: GlState, vao: nat, vbo: nat, ebo: nat)
    ensures Replay(s, [Create(VertexArrayObject, vao), Create(BufferObject, vbo), Create(BufferObject, ebo), BindVertexArray(vao)])
      == s.(boundVao := vao)
  {
    var t := [Create(VertexArrayObject, vao), Create(BufferObject, vbo), Create(BufferObject, ebo), BindVertexArray(vao)];
    assert t == [t[0], t[1]] + [t[2], t[3]];
    ReplayConcat(s, [t[0], t[1]], [t[2], t[3]]);
    ReplayPair(s, t[0], t[1]);
    ReplayPair(s, t[2], t[3]);
  }

  /** The first half of setup: bind the fresh vertex array object and fill both buffers. */
  function BuffersTrace(vao: nat, vbo: nat, ebo: nat, vertexCount: nat, indexCount: nat): seq<Cmd> {
    [Create(VertexArrayObject, vao), Create(BufferObject, vbo), Create(BufferObject, ebo), BindVertexArray(vao)]
    + UploadTrace(ArrayBuffer, vbo, ByteSize(vertexCount, VertexBytes))
    + UploadTrace(ElementArrayBuffer, ebo, ByteSize(indexCount, IndexBytes))
  }

  /** The second half of setup: describe the three attributes, unbind. */
  function LayoutTrace(): seq<Cmd> {
    AttribTrace(0, 3, 0) + AttribTrace(1, 3, NormalOffset) + AttribTrace(2, 2, TexCoordOffset) + [BindVertexArray(0)]
  }

  lemma BuffersEffect(s: GlState, vao: nat, vbo: nat, ebo: nat, vertexCount: nat, indexCount: nat)
    ensures Replay(s, BuffersTrace(vao, vbo, ebo, vertexCount, indexCount))
      == s.(boundVao := vao, arrayBuffer := vbo,
            vaos := s.vaos[vao := VaoOf(s.(boundVao := vao)).(elementBuffer := ebo)],
            bufferSizes := s.bufferSizes[vbo := ByteSize(vertexCount, VertexBytes)][ebo := ByteSize(indexCount, IndexBytes)])
  {
    var t0 := [Create(VertexArrayObject, vao), Create(BufferObject, vbo), Create(BufferObject, ebo), BindVertexArray(vao)];
    var t1 := UploadTrace(ArrayBuffer, vbo, ByteSize(vertexCount, VertexBytes));
    var t2 := UploadTrace(ElementArrayBuffer, ebo, ByteSize(indexCount, IndexBytes));
    CreatesEffect(s, vao, vbo, ebo);
    var s1 := s.(boundVao := vao);
    ArrayUploadEffect(s1, vbo, ByteSize(vertexCount, VertexBytes));
    ElementUploadEffect(Replay(s1, t1), ebo, ByteSize(indexCount, IndexBytes));
    ReplayConcat(s, t0, t1);
    ReplayConcat(s, t0 + t1, t2);
  }

  lemma LayoutEffect(s: GlState)
    ensures var r := Replay(s, LayoutTrace());
      var v := VaoOf(s);
      r == s.(boundVao := 0, vaos := s.vaos[s.boundVao := v.(attribs := v.attribs
        [0 := Attrib(true, 3, VertexBytes, 0, s.arrayBuffer)]
        [1 := Attrib(true, 3, VertexBytes, NormalOffset, s.arrayBuffer)]
        [2 := Attrib(true, 2, VertexBytes, TexCoordOffset, s.arrayBuffer)])])
  {
    var a0 := Attrib(true, 3, VertexBytes, 0, s.arrayBuffer);
    var a1 := Attrib(true, 3, VertexBytes, NormalOffset, s.arrayBuffer);
    var a2 := Attrib(true, 2, VertexBytes, TexCoordOffset, s.arrayBuffer);
    var t3, t4, t5 := AttribTrace(0, 3, 0), AttribTrace(1, 3, NormalOffset), AttribTrace(2, 2, TexCoordOffset);
    AttribEffect(s, 0, 3, 0);
    var s4 := Replay(s, t3);
    AttribEffect(s4, 1, 3, NormalOffset);
    var s5 := Replay(s4, t4);
    AttribEffect(s5, 2, 2, TexCoordOffset);
    var s6 := Replay(s5, t5);
    ThreeAttribs(s, s4, s5, s6, a0, a1, a2);
    UnbindEffect(s6);
    ReplayFour(s, t3, t4, t5, [BindVertexArray(0)]);
  }

  /** Setting attributes 0, 1 and 2 of the bound vertex array object in turn. */
  lemma ThreeAttribs(s: GlState, s4: GlState, s5: GlState, s6: GlState, a0: Attrib, a1: Attrib, a2: Attrib)
    requires a0.buffer == a1.buffer == a2.buffer == s.arrayBuffer
    requires s4 == WithAttrib(s, 0, a0) && s5 == WithAttrib(s4, 1, a1) && s6 == WithAttrib(s5, 2, a2)
    ensures var v := VaoOf(s);
      s6 == s.(vaos := s.vaos[s.boundVao := v.(attribs := v.attribs[0 := a0][1 := a1][2 := a2])])
  {
  }

  /** Unbinding the vertex array object changes nothing else. */
  lemma UnbindEffect(s: GlState)
    ensures Replay(s, [BindVertexArray(0)]) == s.(boundVao := 0)
  {
    ReplaySingle(s, BindVertexArray(0));
  }

  /** Replaying four consecutive pieces one after the other. */
  lemma ReplayFour(s: GlState, a: seq<Cmd>, b: seq<Cmd>, c: seq<Cmd>, d: seq<Cmd>)
    ensures Replay(s, a + b + c + d) == Replay(Replay(Replay(Replay(s, a), b), c), d)
  {
    ReplayConcat(s, a, b);
    ReplayConcat(s, a + b, c);
    ReplayConcat(s, a + b + c, d);
  }

  /** The vertex array object a mesh describes: the interleaved layout of `Vertex` over
      the vertex buffer, and the index buffer as its element buffer. */
  function MeshVao(vbo: nat, ebo: nat): VaoState {
    VaoState(ebo, map[0 := Attrib(true, 3, VertexBytes, 0, vbo),
                      1 := Attrib(true, 3, VertexBytes, NormalOffset, vbo),
                      2 := Attrib(true, 2, VertexBytes, TexCoordOffset, vbo)])
  }

  /** Setup of a fresh vertex array object leaves it describing the mesh layout, both
      buffers sized in bytes, no vertex array object bound and the vertex buffer bound
      to the array target; nothing else changes. */
  lemma SetupLayout(s: GlState, vao: Name, vbo: Name, ebo: Name, vertexCount: nat, indexCount: nat)
    requires vao !in s.vaos
    ensures Replay(s, SetupTrace(vao, vbo, ebo, vertexCount, indexCount))
      == s.(boundVao := 0, arrayBuffer := vbo, vaos := s.vaos[vao := MeshVao(vbo, ebo)],
            bufferSizes := s.bufferSizes[vbo := ByteSize(vertexCount, VertexBytes)][ebo := ByteSize(indexCount, IndexBytes)])
  {
    var b := BuffersTrace(vao, vbo, ebo, vertexCount, indexCount);
    assert SetupTrace(vao, vbo, ebo, vertexCount, indexCount) == b + LayoutTrace();
    ReplayConcat(s, b, LayoutTrace());
    BuffersEffect(s, vao, vbo, ebo, vertexCount, indexCount);
    LayoutEffect(Replay(s, b));
    var v := VaoState(ebo, map[]);
    assert v.attribs[0 := Attrib(true, 3, VertexBytes, 0, vbo)][1 := Attrib(true, 3, VertexBytes, NormalOffset, vbo)]
      [2 := Attrib(true, 2, VertexBytes, TexCoordOffset, vbo)] == MeshVao(vbo, ebo).attribs;
  }

  /** Bind the vertex array, draw all indices as triangles, unbind it. */
  function GeometryTrace(vao: nat, indexCount: nat): seq<Cmd> {
    [BindVertexArray(vao), DrawElements(AsGLsizei(indexCount)), BindVertexArray(0)]
  }

  /** Drawing the geometry records exactly one draw call of this vertex array object under
      the current program and stencil state, and leaves no vertex array object bound. */
  lemma GeometryDraws(s: GlState, vao: nat, indexCount: nat)
    ensures Replay(s, GeometryTrace(vao, indexCount))
      == s.(boundVao := 0, draws := s.draws + [DrawCall(s.program, vao, AsGLsizei(indexCount), s.stencil)])
  {
    DrawBetweenBinds(s, vao, AsGLsizei(indexCount));
  }

  /** An indexed draw between binding a vertex array object and unbinding it. */
  lemma DrawBetweenBinds(s: GlState, vao: nat, count: int)
    ensures Replay(s, [BindVertexArray(vao), DrawElements(count), BindVertexArray(0)])
      == s.(boundVao := 0, draws := s.draws + [DrawCall(s.program, vao, count, s.stencil)])
  {
    ReplayTriple(s, BindVertexArray(vao), DrawElements(count), BindVertexArray(0));
  }

  const DiffuseSampler: string := "material.diffuse"
  const SpecularSampler: string := "material.specular"

  /** The sampler uniform a texture of this kind is assigned to; emission textures have none. */
  function SamplerLocation(kind: TextureType, diffuseLoc: int, specularLoc: int): int {
    match kind
    case Diffuse => diffuseLoc
    case Specular => specularLoc
    case Emission => -1
  }

  /** Commands for the texture on unit `unit`: select the unit, bind the texture, point its sampler at the unit. */
  function SlotTrace(unit: nat, t: Texture2D, diffuseLoc: int, specularLoc: int): seq<Cmd> {
    [ActiveTexture(unit), BindTexture(t.id)] + UniformCmds(SamplerLocation(t.kind, diffuseLoc, specularLoc), Int1(unit))
  }

  /** The texture loop of `Mesh::draw`, texture `i` on unit `i`. */
  function UnitsTrace(ts: seq<Texture2D>, diffuseLoc: int, specularLoc: int): seq<Cmd>
    decreases |ts|
  {
    if ts == [] then []
    else UnitsTrace(ts[..|ts| - 1], diffuseLoc, specularLoc) + SlotTrace(|ts| - 1, ts[|ts| - 1], diffuseLoc, specularLoc)
  }

  /** One more pass of the texture loop of `Mesh::draw` extends `UnitsTrace` by the texture's slot. */
  lemma UnitsStep(ts: seq<Texture2D>, i: nat, diffuseLoc: int, specularLoc: int,
                  t0: seq<Cmd>, before: seq<Cmd>, bound: seq<Cmd>, after: seq<Cmd>)
    requires i < |ts|
    requires before == t0 + UnitsTrace(ts[..i], diffuseLoc, specularLoc)
    requires bound == before + [ActiveTexture(i), BindTexture(ts[i].id)]
    requires after == bound + UniformCmds(SamplerLocation(ts[i].kind, diffuseLoc, specularLoc), Int1(i))
    ensures after == t0 + UnitsTrace(ts[..i + 1], diffuseLoc, specularLoc)
  {
    assert ts[..i + 1][..i] == ts[..i];
  }

  /** Everything `Mesh::draw` issues. */
  function MeshDrawTrace(ts: seq<Texture2D>, diffuseLoc: int, specularLoc: int, vao: nat, indexCount: nat): seq<Cmd> {
    UnitsTrace(ts, diffuseLoc, specularLoc) + GeometryTrace(vao, indexCount) + [ActiveTexture(0)]
  }

  /** The unit of the last texture of a kind, or -1. */
  function LastOfKind(ts: seq<Texture2D>, kind: TextureType): (r: int)
    ensures -1 <= r < |ts|
    ensures r >= 0 ==> ts[r].kind == kind && forall j :: r < j < |ts| ==> ts[j].kind != kind
    ensures r == -1 ==> forall j :: 0 <= j < |ts| ==> ts[j].kind != kind
    decreases |ts|
  {
    if ts == [] then -1
    else if ts[|ts| - 1].kind == kind then |ts| - 1
    else LastOfKind(ts[..|ts| - 1], kind)
  }

  /** What the sampler of a kind holds after the texture loop: the unit of the last texture
      of that kind, or its earlier value when the mesh has no texture of that kind. */
  predicate SamplerSet(s: GlState, r: GlState, ts: seq<Texture2D>, kind: TextureType, loc: int) {
    loc >= 0 ==>
      UniformAt(r, s.program, loc) ==
        (if LastOfKind(ts, kind) >= 0 then Some(Int1(LastOfKind(ts, kind))) else UniformAt(s, s.program, loc))
  }

  lemma SlotEffect(s: GlState, unit: nat, t: Texture2D, diffuseLoc: int, specularLoc: int)
    ensures var loc := SamplerLocation(t.kind, diffuseLoc, specularLoc);
      var s1 := s.(activeUnit := unit, unitTextures := s.unitTextures[unit := t.id]);
      Replay(s, SlotTrace(unit, t, diffuseLoc, specularLoc))
        == if loc < 0 then s1 else s1.(uniforms := s.uniforms[(s.program, loc) := Int1(unit)])
  {
    var tr := SlotTrace(unit, t, diffuseLoc, specularLoc);
    ReplayStep(s, tr, 0); var s1 := Apply(s, tr[0]);
    ReplayStep(s1, tr, 1); var s2 := Apply(s1, tr[1]);
    if |tr| == 3 {
      ReplayStep(s2, tr, 2);
      assert tr[3..] == [];
    } else {
      assert tr[2..] == [];
    }
  }

  lemma UnitsSnoc(s: GlState, ts: seq<Texture2D>, diffuseLoc: int, specularLoc: int)
    requires ts != []
    ensures var n := |ts| - 1;
      Replay(s, UnitsTrace(ts, diffuseLoc, specularLoc))
        == Replay(Replay(s, UnitsTrace(ts[..n], diffuseLoc, specularLoc)), SlotTrace(n, ts[n], diffuseLoc, specularLoc))
  {
    var n := |ts| - 1;
    ReplayConcat(s, UnitsTrace(ts[..n], diffuseLoc, specularLoc), SlotTrace(n, ts[n], diffuseLoc, specularLoc));
  }

  /** The texture loop changes only the active unit, the unit bindings and uniforms,
      and leaves the last unit it used active. */
  lemma {:induction false} UnitsFrame(s: GlState, ts: seq<Texture2D>, diffuseLoc: int, specularLoc: int)
    ensures var r := Replay(s, UnitsTrace(ts, diffuseLoc, specularLoc));
      && r == s.(activeUnit := r.activeUnit, unitTextures := r.unitTextures, uniforms := r.uniforms)
      && r.activeUnit == (if ts == [] then s.activeUnit else |ts| - 1)
    decreases |ts|
  {
    if ts != [] {
      var n := |ts| - 1;
      UnitsFrame(s, ts[..n], diffuseLoc, specularLoc);
      UnitsSnoc(s, ts, diffuseLoc, specularLoc);
      SlotEffect(Replay(s, UnitsTrace(ts[..n], diffuseLoc, specularLoc)), n, ts[n], diffuseLoc, specularLoc);
    }
  }

  /** After the texture loop unit `i` holds texture `i`; units past the mesh's textures keep their binding. */
  lemma {:induction false} UnitsTextures(s: GlState, ts: seq<Texture2D>, diffuseLoc: int, specularLoc: int)
    ensures var r := Replay(s, UnitsTrace(ts, diffuseLoc, specularLoc));
      forall u: nat :: TextureOn(r, u) == if u < |ts| then Some(ts[u].id) else TextureOn(s, u)
    decreases |ts|
  {
    if ts != [] {
      var n := |ts| - 1;
      UnitsTextures(s, ts[..n], diffuseLoc, specularLoc);
      UnitsSnoc(s, ts, diffuseLoc, specularLoc);
      SlotEffect(Replay(s, UnitsTrace(ts[..n], diffuseLoc, specularLoc)), n, ts[n], diffuseLoc, specularLoc);
    }
  }

  /** The texture loop writes no uniform but the two material samplers of the current program. */
  lemma {:induction false} UnitsOtherUniforms(s: GlState, ts: seq<Texture2D>, diffuseLoc: int, specularLoc: int)
    ensures var r := Replay(s, UnitsTrace(ts, diffuseLoc, specularLoc));
      forall p: nat, loc: nat :: (p != s.program || (loc != diffuseLoc && loc != specularLoc)) ==>
        UniformAt(r, p, loc) == UniformAt(s, p, loc)
    decreases |ts|
  {
    if ts != [] {
      var n := |ts| - 1;
      UnitsOtherUniforms(s, ts[..n], diffuseLoc, specularLoc);
      UnitsFrame(s, ts[..n], diffuseLoc, specularLoc);
      UnitsSnoc(s, ts, diffuseLoc, specularLoc);
      SlotEffect(Replay(s, UnitsTrace(ts[..n], diffuseLoc, specularLoc)), n, ts[n], diffuseLoc, specularLoc);
    }
  }

  /** After the texture loop each material sampler holds the unit of the last texture of
      its kind, or keeps its value when the mesh has no texture of that kind. */
  lemma {:induction false} UnitsSamplers(s: GlState, ts: seq<Texture2D>, diffuseLoc: int, specularLoc: int)
    requires diffuseLoc < 0 || specularLoc < 0 || diffuseLoc != specularLoc
    ensures var r := Replay(s, UnitsTrace(ts, diffuseLoc, specularLoc));
      SamplerSet(s, r, ts, Diffuse, diffuseLoc) && SamplerSet(s, r, ts, Specular, specularLoc)
    decreases |ts|
  {
    if ts != [] {
      var n := |ts| - 1;
      var front := ts[..n];
      UnitsSamplers(s, front, diffuseLoc, specularLoc);
      UnitsFrame(s, front, diffuseLoc, specularLoc);
      UnitsSnoc(s, ts, diffuseLoc, specularLoc);
      SlotEffect(Replay(s, UnitsTrace(front, diffuseLoc, specularLoc)), n, ts[n], diffuseLoc, specularLoc);
      assert LastOfKind(ts, Diffuse) == if ts[n].kind == Diffuse then n else LastOfKind(front, Diffuse);
      assert LastOfKind(ts, Specular) == if ts[n].kind == Specular then n else LastOfKind(front, Specular);
    }
  }

  /** A mesh draw binds units, textures, samplers and its vertex array object, and touches no stencil setting. */
  lemma {:induction false} MeshDrawNoStencil(ts: seq<Texture2D>, diffuseLoc: int, specularLoc: int, vao: nat, indexCount: nat)
    ensures forall c <- MeshDrawTrace(ts, diffuseLoc, specularLoc, vao, indexCount) :: !IsStencil(c)
    decreases |ts|
  {
    if ts != [] {
      var n := |ts| - 1;
      MeshDrawNoStencil(ts[..n], diffuseLoc, specularLoc, vao, indexCount);
      assert UnitsTrace(ts[..n], diffuseLoc, specularLoc) <= MeshDrawTrace(ts[..n], diffuseLoc, specularLoc, vao, indexCount);
    }
  }

  /** One mesh draw: the texture loop's effect, then exactly one draw call of the mesh's
      vertex array object under the current program and stencil state, ending with unit 0
      active and no vertex array object bound. */
  lemma MeshDraws(s: GlState, ts: seq<Texture2D>, diffuseLoc: int, specularLoc: int, vao: nat, indexCount: nat)
    ensures var units := Replay(s, UnitsTrace(ts, diffuseLoc, specularLoc));
      var r := Replay(s, MeshDrawTrace(ts, diffuseLoc, specularLoc, vao, indexCount));
      && r == units.(activeUnit := 0, boundVao := 0, draws := r.draws)
      && r.draws == s.draws + [DrawCall(s.program, vao, AsGLsizei(indexCount), s.stencil)]
      && r.program == s.program && r.stencil == s.stencil
      && (forall u: nat :: u < |ts| ==> TextureOn(r, u) == Some(ts[u].id))
  {
    var a := UnitsTrace(ts, diffuseLoc, specularLoc);
    var g := GeometryTrace(vao, indexCount);
    UnitsFrame(s, ts, diffuseLoc, specularLoc);
    UnitsTextures(s, ts, diffuseLoc, specularLoc);
    var units := Replay(s, a);
    ReplayConcat(s, a + g, [ActiveTexture(0)]);
    ReplayConcat(s, a, g);
    GeometryDraws(units, vao, indexCount);
    ReplayStep(Replay(units, g), [ActiveTexture(0)], 0);
    assert [ActiveTexture(0)][1..] == [];
  }

  class Mesh {
    const vertices: seq<Vertex>
    const indices: seq<U32>
    const textures: seq<Texture2D>
    const vao: Name
    const vbo: Name
    const ebo: Name

    /** Stores the arrays and uploads them (`Mesh::Mesh` then `Mesh::setup`). */
    constructor(gl: Context, vertices: seq<Vertex>, indices: seq<U32>, textures: seq<Texture2D>)
      modifies gl
      ensures this.vertices == vertices && this.indices == indices && this.textures == textures
      ensures vao == old(gl.nextName) && vbo == vao + 1 && ebo == vao + 2 && gl.nextName == vao + 3
      ensures gl.trace == old(gl.trace) + SetupTrace(vao, vbo, ebo, |vertices|, |indices|)
    {
      this.vertices := vertices;
      this.indices := indices;
      this.textures := textures;
      var a, b, e := Setup(gl, |vertices|, |indices|);
      vao, vbo, ebo := a, b, e;
    }

    /** Generates the three names and describes the vertex layout to GL. */
    static method Setup(gl: Context, vertexCount: nat, indexCount: nat) returns (vao: Name, vbo: Name, ebo: Name)
      modifies gl
      ensures vao == old(gl.nextName) && vbo == vao + 1 && ebo == vao + 2 && gl.nextName == vao + 3
      ensures gl.trace == old(gl.trace) + SetupTrace(vao, vbo, ebo, vertexCount, indexCount)
    {
      vao := gl.Generate(VertexArrayObject);
      vbo := gl.Generate(BufferObject);
      ebo := gl.Generate(BufferObject);
      gl.Emit([ BindVertexArray(vao),
        BindBuffer(ArrayBuffer, vbo), BufferData(ArrayBuffer, ByteSize(vertexCount, VertexBytes)),
        BindBuffer(ElementArrayBuffer, ebo), BufferData(ElementArrayBuffer, ByteSize(indexCount, IndexBytes)),
        EnableVertexAttribArray(0), VertexAttribPointer(0, 3, VertexBytes, 0),
        EnableVertexAttribArray(1), VertexAttribPointer(1, 3, VertexBytes, NormalOffset),
        EnableVertexAttribArray(2), VertexAttribPointer(2, 2, VertexBytes, TexCoordOffset),
        BindVertexArray(0) ]);
    }

    /** What `draw` issues with `program` as the shader. */
    function DrawCmds(gl: Context, program: nat): seq<Cmd> {
      MeshDrawTrace(textures, gl.UniformLocation(program, DiffuseSampler), gl.UniformLocation(program, SpecularSampler),
                    vao, |indices|)
    }

    /** Binds texture `i` on unit `i`, sets the material samplers, draws the indexed triangles. */
    method Draw(gl: Context, shader: Shader)
      modifies gl
      ensures gl.trace == old(gl.trace) + DrawCmds(gl, shader.id)
      ensures gl.nextName == old(gl.nextName)
    {
      var d := gl.UniformLocation(shader.id, DiffuseSampler);
      var sp := gl.UniformLocation(shader.id, SpecularSampler);
      var i := 0;
      while i < |textures|
        invariant 0 <= i <= |textures|
        invariant gl.trace == old(gl.trace) + UnitsTrace(textures[..i], d, sp)
        invariant gl.nextName == old(gl.nextName)
      {
        ghost var before := gl.trace;
        gl.Emit([ActiveTexture(i)]);
        textures[i].Bind(gl);
        ghost var bound := gl.trace;
        if textures[i].kind == Diffuse {
          shader.SetUniform(gl, DiffuseSampler, HInt(i));
        } else if textures[i].kind == Specular {
          shader.SetUniform(gl, SpecularSampler, HInt(i));
        }
        UnitsStep(textures, i, d, sp, old(gl.trace), before, bound, gl.trace);
        i := i + 1;
      }
      assert textures[..i] == textures;
      gl.Emit(GeometryTrace(vao, |indices|) + [ActiveTexture(0)]);
    }

    /** Draws the geometry with whatever program and textures are current. */
    method DrawWithoutTexture(gl: Context)
      modifies gl
      ensures gl.trace == old(gl.trace) + GeometryTrace(vao, |indices|)
      ensures gl.nextName == old(gl.nextName)
    {
      gl.Emit(GeometryTrace(vao, |indices|));
    }
  }
}
