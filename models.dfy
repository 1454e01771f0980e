/**
 * Model: a model file loaded into meshes that refer to the textures the
 * model owns, drawn with the caller's shader and, when enabled, outlined
 * through the stencil buffer with the model's own outline program.
 */
module Models {
  import opened Wrappers
  import opened Glm
  import opened GlApi
  import opened Paths
  import opened Textures
  import opened Shaders
  import opened Meshes
  import opened Scene
  import opened Import

  datatype Outline = Outline(color: Vec3, scale: Vec3)

  datatype RenderOptions = RenderOptions(outlineEnabled: bool, outline: Outline)

  /** Outlining off; a white outline at unit scale once it is switched on. */
  const DefaultRenderOptions := RenderOptions(false, Outline(Splat3(1.0), Splat3(1.0)))

  datatype Transform = Transform(view: Mat4, projection: Mat4, model: Mat4)

  datatype ModelError = ImportFailed(importError: ImportError) | OutlineFailed(shaderError: ShaderError)

  const OutlineVertexPath: string := "../src/shaders/model_vertex.glsl"
  const OutlineFragmentPath: string := "../src/shaders/outline_models.frag.glsl"

  /** A stage of the outline program builds from its file: the file opens, reads and compiles. */
  predicate StageBuilds(gl: Context, fs: FileSystem, stage: ShaderStage, path: string) {
    path in fs && fs[path].Readable? && gl.compiles(stage, fs[path].text)
  }

  // ------------------------------------------------------------------ views

  /** A texture object as the import functions see it. */
  function TexView(t: Texture2D): TexData {
    TexData(t.path, t.kind)
  }

  function TexViews(ts: seq<Texture2D>): (r: seq<TexData>)
    ensures |r| == |ts|
  {
    seq(|ts|, i requires 0 <= i < |ts| => TexView(ts[i]))
  }

  lemma TexViewsSnoc(ts: seq<Texture2D>, t: Texture2D)
    ensures TexViews(ts + [t]) == TexViews(ts) + [TexView(t)]
  {
    assert forall i :: 0 <= i < |ts| ==> (ts + [t])[i] == ts[i];
  }

  /** A mesh object as the import functions see it. */
  function MeshView(m: Mesh): MeshData {
    MeshData(m.vertices, m.indices, TexViews(m.textures))
  }

  function MeshViews(ms: seq<Mesh>): (r: seq<MeshData>)
    ensures |r| == |ms|
  {
    seq(|ms|, i requires 0 <= i < |ms| => MeshView(ms[i]))
  }

  lemma MeshViewsSnoc(ms: seq<Mesh>, m: Mesh)
    ensures MeshViews(ms + [m]) == MeshViews(ms) + [MeshView(m)]
  {
    assert forall i :: 0 <= i < |ms| ==> (ms + [m])[i] == ms[i];
  }

  // ------------------------------------------------------------ draw traces

  const MarkStencil: seq<Cmd> := [StencilFunc(Always, 1, 0xFF), StencilMask(0xFF), StencilOp(Keep, Keep, Replace)]
  const TestStencil: seq<Cmd> := [StencilFunc(NotEqual, 1, 0xFF), StencilMask(0x00)]
  const RestoreStencil: seq<Cmd> := [StencilMask(0xFF), StencilFunc(Always, 1, 0xFF)]

  /** The stencil state the main pass draws under when outlining: every fragment drawn writes 1. */
  function Marking(st: StencilState): StencilState {
    st.(test := Always, ref := 1, valueMask := 0xFF, writeMask := 0xFF, sfail := Keep, dpfail := Keep, dppass := Replace)
  }

  /** The stencil state the outline pass draws under: only where no 1 was written, writing nothing. */
  function Testing(st: StencilState): StencilState {
    st.(test := NotEqual, ref := 1, valueMask := 0xFF, writeMask := 0x00)
  }

  function TransformBindings(view: Mat4, projection: Mat4, model: Mat4): seq<Binding> {
    [Binding("view", HMat4(view)), Binding("projection", HMat4(projection)), Binding("model", HMat4(model))]
  }

  /** The outline program's uniforms: the transform with the model matrix scaled, and the colour. */
  function OutlineBindings(t: Transform, o: Outline): seq<Binding> {
    TransformBindings(t.view, t.projection, Scale(t.model, o.scale)) + [Binding("outline_color", HVec3(o.color))]
  }

  /** Each mesh drawn in turn with `program`'s samplers. */
  function MeshesTrace(gl: Context, program: nat, ms: seq<Mesh>): seq<Cmd>
    decreases |ms|
  {
    if ms == [] then [] else MeshesTrace(gl, program, ms[..|ms| - 1]) + ms[|ms| - 1].DrawCmds(gl, program)
  }

  /** Each mesh's geometry drawn in turn. */
  function GeometriesTrace(ms: seq<Mesh>): seq<Cmd>
    decreases |ms|
  {
    if ms == [] then [] else GeometriesTrace(ms[..|ms| - 1]) + GeometryTrace(ms[|ms| - 1].vao, |ms[|ms| - 1].indices|)
  }

  function MainPassTrace(gl: Context, program: nat, ms: seq<Mesh>, t: Transform): seq<Cmd> {
    BindingsTrace(gl, program, TransformBindings(t.view, t.projection, t.model)) + MeshesTrace(gl, program, ms)
  }

  function OutlinePassTrace(gl: Context, outline: nat, ms: seq<Mesh>, t: Transform, o: Outline): seq<Cmd> {
    TestStencil + [UseProgram(outline)] + BindingsTrace(gl, outline, OutlineBindings(t, o)) + (GeometriesTrace(ms) + RestoreStencil)
  }

  /** Everything `Model::draw` issues. */
  function DrawTrace(gl: Context, program: nat, outline: nat, ms: seq<Mesh>, opts: RenderOptions, t: Transform): seq<Cmd> {
    if opts.outlineEnabled then
      MarkStencil + MainPassTrace(gl, program, ms, t) + OutlinePassTrace(gl, outline, ms, t, opts.outline) + [UseProgram(program)]
    else
      MainPassTrace(gl, program, ms, t) + [UseProgram(program)]
  }

  /** One draw call per mesh, in order, under one program and stencil state. */
  function DrawsOf(program: nat, stencil: StencilState, ms: seq<Mesh>): (r: seq<DrawCall>)
    ensures |r| == |ms|
  {
    seq(|ms|, i requires 0 <= i < |ms| => DrawCall(program, ms[i].vao, AsGLsizei(|ms[i].indices|), stencil))
  }

  lemma DrawsOfSnoc(program: nat, stencil: StencilState, ms: seq<Mesh>)
    requires ms != []
    ensures var n := |ms| - 1;
      DrawsOf(program, stencil, ms)
      == DrawsOf(program, stencil, ms[..n]) + [DrawCall(program, ms[n].vao, AsGLsizei(|ms[n].indices|), stencil)]
  {
    var n := |ms| - 1;
    assert forall i :: 0 <= i < n ==> ms[..n][i] == ms[i];
  }

  /** Drawing the meshes records one draw call per mesh, in order, and keeps program and stencil state. */
  lemma {:induction false} MeshesDrawn(s: GlState, gl: Context, program: nat, ms: seq<Mesh>)
    ensures var r := Replay(s, MeshesTrace(gl, program, ms));
      && r.draws == s.draws + DrawsOf(s.program, s.stencil, ms)
      && r.program == s.program && r.stencil == s.stencil
    decreases |ms|
  {
    if ms != [] {
      var n := |ms| - 1;
      var front := MeshesTrace(gl, program, ms[..n]);
      MeshesDrawn(s, gl, program, ms[..n]);
      ReplayConcat(s, front, ms[n].DrawCmds(gl, program));
      var mid := Replay(s, front);
      MeshDraws(mid, ms[n].textures, gl.UniformLocation(program, DiffuseSampler), gl.UniformLocation(program, SpecularSampler),
                ms[n].vao, |ms[n].indices|);
      DrawsOfSnoc(s.program, s.stencil, ms);
    }
  }

  /** Drawing the geometries records one draw call per mesh, in order, and changes nothing else
      but the bound vertex array object. */
  lemma {:induction false} GeometriesDrawn(s: GlState, ms: seq<Mesh>)
    ensures var r := Replay(s, GeometriesTrace(ms));
      r == s.(boundVao := r.boundVao, draws := s.draws + DrawsOf(s.program, s.stencil, ms))
    decreases |ms|
  {
    if ms != [] {
      var n := |ms| - 1;
      var front := GeometriesTrace(ms[..n]);
      GeometriesDrawn(s, ms[..n]);
      ReplayConcat(s, front, GeometryTrace(ms[n].vao, |ms[n].indices|));
      GeometryDraws(Replay(s, front), ms[n].vao, |ms[n].indices|);
      DrawsOfSnoc(s.program, s.stencil, ms);
    }
  }

  /** Setting the stencil function, write mask and operations, in that order. */
  lemma StencilSetup(s: GlState, test: StencilTest, ref: nat, mask: nat, writeMask: nat,
                     sfail: StencilAction, dpfail: StencilAction, dppass: StencilAction)
    ensures Replay(s, [StencilFunc(test, ref, mask), StencilMask(writeMask), StencilOp(sfail, dpfail, dppass)])
      == s.(stencil := StencilState(test, ref, mask, writeMask, sfail, dpfail, dppass))
  {
    var s1 := Apply(s, StencilFunc(test, ref, mask));
    var s2 := Apply(s1, StencilMask(writeMask));
    StencilCmdEffect(s, StencilFunc(test, ref, mask));
    StencilCmdEffect(s1, StencilMask(writeMask));
    StencilCmdEffect(s2, StencilOp(sfail, dpfail, dppass));
    ReplayTriple(s, StencilFunc(test, ref, mask), StencilMask(writeMask), StencilOp(sfail, dpfail, dppass));
  }

  /** A stencil command changes the stencil state and nothing else. */
  lemma StencilCmdEffect(s: GlState, c: Cmd)
    requires IsStencil(c)
    ensures Apply(s, c) == s.(stencil := Apply(s, c).stencil)
    ensures c.StencilFunc? ==> Apply(s, c).stencil == s.stencil.(test := c.test, ref := c.ref, valueMask := c.mask)
    ensures c.StencilMask? ==> Apply(s, c).stencil == s.stencil.(writeMask := c.mask)
    ensures c.StencilOp? ==> Apply(s, c).stencil == s.stencil.(sfail := c.sfail, dpfail := c.dpfail, dppass := c.dppass)
  {
  }

  lemma MarkEffect(s: GlState)
    ensures Replay(s, MarkStencil) == s.(stencil := Marking(s.stencil))
  {
    StencilSetup(s, Always, 1, 0xFF, 0xFF, Keep, Keep, Replace);
  }

  lemma TestEffect(s: GlState, outline: nat)
    ensures Replay(s, TestStencil + [UseProgram(outline)]) == s.(stencil := Testing(s.stencil), program := outline)
  {
    var a, b := StencilFunc(NotEqual, 1, 0xFF), StencilMask(0x00);
    assert TestStencil + [UseProgram(outline)] == [a, b, UseProgram(outline)];
    StencilCmdEffect(s, a);
    StencilCmdEffect(Apply(s, a), b);
    ReplayTriple(s, a, b, UseProgram(outline));
  }

  lemma RestoreEffect(s: GlState, program: nat)
    ensures Replay(s, RestoreStencil + [UseProgram(program)])
      == s.(stencil := s.stencil.(writeMask := 0xFF, test := Always, ref := 1, valueMask := 0xFF), program := program)
  {
    var a, b := StencilMask(0xFF), StencilFunc(Always, 1, 0xFF);
    assert RestoreStencil + [UseProgram(program)] == [a, b, UseProgram(program)];
    StencilCmdEffect(s, a);
    StencilCmdEffect(Apply(s, a), b);
    ReplayTriple(s, a, b, UseProgram(program));
  }

  /** The main pass records the meshes' draw calls under the current program and stencil state. */
  lemma MainPassDraws(s: GlState, gl: Context, program: nat, ms: seq<Mesh>, t: Transform)
    ensures var r := Replay(s, MainPassTrace(gl, program, ms, t));
      && r.draws == s.draws + DrawsOf(s.program, s.stencil, ms)
      && r.program == s.program && r.stencil == s.stencil
  {
    var b := BindingsTrace(gl, program, TransformBindings(t.view, t.projection, t.model));
    ReplayConcat(s, b, MeshesTrace(gl, program, ms));
    BindingsFrame(gl, s, program, TransformBindings(t.view, t.projection, t.model));
    MeshesDrawn(Replay(s, b), gl, program, ms);
  }

  /** Without outlining, drawing records one draw call per mesh under the program current at the call
      and the unchanged stencil state, and leaves `program` current. */
  lemma DrawPlain(s: GlState, gl: Context, program: nat, outline: nat, ms: seq<Mesh>, opts: RenderOptions, t: Transform)
    requires !opts.outlineEnabled
    ensures var r := Replay(s, DrawTrace(gl, program, outline, ms, opts, t));
      && r.draws == s.draws + DrawsOf(s.program, s.stencil, ms)
      && r.stencil == s.stencil
      && r.program == program
  {
    var main := MainPassTrace(gl, program, ms, t);
    ReplayConcat(s, main, [UseProgram(program)]);
    MainPassDraws(s, gl, program, ms, t);
    ReplaySingle(Replay(s, main), UseProgram(program));
  }

  /** Drawing every mesh in turn issues no stencil command. */
  lemma {:induction false} MeshesNoStencil(gl: Context, program: nat, ms: seq<Mesh>)
    ensures forall c <- MeshesTrace(gl, program, ms) :: !IsStencil(c)
    decreases |ms|
  {
    if ms != [] {
      var m := ms[|ms| - 1];
      MeshesNoStencil(gl, program, ms[..|ms| - 1]);
      MeshDrawNoStencil(m.textures, gl.UniformLocation(program, DiffuseSampler), gl.UniformLocation(program, SpecularSampler),
                        m.vao, |m.indices|);
    }
  }

  /** Without outlining, drawing issues no stencil command at all. */
  lemma DrawPlainNoStencil(gl: Context, program: nat, outline: nat, ms: seq<Mesh>, opts: RenderOptions, t: Transform)
    requires !opts.outlineEnabled
    ensures forall c <- DrawTrace(gl, program, outline, ms, opts, t) :: !IsStencil(c)
  {
    BindingsTraceUploads(gl, program, TransformBindings(t.view, t.projection, t.model));
    MeshesNoStencil(gl, program, ms);
  }

  /** The outline pass records one draw call per mesh with the outline program where no 1 was
      written, and leaves the stencil state writing 1 everywhere again. */
  lemma OutlinePassDraws(s: GlState, gl: Context, program: nat, outline: nat, ms: seq<Mesh>, t: Transform, o: Outline)
    ensures var r := Replay(s, OutlinePassTrace(gl, outline, ms, t, o) + [UseProgram(program)]);
      && r.draws == s.draws + DrawsOf(outline, Testing(s.stencil), ms)
      && r.stencil == Testing(s.stencil).(writeMask := 0xFF, test := Always, ref := 1, valueMask := 0xFF)
      && r.program == program
  {
    var x := TestStencil + [UseProgram(outline)];
    var b := BindingsTrace(gl, outline, OutlineBindings(t, o));
    var g := GeometriesTrace(ms);
    assert OutlinePassTrace(gl, outline, ms, t, o) + [UseProgram(program)]
      == x + b + g + (RestoreStencil + [UseProgram(program)]);
    ReplayConcat(s, x + b + g, RestoreStencil + [UseProgram(program)]);
    ReplayConcat(s, x + b, g);
    ReplayConcat(s, x, b);
    TestEffect(s, outline);
    var s1 := Replay(s, x);
    BindingsFrame(gl, s1, outline, OutlineBindings(t, o));
    var s2 := Replay(s1, b);
    GeometriesDrawn(s2, ms);
    RestoreEffect(Replay(s2, g), program);
  }

  /** With outlining, the main pass draws every mesh writing 1 into the stencil buffer, then the
      outline program draws every mesh again only where no 1 was written; afterwards the stencil
      state writes 1 everywhere and `program` is current. */
  lemma DrawOutlined(s: GlState, gl: Context, program: nat, outline: nat, ms: seq<Mesh>, opts: RenderOptions, t: Transform)
    requires opts.outlineEnabled
    ensures var r := Replay(s, DrawTrace(gl, program, outline, ms, opts, t));
      && r.draws == s.draws + DrawsOf(s.program, Marking(s.stencil), ms) + DrawsOf(outline, Testing(Marking(s.stencil)), ms)
      && |r.draws| == |s.draws| + 2 * |ms|
      && r.stencil == Marking(s.stencil)
      && r.program == program
  {
    var main := MainPassTrace(gl, program, ms, t);
    var pass := OutlinePassTrace(gl, outline, ms, t, opts.outline) + [UseProgram(program)];
    assert DrawTrace(gl, program, outline, ms, opts, t) == MarkStencil + main + pass;
    ReplayConcat(s, MarkStencil + main, pass);
    ReplayConcat(s, MarkStencil, main);
    MarkEffect(s);
    var s1 := Replay(s, MarkStencil);
    MainPassDraws(s1, gl, program, ms, t);
    OutlinePassDraws(Replay(s1, main), gl, program, outline, ms, t, opts.outline);
  }

  lemma OutlineNamesDistinct(t: Transform, o: Outline)
    ensures Distinct(Names(OutlineBindings(t, o)))
  {
    assert Names(OutlineBindings(t, o)) == ["view", "projection", "model", "outline_color"];
  }

  /** After the outline pass the outline program holds each of its uniforms that it resolves. */
  lemma OutlinePassUniforms(s: GlState, gl: Context, program: nat, outline: nat, ms: seq<Mesh>, t: Transform, o: Outline)
    requires gl.UniqueLocations()
    ensures var r := Replay(s, OutlinePassTrace(gl, outline, ms, t, o) + [UseProgram(program)]);
      var bs := OutlineBindings(t, o);
      forall i :: 0 <= i < |bs| && (outline, bs[i].name) in gl.activeUniforms ==>
        UniformAt(r, outline, gl.activeUniforms[(outline, bs[i].name)]) == Some(Upload(bs[i].value))
  {
    var bs := OutlineBindings(t, o);
    var x := TestStencil + [UseProgram(outline)];
    var b := BindingsTrace(gl, outline, bs);
    var g := GeometriesTrace(ms);
    assert OutlinePassTrace(gl, outline, ms, t, o) + [UseProgram(program)]
      == x + b + g + (RestoreStencil + [UseProgram(program)]);
    ReplayConcat(s, x + b + g, RestoreStencil + [UseProgram(program)]);
    ReplayConcat(s, x + b, g);
    ReplayConcat(s, x, b);
    TestEffect(s, outline);
    var s1 := Replay(s, x);
    OutlineNamesDistinct(t, o);
    BindingsSet(gl, s1, outline, bs);
    var s2 := Replay(s1, b);
    GeometriesDrawn(s2, ms);
    RestoreEffect(Replay(s2, g), program);
  }

  /** With outlining, the outline program ends up holding the view and projection matrices, the
      model matrix scaled by the outline scale, and the outline colour, for each of these names
      it resolves. */
  lemma OutlineUniforms(s: GlState, gl: Context, program: nat, outline: nat, ms: seq<Mesh>, opts: RenderOptions, t: Transform)
    requires opts.outlineEnabled && gl.UniqueLocations()
    ensures var r := Replay(s, DrawTrace(gl, program, outline, ms, opts, t));
      && ((outline, "view") in gl.activeUniforms ==>
            UniformAt(r, outline, gl.activeUniforms[(outline, "view")]) == Some(Matrix4(t.view)))
      && ((outline, "projection") in gl.activeUniforms ==>
            UniformAt(r, outline, gl.activeUniforms[(outline, "projection")]) == Some(Matrix4(t.projection)))
      && ((outline, "model") in gl.activeUniforms ==>
            UniformAt(r, outline, gl.activeUniforms[(outline, "model")]) == Some(Matrix4(Scale(t.model, opts.outline.scale))))
      && ((outline, "outline_color") in gl.activeUniforms ==>
            UniformAt(r, outline, gl.activeUniforms[(outline, "outline_color")]) == Some(Float3(opts.outline.color)))
  {
    var pre := MarkStencil + MainPassTrace(gl, program, ms, t);
    var pass := OutlinePassTrace(gl, outline, ms, t, opts.outline) + [UseProgram(program)];
    assert DrawTrace(gl, program, outline, ms, opts, t) == pre + pass;
    ReplayConcat(s, pre, pass);
    OutlinePassUniforms(Replay(s, pre), gl, program, outline, ms, t, opts.outline);
    var bs := OutlineBindings(t, opts.outline);
    assert bs[0].name == "view" && bs[1].name == "projection" && bs[2].name == "model" && bs[3].name == "outline_color";
  }

  /** Drawing the meshes writes no uniform but `program`'s two material samplers on the current program. */
  lemma {:induction false} MeshesOtherUniforms(s: GlState, gl: Context, program: nat, ms: seq<Mesh>)
    ensures var r := Replay(s, MeshesTrace(gl, program, ms));
      forall p: nat, loc: nat ::
        (p != s.program || (loc != gl.UniformLocation(program, DiffuseSampler) && loc != gl.UniformLocation(program, SpecularSampler))) ==>
          UniformAt(r, p, loc) == UniformAt(s, p, loc)
    decreases |ms|
  {
    if ms != [] {
      var n := |ms| - 1;
      var front := MeshesTrace(gl, program, ms[..n]);
      var dLoc, sLoc := gl.UniformLocation(program, DiffuseSampler), gl.UniformLocation(program, SpecularSampler);
      MeshesOtherUniforms(s, gl, program, ms[..n]);
      MeshesDrawn(s, gl, program, ms[..n]);
      ReplayConcat(s, front, ms[n].DrawCmds(gl, program));
      var mid := Replay(s, front);
      MeshDraws(mid, ms[n].textures, dLoc, sLoc, ms[n].vao, |ms[n].indices|);
      UnitsOtherUniforms(mid, ms[n].textures, dLoc, sLoc);
    }
  }

  /** The outline pass writes uniforms of the outline program only. */
  lemma OutlinePassOtherUniforms(s: GlState, gl: Context, program: nat, outline: nat, ms: seq<Mesh>, t: Transform, o: Outline)
    ensures var r := Replay(s, OutlinePassTrace(gl, outline, ms, t, o) + [UseProgram(program)]);
      forall p: nat, loc: nat :: p != outline ==> UniformAt(r, p, loc) == UniformAt(s, p, loc)
  {
    var x := TestStencil + [UseProgram(outline)];
    var b := BindingsTrace(gl, outline, OutlineBindings(t, o));
    var g := GeometriesTrace(ms);
    assert OutlinePassTrace(gl, outline, ms, t, o) + [UseProgram(program)]
      == x + b + g + (RestoreStencil + [UseProgram(program)]);
    ReplayConcat(s, x + b + g, RestoreStencil + [UseProgram(program)]);
    ReplayConcat(s, x + b, g);
    ReplayConcat(s, x, b);
    TestEffect(s, outline);
    var s1 := Replay(s, x);
    BindingsFrame(gl, s1, outline, OutlineBindings(t, o));
    var s2 := Replay(s1, b);
    GeometriesDrawn(s2, ms);
    var s3 := Replay(s2, g);
    RestoreEffect(s3, program);
    assert s1.uniforms == s.uniforms && s3.uniforms == s2.uniforms;
    forall p: nat, loc: nat | p != outline
      ensures UniformAt(s2, p, loc) == UniformAt(s, p, loc)
    {
    }
  }

  /** A location `program` resolves for one of the transform's names is neither material sampler's. */
  lemma TransformNotSampler(gl: Context, program: nat, name: string)
    requires gl.UniqueLocations() && name in ["view", "projection", "model"] && (program, name) in gl.activeUniforms
    ensures var loc := gl.activeUniforms[(program, name)];
      loc != gl.UniformLocation(program, DiffuseSampler) && loc != gl.UniformLocation(program, SpecularSampler)
  {
    var k := (program, name);
    if (program, DiffuseSampler) in gl.activeUniforms {
      assert k.1 != DiffuseSampler;
      assert gl.activeUniforms[k] != gl.activeUniforms[(program, DiffuseSampler)];
    }
    if (program, SpecularSampler) in gl.activeUniforms {
      assert k.1 != SpecularSampler;
      assert gl.activeUniforms[k] != gl.activeUniforms[(program, SpecularSampler)];
    }
  }

  /** With `program` current, the main pass leaves `program` holding the transform's three matrices,
      for each of these names it resolves. */
  lemma TransformUniforms(s: GlState, gl: Context, program: nat, ms: seq<Mesh>, t: Transform)
    requires s.program == program && gl.UniqueLocations()
    ensures var r := Replay(s, MainPassTrace(gl, program, ms, t));
      var bs := TransformBindings(t.view, t.projection, t.model);
      forall i :: 0 <= i < |bs| && (program, bs[i].name) in gl.activeUniforms ==>
        UniformAt(r, program, gl.activeUniforms[(program, bs[i].name)]) == Some(Upload(bs[i].value))
  {
    var bs := TransformBindings(t.view, t.projection, t.model);
    var b := BindingsTrace(gl, program, bs);
    ReplayConcat(s, b, MeshesTrace(gl, program, ms));
    assert Names(bs) == ["view", "projection", "model"];
    BindingsSet(gl, s, program, bs);
    BindingsFrame(gl, s, program, bs);
    var s1 := Replay(s, b);
    MeshesOtherUniforms(s1, gl, program, ms);
    forall i | 0 <= i < |bs| && (program, bs[i].name) in gl.activeUniforms
      ensures var loc := gl.activeUniforms[(program, bs[i].name)];
        loc != gl.UniformLocation(program, DiffuseSampler) && loc != gl.UniformLocation(program, SpecularSampler)
    {
      TransformNotSampler(gl, program, bs[i].name);
    }
  }

  /** Drawing with `program` current leaves `program` holding the view, projection and model
      matrices, for each of these names it resolves, with or without outlining; the outline pass
      writes only the outline program's uniforms. */
  lemma MainPassUniforms(s: GlState, gl: Context, program: nat, outline: nat, ms: seq<Mesh>, opts: RenderOptions, t: Transform)
    requires s.program == program && gl.UniqueLocations()
    requires opts.outlineEnabled ==> program != outline
    ensures var r := Replay(s, DrawTrace(gl, program, outline, ms, opts, t));
      && ((program, "view") in gl.activeUniforms ==>
            UniformAt(r, program, gl.activeUniforms[(program, "view")]) == Some(Matrix4(t.view)))
      && ((program, "projection") in gl.activeUniforms ==>
            UniformAt(r, program, gl.activeUniforms[(program, "projection")]) == Some(Matrix4(t.projection)))
      && ((program, "model") in gl.activeUniforms ==>
            UniformAt(r, program, gl.activeUniforms[(program, "model")]) == Some(Matrix4(t.model)))
  {
    var main := MainPassTrace(gl, program, ms, t);
    var bs := TransformBindings(t.view, t.projection, t.model);
    assert bs[0].name == "view" && bs[1].name == "projection" && bs[2].name == "model";
    if opts.outlineEnabled {
      var pass := OutlinePassTrace(gl, outline, ms, t, opts.outline) + [UseProgram(program)];
      assert DrawTrace(gl, program, outline, ms, opts, t) == MarkStencil + main + pass;
      ReplayConcat(s, MarkStencil + main, pass);
      ReplayConcat(s, MarkStencil, main);
      MarkEffect(s);
      var s1 := Replay(s, MarkStencil);
      TransformUniforms(s1, gl, program, ms, t);
      OutlinePassOtherUniforms(Replay(s1, main), gl, program, outline, ms, t, opts.outline);
    } else {
      ReplayConcat(s, main, [UseProgram(program)]);
      TransformUniforms(s, gl, program, ms, t);
      ReplaySingle(Replay(s, main), UseProgram(program));
    }
  }

  /** One more `set_uniform` call extends a run of bindings by one. */
  lemma OneMoreUpload(gl: Context, program: nat, bs: seq<Binding>, d: Binding, t0: seq<Cmd>, t1: seq<Cmd>, t2: seq<Cmd>)
    requires t1 == t0 + BindingsTrace(gl, program, bs)
    requires t2 == t1 + UploadCmds(gl, program, d)
    ensures t2 == t0 + BindingsTrace(gl, program, bs + [d])
  {
    BindingsTraceConcat(gl, program, bs, [d]);
    assert [d][1..] == [];
  }

  /** The pieces the outline pass issues, in order, make up `OutlinePassTrace`. */
  lemma OutlinePassParts(gl: Context, outline: nat, ms: seq<Mesh>, t: Transform, o: Outline,
                         s0: seq<Cmd>, s1: seq<Cmd>, s2: seq<Cmd>, s3: seq<Cmd>, s4: seq<Cmd>)
    requires s1 == s0 + TestStencil + [UseProgram(outline)]
    requires s2 == s1 + BindingsTrace(gl, outline, OutlineBindings(t, o))
    requires s3 == s2 + GeometriesTrace(ms)
    requires s4 == s3 + RestoreStencil
    ensures s4 == s0 + OutlinePassTrace(gl, outline, ms, t, o)
  {
  }

  /** The pieces `draw` issues, in order, make up `DrawTrace`. */
  lemma DrawParts(gl: Context, program: nat, outline: nat, ms: seq<Mesh>, opts: RenderOptions, t: Transform,
                  s0: seq<Cmd>, s1: seq<Cmd>, s2: seq<Cmd>, s3: seq<Cmd>, s4: seq<Cmd>, s5: seq<Cmd>)
    requires s1 == if opts.outlineEnabled then s0 + MarkStencil else s0
    requires s2 == s1 + BindingsTrace(gl, program, TransformBindings(t.view, t.projection, t.model))
    requires s3 == s2 + MeshesTrace(gl, program, ms)
    requires s4 == if opts.outlineEnabled then s3 + OutlinePassTrace(gl, outline, ms, t, opts.outline) else s3
    requires s5 == s4 + [UseProgram(program)]
    ensures s5 == s0 + DrawTrace(gl, program, outline, ms, opts, t)
  {
    var bindings := BindingsTrace(gl, program, TransformBindings(t.view, t.projection, t.model));
    var draws := MeshesTrace(gl, program, ms);
    if opts.outlineEnabled {
      JoinFive(s0, MarkStencil, bindings, draws, OutlinePassTrace(gl, outline, ms, t, opts.outline), [UseProgram(program)],
               s1, s2, s3, s4, s5);
    } else {
      JoinThree(s0, bindings, draws, [UseProgram(program)], s3, s5);
    }
  }

  /** Five appends in a row, regrouped as `draw` groups its passes. */
  lemma JoinFive<T>(s0: seq<T>, a: seq<T>, b: seq<T>, c: seq<T>, d: seq<T>, e: seq<T>,
                    s1: seq<T>, s2: seq<T>, s3: seq<T>, s4: seq<T>, s5: seq<T>)
    requires s1 == s0 + a && s2 == s1 + b && s3 == s2 + c && s4 == s3 + d && s5 == s4 + e
    ensures s5 == s0 + (a + (b + c) + d + e)
  {
  }

  /** Three appends in a row, regrouped as `draw` groups its main pass. */
  lemma JoinThree<T>(s0: seq<T>, b: seq<T>, c: seq<T>, e: seq<T>, s3: seq<T>, s5: seq<T>)
    requires s3 == s0 + b + c && s5 == s3 + e
    ensures s5 == s0 + ((b + c) + e)
  {
  }

  /** Every texture a mesh of `ms` refers to is one of `owned`. */
  predicate Owns(ms: seq<Mesh>, owned: seq<Texture2D>) {
    forall i, j :: 0 <= i < |ms| && 0 <= j < |ms[i].textures| ==> ms[i].textures[j] in owned
  }

  /** One mesh of a node processed: on success the imported meshes grow by its view, on failure
      the node's whole mesh list fails with its error. */
  lemma OwnMeshStep(scene: AiScene, images: map<string, Image>, dir: string, flipY: bool, n: AiNode, i: nat,
                    st: Imported, ms: seq<Mesh>, before: seq<Texture2D>, after: seq<Texture2D>, r: Result<Mesh, LoadError>)
    requires SceneValid(scene) && NodeValid(n, |scene.meshes|) && i < |n.meshes|
    requires RefsValid(scene, n.meshes) && RefsValid(scene, n.meshes[..i])
    requires ImportMeshes(scene, images, dir, flipY, n.meshes[..i], st) == Success(Imported(MeshViews(ms), TexViews(before)))
    requires n.meshes[i] < |scene.meshes|
    requires ImportMesh(scene, images, dir, flipY, scene.meshes[n.meshes[i]], TexViews(before))
      == match r
         case Success(mesh) => Success((MeshView(mesh), TexViews(after)))
         case Failure(e) => Failure(e)
    ensures r.Success? ==>
      (RefsValid(scene, n.meshes[..i + 1]) &&
       ImportMeshes(scene, images, dir, flipY, n.meshes[..i + 1], st) == Success(Imported(MeshViews(ms + [r.value]), TexViews(after))))
    ensures r.Failure? ==> ImportMeshes(scene, images, dir, flipY, n.meshes, st) == Failure(r.error)
  {
    ImportOwnStep(scene, images, dir, flipY, n, i, st, Imported(MeshViews(ms), TexViews(before)));
    if r.Success? {
      MeshViewsSnoc(ms, r.value);
    } else {
      ImportMeshesPrefixFails(scene, images, dir, flipY, n.meshes, i + 1, st);
    }
  }

  /** Ownership survives owning more textures and appending a mesh whose textures are owned. */
  lemma OwnsSnoc(ms: seq<Mesh>, before: seq<Texture2D>, after: seq<Texture2D>, m: Mesh)
    requires Owns(ms, before) && before <= after
    requires forall t <- m.textures :: t in after
    ensures Owns(ms + [m], after)
  {
    PrefixMembers(before, after);
    forall i, j | 0 <= i < |ms + [m]| && 0 <= j < |(ms + [m])[i].textures|
      ensures (ms + [m])[i].textures[j] in after
    {
      if i < |ms| {
        assert ms[i].textures[j] in before;
      } else {
        assert m.textures[j] in m.textures;
      }
    }
  }

  lemma PrefixTrans<T>(a: seq<T>, b: seq<T>, c: seq<T>)
    requires a <= b && b <= c
    ensures a <= c
  {
    assert c[..|a|] == b[..|a|];
  }

  lemma PrefixMembers<T>(a: seq<T>, b: seq<T>)
    requires a <= b
    ensures forall x <- a :: x in b
  {
    forall x <- a ensures x in b {
      var k :| 0 <= k < |a| && a[k] == x;
      assert b[k] == x;
    }
  }

  /** The error `add_shader` reports for a stage file that does not build. */
  function StageError(gl: Context, fs: FileSystem, stage: ShaderStage, path: string): ShaderError {
    if path !in fs then OpenFailed(path)
    else if fs[path].Unreadable? then ReadFailed(path)
    else CompileFailed(path)
  }

  // ------------------------------------------------------------------ model

  class Model {
    var meshes: seq<Mesh>
    var loadedTextures: seq<Texture2D>
    var dir: string
    var options: RenderOptions
    const outline: Shader

    /** The meshes and the owned textures, as the import functions see them. */
    function View(): Imported
      reads this
    {
      Imported(MeshViews(meshes), TexViews(loadedTextures))
    }

    /** Every texture a mesh refers to is one the model owns. */
    predicate TexturesOwned()
      reads this
    {
      Owns(meshes, loadedTextures)
    }

    /** The members' initialisers: no meshes, no textures, default options, a fresh outline program. */
    constructor Init(gl: Context)
      modifies gl
      ensures meshes == [] && loadedTextures == [] && dir == "" && options == DefaultRenderOptions
      ensures fresh(outline) && outline.shaderIds == []
      ensures outline.id == old(gl.nextName) && gl.nextName == old(gl.nextName) + 1
      ensures gl.trace == old(gl.trace) + [Create(ProgramObject, outline.id)]
    {
      meshes := [];
      loadedTextures := [];
      dir := "";
      options := DefaultRenderOptions;
      outline := new Shader(gl);
    }

    /** The vertex loop of `process_mesh`. */
    static method CopyVertices(m: AiMesh, flipY: bool) returns (vs: seq<Vertex>)
      requires MeshValid(m)
      ensures vs == Vertices(m, flipY)
    {
      vs := [];
      var i := 0;
      while i < |m.vertices|
        invariant 0 <= i <= |m.vertices|
        invariant vs == Vertices(m, flipY)[..i]
      {
        var uv: Vec2;
        if m.texCoords.Some? {
          var tc := m.texCoords.value[i];
          uv := Vec2(tc.x, (if flipY then -1.0 else 1.0) * tc.y);
        } else {
          uv := Vec2(0.0, 0.0);
        }
        vs := vs + [Vertex(m.vertices[i], m.normals[i], uv)];
        i := i + 1;
      }
    }

    /** The index loops of `process_mesh`: every face's indices, face after face. */
    static method FlattenFaces(faces: seq<seq<U32>>) returns (indices: seq<U32>)
      ensures indices == Flatten(faces)
    {
      indices := [];
      var i := 0;
      while i < |faces|
        invariant 0 <= i <= |faces|
        invariant indices == Flatten(faces[..i])
      {
        var j := 0;
        while j < |faces[i]|
          invariant 0 <= j <= |faces[i]|
          invariant indices == Flatten(faces[..i]) + faces[i][..j]
        {
          indices := indices + [faces[i][j]];
          j := j + 1;
        }
        assert faces[..i + 1][..i] == faces[..i];
        assert faces[i][..j] == faces[i];
        i := i + 1;
      }
      assert faces[..i] == faces;
    }

    /** The owned texture loaded from `file` as `kind`, by position, or -1. */
    method FindTexture(file: string, kind: TextureType) returns (k: int)
      ensures -1 <= k < |loadedTextures|
      ensures k >= 0 ==> TexView(loadedTextures[k]) == TexData(file, kind)
      ensures k == -1 <==> TexData(file, kind) !in TexViews(loadedTextures)
    {
      k := 0;
      while k < |loadedTextures|
        invariant 0 <= k <= |loadedTextures|
        invariant forall j :: 0 <= j < k ==> TexViews(loadedTextures)[j] != TexData(file, kind)
      {
        if loadedTextures[k].path == file && loadedTextures[k].kind == kind {
          assert TexViews(loadedTextures)[k] == TexData(file, kind);
          return;
        }
        k := k + 1;
      }
      k := -1;
    }

    /** A texture not loaded before: built from its file and kept in `loaded_textures`. */
    method LoadAndKeep(gl: Context, decoder: Decoder, file: string, kind: TextureType)
      returns (r: Result<Texture2D, LoadError>)
      modifies this, gl, decoder
      ensures var d := Decode(decoder.images, file);
        && (r.Failure? <==> d.Failure?)
        && (r.Failure? ==> r.error == d.error && loadedTextures == old(loadedTextures))
        && (r.Success? ==>
              && TexView(r.value) == TexData(file, kind)
              && loadedTextures == old(loadedTextures) + [r.value])
      ensures old(loadedTextures) <= loadedTextures
      ensures meshes == old(meshes) && dir == old(dir) && options == old(options)
      ensures decoder.live == old(decoder.live)
      ensures old(gl.trace) <= gl.trace
    {
      var builder := DefaultBuilder.(kind := kind);
      r := Texture2D.Load(gl, decoder, file, builder);
      if r.Success? {
        loadedTextures := loadedTextures + [r.value];
      }
    }

    /**
     * `load_material_textures` with the file and kind as the key: each path
     * of the type yields the owned texture for its file, loading and owning
     * it first when there is none; a texture that fails to load fails the
     * call. Proved against `Acquire`.
     */
    method LoadMaterialTextures(gl: Context, decoder: Decoder, mat: AiMaterial, aiType: AiTextureType)
      returns (r: Result<seq<Texture2D>, LoadError>)
      modifies this, gl, decoder
      ensures Acquire(decoder.images, dir, TexturePaths(mat, aiType), KindOf(aiType), TexViews(old(loadedTextures)))
        == match r
           case Success(ts) => Success((TexViews(ts), TexViews(loadedTextures)))
           case Failure(e) => Failure(e)
      ensures r.Success? ==> forall t <- r.value :: t in loadedTextures
      ensures old(loadedTextures) <= loadedTextures
      ensures meshes == old(meshes) && dir == old(dir) && options == old(options)
      ensures decoder.live == old(decoder.live)
      ensures old(gl.trace) <= gl.trace
    {
      var paths := TexturePaths(mat, aiType);
      var kind := KindOf(aiType);
      ghost var loaded0 := TexViews(loadedTextures);
      var got: seq<Texture2D> := [];
      var i := 0;
      while i < |paths|
        invariant 0 <= i <= |paths|
        invariant Acquire(decoder.images, dir, paths[..i], kind, loaded0) == Success((TexViews(got), TexViews(loadedTextures)))
        invariant forall t <- got :: t in loadedTextures
        invariant old(loadedTextures) <= loadedTextures
        invariant meshes == old(meshes) && dir == old(dir) && options == old(options)
        invariant decoder.live == old(decoder.live)
        invariant old(gl.trace) <= gl.trace
      {
        var file := dir + "/" + paths[i];
        AcquireNext(decoder.images, dir, paths, i, kind, loaded0, TexViews(got), TexViews(loadedTextures));
        var k := FindTexture(file, kind);
        if k >= 0 {
          TexViewsSnoc(got, loadedTextures[k]);
          got := got + [loadedTextures[k]];
        } else {
          ghost var owned := loadedTextures;
          var t := LoadAndKeep(gl, decoder, file, kind);
          if t.Failure? {
            AcquirePrefixFails(decoder.images, dir, paths, i + 1, kind, loaded0);
            assert paths[..|paths|] == paths;
            return Failure(t.error);
          }
          TexViewsSnoc(got, t.value);
          TexViewsSnoc(owned, t.value);
          PrefixTrans(old(loadedTextures), owned, loadedTextures);
          got := got + [t.value];
        }
        i := i + 1;
      }
      assert paths[..i] == paths;
      return Success(got);
    }

    /**
     * `process_mesh`: converts the vertices, flattens the faces, loads the
     * material's diffuse textures and then its specular ones, and builds the
     * mesh on the GPU. Proved against `ImportMesh`.
     */
    method ProcessMesh(gl: Context, decoder: Decoder, scene: AiScene, m: AiMesh, builder: ModelBuilder)
      returns (r: Result<Mesh, LoadError>)
      requires MeshValid(m) && m.materialIndex < |scene.materials|
      modifies this, gl, decoder
      ensures ImportMesh(scene, decoder.images, dir, builder.flipY, m, TexViews(old(loadedTextures)))
        == match r
           case Success(mesh) => Success((MeshView(mesh), TexViews(loadedTextures)))
           case Failure(e) => Failure(e)
      ensures r.Success? ==> forall t <- r.value.textures :: t in loadedTextures
      ensures old(loadedTextures) <= loadedTextures
      ensures meshes == old(meshes) && dir == old(dir) && options == old(options)
      ensures decoder.live == old(decoder.live)
      ensures old(gl.trace) <= gl.trace
    {
      var vertices := CopyVertices(m, builder.flipY);
      var indices := FlattenFaces(m.faces);
      var mat := scene.materials[m.materialIndex];
      var diffuse := LoadMaterialTextures(gl, decoder, mat, AiDiffuse);
      if diffuse.Failure? {
        return Failure(diffuse.error);
      }
      ghost var between := loadedTextures;
      var specular := LoadMaterialTextures(gl, decoder, mat, AiSpecular);
      if specular.Failure? {
        return Failure(specular.error);
      }
      var textures := diffuse.value + specular.value;
      assert TexViews(textures) == TexViews(diffuse.value) + TexViews(specular.value);
      PrefixMembers(between, loadedTextures);
      ghost var before := gl.trace;
      var mesh := new Mesh(gl, vertices, indices, textures);
      assert before <= gl.trace;
      r := Success(mesh);
    }

    /**
     * `process_node`: the node's own meshes in order, then each child's
     * subtree in order, appended to the model's meshes. Proved against
     * `ImportNode`; the meshes keep referring only to owned textures.
     */
    method ProcessNode(gl: Context, decoder: Decoder, scene: AiScene, node: AiNode, builder: ModelBuilder)
      returns (r: Outcome<LoadError>)
      requires SceneValid(scene) && NodeValid(node, |scene.meshes|) && TexturesOwned()
      modifies this, gl, decoder
      ensures ImportNode(scene, decoder.images, dir, builder.flipY, node, old(View()))
        == if r.Pass? then Success(View()) else Failure(r.error)
      ensures TexturesOwned()
      ensures dir == old(dir) && options == old(options)
      ensures decoder.live == old(decoder.live)
      ensures old(gl.trace) <= gl.trace
      decreases node, 1
    {
      ghost var st0 := View();
      ghost var images := decoder.images;
      ImportOwnValid(scene, node);
      var own := ProcessOwnMeshes(gl, decoder, scene, node, builder);
      if own.Fail? {
        return own;
      }
      ghost var acc := View();
      var k := 0;
      while k < |node.children|
        invariant 0 <= k <= |node.children|
        invariant ImportChildren(scene, images, dir, builder.flipY, node, k, acc) == Success(View())
        invariant TexturesOwned()
        invariant dir == old(dir) && options == old(options)
        invariant decoder.live == old(decoder.live)
        invariant old(gl.trace) <= gl.trace
      {
        assert node.children[k] in node.children;
        ghost var tr := gl.trace;
        var res := ProcessNode(gl, decoder, scene, node.children[k], builder);
        PrefixTrans(old(gl.trace), tr, gl.trace);
        if res.Fail? {
          ImportChildrenFails(scene, images, dir, builder.flipY, node, k + 1, |node.children|, acc);
          return res;
        }
        k := k + 1;
      }
      return Pass;
    }

    /** The first loop of `process_node`: the node's own meshes, processed and appended in order. */
    method ProcessOwnMeshes(gl: Context, decoder: Decoder, scene: AiScene, node: AiNode, builder: ModelBuilder)
      returns (r: Outcome<LoadError>)
      requires SceneValid(scene) && NodeValid(node, |scene.meshes|) && RefsValid(scene, node.meshes)
      requires TexturesOwned()
      modifies this, gl, decoder
      ensures ImportMeshes(scene, decoder.images, dir, builder.flipY, node.meshes, old(View()))
        == if r.Pass? then Success(View()) else Failure(r.error)
      ensures TexturesOwned()
      ensures dir == old(dir) && options == old(options)
      ensures decoder.live == old(decoder.live)
      ensures old(gl.trace) <= gl.trace
      decreases node, 0
    {
      ghost var st0 := View();
      ghost var images := decoder.images;
      var i := 0;
      while i < |node.meshes|
        invariant 0 <= i <= |node.meshes|
        invariant RefsValid(scene, node.meshes[..i])
        invariant ImportMeshes(scene, images, dir, builder.flipY, node.meshes[..i], st0) == Success(View())
        invariant TexturesOwned()
        invariant dir == old(dir) && options == old(options)
        invariant decoder.live == old(decoder.live)
        invariant old(gl.trace) <= gl.trace
      {
        ImportOwnStep(scene, images, dir, builder.flipY, node, i, st0, View());
        ghost var (owned, tr) := (loadedTextures, gl.trace);
        var res := ProcessMesh(gl, decoder, scene, scene.meshes[node.meshes[i]], builder);
        PrefixTrans(old(gl.trace), tr, gl.trace);
        OwnMeshStep(scene, images, dir, builder.flipY, node, i, st0, meshes, owned, loadedTextures, res);
        if res.Failure? {
          return Fail(res.error);
        }
        OwnsSnoc(meshes, owned, loadedTextures, res.value);
        meshes := meshes + [res.value];
        i := i + 1;
      }
      assert node.meshes[..i] == node.meshes;
      return Pass;
    }

    /**
     * `load_model`: a scene the importer could not read, that is incomplete
     * or has no root fails; otherwise the directory of `path` becomes the
     * texture directory and the tree is processed from the root. `scene` is
     * what the importer returns for `path`.
     */
    method LoadModel(gl: Context, decoder: Decoder, scene: Option<AiScene>, path: string, builder: ModelBuilder)
      returns (r: Outcome<ImportError>)
      requires scene.Some? ==> SceneValid(scene.value)
      requires meshes == [] && loadedTextures == []
      modifies this, gl, decoder
      ensures ImportScene(scene, decoder.images, path, builder.flipY)
        == if r.Pass? then Success(View()) else Failure(r.error)
      ensures TexturesOwned()
      ensures !Usable(scene) ==> meshes == [] && loadedTextures == [] && gl.trace == old(gl.trace)
      ensures options == old(options)
      ensures decoder.live == old(decoder.live)
      ensures old(gl.trace) <= gl.trace
    {
      if !Usable(scene) {
        return Fail(SceneUnusable(path));
      }
      dir := Directory(path);
      var s := scene.value;
      assert View() == Imported([], []);
      var res := ProcessNode(gl, decoder, s, s.root.value, builder);
      if res.Fail? {
        return Fail(TextureUnavailable(res.error));
      }
      return Pass;
    }

    /**
     * The constructor `Model(path, builder)`: loads the model, then builds
     * the outline program from its two stage files and links it. Any
     * failure is thrown out of the constructor, whose outline program is
     * then deleted by its destructor.
     */
    static method Load(gl: Context, decoder: Decoder, fs: FileSystem, scene: Option<AiScene>, path: string, builder: ModelBuilder)
      returns (r: Result<Model, ModelError>)
      requires scene.Some? ==> SceneValid(scene.value)
      modifies gl, decoder
      ensures decoder.live == old(decoder.live)
      ensures var spec := ImportScene(scene, decoder.images, path, builder.flipY);
        var vertexOk := StageBuilds(gl, fs, VertexStage, OutlineVertexPath);
        var fragmentOk := StageBuilds(gl, fs, FragmentStage, OutlineFragmentPath);
        && (spec.Failure? ==> r == Failure(ImportFailed(spec.error)))
        && (spec.Success? ==> (r.Success? <==> vertexOk && fragmentOk))
        && (spec.Success? && !vertexOk ==> r == Failure(OutlineFailed(StageError(gl, fs, VertexStage, OutlineVertexPath))))
        && (spec.Success? && vertexOk && !fragmentOk ==>
              r == Failure(OutlineFailed(StageError(gl, fs, FragmentStage, OutlineFragmentPath))))
        && (r.Success? ==>
              && fresh(r.value) && fresh(r.value.outline)
              && r.value.View() == spec.value && r.value.TexturesOwned()
              && r.value.options == DefaultRenderOptions
              && r.value.outline.id == old(gl.nextName) && r.value.outline.shaderIds == [])
      ensures old(gl.trace) <= gl.trace && |gl.trace| > |old(gl.trace)|
      ensures gl.trace[|old(gl.trace)|] == Create(ProgramObject, old(gl.nextName))
      ensures r.Success? ==> gl.trace[|gl.trace| - 1] == LinkProgram(old(gl.nextName))
      ensures r.Failure? ==> gl.trace[|gl.trace| - 1] == DeleteProgram(old(gl.nextName))
    {
      ghost var t0 := gl.trace;
      var model := new Model.Init(gl);
      var program := model.outline;
      assert t0 + [Create(ProgramObject, program.id)] <= gl.trace;
      var loaded := model.LoadModel(gl, decoder, scene, path, builder);
      if loaded.Fail? {
        program.Deinit(gl);
        return Failure(ImportFailed(loaded.error));
      }
      var built := BuildOutline(gl, fs, program);
      if built.Fail? {
        return Failure(OutlineFailed(built.error));
      }
      return Success(model);
    }

    /** The outline program's two `add_shader` calls and its `link`; a program that fails is deleted. */
    static method BuildOutline(gl: Context, fs: FileSystem, program: Shader) returns (r: Outcome<ShaderError>)
      requires program.shaderIds == []
      modifies gl, program
      ensures var vertexOk := StageBuilds(gl, fs, VertexStage, OutlineVertexPath);
        var fragmentOk := StageBuilds(gl, fs, FragmentStage, OutlineFragmentPath);
        && (r.Pass? <==> vertexOk && fragmentOk)
        && (!vertexOk ==> r == Fail(StageError(gl, fs, VertexStage, OutlineVertexPath)))
        && (vertexOk && !fragmentOk ==> r == Fail(StageError(gl, fs, FragmentStage, OutlineFragmentPath)))
      ensures program.shaderIds == []
      ensures old(gl.trace) < gl.trace
      ensures r.Pass? ==> gl.trace[|gl.trace| - 1] == LinkProgram(program.id)
      ensures r.Fail? ==> gl.trace[|gl.trace| - 1] == DeleteProgram(program.id)
    {
      var v := program.AddShader(gl, fs, VertexStage, OutlineVertexPath);
      if v.Fail? {
        program.Deinit(gl);
        return v;
      }
      var f := program.AddShader(gl, fs, FragmentStage, OutlineFragmentPath);
      if f.Fail? {
        program.Deinit(gl);
        return f;
      }
      program.Link(gl);
      return Pass;
    }

    /**
     * `draw`: with outlining on, the stencil buffer is set to record 1 where
     * the model is drawn; the caller's shader gets the transform and every
     * mesh is drawn with it; with outlining on, the outline program then
     * draws every mesh's geometry with the scaled model matrix where no 1
     * was recorded, and the stencil state is restored; finally the caller's
     * shader is made current again. `set_uniform` writes to the current
     * program, so the shader holds the transform when it was current at the
     * call (`MainPassUniforms`).
     */
    method Draw(gl: Context, shader: Shader, transform: Transform)
      modifies gl
      ensures gl.trace == old(gl.trace) + DrawTrace(gl, shader.id, outline.id, meshes, options, transform)
      ensures gl.nextName == old(gl.nextName)
    {
      ghost var start := gl.trace;
      if options.outlineEnabled {
        gl.Emit(MarkStencil);
      }
      ghost var marked := gl.trace;
      SetTransform(gl, shader, transform.view, transform.projection, transform.model);
      ghost var transformed := gl.trace;
      DrawMeshes(gl, shader);
      ghost var main := gl.trace;
      if options.outlineEnabled {
        var o := options.outline;
        gl.Emit(TestStencil);
        outline.Use(gl);
        ghost var used := gl.trace;
        SetTransform(gl, outline, transform.view, transform.projection, Scale(transform.model, o.scale));
        ghost var scaled := gl.trace;
        outline.SetUniform(gl, "outline_color", HVec3(o.color));
        OneMoreUpload(gl, outline.id, TransformBindings(transform.view, transform.projection, Scale(transform.model, o.scale)),
                      Binding("outline_color", HVec3(o.color)), used, scaled, gl.trace);
        ghost var uploaded := gl.trace;
        DrawGeometries(gl);
        ghost var drawn := gl.trace;
        gl.Emit(RestoreStencil);
        OutlinePassParts(gl, outline.id, meshes, transform, o, main, used, uploaded, drawn, gl.trace);
      }
      ghost var passes := gl.trace;
      shader.Use(gl);
      DrawParts(gl, shader.id, outline.id, meshes, options, transform, start, marked, transformed, main, passes, gl.trace);
    }

    /** The three `set_uniform` calls `draw` makes for a transform, in order. */
    method SetTransform(gl: Context, shader: Shader, view: Mat4, projection: Mat4, model: Mat4)
      modifies gl
      ensures gl.trace == old(gl.trace) + BindingsTrace(gl, shader.id, TransformBindings(view, projection, model))
      ensures gl.nextName == old(gl.nextName)
    {
      ghost var t0 := gl.trace;
      shader.SetUniform(gl, "view", HMat4(view));
      ghost var t1 := gl.trace;
      shader.SetUniform(gl, "projection", HMat4(projection));
      ghost var t2 := gl.trace;
      shader.SetUniform(gl, "model", HMat4(model));
      var bs := TransformBindings(view, projection, model);
      ThreeUploads(gl, shader.id, bs[0], bs[1], bs[2], t0, t1, t2, gl.trace);
      assert [bs[0], bs[1], bs[2]] == bs;
    }

    /** The first loop of `draw`: every mesh drawn, textured, with `shader`. */
    method DrawMeshes(gl: Context, shader: Shader)
      modifies gl
      ensures gl.trace == old(gl.trace) + MeshesTrace(gl, shader.id, meshes)
      ensures gl.nextName == old(gl.nextName)
    {
      var i := 0;
      while i < |meshes|
        invariant 0 <= i <= |meshes|
        invariant gl.trace == old(gl.trace) + MeshesTrace(gl, shader.id, meshes[..i])
        invariant gl.nextName == old(gl.nextName)
      {
        meshes[i].Draw(gl, shader);
        assert meshes[..i + 1][..i] == meshes[..i];
        i := i + 1;
      }
      assert meshes[..i] == meshes;
    }

    /** The second loop of `draw`: every mesh's geometry drawn without textures. */
    method DrawGeometries(gl: Context)
      modifies gl
      ensures gl.trace == old(gl.trace) + GeometriesTrace(meshes)
      ensures gl.nextName == old(gl.nextName)
    {
      var i := 0;
      while i < |meshes|
        invariant 0 <= i <= |meshes|
        invariant gl.trace == old(gl.trace) + GeometriesTrace(meshes[..i])
        invariant gl.nextName == old(gl.nextName)
      {
        meshes[i].DrawWithoutTexture(gl);
        assert meshes[..i + 1][..i] == meshes[..i];
        i := i + 1;
      }
      assert meshes[..i] == meshes;
    }

    /** `set_render_options`: replaces the options and nothing else. */
    method SetRenderOptions(opts: RenderOptions)
      modifies this
      ensures options == opts
      ensures meshes == old(meshes) && loadedTextures == old(loadedTextures) && dir == old(dir)
    {
      options := opts;
    }
  }
}
