/**
 * The OpenGL surface the engine uses, as a command trace.
 *
 * Every GL call the core makes is recorded as one `Cmd` in the trace of a
 * `Context`; what a trace does to the pieces of GL state the engine relies on
 * (current program, texture units, vertex-array bindings, stencil state,
 * uniforms, submitted draws) is given by `Replay`.
 */
module GlApi {
  import opened Glm
  import opened Wrappers

  /** An `unsigned int` (`GLuint`) value. */
  type U32 = x: int | 0 <= x < 0x1_0000_0000

  /** Object names handed out by the driver; 0 is reserved for "no object". */
  type Name = n: nat | n > 0 witness 1

  datatype ShaderStage = VertexStage | FragmentStage

  datatype ObjectKind =
    | ProgramObject
    | ShaderObject(stage: ShaderStage)
    | TextureObject
    | VertexArrayObject
    | BufferObject

  datatype BufferTarget = ArrayBuffer | ElementArrayBuffer
  datatype StencilTest = Always | NotEqual
  datatype StencilAction = Keep | Replace
  datatype PixelFormat = Red | Rgb | Rgba
  datatype TexParameter = WrapS | WrapT | MinFilter | MagFilter

  /** What one glUniform* call uploads. */
  datatype UniformValue =
    | Int1(i: int)
    | UInt1(u: nat)
    | Float1(f: real)
    | Float3(v: Vec3)
    | Matrix4(m: Mat4)

  /** One GL call. */
  datatype Cmd =
    | Create(kind: ObjectKind, name: nat)   // glCreateProgram, glCreateShader, glGen*
    | DeleteProgram(program: nat)
    | ShaderSource(shader: nat, text: string)
    | CompileShader(shader: nat)
    | DeleteShader(shader: nat)
    | AttachShader(program: nat, shader: nat)
    | LinkProgram(program: nat)
    | UseProgram(program: nat)
    | Uniform(location: nat, value: UniformValue)
    | ActiveTexture(unit: nat)              // glActiveTexture(GL_TEXTURE0 + unit)
    | BindTexture(texture: nat)             // target GL_TEXTURE_2D
    | TexParameteri(param: TexParameter, setting: nat)
    | TexImage2D(format: PixelFormat, width: int, height: int)
    | GenerateMipmap
    | BindVertexArray(vao: nat)
    | BindBuffer(target: BufferTarget, buffer: nat)
    | BufferData(target: BufferTarget, size: nat)
    | EnableVertexAttribArray(index: nat)
    | VertexAttribPointer(index: nat, components: nat, stride: nat, offset: nat)
    | DrawElements(count: int)              // GL_TRIANGLES, GL_UNSIGNED_INT, offset 0
    | StencilFunc(test: StencilTest, ref: nat, mask: nat)
    | StencilMask(mask: nat)
    | StencilOp(sfail: StencilAction, dpfail: StencilAction, dppass: StencilAction)

  predicate IsStencil(c: Cmd) {
    c.StencilFunc? || c.StencilMask? || c.StencilOp?
  }

  /** The uniform upload of `set_uniform` once the name is resolved: none for location -1. */
  function UniformCmds(location: int, v: UniformValue): seq<Cmd> {
    if location < 0 then [] else [Uniform(location, v)]
  }

  // ---------------------------------------------------------------------------
  // The state a trace acts on

  datatype StencilState = StencilState(
    test: StencilTest, ref: nat, valueMask: nat,
    writeMask: nat,
    sfail: StencilAction, dpfail: StencilAction, dppass: StencilAction)

  datatype Attrib = Attrib(enabled: bool, components: nat, stride: nat, offset: nat, buffer: nat)

  /** What a vertex array object records: its element buffer and its attributes. */
  datatype VaoState = VaoState(elementBuffer: nat, attribs: map<nat, Attrib>)

  /** One submitted draw, with the state it was drawn under. */
  datatype DrawCall = DrawCall(program: nat, vao: nat, count: int, stencil: StencilState)

  datatype GlState = GlState(
    program: nat,
    activeUnit: nat,
    unitTextures: map<nat, nat>,
    boundVao: nat,
    arrayBuffer: nat,
    vaos: map<nat, VaoState>,
    bufferSizes: map<nat, nat>,
    stencil: StencilState,
    uniforms: map<(nat, nat), UniformValue>,
    draws: seq<DrawCall>)

  /** The value a uniform location of a program holds, if it was ever set. */
  function UniformAt(s: GlState, program: nat, location: nat): Option<UniformValue> {
    if (program, location) in s.uniforms then Some(s.uniforms[(program, location)]) else None
  }

  /** The texture bound on a texture unit, if any. */
  function TextureOn(s: GlState, unit: nat): Option<nat> {
    if unit in s.unitTextures then Some(s.unitTextures[unit]) else None
  }

  function VaoOf(s: GlState): VaoState {
    if s.boundVao in s.vaos then s.vaos[s.boundVao] else VaoState(0, map[])
  }

  function AttribOf(v: VaoState, index: nat): Attrib {
    if index in v.attribs then v.attribs[index] else Attrib(false, 4, 0, 0, 0)
  }

  /** The effect of one command. Object creation, shader building and texture image upload leave the tracked bindings alone. */
  function Apply(s: GlState, c: Cmd): GlState {
    match c
    case UseProgram(p) => s.(program := p)
    case Uniform(loc, v) => s.(uniforms := s.uniforms[(s.program, loc) := v])
    case ActiveTexture(u) => s.(activeUnit := u)
    case BindTexture(t) => s.(unitTextures := s.unitTextures[s.activeUnit := t])
    case BindVertexArray(v) => s.(boundVao := v)
    case BindBuffer(target, b) =>
      if target == ArrayBuffer then s.(arrayBuffer := b)
      else s.(vaos := s.vaos[s.boundVao := VaoOf(s).(elementBuffer := b)])
    case BufferData(target, n) =>
      var b := if target == ArrayBuffer then s.arrayBuffer else VaoOf(s).elementBuffer;
      s.(bufferSizes := s.bufferSizes[b := n])
    case EnableVertexAttribArray(i) =>
      var v := VaoOf(s);
      s.(vaos := s.vaos[s.boundVao := v.(attribs := v.attribs[i := AttribOf(v, i).(enabled := true)])])
    case VertexAttribPointer(i, n, stride, offset) =>
      var v := VaoOf(s);
      var a := Attrib(AttribOf(v, i).enabled, n, stride, offset, s.arrayBuffer);
      s.(vaos := s.vaos[s.boundVao := v.(attribs := v.attribs[i := a])])
    case DrawElements(n) => s.(draws := s.draws + [DrawCall(s.program, s.boundVao, n, s.stencil)])
    case StencilFunc(t, r, m) => s.(stencil := s.stencil.(test := t, ref := r, valueMask := m))
    case StencilMask(m) => s.(stencil := s.stencil.(writeMask := m))
    case StencilOp(a, b, d) => s.(stencil := s.stencil.(sfail := a, dpfail := b, dppass := d))
    case _ => s
  }

  function Replay(s: GlState, trace: seq<Cmd>): GlState
    decreases |trace|
  {
    if trace == [] then s else Replay(Apply(s, trace[0]), trace[1..])
  }

  lemma ReplayStep(s: GlState, t: seq<Cmd>, k: nat)
    requires k < |t|
    ensures Replay(s, t[k..]) == Replay(Apply(s, t[k]), t[k + 1..])
  {
    assert t[k..][1..] == t[k + 1..];
  }

  lemma {:induction false} ReplayConcat(s: GlState, a: seq<Cmd>, b: seq<Cmd>)
    ensures Replay(s, a + b) == Replay(Replay(s, a), b)
    decreases |a|
  {
    if a != [] {
      assert (a + b)[0] == a[0];
      assert (a + b)[1..] == a[1..] + b;
      ReplayConcat(Apply(s, a[0]), a[1..], b);
    } else {
      assert a + b == b;
    }
  }

  lemma ReplayPair(s: GlState, a: Cmd, b: Cmd)
    ensures Replay(s, [a, b]) == Apply(Apply(s, a), b)
  {
    ReplayStep(s, [a, b], 0);
    ReplayStep(Apply(s, a), [a, b], 1);
    assert [a, b][2..] == [];
  }

  lemma ReplaySingle(s: GlState, a: Cmd)
    ensures Replay(s, [a]) == Apply(s, a)
  {
    ReplayStep(s, [a], 0);
    assert [a][1..] == [];
  }

  lemma ReplayTriple(s: GlState, a: Cmd, b: Cmd, c: Cmd)
    ensures Replay(s, [a, b, c]) == Apply(Apply(Apply(s, a), b), c)
  {
    ReplayStep(s, [a, b, c], 0);
    ReplayStep(Apply(s, a), [a, b, c], 1);
    ReplayStep(Apply(Apply(s, a), b), [a, b, c], 2);
    assert [a, b, c][3..] == [];
  }

  /** Replaying commands none of which touches the stencil keeps the stencil state. */
  lemma {:induction false} ReplayKeepsStencil(s: GlState, t: seq<Cmd>)
    requires forall i :: 0 <= i < |t| ==> !IsStencil(t[i])
    ensures Replay(s, t).stencil == s.stencil
    decreases |t|
  {
    if t != [] {
      ReplayKeepsStencil(Apply(s, t[0]), t[1..]);
    }
  }

  // ---------------------------------------------------------------------------
  // The context

  /** A GL context: the calls made so far, the next free object name, and the driver's answers. */
  class Context {
    /** What glGetUniformLocation answers once a program is linked: (program, name) to location. */
    const activeUniforms: map<(nat, string), nat>
    /** The driver's verdict on compiling a stage from a source text. */
    const compiles: (ShaderStage, string) -> bool
    var trace: seq<Cmd>
    var nextName: Name

    constructor (activeUniforms: map<(nat, string), nat>, compiles: (ShaderStage, string) -> bool)
      ensures this.activeUniforms == activeUniforms && this.compiles == compiles
      ensures trace == [] && nextName == 1
    {
      this.activeUniforms := activeUniforms;
      this.compiles := compiles;
      trace := [];
      nextName := 1;
    }

    /** glGetUniformLocation: -1 when the program has no active uniform of that name. */
    function UniformLocation(program: nat, name: string): (loc: int)
      ensures loc >= -1
      ensures loc == -1 <==> (program, name) !in activeUniforms
    {
      if (program, name) in activeUniforms then activeUniforms[(program, name)] else -1
    }

    /** glGetUniformLocation gives distinct active uniforms of one program distinct locations. */
    predicate UniqueLocations() {
      forall k1, k2 :: k1 in activeUniforms && k2 in activeUniforms && k1.0 == k2.0 && k1.1 != k2.1 ==>
        activeUniforms[k1] != activeUniforms[k2]
    }

    method Emit(cmds: seq<Cmd>)
      modifies this
      ensures trace == old(trace) + cmds && nextName == old(nextName)
    {
      trace := trace + cmds;
    }

    /** glCreateProgram / glCreateShader / glGen*: a fresh name, recorded in the trace. */
    method Generate(kind: ObjectKind) returns (name: Name)
      modifies this
      ensures name == old(nextName) && nextName == name + 1
      ensures trace == old(trace) + [Create(kind, name)]
    {
      name := nextName;
      nextName := nextName + 1;
      trace := trace + [Create(kind, name)];
    }
  }
}
