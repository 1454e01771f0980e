/**
 * Shader: a GL program, the stage handles waiting to be linked into it,
 * and the uniform-binding protocol, including the struct-uniform naming
 * convention for lights.
 */
module Shaders {
  import opened Wrappers
  import opened Glm
  import opened GlApi
  import opened Lights

  /** What opening and reading a shader file yields. */
  datatype FileEntry = Readable(text: string) | Unreadable

  /** The files a program can open, by path; a missing path cannot be opened. */
  type FileSystem = map<string, FileEntry>

  datatype ShaderError = OpenFailed(path: string) | ReadFailed(path: string) | CompileFailed(path: string)

  /** add_shader_impl: the GL enum of each stage kind. */
  function StageEnum(stage: ShaderStage): nat {
    match stage
    case VertexStage => 0x8B31
    case FragmentStage => 0x8B30
  }

  /** The C++ types `set_uniform` is instantiated with. */
  datatype HostValue =
    | HInt(i: int)
    | HUInt(u: nat)
    | HFloat(f: real)
    | HDouble(d: real)
    | HVec3(v: Vec3)
    | HMat4(m: Mat4)

  /** set_uniform_impl: the upload each host type is given. */
  function Upload(v: HostValue): UniformValue {
    match v
    case HInt(i) => Int1(i)
    case HUInt(u) => UInt1(u)
    case HFloat(f) => Float1(f)
    case HDouble(d) => Float1(d)
    case HVec3(x) => Float3(x)
    case HMat4(m) => Matrix4(m)
  }

  /** A double goes through glUniform1f, exactly as a float of the same value does. */
  lemma DoubleTakesFloatPath(x: real)
    ensures Upload(HDouble(x)) == Upload(HFloat(x)) == Float1(x)
  {
  }

  // ---------------------------------------------------------------------------
  // Struct-uniform naming

  /** One `set_uniform(name, value)` call made by a struct expansion. */
  datatype Binding = Binding(name: string, value: HostValue)

  function Names(bs: seq<Binding>): (names: seq<string>)
    ensures |names| == |bs|
    ensures forall i :: 0 <= i < |bs| ==> names[i] == bs[i].name
  {
    seq(|bs|, i requires 0 <= i < |bs| => bs[i].name)
  }

  /** The size of the `char buffer[64]` the LightInfo names are formatted into. */
  const NameBufferSize: nat := 64

  /** `snprintf(buffer, 64, ...)`: at most 63 characters survive, followed by the terminator. */
  function Truncate(s: string): (r: string)
    ensures |r| < NameBufferSize && |r| <= |s| && r == s[..|r|]
    ensures |s| < NameBufferSize ==> r == s
    ensures |s| >= NameBufferSize ==> |r| == NameBufferSize - 1
  {
    if |s| < NameBufferSize then s else s[..NameBufferSize - 1]
  }

  function LightInfoBindings(base: string, info: LightInfo): seq<Binding> {
    [ Binding(Truncate(base + ".ambient"), HVec3(info.ambient)),
      Binding(Truncate(base + ".specular"), HVec3(info.specular)),
      Binding(Truncate(base + ".diffuse"), HVec3(info.diffuse)) ]
  }

  function PointLightBindings(base: string, l: PointLight): seq<Binding> {
    [ Binding(base + ".position", HVec3(l.position)),
      Binding(base + ".linear", HFloat(l.attenuation.linear)),
      Binding(base + ".quadratic", HFloat(l.attenuation.quadratic)),
      Binding(base + ".constant", HFloat(l.attenuation.constant)) ]
    + LightInfoBindings(base, l.info)
  }

  function SpotLightBindings(base: string, l: SpotLight): seq<Binding> {
    [ Binding(base + ".position", HVec3(l.position)),
      Binding(base + ".direction", HVec3(l.direction)),
      Binding(base + ".inner_cut_off", HFloat(l.innerCutOff)),
      Binding(base + ".outer_cut_off", HFloat(l.outerCutOff)) ]
    + LightInfoBindings(base, l.info)
  }

  function DirectionalLightBindings(base: string, l: DirectionalLight): seq<Binding> {
    [ Binding(base + ".direction", HVec3(l.direction)) ] + LightInfoBindings(base, l.info)
  }

  const LightInfoFields: seq<string> := [".ambient", ".specular", ".diffuse"]
  const PointLightFields: seq<string> :=
    [".position", ".linear", ".quadratic", ".constant"] + LightInfoFields
  const SpotLightFields: seq<string> :=
    [".position", ".direction", ".inner_cut_off", ".outer_cut_off"] + LightInfoFields
  const DirectionalLightFields: seq<string> := [".direction"] + LightInfoFields

  /** `base` followed by each field suffix, in order. */
  function Prefixed(base: string, fields: seq<string>): (r: seq<string>)
    ensures |r| == |fields|
  {
    seq(|fields|, i requires 0 <= i < |fields| => base + fields[i])
  }

  predicate Distinct(s: seq<string>) {
    forall i, j :: 0 <= i < j < |s| ==> s[i] != s[j]
  }

  /** The longest base name whose LightInfo names all fit the 64-byte buffer. */
  const LongestUntruncatedBase: nat := NameBufferSize - 1 - |".specular"|

  lemma JoinInjective(base: string, a: string, b: string)
    requires base + a == base + b
    ensures a == b
  {
    assert a == (base + a)[|base|..];
    assert b == (base + b)[|base|..];
  }

  lemma {:induction false} PrefixedDistinct(base: string, fields: seq<string>)
    requires Distinct(fields)
    ensures Distinct(Prefixed(base, fields))
  {
    var r := Prefixed(base, fields);
    forall i, j | 0 <= i < j < |r| ensures r[i] != r[j] {
      if r[i] == r[j] {
        JoinInjective(base, fields[i], fields[j]);
      }
    }
  }

  /**
   * LightInfo names: never longer than 63 characters; for a base of at most
   * 54 characters they are exactly `base.ambient`, `base.specular`,
   * `base.diffuse`, in that order, and pairwise different.
   */
  lemma LightInfoNames(base: string, info: LightInfo)
    ensures forall n <- Names(LightInfoBindings(base, info)) :: |n| < NameBufferSize
    ensures |base| <= LongestUntruncatedBase ==>
      Names(LightInfoBindings(base, info)) == Prefixed(base, LightInfoFields)
      && Distinct(Names(LightInfoBindings(base, info)))
  {
    if |base| <= LongestUntruncatedBase {
      PrefixedDistinct(base, LightInfoFields);
    }
  }

  /** With a base of 62 characters or more the truncation gives all three LightInfo names the same text. */
  lemma LongBaseCollapsesLightInfoNames(base: string, info: LightInfo)
    requires |base| >= NameBufferSize - 2
    ensures var names := Names(LightInfoBindings(base, info));
      names[0] == names[1] == names[2]
  {
    var names := Names(LightInfoBindings(base, info));
    assert names[0] == (base + ".ambient")[..NameBufferSize - 1];
    assert names[1] == (base + ".specular")[..NameBufferSize - 1];
    assert names[2] == (base + ".diffuse")[..NameBufferSize - 1];
    assert (base + ".ambient")[..NameBufferSize - 1] == (base + ".")[..NameBufferSize - 1];
    assert (base + ".specular")[..NameBufferSize - 1] == (base + ".")[..NameBufferSize - 1];
    assert (base + ".diffuse")[..NameBufferSize - 1] == (base + ".")[..NameBufferSize - 1];
  }

  /** A PointLight binds exactly seven distinct names, in this order, when no LightInfo name is truncated. */
  lemma PointLightNames(base: string, l: PointLight)
    requires |base| <= LongestUntruncatedBase
    ensures Names(PointLightBindings(base, l)) == Prefixed(base, PointLightFields)
    ensures Distinct(Names(PointLightBindings(base, l))) && |Names(PointLightBindings(base, l))| == 7
  {
    PrefixedDistinct(base, PointLightFields);
  }

  /** A SpotLight binds exactly seven distinct names, in this order, when no LightInfo name is truncated. */
  lemma SpotLightNames(base: string, l: SpotLight)
    requires |base| <= LongestUntruncatedBase
    ensures Names(SpotLightBindings(base, l)) == Prefixed(base, SpotLightFields)
    ensures Distinct(Names(SpotLightBindings(base, l))) && |Names(SpotLightBindings(base, l))| == 7
  {
    PrefixedDistinct(base, SpotLightFields);
  }

  /** A DirectionalLight binds exactly four distinct names, in this order, when no LightInfo name is truncated. */
  lemma DirectionalLightNames(base: string, l: DirectionalLight)
    requires |base| <= LongestUntruncatedBase
    ensures Names(DirectionalLightBindings(base, l)) == Prefixed(base, DirectionalLightFields)
    ensures Distinct(Names(DirectionalLightBindings(base, l))) && |Names(DirectionalLightBindings(base, l))| == 4
  {
    PrefixedDistinct(base, DirectionalLightFields);
  }

  // ---------------------------------------------------------------------------
  // Uploads

  /** The GL calls of `set_uniform(b.name, b.value)` for each binding in turn, on `program`. */
  function BindingsTrace(gl: Context, program: nat, bs: seq<Binding>): seq<Cmd>
    decreases |bs|
  {
    if bs == [] then []
    else UniformCmds(gl.UniformLocation(program, bs[0].name), Upload(bs[0].value))
         + BindingsTrace(gl, program, bs[1..])
  }

  lemma {:induction false} BindingsTraceConcat(gl: Context, program: nat, a: seq<Binding>, b: seq<Binding>)
    ensures BindingsTrace(gl, program, a + b) == BindingsTrace(gl, program, a) + BindingsTrace(gl, program, b)
    decreases |a|
  {
    if a == [] {
      assert a + b == b;
    } else {
      assert (a + b)[1..] == a[1..] + b;
      BindingsTraceConcat(gl, program, a[1..], b);
    }
  }

  /** The commands one `set_uniform` call issues for a binding. */
  function UploadCmds(gl: Context, program: nat, b: Binding): seq<Cmd> {
    UniformCmds(gl.UniformLocation(program, b.name), Upload(b.value))
  }

  /** Three `set_uniform` calls in a row issue the three bindings' trace. */
  lemma ThreeUploads(gl: Context, program: nat, a: Binding, b: Binding, c: Binding,
                     t0: seq<Cmd>, t1: seq<Cmd>, t2: seq<Cmd>, t3: seq<Cmd>)
    requires t1 == t0 + UploadCmds(gl, program, a)
    requires t2 == t1 + UploadCmds(gl, program, b)
    requires t3 == t2 + UploadCmds(gl, program, c)
    ensures t3 == t0 + BindingsTrace(gl, program, [a, b, c])
  {
    assert [a, b, c][1..] == [b, c];
    assert [b, c][1..] == [c];
    assert [c][1..] == [];
    assert BindingsTrace(gl, program, [c]) == UploadCmds(gl, program, c);
    assert BindingsTrace(gl, program, [b, c]) == UploadCmds(gl, program, b) + UploadCmds(gl, program, c);
  }

  /** Four `set_uniform` calls in a row issue a four-field prefix of a light's bindings. */
  lemma FourUploads(gl: Context, program: nat, a: Binding, b: Binding, c: Binding, d: Binding,
                    t0: seq<Cmd>, t1: seq<Cmd>, t2: seq<Cmd>, t3: seq<Cmd>, t4: seq<Cmd>)
    requires t1 == t0 + UploadCmds(gl, program, a)
    requires t2 == t1 + UploadCmds(gl, program, b)
    requires t3 == t2 + UploadCmds(gl, program, c)
    requires t4 == t3 + UploadCmds(gl, program, d)
    ensures t4 == t0 + BindingsTrace(gl, program, [a, b, c, d])
  {
    ThreeUploads(gl, program, b, c, d, t1, t2, t3, t4);
    assert [a, b, c, d][1..] == [b, c, d];
  }

  /** The shared `LightInfo` fields follow a light's own fields in one trace. */
  lemma LightTail(gl: Context, program: nat, head: seq<Binding>, info: seq<Binding>,
                  t0: seq<Cmd>, t1: seq<Cmd>, t2: seq<Cmd>)
    requires t1 == t0 + BindingsTrace(gl, program, head)
    requires t2 == t1 + BindingsTrace(gl, program, info)
    ensures t2 == t0 + BindingsTrace(gl, program, head + info)
  {
    BindingsTraceConcat(gl, program, head, info);
  }

  /** Only bindings whose name the program resolves reach GL, one upload each, in order. */
  lemma {:induction false} BindingsTraceUploads(gl: Context, program: nat, bs: seq<Binding>)
    ensures forall c <- BindingsTrace(gl, program, bs) :: c.Uniform?
    ensures |BindingsTrace(gl, program, bs)| <= |bs|
    ensures (forall b <- bs :: (program, b.name) !in gl.activeUniforms) ==> BindingsTrace(gl, program, bs) == []
    decreases |bs|
  {
    if bs != [] {
      BindingsTraceUploads(gl, program, bs[1..]);
    }
  }

  /** The locations the names of `bs` resolve to on `program`. */
  function Locations(gl: Context, program: nat, bs: seq<Binding>): set<nat> {
    set i | 0 <= i < |bs| && (program, bs[i].name) in gl.activeUniforms :: gl.activeUniforms[(program, bs[i].name)]
  }

  lemma LocationsCons(gl: Context, program: nat, bs: seq<Binding>)
    requires bs != []
    ensures Locations(gl, program, bs) == Locations(gl, program, [bs[0]]) + Locations(gl, program, bs[1..])
  {
    var rest := bs[1..];
    forall loc | loc in Locations(gl, program, bs) ensures loc in Locations(gl, program, [bs[0]]) + Locations(gl, program, rest) {
      var i :| 0 <= i < |bs| && (program, bs[i].name) in gl.activeUniforms && gl.activeUniforms[(program, bs[i].name)] == loc;
      if i > 0 {
        assert rest[i - 1] == bs[i];
      } else {
        assert [bs[0]][0] == bs[i];
      }
    }
    forall loc | loc in Locations(gl, program, rest) ensures loc in Locations(gl, program, bs) {
      var i :| 0 <= i < |rest| && (program, rest[i].name) in gl.activeUniforms && gl.activeUniforms[(program, rest[i].name)] == loc;
      assert bs[i + 1] == rest[i];
    }
    assert bs[0] == [bs[0]][0];
  }

  /** Replaying the first upload of a list: at most one uniform of the current program changes. */
  lemma BindingsHead(gl: Context, s: GlState, program: nat, b: Binding)
    ensures var r := Replay(s, UniformCmds(gl.UniformLocation(program, b.name), Upload(b.value)));
      && r == s.(uniforms := r.uniforms)
      && ((program, b.name) in gl.activeUniforms ==>
            UniformAt(r, s.program, gl.activeUniforms[(program, b.name)]) == Some(Upload(b.value)))
      && (forall p: nat, loc: nat :: p != s.program || loc !in Locations(gl, program, [b]) ==>
            UniformAt(r, p, loc) == UniformAt(s, p, loc))
  {
    var c := UniformCmds(gl.UniformLocation(program, b.name), Upload(b.value));
    if c != [] {
      ReplaySingle(s, c[0]);
      assert gl.activeUniforms[(program, [b][0].name)] in Locations(gl, program, [b]);
    } else {
      assert Replay(s, c) == s;
    }
  }

  /** Uploads only touch uniforms of the current program, and only at locations the names resolve to. */
  lemma {:induction false} BindingsFrame(gl: Context, s: GlState, program: nat, bs: seq<Binding>)
    ensures var r := Replay(s, BindingsTrace(gl, program, bs));
      && r == s.(uniforms := r.uniforms)
      && (forall p: nat, loc: nat :: p != s.program || loc !in Locations(gl, program, bs) ==>
            UniformAt(r, p, loc) == UniformAt(s, p, loc))
    decreases |bs|
  {
    if bs != [] {
      var c := UniformCmds(gl.UniformLocation(program, bs[0].name), Upload(bs[0].value));
      ReplayConcat(s, c, BindingsTrace(gl, program, bs[1..]));
      BindingsHead(gl, s, program, bs[0]);
      BindingsFrame(gl, Replay(s, c), program, bs[1..]);
      LocationsCons(gl, program, bs);
    }
  }

  /**
   * Replaying the uploads of distinctly named bindings on the current
   * program: every name `program` resolves ends up holding its value.
   */
  lemma {:induction false} BindingsSet(gl: Context, s: GlState, program: nat, bs: seq<Binding>)
    requires gl.UniqueLocations() && Distinct(Names(bs))
    ensures var r := Replay(s, BindingsTrace(gl, program, bs));
      forall i :: 0 <= i < |bs| && (program, bs[i].name) in gl.activeUniforms ==>
        UniformAt(r, s.program, gl.activeUniforms[(program, bs[i].name)]) == Some(Upload(bs[i].value))
    decreases |bs|
  {
    if bs != [] {
      var b := bs[0];
      var rest := bs[1..];
      var c := UniformCmds(gl.UniformLocation(program, b.name), Upload(b.value));
      var s1 := Replay(s, c);
      ReplayConcat(s, c, BindingsTrace(gl, program, rest));
      BindingsHead(gl, s, program, b);
      assert Names(rest) == Names(bs)[1..];
      BindingsSet(gl, s1, program, rest);
      BindingsFrame(gl, s1, program, rest);
      var r := Replay(s, BindingsTrace(gl, program, bs));
      forall i | 0 <= i < |bs| && (program, bs[i].name) in gl.activeUniforms
        ensures UniformAt(r, s.program, gl.activeUniforms[(program, bs[i].name)]) == Some(Upload(bs[i].value))
      {
        if i > 0 {
          assert rest[i - 1] == bs[i];
        } else {
          var loc := gl.activeUniforms[(program, b.name)];
          assert forall j :: 0 <= j < |rest| ==> rest[j].name != b.name by {
            forall j | 0 <= j < |rest| ensures rest[j].name != b.name {
              assert Names(bs)[0] != Names(bs)[j + 1];
            }
          }
          assert loc !in Locations(gl, program, rest);
        }
      }
    }
  }

  class Shader {
    const id: nat
    /** The compiled stages waiting for `link`. */
    var shaderIds: seq<nat>

    /** `Shader()`: glCreateProgram, with no pending stage. */
    constructor (gl: Context)
      modifies gl
      ensures id == old(gl.nextName) && gl.nextName == old(gl.nextName) + 1
      ensures gl.trace == old(gl.trace) + [Create(ProgramObject, id)]
      ensures shaderIds == []
    {
      var name := gl.Generate(ProgramObject);
      id := name;
      shaderIds := [];
    }

    /**
     * add_shader<ShaderType>(file_path): a file that cannot be opened or
     * read fails before any GL call; a stage that does not compile is
     * deleted and fails; otherwise the stage is attached and its handle
     * appended to `shaderIds`. Only success changes `shaderIds`.
     */
    method AddShader(gl: Context, fs: FileSystem, stage: ShaderStage, filePath: string)
      returns (r: Outcome<ShaderError>)
      modifies this, gl
      ensures filePath !in fs ==>
        r == Fail(OpenFailed(filePath)) && shaderIds == old(shaderIds)
        && gl.trace == old(gl.trace) && gl.nextName == old(gl.nextName)
      ensures filePath in fs && fs[filePath].Unreadable? ==>
        r == Fail(ReadFailed(filePath)) && shaderIds == old(shaderIds)
        && gl.trace == old(gl.trace) && gl.nextName == old(gl.nextName)
      ensures filePath in fs && fs[filePath].Readable? ==>
        var s, text := old(gl.nextName), fs[filePath].text;
        && gl.nextName == s + 1
        && (gl.compiles(stage, text) ==>
              && r == Pass && shaderIds == old(shaderIds) + [s]
              && gl.trace == old(gl.trace)
                 + [Create(ShaderObject(stage), s), ShaderSource(s, text), CompileShader(s), AttachShader(id, s)])
        && (!gl.compiles(stage, text) ==>
              && r == Fail(CompileFailed(filePath)) && shaderIds == old(shaderIds)
              && gl.trace == old(gl.trace)
                 + [Create(ShaderObject(stage), s), ShaderSource(s, text), CompileShader(s), DeleteShader(s)])
    {
      if filePath !in fs {
        return Fail(OpenFailed(filePath));
      }
      if fs[filePath].Unreadable? {
        return Fail(ReadFailed(filePath));
      }
      var text := fs[filePath].text;
      var s := gl.Generate(ShaderObject(stage));
      gl.Emit([ShaderSource(s, text), CompileShader(s)]);
      if !gl.compiles(stage, text) {
        gl.Emit([DeleteShader(s)]);
        return Fail(CompileFailed(filePath));
      }
      gl.Emit([AttachShader(id, s)]);
      shaderIds := shaderIds + [s];
      r := Pass;
    }

    /** delete_shaders: forgets the pending stage handles and nothing else. */
    method DeleteShaders()
      modifies this
      ensures shaderIds == []
    {
      shaderIds := [];
    }

    /** link: links the program, whether or not that succeeds (a failure is only logged), and clears the pending stages. */
    method Link(gl: Context)
      modifies this, gl
      ensures shaderIds == []
      ensures gl.trace == old(gl.trace) + [LinkProgram(id)] && gl.nextName == old(gl.nextName)
    {
      gl.Emit([LinkProgram(id)]);
      DeleteShaders();
    }

    /** deinit: clears the pending stages, then deletes the program. */
    method Deinit(gl: Context)
      modifies this, gl
      ensures shaderIds == []
      ensures gl.trace == old(gl.trace) + [DeleteProgram(id)] && gl.nextName == old(gl.nextName)
    {
      DeleteShaders();
      gl.Emit([DeleteProgram(id)]);
    }

    /** use: makes this program current. */
    method Use(gl: Context)
      modifies gl
      ensures gl.trace == old(gl.trace) + [UseProgram(id)] && gl.nextName == old(gl.nextName)
    {
      gl.Emit([UseProgram(id)]);
    }

    /** set_uniform: an unresolved name (location -1) uploads nothing. */
    method SetUniform(gl: Context, name: string, value: HostValue)
      modifies gl
      ensures gl.trace == old(gl.trace) + UniformCmds(gl.UniformLocation(id, name), Upload(value))
      ensures gl.nextName == old(gl.nextName)
      ensures gl.UniformLocation(id, name) == -1 ==> gl.trace == old(gl.trace)
    {
      var location := gl.UniformLocation(id, name);
      if location == -1 {
        return;
      }
      gl.Emit([Uniform(location, Upload(value))]);
    }

    /** set_uniform_struct<LightInfo>. */
    method SetLightInfo(gl: Context, base: string, info: LightInfo)
      modifies gl
      ensures gl.trace == old(gl.trace) + BindingsTrace(gl, id, LightInfoBindings(base, info))
      ensures gl.nextName == old(gl.nextName)
    {
      ghost var t0 := gl.trace;
      SetUniform(gl, Truncate(base + ".ambient"), HVec3(info.ambient));
      ghost var t1 := gl.trace;
      SetUniform(gl, Truncate(base + ".specular"), HVec3(info.specular));
      ghost var t2 := gl.trace;
      SetUniform(gl, Truncate(base + ".diffuse"), HVec3(info.diffuse));
      ThreeUploads(gl, id, Binding(Truncate(base + ".ambient"), HVec3(info.ambient)),
                   Binding(Truncate(base + ".specular"), HVec3(info.specular)),
                   Binding(Truncate(base + ".diffuse"), HVec3(info.diffuse)), t0, t1, t2, gl.trace);
    }

    /** set_uniform_struct<PointLight>. */
    method SetPointLight(gl: Context, base: string, l: PointLight)
      modifies gl
      ensures gl.trace == old(gl.trace) + BindingsTrace(gl, id, PointLightBindings(base, l))
      ensures gl.nextName == old(gl.nextName)
    {
      ghost var t0 := gl.trace;
      SetUniform(gl, base + ".position", HVec3(l.position));
      ghost var t1 := gl.trace;
      SetUniform(gl, base + ".linear", HFloat(l.attenuation.linear));
      ghost var t2 := gl.trace;
      SetUniform(gl, base + ".quadratic", HFloat(l.attenuation.quadratic));
      ghost var t3 := gl.trace;
      SetUniform(gl, base + ".constant", HFloat(l.attenuation.constant));
      ghost var head := [Binding(base + ".position", HVec3(l.position)),
                         Binding(base + ".linear", HFloat(l.attenuation.linear)),
                         Binding(base + ".quadratic", HFloat(l.attenuation.quadratic)),
                         Binding(base + ".constant", HFloat(l.attenuation.constant))];
      FourUploads(gl, id, head[0], head[1], head[2], head[3], t0, t1, t2, t3, gl.trace);
      ghost var t4 := gl.trace;
      SetLightInfo(gl, base, l.info);
      LightTail(gl, id, head, LightInfoBindings(base, l.info), t0, t4, gl.trace);
    }

    /** set_uniform_struct<SpotLight>. */
    method SetSpotLight(gl: Context, base: string, l: SpotLight)
      modifies gl
      ensures gl.trace == old(gl.trace) + BindingsTrace(gl, id, SpotLightBindings(base, l))
      ensures gl.nextName == old(gl.nextName)
    {
      ghost var t0 := gl.trace;
      SetUniform(gl, base + ".position", HVec3(l.position));
      ghost var t1 := gl.trace;
      SetUniform(gl, base + ".direction", HVec3(l.direction));
      ghost var t2 := gl.trace;
      SetUniform(gl, base + ".inner_cut_off", HFloat(l.innerCutOff));
      ghost var t3 := gl.trace;
      SetUniform(gl, base + ".outer_cut_off", HFloat(l.outerCutOff));
      ghost var head := [Binding(base + ".position", HVec3(l.position)),
                         Binding(base + ".direction", HVec3(l.direction)),
                         Binding(base + ".inner_cut_off", HFloat(l.innerCutOff)),
                         Binding(base + ".outer_cut_off", HFloat(l.outerCutOff))];
      FourUploads(gl, id, head[0], head[1], head[2], head[3], t0, t1, t2, t3, gl.trace);
      ghost var t4 := gl.trace;
      SetLightInfo(gl, base, l.info);
      LightTail(gl, id, head, LightInfoBindings(base, l.info), t0, t4, gl.trace);
    }

    /** set_uniform_struct<DirectionalLight>. */
    method SetDirectionalLight(gl: Context, base: string, l: DirectionalLight)
      modifies gl
      ensures gl.trace == old(gl.trace) + BindingsTrace(gl, id, DirectionalLightBindings(base, l))
      ensures gl.nextName == old(gl.nextName)
    {
      ghost var t0 := gl.trace;
      SetUniform(gl, base + ".direction", HVec3(l.direction));
      ghost var head := [Binding(base + ".direction", HVec3(l.direction))];
      assert head[1..] == [];
      ghost var t1 := gl.trace;
      SetLightInfo(gl, base, l.info);
      LightTail(gl, id, head, LightInfoBindings(base, l.info), t0, t1, gl.trace);
    }
  }
}
