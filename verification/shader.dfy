/**
 * A shader program: stage compilation, linking with fixed attribute slots,
 * a memoised table of uniform locations, and the logical properties whose
 * setters push their value to the program bracketed by use-program calls.
 * A failed compile or link raises an error after its clean-up calls; the
 * model returns the error together with the state those calls leave.
 */
module Shaders {
  import opened Algebra
  import opened Outcomes
  import opened Gl

  /** The attribute slots every mesh and every program agree on. */
  datatype ArrayIndex = VertexPosition | VertexColor | VertexNormal | VertexTexCoord

  /** The slot number of an attribute. */
  function Slot(a: ArrayIndex): (r: int)
    ensures 0 <= r < 4
  {
    match a
    case VertexPosition => 0
    case VertexColor => 1
    case VertexNormal => 2
    case VertexTexCoord => 3
  }

  /** Distinct attributes never share a slot. */
  lemma SlotIsInjective(a: ArrayIndex, b: ArrayIndex)
    ensures Slot(a) == Slot(b) ==> a == b
  {
  }

  /** The names under which the program's variables are looked up. */
  datatype Names = Names(
    projection: string, model: string, view: string,
    camera: string, modelview: string, mvp: string,
    position: string, color: string, normal: string, texCoord: string,
    texture: string, alpha: string, bumpMap: string)

  /** The names a new shader starts with. */
  const DefaultNames := Names(
    "projection_matrix", "model_matrix", "view_matrix",
    "camera_matrix", "modelview_matrix", "mvp_matrix",
    "vertex_position", "vertex_color", "vertex_normal", "vertex_texCoord",
    "texture_sampler", "alpha", "bump_sampler")

  /** The "no stage" value of a stage id. */
  const NoStage := -1

  datatype Shader = Shader(
    id: int,
    uniforms: map<string, int>,
    vertexShaderId: int,
    fragmentShaderId: int,
    names: Names,
    projectionMatrix: Mat4, modelMatrix: Mat4, viewMatrix: Mat4,
    cameraMatrix: Mat4, modelviewMatrix: Mat4, mvpMatrix: Mat4,
    texture: int, alpha: real, bumpMap: int)

  datatype Error =
    | Unsupported
    | CompileFailed(status: int, log: string)
    | LinkFailed(status: int, log: string)

  /** The shader and device after an operation, and the error it raised, if any. */
  datatype Step = Step(shader: Shader, gpu: Gpu, error: Option<Error>)

  // ---------------------------------------------------------------------------
  // Construction

  /**
   * `new Shader()`: refused when the device has no shader support; otherwise a
   * program is created and every variable takes its default.
   */
  function New(g: Gpu, supported: bool): (r: Result<(Shader, Gpu), Error>)
    ensures !supported <==> r == Failure(Unsupported)
    ensures r.Success? ==>
      var (s, h) := r.value;
      && s.id == g.nextName && h.calls == g.calls + [CreateProgram(s.id)]
      && h.program == g.program && h.enabled == g.enabled
      && s.uniforms == map[]
      && s.vertexShaderId == NoStage && s.fragmentShaderId == NoStage
      && s.names == DefaultNames
      && s.projectionMatrix == Identity && s.modelMatrix == Identity && s.viewMatrix == Identity
      && s.cameraMatrix == Identity && s.mvpMatrix == Identity
      && s.modelviewMatrix == ZeroMatrix
      && s.texture == -1 && s.alpha == 1.0 && s.bumpMap == -1
  {
    if !supported then Failure(Unsupported)
    else
      var (id, g1) := NewName(g);
      var s := Shader(id, map[], NoStage, NoStage, DefaultNames,
                      Identity, Identity, Identity, Identity, ZeroMatrix, Identity,
                      -1, 1.0, -1);
      Success((s, Issue(g1, CreateProgram(id))))
  }

  // ---------------------------------------------------------------------------
  // Stages

  /**
   * `AddShader`: creates, sources and compiles a stage. `status` and `log` are
   * what the driver reports for the compile. On failure the stage is deleted
   * and the stored ids are untouched; on success the id is kept for a vertex
   * or fragment stage and dropped for any other kind.
   */
  function AddShader(s: Shader, g: Gpu, kind: ShaderType, source: string, status: int, log: string): (r: Step)
    ensures r.gpu.nextName == g.nextName + 1
    ensures var stage := g.nextName;
      && |r.gpu.calls| >= |g.calls| + 3
      && r.gpu.calls[..|g.calls| + 3] == g.calls + [CreateShader(kind, stage), ShaderSource(stage, source), CompileShader(stage)]
      && r.gpu.program == g.program && r.gpu.enabled == g.enabled
      && r.shader.(vertexShaderId := s.vertexShaderId, fragmentShaderId := s.fragmentShaderId) == s
      && (status != 1 ==>
            && r.error == Some(CompileFailed(status, log))
            && r.shader == s
            && r.gpu.calls[|g.calls| + 3..] == [DeleteShader(stage)])
      && (status == 1 ==>
            && r.error == None
            && r.gpu.calls[|g.calls| + 3..] == []
            && r.shader.vertexShaderId == (if kind == VertexShader then stage else s.vertexShaderId)
            && r.shader.fragmentShaderId == (if kind == FragmentShader then stage else s.fragmentShaderId))
  {
    var (stage, g1) := NewName(g);
    var g2 := IssueAll(g1, [CreateShader(kind, stage), ShaderSource(stage, source), CompileShader(stage)]);
    IssueAllNeutral(g1, [CreateShader(kind, stage), ShaderSource(stage, source), CompileShader(stage)]);
    if status != 1 then
      Step(s, Issue(g2, DeleteShader(stage)), Some(CompileFailed(status, log)))
    else if kind == FragmentShader then
      Step(s.(fragmentShaderId := stage), g2, None)
    else if kind == VertexShader then
      Step(s.(vertexShaderId := stage), g2, None)
    else
      Step(s, g2, None)
  }

  /** The stage ids a shader currently holds. */
  function Stages(s: Shader): (r: set<int>)
    ensures forall x :: x in r <==> x != NoStage && (x == s.vertexShaderId || x == s.fragmentShaderId)
  {
    (if s.vertexShaderId != NoStage then {s.vertexShaderId} else {})
    + (if s.fragmentShaderId != NoStage then {s.fragmentShaderId} else {})
  }

  /** Attaches the held stages, vertex first. */
  function AttachCalls(s: Shader): (cs: seq<Call>)
    ensures forall c :: c in cs ==> c.AttachShader? && c.program == s.id
    ensures forall x :: AttachShader(s.id, x) in cs <==> x in Stages(s)
  {
    (if s.vertexShaderId != NoStage then [AttachShader(s.id, s.vertexShaderId)] else [])
    + (if s.fragmentShaderId != NoStage then [AttachShader(s.id, s.fragmentShaderId)] else [])
  }

  /** Binds the four vertex attribute names of the shader to their slots. */
  function BindAttributeCalls(s: Shader): (cs: seq<Call>)
    ensures forall c :: c in cs ==> c.BindAttribLocation? && c.program == s.id
    ensures forall k, n :: BindAttribLocation(s.id, k, n) in cs <==>
      || (k == Slot(VertexPosition) && n == s.names.position)
      || (k == Slot(VertexColor) && n == s.names.color)
      || (k == Slot(VertexNormal) && n == s.names.normal)
      || (k == Slot(VertexTexCoord) && n == s.names.texCoord)
  {
    [ BindAttribLocation(s.id, Slot(VertexPosition), s.names.position),
      BindAttribLocation(s.id, Slot(VertexColor), s.names.color),
      BindAttribLocation(s.id, Slot(VertexNormal), s.names.normal),
      BindAttribLocation(s.id, Slot(VertexTexCoord), s.names.texCoord) ]
  }

  /** Detaches and deletes the held stages, vertex first. */
  function ReleaseCalls(s: Shader): (cs: seq<Call>)
    ensures forall c :: c in cs ==> (c.DetachShader? && c.program == s.id) || c.DeleteShader?
    ensures forall c :: c in cs ==> Neutral(c)
    ensures forall x :: DetachShader(s.id, x) in cs <==> x in Stages(s)
    ensures forall x :: DeleteShader(x) in cs <==> x in Stages(s)
  {
    (if s.vertexShaderId != NoStage then [DetachShader(s.id, s.vertexShaderId), DeleteShader(s.vertexShaderId)] else [])
    + (if s.fragmentShaderId != NoStage then [DetachShader(s.id, s.fragmentShaderId), DeleteShader(s.fragmentShaderId)] else [])
  }

  /** The calls `Link` issues up to and including the link itself. */
  function LinkCalls(s: Shader): (cs: seq<Call>)
    ensures |cs| > 0 && cs[|cs| - 1] == LinkProgram(s.id)
    ensures forall c :: c in cs ==> Neutral(c)
  {
    AttachCalls(s) + BindAttributeCalls(s) + [LinkProgram(s.id)]
  }

  /**
   * `Link`: attaches the held stages, binds the attribute names to their
   * slots and links; `status` and `log` are what the driver reports. A failed
   * link deletes the program and keeps the stage ids; a successful one
   * detaches and deletes the stages and clears both ids.
   */
  function Link(s: Shader, g: Gpu, status: int, log: string): (r: Step)
    ensures r.gpu.program == g.program && r.gpu.enabled == g.enabled
    ensures r.shader.(vertexShaderId := s.vertexShaderId, fragmentShaderId := s.fragmentShaderId) == s
    ensures status != 1 ==>
      && r.error == Some(LinkFailed(status, log))
      && r.shader == s
      && r.gpu.calls == g.calls + LinkCalls(s) + [DeleteProgram(s.id)]
    ensures status == 1 ==>
      && r.error == None
      && r.shader.vertexShaderId == NoStage && r.shader.fragmentShaderId == NoStage
      && r.gpu.calls == g.calls + LinkCalls(s) + ReleaseCalls(s)
  {
    var g1 := IssueAll(g, LinkCalls(s));
    IssueAllNeutral(g, LinkCalls(s));
    IssueAllNeutral(g1, ReleaseCalls(s));
    if status != 1 then
      Step(s, Issue(g1, DeleteProgram(s.id)), Some(LinkFailed(status, log)))
    else
      Step(s.(vertexShaderId := NoStage, fragmentShaderId := NoStage), IssueAll(g1, ReleaseCalls(s)), None)
  }

  /** `Activate`: the program becomes current. */
  function Activate(s: Shader, g: Gpu): (r: Gpu)
    ensures r.program == s.id && r.enabled == g.enabled && r.calls == g.calls + [UseProgram(s.id)]
  {
    Issue(g, UseProgram(s.id))
  }

  /** `Deactivate`: no program is current. */
  function Deactivate(g: Gpu): (r: Gpu)
    ensures r.program == 0 && r.enabled == g.enabled && r.calls == g.calls + [UseProgram(0)]
  {
    Issue(g, UseProgram(0))
  }

  /** `Dispose`: the program is deleted. */
  function Dispose(s: Shader, g: Gpu): (r: Gpu)
    ensures r.program == g.program && r.calls == g.calls + [DeleteProgram(s.id)]
  {
    Issue(g, DeleteProgram(s.id))
  }

  // ---------------------------------------------------------------------------
  // Uniform locations

  /** A location lookup: the location, and the shader and device after it. */
  datatype Lookup = Lookup(location: int, shader: Shader, gpu: Gpu)

  /**
   * `GetVariableLocation`: a cached name is answered without a device call;
   * otherwise the device is asked, and the answer is cached only when it is
   * not -1.
   */
  function GetVariableLocation(s: Shader, g: Gpu, name: string): (r: Lookup)
    ensures r.shader.(uniforms := s.uniforms) == s
    ensures r.gpu.program == g.program && r.gpu.enabled == g.enabled && r.gpu.locations == g.locations
    ensures forall n :: n in s.uniforms ==> n in r.shader.uniforms && r.shader.uniforms[n] == s.uniforms[n]
    ensures name in s.uniforms ==> r.location == s.uniforms[name] && r.shader == s && r.gpu == g
    ensures name !in s.uniforms ==>
      && r.location == UniformLocation(g, s.id, name)
      && r.gpu.calls == g.calls + [GetUniformLocation(s.id, name)]
      && (r.location != -1 <==> name in r.shader.uniforms)
      && r.shader.uniforms.Keys <= s.uniforms.Keys + {name}
      && (name in r.shader.uniforms ==> r.shader.uniforms[name] == r.location)
  {
    if name in s.uniforms then Lookup(s.uniforms[name], s, g)
    else
      var location := UniformLocation(g, s.id, name);
      var g1 := Issue(g, GetUniformLocation(s.id, name));
      if location != -1 then Lookup(location, s.(uniforms := s.uniforms[name := location]), g1)
      else Lookup(location, s, g1)
  }

  /** Every cached location is the one the device reports for the program, and none is -1. */
  ghost predicate CacheAgrees(s: Shader, g: Gpu) {
    forall n :: n in s.uniforms ==> s.uniforms[n] != -1 && s.uniforms[n] == UniformLocation(g, s.id, n)
  }

  /** The cache is transparent: a lookup answers what the device would, and keeps the cache faithful. */
  lemma LookupIsMemoised(s: Shader, g: Gpu, name: string)
    requires CacheAgrees(s, g)
    ensures GetVariableLocation(s, g, name).location == UniformLocation(g, s.id, name)
    ensures CacheAgrees(GetVariableLocation(s, g, name).shader, GetVariableLocation(s, g, name).gpu)
  {
  }

  /** A name the program does not expose is asked for again on every lookup. */
  lemma MissIsQueriedAgain(s: Shader, g: Gpu, name: string)
    requires name !in s.uniforms && UniformLocation(g, s.id, name) == -1
    ensures var first := GetVariableLocation(s, g, name);
      var second := GetVariableLocation(first.shader, first.gpu, name);
      && second.location == -1
      && second.gpu.calls == g.calls + [GetUniformLocation(s.id, name), GetUniformLocation(s.id, name)]
  {
  }

  // ---------------------------------------------------------------------------
  // Writing variables

  /** The device query a lookup issues: none for a cached name. */
  function QueryCalls(s: Shader, name: string): (cs: seq<Call>)
    ensures forall c :: c in cs ==> c == GetUniformLocation(s.id, name)
    ensures cs == [] <==> name in s.uniforms
  {
    if name in s.uniforms then [] else [GetUniformLocation(s.id, name)]
  }

  /** The write of a value to a location: none for location -1. */
  function WriteCalls(location: int, value: UniformValue): (cs: seq<Call>)
    ensures forall c :: c in cs <==> location != -1 && c == Uniform(location, value)
  {
    if location != -1 then [Uniform(location, value)] else []
  }

  /**
   * `SetVariable`: makes the program current, looks the name up, writes the
   * value when the location is not -1, and makes program 0 current.
   */
  function SetVariable(s: Shader, g: Gpu, name: string, value: UniformValue): (r: (Shader, Gpu))
    ensures r.0.(uniforms := s.uniforms) == s
    ensures r.0 == GetVariableLocation(s, g, name).shader
    ensures r.1.program == 0 && r.1.enabled == g.enabled
    ensures r.1.calls == g.calls + [UseProgram(s.id)] + QueryCalls(s, name)
      + WriteCalls(GetVariableLocation(s, g, name).location, value) + [UseProgram(0)]
  {
    var g1 := Issue(g, UseProgram(s.id));
    var lookup := GetVariableLocation(s, g1, name);
    var g2 := IssueAll(lookup.gpu, WriteCalls(lookup.location, value));
    IssueAllNeutral(lookup.gpu, WriteCalls(lookup.location, value));
    (lookup.shader, Issue(g2, UseProgram(0)))
  }

  /**
   * Every write is bracketed: the program is made current first and program 0
   * last, and the only uniform write in between is of the value to the
   * looked-up location, present exactly when that location is not -1.
   */
  lemma SetVariableIsBracketed(s: Shader, g: Gpu, name: string, value: UniformValue)
    ensures var r := SetVariable(s, g, name, value).1;
      var loc := GetVariableLocation(s, g, name).location;
      && |r.calls| >= |g.calls| + 2
      && r.calls[|g.calls|] == UseProgram(s.id)
      && r.calls[|r.calls| - 1] == UseProgram(0)
      && r.program == 0
      && forall c :: c in r.calls[|g.calls|..] && c.Uniform? <==> loc != -1 && c == Uniform(loc, value)
  {
    var r := SetVariable(s, g, name, value).1;
    var loc := GetVariableLocation(s, g, name).location;
    var q := QueryCalls(s, name);
    var w := WriteCalls(loc, value);
    assert r.calls[|g.calls|..] == [UseProgram(s.id)] + q + w + [UseProgram(0)];
  }

  /** The value `SetVariable(Color)` writes: each byte divided by 255 in integers. */
  function ColorUniform(c: Color): (r: UniformValue)
    ensures r.Float4?
  {
    Float4((c.r / 255) as real, (c.g / 255) as real, (c.b / 255) as real, (c.a / 255) as real)
  }

  /** A colour component reaches the program as 1 exactly when its byte is 255, and as 0 otherwise. */
  lemma ColorUniformIsAllOrNothing(c: Color)
    ensures var u := ColorUniform(c);
      && (u.x == 1.0 <==> c.r == 255) && (u.x == 0.0 <==> c.r != 255)
      && (u.y == 1.0 <==> c.g == 255) && (u.y == 0.0 <==> c.g != 255)
      && (u.z == 1.0 <==> c.b == 255) && (u.z == 0.0 <==> c.b != 255)
      && (u.w == 1.0 <==> c.a == 255) && (u.w == 0.0 <==> c.a != 255)
  {
  }

  // ---------------------------------------------------------------------------
  // Properties

  /** The properties whose setters push their value to the program. */
  datatype Property =
    | ProjectionMatrix | ViewMatrix | ModelMatrix
    | CameraMatrix | ModelviewMatrix | TransformationMatrix
    | TextureUnit | Alpha | BumpMap

  /** A property value: a matrix, an integer or a float, by the property's type. */
  datatype Value = MatrixValue(m: Mat4) | IntValue(i: int) | FloatValue(f: real)

  /** The value has the property's declared type. */
  predicate Fits(p: Property, v: Value) {
    match p
    case TextureUnit => v.IntValue?
    case BumpMap => v.IntValue?
    case Alpha => v.FloatValue?
    case _ => v.MatrixValue?
  }

  /** The getter of a property. */
  function Get(s: Shader, p: Property): (v: Value)
    ensures Fits(p, v)
  {
    match p
    case ProjectionMatrix => MatrixValue(s.projectionMatrix)
    case ViewMatrix => MatrixValue(s.viewMatrix)
    case ModelMatrix => MatrixValue(s.modelMatrix)
    case CameraMatrix => MatrixValue(s.cameraMatrix)
    case ModelviewMatrix => MatrixValue(s.modelviewMatrix)
    case TransformationMatrix => MatrixValue(s.mvpMatrix)
    case TextureUnit => IntValue(s.texture)
    case Alpha => FloatValue(s.alpha)
    case BumpMap => IntValue(s.bumpMap)
  }

  /** The variable name a property is written under. */
  function NameOf(n: Names, p: Property): string {
    match p
    case ProjectionMatrix => n.projection
    case ViewMatrix => n.view
    case ModelMatrix => n.model
    case CameraMatrix => n.camera
    case ModelviewMatrix => n.modelview
    case TransformationMatrix => n.mvp
    case TextureUnit => n.texture
    case Alpha => n.alpha
    case BumpMap => n.bumpMap
  }

  /**
   * The uniform written for a value: a matrix as a matrix, a float as one
   * float, and an integer converted to one float (no integer overload exists).
   */
  function UniformOf(v: Value): UniformValue {
    match v
    case MatrixValue(m) => Matrix4(m)
    case IntValue(i) => Float1(i as real)
    case FloatValue(f) => Float1(f)
  }

  /** Stores a value in the property's field. */
  function Store(s: Shader, p: Property, v: Value): (r: Shader)
    requires Fits(p, v)
    ensures Get(r, p) == v
    ensures forall q :: q != p ==> Get(r, q) == Get(s, q)
    ensures r.id == s.id && r.uniforms == s.uniforms && r.names == s.names
    ensures r.vertexShaderId == s.vertexShaderId && r.fragmentShaderId == s.fragmentShaderId
  {
    match p
    case ProjectionMatrix => s.(projectionMatrix := v.m)
    case ViewMatrix => s.(viewMatrix := v.m)
    case ModelMatrix => s.(modelMatrix := v.m)
    case CameraMatrix => s.(cameraMatrix := v.m)
    case ModelviewMatrix => s.(modelviewMatrix := v.m)
    case TransformationMatrix => s.(mvpMatrix := v.m)
    case TextureUnit => s.(texture := v.i)
    case Alpha => s.(alpha := v.f)
    case BumpMap => s.(bumpMap := v.i)
  }

  /** A property setter: the value is stored, then written under the property's name. */
  function SetProperty(s: Shader, g: Gpu, p: Property, v: Value): (r: (Shader, Gpu))
    requires Fits(p, v)
  {
    SetVariable(Store(s, p, v), g, NameOf(s.names, p), UniformOf(v))
  }

  /** The getters do not read the location cache. */
  lemma GetIgnoresCache(s: Shader, uniforms: map<string, int>, p: Property)
    ensures Get(s.(uniforms := uniforms), p) == Get(s, p)
  {
  }

  /**
   * A setter stores its value whatever the location; other properties keep
   * theirs; the device sees the value only when the location is not -1, and
   * program 0 is current afterwards.
   */
  lemma SetPropertyStores(s: Shader, g: Gpu, p: Property, v: Value)
    requires Fits(p, v)
    ensures var r := SetProperty(s, g, p, v);
      && Get(r.0, p) == v
      && (forall q :: q != p ==> Get(r.0, q) == Get(s, q))
      && r.0.id == s.id && r.0.names == s.names
      && r.1.program == 0
      && var loc := GetVariableLocation(s, g, NameOf(s.names, p)).location;
         forall c :: c in r.1.calls[|g.calls|..] && c.Uniform? <==> loc != -1 && c == Uniform(loc, UniformOf(v))
  {
    var t := Store(s, p, v);
    var r := SetProperty(s, g, p, v);
    assert r == SetVariable(t, g, NameOf(s.names, p), UniformOf(v));
    GetIgnoresCache(t, r.0.uniforms, p);
    forall q | q != p ensures Get(r.0, q) == Get(s, q) {
      GetIgnoresCache(t, r.0.uniforms, q);
    }
    assert GetVariableLocation(t, g, NameOf(s.names, p)).location == GetVariableLocation(s, g, NameOf(s.names, p)).location;
    SetVariableIsBracketed(t, g, NameOf(s.names, p), UniformOf(v));
  }

  /** Of the calls up to the link, the attribute bindings are exactly the four of the shader's names. */
  lemma LinkCallsBindings(s: Shader)
    ensures forall k, n :: BindAttribLocation(s.id, k, n) in LinkCalls(s) <==>
      || (k == 0 && n == s.names.position)
      || (k == 1 && n == s.names.color)
      || (k == 2 && n == s.names.normal)
      || (k == 3 && n == s.names.texCoord)
  {
    var b := BindAttributeCalls(s);
    assert LinkCalls(s) == AttachCalls(s) + b + [LinkProgram(s.id)];
    forall k, n ensures BindAttribLocation(s.id, k, n) in LinkCalls(s) <==> BindAttribLocation(s.id, k, n) in b {
      assert BindAttribLocation(s.id, k, n) !in AttachCalls(s);
    }
  }

  /** The calls a link issues after the link itself: the program's deletion or the stages' release. */
  function LinkTail(s: Shader, status: int): (cs: seq<Call>)
    ensures forall k, n :: BindAttribLocation(s.id, k, n) !in cs
  {
    if status != 1 then [DeleteProgram(s.id)] else ReleaseCalls(s)
  }

  /** A link issues the calls up to the link, then its tail, and nothing else. */
  lemma LinkIssues(s: Shader, g: Gpu, status: int, log: string)
    ensures Link(s, g, status, log).gpu.calls[|g.calls|..] == LinkCalls(s) + LinkTail(s, status)
  {
    var calls := Link(s, g, status, log).gpu.calls;
    assert calls == g.calls + (LinkCalls(s) + LinkTail(s, status));
  }

  /** The `vertex_*` names are bound to slots 0 to 3 by a link, whatever its outcome. */
  lemma LinkBindsAttributeSlots(s: Shader, g: Gpu, status: int, log: string)
    ensures var issued := Link(s, g, status, log).gpu.calls[|g.calls|..];
      forall k, n :: BindAttribLocation(s.id, k, n) in issued <==>
        || (k == 0 && n == s.names.position)
        || (k == 1 && n == s.names.color)
        || (k == 2 && n == s.names.normal)
        || (k == 3 && n == s.names.texCoord)
  {
    LinkIssues(s, g, status, log);
    LinkCallsBindings(s);
  }

  /**
   * The usual life of a program: a vertex and a fragment stage compile, the
   * link succeeds; both stages are attached, then detached and deleted, and no
   * stage id remains.
   */
  lemma CompileAndLinkReleasesStages(s: Shader, g: Gpu, vs: string, fs: string, log: string)
    requires s.vertexShaderId == NoStage && s.fragmentShaderId == NoStage
    requires g.nextName > 0
    ensures var a := AddShader(s, g, VertexShader, vs, 1, log);
      var b := AddShader(a.shader, a.gpu, FragmentShader, fs, 1, log);
      var l := Link(b.shader, b.gpu, 1, log);
      var v := g.nextName;
      var f := a.gpu.nextName;
      && a.error == None && b.error == None && l.error == None
      && b.shader.vertexShaderId == v && b.shader.fragmentShaderId == f
      && AttachShader(s.id, v) in l.gpu.calls && AttachShader(s.id, f) in l.gpu.calls
      && DeleteShader(v) in l.gpu.calls && DeleteShader(f) in l.gpu.calls
      && l.shader.vertexShaderId == NoStage && l.shader.fragmentShaderId == NoStage
  {
    var a := AddShader(s, g, VertexShader, vs, 1, log);
    var b := AddShader(a.shader, a.gpu, FragmentShader, fs, 1, log);
    var l := Link(b.shader, b.gpu, 1, log);
    assert a.shader.vertexShaderId == g.nextName && a.shader.fragmentShaderId == NoStage;
    assert b.shader.vertexShaderId == g.nextName && b.shader.fragmentShaderId == a.gpu.nextName;
    var at := AttachCalls(b.shader);
    var rel := ReleaseCalls(b.shader);
    assert l.gpu.calls == b.gpu.calls + (at + BindAttributeCalls(b.shader) + [LinkProgram(s.id)]) + rel;
    assert AttachShader(s.id, g.nextName) in at;
    assert AttachShader(s.id, a.gpu.nextName) in at;
    assert DeleteShader(g.nextName) in rel;
    assert DeleteShader(a.gpu.nextName) in rel;
  }
}
