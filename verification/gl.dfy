/**
 * The graphics device as the toolkit sees it: a little global state (the
 * current program, the enabled attribute slots, the next free object name,
 * the uniform locations each linked program exposes) and the trace of every
 * call issued to it. Object names, compile and link statuses and uniform
 * locations are chosen by the driver; the model takes them as given.
 */
module Gl {
  import opened Algebra

  datatype BufferTarget = ArrayBuffer | ElementArrayBuffer

  /** The only primitive the toolkit draws with. */
  datatype Primitive = Triangles

  datatype ShaderType =
    | VertexShader | FragmentShader | GeometryShader
    | TessControlShader | TessEvaluationShader | ComputeShader

  /** The argument of one `glUniform*` call. */
  datatype UniformValue =
    | Float1(x: real)
    | Float2(x: real, y: real)
    | Float3(x: real, y: real, z: real)
    | Float4(x: real, y: real, z: real, w: real)
    | Matrix4(m: Mat4)

  /** One call into the device. */
  datatype Call =
    | GenBuffer(buffer: int)
    | BindBuffer(target: BufferTarget, buffer: int)
    | BufferData(target: BufferTarget, bytes: int)
    | GenVertexArray(array: int)
    | BindVertexArray(array: int)
    | VertexAttribPointer(slot: int, size: int)
    | EnableVertexAttribArray(slot: int)
    | DisableVertexAttribArray(slot: int)
    | DrawElements(mode: Primitive, count: int)
    | DrawArrays(mode: Primitive, first: int, count: int)
    | CreateProgram(program: int)
    | CreateShader(kind: ShaderType, shader: int)
    | ShaderSource(shader: int, source: string)
    | CompileShader(shader: int)
    | DeleteShader(shader: int)
    | AttachShader(program: int, shader: int)
    | DetachShader(program: int, shader: int)
    | BindAttribLocation(program: int, slot: int, name: string)
    | LinkProgram(program: int)
    | DeleteProgram(program: int)
    | UseProgram(program: int)
    | GetUniformLocation(program: int, name: string)
    | Uniform(location: int, value: UniformValue)
    | BindTexture(texture: int)
    | DeleteMesh(mesh: int)

  /** The device state and the trace of calls issued so far. */
  datatype Gpu = Gpu(
    program: int,
    enabled: set<int>,
    nextName: int,
    locations: map<(int, string), int>,
    calls: seq<Call>)

  /** A pixel count of a decoded bitmap: a C# `int`, and at least one pixel each way. */
  type Extent = n: int | 1 <= n <= 0x7fff_ffff witness 1

  /** A loaded texture: its object name and its size in pixels. */
  datatype Texture = Texture(id: int, width: Extent, height: Extent)

  /** The location `glGetUniformLocation` reports: -1 for an unknown name. */
  function UniformLocation(g: Gpu, program: int, name: string): int {
    if (program, name) in g.locations then g.locations[(program, name)] else -1
  }

  /** A call that changes neither the current program nor the enabled slots. */
  predicate Neutral(c: Call) {
    !c.UseProgram? && !c.EnableVertexAttribArray? && !c.DisableVertexAttribArray?
  }

  /** Issues one call: it is appended to the trace and acts on the state. */
  function Issue(g: Gpu, c: Call): (r: Gpu)
    ensures r.calls == g.calls + [c]
    ensures Neutral(c) ==> r.program == g.program && r.enabled == g.enabled
    ensures r.nextName == g.nextName && r.locations == g.locations
  {
    match c
    case UseProgram(p) => g.(program := p, calls := g.calls + [c])
    case EnableVertexAttribArray(s) => g.(enabled := g.enabled + {s}, calls := g.calls + [c])
    case DisableVertexAttribArray(s) => g.(enabled := g.enabled - {s}, calls := g.calls + [c])
    case _ => g.(calls := g.calls + [c])
  }

  /** Issues the calls in order. */
  function IssueAll(g: Gpu, cs: seq<Call>): (r: Gpu)
    ensures r.calls == g.calls + cs
    ensures r.nextName == g.nextName && r.locations == g.locations
    decreases |cs|
  {
    if cs == [] then g else IssueAll(Issue(g, cs[0]), cs[1..])
  }

  /** Neutral calls leave the current program and the enabled slots alone. */
  lemma {:induction false} IssueAllNeutral(g: Gpu, cs: seq<Call>)
    requires forall c :: c in cs ==> Neutral(c)
    ensures IssueAll(g, cs).program == g.program && IssueAll(g, cs).enabled == g.enabled
    decreases |cs|
  {
    if cs != [] {
      assert forall c :: c in cs[1..] ==> c in cs;
      IssueAllNeutral(Issue(g, cs[0]), cs[1..]);
    }
  }

  /** Issuing a concatenation is issuing its parts one after the other. */
  lemma {:induction false} IssueAllAppend(g: Gpu, a: seq<Call>, b: seq<Call>)
    ensures IssueAll(g, a + b) == IssueAll(IssueAll(g, a), b)
    decreases |a|
  {
    if a == [] {
      assert a + b == b;
    } else {
      assert (a + b)[1..] == a[1..] + b;
      IssueAllAppend(Issue(g, a[0]), a[1..], b);
    }
  }

  /** Reserves the next object name of the device. */
  function NewName(g: Gpu): (r: (int, Gpu))
    ensures r.0 == g.nextName && r.1.nextName > r.0
    ensures r.1.calls == g.calls && r.1.program == g.program && r.1.enabled == g.enabled
  {
    (g.nextName, g.(nextName := g.nextName + 1))
  }

  /** Calls that neither switch programs nor disable a slot. */
  predicate OnlyEnables(cs: seq<Call>) {
    forall c :: c in cs ==> !c.UseProgram? && !c.DisableVertexAttribArray?
  }

  /** Without program switches or disables, issuing only adds the slots it enables. */
  lemma {:induction false} IssueAllEnables(g: Gpu, cs: seq<Call>)
    requires OnlyEnables(cs)
    ensures IssueAll(g, cs).program == g.program
    ensures forall s :: s in IssueAll(g, cs).enabled <==> s in g.enabled || EnableVertexAttribArray(s) in cs
    decreases |cs|
  {
    if cs != [] {
      assert cs == [cs[0]] + cs[1..];
      assert forall c :: c in cs[1..] ==> c in cs;
      IssueAllEnables(Issue(g, cs[0]), cs[1..]);
    }
  }
}
