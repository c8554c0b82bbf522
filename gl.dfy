/**
 * An abstract stand-in for the OpenGL context that PShape and Movie talk to.
 *
 * Nothing here renders. Object names are handed out by a counter, and every
 * call the core makes is appended to a log, so that the effect of a shape or
 * movie operation on the GPU is the exact list of calls it issued.
 */
module Gl {

  /** Kinds of GL objects the core creates (glGenVertexArrays, glGenBuffers,
      glCreateShader with GL_VERTEX_SHADER / GL_FRAGMENT_SHADER, glCreateProgram). */
  datatype ObjectKind = VertexArrayObject | BufferObject | VertexShaderObject | FragmentShaderObject | ProgramObject

  /** The only primitive topology the core ever draws with. */
  datatype Topology = Triangles

  /** Texture upload formats used by Movie::read. */
  datatype PixelFormat = Rgb | Rgba

  /** One GL call. Attribute stride and offset are counted in floats
      (the source multiplies them by sizeof(GLfloat)). */
  datatype Call =
    | Create(kind: ObjectKind, name: nat)
    | Delete(kind: ObjectKind, name: nat)
    | BindVertexArray(name: nat)
    | BindArrayBuffer(name: nat)
    | BufferData(data: seq<real>)
    | ShaderSource(shader: nat)
    | CompileShader(shader: nat)
    | AttachShader(program: nat, shader: nat)
    | LinkProgram(program: nat)
    | UseProgram(program: nat)
    | VertexAttribPointer(index: nat, size: nat, stride: nat, offset: nat)
    | EnableVertexAttribArray(index: nat)
    | DrawArrays(mode: Topology, first: int, count: int)
    | TexImage2D(internalFormat: PixelFormat, width: int, height: int, format: PixelFormat, pixels: seq<bv8>)

  /** The vertex counts of the draw calls in a log, in order. */
  function DrawCounts(log: seq<Call>): seq<int>
  {
    if log == [] then []
    else DrawCounts(log[..|log| - 1]) + (if log[|log| - 1].DrawArrays? then [log[|log| - 1].count] else [])
  }

  /** Draw counts of a concatenated log are the concatenated draw counts. */
  lemma {:induction false} DrawCountsAppend(a: seq<Call>, b: seq<Call>)
    ensures DrawCounts(a + b) == DrawCounts(a) + DrawCounts(b)
    decreases |b|
  {
    if b == [] {
      assert a + b == a;
    } else {
      assert (a + b)[..|a + b| - 1] == a + b[..|b| - 1];
      DrawCountsAppend(a, b[..|b| - 1]);
    }
  }

  /** A log yields no draw count exactly when it holds no draw call. */
  lemma {:induction false} NoDrawCounts(log: seq<Call>)
    ensures DrawCounts(log) == [] <==> forall i :: 0 <= i < |log| ==> !log[i].DrawArrays?
    decreases |log|
  {
    if log != [] {
      var init := log[..|log| - 1];
      NoDrawCounts(init);
      assert forall i :: 0 <= i < |init| ==> init[i] == log[i];
    }
  }

  /** A log with exactly one draw call yields exactly that call's count. */
  lemma OneDrawCount(pre: seq<Call>, mode: Topology, first: int, count: int, post: seq<Call>)
    requires forall i :: 0 <= i < |pre| ==> !pre[i].DrawArrays?
    requires forall i :: 0 <= i < |post| ==> !post[i].DrawArrays?
    ensures DrawCounts(pre + [DrawArrays(mode, first, count)] + post) == [count]
  {
    var d := [DrawArrays(mode, first, count)];
    assert d[..|d| - 1] == [];
    NoDrawCounts(pre);
    NoDrawCounts(post);
    DrawCountsAppend(pre, d);
    DrawCountsAppend(pre + d, post);
  }

  /** The current GL context: the calls issued so far and the names handed out. */
  class Context {
    var log: seq<Call>
    var issued: nat

    constructor ()
      ensures log == [] && issued == 0
    {
      log := [];
      issued := 0;
    }

    /** Creates an object of the given kind; its name is fresh and non-zero. */
    method Create(kind: ObjectKind) returns (name: nat)
      modifies this`log, this`issued
      ensures name == old(issued) + 1 && issued == name
      ensures log == old(log) + [Call.Create(kind, name)]
    {
      issued := issued + 1;
      name := issued;
      log := log + [Call.Create(kind, name)];
    }

    /** Issues, in order, calls that create nothing. */
    method IssueAll(cs: seq<Call>)
      requires forall i :: 0 <= i < |cs| ==> !cs[i].Create?
      modifies this`log
      ensures log == old(log) + cs
    {
      log := log + cs;
    }

    /** Issues a call that creates nothing. */
    method Issue(c: Call)
      requires !c.Create?
      modifies this`log
      ensures log == old(log) + [c]
    {
      log := log + [c];
    }
  }
}
