/**
 * The retained shape recorder (PShape): vertices are recorded between
 * beginShape and endShape, endShape uploads them and builds the shader
 * program, draw replays them as triangles, release deletes the GL objects.
 */
module Shape {
  import Gl

  /** Floats per recorded vertex: position x, y, z and colour r, g, b. */
  const FLOATS_PER_VERTEX: nat := 6

  /** GL calls that create the vertex array and buffer and upload `data`. */
  function UploadCalls(data: seq<real>, va: nat, vb: nat): seq<Gl.Call>
  {
    [ Gl.Create(Gl.VertexArrayObject, va), Gl.Create(Gl.BufferObject, vb),
      Gl.BindVertexArray(va), Gl.BindArrayBuffer(vb), Gl.BufferData(data) ]
  }

  /** GL calls that create and compile one shader. */
  function CompileCalls(kind: Gl.ObjectKind, shader: nat): seq<Gl.Call>
  {
    [ Gl.Create(kind, shader), Gl.ShaderSource(shader), Gl.CompileShader(shader) ]
  }

  /** GL calls that link the program and lay out attribute 0 (position, 3 floats
      at offset 0) and attribute 1 (colour, 3 floats at offset 3), both with a
      stride of 6 floats, then unbind the vertex array. */
  function LinkCalls(program: nat, vs: nat, fs: nat): seq<Gl.Call>
  {
    [ Gl.Create(Gl.ProgramObject, program), Gl.AttachShader(program, vs), Gl.AttachShader(program, fs),
      Gl.LinkProgram(program), Gl.UseProgram(program),
      Gl.VertexAttribPointer(0, 3, FLOATS_PER_VERTEX, 0), Gl.EnableVertexAttribArray(0),
      Gl.VertexAttribPointer(1, 3, FLOATS_PER_VERTEX, 3), Gl.EnableVertexAttribArray(1),
      Gl.BindVertexArray(0) ]
  }

  /** Creates the vertex array and buffer, binds them and uploads `data`. */
  method UploadVertices(gl: Gl.Context, data: seq<real>) returns (va: nat, vb: nat)
    modifies gl
    ensures va == old(gl.issued) + 1 && vb == old(gl.issued) + 2 && gl.issued == old(gl.issued) + 2
    ensures gl.log == old(gl.log) + UploadCalls(data, va, vb)
  {
    va := gl.Create(Gl.VertexArrayObject);
    vb := gl.Create(Gl.BufferObject);
    gl.IssueAll([Gl.BindVertexArray(va), Gl.BindArrayBuffer(vb), Gl.BufferData(data)]);
  }

  /** Creates and compiles one shader from its (fixed) source. */
  method CompileShader(gl: Gl.Context, kind: Gl.ObjectKind) returns (shader: nat)
    requires kind == Gl.VertexShaderObject || kind == Gl.FragmentShaderObject
    modifies gl
    ensures shader == old(gl.issued) + 1 && gl.issued == shader
    ensures gl.log == old(gl.log) + CompileCalls(kind, shader)
  {
    shader := gl.Create(kind);
    gl.IssueAll([Gl.ShaderSource(shader), Gl.CompileShader(shader)]);
  }

  /** Creates and links the program, makes it current and lays out the attributes. */
  method LinkProgram(gl: Gl.Context, vs: nat, fs: nat) returns (program: nat)
    modifies gl
    ensures program == old(gl.issued) + 1 && gl.issued == program
    ensures gl.log == old(gl.log) + LinkCalls(program, vs, fs)
  {
    program := gl.Create(Gl.ProgramObject);
    gl.IssueAll([
      Gl.AttachShader(program, vs), Gl.AttachShader(program, fs),
      Gl.LinkProgram(program), Gl.UseProgram(program),
      Gl.VertexAttribPointer(0, 3, FLOATS_PER_VERTEX, 0), Gl.EnableVertexAttribArray(0),
      Gl.VertexAttribPointer(1, 3, FLOATS_PER_VERTEX, 3), Gl.EnableVertexAttribArray(1),
      Gl.BindVertexArray(0)]);
  }

  class PShape {
    var isRecording: bool
    var fShape: int
    var vertices: seq<real>
    var fVerticesSize: int
    var vertexArray: nat
    var vertexBuffer: nat
    var vertexShader: nat
    var fragmentShader: nat
    var shaderProgram: nat
    /** vertex() calls accepted since the last endShape (or construction). */
    ghost var pending: nat

    /** The pending buffer holds whole vertices, and the captured size is a
        whole number of vertices. */
    ghost predicate Valid()
      reads this
    {
      && |vertices| == FLOATS_PER_VERTEX * pending
      && fVerticesSize >= 0
      && fVerticesSize % FLOATS_PER_VERTEX == 0
    }

    constructor ()
      ensures Valid()
      ensures !isRecording && fShape == 0 && vertices == [] && pending == 0 && fVerticesSize == 0
      ensures vertexArray == 0 && vertexBuffer == 0 && vertexShader == 0 && fragmentShader == 0 && shaderProgram == 0
    {
      isRecording := false;
      fShape := 0;
      vertices := [];
      pending := 0;
      fVerticesSize := 0;
      vertexArray, vertexBuffer, vertexShader, fragmentShader, shaderProgram := 0, 0, 0, 0, 0;
    }

    /** Starts recording and stores the mode; pending vertices are kept. */
    method BeginShape(shape: int)
      requires Valid()
      modifies this`isRecording, this`fShape
      ensures Valid()
      ensures isRecording && fShape == shape
      ensures vertices == old(vertices) && pending == old(pending) && fVerticesSize == old(fVerticesSize)
    {
      isRecording := true;
      fShape := shape;
    }

    /** Appends one vertex while recording; a stray call changes nothing. */
    method Vertex(x: real, y: real, z: real, r: real, g: real, b: real)
      requires Valid()
      modifies this`vertices, this`pending
      ensures Valid()
      ensures !isRecording ==> vertices == old(vertices) && pending == old(pending)
      ensures isRecording ==> vertices == old(vertices) + [x, y, z, r, g, b] && pending == old(pending) + 1
    {
      if !isRecording {
        return;
      }
      vertices := vertices + [x];
      vertices := vertices + [y];
      vertices := vertices + [z];
      vertices := vertices + [r];
      vertices := vertices + [g];
      vertices := vertices + [b];
      pending := pending + 1;
    }

    /** Stops recording, uploads the pending vertices into five new GL objects,
        captures the float count and empties the pending buffer. */
    method EndShape(gl: Gl.Context)
      requires Valid()
      modifies this`isRecording, this`vertices, this`pending, this`fVerticesSize
      modifies this`vertexArray, this`vertexBuffer, this`vertexShader, this`fragmentShader, this`shaderProgram
      modifies gl
      ensures Valid()
      ensures !isRecording && fShape == old(fShape)
      ensures fVerticesSize == |old(vertices)| && fVerticesSize / FLOATS_PER_VERTEX == old(pending)
      ensures vertices == [] && pending == 0
      ensures vertexArray == old(gl.issued) + 1 && vertexBuffer == old(gl.issued) + 2
      ensures vertexShader == old(gl.issued) + 3 && fragmentShader == old(gl.issued) + 4
      ensures shaderProgram == old(gl.issued) + 5 && gl.issued == old(gl.issued) + 5
      ensures gl.log == old(gl.log) + UploadCalls(old(vertices), vertexArray, vertexBuffer)
        + CompileCalls(Gl.VertexShaderObject, vertexShader) + CompileCalls(Gl.FragmentShaderObject, fragmentShader)
        + LinkCalls(shaderProgram, vertexShader, fragmentShader)
    {
      assert |vertices| / FLOATS_PER_VERTEX == pending;
      isRecording := false;
      vertexArray, vertexBuffer := UploadVertices(gl, vertices);
      vertexShader := CompileShader(gl, Gl.VertexShaderObject);
      fragmentShader := CompileShader(gl, Gl.FragmentShaderObject);
      shaderProgram := LinkProgram(gl, vertexShader, fragmentShader);
      fVerticesSize := |vertices|;
      vertices := [];
      pending := 0;
    }

    /** Deletes the five GL objects last stored in the handle fields. */
    method Release(gl: Gl.Context)
      modifies gl
      ensures gl.issued == old(gl.issued)
      ensures gl.log == old(gl.log) + [
        Gl.Delete(Gl.VertexArrayObject, vertexArray), Gl.Delete(Gl.BufferObject, vertexBuffer),
        Gl.Delete(Gl.ProgramObject, shaderProgram), Gl.Delete(Gl.VertexShaderObject, vertexShader),
        Gl.Delete(Gl.FragmentShaderObject, fragmentShader)]
    {
      gl.Issue(Gl.Delete(Gl.VertexArrayObject, vertexArray));
      gl.Issue(Gl.Delete(Gl.BufferObject, vertexBuffer));
      gl.Issue(Gl.Delete(Gl.ProgramObject, shaderProgram));
      gl.Issue(Gl.Delete(Gl.VertexShaderObject, vertexShader));
      gl.Issue(Gl.Delete(Gl.FragmentShaderObject, fragmentShader));
    }

    /** Issues one triangle draw of fVerticesSize / 6 vertices with the stored
        program and vertex array, whatever fShape holds; the shape is not changed. */
    method Draw(gl: Gl.Context)
      modifies gl
      ensures gl.issued == old(gl.issued)
      ensures gl.log == old(gl.log) + [
        Gl.UseProgram(shaderProgram), Gl.BindVertexArray(vertexArray),
        Gl.DrawArrays(Gl.Triangles, 0, fVerticesSize / FLOATS_PER_VERTEX), Gl.BindVertexArray(0)]
    {
      gl.Issue(Gl.UseProgram(shaderProgram));
      gl.Issue(Gl.BindVertexArray(vertexArray));
      gl.Issue(Gl.DrawArrays(Gl.Triangles, 0, fVerticesSize / FLOATS_PER_VERTEX));
      gl.Issue(Gl.BindVertexArray(0));
    }
  }

  /** A call a sketch makes on a shape. */
  datatype Op =
    | BeginShape(shape: int)
    | Vertex(x: real, y: real, z: real, r: real, g: real, b: real)
    | EndShape
    | Draw
    | Release

  /** Reference semantics of a call trace, counted in vertices.
      Whether the shape is recording after `ops`. */
  function Recording(ops: seq<Op>): bool
  {
    if ops == [] then false
    else
      match ops[|ops| - 1]
      case BeginShape(_) => true
      case EndShape => false
      case _ => Recording(ops[..|ops| - 1])
  }

  /** vertex() calls made while recording since the last EndShape. BeginShape
      does not reset the count. */
  function Pending(ops: seq<Op>): nat
  {
    if ops == [] then 0
    else
      var before := ops[..|ops| - 1];
      match ops[|ops| - 1]
      case Vertex(_, _, _, _, _, _) => Pending(before) + (if Recording(before) then 1 else 0)
      case EndShape => 0
      case _ => Pending(before)
  }

  /** The vertex count captured by the last EndShape (0 before any). */
  function Finalized(ops: seq<Op>): nat
  {
    if ops == [] then 0
    else
      var before := ops[..|ops| - 1];
      if ops[|ops| - 1].EndShape? then Pending(before) else Finalized(before)
  }

  /** The vertex count each Draw of the trace hands to the GPU. */
  function Draws(ops: seq<Op>): seq<int>
  {
    if ops == [] then []
    else
      var before := ops[..|ops| - 1];
      Draws(before) + (if ops[|ops| - 1].Draw? then [Finalized(before)] else [])
  }

  predicate AllVertices(ops: seq<Op>)
  {
    forall i :: 0 <= i < |ops| ==> ops[i].Vertex?
  }

  /** One more call, in terms of the trace before it. */
  lemma Extend(ops: seq<Op>, op: Op)
    ensures Recording(ops + [op]) == if op.BeginShape? then true else if op.EndShape? then false else Recording(ops)
    ensures Pending(ops + [op]) ==
      if op.Vertex? then Pending(ops) + (if Recording(ops) then 1 else 0)
      else if op.EndShape? then 0
      else Pending(ops)
    ensures Finalized(ops + [op]) == if op.EndShape? then Pending(ops) else Finalized(ops)
    ensures Draws(ops + [op]) == Draws(ops) + (if op.Draw? then [Finalized(ops)] else [])
  {
    assert (ops + [op])[..|ops|] == ops;
  }

  /** While recording, every vertex() call adds exactly one pending vertex. */
  lemma {:induction false} RecordingRun(pre: seq<Op>, vs: seq<Op>)
    requires Recording(pre) && AllVertices(vs)
    ensures Recording(pre + vs) && Pending(pre + vs) == Pending(pre) + |vs|
    decreases |vs|
  {
    if vs == [] {
      assert pre + vs == pre;
    } else {
      var init := vs[..|vs| - 1];
      assert pre + vs == (pre + init) + [vs[|vs| - 1]];
      RecordingRun(pre, init);
      Extend(pre + init, vs[|vs| - 1]);
    }
  }

  /** Outside a recording block, vertex() calls change nothing. */
  lemma {:induction false} StrayVerticesIgnored(pre: seq<Op>, vs: seq<Op>)
    requires !Recording(pre) && AllVertices(vs)
    ensures !Recording(pre + vs) && Pending(pre + vs) == Pending(pre) && Finalized(pre + vs) == Finalized(pre)
    decreases |vs|
  {
    if vs == [] {
      assert pre + vs == pre;
    } else {
      var init := vs[..|vs| - 1];
      assert pre + vs == (pre + init) + [vs[|vs| - 1]];
      StrayVerticesIgnored(pre, init);
      Extend(pre + init, vs[|vs| - 1]);
    }
  }

  /** endShape then beginShape starts an empty recording block. */
  lemma EndThenBegin(pre: seq<Op>, mode: int)
    ensures Recording(pre + [EndShape] + [BeginShape(mode)])
    ensures Pending(pre + [EndShape] + [BeginShape(mode)]) == 0
  {
    Extend(pre, EndShape);
    Extend(pre + [EndShape], BeginShape(mode));
  }

  /** A run of vertex() calls inside a recording block, then endShape:
      the count captured is the pending count plus the run's length. */
  lemma RunThenEnd(started: seq<Op>, vs: seq<Op>)
    requires Recording(started) && AllVertices(vs)
    ensures Finalized(started + vs + [EndShape]) == Pending(started) + |vs|
  {
    RecordingRun(started, vs);
    Extend(started + vs, EndShape);
  }

  /** Finalizing again after a new recording block supersedes the old count. */
  lemma ReFinalizeSupersedes(pre: seq<Op>, mode: int, vs: seq<Op>)
    requires AllVertices(vs)
    ensures Finalized(pre + [EndShape] + [BeginShape(mode)] + vs + [EndShape]) == |vs|
  {
    EndThenBegin(pre, mode);
    RunThenEnd(pre + [EndShape] + [BeginShape(mode)], vs);
  }

  /** A second beginShape inside an unfinished block keeps the vertices
      already recorded: endShape captures both runs. */
  lemma BeginKeepsPendingVertices(pre: seq<Op>, m1: int, vs1: seq<Op>, m2: int, vs2: seq<Op>)
    requires AllVertices(vs1) && AllVertices(vs2)
    ensures Finalized(pre + [EndShape] + [BeginShape(m1)] + vs1 + [BeginShape(m2)] + vs2 + [EndShape]) == |vs1| + |vs2|
  {
    var first := pre + [EndShape] + [BeginShape(m1)];
    EndThenBegin(pre, m1);
    RecordingRun(first, vs1);
    Extend(first + vs1, BeginShape(m2));
    RunThenEnd(first + vs1 + [BeginShape(m2)], vs2);
  }

  /** Performs one call of a trace on `shape`. */
  method Perform(shape: PShape, gl: Gl.Context, op: Op)
    requires shape.Valid()
    modifies shape, gl
    ensures shape.Valid()
    ensures shape.isRecording == if op.BeginShape? then true else if op.EndShape? then false else old(shape.isRecording)
    ensures shape.pending ==
      if op.Vertex? then old(shape.pending) + (if old(shape.isRecording) then 1 else 0)
      else if op.EndShape? then 0
      else old(shape.pending)
    ensures shape.fVerticesSize == if op.EndShape? then FLOATS_PER_VERTEX * old(shape.pending) else old(shape.fVerticesSize)
    ensures Gl.DrawCounts(gl.log) == Gl.DrawCounts(old(gl.log)) + (if op.Draw? then [old(shape.fVerticesSize) / FLOATS_PER_VERTEX] else [])
  {
    ghost var before := gl.log;
    match op {
      case BeginShape(mode) =>
        shape.BeginShape(mode);
      case Vertex(x, y, z, r, g, b) =>
        shape.Vertex(x, y, z, r, g, b);
      case EndShape =>
        shape.EndShape(gl);
        NoDrawsAdded(before, gl.log);
      case Draw =>
        shape.Draw(gl);
        var count := shape.fVerticesSize / FLOATS_PER_VERTEX;
        assert Gl.DrawCounts(gl.log) == Gl.DrawCounts(before) + [count] by {
          var pre := [Gl.UseProgram(shape.shaderProgram), Gl.BindVertexArray(shape.vertexArray)];
          var post := [Gl.BindVertexArray(0)];
          assert gl.log == before + (pre + [Gl.DrawArrays(Gl.Triangles, 0, count)] + post);
          Gl.OneDrawCount(pre, Gl.Triangles, 0, count, post);
          Gl.DrawCountsAppend(before, pre + [Gl.DrawArrays(Gl.Triangles, 0, count)] + post);
        }
      case Release =>
        shape.Release(gl);
        NoDrawsAdded(before, gl.log);
    }
  }

  /** Extending a log with calls that draw nothing keeps its draw counts. */
  lemma NoDrawsAdded(before: seq<Gl.Call>, after: seq<Gl.Call>)
    requires |before| <= |after| && after[..|before|] == before
    requires forall i :: |before| <= i < |after| ==> !after[i].DrawArrays?
    ensures Gl.DrawCounts(after) == Gl.DrawCounts(before)
  {
    var added := after[|before|..];
    assert after == before + added;
    Gl.NoDrawCounts(added);
    Gl.DrawCountsAppend(before, added);
  }

  /** Runs a trace of calls on a fresh shape and a fresh GL context and returns
      the GL log: its draw calls carry exactly the vertex counts of the
      reference semantics. */
  method Replay(ops: seq<Op>) returns (log: seq<Gl.Call>)
    ensures Gl.DrawCounts(log) == Draws(ops)
  {
    var gl := new Gl.Context();
    var shape := new PShape();
    var i := 0;
    while i < |ops|
      invariant 0 <= i <= |ops|
      invariant shape.Valid()
      invariant shape.isRecording == Recording(ops[..i])
      invariant shape.pending == Pending(ops[..i])
      invariant shape.fVerticesSize == FLOATS_PER_VERTEX * Finalized(ops[..i])
      invariant Gl.DrawCounts(gl.log) == Draws(ops[..i])
    {
      assert ops[..i + 1] == ops[..i] + [ops[i]];
      Extend(ops[..i], ops[i]);
      Perform(shape, gl, ops[i]);
      i := i + 1;
    }
    assert ops[..|ops|] == ops;
    log := gl.log;
  }
}
