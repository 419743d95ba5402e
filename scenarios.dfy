/** Worked examples of the conversion, resolution and draw contracts. */
module Scenarios {
  import opened Wrappers
  import opened VertexLayout
  import opened Colours
  import opened GL
  import opened Containers
  import Obj = WavefrontObj

  /** Three positions, no normals, no texture coordinates, converted in red:
      three records, each with the default normal, texture coordinate and the
      red colour. */
  lemma RedTriangleWithoutNormals(p0: Obj.Point3, p1: Obj.Point3, p2: Obj.Point3)
    ensures var vs := VertexList(Obj.Mesh([p0, p1, p2], [], [], [0, 1, 2]), Colour(255, 0, 0, 255));
      && |vs| == 3
      && (forall i :: 0 <= i < 3 ==> vs[i].normal == [0.1, 0.1, 0.1])
      && (forall i :: 0 <= i < 3 ==> vs[i].colour == [1.0, 0.0, 0.0, 1.0])
      && (forall i :: 0 <= i < 3 ==> vs[i].texCoord == [0.5, 0.5])
  {
  }

  /** Loading one triangle and drawing it, on a fresh context: one buffer pair,
      and one draw of three indices that reads the triangle's green records and
      its indices through the bound buffers. */
  method TriangleEndToEnd(p0: Obj.Point3, p1: Obj.Point3, p2: Obj.Point3, a: Attributes, s: GpuState)
    returns (pairs: nat, draws: seq<DrawRecord>)
    ensures pairs == 1
    ensures |draws| == 1 && draws[0].count == 3
    ensures var d := draws[0].state;
      && d.arrayBuffer in d.buffers
      && d.buffers[d.arrayBuffer] == VertexData(VertexList(Obj.Mesh([p0, p1, p2], [], [], [0, 1, 2]), Green))
      && d.elementArrayBuffer in d.buffers
      && d.buffers[d.elementArrayBuffer] == IndexData([0, 1, 2])
  {
    var mesh := Obj.Mesh([p0, p1, p2], [], [], [0, 1, 2]);
    var load := Obj.Loaded([Obj.Shape("triangle", mesh)]);
    pairs, draws := LoadAndDraw(load, a, s);
  }

  /** A loaded shape whose mesh is empty still gets a buffer pair, and drawing
      it issues one draw call, of zero indices. */
  method EmptyMeshEndToEnd(a: Attributes, s: GpuState) returns (pairs: nat, draws: seq<DrawRecord>)
    ensures pairs == 1
    ensures |draws| == 1 && draws[0].count == 0
  {
    var load := Obj.Loaded([Obj.Shape("empty", Obj.Mesh([], [], [], []))]);
    pairs, draws := LoadAndDraw(load, a, s);
  }

  /** A failed load: no buffer pair, and drawing issues no draw call. */
  method FailedLoadEndToEnd(a: Attributes, s: GpuState) returns (pairs: nat, draws: seq<DrawRecord>)
    ensures pairs == 0 && draws == []
  {
    var load := Obj.LoadFailed("missing");
    pairs, draws := LoadAndDraw(load, a, s);
  }

  /** Build a shape from `load` on a fresh context and draw it once; returns the
      number of buffer pairs and the draws of the drawing pass, replayed from
      the state the uploads leave. */
  method LoadAndDraw(load: Obj.LoadResult, a: Attributes, s: GpuState) returns (pairs: nat, draws: seq<DrawRecord>)
    ensures pairs == |load.LoadedShapes()|
    ensures |draws| == pairs
    ensures forall k :: 0 <= k < pairs ==>
      var d := draws[k];
      && d.count == |load.LoadedShapes()[k].mesh.indices|
      && d.state.arrayBuffer in d.state.buffers
      && d.state.buffers[d.state.arrayBuffer] == VertexData(VertexList(load.LoadedShapes()[k].mesh, Green))
      && d.state.elementArrayBuffer in d.state.buffers
      && d.state.buffers[d.state.elementArrayBuffer] == IndexData(load.LoadedShapes()[k].mesh.indices)
  {
    var context := new Context();
    var shape := new Shape(context, load);
    var uploaded := context.calls;
    assert uploaded == UploadAll(shape.vertexBuffers, load.LoadedShapes());
    assert NamedFrom(shape.vertexBuffers, 1);
    shape.Draw(context, a);
    var drawn := context.calls[|uploaded|..];
    assert drawn == DrawCalls(shape.vertexBuffers, a);
    ShapeDrawsItsMeshes(s, shape.vertexBuffers, load.LoadedShapes(), 1, a);
    pairs := |shape.vertexBuffers|;
    draws := Draws(Replay(s, uploaded), drawn);
  }

  /** A shader that declares only `position` and `projectionMatrix`: only the
      position attribute is resolved, and only it is set up and enabled. */
  lemma PositionOnlyShader()
    ensures var a := NewAttributes(Program(7, map["position" := 0], map["projectionMatrix" := 2]));
      && a == Attributes(Some(Attribute(0)), None, None, None)
      && a.EnableCalls() == [VertexAttribPointer(0, AttribPointer(3, 48, 0)), EnableVertexAttribArray(0)]
      && a.DisableCalls() == [DisableVertexAttribArray(0)]
    ensures NewUniforms(Program(7, map["position" := 0], map["projectionMatrix" := 2]))
            == Uniforms(Some(Uniform(2)), None, None)
  {
    var p := Program(7, map["position" := 0], map["projectionMatrix" := 2]);
    assert "normal" != "position" && "sourceColour" != "position" && "textureCoordIn" != "position";
    assert "viewMatrix" != "projectionMatrix" && "time" != "projectionMatrix";
    assert p.AttribLocation("normal") == -1;
  }
}
