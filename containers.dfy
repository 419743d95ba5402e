/** Shader-input resolution, the mesh-to-vertex-buffer conversion and the
    drawable shape. */
module Containers {
  import opened Wrappers
  import opened VertexLayout
  import opened Colours
  import opened GL
  import Obj = WavefrontObj

  //==========================================================================
  // Attributes

  /** OpenGLShaderProgram::Attribute: its location in the program. */
  datatype Attribute = Attribute(attributeID: nat)

  /** createAttribute: no attribute when the program does not declare the name. */
  function CreateAttribute(shader: Program, attributeName: string): (r: Option<Attribute>)
    ensures r.None? <==> shader.AttribLocation(attributeName) < 0
    ensures r.Some? ==> r.value.attributeID == shader.AttribLocation(attributeName)
  {
    var location := shader.AttribLocation(attributeName);
    if location < 0 then None else Some(Attribute(location))
  }

  /** glVertexAttribPointer's arguments for one attribute of the record. */
  function LayoutPointer(k: AttributeKind): (p: AttribPointer)
    ensures forall v: Vertex :: |k.Field(v)| == p.size
    ensures p.stride == Stride && p.offset == FloatSize * k.FloatOffset()
  {
    AttribPointer(k.Components(), Stride, k.ByteOffset())
  }

  function IdOf(h: Option<Attribute>): set<nat> {
    if h.Some? then {h.value.attributeID} else {}
  }

  /** Set up and enable one attribute, only when it is present. */
  function EnableOne(k: AttributeKind, h: Option<Attribute>): seq<Call> {
    if h.Some? then [VertexAttribPointer(h.value.attributeID, LayoutPointer(k)),
                     EnableVertexAttribArray(h.value.attributeID)]
    else []
  }

  function DisableOne(h: Option<Attribute>): seq<Call> {
    if h.Some? then [DisableVertexAttribArray(h.value.attributeID)] else []
  }

  /** The four optional attribute handles of a shader. */
  datatype Attributes = Attributes(position: Option<Attribute>, normal: Option<Attribute>,
                                   sourceColour: Option<Attribute>, textureCoordIn: Option<Attribute>)
  {
    function Handle(k: AttributeKind): Option<Attribute> {
      match k
      case Position => position
      case Normal => normal
      case SourceColour => sourceColour
      case TextureCoordIn => textureCoordIn
    }

    /** The locations of the attributes that are present. */
    function PresentIds(): (r: set<nat>)
      ensures forall k: AttributeKind :: Handle(k).Some? ==> Handle(k).value.attributeID in r
      ensures forall x :: x in r ==>
                exists k: AttributeKind :: Handle(k).Some? && Handle(k).value.attributeID == x
    {
      assert forall x :: x in IdOf(position) ==> Handle(Position).Some? && Handle(Position).value.attributeID == x;
      assert forall x :: x in IdOf(normal) ==> Handle(Normal).Some? && Handle(Normal).value.attributeID == x;
      assert forall x :: x in IdOf(sourceColour) ==> Handle(SourceColour).Some? && Handle(SourceColour).value.attributeID == x;
      assert forall x :: x in IdOf(textureCoordIn) ==> Handle(TextureCoordIn).Some? && Handle(TextureCoordIn).value.attributeID == x;
      IdOf(position) + IdOf(normal) + IdOf(sourceColour) + IdOf(textureCoordIn)
    }

    /** No two present attributes share a location. GL gives active attributes
        distinct locations unless the program aliases them on purpose. */
    predicate DistinctIds() {
      forall k1: AttributeKind, k2: AttributeKind ::
        k1 != k2 && Handle(k1).Some? && Handle(k2).Some? ==>
          Handle(k1).value.attributeID != Handle(k2).value.attributeID
    }

    /** The calls `enable` issues, in the order of the source. */
    function EnableCalls(): seq<Call> {
      EnableOne(Position, position) + EnableOne(Normal, normal)
      + EnableOne(SourceColour, sourceColour) + EnableOne(TextureCoordIn, textureCoordIn)
    }

    /** The calls `disable` issues, in the order of the source. */
    function DisableCalls(): seq<Call> {
      DisableOne(position) + DisableOne(normal) + DisableOne(sourceColour) + DisableOne(textureCoordIn)
    }

    method Enable(context: Context)
      requires context.Valid()
      modifies context
      ensures context.Valid()
      ensures context.calls == old(context.calls) + EnableCalls()
      ensures context.nextName == old(context.nextName)
    {
      EnableAttribute(context, Position, position);
      EnableAttribute(context, Normal, normal);
      EnableAttribute(context, SourceColour, sourceColour);
      EnableAttribute(context, TextureCoordIn, textureCoordIn);
    }

    method Disable(context: Context)
      requires context.Valid()
      modifies context
      ensures context.Valid()
      ensures context.calls == old(context.calls) + DisableCalls()
      ensures context.nextName == old(context.nextName)
    {
      DisableAttribute(context, position);
      DisableAttribute(context, normal);
      DisableAttribute(context, sourceColour);
      DisableAttribute(context, textureCoordIn);
    }
  }

  /** One `if` block of `enable`: point the attribute at its field, then enable it. */
  method EnableAttribute(context: Context, k: AttributeKind, h: Option<Attribute>)
    requires context.Valid()
    modifies context
    ensures context.Valid()
    ensures context.calls == old(context.calls) + EnableOne(k, h)
    ensures context.nextName == old(context.nextName)
  {
    if h.Some? {
      context.Issue(VertexAttribPointer(h.value.attributeID, LayoutPointer(k)));
      context.Issue(EnableVertexAttribArray(h.value.attributeID));
    }
  }

  /** One line of `disable`. */
  method DisableAttribute(context: Context, h: Option<Attribute>)
    requires context.Valid()
    modifies context
    ensures context.Valid()
    ensures context.calls == old(context.calls) + DisableOne(h)
    ensures context.nextName == old(context.nextName)
  {
    if h.Some? {
      context.Issue(DisableVertexAttribArray(h.value.attributeID));
    }
  }

  /** The Attributes constructor: each input resolved by name against the program. */
  function NewAttributes(shader: Program): (a: Attributes)
    ensures forall k: AttributeKind :: a.Handle(k).None? <==> shader.AttribLocation(k.Name()) < 0
    ensures forall k: AttributeKind :: a.Handle(k).Some? ==>
              a.Handle(k).value.attributeID == shader.AttribLocation(k.Name())
  {
    Attributes(CreateAttribute(shader, "position"), CreateAttribute(shader, "normal"),
               CreateAttribute(shader, "sourceColour"), CreateAttribute(shader, "textureCoordIn"))
  }

  /** The effect of enabling one attribute. */
  lemma EnableOneEffect(s: GpuState, k: AttributeKind, h: Option<Attribute>)
    ensures Replay(s, EnableOne(k, h)) ==
      if h.Some? then s.(pointers := s.pointers[h.value.attributeID := AttribSource(s.arrayBuffer, LayoutPointer(k))],
                         enabled := s.enabled + {h.value.attributeID})
      else s
  {
    if h.Some? {
      var id := h.value.attributeID;
      ReplayTwo(s, VertexAttribPointer(id, LayoutPointer(k)), EnableVertexAttribArray(id));
    }
  }

  lemma DisableOneEffect(s: GpuState, h: Option<Attribute>)
    ensures Replay(s, DisableOne(h)) == s.(enabled := s.enabled - IdOf(h))
  {
    if h.Some? {
      ReplayOne(s, DisableVertexAttribArray(h.value.attributeID));
    } else {
      assert s.enabled - {} == s.enabled;
    }
  }

  /** The state after enabling the attributes one by one. */
  lemma EnableSteps(s: GpuState, a: Attributes)
    returns (s1: GpuState, s2: GpuState, s3: GpuState)
    ensures s1 == Replay(s, EnableOne(Position, a.position))
    ensures s2 == Replay(s1, EnableOne(Normal, a.normal))
    ensures s3 == Replay(s2, EnableOne(SourceColour, a.sourceColour))
    ensures Replay(s, a.EnableCalls()) == Replay(s3, EnableOne(TextureCoordIn, a.textureCoordIn))
  {
    var c1, c2, c3, c4 := EnableOne(Position, a.position), EnableOne(Normal, a.normal),
                          EnableOne(SourceColour, a.sourceColour), EnableOne(TextureCoordIn, a.textureCoordIn);
    s1 := Replay(s, c1);
    s2 := Replay(s1, c2);
    s3 := Replay(s2, c3);
    ReplayAppend(s, c1, c2);
    ReplayAppend(s, c1 + c2, c3);
    ReplayAppend(s, c1 + c2 + c3, c4);
  }

  /** `enable` turns on exactly the present attributes and leaves the buffer
      bindings, the buffer contents and the program as they were. */
  lemma EnableEffect(s: GpuState, a: Attributes)
    ensures Replay(s, a.EnableCalls()).enabled == s.enabled + a.PresentIds()
    ensures Replay(s, a.EnableCalls()).arrayBuffer == s.arrayBuffer
    ensures Replay(s, a.EnableCalls()).elementArrayBuffer == s.elementArrayBuffer
    ensures Replay(s, a.EnableCalls()).buffers == s.buffers
    ensures Replay(s, a.EnableCalls()).program == s.program
  {
    var s1, s2, s3 := EnableSteps(s, a);
    EnableOneEffect(s, Position, a.position);
    EnableOneEffect(s1, Normal, a.normal);
    EnableOneEffect(s2, SourceColour, a.sourceColour);
    EnableOneEffect(s3, TextureCoordIn, a.textureCoordIn);
  }

  /** `enable` sets up only the present attributes: the pointer of every
      other location is exactly as it was, configured or not. */
  lemma EnableKeepsOtherPointers(s: GpuState, a: Attributes)
    ensures forall i :: i !in a.PresentIds() ==>
      && (i in Replay(s, a.EnableCalls()).pointers <==> i in s.pointers)
      && (i in s.pointers ==> Replay(s, a.EnableCalls()).pointers[i] == s.pointers[i])
  {
    var s1, s2, s3 := EnableSteps(s, a);
    EnableOneEffect(s, Position, a.position);
    EnableOneEffect(s1, Normal, a.normal);
    EnableOneEffect(s2, SourceColour, a.sourceColour);
    EnableOneEffect(s3, TextureCoordIn, a.textureCoordIn);
    forall i | i !in a.PresentIds()
      ensures (i in Replay(s, a.EnableCalls()).pointers <==> i in s.pointers)
      ensures i in s.pointers ==> Replay(s, a.EnableCalls()).pointers[i] == s.pointers[i]
    {
      assert a.Handle(Position).Some? ==> a.Handle(Position).value.attributeID != i;
      assert a.Handle(Normal).Some? ==> a.Handle(Normal).value.attributeID != i;
      assert a.Handle(SourceColour).Some? ==> a.Handle(SourceColour).value.attributeID != i;
      assert a.Handle(TextureCoordIn).Some? ==> a.Handle(TextureCoordIn).value.attributeID != i;
    }
  }

  /** `enable` points every present attribute at its own field of the bound
      vertex buffer, with the record's stride. */
  lemma EnableLayout(s: GpuState, a: Attributes)
    requires a.DistinctIds()
    ensures forall k: AttributeKind :: a.Handle(k).Some? ==>
      a.Handle(k).value.attributeID in Replay(s, a.EnableCalls()).pointers &&
      Replay(s, a.EnableCalls()).pointers[a.Handle(k).value.attributeID] == AttribSource(s.arrayBuffer, LayoutPointer(k))
  {
    var s1, s2, s3 := EnableSteps(s, a);
    EnableOneEffect(s, Position, a.position);
    EnableOneEffect(s1, Normal, a.normal);
    EnableOneEffect(s2, SourceColour, a.sourceColour);
    EnableOneEffect(s3, TextureCoordIn, a.textureCoordIn);
    var s4 := Replay(s, a.EnableCalls());
    assert s3.arrayBuffer == s.arrayBuffer;
    forall k: AttributeKind | a.Handle(k).Some?
      ensures a.Handle(k).value.attributeID in s4.pointers
      ensures s4.pointers[a.Handle(k).value.attributeID] == AttribSource(s.arrayBuffer, LayoutPointer(k))
    {
      var id := a.Handle(k).value.attributeID;
      match k
      case Position =>
        assert a.Handle(Normal).Some? ==> a.Handle(Normal).value.attributeID != id;
        assert a.Handle(SourceColour).Some? ==> a.Handle(SourceColour).value.attributeID != id;
        assert a.Handle(TextureCoordIn).Some? ==> a.Handle(TextureCoordIn).value.attributeID != id;
      case Normal =>
        assert a.Handle(SourceColour).Some? ==> a.Handle(SourceColour).value.attributeID != id;
        assert a.Handle(TextureCoordIn).Some? ==> a.Handle(TextureCoordIn).value.attributeID != id;
      case SourceColour =>
        assert a.Handle(TextureCoordIn).Some? ==> a.Handle(TextureCoordIn).value.attributeID != id;
      case TextureCoordIn =>
    }
  }

  /** `disable` turns off exactly the present attributes and changes nothing else. */
  lemma DisableEffect(s: GpuState, a: Attributes)
    ensures Replay(s, a.DisableCalls()) == s.(enabled := s.enabled - a.PresentIds())
  {
    var c1, c2, c3, c4 := DisableOne(a.position), DisableOne(a.normal),
                          DisableOne(a.sourceColour), DisableOne(a.textureCoordIn);
    var s1 := Replay(s, c1);
    var s2 := Replay(s1, c2);
    var s3 := Replay(s2, c3);
    ReplayAppend(s, c1, c2);
    ReplayAppend(s, c1 + c2, c3);
    ReplayAppend(s, c1 + c2 + c3, c4);
    assert a.DisableCalls() == c1 + c2 + c3 + c4;
    DisableOneEffect(s, a.position);
    DisableOneEffect(s1, a.normal);
    DisableOneEffect(s2, a.sourceColour);
    DisableOneEffect(s3, a.textureCoordIn);
  }

  /** Enable followed by disable leaves no attribute of the shader enabled;
      from a clean state, nothing at all. */
  lemma EnableThenDisable(s: GpuState, a: Attributes)
    ensures Replay(s, a.EnableCalls() + a.DisableCalls()).enabled == s.enabled - a.PresentIds()
    ensures s.enabled == {} ==> Replay(s, a.EnableCalls() + a.DisableCalls()).enabled == {}
  {
    ReplayAppend(s, a.EnableCalls(), a.DisableCalls());
    EnableEffect(s, a);
    DisableEffect(Replay(s, a.EnableCalls()), a);
  }

  //==========================================================================
  // Uniforms

  /** OpenGLShaderProgram::Uniform: its location in the program. */
  datatype Uniform = Uniform(uniformID: nat)

  /** createUniform: no uniform when the program does not declare the name. */
  function CreateUniform(shader: Program, uniformName: string): (r: Option<Uniform>)
    ensures r.None? <==> shader.UniformLocation(uniformName) < 0
    ensures r.Some? ==> r.value.uniformID == shader.UniformLocation(uniformName)
  {
    var location := shader.UniformLocation(uniformName);
    if location < 0 then None else Some(Uniform(location))
  }

  datatype Uniforms = Uniforms(projectionMatrix: Option<Uniform>, viewMatrix: Option<Uniform>,
                               time: Option<Uniform>)

  /** The Uniforms constructor: each uniform resolved by name against the program. */
  function NewUniforms(shader: Program): (u: Uniforms)
    ensures u.projectionMatrix.None? <==> shader.UniformLocation("projectionMatrix") < 0
    ensures u.viewMatrix.None? <==> shader.UniformLocation("viewMatrix") < 0
    ensures u.time.None? <==> shader.UniformLocation("time") < 0
    ensures u.projectionMatrix.Some? ==> u.projectionMatrix.value.uniformID == shader.UniformLocation("projectionMatrix")
    ensures u.viewMatrix.Some? ==> u.viewMatrix.value.uniformID == shader.UniformLocation("viewMatrix")
    ensures u.time.Some? ==> u.time.value.uniformID == shader.UniformLocation("time")
  {
    Uniforms(CreateUniform(shader, "projectionMatrix"), CreateUniform(shader, "viewMatrix"),
             CreateUniform(shader, "time"))
  }

  //==========================================================================
  // Mesh to vertex records

  /** The scale applied to positions and normals. */
  const ScaleFactor: real := 0.2
  const DefaultTexCoord: Obj.TextureCoord := Obj.TextureCoord(0.5, 0.5)
  const DefaultNormal: Obj.Point3 := Obj.Point3(0.5, 0.5, 0.5)

  function Scaled(p: Obj.Point3): Float3 {
    [ScaleFactor * p.x, ScaleFactor * p.y, ScaleFactor * p.z]
  }

  /** The record for vertex `i`: its own normal and texture coordinate where the mesh has them. */
  function MeshVertex(mesh: Obj.Mesh, i: nat, colour: Colour): Vertex
    requires i < |mesh.vertices|
  {
    var n := if i < |mesh.normals| then mesh.normals[i] else DefaultNormal;
    var tc := if i < |mesh.textureCoords| then mesh.textureCoords[i] else DefaultTexCoord;
    Vertex(Scaled(mesh.vertices[i]), Scaled(n), colour.FloatRgba(), [tc.x, tc.y])
  }

  /** The records createVertexListFromMesh appends, one per position, in position order. */
  function VertexList(mesh: Obj.Mesh, colour: Colour): (vs: seq<Vertex>)
    ensures |vs| == |mesh.vertices|
  {
    seq(|mesh.vertices|, i requires 0 <= i < |mesh.vertices| => MeshVertex(mesh, i, colour))
  }

  /** Positions are the mesh positions, scaled. */
  lemma VertexListPositions(mesh: Obj.Mesh, colour: Colour, i: nat)
    requires i < |mesh.vertices|
    ensures VertexList(mesh, colour)[i].position ==
            [0.2 * mesh.vertices[i].x, 0.2 * mesh.vertices[i].y, 0.2 * mesh.vertices[i].z]
  {
  }

  /** A normal is taken from the mesh where one exists at the same index, else the
      default (0.5, 0.5, 0.5); either way it is scaled. */
  lemma VertexListNormals(mesh: Obj.Mesh, colour: Colour, i: nat)
    requires i < |mesh.vertices|
    ensures i < |mesh.normals| ==>
      VertexList(mesh, colour)[i].normal == [0.2 * mesh.normals[i].x, 0.2 * mesh.normals[i].y, 0.2 * mesh.normals[i].z]
    ensures |mesh.normals| <= i ==> VertexList(mesh, colour)[i].normal == [0.1, 0.1, 0.1]
  {
  }

  /** A texture coordinate is taken from the mesh where one exists at the same
      index, else (0.5, 0.5); it is never scaled. */
  lemma VertexListTexCoords(mesh: Obj.Mesh, colour: Colour, i: nat)
    requires i < |mesh.vertices|
    ensures i < |mesh.textureCoords| ==>
      VertexList(mesh, colour)[i].texCoord == [mesh.textureCoords[i].x, mesh.textureCoords[i].y]
    ensures |mesh.textureCoords| <= i ==> VertexList(mesh, colour)[i].texCoord == [0.5, 0.5]
  {
  }

  /** Every record of one call carries the caller's colour. */
  lemma VertexListColour(mesh: Obj.Mesh, colour: Colour, i: nat, j: nat)
    requires i < |mesh.vertices| && j < |mesh.vertices|
    ensures VertexList(mesh, colour)[i].colour == VertexList(mesh, colour)[j].colour
    ensures VertexList(mesh, colour)[i].colour ==
            [colour.red as real / 255.0, colour.green as real / 255.0,
             colour.blue as real / 255.0, colour.alpha as real / 255.0]
  {
  }

  /** juce::Array<Vertex>, grown in place. */
  class VertexArray {
    var items: seq<Vertex>

    constructor ()
      ensures items == []
    {
      items := [];
    }

    method Add(v: Vertex)
      modifies this
      ensures items == old(items) + [v]
    {
      items := items + [v];
    }
  }

  /** createVertexListFromMesh: appends one record per mesh position to `list`. */
  method CreateVertexListFromMesh(mesh: Obj.Mesh, list: VertexArray, colour: Colour)
    modifies list
    ensures list.items == old(list.items) + VertexList(mesh, colour)
  {
    var i := 0;
    while i < |mesh.vertices|
      invariant 0 <= i <= |mesh.vertices|
      invariant list.items == old(list.items) + VertexList(mesh, colour)[..i]
    {
      var v := mesh.vertices[i];
      var n := if i < |mesh.normals| then mesh.normals[i] else DefaultNormal;
      var tc := if i < |mesh.textureCoords| then mesh.textureCoords[i] else DefaultTexCoord;
      list.Add(Vertex([ScaleFactor * v.x, ScaleFactor * v.y, ScaleFactor * v.z],
                      [ScaleFactor * n.x, ScaleFactor * n.y, ScaleFactor * n.z],
                      colour.FloatRgba(), [tc.x, tc.y]));
      assert VertexList(mesh, colour)[..i + 1] == VertexList(mesh, colour)[..i] + [MeshVertex(mesh, i, colour)];
      i := i + 1;
    }
    assert VertexList(mesh, colour)[..i] == VertexList(mesh, colour);
  }

  //==========================================================================
  // Vertex buffers

  /** The calls of the VertexBuffer constructor for buffer names `vb` and `ib`:
      the records in green, then the mesh indices as they are. */
  function UploadCalls(vb: nat, ib: nat, mesh: Obj.Mesh): seq<Call> {
    [GenBuffer(vb), BindBuffer(ArrayBuffer, vb), BufferData(ArrayBuffer, VertexData(VertexList(mesh, Green))),
     GenBuffer(ib), BindBuffer(ElementArrayBuffer, ib), BufferData(ElementArrayBuffer, IndexData(mesh.indices))]
  }

  /** After the upload both buffers are bound and hold the records and the indices. */
  lemma UploadEffect(s: GpuState, vb: nat, ib: nat, mesh: Obj.Mesh)
    requires vb != ib
    ensures Replay(s, UploadCalls(vb, ib, mesh)) ==
            s.(arrayBuffer := vb, elementArrayBuffer := ib,
               buffers := s.buffers[vb := VertexData(VertexList(mesh, Green))][ib := IndexData(mesh.indices)])
  {
    var cs := UploadCalls(vb, ib, mesh);
    var s1 := Step(s, cs[0]);
    var s2 := Step(s1, cs[1]);
    var s3 := Step(s2, cs[2]);
    var s4 := Step(s3, cs[3]);
    var s5 := Step(s4, cs[4]);
    var s6 := Step(s5, cs[5]);
    assert Replay(s5, cs[5..]) == s6 by { assert cs[5..][1..] == []; }
    assert Replay(s4, cs[4..]) == s6 by { assert cs[4..][1..] == cs[5..]; }
    assert Replay(s3, cs[3..]) == s6 by { assert cs[3..][1..] == cs[4..]; }
    assert Replay(s2, cs[2..]) == s6 by { assert cs[2..][1..] == cs[3..]; }
    assert Replay(s1, cs[1..]) == s6 by { assert cs[1..][1..] == cs[2..]; }
    assert s6.buffers == s.buffers[vb := VertexData(VertexList(mesh, Green))][ib := IndexData(mesh.indices)];
  }

  /** One GPU buffer pair: the vertex buffer, the index buffer and the index count. */
  class VertexBuffer {
    const vertexBuffer: nat
    const indexBuffer: nat
    const numIndices: nat

    constructor (context: Context, aShape: Obj.Shape)
      requires context.Valid()
      modifies context
      ensures context.Valid()
      ensures numIndices == |aShape.mesh.indices|
      ensures vertexBuffer == old(context.nextName) && indexBuffer == vertexBuffer + 1
      ensures context.nextName == old(context.nextName) + 2
      ensures context.calls == old(context.calls) + UploadCalls(vertexBuffer, indexBuffer, aShape.mesh)
    {
      numIndices := |aShape.mesh.indices|;
      var vb := context.GenBuffer();
      context.Issue(BindBuffer(ArrayBuffer, vb));
      var vertices := new VertexArray();
      CreateVertexListFromMesh(aShape.mesh, vertices, Green);
      assert vertices.items == VertexList(aShape.mesh, Green);
      context.Issue(BufferData(ArrayBuffer, VertexData(vertices.items)));
      var ib := context.GenBuffer();
      context.Issue(BindBuffer(ElementArrayBuffer, ib));
      context.Issue(BufferData(ElementArrayBuffer, IndexData(aShape.mesh.indices)));
      vertexBuffer := vb;
      indexBuffer := ib;
      assert context.calls == old(context.calls) + UploadCalls(vb, ib, aShape.mesh);
    }

    function BindCalls(): seq<Call> {
      [BindBuffer(ArrayBuffer, vertexBuffer), BindBuffer(ElementArrayBuffer, indexBuffer)]
    }

    function DeleteCalls(): seq<Call> {
      [DeleteBuffer(vertexBuffer), DeleteBuffer(indexBuffer)]
    }

    method Bind(context: Context)
      requires context.Valid()
      modifies context
      ensures context.Valid()
      ensures context.calls == old(context.calls) + BindCalls()
      ensures context.nextName == old(context.nextName)
    {
      context.Issue(BindBuffer(ArrayBuffer, vertexBuffer));
      context.Issue(BindBuffer(ElementArrayBuffer, indexBuffer));
    }

    /** The destructor: both buffer names are given back. */
    method Release(context: Context)
      requires context.Valid()
      modifies context
      ensures context.Valid()
      ensures context.calls == old(context.calls) + DeleteCalls()
      ensures context.nextName == old(context.nextName)
    {
      context.Issue(DeleteBuffer(vertexBuffer));
      context.Issue(DeleteBuffer(indexBuffer));
    }
  }

  /** Buffer pair k uses names base + 2k and base + 2k + 1, as handed out in order. */
  predicate NamedFrom(vbs: seq<VertexBuffer>, base: nat) {
    forall k :: 0 <= k < |vbs| ==>
      vbs[k].vertexBuffer == base + 2 * k && vbs[k].indexBuffer == base + 2 * k + 1
  }

  /** The uploads of a whole shape list, in list order. */
  function UploadAll(vbs: seq<VertexBuffer>, shapes: seq<Obj.Shape>): seq<Call>
    requires |vbs| == |shapes|
    decreases |vbs|
  {
    if vbs == [] then []
    else UploadAll(vbs[..|vbs| - 1], shapes[..|shapes| - 1])
         + UploadCalls(vbs[|vbs| - 1].vertexBuffer, vbs[|vbs| - 1].indexBuffer, shapes[|shapes| - 1].mesh)
  }

  /** After uploading a shape list, buffer pair k holds shape k's records and
      indices, and no buffer outside the list has changed. */
  lemma {:induction false} UploadAllContents(s: GpuState, vbs: seq<VertexBuffer>, shapes: seq<Obj.Shape>, base: nat)
    requires |vbs| == |shapes| && NamedFrom(vbs, base)
    ensures forall k :: 0 <= k < |vbs| ==>
      vbs[k].vertexBuffer in Replay(s, UploadAll(vbs, shapes)).buffers &&
      Replay(s, UploadAll(vbs, shapes)).buffers[vbs[k].vertexBuffer] == VertexData(VertexList(shapes[k].mesh, Green))
    ensures forall k :: 0 <= k < |vbs| ==>
      vbs[k].indexBuffer in Replay(s, UploadAll(vbs, shapes)).buffers &&
      Replay(s, UploadAll(vbs, shapes)).buffers[vbs[k].indexBuffer] == IndexData(shapes[k].mesh.indices)
    ensures forall n :: n < base && n in s.buffers ==>
      n in Replay(s, UploadAll(vbs, shapes)).buffers && Replay(s, UploadAll(vbs, shapes)).buffers[n] == s.buffers[n]
    decreases |vbs|
  {
    if vbs != [] {
      var m := |vbs| - 1;
      var pre, preShapes := vbs[..m], shapes[..m];
      assert NamedFrom(pre, base) by {
        forall k | 0 <= k < |pre| ensures pre[k] == vbs[k] { }
      }
      UploadAllContents(s, pre, preShapes, base);
      var t := Replay(s, UploadAll(pre, preShapes));
      var vb, ib, mesh := vbs[m].vertexBuffer, vbs[m].indexBuffer, shapes[m].mesh;
      ReplayAppend(s, UploadAll(pre, preShapes), UploadCalls(vb, ib, mesh));
      UploadEffect(t, vb, ib, mesh);
      var r := Replay(s, UploadAll(vbs, shapes));
      assert r.buffers == t.buffers[vb := VertexData(VertexList(mesh, Green))][ib := IndexData(mesh.indices)];
      forall k | 0 <= k < |vbs|
        ensures vbs[k].vertexBuffer in r.buffers
        ensures r.buffers[vbs[k].vertexBuffer] == VertexData(VertexList(shapes[k].mesh, Green))
        ensures vbs[k].indexBuffer in r.buffers
        ensures r.buffers[vbs[k].indexBuffer] == IndexData(shapes[k].mesh.indices)
      {
        if k < m {
          assert pre[k] == vbs[k] && preShapes[k] == shapes[k];
          assert vbs[k].vertexBuffer != vb && vbs[k].vertexBuffer != ib;
          assert vbs[k].indexBuffer != vb && vbs[k].indexBuffer != ib;
        }
      }
      forall n | n < base && n in s.buffers
        ensures n in r.buffers && r.buffers[n] == s.buffers[n]
      {
        assert n != vb && n != ib;
      }
    }
  }

  //==========================================================================
  // Shape

  /** The calls for one sub-mesh in Shape::draw: bind, enable, draw, disable. */
  function SubMeshCalls(b: VertexBuffer, a: Attributes): seq<Call> {
    b.BindCalls() + a.EnableCalls() + [DrawElements(b.numIndices)] + a.DisableCalls()
  }

  /** The calls of Shape::draw: the sub-meshes one after another, in list order. */
  function DrawCalls(bs: seq<VertexBuffer>, a: Attributes): seq<Call>
    decreases |bs|
  {
    if bs == [] then [] else DrawCalls(bs[..|bs| - 1], a) + SubMeshCalls(bs[|bs| - 1], a)
  }

  /** The calls of the Shape destructor: JUCE's OwnedArray deletes its objects
      from the last to the first. */
  function ReleaseCalls(vbs: seq<VertexBuffer>): seq<Call>
    decreases |vbs|
  {
    if vbs == [] then [] else ReleaseCalls(vbs[1..]) + vbs[0].DeleteCalls()
  }

  /** Every buffer name the list owns. */
  function BufferNames(vbs: seq<VertexBuffer>): (r: set<nat>)
    ensures forall k :: 0 <= k < |vbs| ==> vbs[k].vertexBuffer in r && vbs[k].indexBuffer in r
    ensures forall n :: n in r ==> exists k :: 0 <= k < |vbs| && (n == vbs[k].vertexBuffer || n == vbs[k].indexBuffer)
    decreases |vbs|
  {
    if vbs == [] then {}
    else
      var rest := BufferNames(vbs[1..]);
      assert forall n :: n in rest ==> exists k :: 0 <= k < |vbs| && (n == vbs[k].vertexBuffer || n == vbs[k].indexBuffer) by {
        forall n | n in rest ensures exists k :: 0 <= k < |vbs| && (n == vbs[k].vertexBuffer || n == vbs[k].indexBuffer) {
          var j :| 0 <= j < |vbs[1..]| && (n == vbs[1..][j].vertexBuffer || n == vbs[1..][j].indexBuffer);
          assert vbs[1..][j] == vbs[j + 1];
        }
      }
      {vbs[0].vertexBuffer, vbs[0].indexBuffer} + rest
  }

  /** What the bound state looks like at the draw call for buffer pair `b`. */
  predicate IssuedFor(d: DrawRecord, b: VertexBuffer, a: Attributes) {
    && d.count == b.numIndices
    && d.state.arrayBuffer == b.vertexBuffer
    && d.state.elementArrayBuffer == b.indexBuffer
    && a.PresentIds() <= d.state.enabled
    && (a.DistinctIds() ==>
          forall k: AttributeKind :: a.Handle(k).Some? ==>
            a.Handle(k).value.attributeID in d.state.pointers &&
            d.state.pointers[a.Handle(k).value.attributeID] == AttribSource(b.vertexBuffer, LayoutPointer(k)))
  }

  lemma BindEffect(s: GpuState, b: VertexBuffer)
    ensures Replay(s, b.BindCalls()) == s.(arrayBuffer := b.vertexBuffer, elementArrayBuffer := b.indexBuffer)
  {
    ReplayTwo(s, BindBuffer(ArrayBuffer, b.vertexBuffer), BindBuffer(ElementArrayBuffer, b.indexBuffer));
  }

  /** The state a sub-mesh's draw call sees: its buffers bound, the shader's
      attributes enabled and laid out over its vertex buffer. */
  lemma ReadyEffect(s: GpuState, b: VertexBuffer, a: Attributes)
    ensures NoDraws(b.BindCalls() + a.EnableCalls())
    ensures IssuedFor(DrawRecord(Replay(s, b.BindCalls() + a.EnableCalls()), b.numIndices), b, a)
    ensures Replay(s, b.BindCalls() + a.EnableCalls()).enabled == s.enabled + a.PresentIds()
    ensures Replay(s, b.BindCalls() + a.EnableCalls()).buffers == s.buffers
  {
    BindEffect(s, b);
    var s1 := Replay(s, b.BindCalls());
    EnableEffect(s1, a);
    if a.DistinctIds() {
      EnableLayout(s1, a);
    }
    ReplayAppend(s, b.BindCalls(), a.EnableCalls());
    var en := a.EnableCalls();
    assert forall i :: 0 <= i < |en| ==> !en[i].DrawElements?;
  }

  /** One sub-mesh: a single draw with its buffers bound and the shader's
      attributes enabled, after which exactly those attributes are off again. */
  lemma SubMeshEffect(s: GpuState, b: VertexBuffer, a: Attributes)
    ensures |Draws(s, SubMeshCalls(b, a))| == 1
    ensures IssuedFor(Draws(s, SubMeshCalls(b, a))[0], b, a)
    ensures Draws(s, SubMeshCalls(b, a))[0].state.enabled == s.enabled + a.PresentIds()
    ensures Draws(s, SubMeshCalls(b, a))[0].state.buffers == s.buffers
    ensures Replay(s, SubMeshCalls(b, a)).enabled == s.enabled - a.PresentIds()
    ensures Replay(s, SubMeshCalls(b, a)).buffers == s.buffers
  {
    var ready, rest := b.BindCalls() + a.EnableCalls(), [DrawElements(b.numIndices)] + a.DisableCalls();
    assert SubMeshCalls(b, a) == ready + rest;
    ReadyEffect(s, b, a);
    var s2 := Replay(s, ready);
    DrawOne(s2, b.numIndices);
    DisableEffect(s2, a);
    var dis := a.DisableCalls();
    assert NoDraws(dis) by {
      assert forall i :: 0 <= i < |dis| ==> !dis[i].DrawElements?;
    }
    DrawsOfNoDraws(s, ready);
    DrawsOfNoDraws(s2, dis);
    ReplayAppend(s2, [DrawElements(b.numIndices)], dis);
    DrawsAppend(s2, [DrawElements(b.numIndices)], dis);
    ReplayAppend(s, ready, rest);
    DrawsAppend(s, ready, rest);
    assert Draws(s, SubMeshCalls(b, a)) == [DrawRecord(s2, b.numIndices)];
  }

  /** Shape::draw issues one draw per buffer pair, in list order, each with its
      own buffers bound and the shader's attributes enabled and laid out over
      that pair's vertex buffer; afterwards none of the shader's attributes is
      enabled and no buffer contents have changed. With no buffer pair it does nothing. */
  lemma {:induction false} DrawEffect(s: GpuState, bs: seq<VertexBuffer>, a: Attributes)
    ensures |Draws(s, DrawCalls(bs, a))| == |bs|
    ensures forall k :: 0 <= k < |bs| ==> IssuedFor(Draws(s, DrawCalls(bs, a))[k], bs[k], a)
    ensures forall k :: 0 <= k < |bs| ==> Draws(s, DrawCalls(bs, a))[k].state.enabled == s.enabled + a.PresentIds()
    ensures forall k :: 0 <= k < |bs| ==> Draws(s, DrawCalls(bs, a))[k].state.buffers == s.buffers
    ensures Replay(s, DrawCalls(bs, a)).enabled == if bs == [] then s.enabled else s.enabled - a.PresentIds()
    ensures Replay(s, DrawCalls(bs, a)).buffers == s.buffers
    decreases |bs|
  {
    if bs != [] {
      var m := |bs| - 1;
      var pre := bs[..m];
      DrawEffect(s, pre, a);
      var t := Replay(s, DrawCalls(pre, a));
      SubMeshEffect(t, bs[m], a);
      ReplayAppend(s, DrawCalls(pre, a), SubMeshCalls(bs[m], a));
      DrawsAppend(s, DrawCalls(pre, a), SubMeshCalls(bs[m], a));
      assert t.enabled + a.PresentIds() == s.enabled + a.PresentIds();
      forall k | 0 <= k < m ensures pre[k] == bs[k] { }
    }
  }

  /** One more sub-mesh drawn extends the trace of Shape::draw by its calls. */
  lemma DrawCallsExtend(start: seq<Call>, before: seq<Call>, after: seq<Call>,
                        bs: seq<VertexBuffer>, i: nat, a: Attributes)
    requires i < |bs|
    requires before == start + DrawCalls(bs[..i], a)
    requires after == before + SubMeshCalls(bs[i], a)
    ensures after == start + DrawCalls(bs[..i + 1], a)
  {
    var longer := bs[..i + 1];
    assert longer[..|longer| - 1] == bs[..i];
    assert longer[|longer| - 1] == bs[i];
    var done, sub := DrawCalls(bs[..i], a), SubMeshCalls(bs[i], a);
    assert DrawCalls(longer, a) == done + sub;
    ConcatAssoc(start, done, sub);
  }

  /** Drawing a freshly uploaded shape list: draw k reads shape k's records
      through its bound vertex buffer and shape k's indices through its bound
      index buffer, with shape k's index count. */
  lemma ShapeDrawsItsMeshes(s: GpuState, vbs: seq<VertexBuffer>, shapes: seq<Obj.Shape>, base: nat, a: Attributes)
    requires |vbs| == |shapes| && NamedFrom(vbs, base)
    requires forall k :: 0 <= k < |vbs| ==> vbs[k].numIndices == |shapes[k].mesh.indices|
    ensures |Draws(Replay(s, UploadAll(vbs, shapes)), DrawCalls(vbs, a))| == |shapes|
    ensures forall k :: 0 <= k < |shapes| ==>
      var d := Draws(Replay(s, UploadAll(vbs, shapes)), DrawCalls(vbs, a))[k];
      && d.count == |shapes[k].mesh.indices|
      && d.state.arrayBuffer in d.state.buffers
      && d.state.buffers[d.state.arrayBuffer] == VertexData(VertexList(shapes[k].mesh, Green))
      && d.state.elementArrayBuffer in d.state.buffers
      && d.state.buffers[d.state.elementArrayBuffer] == IndexData(shapes[k].mesh.indices)
  {
    var u := Replay(s, UploadAll(vbs, shapes));
    UploadAllContents(s, vbs, shapes, base);
    DrawEffect(u, vbs, a);
    var ds := Draws(u, DrawCalls(vbs, a));
    forall k | 0 <= k < |shapes|
      ensures ds[k].count == |shapes[k].mesh.indices|
      ensures ds[k].state.arrayBuffer in ds[k].state.buffers
      ensures ds[k].state.buffers[ds[k].state.arrayBuffer] == VertexData(VertexList(shapes[k].mesh, Green))
      ensures ds[k].state.elementArrayBuffer in ds[k].state.buffers
      ensures ds[k].state.buffers[ds[k].state.elementArrayBuffer] == IndexData(shapes[k].mesh.indices)
    {
      assert IssuedFor(ds[k], vbs[k], a);
    }
  }

  /** Releasing a buffer list deletes every name it owns and no other. */
  lemma {:induction false} ReleaseEffect(s: GpuState, vbs: seq<VertexBuffer>)
    ensures Replay(s, ReleaseCalls(vbs)).buffers == s.buffers - BufferNames(vbs)
    decreases |vbs|
  {
    if vbs != [] {
      ReleaseEffect(s, vbs[1..]);
      var t := Replay(s, ReleaseCalls(vbs[1..]));
      ReplayAppend(s, ReleaseCalls(vbs[1..]), vbs[0].DeleteCalls());
      var d := vbs[0].DeleteCalls();
      ReplayTwo(t, DeleteBuffer(vbs[0].vertexBuffer), DeleteBuffer(vbs[0].indexBuffer));
      assert Replay(t, d).buffers == t.buffers - {vbs[0].vertexBuffer} - {vbs[0].indexBuffer};
      assert BufferNames(vbs) == {vbs[0].vertexBuffer, vbs[0].indexBuffer} + BufferNames(vbs[1..]);
    }
  }

  /** The body of Shape::draw's loop for one buffer pair. */
  method DrawSubMesh(context: Context, vertexBuffer: VertexBuffer, glAttributes: Attributes)
    requires context.Valid()
    modifies context
    ensures context.Valid()
    ensures context.calls == old(context.calls) + SubMeshCalls(vertexBuffer, glAttributes)
    ensures context.nextName == old(context.nextName)
  {
    ghost var start := context.calls;
    ghost var bind, enable, disable := vertexBuffer.BindCalls(), glAttributes.EnableCalls(), glAttributes.DisableCalls();
    vertexBuffer.Bind(context);
    glAttributes.Enable(context);
    assert context.calls == start + (bind + enable);
    context.Issue(DrawElements(vertexBuffer.numIndices));
    assert context.calls == start + (bind + enable + [DrawElements(vertexBuffer.numIndices)]);
    glAttributes.Disable(context);
  }

  /** One more shape uploaded extends the constructor's trace by its calls. */
  lemma UploadAllExtend(buffers: seq<VertexBuffer>, vb: VertexBuffer, shapes: seq<Obj.Shape>)
    requires |buffers| < |shapes|
    ensures UploadAll(buffers + [vb], shapes[..|buffers| + 1])
            == UploadAll(buffers, shapes[..|buffers|]) + UploadCalls(vb.vertexBuffer, vb.indexBuffer, shapes[|buffers|].mesh)
  {
    var i := |buffers|;
    var longer, prefix := buffers + [vb], shapes[..i + 1];
    assert |longer| - 1 == i && |prefix| - 1 == i;
    assert longer[..i] == buffers && prefix[..i] == shapes[..i];
    assert longer[i] == vb && prefix[i] == shapes[i];
    assert UploadAll(longer, prefix) == UploadAll(longer[..i], prefix[..i])
                                        + UploadCalls(longer[i].vertexBuffer, longer[i].indexBuffer, prefix[i].mesh);
  }

  /** The next pair's names continue the consecutive naming. */
  lemma NamedFromExtend(buffers: seq<VertexBuffer>, vb: VertexBuffer, base: nat)
    requires NamedFrom(buffers, base)
    requires vb.vertexBuffer == base + 2 * |buffers| && vb.indexBuffer == vb.vertexBuffer + 1
    ensures NamedFrom(buffers + [vb], base)
  {
  }

  /** The drawable mesh: one buffer pair per loaded sub-mesh. */
  class Shape {
    const vertexBuffers: seq<VertexBuffer>

    /** The Resources-directory search is not modelled: the load outcome is an input. */
    constructor (context: Context, load: Obj.LoadResult)
      requires context.Valid()
      modifies context
      ensures context.Valid()
      ensures |vertexBuffers| == |load.LoadedShapes()|
      ensures NamedFrom(vertexBuffers, old(context.nextName))
      ensures forall k :: 0 <= k < |vertexBuffers| ==>
                vertexBuffers[k].numIndices == |load.LoadedShapes()[k].mesh.indices|
      ensures context.nextName == old(context.nextName) + 2 * |vertexBuffers|
      ensures context.calls == old(context.calls) + UploadAll(vertexBuffers, load.LoadedShapes())
    {
      var buffers: seq<VertexBuffer> := [];
      var shapes := load.LoadedShapes();
      if load.Loaded? {
        var i := 0;
        while i < |shapes|
          invariant 0 <= i <= |shapes|
          invariant |buffers| == i
          invariant NamedFrom(buffers, old(context.nextName))
          invariant forall k :: 0 <= k < i ==> buffers[k].numIndices == |shapes[k].mesh.indices|
          invariant context.Valid()
          invariant context.nextName == old(context.nextName) + 2 * i
          invariant context.calls == old(context.calls) + UploadAll(buffers, shapes[..i])
        {
          var vb := new VertexBuffer(context, shapes[i]);
          UploadAllExtend(buffers, vb, shapes);
          NamedFromExtend(buffers, vb, old(context.nextName));
          buffers := buffers + [vb];
          i := i + 1;
        }
        assert shapes[..i] == shapes;
      }
      vertexBuffers := buffers;
    }

    method Draw(context: Context, glAttributes: Attributes)
      requires context.Valid()
      modifies context
      ensures context.Valid()
      ensures context.calls == old(context.calls) + DrawCalls(vertexBuffers, glAttributes)
      ensures context.nextName == old(context.nextName)
    {
      var i := 0;
      while i < |vertexBuffers|
        invariant 0 <= i <= |vertexBuffers|
        invariant context.calls == old(context.calls) + DrawCalls(vertexBuffers[..i], glAttributes)
        invariant context.Valid()
        invariant context.nextName == old(context.nextName)
      {
        ghost var before := context.calls;
        DrawSubMesh(context, vertexBuffers[i], glAttributes);
        DrawCallsExtend(old(context.calls), before, context.calls, vertexBuffers, i, glAttributes);
        i := i + 1;
      }
      assert vertexBuffers[..i] == vertexBuffers;
    }

    /** The destructor: every buffer pair is deleted, the last one first. */
    method Release(context: Context)
      requires context.Valid()
      modifies context
      ensures context.Valid()
      ensures context.calls == old(context.calls) + ReleaseCalls(vertexBuffers)
      ensures context.nextName == old(context.nextName)
    {
      var i := |vertexBuffers|;
      assert vertexBuffers[i..] == [];
      while i > 0
        invariant 0 <= i <= |vertexBuffers|
        invariant context.calls == old(context.calls) + ReleaseCalls(vertexBuffers[i..])
        invariant context.Valid()
        invariant context.nextName == old(context.nextName)
      {
        i := i - 1;
        vertexBuffers[i].Release(context);
        assert vertexBuffers[i..][1..] == vertexBuffers[i + 1..];
      }
    }
  }
}
