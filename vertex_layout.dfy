/** The interleaved vertex record (`struct Vertex`) and the attribute layout
    that `Attributes::enable` derives from it. A `float` is modelled as a real. */
module VertexLayout {
  type Float = real
  type Float2 = s: seq<Float> | |s| == 2 witness [0.0, 0.0]
  type Float3 = s: seq<Float> | |s| == 3 witness [0.0, 0.0, 0.0]
  type Float4 = s: seq<Float> | |s| == 4 witness [0.0, 0.0, 0.0, 0.0]

  /** position[3], normal[3], colour[4], texCoord[2], in that order. */
  datatype Vertex = Vertex(position: Float3, normal: Float3, colour: Float4, texCoord: Float2)

  /** sizeof(float), in bytes. */
  const FloatSize: nat := 4
  /** The number of floats in one record. */
  const FloatsPerVertex: nat := 12
  /** sizeof(Vertex), in bytes: the stride passed for every attribute. */
  const Stride: nat := FloatsPerVertex * FloatSize

  /** The record as it lies in memory: the four arrays back to back. */
  function Flatten(v: Vertex): (r: seq<Float>)
    ensures |r| == FloatsPerVertex
    ensures r[..3] == v.position && r[3..6] == v.normal
    ensures r[6..10] == v.colour && r[10..] == v.texCoord
  {
    v.position + v.normal + v.colour + v.texCoord
  }

  /** The four shader inputs the demo binds, one per field of the record. */
  datatype AttributeKind = Position | Normal | SourceColour | TextureCoordIn
  {
    /** The name looked up in the shader program. */
    function Name(): string {
      match this
      case Position => "position"
      case Normal => "normal"
      case SourceColour => "sourceColour"
      case TextureCoordIn => "textureCoordIn"
    }

    /** The component count passed to glVertexAttribPointer. */
    function Components(): nat {
      match this
      case Position => 3
      case Normal => 3
      case SourceColour => 4
      case TextureCoordIn => 2
    }

    /** The offset, counted in floats, passed to glVertexAttribPointer. */
    function FloatOffset(): nat {
      match this
      case Position => 0
      case Normal => 3
      case SourceColour => 6
      case TextureCoordIn => 10
    }

    /** The offset in bytes (`sizeof(float) * n`). */
    function ByteOffset(): nat {
      FloatSize * FloatOffset()
    }

    /** The field of the record that this attribute is meant to read. */
    function Field(v: Vertex): seq<Float> {
      match this
      case Position => v.position
      case Normal => v.normal
      case SourceColour => v.colour
      case TextureCoordIn => v.texCoord
    }

    /** Whether float slot `j` of a record lies inside this attribute's range. */
    predicate Covers(j: int) {
      FloatOffset() <= j < FloatOffset() + Components()
    }
  }

  /** Each attribute's (offset, component count) picks out exactly its own field. */
  lemma AttributeReadsItsField(v: Vertex, k: AttributeKind)
    ensures k.FloatOffset() + k.Components() <= FloatsPerVertex
    ensures Flatten(v)[k.FloatOffset()..k.FloatOffset() + k.Components()] == k.Field(v)
  {
    var f := Flatten(v);
    match k
    case Position =>
    case Normal =>
    case SourceColour =>
    case TextureCoordIn => assert f[10..12] == f[10..];
  }

  /** The four ranges tile the record: every float slot belongs to exactly one attribute. */
  lemma LayoutTilesRecord(j: int)
    requires 0 <= j < FloatsPerVertex
    ensures exists k: AttributeKind :: k.Covers(j)
    ensures forall k1: AttributeKind, k2: AttributeKind :: k1.Covers(j) && k2.Covers(j) ==> k1 == k2
  {
    if j < 3 {
      assert Position.Covers(j);
    } else if j < 6 {
      assert Normal.Covers(j);
    } else if j < 10 {
      assert SourceColour.Covers(j);
    } else {
      assert TextureCoordIn.Covers(j);
    }
  }

  /** No slot outside the record is covered, and the byte layout is the one the code passes. */
  lemma LayoutWithinStride(k: AttributeKind)
    ensures forall j :: k.Covers(j) ==> 0 <= j < FloatsPerVertex
    ensures k.ByteOffset() + FloatSize * k.Components() <= Stride
    ensures Stride == 48
  {
  }

  /** Distinct attributes are looked up under distinct names. */
  lemma NamesDistinct(k1: AttributeKind, k2: AttributeKind)
    requires k1 != k2
    ensures k1.Name() != k2.Name()
  {
    assert k1.Name()[0] != k2.Name()[0];
  }
}
