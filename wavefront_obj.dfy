/** The parsed-mesh types of `WavefrontObjFile` that the core consumes. The
    parser itself is not part of this model: its outcome is an input. */
module WavefrontObj {
  /** juce::uint32, the element type of an index buffer. */
  type Index = x: int | 0 <= x < 0x1_0000_0000

  /** WavefrontObjFile::Vertex: a position or a normal. */
  datatype Point3 = Point3(x: real, y: real, z: real)

  /** WavefrontObjFile::TextureCoord. */
  datatype TextureCoord = TextureCoord(x: real, y: real)

  datatype Mesh = Mesh(vertices: seq<Point3>, normals: seq<Point3>,
                       textureCoords: seq<TextureCoord>, indices: seq<Index>)

  /** One sub-mesh of the file. */
  datatype Shape = Shape(name: string, mesh: Mesh)

  /** The outcome of `WavefrontObjFile::load`, given as an input. */
  datatype LoadResult = Loaded(shapes: seq<Shape>) | LoadFailed(message: string)
  {
    /** The shapes a successful load leaves in `shapeFile.shapes`; none otherwise. */
    function LoadedShapes(): seq<Shape> {
      if Loaded? then shapes else []
    }
  }
}

/** juce::Colour reduced to what the vertex conversion reads. */
module Colours {
  type Byte = x: int | 0 <= x < 256

  datatype Colour = Colour(red: Byte, green: Byte, blue: Byte, alpha: Byte)
  {
    /** getFloatRed() etc.: each 8-bit component divided by 255. */
    function FloatRgba(): (c: seq<real>)
      ensures |c| == 4
      ensures forall i :: 0 <= i < 4 ==> 0.0 <= c[i] <= 1.0
    {
      [red as real / 255.0, green as real / 255.0, blue as real / 255.0, alpha as real / 255.0]
    }
  }

  /** Colours::green, 0xff008000. */
  const Green: Colour := Colour(0, 128, 0, 255)
}
