/** The component's shader (re)load state machine: `createShaders` and `shutdown`. */
module GLComponent {
  import opened Wrappers
  import opened GL
  import opened Containers
  import Obj = WavefrontObj

  /** What the shader toolchain reports for one attempt: whether each step of
      the compile chain succeeds, the program it links, the error text and the
      GLSL version. These are inputs of the model. */
  datatype ShaderBuild = ShaderBuild(vertexCompiles: bool, fragmentCompiles: bool, links: bool,
                                     program: Program, lastError: string, languageVersion: string)
  {
    /** Whether the whole `&&` chain succeeds. */
    predicate Linked() {
      vertexCompiles && fragmentCompiles && links
    }

    /** The steps the `&&` chain attempts, stopping at the first failure. */
    function CompileCalls(): seq<Call> {
      [AddVertexShader]
      + (if vertexCompiles then [AddFragmentShader] + (if fragmentCompiles then [LinkProgram] else []) else [])
    }
  }

  /** The chain short-circuits: the fragment shader is added only after the
      vertex shader succeeded, and linking is tried only after both did. */
  lemma CompileChainShortCircuits(b: ShaderBuild)
    ensures b.CompileCalls()[0] == AddVertexShader
    ensures AddFragmentShader in b.CompileCalls() <==> b.vertexCompiles
    ensures LinkProgram in b.CompileCalls() <==> b.vertexCompiles && b.fragmentCompiles
    ensures |b.CompileCalls()| == if !b.vertexCompiles then 1 else if !b.fragmentCompiles then 2 else 3
  {
  }

  /** A failed attempt issues only compile and link steps, which leave the
      GPU state alone: the previous buffers and bindings stay as they were. */
  lemma CompileCallsNoEffect(s: GpuState, b: ShaderBuild)
    ensures Replay(s, b.CompileCalls()) == s
  {
    if !b.vertexCompiles {
      ReplayOne(s, AddVertexShader);
    } else if !b.fragmentCompiles {
      assert b.CompileCalls() == [AddVertexShader, AddFragmentShader];
      ReplayTwo(s, AddVertexShader, AddFragmentShader);
    } else {
      var cs := [AddVertexShader, AddFragmentShader, LinkProgram];
      assert b.CompileCalls() == cs;
      assert cs[1..] == [AddFragmentShader, LinkProgram];
      ReplayTwo(s, AddFragmentShader, LinkProgram);
    }
  }

  /** The calls that destroying a shape issues; none when there is no shape. */
  function ReleaseOf(shape: Shape?): seq<Call> {
    if shape == null then [] else ReleaseCalls(shape.vertexBuffers)
  }

  class OpenGLComponent {
    const openGLContext: Context
    var vertexShader: string
    var fragmentShader: string
    var shader: Option<Program>
    var shape: Shape?
    var attributes: Option<Attributes>
    var uniforms: Option<Uniforms>

    /** Either nothing is loaded, or a shader is installed together with a
        shape and with attributes and uniforms resolved against that shader;
        and the context has handed out every buffer name below its counter. */
    ghost predicate Valid()
      reads this, openGLContext
    {
      && openGLContext.Valid()
      && (shader.None? ==> shape == null && attributes.None? && uniforms.None?)
      && (shader.Some? ==>
            && shape != null
            && attributes == Some(NewAttributes(shader.value))
            && uniforms == Some(NewUniforms(shader.value)))
    }

    constructor (context: Context)
      requires context.Valid()
      ensures openGLContext == context
      ensures shader.None? && shape == null && attributes.None? && uniforms.None?
      ensures Valid()
    {
      openGLContext := context;
      vertexShader := "";
      fragmentShader := "";
      shader := None;
      shape := null;
      attributes := None;
      uniforms := None;
    }

    /** shutdown: all four are reset; destroying the shape deletes its buffers. */
    method Shutdown()
      requires Valid()
      modifies this, openGLContext
      ensures Valid()
      ensures shader.None? && shape == null && attributes.None? && uniforms.None?
      ensures vertexShader == old(vertexShader) && fragmentShader == old(fragmentShader)
      ensures openGLContext.calls == old(openGLContext.calls) + ReleaseOf(old(shape))
      ensures openGLContext.nextName == old(openGLContext.nextName)
    {
      shader := None;
      if shape != null {
        shape.Release(openGLContext);
      }
      shape := null;
      attributes := None;
      uniforms := None;
    }

    /** createShaders, with the two shader files' contents, the toolchain's
        outcome and the mesh-load outcome as inputs. Returns the status text,
        which the source keeps only in a local variable. */
    method CreateShaders(vertexSource: string, fragmentSource: string,
                         build: ShaderBuild, load: Obj.LoadResult) returns (statusText: string)
      requires Valid()
      modifies this, openGLContext
      ensures Valid()
      ensures vertexShader == vertexSource && fragmentShader == fragmentSource
      ensures statusText == if build.Linked() then "GLSL: v" + build.languageVersion else build.lastError
      // any failure in the chain: nothing is replaced
      ensures !build.Linked() ==>
        && shader == old(shader) && shape == old(shape)
        && attributes == old(attributes) && uniforms == old(uniforms)
        && openGLContext.calls == old(openGLContext.calls) + build.CompileCalls()
        && openGLContext.nextName == old(openGLContext.nextName)
      // success: the new program is installed and everything is rebuilt against it
      ensures build.Linked() ==>
        && shader == Some(build.program)
        && attributes == Some(NewAttributes(build.program))
        && uniforms == Some(NewUniforms(build.program))
        && shape != null && fresh(shape)
        && |shape.vertexBuffers| == |load.LoadedShapes()|
        && NamedFrom(shape.vertexBuffers, old(openGLContext.nextName))
        && (forall k :: 0 <= k < |shape.vertexBuffers| ==>
              shape.vertexBuffers[k].numIndices == |load.LoadedShapes()[k].mesh.indices|)
        && openGLContext.nextName == old(openGLContext.nextName) + 2 * |shape.vertexBuffers|
      // success: the old shape's buffers go before the new program is used and the new shape uploaded
      ensures build.Linked() ==>
        openGLContext.calls == old(openGLContext.calls) + build.CompileCalls() + ReleaseOf(old(shape))
                               + [UseProgram(build.program.programID)]
                               + UploadAll(shape.vertexBuffers, load.LoadedShapes())
    {
      vertexShader := vertexSource;
      fragmentShader := fragmentSource;
      var ok := CompileChain(build);
      if ok {
        Install(build, load);
        statusText := "GLSL: v" + build.languageVersion;
      } else {
        statusText := build.lastError;
      }
    }

    /** The `&&` chain of createShaders: add the vertex shader, then the
        fragment shader, then link, stopping at the first failure. */
    method CompileChain(build: ShaderBuild) returns (ok: bool)
      requires openGLContext.Valid()
      modifies openGLContext
      ensures openGLContext.Valid()
      ensures ok == build.Linked()
      ensures openGLContext.calls == old(openGLContext.calls) + build.CompileCalls()
      ensures openGLContext.nextName == old(openGLContext.nextName)
    {
      openGLContext.Issue(AddVertexShader);
      ok := build.vertexCompiles;
      if ok {
        openGLContext.Issue(AddFragmentShader);
        ok := build.fragmentCompiles;
        if ok {
          openGLContext.Issue(LinkProgram);
          ok := build.links;
        }
      }
    }

    /** The success branch of createShaders: release the old shape, attributes
        and uniforms, install and use the new program, rebuild all three. */
    method Install(build: ShaderBuild, load: Obj.LoadResult)
      requires openGLContext.Valid()
      modifies this, openGLContext
      ensures Valid()
      ensures vertexShader == old(vertexShader) && fragmentShader == old(fragmentShader)
      ensures shader == Some(build.program)
      ensures attributes == Some(NewAttributes(build.program))
      ensures uniforms == Some(NewUniforms(build.program))
      ensures shape != null && fresh(shape)
      ensures |shape.vertexBuffers| == |load.LoadedShapes()|
      ensures NamedFrom(shape.vertexBuffers, old(openGLContext.nextName))
      ensures forall k :: 0 <= k < |shape.vertexBuffers| ==>
                shape.vertexBuffers[k].numIndices == |load.LoadedShapes()[k].mesh.indices|
      ensures openGLContext.nextName == old(openGLContext.nextName) + 2 * |shape.vertexBuffers|
      ensures openGLContext.calls == old(openGLContext.calls) + ReleaseOf(old(shape))
                                     + [UseProgram(build.program.programID)]
                                     + UploadAll(shape.vertexBuffers, load.LoadedShapes())
    {
      if shape != null {
        shape.Release(openGLContext);
      }
      shape := null;
      attributes := None;
      uniforms := None;

      shader := Some(build.program);
      openGLContext.Issue(UseProgram(build.program.programID));

      shape := new Shape(openGLContext, load);
      attributes := Some(NewAttributes(build.program));
      uniforms := Some(NewUniforms(build.program));
    }
  }
}
