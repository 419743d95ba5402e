/** The OpenGL calls the core issues, recorded as a trace, and an abstract
    interpreter that replays a trace over the GPU state those calls touch.
    Nothing here models rasterisation: a draw call only records the state it
    was issued in. */
module GL {
  import opened VertexLayout
  import opened WavefrontObj

  datatype Target = ArrayBuffer | ElementArrayBuffer

  /** What glBufferData has stored in a buffer object. */
  datatype BufferContents = NoData | VertexData(vertices: seq<Vertex>) | IndexData(indices: seq<Index>)

  /** The size, stride and byte offset given to glVertexAttribPointer. */
  datatype AttribPointer = AttribPointer(size: nat, stride: nat, offset: nat)

  /** An attribute array's configuration: the pointer and the array buffer bound when it was set. */
  datatype AttribSource = AttribSource(buffer: nat, pointer: AttribPointer)

  datatype Call =
    | GenBuffer(name: nat)
    | BindBuffer(target: Target, name: nat)
    | BufferData(target: Target, contents: BufferContents)
    | DeleteBuffer(name: nat)
    | VertexAttribPointer(index: nat, pointer: AttribPointer)
    | EnableVertexAttribArray(index: nat)
    | DisableVertexAttribArray(index: nat)
    | DrawElements(count: nat)
    | AddVertexShader
    | AddFragmentShader
    | LinkProgram
    | UseProgram(program: nat)

  /** A linked shader program as far as location lookups see it. A name that
      is not in a table is not declared by the program. */
  datatype Program = Program(programID: nat, attribLocations: map<string, int>,
                             uniformLocations: map<string, int>)
  {
    /** glGetAttribLocation: -1 when the program has no such attribute. */
    function AttribLocation(name: string): int {
      if name in attribLocations then attribLocations[name] else -1
    }

    /** glGetUniformLocation: -1 when the program has no such uniform. */
    function UniformLocation(name: string): int {
      if name in uniformLocations then uniformLocations[name] else -1
    }
  }

  /** The OpenGL context: every call issued so far, and the next unused buffer name. */
  class Context {
    var calls: seq<Call>
    var nextName: nat

    /** Every name handed out so far lies below the counter, which never
        reaches back to 0, the name that stands for "no buffer". */
    ghost predicate Valid()
      reads this
    {
      && nextName >= 1
      && forall i :: 0 <= i < |calls| && calls[i].GenBuffer? ==> calls[i].name < nextName
    }

    constructor ()
      ensures Valid()
      ensures calls == [] && nextName == 1
    {
      calls := [];
      nextName := 1;
    }

    /** glGenBuffers(1, &name): a non-zero name never handed out before. */
    method GenBuffer() returns (name: nat)
      requires Valid()
      modifies this
      ensures Valid()
      ensures name != 0 && Call.GenBuffer(name) !in old(calls)
      ensures name == old(nextName) && nextName == name + 1
      ensures calls == old(calls) + [Call.GenBuffer(name)]
    {
      name := nextName;
      nextName := nextName + 1;
      calls := calls + [Call.GenBuffer(name)];
    }

    /** Any other call: recorded, no new name. */
    method Issue(c: Call)
      requires Valid()
      requires !c.GenBuffer?
      modifies this
      ensures Valid()
      ensures calls == old(calls) + [c] && nextName == old(nextName)
    {
      calls := calls + [c];
    }
  }

  /** The GPU state the calls act on; buffer name 0 stands for "none bound". */
  datatype GpuState = GpuState(arrayBuffer: nat, elementArrayBuffer: nat,
                               buffers: map<nat, BufferContents>,
                               pointers: map<nat, AttribSource>,
                               enabled: set<nat>, program: nat)
  {
    function Bound(t: Target): nat {
      if t == ArrayBuffer then arrayBuffer else elementArrayBuffer
    }
  }

  /** The effect of one call. glBufferData with no live buffer bound, and a
      compile or link step, leave the state as it is; deleting a bound buffer
      unbinds it. */
  function Step(s: GpuState, c: Call): GpuState {
    match c
    case GenBuffer(n) => s.(buffers := s.buffers[n := NoData])
    case BindBuffer(t, n) =>
      if t == ArrayBuffer then s.(arrayBuffer := n) else s.(elementArrayBuffer := n)
    case BufferData(t, d) =>
      if s.Bound(t) in s.buffers then s.(buffers := s.buffers[s.Bound(t) := d]) else s
    case DeleteBuffer(n) =>
      s.(buffers := s.buffers - {n},
         arrayBuffer := if s.arrayBuffer == n then 0 else s.arrayBuffer,
         elementArrayBuffer := if s.elementArrayBuffer == n then 0 else s.elementArrayBuffer)
    case VertexAttribPointer(i, p) => s.(pointers := s.pointers[i := AttribSource(s.arrayBuffer, p)])
    case EnableVertexAttribArray(i) => s.(enabled := s.enabled + {i})
    case DisableVertexAttribArray(i) => s.(enabled := s.enabled - {i})
    case DrawElements(_) => s
    case AddVertexShader => s
    case AddFragmentShader => s
    case LinkProgram => s
    case UseProgram(p) => s.(program := p)
  }

  /** The state after issuing `cs` in order, starting from `s`. */
  function Replay(s: GpuState, cs: seq<Call>): GpuState
    decreases |cs|
  {
    if cs == [] then s else Replay(Step(s, cs[0]), cs[1..])
  }

  /** One indexed draw call and the state it was issued in. */
  datatype DrawRecord = DrawRecord(state: GpuState, count: nat)

  /** The draw calls of `cs`, in order, each with the state it saw. */
  function Draws(s: GpuState, cs: seq<Call>): seq<DrawRecord>
    decreases |cs|
  {
    if cs == [] then []
    else (if cs[0].DrawElements? then [DrawRecord(s, cs[0].count)] else [])
         + Draws(Step(s, cs[0]), cs[1..])
  }

  /** Whether `cs` contains no draw call. */
  predicate NoDraws(cs: seq<Call>) {
    forall i :: 0 <= i < |cs| ==> !cs[i].DrawElements?
  }

  lemma {:induction false} ReplayAppend(s: GpuState, a: seq<Call>, b: seq<Call>)
    ensures Replay(s, a + b) == Replay(Replay(s, a), b)
    decreases |a|
  {
    if a != [] {
      assert (a + b)[0] == a[0];
      assert (a + b)[1..] == a[1..] + b;
      ReplayAppend(Step(s, a[0]), a[1..], b);
    } else {
      assert a + b == b;
    }
  }

  lemma {:induction false} DrawsAppend(s: GpuState, a: seq<Call>, b: seq<Call>)
    ensures Draws(s, a + b) == Draws(s, a) + Draws(Replay(s, a), b)
    decreases |a|
  {
    if a != [] {
      assert (a + b)[0] == a[0];
      assert (a + b)[1..] == a[1..] + b;
      DrawsAppend(Step(s, a[0]), a[1..], b);
    } else {
      assert a + b == b;
    }
  }

  lemma {:induction false} DrawsOfNoDraws(s: GpuState, cs: seq<Call>)
    requires NoDraws(cs)
    ensures Draws(s, cs) == []
    decreases |cs|
  {
    if cs != [] {
      assert !cs[0].DrawElements?;
      DrawsOfNoDraws(Step(s, cs[0]), cs[1..]);
    }
  }

  /** Sequence concatenation regroups; proved apart from any trace function so
      that the unfolding of those functions stays out of the way. */
  lemma ConcatAssoc(a: seq<Call>, b: seq<Call>, c: seq<Call>)
    ensures (a + b) + c == a + (b + c)
  {
  }

  lemma ReplayOne(s: GpuState, c: Call)
    ensures Replay(s, [c]) == Step(s, c)
  {
    assert [c][1..] == [];
  }

  lemma ReplayTwo(s: GpuState, c1: Call, c2: Call)
    ensures Replay(s, [c1, c2]) == Step(Step(s, c1), c2)
  {
    assert [c1, c2][1..] == [c2];
    ReplayOne(Step(s, c1), c2);
  }

  /** A lone draw call is recorded with the state it was issued in and changes nothing. */
  lemma DrawOne(s: GpuState, n: nat)
    ensures Draws(s, [DrawElements(n)]) == [DrawRecord(s, n)]
    ensures Replay(s, [DrawElements(n)]) == s
  {
    assert [DrawElements(n)][1..] == [];
  }
}
