/** The OpenGL drawable: its upload step, which builds an index buffer, an
    attribute buffer and one vertex array per segment when anything is
    stale, and its draw step, which issues one indexed draw per segment
    between binding and unbinding the uniform buffers and textures. The
    GL context and the upload pass are a log of abstract events. */
module DrawableGL {
  import opened Types
  import opened VertexAttributes

  /** `value::Program::Default`. */
  const DefaultProgram: nat := 0

  /** The primitive mode a segment is drawn with; only passed through. */
  datatype DrawMode = DrawMode(code: nat)

  datatype DepthMaskType = ReadOnly | ReadWrite

  /** An index buffer: its element count and the GL resource holding it. */
  datatype IndexBuffer = NoIndexBuffer | IndexBuffer(elements: nat, resource: nat)

  /** One attribute's binding into the attribute buffer. */
  datatype AttributeBinding = AttributeBinding(attribute: nat, stride: nat, vertexOffset: uint32)

  /** A vertex array object; `InvalidVertexArray` is one never bound. */
  datatype VertexArray =
    | InvalidVertexArray
    | VertexArray(id: nat, indexBuffer: IndexBuffer, bindings: seq<AttributeBinding>)

  /** A segment of the drawable's geometry with its mode and vertex array. */
  datatype DrawSegment = DrawSegment(mode: DrawMode, segment: Segment, vertexArray: VertexArray)

  /** A compiled shader: its GL program and its uniform blocks in the
      order the block map is visited. */
  datatype Shader = Shader(programId: nat, uniformBlocks: seq<string>)

  datatype TextureBinding = TextureBinding(texture: nat, location: int)

  /** A 4x4 double matrix, as bit patterns; it is only copied. */
  datatype Matrix = Matrix(cells: seq<bv64>)

  /** The parts of a drawable that only its own setters and its upload
      change: sub-layer, index data, segments, GPU buffers, textures and
      uniform buffers. */
  datatype DrawableData = DrawableData(
    subLayerIndex: nat, indexes: seq<uint16>, segments: seq<DrawSegment>, indexBuffer: IndexBuffer,
    attributeBuffer: Option<nat>, textures: seq<TextureBinding>, uniformBuffers: map<string, nat>)

  /** A new drawable's data: nothing set, nothing uploaded. */
  const NoData := DrawableData(0, [], [], NoIndexBuffer, None, [], map[])

  /** What the drawable asks of the GL context and the upload pass. */
  datatype Event =
    | ProgramSet(program: nat)
    | DepthModeSet(subLayerIndex: nat, depthType: DepthMaskType)
    | StencilDisabled
    | ColorModeSet
    | CullFaceDisabled
    | UniformBufferBound(block: string, buffer: nat)
    | UniformBufferUnbound(block: string)
    | TextureBound(texture: nat, location: int, unit: nat)
    | TextureUnbound(texture: nat)
    | VertexArrayBound(id: nat)
    | ElementsDrawn(mode: DrawMode, indexOffset: nat, indexLength: nat)
    | IndexBufferCreated(elements: nat, resource: nat)
    | AttributeBindingsBuilt(vertexCount: nat, resource: nat)
    | VertexArrayCreated(vertexArray: VertexArray)

  /** The GL context: current program, bound vertex array, the next free
      object name and the log of everything asked of it. */
  class Context {
    var program: nat
    var boundVertexArray: nat
    var nextName: nat
    var log: seq<Event>

    constructor ()
      ensures program == DefaultProgram && boundVertexArray == 0 && nextName == 1 && log == []
    {
      program := DefaultProgram;
      boundVertexArray := 0;
      nextName := 1;
      log := [];
    }

    /** Assigning `context.program`. */
    method UseProgram(p: nat)
      modifies this
      ensures program == p && log == old(log) + [ProgramSet(p)]
      ensures boundVertexArray == old(boundVertexArray) && nextName == old(nextName)
    {
      program := p;
      log := log + [ProgramSet(p)];
    }

    /** Assigning `context.bindVertexArray`. */
    method BindVertexArray(id: nat)
      modifies this
      ensures boundVertexArray == id && log == old(log) + [VertexArrayBound(id)]
      ensures program == old(program) && nextName == old(nextName)
    {
      boundVertexArray := id;
      log := log + [VertexArrayBound(id)];
    }

    /** A call that changes no tracked state. */
    method Record(e: Event)
      modifies this
      ensures log == old(log) + [e]
      ensures program == old(program) && boundVertexArray == old(boundVertexArray) && nextName == old(nextName)
    {
      log := log + [e];
    }

    /** Setting up a newly created vertex array object for an index buffer
        and attribute bindings, which binds it: the new array is left bound. */
    method CreateVertexArray(va: VertexArray)
      requires va.VertexArray?
      modifies this
      ensures boundVertexArray == va.id && log == old(log) + [VertexArrayCreated(va)]
      ensures program == old(program) && nextName == old(nextName)
    {
      boundVertexArray := va.id;
      log := log + [VertexArrayCreated(va)];
    }

    /** A fresh GL object name. */
    method NewName() returns (n: nat)
      modifies this
      ensures n == old(nextName) && nextName == n + 1
      ensures program == old(program) && boundVertexArray == old(boundVertexArray) && log == old(log)
    {
      n := nextName;
      nextName := nextName + 1;
    }
  }

  /** Some segment has no valid vertex array yet. */
  predicate SomeInvalid(segments: seq<DrawSegment>) {
    exists k :: 0 <= k < |segments| && segments[k].vertexArray.InvalidVertexArray?
  }

  function BlockNames(shader: Option<Shader>): seq<string> {
    if shader.Some? then shader.value.uniformBlocks else []
  }

  /** Binding the uniform buffers: one bind per block, in block order, for
      the blocks that have a buffer of the same name; the others are
      skipped. */
  function UniformBinds(blocks: seq<string>, buffers: map<string, nat>): (r: seq<Event>)
    ensures |r| <= |blocks|
  {
    if blocks == [] then []
    else
      var b := blocks[|blocks| - 1];
      UniformBinds(blocks[..|blocks| - 1], buffers) + (if b in buffers then [UniformBufferBound(b, buffers[b])] else [])
  }

  /** The binds follow the shader's block order: binding the blocks of
      `a` and then those of `b` is binding the blocks of `a + b`. */
  lemma {:induction false} UniformBindsAppend(a: seq<string>, b: seq<string>, buffers: map<string, nat>)
    ensures UniformBinds(a + b, buffers) == UniformBinds(a, buffers) + UniformBinds(b, buffers)
    decreases |b|
  {
    if b == [] {
      assert a + b == a;
    } else {
      var init, last := b[..|b| - 1], b[|b| - 1];
      var tail := if last in buffers then [UniformBufferBound(last, buffers[last])] else [];
      UniformBindsAppend(a, init, buffers);
      var ab := a + b;
      assert ab[..|ab| - 1] == a + init && ab[|ab| - 1] == last;
      assert UniformBinds(ab, buffers) == UniformBinds(a + init, buffers) + tail;
      assert UniformBinds(b, buffers) == UniformBinds(init, buffers) + tail;
    }
  }

  /** Every event of `r` binds, for a block in `blocks` that has a buffer of
      its name, that buffer. */
  predicate BindsMatching(r: seq<Event>, blocks: seq<string>, buffers: map<string, nat>) {
    forall k :: 0 <= k < |r| ==>
      && r[k].UniformBufferBound? && r[k].block in blocks
      && r[k].block in buffers && r[k].buffer == buffers[r[k].block]
  }

  /** Every uniform bind is for a block of the shader that has a buffer of
      its name, and binds that buffer; with no matching buffer at all
      nothing is bound. */
  lemma {:induction false} UniformBindsSound(blocks: seq<string>, buffers: map<string, nat>)
    ensures BindsMatching(UniformBinds(blocks, buffers), blocks, buffers)
    ensures (forall b :: b in blocks ==> b !in buffers) ==> UniformBinds(blocks, buffers) == []
    decreases |blocks|
  {
    if blocks != [] {
      var init := blocks[..|blocks| - 1];
      UniformBindsSound(init, buffers);
      var b := blocks[|blocks| - 1];
      var r := UniformBinds(blocks, buffers);
      var p := UniformBinds(init, buffers);
      assert BindsMatching(p, init, buffers);
      var tail := if b in buffers then [UniformBufferBound(b, buffers[b])] else [];
      assert r == p + tail;
      forall k | 0 <= k < |r|
        ensures r[k].UniformBufferBound? && r[k].block in blocks
        ensures r[k].block in buffers && r[k].buffer == buffers[r[k].block]
      {
        if k < |p| {
          assert r[k] == p[k];
          var j :| 0 <= j < |init| && init[j] == p[k].block;
          assert blocks[j] == init[j];
        } else {
          assert r[k] == tail[k - |p|];
        }
      }
      if forall x :: x in blocks ==> x !in buffers {
        assert forall x :: x in init ==> x in blocks;
      }
    }
  }

  /** Every block of the shader that has a buffer of its name gets that
      buffer bound. */
  lemma {:induction false} UniformBindsComplete(blocks: seq<string>, buffers: map<string, nat>)
    ensures forall b :: b in blocks && b in buffers ==> UniformBufferBound(b, buffers[b]) in UniformBinds(blocks, buffers)
    decreases |blocks|
  {
    if blocks != [] {
      var init := blocks[..|blocks| - 1];
      UniformBindsComplete(init, buffers);
      forall b | b in blocks && b in buffers
        ensures UniformBufferBound(b, buffers[b]) in UniformBinds(blocks, buffers)
      {
        if b != blocks[|blocks| - 1] {
          var k :| 0 <= k < |blocks| && blocks[k] == b;
          assert b in init by { assert init[k] == b; }
        }
      }
    }
  }

  /** Unbinding: every block of the shader, whether or not it was bound. */
  function UniformUnbinds(blocks: seq<string>): (r: seq<Event>)
    ensures |r| == |blocks|
  {
    seq(|blocks|, k requires 0 <= k < |blocks| => UniformBufferUnbound(blocks[k]))
  }

  /** Binding the textures: texture k goes to unit k. */
  function TextureBinds(textures: seq<TextureBinding>): (r: seq<Event>)
    ensures |r| == |textures|
  {
    seq(|textures|, k requires 0 <= k < |textures| => TextureBound(textures[k].texture, textures[k].location, k))
  }

  function TextureUnbinds(textures: seq<TextureBinding>): (r: seq<Event>)
    ensures |r| == |textures|
  {
    seq(|textures|, k requires 0 <= k < |textures| => TextureUnbound(textures[k].texture))
  }

  /** One segment's part of a draw: bind its vertex array if it has a valid
      one, then draw its index range. */
  function SegmentEvents(s: DrawSegment): seq<Event> {
    (if s.vertexArray.VertexArray? then [VertexArrayBound(s.vertexArray.id)] else [])
    + [ElementsDrawn(s.mode, s.segment.indexOffset, s.segment.indexLength)]
  }

  function SegmentDraws(segments: seq<DrawSegment>): seq<Event> {
    if segments == [] then []
    else SegmentDraws(segments[..|segments| - 1]) + SegmentEvents(segments[|segments| - 1])
  }

  /** The draw calls of a log, in order. */
  function Draws(log: seq<Event>): (r: seq<Event>)
    ensures |r| <= |log|
    ensures forall k :: 0 <= k < |r| ==> r[k].ElementsDrawn?
  {
    if log == [] then []
    else Draws(log[..|log| - 1]) + (if log[|log| - 1].ElementsDrawn? then [log[|log| - 1]] else [])
  }

  lemma {:induction false} DrawsAppend(a: seq<Event>, b: seq<Event>)
    ensures Draws(a + b) == Draws(a) + Draws(b)
    decreases |b|
  {
    if b == [] {
      assert a + b == a;
    } else {
      var init := b[..|b| - 1];
      DrawsAppend(a, init);
      assert (a + b)[..|a + b| - 1] == a + init;
    }
  }

  lemma DrawsOfSegment(s: DrawSegment)
    ensures Draws(SegmentEvents(s)) == [ElementsDrawn(s.mode, s.segment.indexOffset, s.segment.indexLength)]
  {
    var drawn := ElementsDrawn(s.mode, s.segment.indexOffset, s.segment.indexLength);
    if s.vertexArray.VertexArray? {
      var bind := VertexArrayBound(s.vertexArray.id);
      assert SegmentEvents(s) == [bind, drawn];
      assert [bind, drawn][..1] == [bind];
      assert Draws([bind]) == [];
    } else {
      assert SegmentEvents(s) == [drawn];
    }
  }

  /** The draw calls of one draw pass: exactly one per segment, in segment
      order, each with the segment's mode and index range. */
  lemma {:induction false} DrawsPerSegment(segments: seq<DrawSegment>)
    ensures |Draws(SegmentDraws(segments))| == |segments|
    ensures forall k :: 0 <= k < |segments| ==>
      Draws(SegmentDraws(segments))[k] ==
        ElementsDrawn(segments[k].mode, segments[k].segment.indexOffset, segments[k].segment.indexLength)
    decreases |segments|
  {
    if segments != [] {
      var init := segments[..|segments| - 1];
      var s := segments[|segments| - 1];
      DrawsPerSegment(init);
      DrawsAppend(SegmentDraws(init), SegmentEvents(s));
      DrawsOfSegment(s);
      var drawn := Draws(SegmentDraws(segments));
      var prev := Draws(SegmentDraws(init));
      var last := ElementsDrawn(s.mode, s.segment.indexOffset, s.segment.indexLength);
      assert SegmentDraws(segments) == SegmentDraws(init) + SegmentEvents(s);
      assert drawn == prev + [last];
      forall k | 0 <= k < |segments|
        ensures drawn[k] == ElementsDrawn(segments[k].mode, segments[k].segment.indexOffset, segments[k].segment.indexLength)
      {
        if k < |init| {
          assert drawn[k] == prev[k];
          assert segments[k] == init[k];
        } else {
          assert drawn[k] == last;
        }
      }
    }
  }

  /** When every segment has a valid vertex array (as after an upload),
      each draw is directly preceded by binding that segment's own vertex
      array. */
  lemma {:induction false} DrawsWithOwnVertexArray(segments: seq<DrawSegment>)
    requires !SomeInvalid(segments)
    ensures |SegmentDraws(segments)| == 2 * |segments|
    ensures forall k :: 0 <= k < |segments| ==>
      && SegmentDraws(segments)[2 * k] == VertexArrayBound(segments[k].vertexArray.id)
      && SegmentDraws(segments)[2 * k + 1] ==
           ElementsDrawn(segments[k].mode, segments[k].segment.indexOffset, segments[k].segment.indexLength)
    decreases |segments|
  {
    if segments != [] {
      var init := segments[..|segments| - 1];
      assert !SomeInvalid(init) by {
        forall k | 0 <= k < |init|
          ensures !init[k].vertexArray.InvalidVertexArray?
        {
          assert init[k] == segments[k];
        }
      }
      DrawsWithOwnVertexArray(init);
      assert segments[|segments| - 1].vertexArray.VertexArray?;
      forall k | 0 <= k < |segments| - 1
        ensures SegmentDraws(segments)[2 * k] == SegmentDraws(init)[2 * k]
        ensures SegmentDraws(segments)[2 * k + 1] == SegmentDraws(init)[2 * k + 1]
      {
      }
    }
  }

  /** Every binding retargeted to `offset`, nothing else changed. */
  function Retargeted(bindings: seq<AttributeBinding>, offset: uint32): (r: seq<AttributeBinding>)
    ensures |r| == |bindings|
  {
    seq(|bindings|, k requires 0 <= k < |bindings| => bindings[k].(vertexOffset := offset))
  }

  lemma RetargetedTwice(bindings: seq<AttributeBinding>, first: uint32, second: uint32)
    ensures Retargeted(Retargeted(bindings, first), second) == Retargeted(bindings, second)
  {
  }

  /** The vertex array built for a segment: named `id`, over the new index
      buffer, with every binding's vertexOffset set to the segment's
      vertexOffset as a uint32_t. */
  function SegmentVertexArray(s: DrawSegment, id: nat, indexBuffer: IndexBuffer, bindings: seq<AttributeBinding>): VertexArray {
    VertexArray(id, indexBuffer, Retargeted(bindings, ToUInt32(s.segment.vertexOffset)))
  }

  /** The segments after a rebuild whose vertex arrays are named
      firstId, firstId + 1, ... */
  function Rebuilt(segments: seq<DrawSegment>, firstId: nat, indexBuffer: IndexBuffer, bindings: seq<AttributeBinding>)
    : (r: seq<DrawSegment>)
    ensures |r| == |segments|
  {
    seq(|segments|, k requires 0 <= k < |segments| =>
      segments[k].(vertexArray := SegmentVertexArray(segments[k], firstId + k, indexBuffer, bindings)))
  }

  /** The vertex arrays created by a rebuild, in segment order. */
  function CreatedVertexArrays(segments: seq<DrawSegment>): (r: seq<Event>)
    ensures |r| == |segments|
  {
    seq(|segments|, k requires 0 <= k < |segments| => VertexArrayCreated(segments[k].vertexArray))
  }

  /** After a rebuild every segment keeps its mode and range, has a valid
      vertex array of its own over the new index buffer, and every binding
      of that array carries the segment's vertexOffset (exactly, when it
      fits in 32 bits). */
  lemma RebuiltSegments(segments: seq<DrawSegment>, firstId: nat, indexBuffer: IndexBuffer, bindings: seq<AttributeBinding>)
    ensures var r := Rebuilt(segments, firstId, indexBuffer, bindings);
      && !SomeInvalid(r)
      && forall k :: 0 <= k < |r| ==>
           && r[k].mode == segments[k].mode && r[k].segment == segments[k].segment
           && r[k].vertexArray.id == firstId + k
           && r[k].vertexArray.indexBuffer == indexBuffer
           && |r[k].vertexArray.bindings| == |bindings|
           && forall j :: 0 <= j < |bindings| ==>
                && r[k].vertexArray.bindings[j].attribute == bindings[j].attribute
                && r[k].vertexArray.bindings[j].stride == bindings[j].stride
                && (segments[k].segment.vertexOffset < 0x1_0000_0000 ==>
                      r[k].vertexArray.bindings[j].vertexOffset as int == segments[k].segment.vertexOffset)
  {
  }

  /** Two segments never share a vertex array after a rebuild. */
  lemma RebuiltDistinct(segments: seq<DrawSegment>, firstId: nat, indexBuffer: IndexBuffer, bindings: seq<AttributeBinding>)
    ensures var r := Rebuilt(segments, firstId, indexBuffer, bindings);
      forall j, k :: 0 <= j < k < |r| ==> r[j].vertexArray.id != r[k].vertexArray.id
  {
  }

  /** The vertex array left bound after creating `count` vertex arrays
      named firstId, firstId + 1, ...: the last one, or `bound` if none. */
  function LastBound(count: nat, firstId: nat, bound: nat): nat {
    if count == 0 then bound else firstId + count - 1
  }

  /** The vertex array a rebuild leaves bound is that of its last segment. */
  lemma RebuiltLeavesLastBound(segments: seq<DrawSegment>, firstId: nat, indexBuffer: IndexBuffer,
                               bindings: seq<AttributeBinding>, bound: nat)
    requires segments != []
    ensures var r := Rebuilt(segments, firstId, indexBuffer, bindings);
      LastBound(|r|, firstId, bound) == r[|r| - 1].vertexArray.id
  {
  }

  /** The program a draw leaves current: the shader's, or the default. */
  function DrawProgram(shader: Option<Shader>): nat {
    if shader.Some? then shader.value.programId else DefaultProgram
  }

  /** Selecting the program: only when it differs from the current one for
      a shader; unconditionally the default program without one. */
  function ProgramEvents(shader: Option<Shader>, current: nat): seq<Event> {
    if shader.None? then [ProgramSet(DefaultProgram)]
    else if shader.value.programId != current then [ProgramSet(shader.value.programId)]
    else []
  }

  class Drawable {
    const name: string
    const id: nat
    var drawPriority: int
    var depthType: DepthMaskType
    var subLayerIndex: nat
    var shader: Option<Shader>
    var matrix: Matrix
    var tweakers: seq<nat>
    const vertexAttributes: VertexAttributeArray
    var indexes: seq<uint16>
    var segments: seq<DrawSegment>
    var indexBuffer: IndexBuffer
    var attributeBuffer: Option<nat>
    var textures: seq<TextureBinding>
    var uniformBuffers: map<string, nat>

    ghost predicate Valid()
      reads this, vertexAttributes, vertexAttributes.attrs.Values
    {
      vertexAttributes.Valid()
    }

    function Data(): DrawableData
      reads this
    {
      DrawableData(subLayerIndex, indexes, segments, indexBuffer, attributeBuffer, textures, uniformBuffers)
    }

    /** The drawable has exactly these settings, tweakers, data and
        attribute values. */
    ghost predicate Holds(priority: int, depth: DepthMaskType, shader: Option<Shader>, matrix: Matrix,
                          tweakers: seq<nat>, data: DrawableData, attributes: map<string, AttributeValue>)
      reads this, vertexAttributes, vertexAttributes.attrs.Values
    {
      && drawPriority == priority && depthType == depth && this.shader == shader && this.matrix == matrix
      && this.tweakers == tweakers && Data() == data && vertexAttributes.Snapshot() == attributes
    }

    /** Whether an upload has to build buffers and vertex arrays. */
    ghost predicate NeedsRebuild()
      reads this, vertexAttributes, vertexAttributes.attrs.Values
    {
      vertexAttributes.AnyDirty() || SomeInvalid(segments)
    }

    constructor (name: string, id: nat)
      ensures Valid() && fresh(vertexAttributes)
      ensures this.name == name && this.id == id
      ensures vertexAttributes.attrs == map[] && shader == None && indexes == [] && segments == []
      ensures indexBuffer == NoIndexBuffer && attributeBuffer == None && textures == [] && uniformBuffers == map[]
      ensures drawPriority == 0 && tweakers == [] && Data() == NoData
    {
      this.name := name;
      this.id := id;
      drawPriority := 0;
      depthType := ReadOnly;
      subLayerIndex := 0;
      shader := None;
      matrix := Matrix([]);
      tweakers := [];
      vertexAttributes := new VertexAttributeArray();
      indexes := [];
      segments := [];
      indexBuffer := NoIndexBuffer;
      attributeBuffer := None;
      textures := [];
      uniformBuffers := map[];
    }

    /** The events of one draw call, given the context's program and bound
        vertex array on entry. */
    function DrawLog(currentProgram: nat, savedVertexArray: nat): seq<Event>
      reads this
    {
      DrawSetup(currentProgram) + DrawPassLog(savedVertexArray)
    }

    /** Everything after the setup: binds, the segment draws, the restore
        of the saved vertex array and the unbinds. */
    function DrawPassLog(savedVertexArray: nat): seq<Event>
      reads this
    {
      DrawBindings() + (SegmentDraws(segments) + [VertexArrayBound(savedVertexArray)]) + DrawUnbindings()
    }

    /** Program selection and the fixed depth, stencil, colour and cull
        state. */
    function DrawSetup(currentProgram: nat): seq<Event>
      reads this
    {
      ProgramEvents(shader, currentProgram)
      + [DepthModeSet(subLayerIndex, depthType), StencilDisabled, ColorModeSet, CullFaceDisabled]
    }

    function DrawBindings(): seq<Event>
      reads this
    {
      UniformBinds(BlockNames(shader), uniformBuffers) + TextureBinds(textures)
    }

    function DrawUnbindings(): seq<Event>
      reads this
    {
      TextureUnbinds(textures) + UniformUnbinds(BlockNames(shader))
    }

    method SetIndexData(indexes: seq<uint16>, segments: seq<DrawSegment>)
      modifies this
      ensures this.indexes == indexes && this.segments == segments
      ensures unchanged(this`shader, this`indexBuffer, this`attributeBuffer, this`textures, this`uniformBuffers)
      ensures unchanged(this`drawPriority, this`depthType, this`subLayerIndex, this`matrix, this`tweakers)
    {
      this.indexes := indexes;
      this.segments := segments;
    }

    /** Copy-assigns the given attributes over the drawable's own. */
    method SetVertexAttributes(value: VertexAttributeArray)
      requires value != vertexAttributes && value.Valid()
      modifies vertexAttributes
      ensures Valid()
      ensures vertexAttributes.Snapshot() == old(value.Snapshot())
    {
      vertexAttributes.Assign(value);
    }

    /** Replaces the contents of the `a_color` attribute, if there is one,
        by the single colour `rgba`. */
    method ResetColor(rgba: Floats4)
      requires Valid()
      modifies vertexAttributes.attrs.Values
      ensures Valid()
      ensures vertexAttributes.attrs == old(vertexAttributes.attrs)
      ensures "a_color" in vertexAttributes.attrs ==>
        vertexAttributes.Snapshot() == old(vertexAttributes.Snapshot())["a_color" :=
          old(vertexAttributes.attrs["a_color"].Value()).(items := [Float4(rgba)], dirty := true, rawData := [])]
      ensures "a_color" !in vertexAttributes.attrs ==> vertexAttributes.Snapshot() == old(vertexAttributes.Snapshot())
    {
      var colorAttr := vertexAttributes.Get("a_color");
      if colorAttr.Some? {
        var a := colorAttr.value;
        ghost var reset := a.Value().(items := [Float4(rgba)], dirty := true, rawData := []);
        a.Clear();
        var _ := a.Set(0, Float4(rgba));
        assert a.items == [Float4(rgba)] && a.dirty && a.rawData == [];
        assert a.Value() == reset;
        ghost var attrs := vertexAttributes.attrs;
        assert forall n :: n in attrs && n != "a_color" ==> attrs[n] != a;
        ghost var expected := old(vertexAttributes.Snapshot())["a_color" := reset];
        forall n | n in attrs
          ensures vertexAttributes.Snapshot()[n] == expected[n]
        {
          if n != "a_color" {
            assert attrs[n].Value() == old(attrs[n].Value());
          }
        }
        assert vertexAttributes.Snapshot() == expected;
      }
    }

    method BindUniformBuffers(ctx: Context)
      modifies ctx
      ensures ctx.log == old(ctx.log) + UniformBinds(BlockNames(shader), uniformBuffers)
      ensures ctx.program == old(ctx.program) && ctx.boundVertexArray == old(ctx.boundVertexArray)
      ensures ctx.nextName == old(ctx.nextName)
    {
      if shader.Some? {
        var blocks := shader.value.uniformBlocks;
        var i := 0;
        while i < |blocks|
          invariant 0 <= i <= |blocks|
          invariant ctx.log == old(ctx.log) + UniformBinds(blocks[..i], uniformBuffers)
          invariant ctx.program == old(ctx.program) && ctx.boundVertexArray == old(ctx.boundVertexArray)
          invariant ctx.nextName == old(ctx.nextName)
        {
          assert blocks[..i + 1][..i] == blocks[..i];
          if blocks[i] in uniformBuffers {
            ctx.Record(UniformBufferBound(blocks[i], uniformBuffers[blocks[i]]));
          }
          i := i + 1;
        }
        assert blocks[..i] == blocks;
      }
    }

    method UnbindUniformBuffers(ctx: Context)
      modifies ctx
      ensures ctx.log == old(ctx.log) + UniformUnbinds(BlockNames(shader))
      ensures ctx.program == old(ctx.program) && ctx.boundVertexArray == old(ctx.boundVertexArray)
      ensures ctx.nextName == old(ctx.nextName)
    {
      if shader.Some? {
        var blocks := shader.value.uniformBlocks;
        var i := 0;
        while i < |blocks|
          invariant 0 <= i <= |blocks|
          invariant ctx.log == old(ctx.log) + UniformUnbinds(blocks[..i])
          invariant ctx.program == old(ctx.program) && ctx.boundVertexArray == old(ctx.boundVertexArray)
          invariant ctx.nextName == old(ctx.nextName)
        {
          ctx.Record(UniformBufferUnbound(blocks[i]));
          i := i + 1;
        }
        assert blocks[..i] == blocks;
      }
    }

    /** Binds texture k of the list to texture unit k. */
    method BindTextures(ctx: Context)
      modifies ctx
      ensures ctx.log == old(ctx.log) + TextureBinds(textures)
      ensures ctx.program == old(ctx.program) && ctx.boundVertexArray == old(ctx.boundVertexArray)
      ensures ctx.nextName == old(ctx.nextName)
    {
      var unit := 0;
      var i := 0;
      while i < |textures|
        invariant 0 <= i <= |textures| && unit == i
        invariant ctx.log == old(ctx.log) + TextureBinds(textures[..i])
        invariant ctx.program == old(ctx.program) && ctx.boundVertexArray == old(ctx.boundVertexArray)
        invariant ctx.nextName == old(ctx.nextName)
      {
        ctx.Record(TextureBound(textures[i].texture, textures[i].location, unit));
        unit := unit + 1;
        i := i + 1;
      }
      assert textures[..i] == textures;
    }

    method UnbindTextures(ctx: Context)
      modifies ctx
      ensures ctx.log == old(ctx.log) + TextureUnbinds(textures)
      ensures ctx.program == old(ctx.program) && ctx.boundVertexArray == old(ctx.boundVertexArray)
      ensures ctx.nextName == old(ctx.nextName)
    {
      var i := 0;
      while i < |textures|
        invariant 0 <= i <= |textures|
        invariant ctx.log == old(ctx.log) + TextureUnbinds(textures[..i])
        invariant ctx.program == old(ctx.program) && ctx.boundVertexArray == old(ctx.boundVertexArray)
        invariant ctx.nextName == old(ctx.nextName)
      {
        ctx.Record(TextureUnbound(textures[i].texture));
        i := i + 1;
      }
      assert textures[..i] == textures;
    }

    /** The segment loop of a draw: each segment's vertex array, when
        valid, is bound before its index range is drawn. */
    method DrawSegments(ctx: Context)
      modifies ctx
      ensures ctx.log == old(ctx.log) + SegmentDraws(segments)
      ensures ctx.program == old(ctx.program) && ctx.nextName == old(ctx.nextName)
    {
      var i := 0;
      while i < |segments|
        invariant 0 <= i <= |segments|
        invariant ctx.log == old(ctx.log) + SegmentDraws(segments[..i])
        invariant ctx.program == old(ctx.program) && ctx.nextName == old(ctx.nextName)
      {
        assert segments[..i + 1][..i] == segments[..i];
        var seg := segments[i];
        if seg.vertexArray.VertexArray? {
          ctx.BindVertexArray(seg.vertexArray.id);
        }
        ctx.Record(ElementsDrawn(seg.mode, seg.segment.indexOffset, seg.segment.indexLength));
        i := i + 1;
      }
      assert segments[..i] == segments;
    }

    /** Selects the program and sets the fixed draw state. */
    method SetUpDraw(ctx: Context)
      modifies ctx
      ensures ctx.log == old(ctx.log) + DrawSetup(old(ctx.program))
      ensures ctx.program == DrawProgram(shader)
      ensures ctx.boundVertexArray == old(ctx.boundVertexArray) && ctx.nextName == old(ctx.nextName)
    {
      if shader.Some? {
        if shader.value.programId != ctx.program {
          ctx.UseProgram(shader.value.programId);
        }
      } else {
        ctx.UseProgram(DefaultProgram);
      }
      ctx.Record(DepthModeSet(subLayerIndex, depthType));
      // Stencil testing is disabled whether or not the drawable has a tile.
      ctx.Record(StencilDisabled);
      ctx.Record(ColorModeSet);
      ctx.Record(CullFaceDisabled);
    }

    /** Draws every segment with the drawable's program and state, then
        restores the vertex array that was bound on entry. */
    method Draw(ctx: Context)
      modifies ctx
      ensures ctx.log == old(ctx.log) + DrawLog(old(ctx.program), old(ctx.boundVertexArray))
      ensures ctx.program == DrawProgram(shader)
      ensures ctx.boundVertexArray == old(ctx.boundVertexArray)
      ensures ctx.nextName == old(ctx.nextName)
    {
      SetUpDraw(ctx);
      ghost var setUp := ctx.log;
      DrawPass(ctx);
      assert ctx.log == setUp + DrawPassLog(old(ctx.boundVertexArray));
    }

    /** The part of a draw after the setup. */
    method DrawPass(ctx: Context)
      modifies ctx
      ensures ctx.log == old(ctx.log) + DrawPassLog(old(ctx.boundVertexArray))
      ensures ctx.program == old(ctx.program)
      ensures ctx.boundVertexArray == old(ctx.boundVertexArray)
      ensures ctx.nextName == old(ctx.nextName)
    {
      BindAll(ctx);
      ghost var bound := ctx.log;
      var saveVertexArray := ctx.boundVertexArray;
      DrawSegments(ctx);
      ctx.BindVertexArray(saveVertexArray);
      assert ctx.log == bound + (SegmentDraws(segments) + [VertexArrayBound(saveVertexArray)]);
      ghost var drawn := ctx.log;
      UnbindAll(ctx);
      assert ctx.log == drawn + DrawUnbindings();
    }

    /** Binds the uniform buffers, then the textures. */
    method BindAll(ctx: Context)
      modifies ctx
      ensures ctx.log == old(ctx.log) + DrawBindings()
      ensures ctx.program == old(ctx.program) && ctx.boundVertexArray == old(ctx.boundVertexArray)
      ensures ctx.nextName == old(ctx.nextName)
    {
      BindUniformBuffers(ctx);
      BindTextures(ctx);
    }

    /** Unbinds the textures, then the uniform buffers. */
    method UnbindAll(ctx: Context)
      modifies ctx
      ensures ctx.log == old(ctx.log) + DrawUnbindings()
      ensures ctx.program == old(ctx.program) && ctx.boundVertexArray == old(ctx.boundVertexArray)
      ensures ctx.nextName == old(ctx.nextName)
    {
      UnbindTextures(ctx);
      UnbindUniformBuffers(ctx);
    }

    /** Sets every binding's vertexOffset, in place. */
    static method RetargetBindings(bindings: seq<AttributeBinding>, offset: uint32) returns (r: seq<AttributeBinding>)
      ensures r == Retargeted(bindings, offset)
    {
      r := bindings;
      var j := 0;
      while j < |r|
        invariant 0 <= j <= |r| && |r| == |bindings|
        invariant forall k :: 0 <= k < j ==> r[k] == bindings[k].(vertexOffset := offset)
        invariant forall k :: j <= k < |r| ==> r[k] == bindings[k]
      {
        r := r[j := r[j].(vertexOffset := offset)];
        j := j + 1;
      }
    }

    /** Without a shader nothing happens. With one, when the attributes are
        dirty or some segment lacks a vertex array, creates an index buffer
        of all the indexes, asks the upload pass for attribute bindings for
        the largest attribute count (`bindings` is what it returns), and
        gives every segment a new vertex array whose bindings start at the
        segment's vertexOffset. Otherwise nothing happens either. */
    method Upload(ctx: Context, bindings: seq<AttributeBinding>)
      requires Valid()
      modifies this`indexBuffer, this`attributeBuffer, this`segments, ctx
      ensures shader.None? || !old(NeedsRebuild()) ==> unchanged(this) && unchanged(ctx)
      ensures shader.Some? && old(NeedsRebuild()) ==>
                RebuiltFrom(ctx, old(ctx.nextName), old(ctx.log), old(segments), old(ctx.boundVertexArray),
                            old(vertexAttributes.MaxCount()), bindings)
      ensures ctx.program == old(ctx.program)
      ensures shader.Some? ==> !SomeInvalid(segments)
    {
      if shader.None? {
        return;
      }

      var build := CheckRebuild();
      if build {
        var vertexCount := vertexAttributes.GetMaxCount();
        Rebuild(ctx, vertexCount, bindings);
      }
    }

    /** The state after a rebuild that started from context name
        `firstName`, log `log0` and segments `segments0`, for attributes
        whose largest count is `vertexCount`: a new index buffer over all
        the indexes, then a new attribute buffer, then one new vertex array
        per segment (see `Rebuilt`), all logged in that order, every
        segment valid, and the last segment's vertex array left bound
        (`bound0`, the array bound before, when there are no segments). */
    predicate RebuiltFrom(ctx: Context, firstName: nat, log0: seq<Event>, segments0: seq<DrawSegment>,
                          bound0: nat, vertexCount: nat, bindings: seq<AttributeBinding>)
      reads this, ctx
    {
      && indexBuffer == IndexBuffer(|indexes|, firstName)
      && attributeBuffer == Some(firstName + 1)
      && segments == Rebuilt(segments0, firstName + 2, indexBuffer, bindings)
      && ctx.log == log0
           + [IndexBufferCreated(|indexes|, firstName), AttributeBindingsBuilt(vertexCount, firstName + 1)]
           + CreatedVertexArrays(segments)
      && ctx.nextName == firstName + 2 + |segments|
      && ctx.boundVertexArray == LastBound(|segments|, firstName + 2, bound0)
      && !SomeInvalid(segments)
    }

    /** Whether an upload has to rebuild: the attributes are dirty or some
        segment lacks a vertex array. */
    method CheckRebuild() returns (build: bool)
      ensures build == NeedsRebuild()
    {
      var dirty := vertexAttributes.IsDirty();
      build := dirty || SomeInvalid(segments);
    }

    /** The rebuild branch of an upload, for attributes whose largest
        count is `vertexCount`. */
    method Rebuild(ctx: Context, vertexCount: nat, bindings: seq<AttributeBinding>)
      modifies this`indexBuffer, this`attributeBuffer, this`segments, ctx
      ensures RebuiltFrom(ctx, old(ctx.nextName), old(ctx.log), old(segments), old(ctx.boundVertexArray), vertexCount, bindings)
      ensures ctx.program == old(ctx.program)
    {
      var indexResource := ctx.NewName();
      ctx.Record(IndexBufferCreated(|indexes|, indexResource));
      var newIndexBuffer := IndexBuffer(|indexes|, indexResource);

      var vertexResource := ctx.NewName();
      ctx.Record(AttributeBindingsBuilt(vertexCount, vertexResource));

      ghost var created := [IndexBufferCreated(|indexes|, indexResource), AttributeBindingsBuilt(vertexCount, vertexResource)];
      assert ctx.log == old(ctx.log) + created;

      attributeBuffer := Some(vertexResource);
      indexBuffer := newIndexBuffer;
      BuildVertexArrays(ctx, bindings);
      RebuiltSegments(old(segments), old(ctx.nextName) + 2, indexBuffer, bindings);
    }

    /** Creates a vertex array for each segment, retargeting every binding
        to the segment's vertexOffset before binding it. */
    method BuildVertexArrays(ctx: Context, bindings: seq<AttributeBinding>)
      modifies this`segments, ctx
      ensures segments == Rebuilt(old(segments), old(ctx.nextName), indexBuffer, bindings)
      ensures ctx.log == old(ctx.log) + CreatedVertexArrays(segments)
      ensures ctx.nextName == old(ctx.nextName) + |segments|
      ensures ctx.boundVertexArray == LastBound(|segments|, old(ctx.nextName), old(ctx.boundVertexArray))
      ensures ctx.program == old(ctx.program)
    {
      ghost var rebuilt := Rebuilt(segments, ctx.nextName, indexBuffer, bindings);
      var current := bindings;
      var i := 0;
      while i < |segments|
        invariant 0 <= i <= |segments| == |old(segments)|
        invariant forall k :: 0 <= k < i ==> segments[k] == rebuilt[k]
        invariant forall k :: i <= k < |segments| ==> segments[k] == old(segments)[k]
        invariant i == 0 ==> current == bindings
        invariant i > 0 ==> current == Retargeted(bindings, ToUInt32(old(segments)[i - 1].segment.vertexOffset))
        invariant ctx.nextName == old(ctx.nextName) + i
        invariant ctx.log == old(ctx.log) + CreatedVertexArrays(rebuilt[..i])
        invariant ctx.boundVertexArray == LastBound(i, old(ctx.nextName), old(ctx.boundVertexArray))
        invariant ctx.program == old(ctx.program)
      {
        var seg := segments[i];
        var offset := ToUInt32(seg.segment.vertexOffset);
        if i > 0 {
          RetargetedTwice(bindings, ToUInt32(old(segments)[i - 1].segment.vertexOffset), offset);
        }
        current := RetargetBindings(current, offset);
        var vertexArrayId := ctx.NewName();
        var vertexArray := VertexArray(vertexArrayId, indexBuffer, current);
        ctx.CreateVertexArray(vertexArray);
        assert CreatedVertexArrays(rebuilt[..i + 1]) == CreatedVertexArrays(rebuilt[..i]) + [VertexArrayCreated(vertexArray)];
        segments := segments[i := seg.(vertexArray := vertexArray)];
        i := i + 1;
      }
      assert segments == rebuilt;
      assert rebuilt[..i] == rebuilt;
    }
  }
}
