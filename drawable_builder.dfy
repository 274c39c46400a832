/** The drawable builder: stages vertices, triangle indices and per-vertex
    colours, and hands finished drawables over to a list of completed
    ones, stamped with the builder's settings. */
module Builder {
  import opened Types
  import opened VertexAttributes
  import opened DrawableGL

  /** An RGBA colour of floats. */
  datatype Color = Color(r: Float, g: Float, b: Float, a: Float)

  datatype ColorMode = PerDrawable | PerVertex

  datatype Vertex = Vertex(x: int16, y: int16)

  /** A drawable's identity; `Empty` stands for no drawable. */
  datatype Identity = Empty | Id(value: nat)

  /** The triangle `addTriangle` stages when `count` vertices are already
      staged: the next three vertices, each index converted to uint16_t. */
  function NewTriangle(count: nat): (r: seq<uint16>)
    ensures |r| == 3
  {
    [ToUInt16(count), ToUInt16(count + 1), ToUInt16(count + 2)]
  }

  /** The triangle `appendTriangle` stages when `count` vertices are
      already staged: the last two staged vertices and the new one. */
  function FanTriangle(count: nat): (r: seq<uint16>)
    ensures |r| == 3
  {
    [ToUInt16(count - 2), ToUInt16(count - 1), ToUInt16(count)]
  }

  /** While the vertex count fits in 16 bits, a new triangle addresses
      exactly the three vertices it stages. */
  lemma NewTriangleExact(count: nat)
    requires count + 2 <= UInt16Max
    ensures NewTriangle(count) == [count as uint16, (count + 1) as uint16, (count + 2) as uint16]
  {
  }

  /** With at least two vertices staged and the count in 16 bits, a fan
      triangle addresses the two previous vertices and the new one, all of
      which exist once it is staged. */
  lemma FanTriangleExact(count: nat)
    requires 2 <= count <= UInt16Max
    ensures FanTriangle(count) == [(count - 2) as uint16, (count - 1) as uint16, count as uint16]
    ensures forall k :: 0 <= k < 3 ==> (FanTriangle(count)[k] as int) < count + 1
  {
  }

  /** With fewer than two vertices staged, the fan triangle wraps below
      zero and addresses vertices 65534 and 65535, which do not exist. */
  lemma FanTriangleWithoutBase(count: nat)
    requires count < 2
    ensures FanTriangle(count)[0] as int == 0x1_0000 + count - 2
    ensures FanTriangle(count)[1] == if count == 0 then 0xFFFF else 0
    ensures (FanTriangle(count)[0] as int) >= count + 1
  {
  }

  /** The six indices `addQuad` stages: a new triangle and a fan triangle
      sharing the middle two vertices. */
  function QuadTriangles(count: nat): (r: seq<uint16>)
    ensures |r| == 6
  {
    NewTriangle(count) + FanTriangle(count + 3)
  }

  /** A quad staged at vertex `count` is the two triangles (0, 1, 2) and
      (1, 2, 3) relative to `count`; in particular the first quad of an
      empty builder has the indices 0, 1, 2, 1, 2, 3. */
  lemma QuadTrianglesExact(count: nat)
    requires count + 3 <= UInt16Max
    ensures var c := count as uint16;
      QuadTriangles(count) == [c, c + 1, c + 2, c + 1, c + 2, c + 3]
  {
  }

  /** Every staged index addresses one of the first `count` vertices. */
  predicate Addresses(indexes: seq<uint16>, count: nat) {
    forall k :: 0 <= k < |indexes| ==> (indexes[k] as int) < count
  }

  /** Staging a new triangle keeps every index pointing at a staged vertex
      as long as the vertex count stays within 16 bits. */
  lemma NewTriangleKeepsAddresses(indexes: seq<uint16>, count: nat)
    requires Addresses(indexes, count) && count + 2 <= UInt16Max
    ensures Addresses(indexes + NewTriangle(count), count + 3)
  {
    NewTriangleExact(count);
  }

  /** Likewise for a fan triangle, which needs two vertices staged before. */
  lemma FanTriangleKeepsAddresses(indexes: seq<uint16>, count: nat)
    requires Addresses(indexes, count) && 2 <= count <= UInt16Max
    ensures Addresses(indexes + FanTriangle(count), count + 1)
  {
    FanTriangleExact(count);
  }

  /** A fan triangle on fewer than two staged vertices addresses a vertex
      that does not exist. */
  lemma FanTriangleWithoutBaseBreaksAddresses(indexes: seq<uint16>, count: nat)
    requires count < 2
    ensures !Addresses(indexes + FanTriangle(count), count + 1)
  {
    FanTriangleWithoutBase(count);
    assert (indexes + FanTriangle(count))[|indexes|] == FanTriangle(count)[0];
  }

  /** A quad keeps every index pointing at a staged vertex while the vertex
      count stays within 16 bits. */
  lemma QuadKeepsAddresses(indexes: seq<uint16>, count: nat)
    requires Addresses(indexes, count) && count + 3 <= UInt16Max
    ensures Addresses(indexes + QuadTriangles(count), count + 4)
  {
    NewTriangleKeepsAddresses(indexes, count);
    FanTriangleKeepsAddresses(indexes + NewTriangle(count), count + 3);
    assert indexes + QuadTriangles(count) == indexes + NewTriangle(count) + FanTriangle(count + 3);
  }

  /** The four vertices of a quad in the order they are staged. */
  function QuadVertices(x0: int16, y0: int16, x1: int16, y1: int16): seq<Vertex> {
    [Vertex(x0, y0), Vertex(x1, y0), Vertex(x0, y1), Vertex(x1, y1)]
  }

  /** `n` copies of the colour, in per-vertex mode only. */
  function ColorsFor(mode: ColorMode, color: Color, n: nat): (r: seq<Color>)
    ensures mode == PerDrawable ==> r == []
    ensures mode == PerVertex ==> |r| == n && forall k :: 0 <= k < n ==> r[k] == color
  {
    if mode == PerVertex then seq(n, _ => color) else []
  }

  /** Between the two states, the drawable changed at most its priority. */
  twostate predicate OnlyPriorityChanged(d: Drawable)
    reads d
  {
    && unchanged(d`depthType, d`subLayerIndex, d`shader, d`matrix, d`tweakers)
    && unchanged(d`indexes, d`segments, d`indexBuffer, d`attributeBuffer, d`textures, d`uniformBuffers)
  }

  class DrawableBuilder {
    const name: string
    var drawableName: string
    var drawPriority: int
    var depthType: DepthMaskType
    var shader: Option<Shader>
    var matrix: Matrix
    var tweakers: seq<nat>
    var colorMode: ColorMode
    var currentColor: Color
    var vertices: seq<Vertex>
    var indexes: seq<uint16>
    var colors: seq<Color>
    const vertexAttributes: VertexAttributeArray
    var currentDrawable: Drawable?
    var drawables: seq<Drawable>

    /** The builder's own attributes are valid and never shared with the
        drawable in progress. */
    ghost predicate Valid()
      reads this, vertexAttributes, vertexAttributes.attrs.Values, currentDrawable
    {
      && vertexAttributes.Valid()
      && (currentDrawable != null ==> currentDrawable.vertexAttributes != vertexAttributes)
    }

    constructor (name: string)
      ensures Valid()
      ensures this.name == name && drawableName == [] && currentDrawable == null && drawables == []
      ensures vertices == [] && indexes == [] && colors == []
    {
      this.name := name;
      drawableName := [];
      drawPriority := 0;
      depthType := ReadOnly;
      shader := None;
      matrix := Matrix([]);
      tweakers := [];
      colorMode := PerDrawable;
      currentColor := Color(Float(0), Float(0), Float(0), Float(0));
      vertices := [];
      indexes := [];
      colors := [];
      vertexAttributes := new VertexAttributeArray();
      currentDrawable := null;
      drawables := [];
    }

    function GetColor(): (c: Color)
      reads this
      ensures c == currentColor
    {
      currentColor
    }

    method SetColor(value: Color)
      modifies this`currentColor
      ensures GetColor() == value
    {
      currentColor := value;
    }

    /** The name a new drawable gets: `drawableName`, or the builder's own
        name when that is empty. */
    function NewDrawableName(): (n: string)
      reads this
      ensures drawableName != [] ==> n == drawableName
      ensures drawableName == [] ==> n == name
    {
      if drawableName == [] then name else drawableName
    }

    /** Returns the drawable in progress, creating one (with identity
        `newId`) only if there is none and `createIfNone` is set. */
    method GetCurrentDrawable(createIfNone: bool, newId: nat) returns (d: Drawable?)
      requires Valid()
      modifies this`currentDrawable
      ensures Valid()
      ensures d == currentDrawable
      ensures old(currentDrawable) != null ==> d == old(currentDrawable)
      ensures old(currentDrawable) == null && !createIfNone ==> d == null
      ensures old(currentDrawable) == null && createIfNone ==>
        && d != null && fresh(d) && fresh(d.vertexAttributes) && d.Valid()
        && d.name == NewDrawableName() && d.id == newId
        && d.tweakers == [] && d.vertexAttributes.attrs == map[] && d.Data() == NoData
    {
      if currentDrawable == null && createIfNone {
        currentDrawable := new Drawable(NewDrawableName(), newId);
      }
      d := currentDrawable;
    }

    function GetDrawableId(): (r: Identity)
      reads this, currentDrawable
      ensures r == Empty <==> currentDrawable == null
      ensures currentDrawable != null ==> r == Id(currentDrawable.id)
    {
      if currentDrawable != null then Id(currentDrawable.id) else Empty
    }

    /** Finishes the drawable in progress. If vertices are staged, the
        drawable in progress (created with identity `newId` if needed)
        receives the builder's priority, depth type, shader, matrix, a copy
        of its attributes and its tweakers; its other data stays as it was
        (the defaults, for a new one). Then a drawable in progress, if any,
        moves to the completed list. */
    method Flush(newId: nat)
      requires Valid()
      modifies this`currentDrawable, this`drawables, currentDrawable
      modifies if currentDrawable != null then {currentDrawable.vertexAttributes} else {}
      ensures Valid()
      ensures currentDrawable == null
      ensures old(vertices) == [] && old(currentDrawable) == null ==> drawables == old(drawables)
      ensures old(vertices) == [] && old(currentDrawable) != null ==>
        drawables == old(drawables) + [old(currentDrawable)] && unchanged(old(currentDrawable))
      ensures old(vertices) != [] ==>
        && |drawables| == |old(drawables)| + 1
        && drawables[..|old(drawables)|] == old(drawables)
        && var d := drawables[|drawables| - 1];
          && (old(currentDrawable) != null ==> d == old(currentDrawable))
          && (old(currentDrawable) == null ==> fresh(d) && d.name == NewDrawableName() && d.id == newId)
          && d.Holds(drawPriority, depthType, shader, matrix,
                     old(if currentDrawable != null then currentDrawable.tweakers + tweakers else tweakers),
                     old(if currentDrawable != null then currentDrawable.Data() else NoData),
                     old(vertexAttributes.Snapshot()))
    {
      if vertices != [] {
        StampCurrent(newId);
      }
      Retire();
    }

    /** The staged-vertices half of a flush: the drawable in progress,
        created with identity `newId` if there is none, receives the
        builder's settings and a copy of its attributes. */
    method StampCurrent(newId: nat)
      requires Valid()
      modifies this`currentDrawable, currentDrawable
      modifies if currentDrawable != null then {currentDrawable.vertexAttributes} else {}
      ensures Valid() && currentDrawable != null
      ensures old(currentDrawable) != null ==> currentDrawable == old(currentDrawable)
      ensures old(currentDrawable) == null ==>
        fresh(currentDrawable) && currentDrawable.name == NewDrawableName() && currentDrawable.id == newId
      ensures currentDrawable.Holds(drawPriority, depthType, shader, matrix,
                                    old(if currentDrawable != null then currentDrawable.tweakers + tweakers else tweakers),
                                    old(if currentDrawable != null then currentDrawable.Data() else NoData),
                                    old(vertexAttributes.Snapshot()))
    {
      var d := GetCurrentDrawable(true, newId);
      Stamp(d);
    }

    /** Moves the drawable in progress, if any, to the completed list. */
    method Retire()
      modifies this`currentDrawable, this`drawables
      ensures currentDrawable == null
      ensures old(currentDrawable) == null ==> drawables == old(drawables)
      ensures old(currentDrawable) != null ==> drawables == old(drawables) + [old(currentDrawable)]
    {
      if currentDrawable != null {
        drawables := drawables + [currentDrawable];
        currentDrawable := null;
      }
    }

    /** Hands the builder's settings and a copy of its attributes to `d`. */
    method Stamp(d: Drawable)
      requires vertexAttributes.Valid() && d.vertexAttributes != vertexAttributes
      modifies d, d.vertexAttributes
      ensures d.Valid()
      ensures d.drawPriority == drawPriority && d.depthType == depthType
      ensures d.shader == shader && d.matrix == matrix
      ensures d.tweakers == old(d.tweakers) + tweakers
      ensures d.vertexAttributes.Snapshot() == old(vertexAttributes.Snapshot())
      ensures d.Data() == old(d.Data())
    {
      // The settings and the attributes are independent parts of `d`, so
      // the order of these two steps does not matter.
      StampSettings(d);
      d.SetVertexAttributes(vertexAttributes);
    }

    /** Hands the builder's priority, depth type, shader, matrix and
        tweakers to `d`. */
    method StampSettings(d: Drawable)
      modifies d
      ensures d.drawPriority == drawPriority && d.depthType == depthType
      ensures d.shader == shader && d.matrix == matrix
      ensures d.tweakers == old(d.tweakers) + tweakers
      ensures d.Data() == old(d.Data())
    {
      d.drawPriority := drawPriority;
      d.depthType := depthType;
      d.shader := shader;
      d.matrix := matrix;
      d.tweakers := d.tweakers + tweakers;
    }

    /** Sets the builder's priority and that of the drawable in progress. */
    method SetDrawPriority(value: int)
      modifies this`drawPriority, currentDrawable
      ensures drawPriority == value
      ensures currentDrawable != null ==> currentDrawable.drawPriority == value && OnlyPriorityChanged(currentDrawable)
    {
      drawPriority := value;
      if currentDrawable != null {
        currentDrawable.drawPriority := value;
      }
    }

    /** As SetDrawPriority, and also every completed drawable. */
    method ResetDrawPriority(value: int)
      modifies this`drawPriority, currentDrawable, set d | d in drawables
      ensures drawPriority == value
      ensures currentDrawable != null ==> currentDrawable.drawPriority == value
      ensures forall k :: 0 <= k < |drawables| ==> drawables[k].drawPriority == value
      ensures forall k :: 0 <= k < |drawables| ==> OnlyPriorityChanged(drawables[k])
      ensures currentDrawable != null && currentDrawable !in drawables ==> OnlyPriorityChanged(currentDrawable)
    {
      SetDrawPriority(value);
      var i := 0;
      while i < |drawables|
        invariant 0 <= i <= |drawables|
        invariant drawPriority == value
        invariant currentDrawable != null ==> currentDrawable.drawPriority == value
        invariant forall k :: 0 <= k < i ==> drawables[k].drawPriority == value
        invariant forall k :: 0 <= k < |drawables| ==> OnlyPriorityChanged(drawables[k])
        invariant currentDrawable != null && currentDrawable !in drawables ==> OnlyPriorityChanged(currentDrawable)
      {
        drawables[i].drawPriority := value;
        i := i + 1;
      }
    }

    /** Stages a triangle of three new vertices. */
    method AddTriangle(x0: int16, y0: int16, x1: int16, y1: int16, x2: int16, y2: int16)
      modifies this`vertices, this`indexes, this`colors
      ensures vertices == old(vertices) + [Vertex(x0, y0), Vertex(x1, y1), Vertex(x2, y2)]
      ensures indexes == old(indexes) + NewTriangle(|old(vertices)|)
      ensures colors == old(colors) + ColorsFor(colorMode, currentColor, 3)
      ensures colorMode == PerVertex && |old(colors)| == |old(vertices)| ==> |colors| == |vertices|
    {
      var n := ToUInt16(|vertices|);
      vertices := vertices + [Vertex(x0, y0), Vertex(x1, y1), Vertex(x2, y2)];
      indexes := indexes + [n, ToUInt16(n as int + 1), ToUInt16(n as int + 2)];
      if colorMode == PerVertex {
        colors := colors + [currentColor, currentColor, currentColor];
      }
      ToUInt16Add(|old(vertices)|, 1);
      ToUInt16Add(|old(vertices)|, 2);
    }

    /** Stages one new vertex and the triangle it closes with the two
        vertices staged before it. */
    method AppendTriangle(x0: int16, y0: int16)
      modifies this`vertices, this`indexes, this`colors
      ensures vertices == old(vertices) + [Vertex(x0, y0)]
      ensures indexes == old(indexes) + FanTriangle(|old(vertices)|)
      ensures colors == old(colors) + ColorsFor(colorMode, currentColor, 1)
      ensures colorMode == PerVertex && |old(colors)| == |old(vertices)| ==> |colors| == |vertices|
    {
      var n := ToUInt16(|vertices|);
      vertices := vertices + [Vertex(x0, y0)];
      indexes := indexes + [ToUInt16(n as int - 2), ToUInt16(n as int - 1), n];
      if colorMode == PerVertex {
        colors := colors + [currentColor];
      }
      ToUInt16Add(|old(vertices)|, -2);
      ToUInt16Add(|old(vertices)|, -1);
    }

    /** Stages the axis-aligned quad with corners (x0, y0) and (x1, y1) as
        two triangles. */
    method AddQuad(x0: int16, y0: int16, x1: int16, y1: int16)
      modifies this`vertices, this`indexes, this`colors
      ensures vertices == old(vertices) + QuadVertices(x0, y0, x1, y1)
      ensures indexes == old(indexes) + QuadTriangles(|old(vertices)|)
      ensures colors == old(colors) + ColorsFor(colorMode, currentColor, 4)
      ensures colorMode == PerVertex && |old(colors)| == |old(vertices)| ==> |colors| == |vertices|
    {
      AddTriangle(x0, y0, x1, y0, x0, y1);
      AppendTriangle(x1, y1);
    }
  }
}
