/** Tile-mask geometry of the raster layer: every tile of a mask becomes a
    quad of four vertices and six indices, packed into segments that never
    address more than 65535 vertices; plus the layer's choice between the
    shared static quad and a bucket's own geometry, and its texture filter. */
module RasterLayer {
  import opened Types

  datatype Point = Point(x: int16, y: int16)

  /** A canonical tile: zoom level (uint8_t) and column/row (uint32_t). */
  datatype CanonicalTileID = CanonicalTileID(z: nat, x: nat, y: nat)

  /** The vectors the geometry is appended to. */
  datatype RenderData = RenderData(
    vertices: seq<Point>, attributes: seq<Point>, indices: seq<uint16>, segments: seq<Segment>)

  const Empty := RenderData([], [], [], [])

  /** Vertices per quad. */
  const QuadVertices: nat := 4
  /** Indices per quad (two triangles). */
  const QuadIndexCount: nat := 6
  /** How many quads fit in one segment: 4 * 16383 = 65532 <= 65535 < 65536. */
  const QuadsPerSegment: nat := 16383

  /** `extent >> z` for a non-negative extent: z halvings, each rounding
      down. */
  function ShiftRight(extent: nat, z: nat): (r: nat)
    ensures r <= extent
    ensures z > 0 ==> r <= extent / 2
  {
    if z == 0 then extent else ShiftRight(extent / 2, z - 1)
  }

  function Pow2(n: nat): (r: nat)
    ensures r >= 1
  {
    if n == 0 then 1 else 2 * Pow2(n - 1)
  }

  lemma {:induction false} MulAtLeast(d: nat, k: nat)
    requires k >= 1
    ensures d * k >= d
  {
    if k > 1 {
      MulAtLeast(d, k - 1);
      assert d * k == d * (k - 1) + d;
    }
  }

  /** The quotient of a division is determined by `a == d * q + r` and
      `0 <= r < d`. */
  lemma DivisionUnique(a: nat, d: nat, q: nat, r: nat)
    requires d > 0 && a == d * q + r && r < d
    ensures a / d == q
  {
    var q', r' := a / d, a % d;
    assert a == d * q' + r' && 0 <= r' < d;
    if q' < q {
      MulAtLeast(d, q - q');
    } else if q' > q {
      MulAtLeast(d, q' - q);
    }
  }

  /** Dividing by 2, then by c, is dividing by 2c. */
  lemma HalveThenDivide(a: nat, c: nat)
    requires c > 0
    ensures (a / 2) / c == a / (2 * c)
  {
    var h := a / 2;
    var q := h / c;
    assert a == 2 * h + a % 2;
    assert h == c * q + h % c;
    assert a == (2 * c) * q + (2 * (h % c) + a % 2);
    DivisionUnique(a, 2 * c, q, 2 * (h % c) + a % 2);
  }

  /** `extent >> z` is the extent divided by 2^z, rounding down. */
  lemma {:induction false} ShiftRightIsDivision(extent: nat, z: nat)
    ensures ShiftRight(extent, z) == extent / Pow2(z)
  {
    if z > 0 {
      ShiftRightIsDivision(extent / 2, z - 1);
      HalveThenDivide(extent, Pow2(z - 1));
    }
  }

  /** The four corners of a tile's quad in the order they are appended:
      top-left, top-right, bottom-left, bottom-right, every coordinate
      converted to int16_t. */
  function QuadCorners(id: CanonicalTileID, extent: nat): (r: seq<Point>)
    ensures |r| == QuadVertices
    ensures r[0].x == r[2].x && r[1].x == r[3].x && r[0].y == r[1].y && r[2].y == r[3].y
  {
    var vertexExtent := ShiftRight(extent, id.z);
    var tl := Point(ToInt16(id.x * vertexExtent), ToInt16(id.y * vertexExtent));
    var br := Point(ToInt16(tl.x as int + vertexExtent), ToInt16(tl.y as int + vertexExtent));
    [tl, Point(br.x, tl.y), Point(tl.x, br.y), br]
  }

  /** The two triangles (0, 1, 2) and (1, 2, 3) of a quad whose first
      vertex sits at `offset` within its segment. */
  function QuadIndices(offset: uint16): (r: seq<uint16>)
    ensures |r| == QuadIndexCount
    ensures offset as int + 3 <= UInt16Max ==>
      r == [offset, offset + 1, offset + 2, offset + 1, offset + 2, offset + 3]
  {
    [offset, ToUInt16(offset as int + 1), ToUInt16(offset as int + 2),
     ToUInt16(offset as int + 1), ToUInt16(offset as int + 2), ToUInt16(offset as int + 3)]
  }

  /** A new segment is opened when there is none or the last one cannot
      take four more vertices. */
  predicate NeedsNewSegment(segments: seq<Segment>) {
    |segments| == 0 || segments[|segments| - 1].vertexLength + QuadVertices > UInt16Max
  }

  /** The effect of one tile of the mask. */
  function AppendQuad(d: RenderData, id: CanonicalTileID, extent: nat): (r: RenderData)
    ensures |r.segments| > 0
  {
    var segments :=
      if NeedsNewSegment(d.segments) then d.segments + [Segment(|d.vertices|, |d.indices|, 0, 0)]
      else d.segments;
    var corners := QuadCorners(id, extent);
    var last := segments[|segments| - 1];
    RenderData(
      d.vertices + corners,
      d.attributes + corners,
      d.indices + QuadIndices(ToUInt16(last.vertexLength)),
      segments[|segments| - 1 := last.(vertexLength := last.vertexLength + QuadVertices,
                                       indexLength := last.indexLength + QuadIndexCount)])
  }

  /** AppendQuad field by field. */
  lemma AppendQuadParts(d: RenderData, id: CanonicalTileID, extent: nat)
    ensures var r := AppendQuad(d, id, extent);
      var opening := NeedsNewSegment(d.segments);
      var segments := if opening then d.segments + [Segment(|d.vertices|, |d.indices|, 0, 0)] else d.segments;
      var last := segments[|segments| - 1];
      && r.vertices == d.vertices + QuadCorners(id, extent)
      && r.attributes == d.attributes + QuadCorners(id, extent)
      && r.indices == d.indices + QuadIndices(ToUInt16(last.vertexLength))
      && r.segments == segments[|segments| - 1 := last.(vertexLength := last.vertexLength + QuadVertices,
                                                       indexLength := last.indexLength + QuadIndexCount)]
      && last.vertexLength + QuadVertices <= UInt16Max
  {
  }

  /** The effect of the whole mask, tile by tile in mask order. */
  function Build(d: RenderData, mask: seq<CanonicalTileID>, extent: nat): RenderData
    decreases |mask|
  {
    if mask == [] then d
    else AppendQuad(Build(d, mask[..|mask| - 1], extent), mask[|mask| - 1], extent)
  }

  lemma BuildLast(d: RenderData, mask: seq<CanonicalTileID>, extent: nat)
    requires mask != []
    ensures Build(d, mask, extent) == AppendQuad(Build(d, mask[..|mask| - 1], extent), mask[|mask| - 1], extent)
  {
  }

  function SumVertexLengths(segments: seq<Segment>): nat {
    if segments == [] then 0
    else SumVertexLengths(segments[..|segments| - 1]) + segments[|segments| - 1].vertexLength
  }

  function SumIndexLengths(segments: seq<Segment>): nat {
    if segments == [] then 0
    else SumIndexLengths(segments[..|segments| - 1]) + segments[|segments| - 1].indexLength
  }

  /** The body of the `buildRenderData` loop for one tile of the mask. */
  method AppendTile(
    id: CanonicalTileID, extent: nat,
    vertices: seq<Point>, attributes: seq<Point>, indices: seq<uint16>, segments: seq<Segment>)
    returns (vertices': seq<Point>, attributes': seq<Point>, indices': seq<uint16>, segments': seq<Segment>)
    ensures RenderData(vertices', attributes', indices', segments') ==
            AppendQuad(RenderData(vertices, attributes, indices, segments), id, extent)
  {
    vertices', attributes', indices', segments' := vertices, attributes, indices, segments;
    // Create a quad for every masked tile.
    var vertexExtent := ShiftRight(extent, id.z);
    var tlVertex := Point(ToInt16(id.x * vertexExtent), ToInt16(id.y * vertexExtent));
    var brVertex := Point(ToInt16(tlVertex.x as int + vertexExtent), ToInt16(tlVertex.y as int + vertexExtent));

    if |segments'| == 0 || segments'[|segments'| - 1].vertexLength + QuadVertices > UInt16Max {
      // Move to a new segment because the old one can't hold the geometry.
      segments' := segments' + [Segment(|vertices'|, |indices'|, 0, 0)];
    }

    var quad := [Point(tlVertex.x, tlVertex.y), Point(brVertex.x, tlVertex.y),
                 Point(tlVertex.x, brVertex.y), Point(brVertex.x, brVertex.y)];
    vertices' := vertices' + quad;
    attributes' := attributes' + quad;

    var segment := segments'[|segments'| - 1];
    assert segment.vertexLength + QuadVertices <= UInt16Max;
    var offset := ToUInt16(segment.vertexLength);

    indices' := indices' + [offset, ToUInt16(offset as int + 1), ToUInt16(offset as int + 2),
                            ToUInt16(offset as int + 1), ToUInt16(offset as int + 2), ToUInt16(offset as int + 3)];

    segments' := segments'[|segments'| - 1 := segment.(vertexLength := segment.vertexLength + QuadVertices,
                                                       indexLength := segment.indexLength + QuadIndexCount)];

    AppendQuadParts(RenderData(vertices, attributes, indices, segments), id, extent);
    assert quad == QuadCorners(id, extent);
    assert indices' == indices + QuadIndices(offset);
  }

  /** The `buildRenderData` lambda: appends one quad per mask tile to the
      given vectors, opening segments as needed. */
  method BuildRenderData(
    mask: seq<CanonicalTileID>, extent: nat,
    vertices: seq<Point>, attributes: seq<Point>, indices: seq<uint16>, segments: seq<Segment>)
    returns (vertices': seq<Point>, attributes': seq<Point>, indices': seq<uint16>, segments': seq<Segment>)
    ensures RenderData(vertices', attributes', indices', segments') ==
            Build(RenderData(vertices, attributes, indices, segments), mask, extent)
    ensures |vertices'| == |vertices| + QuadVertices * |mask| && vertices'[..|vertices|] == vertices
    ensures |attributes'| == |attributes| + QuadVertices * |mask| && attributes'[..|attributes|] == attributes
    ensures attributes'[|attributes|..] == vertices'[|vertices|..]
    ensures |indices'| == |indices| + QuadIndexCount * |mask| && indices'[..|indices|] == indices
    ensures SumVertexLengths(segments') == SumVertexLengths(segments) + QuadVertices * |mask|
    ensures SumIndexLengths(segments') == SumIndexLengths(segments) + QuadIndexCount * |mask|
    ensures (forall j :: 0 <= j < |segments| ==> segments[j].vertexLength <= UInt16Max) ==>
            forall j :: 0 <= j < |segments'| ==> segments'[j].vertexLength <= UInt16Max
  {
    vertices', attributes', indices', segments' := vertices, attributes, indices, segments;
    var i := 0;
    while i < |mask|
      invariant 0 <= i <= |mask|
      invariant RenderData(vertices', attributes', indices', segments') ==
                Build(RenderData(vertices, attributes, indices, segments), mask[..i], extent)
    {
      vertices', attributes', indices', segments' := AppendTile(mask[i], extent, vertices', attributes', indices', segments');
      BuildLast(RenderData(vertices, attributes, indices, segments), mask[..i + 1], extent);
      assert mask[..i + 1][..i] == mask[..i];
      i := i + 1;
    }
    assert mask[..i] == mask;
    ghost var d := RenderData(vertices, attributes, indices, segments);
    BuildCounts(d, mask, extent);
    BuildAttributesMirror(d, mask, extent);
    BuildSums(d, mask, extent);
    BuildSegmentBound(d, mask, extent);
  }

  /** Each tile appends exactly four vertices, four attribute entries and
      six indices, and nothing already present changes. */
  lemma {:induction false} BuildCounts(d: RenderData, mask: seq<CanonicalTileID>, extent: nat)
    ensures var r := Build(d, mask, extent);
      && |r.vertices| == |d.vertices| + QuadVertices * |mask| && r.vertices[..|d.vertices|] == d.vertices
      && |r.attributes| == |d.attributes| + QuadVertices * |mask| && r.attributes[..|d.attributes|] == d.attributes
      && |r.indices| == |d.indices| + QuadIndexCount * |mask| && r.indices[..|d.indices|] == d.indices
      && |r.segments| >= |d.segments|
    decreases |mask|
  {
    if mask != [] {
      BuildCounts(d, mask[..|mask| - 1], extent);
    }
  }

  /** The attribute entries appended are exactly the vertices appended. */
  lemma {:induction false} BuildAttributesMirror(d: RenderData, mask: seq<CanonicalTileID>, extent: nat)
    ensures var r := Build(d, mask, extent);
      && |d.attributes| <= |r.attributes| && |d.vertices| <= |r.vertices|
      && r.attributes[|d.attributes|..] == r.vertices[|d.vertices|..]
    decreases |mask|
  {
    if mask != [] {
      var init := mask[..|mask| - 1];
      var p := Build(d, init, extent);
      BuildAttributesMirror(d, init, extent);
      BuildCounts(d, init, extent);
      BuildLast(d, mask, extent);
      AppendQuadParts(p, mask[|mask| - 1], extent);
      var corners := QuadCorners(mask[|mask| - 1], extent);
      var r := Build(d, mask, extent);
      assert r.attributes == p.attributes + corners;
      assert r.vertices == p.vertices + corners;
      assert r.attributes[|d.attributes|..] == p.attributes[|d.attributes|..] + corners;
      assert r.vertices[|d.vertices|..] == p.vertices[|d.vertices|..] + corners;
      assert r.attributes[|d.attributes|..] == r.vertices[|d.vertices|..];
    }
  }

  /** The last tile of a mask appends its corners to the vertices. */
  lemma BuildVerticesLast(d: RenderData, mask: seq<CanonicalTileID>, extent: nat)
    requires mask != []
    ensures Build(d, mask, extent).vertices
         == Build(d, mask[..|mask| - 1], extent).vertices + QuadCorners(mask[|mask| - 1], extent)
  {
    BuildLast(d, mask, extent);
    AppendQuadParts(Build(d, mask[..|mask| - 1], extent), mask[|mask| - 1], extent);
  }

  /** Tile k of the mask owns the four vertices starting at 4k past the
      original end, in the corner order of QuadCorners. */
  lemma {:induction false} BuildCorners(d: RenderData, mask: seq<CanonicalTileID>, extent: nat, k: nat)
    requires k < |mask|
    ensures var r := Build(d, mask, extent);
      && |r.vertices| == |d.vertices| + QuadVertices * |mask|
      && r.vertices[|d.vertices| + QuadVertices * k .. |d.vertices| + QuadVertices * k + QuadVertices]
         == QuadCorners(mask[k], extent)
    decreases |mask|
  {
    var n := |mask| - 1;
    var init := mask[..n];
    var pv := Build(d, init, extent).vertices;
    var corners := QuadCorners(mask[n], extent);
    BuildCounts(d, init, extent);
    BuildVerticesLast(d, mask, extent);
    assert |pv| == |d.vertices| + QuadVertices * n;
    var start := |d.vertices| + QuadVertices * k;
    if k < n {
      assert QuadVertices * k + QuadVertices <= QuadVertices * n;
      BuildCorners(d, init, extent, k);
      assert init[k] == mask[k];
      SliceOfConcat(pv, corners, start, start + QuadVertices);
    } else {
      assert |pv| == start;
      assert (pv + corners)[start .. start + QuadVertices] == corners;
    }
  }

  /** Every tile adds four vertices and six indices to the segments'
      running totals. */
  lemma {:induction false} BuildSums(d: RenderData, mask: seq<CanonicalTileID>, extent: nat)
    ensures var r := Build(d, mask, extent);
      && SumVertexLengths(r.segments) == SumVertexLengths(d.segments) + QuadVertices * |mask|
      && SumIndexLengths(r.segments) == SumIndexLengths(d.segments) + QuadIndexCount * |mask|
    decreases |mask|
  {
    if mask != [] {
      var p := Build(d, mask[..|mask| - 1], extent);
      BuildSums(d, mask[..|mask| - 1], extent);
      var segments :=
        if NeedsNewSegment(p.segments) then p.segments + [Segment(|p.vertices|, |p.indices|, 0, 0)]
        else p.segments;
      if NeedsNewSegment(p.segments) {
        assert segments[..|segments| - 1] == p.segments;
      }
      var r := Build(d, mask, extent);
      assert r.segments[..|r.segments| - 1] == segments[..|segments| - 1];
    }
  }

  /** No segment that the build opened or extended addresses more than
      65535 vertices: a segment over the limit is an input segment left
      exactly as it was. */
  lemma {:induction false} BuildSegmentBound(d: RenderData, mask: seq<CanonicalTileID>, extent: nat)
    ensures var r := Build(d, mask, extent);
      && |r.segments| >= |d.segments|
      && forall j :: 0 <= j < |r.segments| ==>
           r.segments[j].vertexLength <= UInt16Max || (j < |d.segments| && r.segments[j] == d.segments[j])
    decreases |mask|
  {
    if mask != [] {
      BuildSegmentBound(d, mask[..|mask| - 1], extent);
    }
  }

  /** Starting from empty vectors, the segments' lengths add up to the
      vectors' sizes: 4 vertices and 6 indices per tile. */
  lemma BuildFromEmptyTotals(mask: seq<CanonicalTileID>, extent: nat)
    ensures var r := Build(Empty, mask, extent);
      && SumVertexLengths(r.segments) == |r.vertices| == QuadVertices * |mask|
      && SumIndexLengths(r.segments) == |r.indices| == QuadIndexCount * |mask|
  {
    BuildCounts(Empty, mask, extent);
    BuildSums(Empty, mask, extent);
  }

  function Min(a: int, b: int): int {
    if a <= b then a else b
  }

  /** The fixed segment layout for n tiles built from empty vectors:
      segment j starts at vertex 65532 j (4 * 16383 j) and index 98298 j
      (6 * 16383 j) and holds the next 16383 tiles, or what is left of them. */
  ghost predicate LaidOut(segments: seq<Segment>, n: nat) {
    && |segments| == (n + 16382) / 16383
    && forall j :: 0 <= j < |segments| ==>
         && segments[j].vertexOffset == 65532 * j
         && segments[j].indexOffset == 98298 * j
         && segments[j].vertexLength == 4 * Min(16383, n - 16383 * j)
         && segments[j].indexLength == 6 * Min(16383, n - 16383 * j)
  }

  /** Tile k's six indices address vertex 4 (k mod 16383) of its segment. */
  ghost predicate QuadsIndexed(indices: seq<uint16>, n: nat) {
    && |indices| == 6 * n
    && forall k :: 0 <= k < n ==> indices[6 * k .. 6 * k + 6] == QuadIndices((4 * (k % 16383)) as uint16)
  }

  lemma DivisionFacts(n: nat)
    ensures n % 16383 == 0 ==> (n + 16382) / 16383 == n / 16383 && (n + 16383) / 16383 == n / 16383 + 1
    ensures n % 16383 != 0 ==> (n + 16382) / 16383 == n / 16383 + 1 && (n + 16383) / 16383 == n / 16383 + 1
    ensures n - 16383 * (n / 16383) == n % 16383
  {
    var q, r := n / 16383, n % 16383;
    assert n == 16383 * q + r && 0 <= r < 16383;
    if r == 0 {
      assert n + 16382 == 16383 * q + 16382;
      assert n + 16383 == 16383 * (q + 1);
    } else {
      assert n + 16382 == 16383 * (q + 1) + (r - 1);
      assert n + 16383 == 16383 * (q + 1) + r;
    }
  }

  /** One more tile keeps the segments laid out. */
  lemma {:induction false} LaidOutStep(p: RenderData, id: CanonicalTileID, extent: nat, n: nat)
    requires LaidOut(p.segments, n) && |p.vertices| == 4 * n && |p.indices| == 6 * n
    ensures var r := AppendQuad(p, id, extent);
      && LaidOut(r.segments, n + 1)
      && r.indices == p.indices + QuadIndices((4 * (n % 16383)) as uint16)
  {
    var r := AppendQuad(p, id, extent);
    AppendQuadParts(p, id, extent);
    DivisionFacts(n);
    var m := n / 16383;
    if n % 16383 == 0 {
      if n > 0 {
        assert p.segments[m - 1].vertexLength == 4 * 16383;
      }
      assert NeedsNewSegment(p.segments);
      var segments := p.segments + [Segment(|p.vertices|, |p.indices|, 0, 0)];
      assert r.segments == segments[m := Segment(65532 * m, 98298 * m, 4, 6)];
      forall j | 0 <= j < |r.segments|
        ensures r.segments[j].vertexLength == 4 * Min(16383, n + 1 - 16383 * j)
        ensures r.segments[j].indexLength == 6 * Min(16383, n + 1 - 16383 * j)
      {
        if j < m {
          assert r.segments[j] == p.segments[j];
        }
      }
    } else {
      assert p.segments[m].vertexLength == 4 * (n % 16383);
      assert !NeedsNewSegment(p.segments);
      forall j | 0 <= j < |r.segments|
        ensures r.segments[j].vertexLength == 4 * Min(16383, n + 1 - 16383 * j)
        ensures r.segments[j].indexLength == 6 * Min(16383, n + 1 - 16383 * j)
      {
        if j < m {
          assert r.segments[j] == p.segments[j];
        }
      }
    }
  }

  /** Starting from empty vectors the layout is fixed: the segments are
      LaidOut, and tile k's indices address vertex 4 (k mod 16383) of its
      segment, which is the tile's own first vertex 4 k. */
  lemma {:induction false} BuildFromEmptyLayout(mask: seq<CanonicalTileID>, extent: nat)
    ensures var r := Build(Empty, mask, extent);
      && LaidOut(r.segments, |mask|)
      && QuadsIndexed(r.indices, |mask|)
    decreases |mask|
  {
    var r := Build(Empty, mask, extent);
    if mask != [] {
      var n := |mask| - 1;
      var init := mask[..n];
      var p := Build(Empty, init, extent);
      BuildFromEmptyLayout(init, extent);
      BuildCounts(Empty, init, extent);
      BuildLast(Empty, mask, extent);
      LaidOutStep(p, mask[n], extent, n);
      QuadsIndexedStep(p.indices, n);
    }
  }

  lemma {:induction false} QuadsIndexedStep(indices: seq<uint16>, n: nat)
    requires QuadsIndexed(indices, n)
    ensures QuadsIndexed(indices + QuadIndices((4 * (n % 16383)) as uint16), n + 1)
  {
    var last := QuadIndices((4 * (n % 16383)) as uint16);
    var r := indices + last;
    forall k | 0 <= k < n + 1
      ensures r[6 * k .. 6 * k + 6] == QuadIndices((4 * (k % 16383)) as uint16)
    {
      if k < n {
        SliceOfConcat(indices, last, 6 * k, 6 * k + 6);
        assert indices[6 * k .. 6 * k + 6] == QuadIndices((4 * (k % 16383)) as uint16);
      } else {
        assert 6 * k == |indices|;
        assert r[6 * k .. 6 * k + 6] == last;
      }
    }
  }

  lemma SliceOfConcat<T>(a: seq<T>, b: seq<T>, i: nat, j: nat)
    requires i <= j <= |a|
    ensures (a + b)[i..j] == a[i..j]
  {
  }

  /** The layout places every tile's quad inside one segment: segment j
      covers vertices [65532 j, 65532 j + vertexLength), and tile k lies in
      segment k / 16383 at relative vertex 4 (k mod 16383). */
  lemma TileInItsSegment(segments: seq<Segment>, n: nat, k: nat)
    requires LaidOut(segments, n) && k < n
    ensures var j := k / 16383;
      && j < |segments|
      && segments[j].vertexOffset + 4 * (k % 16383) == 4 * k
      && 4 * (k % 16383) + 4 <= segments[j].vertexLength <= UInt16Max
  {
    DivisionFacts(n);
    DivisionFacts(k);
    var j := k / 16383;
    assert k == 16383 * j + k % 16383;
  }

  /** A vertex of the static and bucket vertex vectors: position and
      texture position. */
  datatype LayoutVertex = LayoutVertex(pos: Point, texturePos: Point)

  /** The geometry a tile drawable is set up from. */
  datatype TileData = TileData(vertices: seq<LayoutVertex>, indices: seq<uint16>, segments: seq<Segment>)

  datatype RasterBucket = RasterBucket(
    vertices: seq<LayoutVertex>, indices: seq<uint16>, segments: seq<Segment>,
    sharedVertices: seq<LayoutVertex>, sharedTriangles: seq<uint16>)

  /** The bucket's shared vertices, shared triangles and segments replace
      the static quad only when its vertices, indices and segments are all
      non-empty; otherwise all three come from the static data. */
  function SelectTileData(staticData: TileData, bucket: RasterBucket): (r: TileData)
    ensures bucket.vertices != [] && bucket.indices != [] && bucket.segments != [] ==>
      r == TileData(bucket.sharedVertices, bucket.sharedTriangles, bucket.segments)
    ensures bucket.vertices == [] || bucket.indices == [] || bucket.segments == [] ==>
      r == staticData
  {
    if bucket.vertices != [] && bucket.indices != [] && bucket.segments != [] then
      TileData(bucket.sharedVertices, bucket.sharedTriangles, bucket.segments)
    else
      staticData
  }

  datatype RasterResamplingType = Linear | Nearest
  datatype TextureFilterType = Nearest | Linear

  /** Nearest-neighbour resampling samples with the nearest filter, every
      other resampling with the linear one. */
  function FilterFor(resampling: RasterResamplingType): (f: TextureFilterType)
    ensures f == TextureFilterType.Nearest <==> resampling == RasterResamplingType.Nearest
    ensures f == TextureFilterType.Linear <==> resampling != RasterResamplingType.Nearest
  {
    if resampling == RasterResamplingType.Nearest then TextureFilterType.Nearest else TextureFilterType.Linear
  }
}
