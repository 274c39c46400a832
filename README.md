# Drawable renderer staging and upload, modelled in Dafny

This project models the bookkeeping core of MapLibre GL Native's drawable renderer. It has four parts:

- **Vertex attribute storage** (`vertex_attribute.dfy`, module `VertexAttributes`):
  - A `VertexAttribute` is a growable sequence of tagged-union elements: `int32`, `int2/3/4`, `float`, `float2/3/4`, `matf3` or `matf4`.
  - It carries a dirty flag and a raw byte cache, with the invariant that a dirty attribute holds no cached bytes.
  - A `VertexAttributeArray` maps names to attributes. It supports insert-if-absent `add`, conflict-checked `getOrAdd`, an aggregate dirty check, the largest element count, the stride total, and `resolve` against overrides.
- **Geometry staging in the drawable builder** (`drawable_builder.dfy`, module `Builder`):
  - Triangles, fan triangles and quads append vertices and 16-bit index triples computed from the running vertex count.
  - Colours are appended only in per-vertex colour mode.
  - `flush` stamps the builder's settings onto the drawable in progress and moves that drawable to the completed list.
- **The OpenGL drawable** (`drawable_gl.dfy`, module `DrawableGL`):
  - `upload` decides whether to rebuild. A rebuild creates an index buffer and an attribute buffer, then one vertex array per segment, with every binding retargeted to that segment's vertex offset.
  - `draw` binds the uniform buffers and textures, issues one indexed draw per segment in order, and restores the previously bound vertex array.
  - The GL context and the upload pass are a `Context` object. It keeps the current program, the bound vertex array, a counter for fresh object names, and a log of abstract events.
- **Raster tile-mask geometry** (`raster_layer.dfy`, module `RasterLayer`):
  - `buildRenderData` turns every tile of a mask into a 4-vertex, 6-index quad.
  - Quads are packed into segments that never address more than 65535 vertices.
  - The module also models the choice between the static shared quad and a bucket's own geometry, and the resampling-to-filter choice.

`types.dfy` (module `Types`) holds the shared value types:

- the fixed-width integers and the C++ conversions between them;
- a 16-bit vertex/index `Segment`;
- 32-bit floats kept as bit patterns, so that equality is C++ float equality. A NaN never equals itself, and +0 equals -0. The source's change detection compares stored values with `!=`, so this matters for when an attribute becomes dirty.

Code that changes state in place is modelled as classes whose methods have `modifies` clauses:

- each method's `ensures` ties the new state to a specification function of the old state;
- lemmas prove what those functions promise.

With no shader, `draw` still selects the default program and draws every segment (`src/mbgl/gl/drawable_gl.cpp:26-33`); `DrawableGL.Drawable.Draw` models exactly that.

## Model

| member | source | states |
|---|---|---|
| Types.ToUInt16Add | src/mbgl/gfx/drawable_builder.cpp:68-72 | Adding to a value already converted to `uint16_t` and converting again gives the same index as converting once. This is the C++ `n+1` on a `uint16_t n` |
| Types.NaNIsNotSelfEqual | include/mbgl/gfx/vertex_attribute.hpp:76-79 | A NaN float compares unequal to itself under C++ `!=` |
| VertexAttributes.Matches | include/mbgl/gfx/vertex_attribute.hpp:76-78 | A stored element matches a value only when it holds the same variant alternative |
| VertexAttributes.MatchesSelf | include/mbgl/gfx/vertex_attribute.hpp:76-79 | An element matches itself exactly when none of its float components is NaN |
| VertexAttributes.Resized | include/mbgl/gfx/vertex_attribute.hpp:71-72 | `resize(max(size, n))` never shrinks, keeps every existing element, and fills the new slots with the default element |
| VertexAttributes.Stored | include/mbgl/gfx/vertex_attribute.hpp:69-87 | After a set at `i`, the count is `max(old count, i+1)`, index `i` holds the value, and every other index is unchanged or newly defaulted |
| VertexAttributes.DirtyAfterSet | include/mbgl/gfx/vertex_attribute.hpp:71-85 | A set never clears dirty and growing always dirties. On a clean attribute, an in-range set dirties iff the alternative or the value changes |
| VertexAttributes.RepeatedSetKeepsClean | include/mbgl/gfx/vertex_attribute.hpp:75-86 | Setting the value a clean slot already holds keeps the attribute clean iff the value has no NaN |
| VertexAttributes.Created | include/mbgl/gfx/vertex_attribute.hpp:226-231 | A created attribute has `count` default elements, stride `size*count`, and starts dirty with no cached bytes |
| VertexAttributes.VertexAttribute.constructor | include/mbgl/gfx/vertex_attribute.hpp:39-44 | A new attribute holds `count_` default elements, is dirty, and has an empty cache |
| VertexAttributes.VertexAttribute.Copy | include/mbgl/gfx/vertex_attribute.hpp:45 | The copy constructor copies every field |
| VertexAttributes.VertexAttribute.GetCount | include/mbgl/gfx/vertex_attribute.hpp:62 | The count is the number of items |
| VertexAttributes.VertexAttribute.Get | include/mbgl/gfx/vertex_attribute.hpp:65 | `get(i)` needs `i` in range and returns item `i` |
| VertexAttributes.VertexAttribute.IsDirty | include/mbgl/gfx/vertex_attribute.hpp:104 | Reports the dirty flag; a dirty attribute has no cached raw bytes |
| VertexAttributes.VertexAttribute.SetIndex | include/mbgl/gfx/vertex_attribute.hpp:56 | Changes only the binding index |
| VertexAttributes.VertexAttribute.Reserve | include/mbgl/gfx/vertex_attribute.hpp:67 | Changes neither the items nor the dirty flag nor the cache |
| VertexAttributes.VertexAttribute.SetDirty | include/mbgl/gfx/vertex_attribute.hpp:105-108 | Sets dirty, empties the raw cache, and changes nothing else |
| VertexAttributes.VertexAttribute.Set | include/mbgl/gfx/vertex_attribute.hpp:69-87 | Items become `Stored(old items, i, v)` and dirty becomes `DirtyAfterSet`. The cache is emptied exactly when `setDirty` runs. The dirty/cache invariant is kept |
| VertexAttributes.VertexAttribute.SetErased | include/mbgl/gfx/vertex_attribute.hpp:88-95 | A type-erased set stores like a typed set but always leaves the attribute dirty with an empty cache, even for an unchanged value |
| VertexAttributes.VertexAttribute.Clear | include/mbgl/gfx/vertex_attribute.hpp:97-102 | Leaves no items. Marks dirty iff there were items; clearing an empty attribute keeps its dirty flag and cache |
| VertexAttributes.Lookup | include/mbgl/gfx/vertex_attribute.hpp:156 | A lookup finds an entry iff the name is present, and then returns that entry |
| VertexAttributes.MaxOf | include/mbgl/gfx/vertex_attribute.hpp:150-151 | The result bounds every value of the map and is attained by one of them unless it is 0 |
| VertexAttributes.SumRemove | include/mbgl/gfx/vertex_attribute.hpp:147-148 | A map's sum does not depend on which entry is taken out first, so the stride total has no order |
| VertexAttributes.VertexAttributeArray.constructor | include/mbgl/gfx/vertex_attribute.hpp:138 | A new array is empty and valid |
| VertexAttributes.VertexAttributeArray.MaxCountIsMax | include/mbgl/gfx/vertex_attribute.hpp:150-151 | The largest count bounds every entry's count and is some entry's count, or 0 |
| VertexAttributes.VertexAttributeArray.MaxCountUnique | include/mbgl/gfx/vertex_attribute.hpp:150-151 | The largest count is determined by the entries |
| VertexAttributes.VertexAttributeArray.Size | include/mbgl/gfx/vertex_attribute.hpp:145 | The size is the number of names |
| VertexAttributes.VertexAttributeArray.Get | include/mbgl/gfx/vertex_attribute.hpp:156 | Returns the entry of that name, or the null sentinel when absent |
| VertexAttributes.VertexAttributeArray.Create | include/mbgl/gfx/vertex_attribute.hpp:226-231 | Returns a fresh, valid attribute in the `Created` state |
| VertexAttributes.VertexAttributeArray.Add | include/mbgl/gfx/vertex_attribute.hpp:158-165 | A taken name yields the null sentinel and leaves the map untouched. Otherwise a fresh created attribute is inserted under the name and returned |
| VertexAttributes.VertexAttributeArray.GetOrAdd | include/mbgl/gfx/vertex_attribute.hpp:167-174 | An existing entry is returned when data type and count agree, null on a conflict; either way the map is untouched. An absent name is added |
| VertexAttributes.VertexAttributeArray.Clear | include/mbgl/gfx/vertex_attribute.hpp:191 | Leaves the array empty |
| VertexAttributes.VertexAttributeArray.IsDirty | include/mbgl/gfx/vertex_attribute.hpp:185-189 | True iff some entry is dirty, so an empty array is clean |
| VertexAttributes.VertexAttributeArray.GetMaxCount | include/mbgl/gfx/vertex_attribute.hpp:150-151 | Returns the largest entry count (`MaxCountIsMax`) |
| VertexAttributes.VertexAttributeArray.GetTotalSize | include/mbgl/gfx/vertex_attribute.hpp:147-148 | Returns the sum of the entries' strides |
| VertexAttributes.VertexAttributeArray.ObserveAttributes | include/mbgl/gfx/vertex_attribute.hpp:193-201 | Visits every (name, attribute) pair of the map, each name exactly once |
| VertexAttributes.VertexAttributeArray.Resolve | include/mbgl/gfx/vertex_attribute.hpp:203-206 | One delegate call per default, each name once, with the override of the same name or null. Override-only names are not visited |
| VertexAttributes.VertexAttributeArray.Assign | include/mbgl/gfx/vertex_attribute.hpp:209 | Copy assignment: afterwards every entry is a fresh copy with the same value as the other array's entry of that name |
| DrawableGL.Context.UseProgram | src/mbgl/gl/drawable_gl.cpp:28-32 | Assigning the program records it and changes only the program |
| DrawableGL.Context.BindVertexArray | src/mbgl/gl/drawable_gl.cpp:55-66 | Assigning the bound vertex array records it and changes only that |
| DrawableGL.Context.CreateVertexArray | src/mbgl/gl/drawable_gl.cpp:167-169 | Creating and setting up a vertex array leaves it bound and changes nothing else |
| DrawableGL.Context.NewName | src/mbgl/gl/drawable_gl.cpp:143-167 | Each GL object created gets a name never handed out before |
| DrawableGL.UniformBinds | src/mbgl/gl/drawable_gl.cpp:107-118 | At most one bind per shader block |
| DrawableGL.UniformBindsSound | src/mbgl/gl/drawable_gl.cpp:107-118 | Every bind is for a shader block that has a buffer of its name, and binds that buffer. With no matching buffer nothing is bound |
| DrawableGL.UniformBindsAppend | src/mbgl/gl/drawable_gl.cpp:107-118 | Binds follow the shader's block order: the binds for `a + b` are those for `a` followed by those for `b` |
| DrawableGL.UniformBindsComplete | src/mbgl/gl/drawable_gl.cpp:107-118 | Every shader block that has a buffer of its name gets that buffer bound |
| DrawableGL.UniformUnbinds | src/mbgl/gl/drawable_gl.cpp:120-127 | One unbind per shader block |
| DrawableGL.TextureBinds | src/mbgl/gl/drawable_gl.cpp:178-183 | One bind per texture, in list order |
| DrawableGL.TextureUnbinds | src/mbgl/gl/drawable_gl.cpp:185-189 | One unbind per texture |
| DrawableGL.DrawsOfSegment | src/mbgl/gl/drawable_gl.cpp:57-64 | A segment's events contain exactly one draw, of its mode and index range |
| DrawableGL.DrawsPerSegment | src/mbgl/gl/drawable_gl.cpp:57-64 | The segment loop issues exactly one draw per segment, in segment order, each with `(mode, indexOffset, indexLength)` |
| DrawableGL.DrawsWithOwnVertexArray | src/mbgl/gl/drawable_gl.cpp:57-64 | When every segment has a valid vertex array, each draw comes directly after binding that segment's own array |
| DrawableGL.Retargeted | src/mbgl/gl/drawable_gl.cpp:163-165 | Retargeting keeps the number of bindings |
| DrawableGL.RetargetedTwice | src/mbgl/gl/drawable_gl.cpp:159-165 | Retargeting the bindings left over from the previous segment equals retargeting the originals |
| DrawableGL.Rebuilt | src/mbgl/gl/drawable_gl.cpp:158-174 | A rebuild keeps the number of segments |
| DrawableGL.CreatedVertexArrays | src/mbgl/gl/drawable_gl.cpp:167-173 | One creation per segment |
| DrawableGL.RebuiltSegments | src/mbgl/gl/drawable_gl.cpp:158-174 | After a rebuild every segment keeps its mode and range and has a valid vertex array over the new index buffer. Every binding carries the segment's `vertexOffset` (exactly, below 2^32) |
| DrawableGL.RebuiltLeavesLastBound | src/mbgl/gl/drawable_gl.cpp:159-174 | The vertex array left bound after a rebuild is that of the last segment |
| DrawableGL.RebuiltDistinct | src/mbgl/gl/drawable_gl.cpp:167-173 | No two segments share a vertex array after a rebuild |
| DrawableGL.Drawable.constructor | src/mbgl/gl/drawable_gl.cpp:14-16 | A new drawable has no shader, no indexes, segments, buffers, textures or uniform buffers, and an empty attribute array of its own |
| DrawableGL.Drawable.SetIndexData | src/mbgl/gl/drawable_gl.cpp:72-75 | Replaces indexes and segments wholesale and changes nothing else |
| DrawableGL.Drawable.SetVertexAttributes | src/mbgl/gl/drawable_gl.cpp:85-87 | The drawable's attributes become copies of the given ones |
| DrawableGL.Drawable.ResetColor | src/mbgl/gl/drawable_gl.cpp:100-105 | If `a_color` exists it ends with exactly one item, the new colour, dirty, with an empty cache, and no other attribute changes. Otherwise nothing changes |
| DrawableGL.Drawable.BindUniformBuffers | src/mbgl/gl/drawable_gl.cpp:107-118 | Logs exactly `UniformBinds` of the shader's blocks, nothing without a shader, and changes no context state |
| DrawableGL.Drawable.UnbindUniformBuffers | src/mbgl/gl/drawable_gl.cpp:120-127 | Logs one unbind per shader block, nothing without a shader |
| DrawableGL.Drawable.BindTextures | src/mbgl/gl/drawable_gl.cpp:178-183 | Texture k of the list is bound to unit k |
| DrawableGL.Drawable.UnbindTextures | src/mbgl/gl/drawable_gl.cpp:185-189 | Every texture is unbound, in list order |
| DrawableGL.Drawable.DrawSegments | src/mbgl/gl/drawable_gl.cpp:57-64 | Logs each segment's optional vertex-array bind and its draw, in order |
| DrawableGL.Drawable.SetUpDraw | src/mbgl/gl/drawable_gl.cpp:26-49 | The program is set only when it differs for a shader, and always to the default without one. Then the depth, stencil, colour and cull state are set |
| DrawableGL.Drawable.Draw | src/mbgl/gl/drawable_gl.cpp:23-70 | Logs setup, binds, per-segment draws, the restore of the saved vertex array and unbinds. Afterwards the program is the shader's (or the default) and the bound vertex array is what it was |
| DrawableGL.Drawable.DrawPass | src/mbgl/gl/drawable_gl.cpp:51-69 | After the setup: binds, one draw per segment, the saved vertex array bound again, then unbinds. The program and the bound vertex array end as they were |
| DrawableGL.Drawable.BindAll | src/mbgl/gl/drawable_gl.cpp:51-52 | Uniform buffers are bound before textures, and no context state changes |
| DrawableGL.Drawable.UnbindAll | src/mbgl/gl/drawable_gl.cpp:68-69 | Textures are unbound before uniform buffers, and no context state changes |
| DrawableGL.Drawable.RetargetBindings | src/mbgl/gl/drawable_gl.cpp:163-165 | Every binding's `vertexOffset` becomes the given offset, nothing else changes |
| DrawableGL.Drawable.Upload | src/mbgl/gl/drawable_gl.cpp:129-176 | Without a shader, or when nothing is dirty and every segment has a vertex array, nothing changes. Otherwise `RebuiltFrom` holds: the index buffer counts all indexes, the vertex count requested is the largest attribute count, the segments are rebuilt, and the log shows the creations. With a shader every segment has a vertex array afterwards. A rebuild leaves the last segment's vertex array bound (the previous one if there are no segments). The program never changes |
| DrawableGL.Drawable.CheckRebuild | src/mbgl/gl/drawable_gl.cpp:134-137 | A rebuild is needed iff some attribute is dirty or some segment has no valid vertex array |
| DrawableGL.Drawable.Rebuild | src/mbgl/gl/drawable_gl.cpp:139-175 | Names the index buffer, then the attribute buffer, then the vertex arrays, in that order and each fresh. It leaves the state `RebuiltFrom` describes, with every segment holding a valid vertex array and the last one bound |
| DrawableGL.Drawable.BuildVertexArrays | src/mbgl/gl/drawable_gl.cpp:158-174 | Each segment gets a new vertex array whose bindings are retargeted to its own `vertexOffset`. Setting one up binds it, so the last one stays bound |
| Builder.NewTriangle | src/mbgl/gfx/drawable_builder.cpp:68-72 | `addTriangle` stages one triple |
| Builder.FanTriangle | src/mbgl/gfx/drawable_builder.cpp:79-81 | `appendTriangle` stages one triple |
| Builder.NewTriangleExact | src/mbgl/gfx/drawable_builder.cpp:67-72 | While the count fits in 16 bits the triple is `(n, n+1, n+2)` |
| Builder.FanTriangleExact | src/mbgl/gfx/drawable_builder.cpp:78-81 | With `n >= 2` the triple is `(n-2, n-1, n)`, and all three vertices exist |
| Builder.FanTriangleWithoutBase | src/mbgl/gfx/drawable_builder.cpp:78-81 | With `n < 2` the first index wraps to 65534 or 65535, a vertex that does not exist |
| Builder.QuadTriangles | src/mbgl/gfx/drawable_builder.cpp:87-90 | A quad stages six indices |
| Builder.QuadTrianglesExact | src/mbgl/gfx/drawable_builder.cpp:87-90 | A quad at `n` stages `(n, n+1, n+2), (n+1, n+2, n+3)` |
| Builder.NewTriangleKeepsAddresses | src/mbgl/gfx/drawable_builder.cpp:67-72 | A new triangle keeps every staged index pointing at a staged vertex while the count fits in 16 bits |
| Builder.FanTriangleKeepsAddresses | src/mbgl/gfx/drawable_builder.cpp:78-81 | Likewise for a fan triangle on at least two vertices |
| Builder.FanTriangleWithoutBaseBreaksAddresses | src/mbgl/gfx/drawable_builder.cpp:78-81 | A fan triangle on fewer than two vertices addresses a missing vertex |
| Builder.QuadKeepsAddresses | src/mbgl/gfx/drawable_builder.cpp:87-90 | A quad keeps every staged index pointing at a staged vertex while the count fits in 16 bits |
| Builder.ColorsFor | src/mbgl/gfx/drawable_builder.cpp:73-75 | `n` copies of the current colour in per-vertex mode, none otherwise |
| Builder.DrawableBuilder.constructor | src/mbgl/gfx/drawable_builder.cpp:7-10 | A new builder has its name, nothing staged, no drawable in progress and none completed |
| Builder.DrawableBuilder.GetColor | src/mbgl/gfx/drawable_builder.cpp:14-16 | Returns the current colour |
| Builder.DrawableBuilder.SetColor | src/mbgl/gfx/drawable_builder.cpp:17-19 | `getColor` afterwards returns the value set |
| Builder.DrawableBuilder.NewDrawableName | src/mbgl/gfx/drawable_builder.cpp:23 | The drawable name if non-empty, else the builder's name |
| Builder.DrawableBuilder.GetCurrentDrawable | src/mbgl/gfx/drawable_builder.cpp:21-26 | An existing drawable is returned as is. None is created without `createIfNone`. Otherwise a fresh drawable named `NewDrawableName()` is created and returned |
| Builder.DrawableBuilder.GetDrawableId | src/mbgl/gfx/drawable_builder.cpp:45-47 | `Empty` iff there is no drawable in progress, else its identity |
| Builder.DrawableBuilder.Flush | src/mbgl/gfx/drawable_builder.cpp:28-43 | No drawable is in progress afterwards. The completed list grows by exactly the drawable in progress (created if needed) when vertices were staged or one existed, and is unchanged otherwise. With vertices staged, that drawable carries the builder's priority, depth type, shader, matrix, a copy of its attributes, and its tweakers appended. Its sub-layer, indexes, segments, buffers, textures and uniform buffers are as they were, or the defaults for a new drawable |
| Builder.DrawableBuilder.StampCurrent | src/mbgl/gfx/drawable_builder.cpp:29-36 | There is a drawable in progress afterwards: the old one, or a fresh one with identity `newId`. It carries the builder's settings, a copy of its attributes and its tweakers appended. Its other data is unchanged, or the defaults for a new drawable |
| Builder.DrawableBuilder.Retire | src/mbgl/gfx/drawable_builder.cpp:39-42 | The drawable in progress, if any, is appended to the completed list, and none is in progress afterwards |
| Builder.DrawableBuilder.Stamp | src/mbgl/gfx/drawable_builder.cpp:30-36 | The drawable receives priority, depth type, shader, matrix, the attribute copy and the appended tweakers, and nothing else changes |
| Builder.DrawableBuilder.StampSettings | src/mbgl/gfx/drawable_builder.cpp:31-36 | The drawable receives priority, depth type, shader and matrix, and the builder's tweakers are appended to its own; its data is unchanged |
| Builder.DrawableBuilder.SetDrawPriority | src/mbgl/gfx/drawable_builder.cpp:53-58 | Sets the builder's priority and that of the drawable in progress, and nothing else of it |
| Builder.DrawableBuilder.ResetDrawPriority | src/mbgl/gfx/drawable_builder.cpp:60-65 | Additionally every completed drawable has the new priority and is otherwise unchanged |
| Builder.DrawableBuilder.AddTriangle | src/mbgl/gfx/drawable_builder.cpp:67-76 | Appends the three vertices, the triple `NewTriangle(n)` and `ColorsFor(mode, colour, 3)`. In per-vertex mode one colour per vertex is kept |
| Builder.DrawableBuilder.AppendTriangle | src/mbgl/gfx/drawable_builder.cpp:78-85 | Appends the vertex, the triple `FanTriangle(n)` and `ColorsFor(mode, colour, 1)` |
| Builder.DrawableBuilder.AddQuad | src/mbgl/gfx/drawable_builder.cpp:87-90 | Appends the corners `(x0,y0),(x1,y0),(x0,y1),(x1,y1)`, the indices `QuadTriangles(n)` and four colours in per-vertex mode |
| RasterLayer.ShiftRight | src/mbgl/renderer/layers/render_raster_layer.cpp:327 | `EXTENT >> z` never exceeds the extent and halves it at least once for `z > 0` |
| RasterLayer.ShiftRightIsDivision | src/mbgl/renderer/layers/render_raster_layer.cpp:327 | `EXTENT >> z` is `EXTENT / 2^z`, so a tile's vertex extent is the extent divided by 2^z |
| RasterLayer.QuadCorners | src/mbgl/renderer/layers/render_raster_layer.cpp:327-350 | Four corners `tl, (br.x, tl.y), (tl.x, br.y), br`, sharing columns and rows pairwise |
| RasterLayer.QuadIndices | src/mbgl/renderer/layers/render_raster_layer.cpp:352-364 | Six indices `off, off+1, off+2, off+1, off+2, off+3` when they fit in 16 bits |
| RasterLayer.AppendQuad | src/mbgl/renderer/layers/render_raster_layer.cpp:325-368 | After one tile there is at least one segment |
| RasterLayer.AppendQuadParts | src/mbgl/renderer/layers/render_raster_layer.cpp:334-367 | One tile appends its corners to vertices and attributes and its quad indices at the segment's `vertexLength`. It opens a segment iff needed and grows the last one by 4 and 6, never past 65535 vertices |
| RasterLayer.AppendTile | src/mbgl/renderer/layers/render_raster_layer.cpp:325-368 | The loop body equals `AppendQuad` |
| RasterLayer.BuildRenderData | src/mbgl/renderer/layers/render_raster_layer.cpp:311-369 | Equals `Build` over the mask. Adds 4 vertices, 4 attribute entries and 6 indices per tile, keeps prefixes, mirrors vertices into attributes, adds 4 and 6 per tile to the segment totals, and keeps segments within 65535 vertices |
| RasterLayer.BuildCounts | src/mbgl/renderer/layers/render_raster_layer.cpp:340-364 | Each tile appends exactly 4 vertices, 4 attribute entries and 6 indices; what was there is unchanged |
| RasterLayer.BuildAttributesMirror | src/mbgl/renderer/layers/render_raster_layer.cpp:340-350 | The appended attributes equal the appended vertices element by element |
| RasterLayer.BuildVerticesLast | src/mbgl/renderer/layers/render_raster_layer.cpp:340-350 | The last tile of a mask contributes its four corners at the end of the vertices |
| RasterLayer.BuildCorners | src/mbgl/renderer/layers/render_raster_layer.cpp:327-350 | Tile k owns the four vertices starting 4k past the original end, in corner order |
| RasterLayer.BuildSums | src/mbgl/renderer/layers/render_raster_layer.cpp:334-338 | The segments' vertex and index lengths grow by 4 and 6 per tile |
| RasterLayer.BuildSegmentBound | src/mbgl/renderer/layers/render_raster_layer.cpp:334-353 | Every segment the build opened or extended has `vertexLength <= 65535` |
| RasterLayer.BuildFromEmptyTotals | src/mbgl/renderer/layers/render_raster_layer.cpp:366-374 | From empty vectors the lengths sum to `vertices.size() = 4·|mask|` and `indices.size() = 6·|mask|` |
| RasterLayer.LaidOutStep | src/mbgl/renderer/layers/render_raster_layer.cpp:334-367 | One more tile keeps the fixed layout of 16383 quads per segment |
| RasterLayer.BuildFromEmptyLayout | src/mbgl/renderer/layers/render_raster_layer.cpp:311-369 | From empty vectors, segment j starts at vertex 65532·j and index 98298·j and holds the next 16383 tiles. Tile k's indices address vertex `4·(k mod 16383)` of its segment |
| RasterLayer.QuadsIndexedStep | src/mbgl/renderer/layers/render_raster_layer.cpp:352-364 | Appending the next tile's quad indices keeps every tile's indices in place |
| RasterLayer.TileInItsSegment | src/mbgl/renderer/layers/render_raster_layer.cpp:334-354 | Tile k lies wholly in segment k/16383, whose offset plus the tile's relative vertex is 4k, and that segment has at most 65535 vertices |
| RasterLayer.SelectTileData | src/mbgl/renderer/layers/render_raster_layer.cpp:400-408 | Bucket vertices, indices and segments replace the static data iff all three bucket collections are non-empty |
| RasterLayer.FilterFor | src/mbgl/renderer/layers/render_raster_layer.cpp:272-274 | The filter is nearest iff the resampling is nearest, otherwise linear |

## Left out

- GL work (buffer creation, vertex array binding, draw calls, the depth/stencil/colour/cull setters, texture binding) is represented only by events in the context's log. No GPU state beyond the current program and bound vertex array is modelled.
- The depth mode, colour mode and stencil mode objects come from paint parameters not modelled here. They appear as the events `DepthModeSet(subLayerIndex, depthType)`, `ColorModeSet` and `StencilDisabled`.
- DrawableGL.Drawable.Upload: `buildAttributeBindings` is not part of this model. The bindings it returns are a parameter, and whether it clears dirty flags or fills `rawData` is not modelled.
- DrawableGL.Drawable.BuildVertexArrays: `VertexArray::bind` is not part of this model. It is modelled as binding the new vertex array (which setting up a vertex array object does) and logging one creation event; its index buffer and attribute setup are that event.
- DrawableGL.Drawable.Upload: the binding objects are updated in place in the source and keep the last segment's offset afterwards; the model passes them by value, so that aliasing is not captured.
- DrawableGL.Drawable.BindTextures: the `int32_t` unit counter is unbounded here; wrap-around after 2^31 textures is not modelled.
- DrawableGL.Drawable.ResetColor: `Drawable::colorAttrRGBA` is not part of this model, so the method takes the four colour components already converted.
- DrawableGL.Drawable.Draw: the `tileID` test only chooses between two identical stencil settings, so it is not modelled. The uniform block map's visiting order is a sequence given by the shader.
- VertexAttributes.VertexAttributeArray.GetOrAdd: the `.cpp` body is not part of this model. It is specified from its doc comment; a conflict is a different data type or a different element count.
- VertexAttributes.VertexAttributeArray.GetMaxCount: specified from its doc comment only; the iteration order of the map is left open.
- VertexAttributes.VertexAttributeArray.GetTotalSize: specified from its doc comment only.
- VertexAttributes.VertexAttributeArray.Resolve: specified from its doc comment; it returns the list of delegate calls instead of invoking a delegate, and the order of the calls is left open.
- VertexAttributes.VertexAttributeArray.ObserveAttributes: returns the visits instead of calling a function; map entries are never null in the model, so the null check has no counterpart.
- VertexAttributes.VertexAttributeArray.Assign: the copy assignment's body is not part of this model; it is modelled as a deep copy of every entry.
- VertexAttributes.VertexAttributeArray.Clear: the body is not part of this model; it is modelled as removing every attribute.
- The move constructor and move assignment of `VertexAttribute`, which do not transfer `stride`, are not modelled.
- `VertexAttributeArray::set(name, i, value)` is not modelled. It converts an element reference to `bool`, and has no caller in the modelled files.
- The contents of `rawData` are not modelled beyond being emptied whenever the attribute becomes dirty.
- Builder.DrawableBuilder.Flush: `init()` is not part of this model, so the staged vertices, indexes and colours are left as they are. The identity of a newly created drawable is a parameter.
- Builder.DrawableBuilder.GetCurrentDrawable: `createDrawable` is not part of this model. A new drawable has the base defaults of `DrawableGL.Drawable.constructor`, and its identity is a parameter.
- Builder.DrawableBuilder.AddTriangle: the staged vertices are kept as a list of points. The source's vertex vector type and its byte layout are not modelled.
- RasterLayer.BuildRenderData: `util::EXTENT` is not part of this model and is a parameter. `reserve` calls are capacity hints with no effect on the result.
- The legacy render path of the raster layer, its colour maths (saturation, contrast, hue rotation), the layer update with its mutex, layer groups, tile bookkeeping, textures and drawable observation are not modelled. They are floating-point maths, concurrency or calls into code outside this model.
- `pattern_atlas.hpp`, `render_raster_layer.hpp`, `drawable_gl_builder.hpp` and `heatmap_layer_impl.cpp` hold declarations, trivial setters or one-line delegations and are not modelled.
