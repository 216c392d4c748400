# 3D solids, camera and frame-time graph of osu-framework, in Dafny

This project models the experimental 3D layer of osu-framework and its
frame-time graph.

- **`SpaceDrawInfo`** (`space_draw_info.dfy`). This is the transform of a 3D node: a 4x4 matrix together with an inverse that is maintained alongside it. `ApplyTransform` extends the matrix on the right by a translation, a rotation, a scale whose zero components are clamped to `FLOAT_EPSILON`, and an origin shift, skipping each factor that is the identity. It extends the inverse on the left by the inverse factors. The model proves that the two matrices stay mutual inverses whenever the rotation quaternion is not zero. It also proves that they cannot be inverses when the quaternion is zero.
- **`Solid`** (`solid.dfy`). This is the base of the 3D drawables. It has 3D position, size, origin, rotation and scale setters, each with the invalidation it raises. The position and size setters write through to the 2D position, size and depth. The `Parent` setter has both of its exceptions. `DrawInfo` is computed afresh from the transform.
- **`Camera` and `CameraDrawNode`** (`camera.dfy`). The node takes a snapshot in `ApplyState`, and its `Draw` pushes the projection around a clear and the child's draw. The frame-buffer helpers push masking, viewport, scissor and scissor offset, and the returning helper pops them.
- **`Cube` and `SpacePath`, with their draw nodes** (`cube.dfy`, `space_path.dfy`, and the shared part in `solid_draw.dfy`). The model covers the owned texture with the white-pixel fallback, the lazily created batches, and the 24 vertices of the cube's six walls. For the path it covers the segment list generated from the vertex list.
- **`CubeF`** (`primitives.dfy`). This is the axis-aligned box: its getters, setters, operators, containment tests, `WithPositiveExtent`, intersection, union and offset.
- **`FrameTimeDisplay`** (`frame_time.dfy`). This is the scrolling frame-time graph. A ring of two 800-column time bars is advanced by the `currentX` cursor. Each frame paints one 100-pixel column, one band per frame-time type from the bottom up, with the `Empty` background filling what is left. The column is then uploaded into the current bar and the bars are moved.

Shared support:

- `linear_algebra.dfy` has vectors, quaternions, 4x4 matrices over `real`, and the proofs that translation, scale and rotation matrices have the expected inverses.
- `rendering.dfy` has the renderer as a trace of the calls it receives. A replay of that trace (`Run`) checks that every pop closes the latest open push (`Balanced`), and `KindBalanced` checks the same for each kind of state on its own stack.
- `options.dfy` has `Option`.

Floats are modelled as mathematical reals. `(int)` casts become `Truncate`, which truncates toward zero.

## Model

| member | source | states |
|---|---|---|
| SpaceDrawInfos.NewSpaceDrawInfo | osu.Framework/Graphics/SpaceDrawInfo.cs:17-21 | an absent matrix or inverse becomes the identity, a given one is kept |
| SpaceDrawInfos.DefaultConsistent | osu.Framework/Graphics/SpaceDrawInfo.cs:17-21 | the info built without arguments has a matrix and inverse that undo each other |
| SpaceDrawInfos.Equals | osu.Framework/Graphics/SpaceDrawInfo.cs:68 | two infos are equal exactly when their matrices are |
| SpaceDrawInfos.EqualsIgnoresInverse | osu.Framework/Graphics/SpaceDrawInfo.cs:68 | infos that differ only in the inverse are equal although they are different values |
| SpaceDrawInfos.ClampScale | osu.Framework/Graphics/SpaceDrawInfo.cs:46-49 | each exactly-zero scale component becomes `FLOAT_EPSILON`, the others are kept, and no component of the result is zero |
| SpaceDrawInfos.AppendIdentity | osu.Framework/Graphics/SpaceDrawInfo.cs:32-59 | appending identity factors changes nothing, so skipping an identity step gives the same info |
| SpaceDrawInfos.AppendKeepsConsistent | osu.Framework/Graphics/SpaceDrawInfo.cs:30-66 | appending a factor on the right of the matrix and its inverse on the left of the inverse keeps the two inverse to each other |
| SpaceDrawInfos.TranslateStep | osu.Framework/Graphics/SpaceDrawInfo.cs:32-36 | the result is the info extended by `T(t)` and `T(-t)` (also when the step is skipped for a zero translation); consistency is kept |
| SpaceDrawInfos.RotateStep | osu.Framework/Graphics/SpaceDrawInfo.cs:38-42 | the result is the info extended by `R(q)` and `R(q^-1)` (also when skipped for the identity quaternion); consistency is kept for every non-zero quaternion |
| SpaceDrawInfos.ScaleStep | osu.Framework/Graphics/SpaceDrawInfo.cs:44-53 | the result is the info extended by the clamped scale and its reciprocal (also when skipped for a unit scale); consistency is kept |
| SpaceDrawInfos.OriginStep | osu.Framework/Graphics/SpaceDrawInfo.cs:55-59 | the result is the info extended by `T(-o)` and `T(o)` (also when skipped for a zero origin); consistency is kept |
| SpaceDrawInfos.ApplyTransform | osu.Framework/Graphics/SpaceDrawInfo.cs:30-66 | the result is the matrix `m T(t) R(q) S(s) T(-o)` with the inverse `T(o) S(1/s) R(q^-1) T(-t) mi`; it stays consistent when the input is consistent and the quaternion is not zero |
| SpaceDrawInfos.TransformedConsistent | osu.Framework/Graphics/SpaceDrawInfo.cs:30-66 | the full transform of a consistent info with a non-zero quaternion is consistent |
| SpaceDrawInfos.ZeroRotationLosesInverse | osu.Framework/Graphics/SpaceDrawInfo.cs:38-42 | with a zero quaternion no matrix whatsoever inverts the resulting matrix |
| LinearAlgebra.Truncate | osu.Framework/Graphics/Performance/FrameTimeDisplay.cs:240 | the `(int)` cast truncates toward zero: the result is within one of the value, on the side of zero |
| LinearAlgebra.TranslationInverse | osu.Framework/Graphics/SpaceDrawInfo.cs:34-35 | `CreateTranslation(v)` and `CreateTranslation(-v)` are inverse on both sides |
| LinearAlgebra.TranslationZero | osu.Framework/Graphics/SpaceDrawInfo.cs:32 | a zero translation is the identity matrix |
| LinearAlgebra.ScaleInverse | osu.Framework/Graphics/SpaceDrawInfo.cs:51-52 | `CreateScale(s)` and `CreateScale(One / s)` are inverse on both sides when no component is zero |
| LinearAlgebra.ScaleOne | osu.Framework/Graphics/SpaceDrawInfo.cs:44 | a unit scale is the identity matrix |
| LinearAlgebra.RotationInverse | osu.Framework/Graphics/SpaceDrawInfo.cs:40-41 | the rotation matrices of `q` and of `Quaternion.Invert(q)` are inverse on both sides for every non-zero quaternion |
| LinearAlgebra.RotationIdentity | osu.Framework/Graphics/SpaceDrawInfo.cs:38 | the identity quaternion gives the identity matrix |
| LinearAlgebra.InvertIsInverse | osu.Framework/Graphics/SpaceDrawInfo.cs:41 | `Quaternion.Invert` is a two-sided inverse of every non-zero quaternion |
| LinearAlgebra.InvertInvolutive | osu.Framework/Graphics/SpaceDrawInfo.cs:41 | inverting twice gives the quaternion back and keeps it non-zero |
| LinearAlgebra.ZeroRotationSingular | osu.Framework/Graphics/SpaceDrawInfo.cs:40 | a zero quaternion gives the zero matrix, which no matrix inverts |
| LinearAlgebra.ComposeInverses | osu.Framework/Graphics/SpaceDrawInfo.cs:30-66 | if `m`, `mi` and `a`, `b` are inverse pairs then so are `m a` and `b mi` |
| Solids.DrawInfoConsistent | osu.Framework/Graphics/Solid.cs:109-116 | the draw info of any transform with a non-zero rotation quaternion is consistent |
| Solids.DefaultRotationAsWrittenSingular | osu.Framework/Graphics/Solid.cs:80 | with the rotation as written (the zero default quaternion) the draw matrix of a solid has no inverse |
| Solids.DefaultRotationConsistent | osu.Framework/Graphics/Solid.cs:80 | with the identity quaternion as the starting rotation the draw info is consistent |
| Solids.ParentAssignment | osu.Framework/Graphics/Solid.cs:44-57 | assigning a parent fails exactly on a disposed solid and exactly when a different second parent is given; it is a no-op exactly for the current parent |
| Solids.ParentChangesThroughNull | osu.Framework/Graphics/Solid.cs:51-56 | a successful change always attaches a parentless solid or detaches one, never moves it between cameras |
| Solids.Solid.constructor | osu.Framework/Graphics/Solid.cs:80-98 | a new solid has zero transform, unit scale, no parent, no clock and no invalidations; its rotation starts at the identity, the corrected default (see Findings and Left out) |
| Solids.Solid.SetPosition | osu.Framework/Graphics/Solid.cs:12-21 | stores the position, its x and y as the 2D position, its z as the depth |
| Solids.Solid.SetSize | osu.Framework/Graphics/Solid.cs:24-33 | stores the size, its x and y as the 2D size, its z as the depth |
| Solids.Solid.SetParent | osu.Framework/Graphics/Solid.cs:40-67 | the outcome is `ParentAssignment`; a null value resets the child id even when nothing else happens; only a replacement stores the parent, raises one invalidation and takes over the camera's clock |
| Solids.Solid.SetOriginPosition | osu.Framework/Graphics/Solid.cs:69-78 | stores the origin and raises a geometry invalidation |
| Solids.Solid.SetRotation | osu.Framework/Graphics/Solid.cs:85-96 | stores the rotation; invalidates the geometry only when it changes |
| Solids.Solid.SetScale | osu.Framework/Graphics/Solid.cs:99-107 | stores the scale and raises a geometry invalidation every time |
| Solids.Solid.Dispose | osu.Framework/Graphics/Solid.cs:120-123 | the solid is disposed |
| Solids.Solid.ComputeDrawInfo | osu.Framework/Graphics/Solid.cs:109-116 | the identity info transformed by position, scale, rotation and origin |
| Cameras.Camera.constructor | osu.Framework/Graphics/Camera.cs:12-14 | background black, no frame-buffer colour, field of view 1 |
| Cameras.Camera.CreateDrawNode | osu.Framework/Graphics/Camera.cs:11 | a fresh camera draw node over a fresh composite node, both sourced from this camera |
| Cameras.Aspect | osu.Framework/Graphics/CameraDrawNode.cs:52 | the aspect ratio exists exactly when the height is not zero and then times the height gives the width |
| Cameras.CameraDrawBalanced | osu.Framework/Graphics/CameraDrawNode.cs:57-81 | a camera draw pops exactly what it pushes, in LIFO order |
| Cameras.ViewportKindBalancedButNotLifo | osu.Framework/Graphics/CameraDrawNode.cs:98-129 | establishing and returning the viewport balances every kind of state, but the pair is not LIFO-balanced |
| Cameras.ViewportNotLifo | osu.Framework/Graphics/CameraDrawNode.cs:123-129 | replaying the pair on one stack fails at the viewport pop, which finds the scissor on top |
| Cameras.ViewportKindBalanced | osu.Framework/Graphics/CameraDrawNode.cs:98-129 | each of masking, viewport, scissor and scissor offset is pushed once and popped once |
| Cameras.CameraDrawNode.Children | osu.Framework/Graphics/CameraDrawNode.cs:33 | the getter reads the child composite node's list; `SetChildren` is its partner |
| Cameras.CameraDrawNode.AddChildDrawNodes | osu.Framework/Graphics/CameraDrawNode.cs:35 | a camera node always asks for its children's draw nodes |
| Cameras.CameraDrawNode.SetChildren | osu.Framework/Graphics/CameraDrawNode.cs:33 | the children written are the children read back through the child node |
| Cameras.CameraDrawNode.constructor | osu.Framework/Graphics/CameraDrawNode.cs:37-40 | the node keeps its camera and its child node |
| Cameras.CameraDrawNode.ApplyState | osu.Framework/Graphics/CameraDrawNode.cs:42-55 | snapshots the background, the screen-space box and a frame-buffer size equal to its extents, the camera's colour or white with the inherited blending, and the projection (the camera's field of view, the box's aspect, near 0.1, far 1000); the child's state is applied once |
| Cameras.CameraDrawNode.Draw | osu.Framework/Graphics/CameraDrawNode.cs:57-81 | the renderer receives the base draw, the projection push, the clear to the background, the child's draw and the projection pop |
| Cameras.CameraDrawNode.BindFrameBuffer | osu.Framework/Graphics/CameraDrawNode.cs:88-96 | the buffer is sized to the snapshot size and bound; the token unbinds that buffer |
| Cameras.CameraDrawNode.EstablishFrameBufferViewport | osu.Framework/Graphics/CameraDrawNode.cs:98-121 | pushes masking (floored corner, truncated size), viewport and scissor of the buffer size, and the scissor offset; the token returns the viewport |
| Cameras.CameraDrawNode.ReturnViewport | osu.Framework/Graphics/CameraDrawNode.cs:123-129 | pops scissor offset, viewport, scissor and masking, in that order |
| Cameras.CameraDrawNode.DisposeToken | osu.Framework/Graphics/CameraDrawNode.cs:95 | disposing the frame-buffer token unbinds the buffer; disposing the viewport token returns the viewport |
| Rendering.TextureOrWhitePixel | osu.Framework/Graphics/Solids/Cube.cs:29 | the own texture if any, else the renderer's white pixel, else none |
| Rendering.BalancedIsKindBalanced | osu.Framework/Graphics/CameraDrawNode.cs:123-129 | a LIFO-balanced trace is balanced kind by kind (so per-kind balance is the weaker property) |
| SolidDraws.TexturedDrawBalanced | osu.Framework/Graphics/Solids/CubeDrawNode.cs:49-62 | the textured draw (local matrix and depth pushed around the bindings) is LIFO-balanced and has eight calls |
| SolidDraws.NodeDrawBalanced | osu.Framework/Graphics/Solids/CubeDrawNode.cs:40-63 | the base draw with or without batch creation and the textured draw is balanced |
| Cubes.WallVerticesShape | osu.Framework/Graphics/Solids/CubeDrawNode.cs:78-107 | a wall's four white vertices go round the parallelogram around `centre + toWall` spanned by `down` and `left`, with the matching corners of the texture rectangle |
| Cubes.WallsFaceEveryDirection | osu.Framework/Graphics/Solids/CubeDrawNode.cs:70-75 | the six walls face the six axis directions at distance 10, no two alike |
| Cubes.WallsSquare | osu.Framework/Graphics/Solids/CubeDrawNode.cs:70-75 | each wall's two half-edges are perpendicular to each other and to the wall's direction |
| Cubes.WallOnCorners | osu.Framework/Graphics/Solids/CubeDrawNode.cs:70-75 | every corner of a wall is a corner of the 20-unit cube and lies in that wall's face |
| Cubes.CubeVerticesOnCorners | osu.Framework/Graphics/Solids/CubeDrawNode.cs:65-76 | all 24 vertices are cube corners, each in the face of its wall |
| Cubes.CubePrefixStep | osu.Framework/Graphics/Solids/CubeDrawNode.cs:65-76 | the first `j + 1` walls' vertices are the first `j` walls' followed by wall `j` |
| Cubes.SolidDrawColour | osu.Framework/Graphics/Solids/Cube.cs:41 | the draw colour is white with the inherited blending |
| Cubes.CubeDrawBalanced | osu.Framework/Graphics/Solids/CubeDrawNode.cs:40-63 | a cube's draw is balanced whether or not it creates the batch |
| Cubes.Cube.Load | osu.Framework/Graphics/Solids/Cube.cs:19-23 | stores the loaded shader |
| Cubes.Cube.CurrentTexture | osu.Framework/Graphics/Solids/Cube.cs:29 | the owned texture, else the renderer's white pixel, else none |
| Cubes.Cube.SetTexture | osu.Framework/Graphics/Solids/Cube.cs:30-39 | the same texture changes nothing; otherwise the old texture is disposed, the new one stored and the draw node invalidated |
| Cubes.Cube.Dispose | osu.Framework/Graphics/Solids/Cube.cs:44-50 | the solid and the owned texture are disposed and the texture dropped, so the white pixel is used from then on |
| Cubes.Cube.CreateDrawNode | osu.Framework/Graphics/Solids/Cube.cs:42 | a fresh node over this cube, with nothing snapshotted and no batch |
| Cubes.CubeDrawNode.ApplyState | osu.Framework/Graphics/Solids/CubeDrawNode.cs:31-38 | snapshots the cube's texture, its draw info as computed now, and its shader |
| Cubes.CubeDrawNode.Draw | osu.Framework/Graphics/Solids/CubeDrawNode.cs:40-63 | without an available texture and a shader only the base draw happens; otherwise the 24-quad batch is made on the first draw only, the textured draw is issued and the 24 cube vertices are appended to the batch |
| Cubes.CubeDrawNode.DrawTextured | osu.Framework/Graphics/Solids/CubeDrawNode.cs:49-62 | the pushes, bindings and pops of the textured draw, with the cube's vertices added in between |
| Cubes.CubeDrawNode.UpdateVertexBuffer | osu.Framework/Graphics/Solids/CubeDrawNode.cs:65-76 | appends the six walls' 24 vertices, in the order -y, +y, -z, +z, -x, +x |
| Cubes.CubeDrawNode.AddWall | osu.Framework/Graphics/Solids/CubeDrawNode.cs:78-107 | appends exactly the wall's four vertices, in order |
| SpacePaths.SegmentsChained | osu.Framework/Graphics/Solids/SpacePath.cs:70-81 | consecutive segments share their common vertex |
| SpacePaths.SegmentsSnoc | osu.Framework/Graphics/Solids/SpacePath.cs:62-81 | appending a vertex keeps every segment and adds the one ending at the new vertex |
| SpacePaths.SpacePath.constructor | osu.Framework/Graphics/Solids/SpacePath.cs:41 | a new path has no vertices, path radius 10 and no texture |
| SpacePaths.SpacePath.Load | osu.Framework/Graphics/Solids/SpacePath.cs:21-25 | stores the loaded shader |
| SpacePaths.SpacePath.SetVertices | osu.Framework/Graphics/Solids/SpacePath.cs:29-39 | the list becomes exactly the given vertices and the draw size is invalidated, for any value that is not the path's own list (see Left out) |
| SpacePaths.SpacePath.SetPathRadius | osu.Framework/Graphics/Solids/SpacePath.cs:49-60 | stores the radius; invalidates the draw size only when it changes |
| SpacePaths.SpacePath.AddVertex | osu.Framework/Graphics/Solids/SpacePath.cs:62-67 | appends the vertex, invalidates the draw size, and the segments gain exactly the one ending at the new vertex |
| SpacePaths.SpacePath.GenerateSegments | osu.Framework/Graphics/Solids/SpacePath.cs:69-83 | the backing list is refilled with one segment per pair of consecutive vertices and returned; nothing from an earlier read survives |
| SpacePaths.SpacePath.CurrentTexture | osu.Framework/Graphics/Solids/SpacePath.cs:89 | the owned texture, else the renderer's white pixel, else none |
| SpacePaths.SpacePath.SetTexture | osu.Framework/Graphics/Solids/SpacePath.cs:90-99 | the same texture changes nothing; otherwise the old one is disposed, the new one stored and the draw node invalidated |
| SpacePaths.SpacePath.Dispose | osu.Framework/Graphics/Solids/SpacePath.cs:104-110 | the solid and the owned texture are disposed and the texture dropped |
| SpacePaths.SpacePath.CreateDrawNode | osu.Framework/Graphics/Solids/SpacePath.cs:102 | a fresh node over this path, with nothing snapshotted and no batch |
| SpacePaths.SpacePathDrawNode.ApplyState | osu.Framework/Graphics/Solids/SpacePathDrawNode.cs:39-50 | the node's segments are the path's current segments, and texture, draw info, radius and shader are the path's |
| SpacePaths.SpacePathDrawNode.RefreshSegments | osu.Framework/Graphics/Solids/SpacePathDrawNode.cs:43-44 | the node's list is cleared and refilled with the path's segments |
| SpacePaths.SpacePathDrawNode.TakeSnapshot | osu.Framework/Graphics/Solids/SpacePathDrawNode.cs:46-49 | texture, draw info as computed now, radius and shader copied from the path |
| SpacePaths.SpacePathDrawNode.Draw | osu.Framework/Graphics/Solids/SpacePathDrawNode.cs:52-75 | without an available texture and a shader only the base draw happens; otherwise the triangle batch (24 * 200 * 3 vertices, 10 buffers) is made on the first draw only and the textured draw is issued, adding no vertices |
| SpacePaths.SpacePathDrawNode.UpdateVertexBuffer | osu.Framework/Graphics/Solids/SpacePathDrawNode.cs:77-80 | the vertex update is still empty in the source: it changes nothing and emits no vertex |
| SpacePaths.SpacePathDrawNode.DrawTextured | osu.Framework/Graphics/Solids/SpacePathDrawNode.cs:61-74 | the pushes, bindings and pops of the textured draw |
| SpacePaths.PathDrawBalanced | osu.Framework/Graphics/Solids/SpacePathDrawNode.cs:52-75 | a path's draw is balanced whether or not it creates the batch |
| Primitives.Location | osu.Framework/Graphics/Primitives/CubeF.cs:68 | the `Location` getter: the corner (X, Y, Z) as a vector; its partners are `FromLocationSize` and `SetLocation` |
| Primitives.Size | osu.Framework/Graphics/Primitives/CubeF.cs:83 | the `Size` getter: the extents (Width, Height, Depth) as a vector; its partners are `FromLocationSize` and `SetSize` |
| Primitives.FromLocationSize | osu.Framework/Graphics/Primitives/CubeF.cs:52-60 | the `Location` and `Size` getters give back the constructor's arguments |
| Primitives.FromLocationSizeOfParts | osu.Framework/Graphics/Primitives/CubeF.cs:52-90 | every box is rebuilt from its own location and size |
| Primitives.SetLocation | osu.Framework/Graphics/Primitives/CubeF.cs:66-75 | the location becomes the value and the size is kept |
| Primitives.SetSize | osu.Framework/Graphics/Primitives/CubeF.cs:81-90 | the size becomes the value and the location is kept |
| Primitives.Centre | osu.Framework/Graphics/Primitives/CubeF.cs:94 | the centre is equally far from both faces on every axis |
| Primitives.IsEmpty | osu.Framework/Graphics/Primitives/CubeF.cs:100 | a box is empty exactly when it does not contain its own corner under the intended point test |
| Primitives.Volume | osu.Framework/Graphics/Primitives/CubeF.cs:155 | a box that is not empty has a positive volume, and a flat box has volume zero |
| Primitives.Equals | osu.Framework/Graphics/Primitives/CubeF.cs:280 | equal exactly when location and size agree, that is when the values are equal |
| Primitives.NotEquals | osu.Framework/Graphics/Primitives/CubeF.cs:121 | `!=` holds exactly when the boxes differ |
| Primitives.ScaleBy | osu.Framework/Graphics/Primitives/CubeF.cs:123 | location and size are both scaled by the factor |
| Primitives.DivideBy | osu.Framework/Graphics/Primitives/CubeF.cs:125 | scaling the quotient back by the non-zero factor gives the box again |
| Primitives.ScaleDivideRoundTrip | osu.Framework/Graphics/Primitives/CubeF.cs:123-125 | dividing by a non-zero factor undoes scaling by it |
| Primitives.ScaleVolume | osu.Framework/Graphics/Primitives/CubeF.cs:123 | scaling multiplies the volume by the cube of the factor |
| Primitives.ScaleByVec | osu.Framework/Graphics/Primitives/CubeF.cs:127 | each axis of location and size is scaled by its own component |
| Primitives.DivideByVec | osu.Framework/Graphics/Primitives/CubeF.cs:129 | scaling the quotient back by the vector without zero components gives the box again |
| Primitives.ScaleDivideVecRoundTrip | osu.Framework/Graphics/Primitives/CubeF.cs:127-129 | dividing by a vector without zero components undoes scaling by it |
| Primitives.ContainsPointAsWritten | osu.Framework/Graphics/Primitives/CubeF.cs:137 | the point test as written; a box that contains any point has positive extents |
| Primitives.ContainsPoint | osu.Framework/Graphics/Primitives/CubeF.cs:137 | the point test as intended, half-open on all three axes; a box that contains any point has positive extents |
| Primitives.ContainsVec | osu.Framework/Graphics/Primitives/CubeF.cs:143 | `Contains(Vector3)` delegates to the point test as written; only a box that is not empty contains a point |
| Primitives.ContainsVecAsIntended | osu.Framework/Graphics/Primitives/CubeF.cs:143 | the same delegation to the intended point test; everything it accepts the as-written test accepts too |
| Primitives.ContainsPointAsWrittenTooWide | osu.Framework/Graphics/Primitives/CubeF.cs:137 | the written point test accepts (0, 0, 5) for the unit box, the intended test rejects it, and the written test accepts everything the intended one does |
| Primitives.ContainsCornerIffNonEmpty | osu.Framework/Graphics/Primitives/CubeF.cs:137-143 | a box contains its own corner exactly when it is not empty, under the written and under the intended test |
| Primitives.ContainsCube | osu.Framework/Graphics/Primitives/CubeF.cs:149-152 | when one box contains another that is not empty, it contains that box's corner |
| Primitives.ContainsCubeContainsPoints | osu.Framework/Graphics/Primitives/CubeF.cs:149-152 | a contained box's points are all contained |
| Primitives.Normalised | osu.Framework/Graphics/Primitives/CubeF.cs:172-198 | the reference normal form has non-negative extents |
| Primitives.NormalisedKeepsFaces | osu.Framework/Graphics/Primitives/CubeF.cs:172-198 | normalising keeps both faces of every axis, lower first |
| Primitives.NormalisedIdempotent | osu.Framework/Graphics/Primitives/CubeF.cs:172-198 | normalising is idempotent and changes no box that already has non-negative extents |
| Primitives.WithPositiveExtent | osu.Framework/Graphics/Primitives/CubeF.cs:172-198 | the result is the normal form; a negative extent is negated and its corner moved so that corner plus extent is the old corner; other axes are kept |
| Primitives.Intersect | osu.Framework/Graphics/Primitives/CubeF.cs:220-232 | on overlap, from the larger lower face to the smaller upper face on every axis with non-negative extents; otherwise `Empty` |
| Primitives.IntersectCommutative | osu.Framework/Graphics/Primitives/CubeF.cs:220-232 | the intersection does not depend on argument order |
| Primitives.IntersectContained | osu.Framework/Graphics/Primitives/CubeF.cs:220-232 | an overlapping intersection lies within both boxes |
| Primitives.IntersectPoints | osu.Framework/Graphics/Primitives/CubeF.cs:220-232 | a point is in the intersection exactly when it is in both boxes |
| Primitives.IntersectWith | osu.Framework/Graphics/Primitives/CubeF.cs:204-213 | the in-place form gives the static intersection, `Empty` without overlap |
| Primitives.IntersectsWith | osu.Framework/Graphics/Primitives/CubeF.cs:238-239 | a box meets every box with non-negative extents that it contains |
| Primitives.IntersectsWithIffOverlap | osu.Framework/Graphics/Primitives/CubeF.cs:238-239 | `IntersectsWith` is symmetric and, for boxes with non-negative extents, holds exactly when `Intersect` finds an overlap |
| Primitives.Union | osu.Framework/Graphics/Primitives/CubeF.cs:246-255 | from the smaller lower face to the larger upper face on every axis |
| Primitives.UnionCommutative | osu.Framework/Graphics/Primitives/CubeF.cs:246-255 | the union does not depend on argument order |
| Primitives.UnionSmallest | osu.Framework/Graphics/Primitives/CubeF.cs:246-255 | the union contains both boxes and lies within every box that contains both |
| Primitives.Offset | osu.Framework/Graphics/Primitives/CubeF.cs:268 | the location moves by the offset and the size is kept |
| Primitives.OffsetVec | osu.Framework/Graphics/Primitives/CubeF.cs:261 | the same, with the offset as a vector |
| Primitives.OffsetMovesPoints | osu.Framework/Graphics/Primitives/CubeF.cs:261-268 | offsetting moves the contained points along, under the written and under the intended test, and the opposite offset undoes it |
| FrameTimes.DrawHeight | osu.Framework/Graphics/Performance/FrameTimeDisplay.cs:236-243 | `Empty` wants all remaining rows; any other kind wants a height exactly when the frame reports a time for it |
| FrameTimes.AreaTop | osu.Framework/Graphics/Performance/FrameTimeDisplay.cs:247-259 | the painting loop's returned top: the height less the wanted rows, never below zero; a negative wanted height paints down to row zero; nothing is painted without rows |
| FrameTimes.NextTop | osu.Framework/Graphics/Performance/FrameTimeDisplay.cs:231-260 | the height after one kind's band: `Empty` fills what is left; a kind without a time paints nothing; any other kind's band is its time times the scale, truncated, up to the rows left, or all of them when that is negative |
| FrameTimes.Top | osu.Framework/Graphics/Performance/FrameTimeDisplay.cs:169-172 | the height after the first k kinds have painted, starting at 100; it stays within the column and ends at 0 |
| FrameTimes.Tops | osu.Framework/Graphics/Performance/FrameTimeDisplay.cs:169-172 | one height per boundary between the bands, before the first kind and after each kind |
| FrameTimes.TopFalls | osu.Framework/Graphics/Performance/FrameTimeDisplay.cs:169-172 | later kinds paint above earlier ones: the height never goes up |
| FrameTimes.TopsTile | osu.Framework/Graphics/Performance/FrameTimeDisplay.cs:169-172 | the heights of a frame tile the column |
| FrameTimes.ShownFrameFullyPainted | osu.Framework/Graphics/Performance/FrameTimeDisplay.cs:169-172 | a column that shows a frame leaves no row unpainted |
| FrameTimes.TilesCover | osu.Framework/Graphics/Performance/FrameTimeDisplay.cs:169-172 | the heights the per-frame loop passes along leave every row in some band |
| FrameTimes.BandKept | osu.Framework/Graphics/Performance/FrameTimeDisplay.cs:247-257 | a painted band survives painting that only touches rows below it |
| FrameTimes.BandsCover | osu.Framework/Graphics/Performance/FrameTimeDisplay.cs:169-172 | bands over a tiling leave no row of the column unpainted |
| FrameTimes.CursorStep | osu.Framework/Graphics/Performance/FrameTimeDisplay.cs:185 | one more frame moves the cursor one more column round the ring |
| FrameTimes.FrameTimeDisplay.constructor | osu.Framework/Graphics/Performance/FrameTimeDisplay.cs:38-48 | a zeroed 400-byte column, cursor at 0, frames processed, no uploads |
| FrameTimes.FrameTimeDisplay.TimeBarIndex | osu.Framework/Graphics/Performance/FrameTimeDisplay.cs:45 | the bar under the cursor is one of the two bars |
| FrameTimes.FrameTimeDisplay.TimeBarX | osu.Framework/Graphics/Performance/FrameTimeDisplay.cs:46 | the column under the cursor is within the bar's width |
| FrameTimes.FrameTimeDisplay.CursorSplits | osu.Framework/Graphics/Performance/FrameTimeDisplay.cs:45-46 | bar index and column together give back the cursor |
| FrameTimes.FrameTimeDisplay.WritePixel | osu.Framework/Graphics/Performance/FrameTimeDisplay.cs:251-255 | the row's four bytes hold the pixel and no other byte changes |
| FrameTimes.FrameTimeDisplay.AddArea | osu.Framework/Graphics/Performance/FrameTimeDisplay.cs:231-260 | a kind the frame lacks changes nothing; otherwise rows from the returned top up to the given height hold that kind's pixel, the top is `AreaTop`, and no byte outside those rows changes |
| FrameTimes.FrameTimeDisplay.PaintBand | osu.Framework/Graphics/Performance/FrameTimeDisplay.cs:171-172 | one pass of the per-frame loop: kind k paints its band between the heights `Top` gives for the frame, the bands of the earlier kinds stay, and the height returned is the next one |
| FrameTimes.FrameTimeDisplay.PaintColumn | osu.Framework/Graphics/Performance/FrameTimeDisplay.cs:169-172 | the column shows the frame: each kind's band lies between the heights `Top` computes from the frame's times; every row holds the pixel of some kind |
| FrameTimes.FrameTimeDisplay.ProcessFrame | osu.Framework/Graphics/Performance/FrameTimeDisplay.cs:164-189 | the column that shows the frame is uploaded, as a copy of its bytes (see Left out), at the cursor's bar and column; while frames are processed the two bars are moved so that the new column is at the edge; the cursor advances by one round the ring |
| FrameTimes.FrameTimeDisplay.Update | osu.Framework/Graphics/Performance/FrameTimeDisplay.cs:157-191 | with processing off or an empty queue nothing changes: not the queue, the uploads, the cursor, the bar positions or the column buffer; otherwise the queue is drained, and for each frame, in queue order, one fully painted column that shows that frame is uploaded at the successive cursor positions; the cursor moves on by the number of frames, the two bars are placed for the last column drawn, and the buffer holds that column |
| FrameTimes.FrameTimeDisplay.OnKeyDown | osu.Framework/Graphics/Performance/FrameTimeDisplay.cs:138-146 | left-Ctrl stops processing; other keys change nothing |
| FrameTimes.FrameTimeDisplay.OnKeyUp | osu.Framework/Graphics/Performance/FrameTimeDisplay.cs:148-156 | left-Ctrl resumes processing; other keys change nothing |
| FrameTimes.FrameTimeDisplay.InitialiseBackground | osu.Framework/Graphics/Performance/FrameTimeDisplay.cs:111-122 | all 1600 columns are uploaded in order, each filled with the `Empty` pixel, and the cursor is left on the last column |

## Left out

- Floating point. Every `float` is a mathematical real, so rounding, overflow, NaN and infinities are not modelled. Equality tests such as `translation != Vector3.Zero` and `scale.X == 0` are exact comparisons of reals.
- `Precision.FLOAT_EPSILON` is taken as 0.001, because `Precision.cs` is not part of this model.
- `LinearAlgebra.CreateFromQuaternion`: for unit quaternions this is the rotation `v -> q v q^-1`. A non-unit quaternion, which osuTK normalises through an axis-angle round trip, is not modelled. The zero quaternion, for which osuTK produces NaN, gives the zero matrix, which is also without inverse.
- The GPU is not modelled: shaders, textures, vertex batches and frame buffers are objects that only record what is done to them. The renderer is a trace of the calls it receives.
- `Texture.GetTextureRect` is not modelled. Its result is a field of the texture, because the texture classes are not part of this model.
- `CompositeDrawableDrawNode`, the base `DrawNode` and `Drawable`, and `SolidDrawNode` are not part of this model. The base `ApplyState` and `Draw` appear as a state-application counter and a `BaseDraw` event, and the screen-space bounding box `ApplyState` reads is a parameter.
- Solids.Solid.constructor: the class starts `rotation` at the identity quaternion, the corrected default of the first Findings row. As written, `Solid.cs:80` leaves the zero quaternion; what that does to a new solid is stated by `Solids.DefaultRotationAsWrittenSingular`, not by the class.
- `Solids.Solid.SetParent`: `Invalidate` and `UpdateClock` are not part of this model. The four invalidation flags raised on a new parent are recorded as the single `ParentChanged`, and the clock update as storing the camera's clock.
- `Solids.Solid.Dispose`: only the disposed flag is modelled, because the drawable's own disposal is not part of this model. `Solid.CreateDrawNode` and `SolidDrawNode` are left out for the same reason.
- `Cameras.Aspect`: the single-precision quotient is `None` when the height is zero (infinite or NaN in the source). The perspective matrix itself is kept as its inputs.
- `Cameras.CameraDrawNode.Draw` models the draw as written. The commented-out frame-buffer variant is not modelled, but its two helpers are modelled on their own.
- SpacePaths.SpacePath.SetVertices: the value is a sequence, never the path's own list. In the source, the getter returns the live list and the setter clears it before `AddRange`, so assigning the path's own list (or a lazy view of it) back empties the path. The model does not capture that case.
- `SpacePaths.SpacePath.GenerateSegments`: the source returns its backing list by reference and the draw node copies it at once. The model returns a value, so aliasing of that list is not captured.
- `FrameTimes.FrameTimeDisplay.Update`: the pending-frame queue (a concurrent queue fed by the performance monitor) is a sequence field. Concurrent producers are not modelled.
- Also in `Update`: garbage-collection event boxes (`AddEvent`), their expiry, the legend sprites and their fades, the bar sprites beyond their x positions, and the texture objects beyond the list of uploads are left out. They are UI only.
- FrameTimes.FrameTimeDisplay.ProcessFrame (and `InitialiseBackground`): an upload is taken to capture the column's bytes at the call. The source hands the one shared `textureData` array to `new TextureUpload(...)` (`FrameTimeDisplay.cs:118` and `:174`), and the next frame repaints that array. Whether `TextureUpload` copies it or the texture reads it later is outside this model. So `Update`'s promise that each upload shows its own frame holds only if the upload copies.
- `FrameTimes.FrameTimeDisplay.AddArea`: the colour and the row-dependent alpha of the `Empty` background (`getColour` and the byte arithmetic) are the display's `pixel` parameter, not computed.
- The overflow of `(int)(elapsedMilliseconds * scale)` for huge times is not modelled.
- `FrameTimeType` is declared outside the modelled files. The model assumes its order: `Update`, `Draw`, `SwapBuffer`, `Debug`, `Sleep`, `Scheduler`, `BetweenFrames`, `Empty`.
- `ToString` members, `GetHashCode`, and the visualiser and testing UI files are left out as presentation only.

## Findings

| source | as written | input that shows it | evidently intended | confidence | as-written member | corrected member |
|---|---|---|---|---|---|---|
| osu.Framework/Graphics/Solid.cs:80 | the `rotation` field has no initialiser, so it starts as the all-zero quaternion, and `computeDrawInfo` multiplies by its rotation matrix | a new solid whose rotation is never assigned: its draw matrix has no inverse (in floats, NaN from normalising a zero quaternion) | the rotation starts at `Quaternion.Identity`, as `scale` starts at `Vector3.One`; then a new solid's draw info is consistent (`Solids.DefaultRotationConsistent`) | high, not executed | Solids.DefaultRotationAsWrittenSingular | Solids.Solid.constructor |
| osu.Framework/Graphics/Primitives/CubeF.cs:137 | the last comparison of `Contains(x, y, z)` is `Z < Z + Depth`, which does not involve the point; `Contains(Vector3)` inherits it | the unit box at the origin and the point (0, 0, 5): accepted although it lies beyond the far face | `z < Z + Depth`, half-open on all three axes like the other two, so that a box contains its own corner exactly when it is not empty (`Primitives.ContainsCornerIffNonEmpty`) and a point lies in an intersection exactly when it lies in both boxes (`Primitives.IntersectPoints`) | high, not executed | Primitives.ContainsPointAsWrittenTooWide | Primitives.ContainsPoint |
