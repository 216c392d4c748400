/**
 * `SpacePath`: a solid described by a list of 3D vertices, read back as
 * the segments joining consecutive vertices, with a path radius and one
 * owned texture; and its draw node, which snapshots the segments, the
 * texture, the draw info, the radius and the shader, and draws through a
 * lazily created triangle batch into which it emits no vertices yet.
 */
module SpacePaths {
  import opened LinearAlgebra
  import opened Options
  import opened Rendering
  import opened SpaceDrawInfos
  import opened Solids
  import opened SolidDraws

  /** One piece of the path, from one vertex to the next. */
  datatype Segment = Segment(start: Vec3, end: Vec3)

  /** `max_res`, the tessellation resolution the triangle batch is sized for. */
  const MaxRes: nat := 24
  /** The triangle batch's size, `max_res * 200 * 3`. */
  const TriangleBatchSize: nat := MaxRes * 200 * 3
  /** The triangle batch's maximum number of buffers. */
  const TriangleBatchBuffers: nat := 10
  const DefaultPathRadius: real := 10.0

  /** The segments of a vertex list: segment `i` joins vertex `i` to vertex `i + 1`. */
  function Segments(vs: seq<Vec3>): seq<Segment> {
    seq(if |vs| <= 1 then 0 else |vs| - 1, i requires 0 <= i < |vs| - 1 => Segment(vs[i], vs[i + 1]))
  }

  /** Consecutive segments share their common vertex, so the segments form one chain. */
  lemma SegmentsChained(vs: seq<Vec3>, i: int)
    requires 0 <= i && i + 1 < |Segments(vs)|
    ensures Segments(vs)[i].end == Segments(vs)[i + 1].start
  {
  }

  /**
   * Appending a vertex to a non-empty list keeps every segment and adds
   * the one from the old last vertex to the new one.
   */
  lemma SegmentsSnoc(vs: seq<Vec3>, v: Vec3)
    requires |vs| >= 1
    ensures Segments(vs + [v]) == Segments(vs) + [Segment(vs[|vs| - 1], v)]
  {
    var longer := Segments(vs + [v]);
    var expected := Segments(vs) + [Segment(vs[|vs| - 1], v)];
    assert |longer| == |expected|;
    forall i | 0 <= i < |longer|
      ensures longer[i] == expected[i]
    {
      if i < |vs| - 1 {
        assert expected[i] == Segments(vs)[i];
      }
    }
  }

  class SpacePath {
    /** The solid this path is; its transform gives the draw info. */
    const solid: Solid
    const renderer: Renderer?
    var pathShader: Option<Shader>
    var vertices: seq<Vec3>
    var pathRadius: real
    /** The list `generateSegments` refills on every read. */
    var segmentsBacking: seq<Segment>
    var texture: Texture?

    /** A new path: no vertices, the default radius, no texture and no shader yet. */
    constructor (solid: Solid, renderer: Renderer?)
      ensures this.solid == solid && this.renderer == renderer
      ensures pathShader == None && vertices == [] && segmentsBacking == []
      ensures pathRadius == DefaultPathRadius && texture == null
    {
      this.solid := solid;
      this.renderer := renderer;
      pathShader := None;
      vertices := [];
      pathRadius := DefaultPathRadius;
      segmentsBacking := [];
      texture := null;
    }

    /** `load`: stores the textured 3D shader, which the shader manager supplies. */
    method Load(shader: Shader)
      modifies this`pathShader
      ensures pathShader == Some(shader)
    {
      pathShader := Some(shader);
    }

    /** `Vertices = value`: the list is cleared, then every given vertex appended, and the draw size invalidated. */
    method SetVertices(value: seq<Vec3>)
      modifies this`vertices, solid`invalidations
      ensures vertices == value
      ensures solid.invalidations == old(solid.invalidations) + [DrawSize]
    {
      vertices := [];
      vertices := vertices + value;
      solid.invalidations := solid.invalidations + [DrawSize];
    }

    /** `PathRadius = value`: a no-op for the current radius, otherwise stored with a draw-size invalidation. */
    method SetPathRadius(value: real)
      modifies this`pathRadius, solid`invalidations
      ensures pathRadius == value
      ensures solid.invalidations == old(solid.invalidations) + if value == old(pathRadius) then [] else [DrawSize]
    {
      if pathRadius == value {
        return;
      }
      pathRadius := value;
      solid.invalidations := solid.invalidations + [DrawSize];
    }

    /**
     * `AddVertex`: the vertex goes at the end and the earlier ones stay;
     * the segments gain exactly the one ending at the new vertex.
     */
    method AddVertex(pos: Vec3)
      modifies this`vertices, solid`invalidations
      ensures vertices == old(vertices) + [pos]
      ensures |old(vertices)| >= 1 ==>
        Segments(vertices) == Segments(old(vertices)) + [Segment(old(vertices)[|old(vertices)| - 1], pos)]
      ensures solid.invalidations == old(solid.invalidations) + [DrawSize]
    {
      if |vertices| >= 1 {
        SegmentsSnoc(vertices, pos);
      }
      vertices := vertices + [pos];
      solid.invalidations := solid.invalidations + [DrawSize];
    }

    /**
     * `generateSegments`, which the `segments` property runs on every
     * read: the backing list is cleared and refilled with one segment per
     * pair of consecutive vertices, so nothing from an earlier read survives.
     */
    method GenerateSegments() returns (segs: seq<Segment>)
      modifies this`segmentsBacking
      ensures segs == segmentsBacking == Segments(vertices)
    {
      segmentsBacking := [];
      if |vertices| > 1 {
        var i := 0;
        while i < |vertices| - 1
          invariant 0 <= i <= |vertices| - 1
          invariant segmentsBacking == Segments(vertices[..i + 1])
        {
          assert vertices[..i + 2] == vertices[..i + 1] + [vertices[i + 1]];
          SegmentsSnoc(vertices[..i + 1], vertices[i + 1]);
          segmentsBacking := segmentsBacking + [Segment(vertices[i], vertices[i + 1])];
          i := i + 1;
        }
        assert vertices[..|vertices|] == vertices;
      }
      segs := segmentsBacking;
    }

    /** `Texture`: the owned texture, else the renderer's white pixel, else none. */
    function CurrentTexture(): (r: Texture?)
      reads this`texture
      ensures texture != null ==> r == texture
      ensures texture == null && renderer != null ==> r == renderer.whitePixel
      ensures texture == null && renderer == null ==> r == null
    {
      TextureOrWhitePixel(texture, renderer)
    }

    /**
     * `Texture = value`: nothing for the texture already held; otherwise
     * the previous one is disposed, the new one stored, and the draw node
     * invalidated.
     */
    method SetTexture(value: Texture?)
      modifies this`texture, solid`invalidations, texture
      ensures texture == value
      ensures old(texture) == value ==> solid.invalidations == old(solid.invalidations)
      ensures old(texture) == value && value != null ==> value.disposed == old(value.disposed)
      ensures old(texture) != value ==> solid.invalidations == old(solid.invalidations) + [DrawNodeInvalidation]
      ensures old(texture) != value && old(texture) != null ==> old(texture).disposed
      ensures old(texture) != null ==> old(texture).available == old(texture.available)
    {
      if texture == value {
        return;
      }
      if texture != null {
        texture.Dispose();
      }
      texture := value;
      solid.invalidations := solid.invalidations + [DrawNodeInvalidation];
    }

    /** Disposal: the solid is disposed, then the owned texture is disposed and dropped. */
    method Dispose()
      modifies solid`isDisposed, this`texture, texture
      ensures solid.isDisposed && texture == null
      ensures old(texture) != null ==> old(texture).disposed
      ensures old(texture) != null ==> old(texture).available == old(texture.available)
      ensures CurrentTexture() == if renderer != null then renderer.whitePixel else null
    {
      solid.Dispose();
      if texture != null {
        texture.Dispose();
      }
      texture := null;
    }

    method CreateDrawNode() returns (node: SpacePathDrawNode)
      ensures fresh(node) && node.source == this
      ensures node.texture == null && node.triangleBatch == null && node.shader == None && node.segments == []
    {
      node := new SpacePathDrawNode(this);
    }
  }

  /** The snapshot a path is drawn from. */
  class SpacePathDrawNode {
    const source: SpacePath
    var texture: Texture?
    var drawInfo: SpaceDrawInfo
    var shader: Option<Shader>
    var radius: real
    var segments: seq<Segment>
    var triangleBatch: VertexBatch?

    /** A new node: nothing snapshotted yet and no batch. */
    constructor (source: SpacePath)
      ensures this.source == source
      ensures texture == null && shader == None && segments == [] && triangleBatch == null
      ensures radius == 0.0 && drawInfo == SpaceDrawInfo(ZeroMatrix, ZeroMatrix)
    {
      this.source := source;
      texture := null;
      drawInfo := SpaceDrawInfo(ZeroMatrix, ZeroMatrix);
      shader := None;
      radius := 0.0;
      segments := [];
      triangleBatch := null;
    }

    /**
     * `ApplyState`: the segment list is cleared and refilled with the
     * path's segments as they are now, then texture, draw info, radius and
     * shader are snapshotted.  The node keeps its own copy: later edits
     * of the path's vertices do not reach it.
     */
    method ApplyState()
      modifies this`segments, this`texture, this`drawInfo, this`radius, this`shader, source`segmentsBacking
      ensures segments == Segments(source.vertices)
      ensures texture == source.CurrentTexture()
      ensures drawInfo == source.solid.CurrentDrawInfo()
      ensures radius == source.pathRadius
      ensures shader == source.pathShader
    {
      RefreshSegments();
      TakeSnapshot();
    }

    /** The first half of `ApplyState`: the node's list cleared and refilled from the path. */
    method RefreshSegments()
      modifies this`segments, source`segmentsBacking
      ensures segments == Segments(source.vertices)
    {
      segments := [];
      var current := source.GenerateSegments();
      segments := segments + current;
    }

    /** The second half of `ApplyState`: texture, draw info, radius and shader copied from the path. */
    method TakeSnapshot()
      modifies this`texture, this`drawInfo, this`radius, this`shader
      ensures texture == source.CurrentTexture()
      ensures drawInfo == source.solid.CurrentDrawInfo()
      ensures radius == source.pathRadius
      ensures shader == source.pathShader
    {
      texture := source.CurrentTexture();
      drawInfo := source.solid.ComputeDrawInfo();
      radius := source.pathRadius;
      shader := source.pathShader;
    }

    /**
     * `Draw`: the base draw, then nothing more unless the texture is
     * available and there is a shader; otherwise the triangle batch (made
     * on the first such draw only) and the textured draw, which adds no
     * vertices.
     */
    method Draw(renderer: Renderer)
      modifies renderer`trace, this`triangleBatch
      ensures !CanDraw(texture, shader) ==> renderer.trace == old(renderer.trace) + [BaseDraw]
      ensures !CanDraw(texture, shader) ==> triangleBatch == old(triangleBatch)
      ensures CanDraw(texture, shader) ==>
        renderer.trace == old(renderer.trace) + [BaseDraw] +
                          (if old(triangleBatch) == null then [CreateLinearBatch(TriangleBatchSize, TriangleBatchBuffers, Triangles)] else []) +
                          TexturedDrawTrace(drawInfo.matrix, shader.value, texture.id)
      ensures CanDraw(texture, shader) && old(triangleBatch) != null ==> triangleBatch == old(triangleBatch)
      ensures CanDraw(texture, shader) && old(triangleBatch) == null ==>
        fresh(triangleBatch) && triangleBatch.size == TriangleBatchSize &&
        triangleBatch.maxBuffers == TriangleBatchBuffers && triangleBatch.vertices == []
      ensures triangleBatch != null && old(triangleBatch) == triangleBatch ==> triangleBatch.vertices == old(triangleBatch.vertices)
    {
      renderer.Record(BaseDraw);
      if texture == null || !texture.available || shader.None? {
        return;
      }
      if triangleBatch == null {
        triangleBatch := new VertexBatch(TriangleBatchSize, TriangleBatchBuffers);
        renderer.Record(CreateLinearBatch(TriangleBatchSize, TriangleBatchBuffers, Triangles));
      }
      DrawTextured(renderer);
    }

    /** The part of `Draw` after the batch exists: the pushes, the bindings, the pops. */
    method DrawTextured(renderer: Renderer)
      requires CanDraw(texture, shader)
      modifies renderer`trace
      ensures renderer.trace == old(renderer.trace) + TexturedDrawTrace(drawInfo.matrix, shader.value, texture.id)
    {
      var t0 := renderer.trace;
      renderer.Record(Push(LocalMatrix, MatrixValue(drawInfo.matrix)));
      renderer.Record(Push(Depth, DefaultDepth));
      renderer.Record(SetBlend(NoBlending));
      renderer.Record(BindShader(shader.value));
      renderer.Record(BindTexture(texture.id));
      UpdateVertexBuffer();
      renderer.Record(UnbindShader(shader.value));
      renderer.Record(Pop(Depth));
      renderer.Record(Pop(LocalMatrix));
      assert renderer.trace == t0 + TexturedDrawTrace(drawInfo.matrix, shader.value, texture.id);
    }

    /** `updateVertexBuffer`: the tessellation of the segments is not written yet, so nothing is emitted. */
    method UpdateVertexBuffer()
      ensures unchanged(this)
    {
    }
  }

  /** Whichever way a path's draw goes, its renderer calls are balanced. */
  lemma PathDrawBalanced(newBatch: bool, matrix: Matrix4, shader: Shader, texture: nat)
    ensures Balanced([BaseDraw])
    ensures Balanced([BaseDraw] +
                     (if newBatch then [CreateLinearBatch(TriangleBatchSize, TriangleBatchBuffers, Triangles)] else []) +
                     TexturedDrawTrace(matrix, shader, texture))
  {
    NodeDrawBalanced(if newBatch then [CreateLinearBatch(TriangleBatchSize, TriangleBatchBuffers, Triangles)] else [],
                     matrix, shader, texture);
  }
}
