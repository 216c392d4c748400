/**
 * `Cube`: a solid drawn as the six walls of a 20-unit cube around its
 * origin, with one owned texture (or the renderer's white pixel), and
 * its draw node, which snapshots texture, draw info and shader and then
 * emits four textured vertices per wall into a lazily created quad batch.
 */
module Cubes {
  import opened LinearAlgebra
  import opened Options
  import opened Rendering
  import opened SpaceDrawInfos
  import opened Solids
  import opened SolidDraws

  function Dot3(u: Vec3, v: Vec3): real { u.x * v.x + u.y * v.y + u.z * v.z }

  /** One wall: the offset from the centre to the wall's middle and the two half-edges spanning it. */
  datatype Wall = Wall(toWall: Vec3, down: Vec3, left: Vec3)

  /** Wall `j` of the ones `updateVertexBuffer` adds, in order: -y, +y, -z, +z, -x, +x. */
  function WallOf(j: int): (w: Wall)
    requires 0 <= j < 6
  {
    if j == 0 then Wall(Vec3(0.0, -10.0, 0.0), Vec3(0.0, 0.0, -10.0), Vec3(-10.0, 0.0, 0.0))
    else if j == 1 then Wall(Vec3(0.0, 10.0, 0.0), Vec3(0.0, 0.0, -10.0), Vec3(10.0, 0.0, 0.0))
    else if j == 2 then Wall(Vec3(0.0, 0.0, -10.0), Vec3(-10.0, 0.0, 0.0), Vec3(0.0, -10.0, 0.0))
    else if j == 3 then Wall(Vec3(0.0, 0.0, 10.0), Vec3(10.0, 0.0, 0.0), Vec3(0.0, -10.0, 0.0))
    else if j == 4 then Wall(Vec3(-10.0, 0.0, 0.0), Vec3(0.0, 0.0, -10.0), Vec3(0.0, 10.0, 0.0))
    else Wall(Vec3(10.0, 0.0, 0.0), Vec3(0.0, 0.0, -10.0), Vec3(0.0, -10.0, 0.0))
  }

  /** The four vertices `addWall` emits, in order. */
  function WallVertices(centre: Vec3, toWall: Vec3, down: Vec3, left: Vec3, texRect: RectangleF): (r: seq<TexturedVertex3D>)
    ensures |r| == 4
  {
    var c := Add3(centre, toWall);
    [TexturedVertex3D(Add3(c, Add3(down, left)), White, Vec2(texRect.Left(), texRect.Bottom())),
     TexturedVertex3D(Sub3(Add3(c, down), left), White, Vec2(texRect.Right(), texRect.Bottom())),
     TexturedVertex3D(Sub3(Sub3(c, down), left), White, Vec2(texRect.Right(), texRect.Top())),
     TexturedVertex3D(Add3(Sub3(c, down), left), White, Vec2(texRect.Left(), texRect.Top()))]
  }

  /**
   * A wall's vertices are white and are the corners of the parallelogram
   * around `centre + toWall` spanned by `down` and `left`, in order round
   * its edge, each with the matching corner of `texRect`: the `left` side
   * on the rectangle's left edge and the `down` side on its bottom edge.
   */
  lemma WallVerticesShape(centre: Vec3, toWall: Vec3, down: Vec3, left: Vec3, texRect: RectangleF)
    ensures var r := WallVertices(centre, toWall, down, left, texRect);
      && (forall i :: 0 <= i < 4 ==> r[i].colour == White)
      // the diagonals cross at the middle of the wall
      && Add3(r[0].position, r[2].position) == Add3(Add3(centre, toWall), Add3(centre, toWall))
      && Add3(r[1].position, r[3].position) == Add3(Add3(centre, toWall), Add3(centre, toWall))
      // consecutive corners differ by a whole edge
      && Sub3(r[0].position, r[1].position) == Add3(left, left) == Sub3(r[3].position, r[2].position)
      && Sub3(r[0].position, r[3].position) == Add3(down, down) == Sub3(r[1].position, r[2].position)
      && r[0].texturePosition == Vec2(texRect.Left(), texRect.Bottom())
      && r[1].texturePosition == Vec2(texRect.Right(), texRect.Bottom())
      && r[2].texturePosition == Vec2(texRect.Right(), texRect.Top())
      && r[3].texturePosition == Vec2(texRect.Left(), texRect.Top())
  {
  }

  /** The vertices of wall `j` of the cube around the origin. */
  function CubeWall(j: int, texRect: RectangleF): (r: seq<TexturedVertex3D>)
    requires 0 <= j < 6
    ensures |r| == 4
  {
    WallVertices(Zero3, WallOf(j).toWall, WallOf(j).down, WallOf(j).left, texRect)
  }

  /** Everything `updateVertexBuffer` adds to the batch: vertex `i` is corner `i % 4` of wall `i / 4`. */
  function CubeVertices(texRect: RectangleF): (r: seq<TexturedVertex3D>)
    ensures |r| == 24
  {
    seq(24, i requires 0 <= i < 24 => CubeWall(i / 4, texRect)[i % 4])
  }

  /** A block of four that matches `w` element by element extends the prefix before it by `w`. */
  lemma {:induction false} PrefixByBlock<T>(c: seq<T>, w: seq<T>, j: int)
    requires 0 <= j && 4 * j + 4 <= |c| && |w| == 4
    requires forall m :: 0 <= m < 4 ==> c[4 * j + m] == w[m]
    ensures c[..4 * j + 4] == c[..4 * j] + w
  {
  }

  /** The first `j + 1` walls of the cube are the first `j` followed by wall `j`. */
  lemma CubePrefixStep(texRect: RectangleF, j: int)
    requires 0 <= j < 6
    ensures CubeVertices(texRect)[..4 * j + 4] == CubeVertices(texRect)[..4 * j] + CubeWall(j, texRect)
  {
    var c := CubeVertices(texRect);
    var w := CubeWall(j, texRect);
    forall m | 0 <= m < 4
      ensures c[4 * j + m] == w[m]
    {
      assert (4 * j + m) / 4 == j && (4 * j + m) % 4 == m;
    }
    PrefixByBlock(c, w, j);
  }

  /** Every coordinate is 10 away from the origin. */
  predicate OnCorner(v: Vec3) {
    (v.x == 10.0 || v.x == -10.0) && (v.y == 10.0 || v.y == -10.0) && (v.z == 10.0 || v.z == -10.0)
  }

  /** The six walls face the six axis directions at distance 10, no two the same way. */
  lemma WallsFaceEveryDirection(i: int, j: int)
    requires 0 <= i < 6 && 0 <= j < 6
    ensures WallOf(i).toWall in {Vec3(10.0, 0.0, 0.0), Vec3(-10.0, 0.0, 0.0), Vec3(0.0, 10.0, 0.0),
                                 Vec3(0.0, -10.0, 0.0), Vec3(0.0, 0.0, 10.0), Vec3(0.0, 0.0, -10.0)}
    ensures i != j ==> WallOf(i).toWall != WallOf(j).toWall
  {
  }

  /** `down` and `left` are perpendicular to each other and to the direction of the wall. */
  predicate Square(w: Wall) {
    Dot3(w.toWall, w.down) == 0.0 && Dot3(w.toWall, w.left) == 0.0 && Dot3(w.down, w.left) == 0.0
  }

  /** Each of the six walls is square to its direction. */
  lemma WallsSquare(j: int)
    requires 0 <= j < 6
    ensures Square(WallOf(j))
  {
  }

  /** `p` lies in the plane through `toWall` perpendicular to it. */
  predicate InFace(p: Vec3, toWall: Vec3) {
    Dot3(p, toWall) == Dot3(toWall, toWall)
  }

  /** The corners of a wall, all on corners of the cube and in the wall's face. */
  predicate WallOnCube(w: Wall, vs: seq<TexturedVertex3D>)
  {
    |vs| == 4 && forall k :: 0 <= k < 4 ==> OnCorner(vs[k].position) && InFace(vs[k].position, w.toWall)
  }

  /** Every corner of one wall is a corner of the cube and lies in the wall's face. */
  lemma WallOnCorners(j: int, texRect: RectangleF)
    requires 0 <= j < 6
    ensures WallOnCube(WallOf(j), CubeWall(j, texRect))
  {
    if j == 0 {
      Wall0OnCorners(texRect);
    } else if j == 1 {
      Wall1OnCorners(texRect);
    } else if j == 2 {
      Wall2OnCorners(texRect);
    } else if j == 3 {
      Wall3OnCorners(texRect);
    } else if j == 4 {
      Wall4OnCorners(texRect);
    } else {
      Wall5OnCorners(texRect);
    }
  }

  // The six lemmas below are one proof split by wall, only to keep each
  // obligation small for the solver: every one names its wall's literal
  // vectors and the four corner positions, so nothing is unrolled over a
  // symbolic index.  `WallOnCorners` is the statement; they are its cases.

  lemma Wall0OnCorners(texRect: RectangleF)
    ensures WallOnCube(WallOf(0), CubeWall(0, texRect))
  {
    assert WallOf(0) == Wall(Vec3(0.0, -10.0, 0.0), Vec3(0.0, 0.0, -10.0), Vec3(-10.0, 0.0, 0.0));
    var vs := CubeWall(0, texRect);
    assert vs[0].position == Vec3(-10.0, -10.0, -10.0);
    assert vs[1].position == Vec3(10.0, -10.0, -10.0);
    assert vs[2].position == Vec3(10.0, -10.0, 10.0);
    assert vs[3].position == Vec3(-10.0, -10.0, 10.0);
  }

  lemma Wall1OnCorners(texRect: RectangleF)
    ensures WallOnCube(WallOf(1), CubeWall(1, texRect))
  {
    assert WallOf(1) == Wall(Vec3(0.0, 10.0, 0.0), Vec3(0.0, 0.0, -10.0), Vec3(10.0, 0.0, 0.0));
    var vs := CubeWall(1, texRect);
    assert vs[0].position == Vec3(10.0, 10.0, -10.0);
    assert vs[1].position == Vec3(-10.0, 10.0, -10.0);
    assert vs[2].position == Vec3(-10.0, 10.0, 10.0);
    assert vs[3].position == Vec3(10.0, 10.0, 10.0);
  }

  lemma Wall2OnCorners(texRect: RectangleF)
    ensures WallOnCube(WallOf(2), CubeWall(2, texRect))
  {
    assert WallOf(2) == Wall(Vec3(0.0, 0.0, -10.0), Vec3(-10.0, 0.0, 0.0), Vec3(0.0, -10.0, 0.0));
    var vs := CubeWall(2, texRect);
    assert vs[0].position == Vec3(-10.0, -10.0, -10.0);
    assert vs[1].position == Vec3(-10.0, 10.0, -10.0);
    assert vs[2].position == Vec3(10.0, 10.0, -10.0);
    assert vs[3].position == Vec3(10.0, -10.0, -10.0);
  }

  lemma Wall3OnCorners(texRect: RectangleF)
    ensures WallOnCube(WallOf(3), CubeWall(3, texRect))
  {
    assert WallOf(3) == Wall(Vec3(0.0, 0.0, 10.0), Vec3(10.0, 0.0, 0.0), Vec3(0.0, -10.0, 0.0));
    var vs := CubeWall(3, texRect);
    assert vs[0].position == Vec3(10.0, -10.0, 10.0);
    assert vs[1].position == Vec3(10.0, 10.0, 10.0);
    assert vs[2].position == Vec3(-10.0, 10.0, 10.0);
    assert vs[3].position == Vec3(-10.0, -10.0, 10.0);
  }

  lemma Wall4OnCorners(texRect: RectangleF)
    ensures WallOnCube(WallOf(4), CubeWall(4, texRect))
  {
    assert WallOf(4) == Wall(Vec3(-10.0, 0.0, 0.0), Vec3(0.0, 0.0, -10.0), Vec3(0.0, 10.0, 0.0));
    var vs := CubeWall(4, texRect);
    assert vs[0].position == Vec3(-10.0, 10.0, -10.0);
    assert vs[1].position == Vec3(-10.0, -10.0, -10.0);
    assert vs[2].position == Vec3(-10.0, -10.0, 10.0);
    assert vs[3].position == Vec3(-10.0, 10.0, 10.0);
  }

  lemma Wall5OnCorners(texRect: RectangleF)
    ensures WallOnCube(WallOf(5), CubeWall(5, texRect))
  {
    assert WallOf(5) == Wall(Vec3(10.0, 0.0, 0.0), Vec3(0.0, 0.0, -10.0), Vec3(0.0, -10.0, 0.0));
    var vs := CubeWall(5, texRect);
    assert vs[0].position == Vec3(10.0, -10.0, -10.0);
    assert vs[1].position == Vec3(10.0, 10.0, -10.0);
    assert vs[2].position == Vec3(10.0, 10.0, 10.0);
    assert vs[3].position == Vec3(10.0, -10.0, 10.0);
  }


  /**
   * All 24 vertices sit on corners of the cube (each coordinate is 10 or
   * -10), each in the face of its own wall.
   */
  lemma CubeVerticesOnCorners(texRect: RectangleF)
    ensures forall i :: 0 <= i < 24 ==> OnCorner(CubeVertices(texRect)[i].position)
    ensures forall i :: 0 <= i < 24 ==> InFace(CubeVertices(texRect)[i].position, WallOf(i / 4).toWall)
  {
    forall i | 0 <= i < 24
      ensures OnCorner(CubeVertices(texRect)[i].position)
      ensures InFace(CubeVertices(texRect)[i].position, WallOf(i / 4).toWall)
    {
      WallOnCorners(i / 4, texRect);
    }
  }

  /** The colour of a textured solid: always white, with the blending it inherits. */
  function SolidDrawColour(baseBlending: BlendingParameters): (r: DrawColourInfo)
    ensures r.colour == White && r.blending == baseBlending
  {
    DrawColourInfo(White, baseBlending)
  }

  class Cube {
    /** The solid this cube is; its transform gives the draw info. */
    const solid: Solid
    const renderer: Renderer?
    var cubeShader: Option<Shader>
    var texture: Texture?

    constructor (solid: Solid, renderer: Renderer?)
      ensures this.solid == solid && this.renderer == renderer
      ensures cubeShader == None && texture == null
    {
      this.solid := solid;
      this.renderer := renderer;
      cubeShader := None;
      texture := null;
    }

    /** `load`: stores the textured 3D shader, which the shader manager supplies. */
    method Load(shader: Shader)
      modifies this`cubeShader
      ensures cubeShader == Some(shader)
    {
      cubeShader := Some(shader);
    }

    /** `Texture`: the owned texture, else the renderer's white pixel, else none. */
    function CurrentTexture(): (r: Texture?)
      reads this
      ensures texture != null ==> r == texture
      ensures texture == null && renderer != null ==> r == renderer.whitePixel
      ensures texture == null && renderer == null ==> r == null
    {
      TextureOrWhitePixel(texture, renderer)
    }

    /**
     * `Texture = value`: nothing for the texture already held; otherwise
     * the previous one is disposed, the new one stored, and the draw node
     * invalidated.
     */
    method SetTexture(value: Texture?)
      modifies this`texture, solid`invalidations, texture
      ensures texture == value
      ensures old(texture) == value ==> solid.invalidations == old(solid.invalidations)
      ensures old(texture) == value && value != null ==> value.disposed == old(value.disposed)
      ensures old(texture) != value ==> solid.invalidations == old(solid.invalidations) + [DrawNodeInvalidation]
      ensures old(texture) != value && old(texture) != null ==> old(texture).disposed
      ensures old(texture) != null ==> old(texture).available == old(texture.available)
    {
      if texture == value {
        return;
      }
      if texture != null {
        texture.Dispose();
      }
      texture := value;
      solid.invalidations := solid.invalidations + [DrawNodeInvalidation];
    }

    /** Disposal: the solid is disposed, then the owned texture is disposed and dropped. */
    method Dispose()
      modifies solid`isDisposed, this`texture, texture
      ensures solid.isDisposed && texture == null
      ensures old(texture) != null ==> old(texture).disposed
      ensures old(texture) != null ==> old(texture).available == old(texture.available)
      ensures CurrentTexture() == if renderer != null then renderer.whitePixel else null
    {
      solid.Dispose();
      if texture != null {
        texture.Dispose();
      }
      texture := null;
    }

    method CreateDrawNode() returns (node: CubeDrawNode)
      ensures fresh(node) && node.source == this
      ensures node.texture == null && node.batch == null && node.shader == None
    {
      node := new CubeDrawNode(this);
    }
  }

  /** The snapshot a cube is drawn from. */
  class CubeDrawNode {
    const source: Cube
    var texture: Texture?
    var drawInfo: SpaceDrawInfo
    var batch: VertexBatch?
    var shader: Option<Shader>

    /** A new node: no texture, shader or batch yet, and the all-zero default draw info. */
    constructor (source: Cube)
      ensures this.source == source
      ensures texture == null && batch == null && shader == None
      ensures drawInfo == SpaceDrawInfo(ZeroMatrix, ZeroMatrix)
    {
      this.source := source;
      texture := null;
      drawInfo := SpaceDrawInfo(ZeroMatrix, ZeroMatrix);
      batch := null;
      shader := None;
    }

    /** `ApplyState`: snapshots the cube's texture, its draw info as computed now, and its shader. */
    method ApplyState()
      modifies this`texture, this`drawInfo, this`shader
      ensures texture == source.CurrentTexture()
      ensures drawInfo == source.solid.CurrentDrawInfo()
      ensures shader == source.cubeShader
    {
      texture := source.CurrentTexture();
      drawInfo := source.solid.ComputeDrawInfo();
      shader := source.cubeShader;
    }

    /**
     * `Draw`: the base draw, then nothing more unless the texture is
     * available and there is a shader; otherwise the quad batch (made on
     * the first such draw only), the textured draw, and the cube's 24
     * vertices added to the batch.
     */
    method Draw(renderer: Renderer)
      modifies renderer`trace, this`batch, batch
      ensures !CanDraw(texture, shader) ==> renderer.trace == old(renderer.trace) + [BaseDraw]
      ensures !CanDraw(texture, shader) ==> batch == old(batch)
      ensures !CanDraw(texture, shader) && batch != null ==> batch.vertices == old(batch.vertices)
      ensures CanDraw(texture, shader) ==>
        renderer.trace == old(renderer.trace) + [BaseDraw] + (if old(batch) == null then [CreateQuadBatch(24, 24)] else []) +
                          TexturedDrawTrace(drawInfo.matrix, shader.value, texture.id)
      ensures CanDraw(texture, shader) ==> batch != null
      ensures CanDraw(texture, shader) && old(batch) != null ==> batch == old(batch)
      ensures CanDraw(texture, shader) && old(batch) == null ==> fresh(batch) && batch.size == 24 && batch.maxBuffers == 24
      ensures CanDraw(texture, shader) ==>
        batch.vertices == (if old(batch) == null then [] else old(batch.vertices)) + CubeVertices(texture.textureRect)
    {
      renderer.Record(BaseDraw);
      if texture == null || !texture.available || shader.None? {
        return;
      }
      if batch == null {
        batch := new VertexBatch(24, 24);
        renderer.Record(CreateQuadBatch(24, 24));
      }
      DrawTextured(renderer);
    }

    /** The part of `Draw` after the batch exists: the pushes, the bindings, the vertices, the pops. */
    method DrawTextured(renderer: Renderer)
      requires CanDraw(texture, shader) && batch != null
      modifies renderer`trace, batch`vertices
      ensures renderer.trace == old(renderer.trace) + TexturedDrawTrace(drawInfo.matrix, shader.value, texture.id)
      ensures batch.vertices == old(batch.vertices) + CubeVertices(texture.textureRect)
    {
      var t0 := renderer.trace;
      renderer.Record(Push(LocalMatrix, MatrixValue(drawInfo.matrix)));
      renderer.Record(Push(Depth, DefaultDepth));
      renderer.Record(SetBlend(NoBlending));
      renderer.Record(BindShader(shader.value));
      renderer.Record(BindTexture(texture.id));
      UpdateVertexBuffer();
      renderer.Record(UnbindShader(shader.value));
      renderer.Record(Pop(Depth));
      renderer.Record(Pop(LocalMatrix));
      assert renderer.trace == t0 + TexturedDrawTrace(drawInfo.matrix, shader.value, texture.id);
    }

    /** `updateVertexBuffer`: the six walls around the origin, with the texture's rectangle. */
    method UpdateVertexBuffer()
      requires texture != null && batch != null
      modifies batch`vertices
      ensures batch.vertices == old(batch.vertices) + CubeVertices(texture.textureRect)
    {
      var texRect := texture.textureRect;
      ghost var v0 := batch.vertices;
      assert CubeVertices(texRect)[..0] == [];
      AddWall(Zero3, Vec3(0.0, -10.0, 0.0), Vec3(0.0, 0.0, -10.0), Vec3(-10.0, 0.0, 0.0), texRect);
      CubePrefixStep(texRect, 0);
      assert batch.vertices == v0 + CubeVertices(texRect)[..4];
      AddWall(Zero3, Vec3(0.0, 10.0, 0.0), Vec3(0.0, 0.0, -10.0), Vec3(10.0, 0.0, 0.0), texRect);
      CubePrefixStep(texRect, 1);
      assert batch.vertices == v0 + CubeVertices(texRect)[..8];
      AddWall(Zero3, Vec3(0.0, 0.0, -10.0), Vec3(-10.0, 0.0, 0.0), Vec3(0.0, -10.0, 0.0), texRect);
      CubePrefixStep(texRect, 2);
      assert batch.vertices == v0 + CubeVertices(texRect)[..12];
      AddWall(Zero3, Vec3(0.0, 0.0, 10.0), Vec3(10.0, 0.0, 0.0), Vec3(0.0, -10.0, 0.0), texRect);
      CubePrefixStep(texRect, 3);
      assert batch.vertices == v0 + CubeVertices(texRect)[..16];
      AddWall(Zero3, Vec3(-10.0, 0.0, 0.0), Vec3(0.0, 0.0, -10.0), Vec3(0.0, 10.0, 0.0), texRect);
      CubePrefixStep(texRect, 4);
      assert batch.vertices == v0 + CubeVertices(texRect)[..20];
      AddWall(Zero3, Vec3(10.0, 0.0, 0.0), Vec3(0.0, 0.0, -10.0), Vec3(0.0, -10.0, 0.0), texRect);
      CubePrefixStep(texRect, 5);
      assert batch.vertices == v0 + CubeVertices(texRect)[..24];
      assert CubeVertices(texRect)[..24] == CubeVertices(texRect);
    }

    /** `addWall`: the wall's four vertices, appended to the batch in order. */
    method AddWall(centre: Vec3, toWall: Vec3, down: Vec3, left: Vec3, texRect: RectangleF)
      requires batch != null
      modifies batch`vertices
      ensures batch.vertices == old(batch.vertices) + WallVertices(centre, toWall, down, left, texRect)
    {
      var c := Add3(centre, toWall);
      batch.Add(TexturedVertex3D(Add3(c, Add3(down, left)), White, Vec2(texRect.Left(), texRect.Bottom())));
      batch.Add(TexturedVertex3D(Sub3(Add3(c, down), left), White, Vec2(texRect.Right(), texRect.Bottom())));
      batch.Add(TexturedVertex3D(Sub3(Sub3(c, down), left), White, Vec2(texRect.Right(), texRect.Top())));
      batch.Add(TexturedVertex3D(Add3(Sub3(c, down), left), White, Vec2(texRect.Left(), texRect.Top())));
    }
  }

  /** Whichever way a cube's draw goes, its renderer calls are balanced. */
  lemma CubeDrawBalanced(newBatch: bool, matrix: Matrix4, shader: Shader, texture: nat)
    ensures Balanced([BaseDraw])
    ensures Balanced([BaseDraw] + (if newBatch then [CreateQuadBatch(24, 24)] else []) + TexturedDrawTrace(matrix, shader, texture))
  {
    NodeDrawBalanced(if newBatch then [CreateQuadBatch(24, 24)] else [], matrix, shader, texture);
  }
}
