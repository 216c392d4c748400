/**
 * The part of the renderer that the 3D draw nodes talk to, seen as an
 * append-only trace of events, together with the textures, shaders,
 * vertex batches and frame buffers they use.  The renderer keeps one
 * stack per kind of state (local matrix, depth, projection, masking,
 * viewport, scissor, scissor offset); `Run` replays a trace against a
 * single stack to tell LIFO-balanced traces from merely per-kind
 * balanced ones.
 */
module Rendering {
  import opened LinearAlgebra
  import opened Options

  datatype Colour4 = Colour4(r: real, g: real, b: real, a: real)

  const White: Colour4 := Colour4(1.0, 1.0, 1.0, 1.0)
  const Black: Colour4 := Colour4(0.0, 0.0, 0.0, 1.0)

  /** `BlendingParameters`: only `None` is told apart from the rest. */
  datatype BlendingParameters = NoBlending | OtherBlending(id: nat)

  /** `DrawColourInfo`: a colour and a blending mode. */
  datatype DrawColourInfo = DrawColourInfo(colour: Colour4, blending: BlendingParameters)

  /** `RectangleF`: `Left` is `x`, `Top` is `y`, `Right` and `Bottom` add the extents. */
  datatype RectangleF = RectangleF(x: real, y: real, width: real, height: real) {
    function Left(): real { x }
    function Top(): real { y }
    function Right(): real { x + width }
    function Bottom(): real { y + height }
  }

  datatype RectangleI = RectangleI(x: int, y: int, width: int, height: int)

  /** `TexturedVertex3D`: a position, a colour and a texture coordinate. */
  datatype TexturedVertex3D = TexturedVertex3D(position: Vec3, colour: Colour4, texturePosition: Vec2)

  /** A shader returned by the shader manager; only its identity matters here. */
  datatype Shader = Shader(id: nat)

  datatype PrimitiveTopology = Triangles | Quads | Lines

  /** The masking parameters pushed when drawing into a frame buffer. */
  datatype MaskingInfo = MaskingInfo(screenSpaceAabb: RectangleI, maskingRect: RectangleF,
                                     blendRange: real, alphaExponent: real)

  /** The perspective projection's inputs; `aspect` is `None` where the float quotient is not finite. */
  datatype Projection = PerspectiveFieldOfView(fov: real, aspect: Option<real>, near: real, far: real)

  /** The kinds of renderer state that are pushed and popped. */
  datatype StateKind = LocalMatrix | Depth | ProjectionMatrix | Masking | Viewport | Scissor | ScissorOffset

  datatype StateValue =
    | MatrixValue(matrix: Matrix4)
    | DefaultDepth
    | ProjectionValue(projection: Projection)
    | MaskingValue(masking: MaskingInfo, overwritePreviousScissor: bool)
    | RectValue(rect: RectangleI)
    | OffsetValue(offsetX: int, offsetY: int)

  /** One call made while drawing. */
  datatype RenderEvent =
    | Push(kind: StateKind, value: StateValue)
    | Pop(kind: StateKind)
    | SetBlend(blending: BlendingParameters)
    | Clear(colour: Colour4)
    | BindShader(shader: Shader)
    | UnbindShader(shader: Shader)
    | BindTexture(texture: nat)
    | CreateQuadBatch(size: nat, maxBuffers: nat)
    | CreateLinearBatch(size: nat, maxBuffers: nat, topology: PrimitiveTopology)
    | BaseDraw
    | ChildDraw
    | FrameBufferBound(frameBuffer: nat)
    | FrameBufferUnbound(frameBuffer: nat)

  /** A texture: its identity, its texture rectangle, and whether it is available or disposed. */
  class Texture {
    const id: nat
    /** What `GetTextureRect` gives for the rectangle inset by half a texel. */
    const textureRect: RectangleF
    var available: bool
    var disposed: bool

    constructor (id: nat, textureRect: RectangleF, available: bool)
      ensures this.id == id && this.textureRect == textureRect
      ensures this.available == available && !disposed
    {
      this.id := id;
      this.textureRect := textureRect;
      this.available := available;
      disposed := false;
    }

    method Dispose()
      modifies this`disposed
      ensures disposed
    {
      disposed := true;
    }
  }

  /** The renderer: the events issued so far and its white pixel texture. */
  class Renderer {
    var trace: seq<RenderEvent>
    const whitePixel: Texture

    constructor (whitePixel: Texture)
      ensures trace == [] && this.whitePixel == whitePixel
    {
      trace := [];
      this.whitePixel := whitePixel;
    }

    method Record(e: RenderEvent)
      modifies this`trace
      ensures trace == old(trace) + [e]
    {
      trace := trace + [e];
    }
  }

  /** A vertex batch: its capacity and the vertices added to it. */
  class VertexBatch {
    const size: nat
    const maxBuffers: nat
    var vertices: seq<TexturedVertex3D>

    constructor (size: nat, maxBuffers: nat)
      ensures this.size == size && this.maxBuffers == maxBuffers && vertices == []
    {
      this.size := size;
      this.maxBuffers := maxBuffers;
      vertices := [];
    }

    method Add(v: TexturedVertex3D)
      modifies this`vertices
      ensures vertices == old(vertices) + [v]
    {
      vertices := vertices + [v];
    }
  }

  /** A frame buffer: its identity and its size. */
  class FrameBuffer {
    const id: nat
    var size: Vec2

    constructor (id: nat)
      ensures this.id == id && size == Vec2(0.0, 0.0)
    {
      this.id := id;
      size := Vec2(0.0, 0.0);
    }
  }

  /** The texture a node draws with: its own, else the renderer's white pixel, else none. */
  function TextureOrWhitePixel(own: Texture?, renderer: Renderer?): (r: Texture?)
    ensures own != null ==> r == own
    ensures own == null && renderer != null ==> r == renderer.whitePixel
    ensures own == null && renderer == null ==> r == null
  {
    if own != null then own else if renderer != null then renderer.whitePixel else null
  }

  /**
   * Replays `es` against one stack of state kinds starting from `stack`:
   * a push adds its kind on top, a pop must find its own kind on top,
   * every other event leaves the stack alone.  `None` when some pop fails.
   */
  function Run(stack: seq<StateKind>, es: seq<RenderEvent>): Option<seq<StateKind>>
    decreases |es|
  {
    if es == [] then Some(stack)
    else match es[0]
      case Push(k, _) => Run(stack + [k], es[1..])
      case Pop(k) =>
        if |stack| > 0 && stack[|stack| - 1] == k then Run(stack[..|stack| - 1], es[1..]) else None
      case _ => Run(stack, es[1..])
  }

  /** Every pop undoes the latest push that is still open, and nothing stays open. */
  predicate Balanced(es: seq<RenderEvent>) {
    Run([], es) == Some([])
  }

  /** The pushes and pops of one kind only. */
  function OnlyKind(es: seq<RenderEvent>, k: StateKind): (r: seq<RenderEvent>)
    ensures |r| <= |es|
    ensures forall i :: 0 <= i < |r| ==> r[i] == Pop(k) || (r[i].Push? && r[i].kind == k)
  {
    if es == [] then []
    else
      var rest := OnlyKind(es[1..], k);
      match es[0]
      case Push(k', _) => if k' == k then [es[0]] + rest else rest
      case Pop(k') => if k' == k then [es[0]] + rest else rest
      case _ => rest
  }

  /** Each kind of state is balanced on its own stack, which is what the renderer checks. */
  predicate KindBalanced(es: seq<RenderEvent>) {
    forall k :: Balanced(OnlyKind(es, k))
  }

  /** Filtering by kind distributes over concatenation. */
  lemma {:induction false} OnlyKindAppend(a: seq<RenderEvent>, b: seq<RenderEvent>, k: StateKind)
    ensures OnlyKind(a + b, k) == OnlyKind(a, k) + OnlyKind(b, k)
    decreases |a|
  {
    if a == [] {
      assert a + b == b;
    } else {
      assert (a + b)[1..] == a[1..] + b;
      OnlyKindAppend(a[1..], b, k);
    }
  }

  /** A single event survives the filter exactly when it pushes or pops the kind. */
  lemma OnlyKindSingle(e: RenderEvent, k: StateKind)
    ensures OnlyKind([e], k) == if (e.Push? || e.Pop?) && e.kind == k then [e] else []
  {
    assert [e][1..] == [];
  }

  /** A push followed by a pop of the same kind is balanced. */
  lemma PushPopBalanced(e: RenderEvent, k: StateKind)
    requires e.Push? && e.kind == k
    ensures Balanced([e, Pop(k)])
  {
    assert [e, Pop(k)][1..] == [Pop(k)];
    assert [Pop(k)][1..] == [];
    assert [] + [k] == [k];
    assert [k][..0] == [];
    assert Run([k], [Pop(k)]) == Run([], []) == Some([]);
    assert Run([], [e, Pop(k)]) == Run([k], [Pop(k)]);
  }

  /** Filtering four events filters each of them. */
  lemma OnlyKindFour(a: RenderEvent, b: RenderEvent, c: RenderEvent, d: RenderEvent, k: StateKind)
    ensures OnlyKind([a, b, c, d], k) == OnlyKind([a], k) + OnlyKind([b], k) + OnlyKind([c], k) + OnlyKind([d], k)
  {
    assert [a, b, c, d] == [a] + [b] + [c] + [d];
    OnlyKindAppend([a] + [b] + [c], [d], k);
    OnlyKindAppend([a] + [b], [c], k);
    OnlyKindAppend([a], [b], k);
  }

  /** The entries of one kind in a stack, counted from the bottom. */
  function StackOfKind(s: seq<StateKind>, k: StateKind): seq<StateKind>
    decreases |s|
  {
    if s == [] then []
    else StackOfKind(s[..|s| - 1], k) + (if s[|s| - 1] == k then [k] else [])
  }

  /** Replaying a concatenation replays the first part and then the second from where it left the stack. */
  lemma {:induction false} RunAppend(s: seq<StateKind>, a: seq<RenderEvent>, b: seq<RenderEvent>)
    ensures Run(s, a + b) == (if Run(s, a).Some? then Run(Run(s, a).value, b) else None)
    decreases |a|
  {
    if a == [] {
      assert a + b == b;
    } else {
      assert (a + b)[1..] == a[1..] + b;
      match a[0]
      case Push(k, _) => RunAppend(s + [k], a[1..], b);
      case Pop(k) =>
        if |s| > 0 && s[|s| - 1] == k {
          RunAppend(s[..|s| - 1], a[1..], b);
        }
      case _ => RunAppend(s, a[1..], b);
    }
  }

  /** Entries below the current stack are never touched by a successful replay. */
  lemma {:induction false} RunUnderPrefix(p: seq<StateKind>, s: seq<StateKind>, es: seq<RenderEvent>)
    requires Run(s, es).Some?
    ensures Run(p + s, es) == Some(p + Run(s, es).value)
    decreases |es|
  {
    if es != [] {
      match es[0]
      case Push(k, _) =>
        assert (p + s) + [k] == p + (s + [k]);
        RunUnderPrefix(p, s + [k], es[1..]);
      case Pop(k) =>
        assert (p + s)[..|p + s| - 1] == p + s[..|s| - 1];
        RunUnderPrefix(p, s[..|s| - 1], es[1..]);
      case _ => RunUnderPrefix(p, s, es[1..]);
    }
  }

  /** Balanced traces compose in sequence. */
  lemma BalancedConcat(a: seq<RenderEvent>, b: seq<RenderEvent>)
    requires Balanced(a) && Balanced(b)
    ensures Balanced(a + b)
  {
    RunAppend([], a, b);
  }

  /** A balanced trace wrapped in a push and the matching pop is balanced. */
  lemma BalancedWrap(k: StateKind, v: StateValue, body: seq<RenderEvent>)
    requires Balanced(body)
    ensures Balanced([Push(k, v)] + body + [Pop(k)])
  {
    RunAppend([], [Push(k, v)] + body, [Pop(k)]);
    RunAppend([], [Push(k, v)], body);
    assert Run([], [Push(k, v)]) == Some([k]) by {
      assert [Push(k, v)][1..] == [];
      assert [] + [k] == [k];
    }
    RunUnderPrefix([k], [], body);
    assert [k] + [] == [k];
    assert Run([k], [Pop(k)]) == Some([]) by {
      assert [Pop(k)][1..] == [];
    }
  }

  /** A trace without pushes or pops leaves any stack as it is. */
  lemma {:induction false} RunNoState(s: seq<StateKind>, es: seq<RenderEvent>)
    requires forall i :: 0 <= i < |es| ==> !es[i].Push? && !es[i].Pop?
    ensures Run(s, es) == Some(s)
    decreases |es|
  {
    if es != [] {
      RunNoState(s, es[1..]);
    }
  }

  /** The stack of one kind after a replay is the replay of that kind's events. */
  lemma {:induction false} RunOnlyKind(s: seq<StateKind>, es: seq<RenderEvent>, k: StateKind)
    requires Run(s, es).Some?
    ensures Run(StackOfKind(s, k), OnlyKind(es, k)) == Some(StackOfKind(Run(s, es).value, k))
    decreases |es|
  {
    if es != [] {
      var rest := OnlyKind(es[1..], k);
      match es[0]
      case Push(k', v) =>
        RunOnlyKind(s + [k'], es[1..], k);
        assert (s + [k'])[..|s + [k']| - 1] == s;
        if k' == k {
          assert StackOfKind(s + [k'], k) == StackOfKind(s, k) + [k];
          assert ([es[0]] + rest)[1..] == rest;
        } else {
          assert StackOfKind(s + [k'], k) == StackOfKind(s, k);
        }
      case Pop(k') =>
        var n := |s|;
        assert s[..n - 1] + [s[n - 1]] == s;
        RunOnlyKind(s[..n - 1], es[1..], k);
        if k' == k {
          assert ([es[0]] + rest)[1..] == rest;
          var t := StackOfKind(s[..n - 1], k);
          assert StackOfKind(s, k) == t + [k];
          assert (t + [k])[..|t + [k]| - 1] == t;
          assert (t + [k])[|t + [k]| - 1] == k;
          assert Run(t + [k], [es[0]] + rest) == Run(t, rest);
        } else {
          assert StackOfKind(s, k) == StackOfKind(s[..n - 1], k);
        }
      case _ =>
        RunOnlyKind(s, es[1..], k);
    }
  }

  /** A LIFO-balanced trace is balanced kind by kind. */
  lemma BalancedIsKindBalanced(es: seq<RenderEvent>)
    requires Balanced(es)
    ensures KindBalanced(es)
  {
    forall k
      ensures Balanced(OnlyKind(es, k))
    {
      RunOnlyKind([], es, k);
    }
  }
}
