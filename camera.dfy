/**
 * `Camera`, the container that 3D solids are parented to, and its draw
 * node, which draws the camera's children under a perspective projection.
 */
module Cameras {
  import opened LinearAlgebra
  import opened Options
  import opened Rendering

  /** The clock a drawable runs on; only its identity matters here. */
  datatype Clock = Clock(id: nat)

  /** The token the frame-buffer helpers return; disposing it undoes what they did. */
  datatype DisposalToken = UnbindFrameBufferOnDispose(frameBuffer: nat) | ReturnViewportOnDispose

  class Camera {
    /** Defaults to black; the setter is private and never called. */
    var backgroundColour: Colour4
    /** Defaults to none, so the draw node falls back to white. */
    var frameBufferDrawColour: Option<DrawColourInfo>
    /** Defaults to 1; the setter is private and never called. */
    var fov: real
    const clock: Clock

    constructor (clock: Clock)
      ensures backgroundColour == Black
      ensures frameBufferDrawColour == None
      ensures fov == 1.0
      ensures this.clock == clock
    {
      backgroundColour := Black;
      frameBufferDrawColour := None;
      fov := 1.0;
      this.clock := clock;
    }

    /** A camera draw node paired with a fresh composite node over the same camera. */
    method CreateDrawNode() returns (node: CameraDrawNode)
      ensures fresh(node) && fresh(node.child)
      ensures node.source == this && node.child.source == this
      ensures node.child.children == [] && node.child.stateApplications == 0
    {
      var child := new CompositeDrawableDrawNode(this);
      node := new CameraDrawNode(this, child);
    }
  }

  /**
   * Stands in for the framework's composite draw node, which is not part
   * of this model: it holds the child draw nodes (by identity), counts the
   * times its state was applied and draws as one `ChildDraw` event.
   */
  class CompositeDrawableDrawNode {
    const source: Camera
    var children: seq<nat>
    var stateApplications: nat

    constructor (source: Camera)
      ensures this.source == source && children == [] && stateApplications == 0
    {
      this.source := source;
      children := [];
      stateApplications := 0;
    }

    method ApplyState()
      modifies this`stateApplications
      ensures stateApplications == old(stateApplications) + 1
    {
      stateApplications := stateApplications + 1;
    }

    method Draw(renderer: Renderer)
      modifies renderer`trace
      ensures renderer.trace == old(renderer.trace) + [ChildDraw]
    {
      renderer.Record(ChildDraw);
    }
  }

  /** The projection's aspect ratio: width over height, not finite when the height is zero. */
  function Aspect(width: real, height: real): (r: Option<real>)
    ensures r.Some? <==> height != 0.0
    ensures r.Some? ==> r.value * height == width
  {
    if height != 0.0 then Some(width / height) else None
  }

  /** The events of a full camera draw. */
  function CameraDrawTrace(projection: Projection, background: Colour4): seq<RenderEvent> {
    [BaseDraw, Push(ProjectionMatrix, ProjectionValue(projection)), Clear(background), ChildDraw, Pop(ProjectionMatrix)]
  }

  /** A camera draw pops exactly what it pushes, in LIFO order. */
  lemma CameraDrawBalanced(projection: Projection, background: Colour4)
    ensures Balanced(CameraDrawTrace(projection, background))
  {
    var body := [Clear(background), ChildDraw];
    RunNoState([], body);
    BalancedWrap(ProjectionMatrix, ProjectionValue(projection), body);
    RunNoState([], [BaseDraw]);
    BalancedConcat([BaseDraw], [Push(ProjectionMatrix, ProjectionValue(projection))] + body + [Pop(ProjectionMatrix)]);
    assert [BaseDraw] + ([Push(ProjectionMatrix, ProjectionValue(projection))] + body + [Pop(ProjectionMatrix)])
        == CameraDrawTrace(projection, background);
  }

  /** The masking rectangle in screen space: the floored corner and the truncated frame-buffer size. */
  function MaskingRect(drawRectangle: RectangleF, frameBufferSize: Vec2): RectangleI {
    RectangleI(drawRectangle.x.Floor, drawRectangle.y.Floor, Truncate(frameBufferSize.x), Truncate(frameBufferSize.y))
  }

  /** The four pushes that redirect drawing to a frame buffer of the given size. */
  function EstablishViewportTrace(drawRectangle: RectangleF, frameBufferSize: Vec2): seq<RenderEvent> {
    var masking := MaskingRect(drawRectangle, frameBufferSize);
    var bufferRect := RectangleI(0, 0, Truncate(frameBufferSize.x), Truncate(frameBufferSize.y));
    [Push(Masking, MaskingValue(MaskingInfo(masking, drawRectangle, 1.0, 1.0), true)),
     Push(Viewport, RectValue(bufferRect)),
     Push(Scissor, RectValue(bufferRect)),
     Push(ScissorOffset, OffsetValue(masking.x, masking.y))]
  }

  /** The four pops that undo it. */
  const ReturnViewportTrace: seq<RenderEvent> :=
    [Pop(ScissorOffset), Pop(Viewport), Pop(Scissor), Pop(Masking)]

  /**
   * Establishing and returning the viewport pops every kind exactly as
   * often as it pushes it, but viewport and scissor are popped in the
   * same order they were pushed, so the pair is not LIFO-balanced.
   */
  lemma ViewportKindBalancedButNotLifo(drawRectangle: RectangleF, frameBufferSize: Vec2)
    ensures KindBalanced(EstablishViewportTrace(drawRectangle, frameBufferSize) + ReturnViewportTrace)
    ensures !Balanced(EstablishViewportTrace(drawRectangle, frameBufferSize) + ReturnViewportTrace)
  {
    ViewportNotLifo(drawRectangle, frameBufferSize);
    ViewportKindBalanced(drawRectangle, frameBufferSize);
  }

  /** Replaying the viewport pair fails at the viewport pop, which finds the scissor on top. */
  lemma ViewportNotLifo(drawRectangle: RectangleF, frameBufferSize: Vec2)
    ensures Run([], EstablishViewportTrace(drawRectangle, frameBufferSize) + ReturnViewportTrace) == None
  {
    var es := EstablishViewportTrace(drawRectangle, frameBufferSize) + ReturnViewportTrace;
    assert Run([], es) == Run([Masking], es[1..]) by {
      assert es[0].Push? && es[0].kind == Masking;
      assert [] + [Masking] == [Masking];
    }
    assert Run([Masking], es[1..]) == Run([Masking, Viewport], es[2..]) by {
      assert es[1..][1..] == es[2..];
      assert [Masking] + [Viewport] == [Masking, Viewport];
    }
    assert Run([Masking, Viewport], es[2..]) == Run([Masking, Viewport, Scissor], es[3..]) by {
      assert es[2..][1..] == es[3..];
      assert [Masking, Viewport] + [Scissor] == [Masking, Viewport, Scissor];
    }
    assert Run([Masking, Viewport, Scissor], es[3..]) == Run([Masking, Viewport, Scissor, ScissorOffset], es[4..]) by {
      assert es[3..][1..] == es[4..];
      assert [Masking, Viewport, Scissor] + [ScissorOffset] == [Masking, Viewport, Scissor, ScissorOffset];
    }
    assert Run([Masking, Viewport, Scissor, ScissorOffset], es[4..]) == Run([Masking, Viewport, Scissor], es[5..]) by {
      assert es[4..][1..] == es[5..];
      assert [Masking, Viewport, Scissor, ScissorOffset][..3] == [Masking, Viewport, Scissor];
    }
    assert Run([Masking, Viewport, Scissor], es[5..]) == None by {
      assert es[5..][0] == Pop(Viewport);
    }
  }

  /** Each kind is pushed once by the establishing half and popped once by the returning half. */
  lemma ViewportKindBalanced(drawRectangle: RectangleF, frameBufferSize: Vec2)
    ensures KindBalanced(EstablishViewportTrace(drawRectangle, frameBufferSize) + ReturnViewportTrace)
  {
    var pushes := EstablishViewportTrace(drawRectangle, frameBufferSize);
    ViewportShapeKindBalanced(pushes[0].value, pushes[1].value, pushes[2].value, pushes[3].value);
  }

  /** The per-kind balance of the viewport pair does not depend on the values pushed. */
  lemma ViewportShapeKindBalanced(m: StateValue, v: StateValue, s: StateValue, o: StateValue)
    ensures KindBalanced([Push(Masking, m), Push(Viewport, v), Push(Scissor, s), Push(ScissorOffset, o)]
                         + ReturnViewportTrace)
  {
    var pushes := [Push(Masking, m), Push(Viewport, v), Push(Scissor, s), Push(ScissorOffset, o)];
    var es := pushes + ReturnViewportTrace;
    forall k
      ensures Balanced(OnlyKind(es, k))
    {
      OnlyKindAppend(pushes, ReturnViewportTrace, k);
      ViewportPushesOfKind(m, v, s, o, k);
      ViewportPopsOfKind(k);
      match k
      case Masking => PushPopBalanced(pushes[0], k);
      case Viewport => PushPopBalanced(pushes[1], k);
      case Scissor => PushPopBalanced(pushes[2], k);
      case ScissorOffset => PushPopBalanced(pushes[3], k);
      case _ => assert OnlyKind(es, k) == []; assert Balanced([]);
    }
  }

  /** The establishing half pushes each of its four kinds once. */
  lemma ViewportPushesOfKind(m: StateValue, v: StateValue, s: StateValue, o: StateValue, k: StateKind)
    ensures OnlyKind([Push(Masking, m), Push(Viewport, v), Push(Scissor, s), Push(ScissorOffset, o)], k)
         == match k
            case Masking => [Push(Masking, m)]
            case Viewport => [Push(Viewport, v)]
            case Scissor => [Push(Scissor, s)]
            case ScissorOffset => [Push(ScissorOffset, o)]
            case _ => []
  {
    OnlyKindFour(Push(Masking, m), Push(Viewport, v), Push(Scissor, s), Push(ScissorOffset, o), k);
    OnlyKindSingle(Push(Masking, m), k);
    OnlyKindSingle(Push(Viewport, v), k);
    OnlyKindSingle(Push(Scissor, s), k);
    OnlyKindSingle(Push(ScissorOffset, o), k);
  }

  /** The returning half pops each of the same four kinds once. */
  lemma ViewportPopsOfKind(k: StateKind)
    ensures OnlyKind(ReturnViewportTrace, k)
         == if k in {Masking, Viewport, Scissor, ScissorOffset} then [Pop(k)] else []
  {
    OnlyKindFour(Pop(ScissorOffset), Pop(Viewport), Pop(Scissor), Pop(Masking), k);
    OnlyKindSingle(Pop(ScissorOffset), k);
    OnlyKindSingle(Pop(Viewport), k);
    OnlyKindSingle(Pop(Scissor), k);
    OnlyKindSingle(Pop(Masking), k);
  }

  class CameraDrawNode {
    const source: Camera
    const child: CompositeDrawableDrawNode
    var drawColourInfo: DrawColourInfo
    var backgroundColour: Colour4
    var projection: Projection
    var screenSpaceDrawRectangle: RectangleF
    var frameBufferSize: Vec2

    constructor (source: Camera, child: CompositeDrawableDrawNode)
      ensures this.source == source && this.child == child
    {
      this.source := source;
      this.child := child;
      drawColourInfo := DrawColourInfo(White, NoBlending);
      backgroundColour := Black;
      projection := PerspectiveFieldOfView(0.0, None, 0.0, 0.0);
      screenSpaceDrawRectangle := RectangleF(0.0, 0.0, 0.0, 0.0);
      frameBufferSize := Vec2(0.0, 0.0);
    }

    /** `Children`: the child composite node's list, read through. */
    function Children(): seq<nat>
      reads this, child
    {
      child.children
    }

    /** `AddChildDrawNodes`: a camera node always asks for its children's draw nodes. */
    function AddChildDrawNodes(): (r: bool)
      ensures r
    {
      true
    }

    /** `Children`: the child composite node's list, written through. */
    method SetChildren(value: seq<nat>)
      modifies child`children
      ensures Children() == value
    {
      child.children := value;
    }

    /**
     * Snapshots the camera: its background colour, the screen-space
     * bounding box (the framework computes it; here it is a parameter)
     * and a frame-buffer size equal to that box's extents, the colour
     * info (the camera's, else white with the inherited blending) and
     * the projection inputs; then applies the child's state.
     */
    method ApplyState(screenSpaceAabb: RectangleF, inheritedBlending: BlendingParameters)
      modifies this`backgroundColour, this`screenSpaceDrawRectangle, this`frameBufferSize,
               this`drawColourInfo, this`projection, child`stateApplications
      ensures backgroundColour == source.backgroundColour
      ensures screenSpaceDrawRectangle == screenSpaceAabb
      ensures frameBufferSize == Vec2(screenSpaceAabb.width, screenSpaceAabb.height)
      ensures source.frameBufferDrawColour.Some? ==> drawColourInfo == source.frameBufferDrawColour.value
      ensures source.frameBufferDrawColour.None? ==> drawColourInfo == DrawColourInfo(White, inheritedBlending)
      ensures projection.fov == source.fov && projection.near == 0.1 && projection.far == 1000.0
      ensures projection.aspect == Aspect(screenSpaceAabb.width, screenSpaceAabb.height)
      ensures child.stateApplications == old(child.stateApplications) + 1
    {
      backgroundColour := source.backgroundColour;
      var fov := source.fov;
      screenSpaceDrawRectangle := screenSpaceAabb;
      frameBufferSize := Vec2(screenSpaceDrawRectangle.width, screenSpaceDrawRectangle.height);
      drawColourInfo := if source.frameBufferDrawColour.Some? then source.frameBufferDrawColour.value
                        else DrawColourInfo(White, inheritedBlending);
      projection := PerspectiveFieldOfView(fov, Aspect(screenSpaceDrawRectangle.width, screenSpaceDrawRectangle.height), 0.1, 1000.0);
      child.ApplyState();
    }

    /** Pushes the projection, clears to the background colour, draws the child and pops the projection. */
    method Draw(renderer: Renderer)
      modifies renderer`trace
      ensures renderer.trace == old(renderer.trace) + CameraDrawTrace(projection, backgroundColour)
    {
      renderer.Record(BaseDraw);
      renderer.Record(Push(ProjectionMatrix, ProjectionValue(projection)));
      renderer.Record(Clear(backgroundColour));
      child.Draw(renderer);
      renderer.Record(Pop(ProjectionMatrix));
    }

    /** Sizes the frame buffer to the snapshot size, binds it and hands back a token that unbinds it. */
    method BindFrameBuffer(frameBuffer: FrameBuffer, renderer: Renderer) returns (token: DisposalToken)
      modifies frameBuffer`size, renderer`trace
      ensures frameBuffer.size == frameBufferSize
      ensures renderer.trace == old(renderer.trace) + [FrameBufferBound(frameBuffer.id)]
      ensures token == UnbindFrameBufferOnDispose(frameBuffer.id)
    {
      frameBuffer.size := frameBufferSize;
      renderer.Record(FrameBufferBound(frameBuffer.id));
      token := UnbindFrameBufferOnDispose(frameBuffer.id);
    }

    /** Pushes masking, viewport, scissor and scissor offset for drawing into the frame buffer. */
    method EstablishFrameBufferViewport(renderer: Renderer) returns (token: DisposalToken)
      modifies renderer`trace
      ensures renderer.trace == old(renderer.trace) + EstablishViewportTrace(screenSpaceDrawRectangle, frameBufferSize)
      ensures token == ReturnViewportOnDispose
    {
      var masking := RectangleI(screenSpaceDrawRectangle.x.Floor, screenSpaceDrawRectangle.y.Floor,
                                Truncate(frameBufferSize.x), Truncate(frameBufferSize.y));
      renderer.Record(Push(Masking, MaskingValue(MaskingInfo(masking, screenSpaceDrawRectangle, 1.0, 1.0), true)));
      renderer.Record(Push(Viewport, RectValue(RectangleI(0, 0, Truncate(frameBufferSize.x), Truncate(frameBufferSize.y)))));
      renderer.Record(Push(Scissor, RectValue(RectangleI(0, 0, Truncate(frameBufferSize.x), Truncate(frameBufferSize.y)))));
      renderer.Record(Push(ScissorOffset, OffsetValue(masking.x, masking.y)));
      token := ReturnViewportOnDispose;
    }

    /** Pops scissor offset, viewport, scissor and masking, in that order. */
    method ReturnViewport(renderer: Renderer)
      modifies renderer`trace
      ensures renderer.trace == old(renderer.trace) + ReturnViewportTrace
    {
      renderer.Record(Pop(ScissorOffset));
      renderer.Record(Pop(Viewport));
      renderer.Record(Pop(Scissor));
      renderer.Record(Pop(Masking));
    }

    /** Disposing a token runs the action it stands for. */
    method DisposeToken(token: DisposalToken, renderer: Renderer)
      modifies renderer`trace
      ensures token.UnbindFrameBufferOnDispose? ==>
                renderer.trace == old(renderer.trace) + [FrameBufferUnbound(token.frameBuffer)]
      ensures token.ReturnViewportOnDispose? ==> renderer.trace == old(renderer.trace) + ReturnViewportTrace
    {
      match token
      case UnbindFrameBufferOnDispose(id) => renderer.Record(FrameBufferUnbound(id));
      case ReturnViewportOnDispose => ReturnViewport(renderer);
    }
  }
}
