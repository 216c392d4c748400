/**
 * What the textured solids' draw nodes share: the test that decides
 * whether a snapshot can draw at all, and the renderer calls of a full
 * draw (local matrix and depth pushed around one shader and texture
 * binding), which are LIFO-balanced.
 */
module SolidDraws {
  import opened LinearAlgebra
  import opened Options
  import opened Rendering

  /** A snapshot draws only with a texture that is available and with a shader. */
  predicate CanDraw(texture: Texture?, shader: Option<Shader>)
    reads texture
  {
    texture != null && texture.available && shader.Some?
  }

  /** The state-free middle of a textured draw: blending off, shader and texture bound, shader unbound. */
  function BindingTrace(shader: Shader, texture: nat): (r: seq<RenderEvent>)
    ensures forall i :: 0 <= i < |r| ==> !r[i].Push? && !r[i].Pop?
  {
    [SetBlend(NoBlending), BindShader(shader), BindTexture(texture), UnbindShader(shader)]
  }

  /**
   * The renderer calls of a full textured draw once the batch exists:
   * the local matrix, then the default depth, pushed around the binding,
   * and popped in the opposite order.
   */
  function TexturedDrawTrace(matrix: Matrix4, shader: Shader, texture: nat): seq<RenderEvent> {
    [Push(LocalMatrix, MatrixValue(matrix))] +
    ([Push(Depth, DefaultDepth)] + BindingTrace(shader, texture) + [Pop(Depth)]) +
    [Pop(LocalMatrix)]
  }

  /** Every pop of a textured draw closes the latest push still open, and none stays open. */
  lemma TexturedDrawBalanced(matrix: Matrix4, shader: Shader, texture: nat)
    ensures Balanced(TexturedDrawTrace(matrix, shader, texture))
    ensures |TexturedDrawTrace(matrix, shader, texture)| == 8
  {
    var body := BindingTrace(shader, texture);
    RunNoState([], body);
    BalancedWrap(Depth, DefaultDepth, body);
    BalancedWrap(LocalMatrix, MatrixValue(matrix), [Push(Depth, DefaultDepth)] + body + [Pop(Depth)]);
  }

  /**
   * A whole draw of a textured solid: the base draw, then, when the
   * snapshot can draw, the batch creation (if the batch is new) and the
   * textured draw.  Balanced either way.
   */
  lemma NodeDrawBalanced(creation: seq<RenderEvent>, matrix: Matrix4, shader: Shader, texture: nat)
    requires forall i :: 0 <= i < |creation| ==> !creation[i].Push? && !creation[i].Pop?
    ensures Balanced([BaseDraw])
    ensures Balanced([BaseDraw] + creation + TexturedDrawTrace(matrix, shader, texture))
  {
    var prefix := [BaseDraw] + creation;
    assert forall i :: 0 <= i < |prefix| ==> !prefix[i].Push? && !prefix[i].Pop?;
    RunNoState([], prefix);
    RunNoState([], [BaseDraw]);
    TexturedDrawBalanced(matrix, shader, texture);
    BalancedConcat(prefix, TexturedDrawTrace(matrix, shader, texture));
  }
}
