/** The eye bracket both variants run around the drawing of one eye: what
    `BeginEyeDrawing` and `EndEyeDrawing` leave in the rlgl state. */
module EyeBracket {
  import opened Raylib

  /** The state after `BeginEyeDrawing`: the eye's texture is the target,
      the projection `BeginTextureMode` set up for the texture is saved on the
      stack, the projection is the eye's and the modelview is the view, both
      multiplied onto an identity, and depth testing is on. */
  function BeginEye(g: Gl, tex: RenderTexture, proj: Matrix, view: MatExpr): Gl {
    g.(mode := Modelview, projection := Multiply(Value(proj), Identity), modelview := Multiply(view, Identity),
       stack := g.stack + [OrthoProjection(tex.width, tex.height)], target := Texture(tex), depthTest := true)
  }

  /** The state after `EndEyeDrawing`: back on the screen, the saved matrix
      popped into the projection (the window's projection when nothing was
      saved), the modelview reset to identity, depth testing off. */
  function EndEye(g: Gl): Gl {
    var n := |g.stack|;
    g.(mode := Modelview,
       projection := if n > 0 then g.stack[n - 1] else OrthoProjection(g.screenWidth, g.screenHeight),
       modelview := Identity, stack := if n > 0 then g.stack[..n - 1] else g.stack,
       target := Screen, depthTest := false)
  }

  /** A begin/end pair puts the stack back as it was and leaves the modelview
      at identity, the screen as target and depth testing off. The projection
      it leaves is not the one before the pair but the one popped: the
      texture's orthographic projection that `BeginTextureMode` had loaded. */
  lemma BracketBalanced(g: Gl, tex: RenderTexture, proj: Matrix, view: MatExpr)
    ensures EndEye(BeginEye(g, tex, proj, view))
         == g.(mode := Modelview, projection := OrthoProjection(tex.width, tex.height),
               modelview := Identity, target := Screen, depthTest := false)
  {
    assert (g.stack + [OrthoProjection(tex.width, tex.height)])[..|g.stack|] == g.stack;
  }

  /** What one eye is drawn with. */
  datatype EyePass = EyePass(tex: RenderTexture, proj: Matrix, view: MatExpr)

  /** Any number of bracketed eye passes, in order. */
  function RunPasses(g: Gl, passes: seq<EyePass>): Gl
    decreases |passes|
  {
    if |passes| == 0 then g
    else
      var p := passes[|passes| - 1];
      EndEye(BeginEye(RunPasses(g, passes[..|passes| - 1]), p.tex, p.proj, p.view))
  }

  /** However many frames of two eyes are drawn, the projection stack is as
      it was before the first; after at least one pass the projection is the
      orthographic projection of the last pass's texture. */
  lemma {:induction false} PassesBalanced(g: Gl, passes: seq<EyePass>)
    ensures RunPasses(g, passes).stack == g.stack
    ensures |passes| == 0 ==> RunPasses(g, passes) == g
    ensures |passes| > 0 ==>
      var last := passes[|passes| - 1].tex;
      RunPasses(g, passes) == g.(mode := Modelview, projection := OrthoProjection(last.width, last.height),
                                 modelview := Identity, target := Screen, depthTest := false)
    decreases |passes|
  {
    if |passes| > 0 {
      var p := passes[|passes| - 1];
      PassesBalanced(g, passes[..|passes| - 1]);
      BracketBalanced(RunPasses(g, passes[..|passes| - 1]), p.tex, p.proj, p.view);
    }
  }

  /** Nothing guards against a second begin before the end: it saves a
      second matrix, so the stack grows by two, and both saved matrices are
      texture projections; the first eye's projection is lost. */
  lemma NestedBeginGrowsStack(g: Gl, t1: RenderTexture, p1: Matrix, v1: MatExpr,
                              t2: RenderTexture, p2: Matrix, v2: MatExpr)
    ensures BeginEye(BeginEye(g, t1, p1, v1), t2, p2, v2).stack
         == g.stack + [OrthoProjection(t1.width, t1.height), OrthoProjection(t2.width, t2.height)]
    ensures BeginEye(BeginEye(g, t1, p1, v1), t2, p2, v2).target == Texture(t2)
  {
  }
}
