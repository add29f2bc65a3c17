/** The first version of the application: a Sierpinski triangle generated
    into a vertex vector, one pre-recorded command buffer per swapchain
    image, and a frame that acquires, submits and presents. */
module LegacyFirstApp {
  import opened Vk
  import opened Glm
  import opened Wrappers

  /** The first vertex layout: a 2D position and a color; a vertex built
      from a position alone has a zero color. */
  datatype Vertex2D = Vertex2D(position: Vec2, color: Vec3)

  function Pow3(n: nat): (p: nat)
    ensures p >= 1
  {
    if n == 0 then 1 else 3 * Pow3(n - 1)
  }

  function Depth(d: int): (n: nat)
    ensures d > 0 ==> n == d
  {
    if d <= 0 then 0 else d
  }

  /** The vertices createSierpinskiTriangle appends: at depth 0 or below the
      triangle itself as top, right, left; deeper, the top, right and left
      corner sub-triangles (cut at the edge midpoints) one level down. */
  function Sierpinski(depth: int, top: Vec2, left: Vec2, right: Vec2): (vs: seq<Vertex2D>)
    ensures depth <= 0 ==> |vs| == 3 && vs[0].position == top && vs[1].position == right && vs[2].position == left
    decreases Depth(depth)
  {
    if depth <= 0 then
      [Vertex2D(top, Zero3), Vertex2D(right, Zero3), Vertex2D(left, Zero3)]
    else
      var leftMid := Mid(top, left);
      var rightMid := Mid(top, right);
      var bottomMid := Mid(left, right);
      Sierpinski(depth - 1, top, leftMid, rightMid)
      + Sierpinski(depth - 1, rightMid, bottomMid, right)
      + Sierpinski(depth - 1, leftMid, left, bottomMid)
  }

  /** Exactly 3 * 3^depth vertices (3 for a non-positive depth). */
  lemma {:induction false} SierpinskiCount(depth: int, top: Vec2, left: Vec2, right: Vec2)
    ensures |Sierpinski(depth, top, left, right)| == 3 * Pow3(Depth(depth))
    decreases Depth(depth)
  {
    if depth > 0 {
      var leftMid := Mid(top, left);
      var rightMid := Mid(top, right);
      var bottomMid := Mid(left, right);
      SierpinskiCount(depth - 1, top, leftMid, rightMid);
      SierpinskiCount(depth - 1, rightMid, bottomMid, right);
      SierpinskiCount(depth - 1, leftMid, left, bottomMid);
    }
  }

  /** Every generated vertex has a zero color. */
  lemma {:induction false} SierpinskiColorless(depth: int, top: Vec2, left: Vec2, right: Vec2)
    ensures forall v :: v in Sierpinski(depth, top, left, right) ==> v.color == Zero3
    decreases Depth(depth)
  {
    if depth > 0 {
      var leftMid := Mid(top, left);
      var rightMid := Mid(top, right);
      var bottomMid := Mid(left, right);
      SierpinskiColorless(depth - 1, top, leftMid, rightMid);
      SierpinskiColorless(depth - 1, rightMid, bottomMid, right);
      SierpinskiColorless(depth - 1, leftMid, left, bottomMid);
    }
  }

  /** An axis-aligned box. */
  datatype Box = Box(lo: Vec2, hi: Vec2)

  predicate InBox(b: Box, p: Vec2)
  {
    b.lo.x <= p.x <= b.hi.x && b.lo.y <= p.y <= b.hi.y
  }

  /** Subdivision never leaves the original triangle's bounding box: every
      generated position lies in any box that holds the three corners. */
  lemma {:induction false} SierpinskiStaysInBox(depth: int, top: Vec2, left: Vec2, right: Vec2, b: Box)
    requires InBox(b, top) && InBox(b, left) && InBox(b, right)
    ensures forall v :: v in Sierpinski(depth, top, left, right) ==> InBox(b, v.position)
    decreases Depth(depth)
  {
    if depth > 0 {
      var leftMid := Mid(top, left);
      var rightMid := Mid(top, right);
      var bottomMid := Mid(left, right);
      SierpinskiStaysInBox(depth - 1, top, leftMid, rightMid, b);
      SierpinskiStaysInBox(depth - 1, rightMid, bottomMid, right, b);
      SierpinskiStaysInBox(depth - 1, leftMid, left, bottomMid, b);
    }
  }

  /** The corners loadModels passes. */
  const Top := Vec2(0.0, -0.5)
  const Left := Vec2(-0.5, 0.5)
  const Right := Vec2(0.5, 0.5)

  /** loadModels uses depth 1: nine vertices, enough for the model's
      three-vertex minimum, all inside the [-0.5, 0.5] square. */
  lemma LoadModelsCount()
    ensures |Sierpinski(1, Top, Left, Right)| == 9 >= 3
    ensures forall v :: v in Sierpinski(1, Top, Left, Right) ==>
      -0.5 <= v.position.x <= 0.5 && -0.5 <= v.position.y <= 0.5
  {
    SierpinskiCount(1, Top, Left, Right);
    SierpinskiStaysInBox(1, Top, Left, Right, Box(Vec2(-0.5, -0.5), Vec2(0.5, 0.5)));
  }

  /** The std::vector the generator appends to. */
  class VertexVector {
    var items: seq<Vertex2D>

    constructor()
      ensures items == []
    {
      items := [];
    }

    method PushBack(v: Vertex2D)
      modifies this
      ensures items == old(items) + [v]
    {
      items := items + [v];
    }
  }

  /** The commands recorded into a legacy command buffer. */
  datatype LegacyCommand =
    | BeginRenderPass(framebuffer: nat, renderArea: Extent2D, clearColor: seq<real>, clearDepth: real, clearStencil: nat)
    | BindPipeline
    | BindModel
    | DrawModel
    | EndRenderPass

  /** What buffer i holds once recorded: one render pass into framebuffer i
      over the swapchain extent, cleared to grey, drawing the model. */
  function ImageCommands(i: nat, extent: Extent2D): (cmds: seq<LegacyCommand>)
    ensures |cmds| == 5 && cmds[0].BeginRenderPass? && cmds[0].framebuffer == i && cmds[4] == EndRenderPass
    ensures DrawModel in cmds
  {
    [BeginRenderPass(i, extent, [0.1, 0.1, 0.1, 1.0], 1.0, 0), BindPipeline, BindModel, DrawModel, EndRenderPass]
  }

  datatype AppError = AllocateFailed | RecordBeginFailed | RecordEndFailed | AcquireFailed | PresentFailed

  class FirstApp {
    var swapChainExtent: Extent2D
    var commandBuffers: seq<CommandBuffer>
    /** recorded[i]: the commands in commandBuffers[i]. */
    var recorded: seq<seq<LegacyCommand>>
    var modelVertices: seq<Vertex2D>

    constructor(extent: Extent2D)
      ensures swapChainExtent == extent && commandBuffers == [] && recorded == [] && modelVertices == []
    {
      swapChainExtent := extent;
      commandBuffers := [];
      recorded := [];
      modelVertices := [];
    }

    /** createSierpinskiTriangle: appends the generated vertices and leaves
        everything already in the vector as it was. */
    method CreateSierpinskiTriangle(vertices: VertexVector, depth: int, top: Vec2, left: Vec2, right: Vec2)
      modifies vertices
      ensures vertices.items == old(vertices.items) + Sierpinski(depth, top, left, right)
      decreases Depth(depth)
    {
      if depth <= 0 {
        vertices.PushBack(Vertex2D(top, Zero3));
        vertices.PushBack(Vertex2D(right, Zero3));
        vertices.PushBack(Vertex2D(left, Zero3));
      } else {
        var leftMid := Mid(top, left);
        var rightMid := Mid(top, right);
        var bottomMid := Mid(left, right);
        ghost var before := vertices.items;
        ghost var upper := Sierpinski(depth - 1, top, leftMid, rightMid);
        ghost var lower := Sierpinski(depth - 1, rightMid, bottomMid, right);
        ghost var third := Sierpinski(depth - 1, leftMid, left, bottomMid);
        CreateSierpinskiTriangle(vertices, depth - 1, top, leftMid, rightMid);
        CreateSierpinskiTriangle(vertices, depth - 1, rightMid, bottomMid, right);
        CreateSierpinskiTriangle(vertices, depth - 1, leftMid, left, bottomMid);
        assert vertices.items == before + (upper + lower + third);
      }
    }

    /** loadModels: a depth-1 triangle into an empty vector becomes the
        model's vertex list. */
    method LoadModels()
      modifies this
      ensures modelVertices == Sierpinski(1, Top, Left, Right)
      ensures |modelVertices| == 9
      ensures swapChainExtent == old(swapChainExtent) && commandBuffers == old(commandBuffers) && recorded == old(recorded)
    {
      var vertices := new VertexVector();
      CreateSierpinskiTriangle(vertices, 1, Top, Left, Right);
      modelVertices := vertices.items;
      LoadModelsCount();
    }

    /** createCommandBuffers: one buffer per swapchain image; buffer i is
        recorded against framebuffer i. Allocation, and each buffer's begin
        and end of recording, can fail; the buffers recorded before a
        failure stay recorded. */
    method CreateCommandBuffers(imageCount: nat, allocate: VkResult, handles: seq<CommandBuffer>,
                                begins: seq<VkResult>, ends: seq<VkResult>)
      returns (r: Outcome<AppError>)
      requires allocate == Success ==> |handles| == imageCount && |begins| == imageCount && |ends| == imageCount
      modifies this
      ensures |commandBuffers| == imageCount
      ensures allocate == Success ==> commandBuffers == handles
      ensures r.Pass? <==>
        allocate == Success && forall i :: 0 <= i < imageCount ==> begins[i] == Success && ends[i] == Success
      ensures r.Pass? ==> |recorded| == imageCount
      ensures |recorded| <= imageCount
      ensures forall i :: 0 <= i < |recorded| ==> recorded[i] == ImageCommands(i, swapChainExtent)
      ensures swapChainExtent == old(swapChainExtent) && modelVertices == old(modelVertices)
    {
      recorded := [];
      if allocate != Success {
        commandBuffers := seq(imageCount, _ => CommandBuffer(0));
        return Fail(AllocateFailed);
      }
      commandBuffers := handles;
      var i := 0;
      while i < |commandBuffers|
        invariant 0 <= i <= imageCount
        invariant commandBuffers == handles
        invariant swapChainExtent == old(swapChainExtent) && modelVertices == old(modelVertices)
        invariant |recorded| == i
        invariant forall j :: 0 <= j < i ==> recorded[j] == ImageCommands(j, swapChainExtent)
        invariant forall j :: 0 <= j < i ==> begins[j] == Success && ends[j] == Success
      {
        if begins[i] != Success {
          return Fail(RecordBeginFailed);
        }
        if ends[i] != Success {
          return Fail(RecordEndFailed);
        }
        recorded := recorded + [ImageCommands(i, swapChainExtent)];
        i := i + 1;
      }
      r := Pass;
    }

    /** drawFrame: an acquire result other than SUCCESS or SUBOPTIMAL is
        fatal; otherwise the acquired image's pre-recorded buffer is
        submitted, and the present result must be SUCCESS. */
    method DrawFrame(acquire: VkResult, imageIndex: nat, present: VkResult)
      returns (submitted: Option<CommandBuffer>, r: Outcome<AppError>)
      requires acquire == Success || acquire == Suboptimal ==> imageIndex < |commandBuffers|
      ensures submitted.Some? <==> acquire == Success || acquire == Suboptimal
      ensures submitted.Some? ==> submitted.value == commandBuffers[imageIndex]
      ensures r.Pass? <==> (acquire == Success || acquire == Suboptimal) && present == Success
      ensures r.Fail? ==> r.error == if submitted.None? then AcquireFailed else PresentFailed
    {
      if acquire != Success && acquire != Suboptimal {
        return None, Fail(AcquireFailed);
      }
      submitted := Some(commandBuffers[imageIndex]);
      if present != Success {
        return submitted, Fail(PresentFailed);
      }
      r := Pass;
    }
  }
}
