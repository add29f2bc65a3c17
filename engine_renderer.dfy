/** The frame orchestrator: a two-state machine (idle, frame in progress)
    over a frame-slot counter, one command buffer per slot, and a swapchain
    that is rebuilt when the window is resized or presentation reports it
    stale. The window, the swapchain and the driver are abstract inputs. */
module EngineRenderer {
  import opened Vk
  import opened Wrappers

  /** EngineSwapChain::MAX_FRAMES_IN_FLIGHT. */
  const MAX_FRAMES_IN_FLIGHT: nat := 2

  /** The image and depth formats a swapchain settled on. */
  datatype SwapFormats = SwapFormats(imageFormat: nat, depthFormat: nat)

  datatype SwapChain = SwapChain(extent: Extent2D, formats: SwapFormats)

  /** What one swapchain rebuild observes: the extents the window reports on
      successive GetExtent calls, and the formats the new swapchain picks. */
  datatype Rebuild = Rebuild(polls: seq<Extent2D>, formats: SwapFormats)

  /** The window eventually reports a drawable (non-zero) size; without it
      the wait loop never ends. */
  predicate EventuallyNonZero(polls: seq<Extent2D>)
  {
    exists i :: 0 <= i < |polls| && NonZero(polls[i])
  }

  datatype RendererError =
    | AllocateFailed     // vkAllocateCommandBuffers
    | AcquireFailed      // acquireNextImage
    | RecordBeginFailed  // vkBeginCommandBuffer
    | RecordEndFailed    // vkEndCommandBuffer
    | PresentFailed      // submitCommandBuffers
    | FormatChanged      // CompareSwapFormats

  /** The index of the first drawable extent the window reports. */
  function FirstNonZero(polls: seq<Extent2D>): (r: nat)
    requires EventuallyNonZero(polls)
    ensures r < |polls| && NonZero(polls[r])
    ensures forall j :: 0 <= j < r ==> !NonZero(polls[j])
  {
    if NonZero(polls[0]) then 0
    else
      assert EventuallyNonZero(polls[1..]) by {
        var i :| 0 <= i < |polls| && NonZero(polls[i]);
        assert polls[1..][i - 1] == polls[i];
      }
      1 + FirstNonZero(polls[1..])
  }

  /** The wait at the top of recreateSwapchain: read the extent, and while
      it is zero in either dimension, read it again. */
  method WaitForExtent(polls: seq<Extent2D>) returns (extent: Extent2D, polled: nat)
    requires EventuallyNonZero(polls)
    ensures NonZero(extent)
    ensures extent == polls[FirstNonZero(polls)]
    ensures polled == FirstNonZero(polls) + 1
  {
    var i := 0;
    extent := polls[0];
    while extent.width == 0 || extent.height == 0
      invariant 0 <= i <= FirstNonZero(polls)
      invariant extent == polls[i]
      decreases FirstNonZero(polls) - i
    {
      i := i + 1;
      extent := polls[i];
    }
    polled := i + 1;
  }

  /** The command-buffer slot after n more completed frames. */
  function SlotAfter(start: nat, n: nat): (slot: nat)
    ensures n > 0 ==> slot < MAX_FRAMES_IN_FLIGHT
    ensures start < MAX_FRAMES_IN_FLIGHT ==> slot < MAX_FRAMES_IN_FLIGHT
  {
    if n == 0 then start else (SlotAfter(start, n - 1) + 1) % MAX_FRAMES_IN_FLIGHT
  }

  /** The counter is a plain modular sum: after n frames the slot is
      start + n modulo MAX_FRAMES_IN_FLIGHT. */
  lemma {:induction false} SlotAfterIsModular(start: nat, n: nat)
    requires start < MAX_FRAMES_IN_FLIGHT
    ensures SlotAfter(start, n) == (start + n) % MAX_FRAMES_IN_FLIGHT
  {
    if n > 0 {
      SlotAfterIsModular(start, n - 1);
    }
  }

  /** The slots cycle through every value in order: consecutive frames never
      reuse a slot, and a slot comes back after exactly
      MAX_FRAMES_IN_FLIGHT frames. */
  lemma SlotsCycle(start: nat, n: nat)
    requires start < MAX_FRAMES_IN_FLIGHT
    ensures SlotAfter(start, n) < MAX_FRAMES_IN_FLIGHT
    ensures SlotAfter(start, n + 1) != SlotAfter(start, n)
    ensures SlotAfter(start, n + MAX_FRAMES_IN_FLIGHT) == SlotAfter(start, n)
  {
    SlotAfterIsModular(start, n);
    SlotAfterIsModular(start, n + 1);
    SlotAfterIsModular(start, n + MAX_FRAMES_IN_FLIGHT);
  }

  /** The commands the render-pass helpers record. */
  datatype PassCommand =
    | BeginRenderPass(framebuffer: nat, renderArea: Extent2D, clearColor: seq<real>, clearDepth: real, clearStencil: nat)
    | SetViewport(x: real, y: real, width: real, height: real, minDepth: real, maxDepth: real)
    | SetScissor(offsetX: int, offsetY: int, extent: Extent2D)
    | EndRenderPass

  class Renderer {
    var swapChain: Option<SwapChain>
    var commandBuffers: seq<CommandBuffer>
    var currentImageIndex: nat
    var currentFrameIndex: int
    var isFrameStarted: bool
    /** How many times the swapchain has been (re)built. */
    ghost var rebuilds: nat

    ghost predicate Valid()
      reads this
    {
      && |commandBuffers| == MAX_FRAMES_IN_FLIGHT
      && 0 <= currentFrameIndex < MAX_FRAMES_IN_FLIGHT
      && swapChain.Some? && NonZero(swapChain.value.extent)
    }

    /** EngineRenderer(window, device): build the first swapchain, then
        allocate the per-slot command buffers; idle, at slot 0. */
    constructor(rebuild: Rebuild, buffers: seq<CommandBuffer>)
      requires EventuallyNonZero(rebuild.polls)
      requires |buffers| == MAX_FRAMES_IN_FLIGHT
      ensures Valid()
      ensures currentFrameIndex == 0 && !isFrameStarted
      ensures swapChain == Some(SwapChain(rebuild.polls[FirstNonZero(rebuild.polls)], rebuild.formats))
      ensures commandBuffers == buffers && rebuilds == 1
    {
      swapChain := None;
      commandBuffers := [];
      currentImageIndex := 0;
      currentFrameIndex := 0;
      isFrameStarted := false;
      rebuilds := 0;
      new;
      var built := RecreateSwapchain(rebuild);
      var made := CreateCommandBuffers(Success, buffers);
    }

    /** recreateSwapchain: wait for a drawable extent, build the new
        swapchain from the old one, and fail if the formats drifted. The new
        swapchain is in place whether or not the check fails. */
    method RecreateSwapchain(rebuild: Rebuild) returns (r: Outcome<RendererError>)
      requires EventuallyNonZero(rebuild.polls)
      modifies this
      ensures swapChain == Some(SwapChain(rebuild.polls[FirstNonZero(rebuild.polls)], rebuild.formats))
      ensures NonZero(swapChain.value.extent)
      ensures r.Fail? <==> old(swapChain).Some? && old(swapChain).value.formats != rebuild.formats
      ensures r.Fail? ==> r.error == FormatChanged
      ensures rebuilds == old(rebuilds) + 1
      ensures commandBuffers == old(commandBuffers) && currentImageIndex == old(currentImageIndex)
      ensures currentFrameIndex == old(currentFrameIndex) && isFrameStarted == old(isFrameStarted)
    {
      var extent, _ := WaitForExtent(rebuild.polls);
      var oldSwapChain := swapChain;
      swapChain := Some(SwapChain(extent, rebuild.formats));
      rebuilds := rebuilds + 1;
      if oldSwapChain.Some? && oldSwapChain.value.formats != rebuild.formats {
        return Fail(FormatChanged);
      }
      r := Pass;
    }

    /** createCommandBuffers: one primary buffer per frame slot; on an
        allocation failure the list keeps its size with null handles. */
    method CreateCommandBuffers(allocate: VkResult, buffers: seq<CommandBuffer>) returns (r: Outcome<RendererError>)
      requires allocate == Success ==> |buffers| == MAX_FRAMES_IN_FLIGHT
      modifies this
      ensures |commandBuffers| == MAX_FRAMES_IN_FLIGHT
      ensures r.Pass? <==> allocate == Success
      ensures r.Pass? ==> commandBuffers == buffers
      ensures r.Fail? ==> r.error == AllocateFailed
      ensures swapChain == old(swapChain) && rebuilds == old(rebuilds) && currentImageIndex == old(currentImageIndex)
      ensures currentFrameIndex == old(currentFrameIndex) && isFrameStarted == old(isFrameStarted)
    {
      if allocate != Success {
        commandBuffers := seq(MAX_FRAMES_IN_FLIGHT, _ => CommandBuffer(0));
        return Fail(AllocateFailed);
      }
      commandBuffers := buffers;
      r := Pass;
    }

    /** freeCommandBuffers: hand every buffer back and empty the list. */
    method FreeCommandBuffers() returns (freed: seq<CommandBuffer>)
      modifies this
      ensures freed == old(commandBuffers) && commandBuffers == []
      ensures swapChain == old(swapChain) && rebuilds == old(rebuilds) && currentImageIndex == old(currentImageIndex)
      ensures currentFrameIndex == old(currentFrameIndex) && isFrameStarted == old(isFrameStarted)
    {
      freed := commandBuffers;
      commandBuffers := [];
    }

    /** IsFrameInProgress: the state of the machine. */
    function IsFrameInProgress(): (inProgress: bool)
      reads this
      ensures inProgress <==> isFrameStarted
    {
      isFrameStarted
    }

    /** GetCurrentCommandBuffer: only while a frame is in progress, the
        buffer owned by the current slot. */
    function GetCurrentCommandBuffer(): (cb: CommandBuffer)
      requires Valid() && IsFrameInProgress()
      reads this
      ensures cb in commandBuffers
      ensures cb == commandBuffers[GetFrameIndex()]
    {
      commandBuffers[currentFrameIndex]
    }

    /** GetFrameIndex: only while a frame is in progress, the current slot,
        always a valid slot number. */
    function GetFrameIndex(): (i: int)
      requires Valid() && IsFrameInProgress()
      reads this
      ensures i == currentFrameIndex
      ensures 0 <= i < MAX_FRAMES_IN_FLIGHT
      ensures i < |commandBuffers|
    {
      currentFrameIndex
    }

    /** GetAspectRatio: width over height of the current swapchain, always
        positive since a swapchain is built only at a drawable size. */
    function GetAspectRatio(): (ratio: real)
      requires Valid()
      reads this
      ensures ratio > 0.0
      ensures ratio * (swapChain.value.extent.height as real) == swapChain.value.extent.width as real
    {
      (swapChain.value.extent.width as real) / (swapChain.value.extent.height as real)
    }

    /** BeginFrame: acquire the next image. A stale swapchain is rebuilt and
        no frame starts; an acquire failure is fatal; otherwise the frame
        starts on the current slot's buffer, whose recording must begin. */
    method BeginFrame(acquire: VkResult, imageIndex: nat, beginRecording: VkResult, rebuild: Rebuild)
      returns (r: Result<Option<CommandBuffer>, RendererError>)
      requires Valid() && !IsFrameInProgress()
      requires acquire == ErrorOutOfDate ==> EventuallyNonZero(rebuild.polls)
      modifies this
      ensures Valid()
      ensures commandBuffers == old(commandBuffers) && currentFrameIndex == old(currentFrameIndex)
      ensures currentImageIndex == imageIndex
      // a stale swapchain: rebuilt, and the frame does not start
      ensures acquire == ErrorOutOfDate ==>
        && !IsFrameInProgress()
        && swapChain == Some(SwapChain(rebuild.polls[FirstNonZero(rebuild.polls)], rebuild.formats))
        && rebuilds == old(rebuilds) + 1
        && (r == Ok(None) || r == Err(FormatChanged))
        && (r.Ok? <==> old(swapChain).value.formats == rebuild.formats)
      // any other failed acquire: fatal, nothing else changes
      ensures acquire == OtherResult ==>
        r == Err(AcquireFailed) && !IsFrameInProgress() && swapChain == old(swapChain) && rebuilds == old(rebuilds)
      // an image was acquired: the frame is in progress on this slot's buffer
      ensures (acquire == Success || acquire == Suboptimal) ==>
        && IsFrameInProgress()
        && swapChain == old(swapChain) && rebuilds == old(rebuilds)
        && (r.Ok? <==> beginRecording == Success)
        && (r.Ok? ==> r.value == Some(GetCurrentCommandBuffer()))
        && (r.Err? ==> r.error == RecordBeginFailed)
      // the only successful result that carries a buffer
      ensures r.Ok? && r.value.Some? <==> (acquire == Success || acquire == Suboptimal) && beginRecording == Success
    {
      currentImageIndex := imageIndex;
      if acquire == ErrorOutOfDate {
        var rebuilt := RecreateSwapchain(rebuild);
        if rebuilt.Fail? {
          return Err(rebuilt.error);
        }
        return Ok(None);
      }
      if acquire != Success && acquire != Suboptimal {
        return Err(AcquireFailed);
      }
      isFrameStarted := true;
      var commandBuffer := GetCurrentCommandBuffer();
      if beginRecording != Success {
        return Err(RecordBeginFailed);
      }
      r := Ok(Some(commandBuffer));
    }

    /** EndFrame: finish recording and submit. A stale or suboptimal
        swapchain or a resized window clears the resize flag and rebuilds
        the swapchain; any other present failure is fatal. Only a frame that
        gets through ends, moving to the next slot. Returns, with the
        outcome, the window's resize flag afterwards. */
    method EndFrame(endRecording: VkResult, present: VkResult, resized: bool, rebuild: Rebuild)
      returns (r: Outcome<RendererError>, resizedAfter: bool)
      requires Valid() && IsFrameInProgress()
      requires endRecording == Success && (present == ErrorOutOfDate || present == Suboptimal || resized) ==>
        EventuallyNonZero(rebuild.polls)
      modifies this
      ensures Valid()
      ensures commandBuffers == old(commandBuffers) && currentImageIndex == old(currentImageIndex)
      ensures var rebuilt := endRecording == Success && (present == ErrorOutOfDate || present == Suboptimal || resized);
        && (resizedAfter == (resized && !rebuilt))
        && (rebuilt ==> swapChain == Some(SwapChain(rebuild.polls[FirstNonZero(rebuild.polls)], rebuild.formats)))
        && (rebuilds == old(rebuilds) + if rebuilt then 1 else 0)
        && (!rebuilt ==> swapChain == old(swapChain))
        && (r.Pass? <==>
              endRecording == Success
              && (if rebuilt then old(swapChain).value.formats == rebuild.formats else present == Success))
      ensures endRecording != Success ==> r == Fail(RecordEndFailed)
      ensures r.Fail? && endRecording == Success ==>
        r.error == if present == ErrorOutOfDate || present == Suboptimal || resized then FormatChanged else PresentFailed
      ensures r.Pass? ==> !IsFrameInProgress() && currentFrameIndex == (old(currentFrameIndex) + 1) % MAX_FRAMES_IN_FLIGHT
      ensures r.Fail? ==> IsFrameInProgress() && currentFrameIndex == old(currentFrameIndex)
    {
      resizedAfter := resized;
      var commandBuffer := GetCurrentCommandBuffer();
      if endRecording != Success {
        return Fail(RecordEndFailed), resizedAfter;
      }
      if present == ErrorOutOfDate || present == Suboptimal || resized {
        resizedAfter := false;
        var rebuilt := RecreateSwapchain(rebuild);
        if rebuilt.Fail? {
          return rebuilt, resizedAfter;
        }
      } else if present != Success {
        return Fail(PresentFailed), resizedAfter;
      }
      isFrameStarted := false;
      currentFrameIndex := (currentFrameIndex + 1) % MAX_FRAMES_IN_FLIGHT;
      r := Pass;
    }

    /** BeginSwapChainRenderPass: only on the current frame's buffer while
        the frame is in progress; renders into the acquired image's
        framebuffer over the whole swapchain extent, clearing to dark grey
        and to the far depth plane, with a viewport and scissor that cover
        the extent exactly. */
    method BeginSwapChainRenderPass(commandBuffer: CommandBuffer) returns (cmds: seq<PassCommand>)
      requires Valid() && IsFrameInProgress()
      requires commandBuffer == GetCurrentCommandBuffer()
      ensures var extent := swapChain.value.extent;
        && |cmds| == 3
        && cmds[0].BeginRenderPass? && cmds[0].framebuffer == currentImageIndex && cmds[0].renderArea == extent
        && cmds[0].clearColor == [0.01, 0.01, 0.01, 1.0] && cmds[0].clearDepth == 1.0 && cmds[0].clearStencil == 0
        && cmds[1] == SetViewport(0.0, 0.0, extent.width as real, extent.height as real, 0.0, 1.0)
        && cmds[2] == SetScissor(0, 0, extent)
    {
      var extent := swapChain.value.extent;
      var clearColor := [0.01, 0.01, 0.01, 1.0];
      cmds := [BeginRenderPass(currentImageIndex, extent, clearColor, 1.0, 0)];
      cmds := cmds + [SetViewport(0.0, 0.0, extent.width as real, extent.height as real, 0.0, 1.0)];
      cmds := cmds + [SetScissor(0, 0, extent)];
    }

    /** EndSwapChainRenderPass: the same preconditions; closes the pass. */
    method EndSwapChainRenderPass(commandBuffer: CommandBuffer) returns (cmds: seq<PassCommand>)
      requires Valid() && IsFrameInProgress()
      requires commandBuffer == GetCurrentCommandBuffer()
      ensures cmds == [EndRenderPass]
    {
      cmds := [EndRenderPass];
    }
  }
}
