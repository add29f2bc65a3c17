/** The part of the graphics API the engine's decision logic depends on:
    result codes, 32-bit unsigned arithmetic, extents and opaque handles. */
module Vk {

  /** The VkResult values the engine tells apart. Every other code (a device
      loss, a timeout, ...) is folded into OtherResult: the engine treats all
      of them alike. */
  datatype VkResult = Success | Suboptimal | ErrorOutOfDate | OtherResult

  /** 2^32: the modulus of uint32_t arithmetic. */
  const U32: nat := 0x1_0000_0000

  /** static_cast<uint32_t> of a size_t count. */
  function ToU32(n: nat): (r: nat)
    ensures r < U32
    ensures n < U32 ==> r == n
  {
    n % U32
  }

  /** VkExtent2D: width and height are uint32_t. */
  datatype Extent2D = Extent2D(width: nat, height: nat)

  predicate NonZero(e: Extent2D)
  {
    e.width != 0 && e.height != 0
  }

  /** An opaque VkCommandBuffer handle. */
  datatype CommandBuffer = CommandBuffer(handle: nat)
}
