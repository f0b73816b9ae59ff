/**
 * The per-frame slot ring of `VulkanEngine` (src/vk_engine.h): a fixed set of
 * FRAME_OVERLAP slots, addressed by the frame counter modulo FRAME_OVERLAP.
 */
module FrameRing {
  import opened Platform

  /** `FRAME_OVERLAP`, an `unsigned int` constant. */
  const FrameOverlap: nat := 2

  /** C++ `int`: the type of `_frameNumber`. */
  type Int32 = x: int | -0x8000_0000 <= x < 0x8000_0000

  const TwoTo32: nat := 0x1_0000_0000

  /** The handles one frame slot owns (`FrameData`). */
  datatype FrameData = FrameData(
    commandPool: CommandPool,
    mainCommandBuffer: CommandBuffer,
    swapchainSemaphore: Semaphore,
    renderSemaphore: Semaphore,
    renderFence: Fence)

  /** `FrameData _frames[FRAME_OVERLAP]`: exactly FRAME_OVERLAP slots, never more or fewer. */
  type Frames = s: seq<FrameData> | |s| == FrameOverlap
    witness [NullFrame(), NullFrame()]

  function NullFrame(): FrameData {
    FrameData(CommandPool(0), CommandBuffer(0), Semaphore(0), Semaphore(0), Fence(0))
  }

  /**
   * The usual arithmetic conversion of a signed `int` to `unsigned int`, which
   * C++ applies to `_frameNumber` when it meets the unsigned FRAME_OVERLAP.
   */
  function ToUnsigned(n: Int32): (u: U32)
    ensures (u - n) % TwoTo32 == 0
    ensures n >= 0 ==> u == n
  {
    if n < 0 then n + TwoTo32 else n
  }

  /**
   * The slot `get_current_frame` selects: `_frameNumber % FRAME_OVERLAP`
   * evaluated in unsigned arithmetic. It is always a valid slot, and it agrees
   * with the mathematical (Euclidean) remainder even for a negative counter.
   */
  function SlotIndex(frameNumber: Int32): (i: nat)
    ensures i < FrameOverlap
    ensures i == frameNumber % FrameOverlap
  {
    ToUnsigned(frameNumber) % FrameOverlap
  }

  /** `get_current_frame()`, on the slot array and the counter it reads. */
  function CurrentFrame(frames: Frames, frameNumber: Int32): (f: FrameData)
    ensures f in frames
    ensures f == frames[frameNumber % FrameOverlap]
  {
    frames[SlotIndex(frameNumber)]
  }

  /** Frame numbers FRAME_OVERLAP apart share a slot. */
  lemma SlotPeriodic(n: Int32, m: Int32)
    requires m == n + FrameOverlap
    ensures SlotIndex(m) == SlotIndex(n)
  {
  }

  /** Consecutive frame numbers alternate between slot 0 and slot 1. */
  lemma SlotsAlternate(n: Int32, m: Int32)
    requires m == n + 1
    ensures SlotIndex(m) != SlotIndex(n)
    ensures SlotIndex(m) == 1 - SlotIndex(n)
  {
  }

  /**
   * Over any run of consecutive frame numbers the slots go round the ring in
   * order: `k` frames after `n` the slot is `k` positions further on.
   */
  lemma SlotAdvance(n: Int32, k: nat)
    requires n + k < 0x8000_0000
    ensures SlotIndex(n + k) == (SlotIndex(n) + k) % FrameOverlap
  {
  }

  /** The initial counter 0 selects slot 0. */
  lemma InitialSlot()
    ensures SlotIndex(0) == 0
  {
  }
}
