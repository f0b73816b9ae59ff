# A verified model of the vulkanEngine lifecycle core

This project models the parts of `VulkanEngine` (src/vk_engine.h, src/vk_engine.cpp)
that have behaviour of their own once SDL, vk-bootstrap and Vulkan are taken
away:

- the **frame-slot ring**: `FRAME_OVERLAP = 2` slots of `FrameData`, the current
  one chosen by `_frameNumber % FRAME_OVERLAP` in C++'s unsigned arithmetic
  (module `FrameRing`);
- the **engine lifecycle**: the process-wide `loadedEngine` pointer, `init`
  (which asserts that no engine is loaded, claims the pointer, runs its stages in
  order and only then sets `_isInitialized`) and `cleanup` (which destroys the
  window only if the engine was initialised and always clears the pointer)
  (module `Engine`, classes `Process` and `VulkanEngine`);
- the **render gate of the main loop**: quit, minimise and restore events, drained
  one poll batch per iteration, and whether the iteration calls `draw`
  (module `MainLoop` for the specification, `Engine.VulkanEngine.Run` for the
  nested loops);
- **swapchain teardown**: `destroy_swapchain` destroys the swapchain handle, then
  each image view once, in vector order, and never an image
  (module `Teardown` for the specification, `Engine.VulkanEngine.DestroySwapchain`
  for the loop);
- the extent and format bookkeeping of `init_swapchain` / `create_swapchain`.

Handles are opaque identities, one datatype per Vulkan or SDL handle kind
(module `Platform`). What the libraries return (the SDL window, the device
handles vk-bootstrap selects, the swapchain with its extent, images and views)
is passed to the methods as parameters. What the engine asks of them is
appended to a call trace, the field `calls`; the trace also records the
engine's own initialisation stages, so that their order can be stated.
Handles the source leaves uninitialised until `init` (the device handles, the
swapchain handle, its format and extent) are `None` until assigned. The slot
handles in `_frames` have no initialiser in the source and are a constructor
parameter.

## Model

| member | source | states |
|---|---|---|
| FrameRing.ToUnsigned | src/vk_engine.h:69 | the signed-to-unsigned conversion of the frame counter keeps its value modulo 2^32 and leaves non-negative counters alone |
| FrameRing.SlotIndex | src/vk_engine.h:69 | the unsigned index `_frameNumber % FRAME_OVERLAP` is always below FRAME_OVERLAP and equals the Euclidean remainder, for negative counters too |
| FrameRing.CurrentFrame | src/vk_engine.h:68-69 | the selected entry is one of the fixed FRAME_OVERLAP slots, the one at index counter mod FRAME_OVERLAP |
| FrameRing.SlotPeriodic | src/vk_engine.h:69 | frame numbers FRAME_OVERLAP apart select the same slot |
| FrameRing.SlotsAlternate | src/vk_engine.h:69 | consecutive frame numbers select different slots, 0 and 1 in turn |
| FrameRing.SlotAdvance | src/vk_engine.h:69 | k frames on, the slot is k positions further round the ring |
| FrameRing.InitialSlot | src/vk_engine.h:29 | the initial counter 0 selects slot 0 |
| Engine.VulkanEngine.constructor | src/vk_engine.h:28-33 | a fresh engine is not initialised, has frame number 0, renders, has a 1700x900 window extent and no window, and its current slot is slot 0 |
| Engine.VulkanEngine.CurrentFrame | src/vk_engine.h:69 | `get_current_frame` reads the engine only and returns the slot at counter mod FRAME_OVERLAP |
| Engine.Process.Get | src/vk_engine.cpp:18 | `VulkanEngine::Get` returns the loaded engine and may only be called while one is loaded, since it dereferences the pointer |
| Engine.Process.constructor | src/vk_engine.cpp:16 | no engine is loaded at start |
| Engine.VulkanEngine.Init | src/vk_engine.cpp:19-47 | requires no loaded engine; afterwards the global pointer designates this engine, the calls are SDL init, window creation at the window extent, Vulkan setup, a swapchain request at exactly the window extent in B8G8R8A8_UNORM, the command stage and the sync stage, in that order, and the engine is initialised |
| Engine.VulkanEngine.InitVulkanStage | src/vk_engine.cpp:106-153 | the device handles are those the platform selected for this engine's window |
| Engine.VulkanEngine.InitSwapchain | src/vk_engine.cpp:154-157 | the swapchain is requested at exactly `_windowExtent` |
| Engine.VulkanEngine.CreateSwapchain | src/vk_engine.cpp:172-193 | the image format becomes B8G8R8A8_UNORM and is the requested one; extent, handle, images and views are those the platform built |
| Engine.VulkanEngine.Cleanup | src/vk_engine.cpp:49-58 | the window is destroyed exactly when the engine is initialised, the flag is unchanged, and the global pointer is cleared either way |
| Engine.InitCleanupInit | src/vk_engine.cpp:19-58 | after init and cleanup a later init meets the at-most-one-loaded assertion again; cleanup leaves the first engine marked initialised |
| Engine.VulkanEngine.PollEvents | src/vk_engine.cpp:73-86 | draining a batch leaves `stop_rendering` as the events dictate in order, and reports a quit exactly when the batch holds one |
| Engine.VulkanEngine.Run | src/vk_engine.cpp:65-97 | the nested poll and main loops produce exactly the iterations, draw decisions and final gate of `MainLoop.RunFrom` |
| MainLoop.StopAfterConcat | src/vk_engine.cpp:73-86 | handling two runs of events one after the other is handling their concatenation |
| MainLoop.NoGateKeepsStop | src/vk_engine.cpp:78-85 | a batch with no minimise or restore event leaves `stop_rendering` unchanged |
| MainLoop.LastGateDecides | src/vk_engine.cpp:78-85 | after a batch, `stop_rendering` is true exactly when its last minimise-or-restore event is a minimise |
| MainLoop.RunLength | src/vk_engine.cpp:71-76 | the loop makes one iteration per batch up to and including the first batch with a quit event, and no further |
| MainLoop.DrawGate | src/vk_engine.cpp:88-95 | iteration k calls `draw` exactly when rendering is not stopped after all events polled through the end of its batch |
| MainLoop.FinalGate | src/vk_engine.cpp:71-86 | the run ends with the gate that every polled event leaves, including events after a quit in the last batch |
| MainLoop.QuitThenMinimize | src/vk_engine.cpp:71-93 | in a batch holding a quit, a minimise after it that is the batch's last minimise-or-restore event is still handled: whatever batches follow, the run ends after that one iteration, which does not draw, with rendering stopped |
| Engine.VulkanEngine.DestroySwapchain | src/vk_engine.cpp:195-203 | the calls issued are exactly `Teardown.TeardownCalls` of the swapchain handle and the view vector; neither vector changes |
| Teardown.ViewDestroysSnoc | src/vk_engine.cpp:200-202 | one more loop iteration appends the destroy of the next view |
| Teardown.ViewDestroysAt | src/vk_engine.cpp:200-202 | one destroy per view, the k-th destroying the k-th view |
| Teardown.TeardownOrder | src/vk_engine.cpp:195-203 | the swapchain handle is destroyed first and view k is destroyed by call k+1 |
| Teardown.ViewsDestroyedOnce | src/vk_engine.cpp:200-202 | every view is destroyed exactly as often as it appears in the vector |
| Teardown.TeardownDestroysNoImage | src/vk_engine.cpp:195-203 | the swapchain handle is destroyed exactly once, every call destroys the swapchain or one of its views, and no image is ever destroyed |

## Left out

- SDL itself (`SDL_Init`, `SDL_CreateWindow`, `SDL_PollEvent`, `SDL_DestroyWindow`, `SDL_Vulkan_CreateSurface`): windowing I/O; the window is an opaque handle passed in and polled events are an input sequence.
- vk-bootstrap's builders, their failure paths and the `.value()` unwrapping in `init_vulkan` and `create_swapchain`: only their results (handles, extent, images, views) are modelled, as parameters, and a failing builder (which aborts the program) is not.
- The Vulkan 1.2/1.3 feature flags, the validation-layer switch, the API version, the colour space, the FIFO present mode and the extra transfer-destination usage: configuration passed to libraries, with no behaviour here.
- The 100 ms `sleep_for` throttle in `run`: timing only; a stopped iteration is recorded as not drawing.
- `draw`, `init_commands` and `init_sync_structures` have empty bodies; the model records the two init stages in the call trace and records per iteration whether `draw` was called, and nothing else.
- Engine.VulkanEngine.Run: the source loops until a quit event arrives; the model also stops when the given batches run out, so a run that never quits is modelled only up to its last batch.
- Engine.VulkanEngine.DestroySwapchain: requires that a swapchain was created, because the source would otherwise use an uninitialised handle; nothing in src/vk_engine.cpp calls it.
- The device handle passed to `vkDestroySwapchainKHR` and `vkDestroyImageView`, and the allocator argument: not recorded in the call trace.
- `get_current_frame` returns `FrameData&`, a mutable reference into `_frames`; `CurrentFrame` returns the slot's value, so writes through that reference are not modelled (nothing in src/vk_engine.cpp writes through it).
- `_graphicsQueue` and `_graphicsQueueFamily`: declared but never assigned in src/vk_engine.cpp, so not modelled.
- The physical device, device and surface handed to the swapchain builder: not recorded in the `BuildSwapchain` call, which records only the requested extent and format.
- The window position (`SDL_WINDOWPOS_UNDEFINED`) and the `SDL_WINDOW_VULKAN` flag passed to `SDL_CreateWindow`: not recorded in the `CreateWindow` call, which records only the title and extent.
- `_frameNumber` is never incremented in src/vk_engine.cpp; the slot arithmetic is stated for an arbitrary 32-bit counter, and an overflowing increment (undefined in C++) is excluded by the lemmas' preconditions.
