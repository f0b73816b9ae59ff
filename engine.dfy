/**
 * `VulkanEngine` (src/vk_engine.h, src/vk_engine.cpp) and the process-wide
 * `loadedEngine` pointer. SDL, vk-bootstrap and Vulkan are not modelled: what
 * they return is passed in, and what the engine asks of them is appended to
 * the engine's call trace `calls`.
 */
module Engine {
  import opened Platform
  import opened FrameRing
  import MainLoop
  import Teardown

  /** The title `init` gives the window. */
  const WindowTitle: string := "Vulkan Engine"

  /** `_windowExtent`'s default value. */
  const DefaultWindowExtent: Extent2D := Extent2D(1700, 900)

  /** The format `create_swapchain` asks for. */
  const SwapchainFormat: Format := B8G8R8A8Unorm

  /**
   * The calls `init` makes, in order, for a window of `extent`, given the
   * window SDL created: SDL and its window first, then the Vulkan device, the
   * swapchain at exactly the window's extent, and the command and
   * synchronisation stages.
   */
  function InitCalls(extent: Extent2D, window: Option<Window>): seq<Call> {
    [ SdlInitVideo,
      CreateWindow(WindowTitle, extent),
      InitVulkan(window),
      BuildSwapchain(extent.width, extent.height, SwapchainFormat),
      InitCommands,
      InitSyncStructures ]
  }

  /** The process-wide state: the `loadedEngine` pointer. */
  class Process {
    var loadedEngine: VulkanEngine?

    /** Static initialisation: `loadedEngine = nullptr`. */
    constructor ()
      ensures loadedEngine == null
    {
      loadedEngine := null;
    }

    /** `VulkanEngine::Get()`: dereferences the pointer, so an engine must be loaded. */
    function Get(): VulkanEngine
      reads this
      requires loadedEngine != null
    {
      loadedEngine
    }
  }

  class VulkanEngine {
    var isInitialized: bool
    var frameNumber: Int32
    var stopRendering: bool
    var windowExtent: Extent2D
    var window: Option<Window>

    /** `_instance` … `_device`; None until `init_vulkan` assigns them. */
    var vulkan: Option<DeviceSetup>

    /** `_swapchain`, `_swapchainImageFormat`, `_swapchainExtent`; None until `create_swapchain`. */
    var swapchain: Option<Swapchain>
    var swapchainImageFormat: Option<Format>
    var swapchainExtent: Option<Extent2D>
    var swapchainImages: seq<Image>
    var swapchainImageViews: seq<ImageView>

    /** `_frames`: always exactly FRAME_OVERLAP slots. */
    var frames: Frames

    /** The calls into SDL and Vulkan made so far, and the initialisation stages run. */
    var calls: seq<Call>

    /**
     * A fresh engine with the default member initialisers. The slot handles
     * have no initialiser in the source, so they are a parameter here.
     */
    constructor (initialFrames: Frames)
      ensures !isInitialized && frameNumber == 0 && !stopRendering
      ensures windowExtent == DefaultWindowExtent && window == None
      ensures vulkan == None && swapchain == None && swapchainImageFormat == None
      ensures swapchainExtent == None && swapchainImages == [] && swapchainImageViews == []
      ensures frames == initialFrames && calls == []
      ensures CurrentFrame() == frames[0]
    {
      isInitialized := false;
      frameNumber := 0;
      stopRendering := false;
      windowExtent := DefaultWindowExtent;
      window := None;
      vulkan := None;
      swapchain := None;
      swapchainImageFormat := None;
      swapchainExtent := None;
      swapchainImages := [];
      swapchainImageViews := [];
      frames := initialFrames;
      calls := [];
    }

    /** `get_current_frame()`: the slot the frame counter selects; reading it changes nothing. */
    function CurrentFrame(): (f: FrameData)
      reads this
      ensures f in frames
      ensures f == frames[frameNumber % FrameOverlap]
    {
      FrameRing.CurrentFrame(frames, frameNumber)
    }

    /**
     * `init()`. Only one engine may be loaded at a time (the source asserts
     * it); afterwards the global pointer designates this engine, every stage
     * has run in order, and the engine is marked initialised.
     */
    method Init(process: Process, createdWindow: Option<Window>, setup: DeviceSetup, built: BuiltSwapchain)
      requires process.loadedEngine == null
      modifies process`loadedEngine, this`window, this`vulkan, this`swapchain, this`swapchainImageFormat,
        this`swapchainExtent, this`swapchainImages, this`swapchainImageViews, this`calls, this`isInitialized
      ensures process.loadedEngine == this && process.Get() == this
      ensures isInitialized
      ensures window == createdWindow && vulkan == Some(setup)
      ensures calls == old(calls) + InitCalls(windowExtent, createdWindow)
      ensures swapchain == Some(built.swapchain) && swapchainImageFormat == Some(SwapchainFormat)
      ensures swapchainExtent == Some(built.extent)
      ensures swapchainImages == built.images && swapchainImageViews == built.views
    {
      process.loadedEngine := this;
      calls := calls + [SdlInitVideo];
      window := createdWindow;
      calls := calls + [CreateWindow(WindowTitle, windowExtent)];
      InitVulkanStage(setup);
      InitSwapchain(built);
      calls := calls + [InitCommands];
      calls := calls + [InitSyncStructures];
      isInitialized := true;
    }

    /** `init_vulkan()`: the device handles vk-bootstrap returns for this window's surface. */
    method InitVulkanStage(setup: DeviceSetup)
      modifies this`vulkan, this`calls
      ensures vulkan == Some(setup)
      ensures calls == old(calls) + [InitVulkan(window)]
    {
      calls := calls + [InitVulkan(window)];
      vulkan := Some(setup);
    }

    /** `init_swapchain()`: a swapchain requested at exactly the window's extent. */
    method InitSwapchain(built: BuiltSwapchain)
      modifies this`swapchain, this`swapchainImageFormat, this`swapchainExtent,
        this`swapchainImages, this`swapchainImageViews, this`calls
      ensures calls == old(calls) + [BuildSwapchain(windowExtent.width, windowExtent.height, SwapchainFormat)]
      ensures swapchain == Some(built.swapchain) && swapchainImageFormat == Some(SwapchainFormat)
      ensures swapchainExtent == Some(built.extent)
      ensures swapchainImages == built.images && swapchainImageViews == built.views
    {
      CreateSwapchain(windowExtent.width, windowExtent.height, built);
    }

    /**
     * `create_swapchain(width, height)`: the format is fixed to
     * B8G8R8A8_UNORM before the request; the extent, images and views are the
     * ones the platform built, which need not match the request.
     */
    method CreateSwapchain(width: U32, height: U32, built: BuiltSwapchain)
      modifies this`swapchain, this`swapchainImageFormat, this`swapchainExtent,
        this`swapchainImages, this`swapchainImageViews, this`calls
      ensures calls == old(calls) + [BuildSwapchain(width, height, SwapchainFormat)]
      ensures swapchain == Some(built.swapchain) && swapchainImageFormat == Some(SwapchainFormat)
      ensures swapchainExtent == Some(built.extent)
      ensures swapchainImages == built.images && swapchainImageViews == built.views
    {
      swapchainImageFormat := Some(SwapchainFormat);
      calls := calls + [BuildSwapchain(width, height, swapchainImageFormat.value)];
      swapchainExtent := Some(built.extent);
      swapchain := Some(built.swapchain);
      swapchainImages := built.images;
      swapchainImageViews := built.views;
    }

    /**
     * `cleanup()`: the window is destroyed exactly when the engine was
     * initialised, the flag itself is left as it was, and the global pointer
     * is cleared in every case.
     */
    method Cleanup(process: Process)
      modifies process`loadedEngine, this`calls
      ensures process.loadedEngine == null
      ensures isInitialized == old(isInitialized)
      ensures calls == old(calls) + (if isInitialized then [DestroyWindow(window)] else [])
    {
      if isInitialized {
        calls := calls + [DestroyWindow(window)];
      }
      process.loadedEngine := null;
    }

    /**
     * The inner loop of `run()`: drains one poll batch. `stop_rendering`
     * follows the minimise and restore events in order; the result says
     * whether the batch held a quit event.
     */
    method PollEvents(batch: seq<MainLoop.Event>) returns (quit: bool)
      modifies this`stopRendering
      ensures stopRendering == MainLoop.StopAfter(old(stopRendering), batch)
      ensures quit == (MainLoop.Quit in batch)
    {
      quit := false;
      var j := 0;
      while j < |batch|
        invariant 0 <= j <= |batch|
        invariant stopRendering == MainLoop.StopAfter(old(stopRendering), batch[..j])
        invariant quit == (MainLoop.Quit in batch[..j])
      {
        var e := batch[j];
        assert batch[..j + 1][..j] == batch[..j];
        assert batch[..j + 1] == batch[..j] + [e];
        if e == MainLoop.Quit {
          quit := true;
        }
        if e.WindowEvent? {
          if e.kind == MainLoop.Minimized {
            stopRendering := true;
          }
          if e.kind == MainLoop.Restored {
            stopRendering := false;
          }
        }
        j := j + 1;
      }
      assert batch[..j] == batch;
    }

    /**
     * `run()` on the poll batches `batches`, one per iteration: the result
     * says, per iteration, whether `draw` was called. The run and the final
     * value of `stop_rendering` are those of `MainLoop.RunFrom`.
     */
    method Run(batches: seq<seq<MainLoop.Event>>) returns (draws: seq<bool>)
      modifies this`stopRendering
      ensures MainLoop.Outcome(draws, stopRendering) == MainLoop.RunFrom(old(stopRendering), batches)
    {
      ghost var whole := MainLoop.RunFrom(stopRendering, batches);
      var quit := false;
      var i := 0;
      draws := [];
      while !quit && i < |batches|
        invariant 0 <= i <= |batches|
        invariant quit ==> MainLoop.Outcome(draws, stopRendering) == whole
        invariant !quit ==> MainLoop.Prepend(draws, MainLoop.RunFrom(stopRendering, batches[i..])) == whole
        decreases |batches| - i
      {
        MainLoop.RunFromStep(stopRendering, batches[i..]);
        assert batches[i..][1..] == batches[i + 1..];
        quit := PollEvents(batches[i]);
        MainLoop.PrependAppend(draws, !stopRendering, MainLoop.RunFrom(stopRendering, batches[i + 1..]));
        i := i + 1;
        if stopRendering {
          // the source sleeps 100 ms and goes back to the loop test
          draws := draws + [false];
          continue;
        }
        draws := draws + [true];
      }
      assert !quit ==> batches[i..] == [];
    }

    /**
     * `destroy_swapchain()`: the swapchain handle, then every image view in
     * vector order. Neither vector changes and no image is destroyed.
     */
    method DestroySwapchain()
      requires swapchain.Some?
      modifies this`calls
      ensures calls == old(calls) + Teardown.TeardownCalls(swapchain.value, swapchainImageViews)
    {
      calls := calls + [DestroySwapchainKHR(swapchain.value)];
      var views := swapchainImageViews;
      for i := 0 to |views|
        invariant calls == old(calls) + [DestroySwapchainKHR(swapchain.value)] + Teardown.ViewDestroys(views[..i])
      {
        Teardown.ViewDestroysSnoc(views[..i], views[i]);
        assert views[..i + 1] == views[..i] + [views[i]];
        calls := calls + [DestroyImageView(views[i])];
      }
      assert views[..|views|] == views;
    }
  }

  /**
   * A client of the lifecycle: `cleanup` releases the global slot whether or
   * not the engine finished initialising, so a second engine (or the same one)
   * may be initialised afterwards in the same process.
   */
  method InitCleanupInit(process: Process, first: VulkanEngine, second: VulkanEngine,
                         w: Option<Window>, setup: DeviceSetup, built: BuiltSwapchain)
    requires process.loadedEngine == null
    modifies process, first, second
    ensures process.loadedEngine == second && second.isInitialized
    ensures first.isInitialized
    ensures first != second ==> first.calls == old(first.calls) + InitCalls(first.windowExtent, w) + [DestroyWindow(w)]
  {
    first.Init(process, w, setup, built);
    first.Cleanup(process);
    second.Init(process, w, setup, built);
  }
}
