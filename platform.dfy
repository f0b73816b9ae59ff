/**
 * Opaque handles and the vocabulary of calls the engine makes into SDL,
 * vk-bootstrap and Vulkan. None of those libraries is modelled: a handle is
 * only an identity, and a call is only a record in the engine's call trace.
 */
module Platform {

  /** `uint32_t`, the width of Vulkan's extent fields. */
  type U32 = x: int | 0 <= x < 0x1_0000_0000

  /** `VkExtent2D`. */
  datatype Extent2D = Extent2D(width: U32, height: U32)

  /** The subset of `VkFormat` the engine names. */
  datatype Format = B8G8R8A8Unorm | OtherFormat(code: nat)

  // Opaque handles, one type per kind so that one kind cannot stand for another.
  datatype Window = Window(id: nat)                  // SDL_Window*
  datatype Instance = Instance(id: nat)              // VkInstance
  datatype DebugMessenger = DebugMessenger(id: nat)  // VkDebugUtilsMessengerEXT
  datatype Surface = Surface(id: nat)                // VkSurfaceKHR
  datatype PhysicalDevice = PhysicalDevice(id: nat)  // VkPhysicalDevice
  datatype Device = Device(id: nat)                  // VkDevice
  datatype Swapchain = Swapchain(id: nat)            // VkSwapchainKHR
  datatype Image = Image(id: nat)                    // VkImage
  datatype ImageView = ImageView(id: nat)            // VkImageView
  datatype CommandPool = CommandPool(id: nat)        // VkCommandPool
  datatype CommandBuffer = CommandBuffer(id: nat)    // VkCommandBuffer
  datatype Semaphore = Semaphore(id: nat)            // VkSemaphore
  datatype Fence = Fence(id: nat)                    // VkFence

  /** What vk-bootstrap (and SDL_Vulkan_CreateSurface) hand back from `init_vulkan`. */
  datatype DeviceSetup = DeviceSetup(
    instance: Instance,
    debugMessenger: DebugMessenger,
    surface: Surface,
    physicalDevice: PhysicalDevice,
    device: Device)

  /** What the swapchain builder hands back: the platform decides the extent and the images. */
  datatype BuiltSwapchain = BuiltSwapchain(
    swapchain: Swapchain,
    extent: Extent2D,
    images: seq<Image>,
    views: seq<ImageView>)

  /**
   * One entry of the engine's call trace: a call into SDL or Vulkan, or one of
   * the engine's own initialisation stages. `DestroyImage` is part of the
   * vocabulary (Vulkan offers `vkDestroyImage`) so that the model can state that
   * the engine never issues it for swapchain images.
   */
  datatype Call =
    | SdlInitVideo
    | CreateWindow(title: string, extent: Extent2D)
    | InitVulkan(window: Option<Window>)
    | BuildSwapchain(width: U32, height: U32, format: Format)
    | InitCommands
    | InitSyncStructures
    | DestroyWindow(window: Option<Window>)
    | DestroySwapchainKHR(swapchain: Swapchain)
    | DestroyImageView(view: ImageView)
    | DestroyImage(image: Image)

  datatype Option<T> = None | Some(value: T)
}
