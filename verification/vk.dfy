/**
  Values the graphics layer exchanges with the Vulkan loader and GLFW:
  fixed-width integers, nullable handles, the result codes it raises, the
  extension and layer names it asks for, and the property records the driver
  enumerates. Every driver or GLFW call is an input of the model, never
  behaviour: a creation call is represented by the `CreateReply` it hands back.
*/
module Vk {

  /** C `uint32_t`. */
  type U32 = x: int | 0 <= x < 0x1_0000_0000

  /** C `int` (32-bit two's complement on every platform GLFW supports). */
  type I32 = x: int | -0x8000_0000 <= x < 0x8000_0000

  /** `std::numeric_limits<uint32_t>::max()`, the "size is up to the application"
      sentinel of `VkSurfaceCapabilitiesKHR::currentExtent` (Vulkan 1.0,
      Window System Integration chapter, Surface Queries section). */
  const UINT32_MAX: U32 := 0xFFFF_FFFF

  datatype Option<T> = None | Some(value: T)

  /** A Vulkan object handle; `Null` is `nullptr` / `VK_NULL_HANDLE`. */
  datatype Handle = Null | Live(id: nat)

  /** `VkResult`, a 32-bit enumeration; only the codes this layer produces
      itself are named. */
  type VkResult = I32

  const VK_SUCCESS: VkResult := 0
  const VK_ERROR_LAYER_NOT_PRESENT: VkResult := -6
  const VK_ERROR_EXTENSION_NOT_PRESENT: VkResult := -7
  const VK_ERROR_INCOMPATIBLE_DRIVER: VkResult := -9

  /** `VkBool32`. */
  type VkBool32 = U32

  const VK_FALSE: VkBool32 := 0
  const VK_TRUE: VkBool32 := 1

  /** `VK_KHR_SWAPCHAIN_EXTENSION_NAME`. */
  const SwapchainExtensionName: CName := "VK_KHR_swapchain"

  /** `VK_EXT_DEBUG_UTILS_EXTENSION_NAME`. */
  const DebugUtilsExtensionName: CName := "VK_EXT_debug_utils"

  /** What a `vkCreate*` call (or its proxy) hands back: its result code and
      the value it wrote through the handle out-parameter. */
  datatype CreateReply = CreateReply(result: VkResult, handle: Handle)

  /** What `VK_CHECK` captures about a failed call: the result and the call
      site (`__FILE__`, `__func__`, `__LINE__`). */
  datatype VulkanError = VulkanError(result: VkResult, file: string, func: string, line: int)

  /** Whether a checked call lets execution continue or throws
      `std::runtime_error`. */
  datatype Outcome = Pass | Throw(error: VulkanError)

  /** An object's state after an `init` together with whether `init` threw. */
  datatype Step<S> = Step(state: S, outcome: Outcome)

  /** The effect of one `cleanup` call: the object's new state and the Vulkan
      object destroyed, if any. */
  datatype CleanupStep<S> = CleanupStep(state: S, destroyed: Option<Handle>)

  /** The text of a NUL-terminated C string, without its terminator. It
      cannot contain `'\0'`, so two such names are `strcmp`-equal exactly when
      they are equal as strings. */
  type CName = s: string | '\0' !in s

  /** `VkExtensionProperties`. */
  datatype ExtensionProperties = ExtensionProperties(extensionName: CName, specVersion: U32)

  /** `VkLayerProperties`. */
  datatype LayerProperties = LayerProperties(
    layerName: CName,
    specVersion: U32,
    implementationVersion: U32,
    description: string)

  /** The `extensionName` column of an enumeration result, in order. */
  function ExtensionNames(props: seq<ExtensionProperties>): (names: seq<CName>)
    ensures |names| == |props|
    ensures forall i :: 0 <= i < |props| ==> names[i] == props[i].extensionName
  {
    seq(|props|, i requires 0 <= i < |props| => props[i].extensionName)
  }

  /** The `layerName` column of an enumeration result, in order. */
  function LayerNames(props: seq<LayerProperties>): (names: seq<CName>)
    ensures |names| == |props|
    ensures forall i :: 0 <= i < |props| ==> names[i] == props[i].layerName
  {
    seq(|props|, i requires 0 <= i < |props| => props[i].layerName)
  }
}
