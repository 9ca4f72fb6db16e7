# Vulkan bring-up decisions of the Apparatus Engine graphics layer

The graphics layer wraps a few pure decisions in Vulkan and GLFW calls. This
project models those decisions in Dafny and proves properties about them:

- **Device selection** (`LogicalDevice`). The required device extension is the
  swapchain extension. A device is suitable when it has that extension and at
  least one surface format and one present mode. `findSuitablePhysicalDevice`
  returns the first suitable device in enumeration order, or null.
- **Instance requirements** (`VulkanInstance`). It asks for GLFW's
  extensions, the debug-utils extension and the Khronos validation layer. The
  same strcmp-based subset check (`Names`) is used for extensions and for
  layers. `init` checks layers first, then extensions, and only then creates
  the instance.
- **Swapchain parameters** (`Swapchain`). The minimum image count starts at 2.
  It is raised to the surface minimum, or lowered to a nonzero maximum. The
  extent is the surface's `currentExtent`. When that width is the
  `0xFFFFFFFF` sentinel, the framebuffer size is used instead, with each
  dimension clamped into the allowed range on its own. The sentinels are those
  of `VkSurfaceCapabilitiesKHR` in the Surface Queries section of the Window
  System Integration chapter of the Vulkan 1.0 specification.
- **Diagnostics** (`DebugMessenger`). `VK_CHECK`/`logError` throws exactly on a
  non-success `VkResult`. Its message is built with `std::to_string`, which is
  modelled in `Decimal`. The module also covers the severity and type string
  tables, the messenger's filter masks, the callback's `VK_FALSE`, and the
  create proxy.
- **Handle life cycles**. Every `cleanup` releases only when its handles are
  non-null and then nulls them, so a second call does nothing.

Every driver or GLFW call becomes an input:

- an enumeration is a sequence of property records;
- a `vkCreate*` call is a `CreateReply` (its result code and the handle it
  wrote);
- `vkGetInstanceProcAddr` is an `Option`;
- `glfwGetFramebufferSize` is a `FramebufferSize` of two `int`s.

The model covers only what the code does:

- The code has no queue-family check.
- It has no deduplicated queue requests.
- It has no logical-device creation.
- It has no format preference.

`LogicalDevice.cpp:41` calls the suitability predicate without the `Surface`
that `LogicalDevice.cpp:58` takes. The evident intent is one surface, so each
device record carries that surface's formats and present modes.

## Model

| member | source | states |
|---|---|---|
| Names.Contains | Graphics/LogicalDevice.cpp:95-99 | the inner scan finds a name exactly when some supported entry is equal to it character for character |
| Names.ContainsAll | Graphics/LogicalDevice.cpp:93-104 | true exactly when every requested name occurs among the supported names; an empty request is supported |
| Names.ContainsAllIsInclusion | Graphics/VulkanInstance.cpp:93-104 | the check is inclusion of the set of requested names in the set of supported names |
| Names.ContainsAllIgnoresOrderAndDuplicates | Graphics/VulkanInstance.cpp:124-135 | reordering or repeating names in either list never changes the answer |
| Names.ContainsAllAppend | Graphics/VulkanInstance.cpp:93-104 | a concatenated request is supported exactly when both parts are |
| Decimal.IntToStringRoundTrip | Graphics/DebugMessenger.cpp:8 | the decimal text of a result code or line parses back to the same integer |
| Decimal.ParseIntRoundTrip | Graphics/DebugMessenger.cpp:8 | every canonical decimal text is the rendering of its value, so the rendering is a bijection onto canonical texts |
| Decimal.IntToString | Graphics/DebugMessenger.cpp:8 | `std::to_string`: a leading '-' exactly for negatives, followed by digits without a leading zero |
| DebugMessenger.Message | Graphics/DebugMessenger.cpp:8 | the exception text is "VULKAN ERROR: ", the result code in decimal, ", file: " and the file, ", func: " and the function, ", line: " and the line number in decimal |
| DebugMessenger.LogError | Graphics/DebugMessenger.cpp:5-10 | throws exactly when the result is not `VK_SUCCESS`, and the error carries the result, file, function and line |
| DebugMessenger.MessageNamesResult | Graphics/DebugMessenger.cpp:8 | the failing result code can always be read back out of the exception text |
| DebugMessenger.MessageSeverityToString | Graphics/DebugMessenger.cpp:86-104 | verbose, info, warning and error print as "verbose", "info", "WARNING" and "ERROR", each name only for its own bit; every other value prints "UNKNOWN SEVERITY" |
| DebugMessenger.MessageTypeToString | Graphics/DebugMessenger.cpp:106-121 | the general, validation and performance bits print as "general", "validation" and "performance"; every other value prints "UNKNOWN TYPE" |
| DebugMessenger.NamesIdentifyFlags | Graphics/DebugMessenger.cpp:86-121 | two values print the same text exactly when they are equal or both unknown |
| DebugMessenger.CombinedTypeIsUnknown | Graphics/DebugMessenger.cpp:106-121 | a message type with more than one bit set prints "UNKNOWN TYPE" |
| DebugMessenger.GetCreateInfo | Graphics/DebugMessenger.cpp:74-80 | the messenger receives warnings and errors but not verbose or info messages, and all three message types; no other bit is set |
| DebugMessenger.DebugCallback | Graphics/DebugMessenger.cpp:123-133 | the callback returns `VK_FALSE` for every message, so it never aborts the triggering call |
| DebugMessenger.GetInstanceProcAddr | Graphics/DebugMessenger.cpp:18 | a null instance resolves no instance-level entry point; a live one resolves what the loader offers |
| DebugMessenger.CreateDebugUtilsMessenger | Graphics/DebugMessenger.cpp:12-24 | a null lookup, which includes every null instance, gives `VK_ERROR_EXTENSION_NOT_PRESENT` and leaves the handle alone; otherwise the resolved function's result and handle are passed through |
| DebugMessenger.Init | Graphics/DebugMessenger.cpp:47-53 | records the instance; an uninitialised (null) instance or a missing entry point throws the extension-not-present error from line 52, otherwise it keeps the handle the create call wrote and throws exactly when creation fails, with the driver's result, this file, "init" and line 52 |
| DebugMessenger.InitThenCleanup | Graphics/DebugMessenger.cpp:47-67 | after init under a live instance, cleanup returns to the constructed state and destroys exactly the messenger the driver created (or nothing, leaking it, when the destroy entry point is missing) |
| DebugMessenger.NullInstanceInitLeavesNothing | Graphics/DebugMessenger.h:40 | init on a fresh object with an uninitialised instance throws, and the following cleanup destroys nothing |
| DebugMessenger.Cleanup | Graphics/DebugMessenger.cpp:60-67 | destroys the messenger only when both handles are non-null and the destroy entry point resolves; nulls both handles whenever both were non-null, and otherwise changes nothing |
| DebugMessenger.CleanupIdempotent | Graphics/DebugMessenger.cpp:60-67 | a second cleanup destroys nothing and leaves the state as it was |
| VulkanInstance.GetValidationLayers | Graphics/VulkanInstance.cpp:107-110 | exactly `["VK_LAYER_KHRONOS_validation"]` |
| VulkanInstance.GetRequiredExtensions | Graphics/VulkanInstance.cpp:68-78 | GLFW's list unchanged as a prefix, followed by exactly one debug-utils name |
| VulkanInstance.IsExtensionsSupported | Graphics/VulkanInstance.cpp:89-105 | true exactly when every requested extension equals the name of some enumerated extension |
| VulkanInstance.IsValidationLayersSupported | Graphics/VulkanInstance.cpp:121-136 | true exactly when every requested layer equals the name of some enumerated layer |
| VulkanInstance.ValidationLayersSupportedIffKhronos | Graphics/VulkanInstance.cpp:107-110 | the requested layers are available exactly when `VK_LAYER_KHRONOS_validation` is enumerated |
| VulkanInstance.RequiredExtensionsSupported | Graphics/VulkanInstance.cpp:68-78 | the required extensions are available exactly when GLFW's are and `VK_EXT_debug_utils` is |
| VulkanInstance.MakeVersion | Graphics/VulkanInstance.cpp:18-21 | the packed version's major, minor and patch fields decode back to the arguments |
| VulkanInstance.CreateInfoFor | Graphics/VulkanInstance.cpp:14-45 | the create info names the caller's application and the "Apparatus Engine" engine, all three versions 1.0.0, enables exactly the Khronos layer and GLFW's extensions followed by debug-utils, and chains the messenger's filter |
| VulkanInstance.Init | Graphics/VulkanInstance.cpp:12-48 | missing layers throw the layer error before extensions are examined; missing extensions throw next; creation is attempted exactly when both checks pass, with exactly the create info `CreateInfoFor` builds (Khronos layer, GLFW + debug-utils extensions); a failed creation throws the driver's result from line 47, never a check's error |
| VulkanInstance.InitSucceedsIff | Graphics/VulkanInstance.cpp:29-47 | init succeeds exactly when the Khronos layer, GLFW's extensions and debug-utils are enumerated and creation returns success |
| VulkanInstance.Cleanup | Graphics/VulkanInstance.cpp:55-61 | destroys exactly a non-null handle and always leaves the handle null |
| VulkanInstance.CleanupIdempotent | Graphics/VulkanInstance.cpp:55-61 | a second cleanup destroys nothing |
| LogicalDevice.GetRequiredExtensions | Graphics/LogicalDevice.cpp:76-79 | exactly `["VK_KHR_swapchain"]` |
| LogicalDevice.IsExtensionsSupported | Graphics/LogicalDevice.cpp:90-105 | true exactly when every requested extension equals the name of some extension the device enumerates |
| LogicalDevice.IsPhysicalDeviceSuitable | Graphics/LogicalDevice.cpp:58-79 | suitable exactly when the device has `VK_KHR_swapchain`, a surface format and a present mode |
| LogicalDevice.MissingExtensionRejects | Graphics/LogicalDevice.cpp:60-63 | a device without the required extension is unsuitable whatever its surface support |
| LogicalDevice.FirstSuitable | Graphics/LogicalDevice.cpp:39-46 | the index of a suitable device with no suitable device before it, or none exactly when no device is suitable |
| LogicalDevice.FindSuitablePhysicalDevice | Graphics/LogicalDevice.cpp:37-47 | null exactly when no device is suitable (including the empty list); otherwise the handle of a suitable device with no suitable device before it |
| LogicalDevice.FirstSuitableAppend | Graphics/LogicalDevice.cpp:39-44 | searching a concatenation finds the first list's match if it has one, and otherwise the second list's match shifted past the first |
| LogicalDevice.SelectionIgnoresLaterDevices | Graphics/LogicalDevice.cpp:39-44 | devices enumerated after a suitable one never change the selection |
| LogicalDevice.Init | Graphics/LogicalDevice.cpp:13-22 | records the physical device; throws `VK_ERROR_INCOMPATIBLE_DRIVER` exactly when it is null; never sets the device handle |
| LogicalDevice.InitCreatesNothing | Graphics/LogicalDevice.cpp:13-35 | init creates no device: a cleanup after it destroys exactly what a cleanup before it would, and nothing on a fresh object |
| LogicalDevice.Cleanup | Graphics/LogicalDevice.cpp:29-35 | destroys exactly a non-null device handle, always leaves it null, and keeps the physical device |
| LogicalDevice.CleanupIdempotent | Graphics/LogicalDevice.cpp:29-35 | a second cleanup destroys nothing |
| Swapchain.PickMinImageCount | Graphics/Swapchain.cpp:60-70 | a minimum above 2 is taken whatever the maximum; a maximum of 0 never lowers the result; with a minimum of at most 2 a nonzero maximum below 2 is taken and otherwise 2; ordered bounds contain the result |
| Swapchain.ImageCountNearestBaseline | Graphics/Swapchain.cpp:60-70 | for ordered bounds, no allowed image count is closer to 2 than the chosen one |
| Swapchain.Clamp | Graphics/Swapchain.cpp:85-86 | the result lies in the bounds; it is the input when the input is inside, the lower bound when below and the upper bound when above |
| Swapchain.ClampIsNearest | Graphics/Swapchain.cpp:85-86 | no point of the bounds is closer to the input than the clamped value |
| Swapchain.ClampIdempotent | Graphics/Swapchain.cpp:85-86 | clamping twice equals clamping once |
| Swapchain.ToU32 | Graphics/Swapchain.cpp:80-83 | the cast keeps the value modulo 2^32 and leaves non-negative sizes unchanged |
| Swapchain.PickExtent | Graphics/Swapchain.cpp:72-89 | a non-sentinel width returns `currentExtent` verbatim, height included; under the sentinel each framebuffer dimension is kept when it is in bounds, becomes the minimum when below and the maximum when above, so both dimensions lie in their bounds |
| Swapchain.PickExtentIsNearest | Graphics/Swapchain.cpp:80-87 | under the sentinel, no allowed width or height is closer to the framebuffer's dimension than the chosen one |
| Swapchain.ExtentDimensionsIndependent | Graphics/Swapchain.cpp:85-86 | under the sentinel the chosen width depends only on the framebuffer width, and the height only on the height |
| Swapchain.PickExtentIdempotent | Graphics/Swapchain.cpp:72-89 | feeding the chosen extent back as the framebuffer size chooses the same extent |
| Swapchain.Cleanup | Graphics/Swapchain.cpp:51-58 | destroys only when both the swapchain and device handles are non-null, then nulls both; otherwise changes nothing |
| Swapchain.CleanupIdempotent | Graphics/Swapchain.cpp:51-58 | a second cleanup destroys nothing |
| Swapchain.WorkedExamples | Graphics/Swapchain.cpp:60-89 | {min 3, max 0} gives 3, {1, 2} gives 2, {1, 1} gives 1; an 800x600 current extent wins over the window; the sentinel with a 1920x1080 framebuffer and bounds 640x480..1280x720 gives 1280x720 |

## Left out

- Driver and GLFW calls are inputs, not behaviour. This covers enumeration (`getPhysicalDevices`, `getSupportedExtensions`, `getSupportedValidationLayers`), `vkCreate*`/`vkDestroy*`, `vkGetInstanceProcAddr`, `glfwGetRequiredInstanceExtensions` and `glfwGetFramebufferSize`. A destroy call appears only as the handle a `Cleanup` reports destroyed.
- `Graphics/Surface.cpp` is a thin wrapper over `glfwCreateWindowSurface`, so it is left out. The surface queries the device check relies on (`getFormats`, `getPresentModes`) are not declared in `Graphics/Surface.h`, so the device record carries their results.
- `Window/Window.cpp` and `tester.cpp` are window plumbing and the program entry point, so they are left out.
- `Swapchain::init` does not compile (`Graphics/Swapchain.cpp:22-26`). Only the two pick functions it calls are modelled.
- `pickFormat` is declared but never defined, so no format preference is modelled.
- Queue-family resolution, deduplicated queue requests and logical-device creation do not exist in the code. `LogicalDevice::init` fills in an unused create info and stops.
- `debugCallback`'s console line is output only. Its return value is modelled, but the `pfnUserCallback` and `sType` fields of the create infos are not.
- `VulkanInstance::getHandle` just returns the handle, which the model reads as `State.handle`.
- Extension and layer names are strings without their NUL terminator and without an interior `'\0'`. The 256-byte name buffers of the property records are not modelled.
- `vkGetInstanceProcAddr` is modelled only as far as the proxies need: a null instance resolves nothing, and a live one resolves whatever the loader offers.
- `__FILE__` depends on how the compiler was invoked. The model uses the file's repository path for it.
- Swapchain.PickExtent: needs minimum ≤ maximum in each dimension when the width is the sentinel, because `std::clamp` is undefined otherwise.
