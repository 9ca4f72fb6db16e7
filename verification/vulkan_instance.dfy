/**
  The Vulkan instance: which instance extensions and validation layers it
  asks for, how it checks them against what the loader enumerates, the order
  in which `init` gives up, and the life cycle of its handle.
*/
module VulkanInstance {
  import opened Vk
  import Names
  import DebugMessenger

  const File: string := "Graphics/VulkanInstance.cpp"

  const KhronosValidationLayer: CName := "VK_LAYER_KHRONOS_validation"

  /** `getValidationLayers`: the Khronos validation layer and nothing else. */
  function GetValidationLayers(): (layers: seq<CName>)
    ensures layers == [KhronosValidationLayer]
  {
    [KhronosValidationLayer]
  }

  /** `getRequiredExtensions`: the extensions GLFW reports for window-system
      integration, in GLFW's order, followed by the debug-utils extension. */
  function GetRequiredExtensions(glfwExtensions: seq<CName>): (extensions: seq<CName>)
    ensures |extensions| == |glfwExtensions| + 1
    ensures extensions[..|glfwExtensions|] == glfwExtensions
    ensures extensions[|glfwExtensions|] == DebugUtilsExtensionName
  {
    glfwExtensions + [DebugUtilsExtensionName]
  }

  /** `isExtensionsSupported`, against the `vkEnumerateInstanceExtensionProperties` result. */
  function IsExtensionsSupported(extensions: seq<CName>, supported: seq<ExtensionProperties>): (ok: bool)
    ensures ok <==> forall i :: 0 <= i < |extensions| ==>
                      exists j :: 0 <= j < |supported| && supported[j].extensionName == extensions[i]
  {
    var names := ExtensionNames(supported);
    assert forall n :: n in names <==> exists j :: 0 <= j < |supported| && supported[j].extensionName == n;
    Names.ContainsAll(extensions, names)
  }

  /** `isValidationLayersSupported`, against the `vkEnumerateInstanceLayerProperties` result. */
  function IsValidationLayersSupported(layers: seq<CName>, supported: seq<LayerProperties>): (ok: bool)
    ensures ok <==> forall i :: 0 <= i < |layers| ==>
                      exists j :: 0 <= j < |supported| && supported[j].layerName == layers[i]
  {
    var names := LayerNames(supported);
    assert forall n :: n in names <==> exists j :: 0 <= j < |supported| && supported[j].layerName == n;
    Names.ContainsAll(layers, names)
  }

  /** The layers `init` asks for are available exactly when the Khronos
      validation layer is among the enumerated ones. */
  lemma ValidationLayersSupportedIffKhronos(supported: seq<LayerProperties>)
    ensures IsValidationLayersSupported(GetValidationLayers(), supported)
            <==> KhronosValidationLayer in LayerNames(supported)
  {
  }

  /** The instance extensions `init` asks for are available exactly when
      GLFW's are and the debug-utils extension is. */
  lemma RequiredExtensionsSupported(glfwExtensions: seq<CName>, supported: seq<ExtensionProperties>)
    ensures IsExtensionsSupported(GetRequiredExtensions(glfwExtensions), supported)
            <==> IsExtensionsSupported(glfwExtensions, supported)
                 && DebugUtilsExtensionName in ExtensionNames(supported)
  {
    var names := ExtensionNames(supported);
    Names.ContainsAllAppend(glfwExtensions, [DebugUtilsExtensionName], names);
  }

  /** `VK_MAKE_VERSION(major, minor, patch)`: 10, 10 and 12 bits packed into
      one `uint32_t`. */
  function MakeVersion(major: nat, minor: nat, patch: nat): (v: U32)
    requires major < 1024 && minor < 1024 && patch < 4096
    ensures v / 0x40_0000 == major
    ensures v / 0x1000 % 0x400 == minor
    ensures v % 0x1000 == patch
  {
    major * 0x40_0000 + minor * 0x1000 + patch
  }

  /** `VkApplicationInfo`. */
  datatype ApplicationInfo = ApplicationInfo(
    applicationName: string,
    applicationVersion: U32,
    engineName: string,
    engineVersion: U32,
    apiVersion: U32)

  /** The `VkInstanceCreateInfo` handed to `vkCreateInstance`, with the debug
      messenger's create info chained through `pNext`. */
  datatype InstanceCreateInfo = InstanceCreateInfo(
    applicationInfo: ApplicationInfo,
    enabledLayerNames: seq<CName>,
    enabledExtensionNames: seq<CName>,
    next: DebugMessenger.CreateInfo)

  /** Everything `init` learns from GLFW and the loader, in the order it asks. */
  datatype Environment = Environment(
    supportedLayers: seq<LayerProperties>,
    glfwExtensions: seq<CName>,
    supportedExtensions: seq<ExtensionProperties>,
    createReply: CreateReply)

  /** The instance object: its own handle. */
  datatype State = State(handle: Handle)

  /** What the constructor leaves. */
  const Constructed: State := State(Null)

  /** `init`'s effect: the new state, whether it threw, and the create info it
      passed to `vkCreateInstance` if it got that far. */
  datatype InitStep = InitStep(state: State, outcome: Outcome, created: Option<InstanceCreateInfo>)

  /** The create info `init` assembles: the caller's application name at
      version 1.0.0, engine "Apparatus Engine" 1.0.0, API version 1.0, the
      validation layer, the required extensions, and the messenger's filter
      chained on through `pNext`. */
  function CreateInfoFor(appName: string, glfwExtensions: seq<CName>): (info: InstanceCreateInfo)
    ensures info.applicationInfo.applicationName == appName
    ensures info.applicationInfo.engineName == "Apparatus Engine"
    ensures info.applicationInfo.applicationVersion == info.applicationInfo.engineVersion
            == info.applicationInfo.apiVersion == 0x40_0000
    ensures info.enabledLayerNames == [KhronosValidationLayer]
    ensures |info.enabledExtensionNames| == |glfwExtensions| + 1
    ensures info.enabledExtensionNames[..|glfwExtensions|] == glfwExtensions
    ensures info.enabledExtensionNames[|glfwExtensions|..] == [DebugUtilsExtensionName]
    ensures info.next == DebugMessenger.GetCreateInfo()
  {
    InstanceCreateInfo(
      ApplicationInfo(appName, MakeVersion(1, 0, 0), "Apparatus Engine", MakeVersion(1, 0, 0), MakeVersion(1, 0, 0)),
      GetValidationLayers(),
      GetRequiredExtensions(glfwExtensions),
      DebugMessenger.GetCreateInfo())
  }

  /** `VulkanInstance::init`: layers are checked first, then extensions, and
      only then is the instance created; each failure throws from its own
      `VK_CHECK`. */
  function Init(s: State, appName: string, env: Environment): (r: InitStep)
    ensures !IsValidationLayersSupported(GetValidationLayers(), env.supportedLayers) ==>
              && r.outcome == Throw(
                   VulkanError(VK_ERROR_LAYER_NOT_PRESENT, File, "init", 31))
              && r.created.None? && r.state == s
    ensures IsValidationLayersSupported(GetValidationLayers(), env.supportedLayers)
            && !IsExtensionsSupported(GetRequiredExtensions(env.glfwExtensions), env.supportedExtensions) ==>
              && r.outcome == Throw(
                   VulkanError(VK_ERROR_EXTENSION_NOT_PRESENT, File, "init", 42))
              && r.created.None? && r.state == s
    ensures r.created.Some? <==>
              && IsValidationLayersSupported(GetValidationLayers(), env.supportedLayers)
              && IsExtensionsSupported(GetRequiredExtensions(env.glfwExtensions), env.supportedExtensions)
    ensures r.created.Some? ==>
              && r.created.value == CreateInfoFor(appName, env.glfwExtensions)
              && r.created.value.enabledLayerNames == [KhronosValidationLayer]
              && r.created.value.enabledExtensionNames == env.glfwExtensions + [DebugUtilsExtensionName]
              && r.created.value.applicationInfo.applicationName == appName
              && r.state.handle == env.createReply.handle
              && (r.outcome.Pass? <==> env.createReply.result == VK_SUCCESS)
              && (r.outcome.Throw? ==> r.outcome.error == VulkanError(env.createReply.result, File, "init", 47))
  {
    var layers := GetValidationLayers();
    if !IsValidationLayersSupported(layers, env.supportedLayers) then
      InitStep(s, DebugMessenger.LogError(VK_ERROR_LAYER_NOT_PRESENT, File, "init", 31), None)
    else
      var extensions := GetRequiredExtensions(env.glfwExtensions);
      if !IsExtensionsSupported(extensions, env.supportedExtensions) then
        InitStep(s, DebugMessenger.LogError(VK_ERROR_EXTENSION_NOT_PRESENT, File, "init", 42), None)
      else
        var info := CreateInfoFor(appName, env.glfwExtensions);
        InitStep(State(env.createReply.handle),
                 DebugMessenger.LogError(env.createReply.result, File, "init", 47),
                 Some(info))
  }

  /** `init` succeeds exactly when the Khronos layer, every GLFW extension and
      the debug-utils extension are all available and creation succeeds. */
  lemma InitSucceedsIff(s: State, appName: string, env: Environment)
    ensures Init(s, appName, env).outcome.Pass?
            <==> && KhronosValidationLayer in LayerNames(env.supportedLayers)
                 && IsExtensionsSupported(env.glfwExtensions, env.supportedExtensions)
                 && DebugUtilsExtensionName in ExtensionNames(env.supportedExtensions)
                 && env.createReply.result == VK_SUCCESS
  {
    ValidationLayersSupportedIffKhronos(env.supportedLayers);
    RequiredExtensionsSupported(env.glfwExtensions, env.supportedExtensions);
  }


  function Cleanup(s: State): (r: CleanupStep<State>)
    ensures r.destroyed.Some? <==> s.handle.Live?
    ensures r.destroyed.Some? ==> r.destroyed.value == s.handle
    ensures r.state == Constructed
  {
    if s.handle.Live? then CleanupStep(State(Null), Some(s.handle)) else CleanupStep(s, None)
  }

  /** A second `cleanup` changes nothing and destroys nothing. */
  lemma CleanupIdempotent(s: State)
    ensures Cleanup(Cleanup(s).state) == CleanupStep(Cleanup(s).state, None)
  {
  }
}
