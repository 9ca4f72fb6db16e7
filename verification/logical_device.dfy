/**
  Physical-device selection and the logical device object. Each enumerated
  physical device is represented by what the driver reports about it: its
  device extensions and, for the one window surface, its surface formats and
  present modes. Selection is a first-match search in enumeration order.
*/
module LogicalDevice {
  import opened Vk
  import Names
  import DebugMessenger

  /** `VkSurfaceFormatKHR`. */
  datatype SurfaceFormat = SurfaceFormat(format: int, colorSpace: int)

  /** `VkPresentModeKHR`. */
  type PresentMode = int

  /** One enumerated `VkPhysicalDevice`: its handle and what it reports. */
  datatype PhysicalDevice = PhysicalDevice(
    id: nat,
    extensions: seq<ExtensionProperties>,
    formats: seq<SurfaceFormat>,
    presentModes: seq<PresentMode>)

  /** `getRequiredExtensions`: the swapchain extension and nothing else. */
  function GetRequiredExtensions(): (extensions: seq<CName>)
    ensures extensions == [SwapchainExtensionName]
  {
    [SwapchainExtensionName]
  }

  /** `isExtensionsSupported`, against the device's enumerated extensions. */
  function IsExtensionsSupported(device: PhysicalDevice, extensions: seq<CName>): (ok: bool)
    ensures ok <==> forall i :: 0 <= i < |extensions| ==>
                      exists j :: 0 <= j < |device.extensions| && device.extensions[j].extensionName == extensions[i]
  {
    var names := ExtensionNames(device.extensions);
    assert forall n :: n in names <==>
      exists j :: 0 <= j < |device.extensions| && device.extensions[j].extensionName == n;
    Names.ContainsAll(extensions, names)
  }

  /** `isPhysicalDeviceSuitable`: the swapchain extension, at least one surface
      format and at least one present mode. The queue-family part of the
      check is an empty placeholder and adds no condition. */
  function IsPhysicalDeviceSuitable(device: PhysicalDevice): (suitable: bool)
    ensures suitable <==> && SwapchainExtensionName in ExtensionNames(device.extensions)
                          && |device.formats| > 0
                          && |device.presentModes| > 0
  {
    if !IsExtensionsSupported(device, GetRequiredExtensions()) then false
    else if |device.formats| == 0 || |device.presentModes| == 0 then false
    else true
  }

  /** A device missing a required extension is rejected whatever its surface
      support. */
  lemma MissingExtensionRejects(device: PhysicalDevice)
    requires !IsExtensionsSupported(device, GetRequiredExtensions())
    ensures !IsPhysicalDeviceSuitable(device)
  {
  }

  /** The index of the first suitable device, searching from the front. */
  function FirstSuitable(devices: seq<PhysicalDevice>): (r: Option<nat>)
    ensures r.None? <==> forall i :: 0 <= i < |devices| ==> !IsPhysicalDeviceSuitable(devices[i])
    ensures r.Some? ==> && r.value < |devices|
                        && IsPhysicalDeviceSuitable(devices[r.value])
                        && forall j :: 0 <= j < r.value ==> !IsPhysicalDeviceSuitable(devices[j])
  {
    if |devices| == 0 then None
    else if IsPhysicalDeviceSuitable(devices[0]) then Some(0)
    else
      match FirstSuitable(devices[1..])
      case None => None
      case Some(i) => Some(i + 1)
  }

  /** `findSuitablePhysicalDevice`: the first suitable device, or `nullptr`. */
  function FindSuitablePhysicalDevice(devices: seq<PhysicalDevice>): (found: Handle)
    ensures found == Null <==> forall i :: 0 <= i < |devices| ==> !IsPhysicalDeviceSuitable(devices[i])
    ensures found.Live? ==>
              exists i :: && 0 <= i < |devices|
                          && devices[i].id == found.id
                          && IsPhysicalDeviceSuitable(devices[i])
                          && forall j :: 0 <= j < i ==> !IsPhysicalDeviceSuitable(devices[j])
  {
    match FirstSuitable(devices)
    case None => Null
    case Some(i) => Live(devices[i].id)
  }

  /** First match composes over concatenated enumerations: devices listed
      later are only consulted when no earlier one qualifies. */
  lemma {:induction false} FirstSuitableAppend(a: seq<PhysicalDevice>, b: seq<PhysicalDevice>)
    ensures FirstSuitable(a + b) == match FirstSuitable(a)
                                    case Some(i) => Some(i)
                                    case None =>
                                      match FirstSuitable(b)
                                      case Some(k) => Some(|a| + k)
                                      case None => None
  {
    if |a| > 0 {
      assert (a + b)[0] == a[0];
      assert (a + b)[1..] == a[1..] + b;
      FirstSuitableAppend(a[1..], b);
    } else {
      assert a + b == b;
    }
  }

  /** Adding devices behind a suitable one never changes the selection. */
  lemma SelectionIgnoresLaterDevices(a: seq<PhysicalDevice>, b: seq<PhysicalDevice>)
    requires FindSuitablePhysicalDevice(a) != Null
    ensures FindSuitablePhysicalDevice(a + b) == FindSuitablePhysicalDevice(a)
  {
    FirstSuitableAppend(a, b);
    var i := FirstSuitable(a).value;
    assert (a + b)[i] == a[i];
  }

  const File: string := "Graphics/LogicalDevice.cpp"

  /** The logical device object: its own handle and the physical device it
      was initialised with. */
  datatype State = State(handle: Handle, physicalDevice: Handle)

  /** What the constructor leaves. */
  const Constructed: State := State(Null, Null)

  /** `LogicalDevice::init`: records the physical device and throws
      `VK_ERROR_INCOMPATIBLE_DRIVER` when it is null. Device creation itself is
      not written yet, so the device handle is never set here. */
  function Init(s: State, physicalDevice: Handle): (r: Step<State>)
    ensures r.state.physicalDevice == physicalDevice
    ensures r.state.handle == s.handle
    ensures r.outcome.Pass? <==> physicalDevice.Live?
    ensures r.outcome.Throw? ==>
              r.outcome.error == VulkanError(VK_ERROR_INCOMPATIBLE_DRIVER, File, "init", 17)
  {
    var s' := s.(physicalDevice := physicalDevice);
    if physicalDevice == Null then
      Step(s', DebugMessenger.LogError(VK_ERROR_INCOMPATIBLE_DRIVER, File, "init", 17))
    else Step(s', Pass)
  }


  function Cleanup(s: State): (r: CleanupStep<State>)
    ensures r.destroyed.Some? <==> s.handle.Live?
    ensures r.destroyed.Some? ==> r.destroyed.value == s.handle
    ensures r.state.handle == Null
    ensures r.state.physicalDevice == s.physicalDevice
  {
    if s.handle.Live? then CleanupStep(s.(handle := Null), Some(s.handle)) else CleanupStep(s, None)
  }

  /** `init` creates no device, so a `cleanup` after it destroys exactly what
      a `cleanup` before it would have; in particular nothing, for a freshly
      constructed object. */
  lemma InitCreatesNothing(s: State, physicalDevice: Handle)
    ensures Cleanup(Init(s, physicalDevice).state).destroyed == Cleanup(s).destroyed
    ensures Cleanup(Init(Constructed, physicalDevice).state).destroyed.None?
  {
  }

  /** A second `cleanup` changes nothing and destroys nothing. */
  lemma CleanupIdempotent(s: State)
    ensures Cleanup(Cleanup(s).state) == CleanupStep(Cleanup(s).state, None)
  {
  }
}
