/**
  The swapchain parameters chosen from the surface's capabilities, and the
  swapchain object's cleanup. The sentinels are those of
  `VkSurfaceCapabilitiesKHR` (Vulkan 1.0, Window System Integration chapter,
  Surface Queries section): a `maxImageCount` of 0 means there is no upper
  limit, and a `currentExtent` of `0xFFFFFFFF` means the application picks the
  size. The window's framebuffer size is an input.
*/
module Swapchain {
  import opened Vk

  /** `VkExtent2D`. */
  datatype Extent2D = Extent2D(width: U32, height: U32)

  /** The fields of `VkSurfaceCapabilitiesKHR` the choice reads. */
  datatype SurfaceCapabilities = SurfaceCapabilities(
    minImageCount: U32,
    maxImageCount: U32,
    currentExtent: Extent2D,
    minImageExtent: Extent2D,
    maxImageExtent: Extent2D)

  /** What `glfwGetFramebufferSize` writes: two `int`s. */
  datatype FramebufferSize = FramebufferSize(width: I32, height: I32)

  /** Double buffering. */
  const BaselineImageCount: U32 := 2

  /** Capabilities a conforming driver reports: the image-count bounds are
      ordered unless the maximum is the "unbounded" 0. */
  predicate ImageCountBoundsOrdered(caps: SurfaceCapabilities)
  {
    caps.maxImageCount == 0 || caps.minImageCount <= caps.maxImageCount
  }

  /** Whether `count` images are allowed by the capabilities. */
  predicate AllowsImageCount(caps: SurfaceCapabilities, count: int)
  {
    caps.minImageCount <= count && (caps.maxImageCount == 0 || count <= caps.maxImageCount)
  }

  function Distance(a: int, b: int): nat
  {
    if a < b then b - a else a - b
  }

  /** `pickMinImageCount`. */
  function PickMinImageCount(caps: SurfaceCapabilities): (count: U32)
    ensures caps.minImageCount > BaselineImageCount ==> count == caps.minImageCount
    ensures caps.maxImageCount == 0 ==>
              count == if caps.minImageCount > BaselineImageCount then caps.minImageCount else BaselineImageCount
    ensures caps.minImageCount <= BaselineImageCount && 0 < caps.maxImageCount < BaselineImageCount ==>
              count == caps.maxImageCount
    ensures caps.minImageCount <= BaselineImageCount && !(0 < caps.maxImageCount < BaselineImageCount) ==>
              count == BaselineImageCount
    ensures ImageCountBoundsOrdered(caps) ==> AllowsImageCount(caps, count)
  {
    var count := BaselineImageCount;
    if count < caps.minImageCount then caps.minImageCount
    else if caps.maxImageCount != 0 && count > caps.maxImageCount then caps.maxImageCount
    else count
  }

  /** For ordered bounds, the choice is the allowed count nearest to double
      buffering. */
  lemma ImageCountNearestBaseline(caps: SurfaceCapabilities, other: int)
    requires ImageCountBoundsOrdered(caps)
    requires AllowsImageCount(caps, other)
    ensures Distance(PickMinImageCount(caps), BaselineImageCount) <= Distance(other, BaselineImageCount)
  {
  }

  /** `std::clamp(value, low, high)`: `low` if `value < low`, else `high` if
      `high < value`, else `value`; the standard requires `low <= high`. */
  function Clamp(value: U32, low: U32, high: U32): (r: U32)
    requires low <= high
    ensures low <= r <= high
    ensures low <= value <= high ==> r == value
    ensures value < low ==> r == low
    ensures high < value ==> r == high
  {
    if value < low then low else if high < value then high else value
  }

  /** The clamped value is the point of `[low, high]` nearest the input. */
  lemma ClampIsNearest(value: U32, low: U32, high: U32, other: int)
    requires low <= high
    requires low <= other <= high
    ensures Distance(Clamp(value, low, high), value) <= Distance(other, value)
  {
  }

  /** Clamping twice is clamping once. */
  lemma ClampIdempotent(value: U32, low: U32, high: U32)
    requires low <= high
    ensures Clamp(Clamp(value, low, high), low, high) == Clamp(value, low, high)
  {
  }

  /** `static_cast<uint32_t>` of an `int`: reduction modulo 2^32. */
  function ToU32(x: I32): (u: U32)
    ensures (u - x) % 0x1_0000_0000 == 0
    ensures x >= 0 ==> u == x
  {
    if x < 0 then x + 0x1_0000_0000 else x
  }

  /** The extent bounds `std::clamp` needs when the surface leaves the size to
      the application. */
  predicate ExtentBoundsOrdered(caps: SurfaceCapabilities)
  {
    caps.minImageExtent.width <= caps.maxImageExtent.width
    && caps.minImageExtent.height <= caps.maxImageExtent.height
  }

  /** `pickExtent`. Only the width is compared with the sentinel. */
  function PickExtent(caps: SurfaceCapabilities, framebuffer: FramebufferSize): (extent: Extent2D)
    requires caps.currentExtent.width == UINT32_MAX ==> ExtentBoundsOrdered(caps)
    ensures caps.currentExtent.width != UINT32_MAX ==> extent == caps.currentExtent
    ensures caps.currentExtent.width == UINT32_MAX ==>
              && caps.minImageExtent.width <= extent.width <= caps.maxImageExtent.width
              && caps.minImageExtent.height <= extent.height <= caps.maxImageExtent.height
    ensures caps.currentExtent.width == UINT32_MAX
            && caps.minImageExtent.width <= ToU32(framebuffer.width) <= caps.maxImageExtent.width ==>
              extent.width == ToU32(framebuffer.width)
    ensures caps.currentExtent.width == UINT32_MAX
            && caps.minImageExtent.height <= ToU32(framebuffer.height) <= caps.maxImageExtent.height ==>
              extent.height == ToU32(framebuffer.height)
    ensures caps.currentExtent.width == UINT32_MAX && ToU32(framebuffer.width) < caps.minImageExtent.width ==>
              extent.width == caps.minImageExtent.width
    ensures caps.currentExtent.width == UINT32_MAX && caps.maxImageExtent.width < ToU32(framebuffer.width) ==>
              extent.width == caps.maxImageExtent.width
    ensures caps.currentExtent.width == UINT32_MAX && ToU32(framebuffer.height) < caps.minImageExtent.height ==>
              extent.height == caps.minImageExtent.height
    ensures caps.currentExtent.width == UINT32_MAX && caps.maxImageExtent.height < ToU32(framebuffer.height) ==>
              extent.height == caps.maxImageExtent.height
  {
    if caps.currentExtent.width != UINT32_MAX then caps.currentExtent
    else
      var extent := Extent2D(ToU32(framebuffer.width), ToU32(framebuffer.height));
      Extent2D(Clamp(extent.width, caps.minImageExtent.width, caps.maxImageExtent.width),
               Clamp(extent.height, caps.minImageExtent.height, caps.maxImageExtent.height))
  }

  /** When the application picks the size, each dimension is clamped on its
      own: the width never depends on the framebuffer's height, nor the height
      on its width. */
  lemma ExtentDimensionsIndependent(caps: SurfaceCapabilities, a: FramebufferSize, b: FramebufferSize)
    requires caps.currentExtent.width == UINT32_MAX && ExtentBoundsOrdered(caps)
    ensures a.width == b.width ==> PickExtent(caps, a).width == PickExtent(caps, b).width
    ensures a.height == b.height ==> PickExtent(caps, a).height == PickExtent(caps, b).height
  {
  }

  /** When the application picks the size, each chosen dimension is the point
      of its allowed range nearest the framebuffer's dimension. */
  lemma PickExtentIsNearest(caps: SurfaceCapabilities, framebuffer: FramebufferSize, width: int, height: int)
    requires caps.currentExtent.width == UINT32_MAX && ExtentBoundsOrdered(caps)
    requires caps.minImageExtent.width <= width <= caps.maxImageExtent.width
    requires caps.minImageExtent.height <= height <= caps.maxImageExtent.height
    ensures Distance(PickExtent(caps, framebuffer).width, ToU32(framebuffer.width))
            <= Distance(width, ToU32(framebuffer.width))
    ensures Distance(PickExtent(caps, framebuffer).height, ToU32(framebuffer.height))
            <= Distance(height, ToU32(framebuffer.height))
  {
    ClampIsNearest(ToU32(framebuffer.width), caps.minImageExtent.width, caps.maxImageExtent.width, width);
    ClampIsNearest(ToU32(framebuffer.height), caps.minImageExtent.height, caps.maxImageExtent.height, height);
  }

  /** Feeding a chosen extent back in as the framebuffer size chooses it again. */
  lemma PickExtentIdempotent(caps: SurfaceCapabilities, framebuffer: FramebufferSize)
    requires caps.currentExtent.width == UINT32_MAX && ExtentBoundsOrdered(caps)
    requires caps.maxImageExtent.width < 0x8000_0000 && caps.maxImageExtent.height < 0x8000_0000
    ensures var e := PickExtent(caps, framebuffer);
            PickExtent(caps, FramebufferSize(e.width, e.height)) == e
  {
  }

  /** The swapchain object: its own handle and the device it belongs to. */
  datatype State = State(handle: Handle, deviceHandle: Handle)

  /** What the constructor leaves. */
  const Constructed: State := State(Null, Null)


  function Cleanup(s: State): (r: CleanupStep<State>)
    ensures r.destroyed.Some? <==> s.handle.Live? && s.deviceHandle.Live?
    ensures r.destroyed.Some? ==> r.destroyed.value == s.handle && r.state == Constructed
    ensures r.destroyed.None? ==> r.state == s
  {
    if s.handle.Live? && s.deviceHandle.Live? then CleanupStep(Constructed, Some(s.handle))
    else CleanupStep(s, None)
  }

  /** A second `cleanup` changes nothing and destroys nothing. */
  lemma CleanupIdempotent(s: State)
    ensures Cleanup(Cleanup(s).state) == CleanupStep(Cleanup(s).state, None)
  {
  }

  /** Five concrete cases: an unbounded maximum with a minimum of 3, a maximum
      of 2, a maximum of 1, a fixed 800x600 current extent, and a 1920x1080
      framebuffer clamped into 640x480..1280x720. */
  lemma WorkedExamples()
    ensures PickMinImageCount(SurfaceCapabilities(3, 0, Extent2D(0, 0), Extent2D(0, 0), Extent2D(0, 0))) == 3
    ensures PickMinImageCount(SurfaceCapabilities(1, 2, Extent2D(0, 0), Extent2D(0, 0), Extent2D(0, 0))) == 2
    ensures PickMinImageCount(SurfaceCapabilities(1, 1, Extent2D(0, 0), Extent2D(0, 0), Extent2D(0, 0))) == 1
    ensures PickExtent(SurfaceCapabilities(2, 0, Extent2D(800, 600), Extent2D(1, 1), Extent2D(4096, 4096)),
                       FramebufferSize(1920, 1080)) == Extent2D(800, 600)
    ensures PickExtent(SurfaceCapabilities(2, 0, Extent2D(UINT32_MAX, UINT32_MAX), Extent2D(640, 480), Extent2D(1280, 720)),
                       FramebufferSize(1920, 1080)) == Extent2D(1280, 720)
  {
  }
}
