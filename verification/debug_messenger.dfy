/**
  The diagnostics side of the graphics layer: the `VK_CHECK` / `logError`
  rule that turns every non-success `VkResult` into an exception, the
  `VK_EXT_debug_utils` messenger's create info, the callback's string
  tables and return value, the create proxy that looks the entry point up at
  run time, and the messenger object's init / cleanup life cycle.
*/
module DebugMessenger {
  import opened Vk
  import Decimal

  const ErrorPrefix: string := "VULKAN ERROR: "

  /** The `what()` text of the exception `logError` throws: the prefix, the
      result code in decimal, the file and function labelled, then the line
      in decimal. */
  function Message(e: VulkanError): (m: string)
    ensures var code := Decimal.IntToString(e.result);
            && |m| > |ErrorPrefix| + |code|
            && m[..|ErrorPrefix|] == ErrorPrefix
            && m[|ErrorPrefix|..|ErrorPrefix| + |code|] == code
            && m[|ErrorPrefix| + |code|] == ','
    ensures var line := Decimal.IntToString(e.line);
            && |m| >= |line|
            && m[|m| - |line|..] == line
    ensures var code := Decimal.IntToString(e.result);
            var line := Decimal.IntToString(e.line);
            && |ErrorPrefix| + |code| <= |m| - |line|
            && m[|ErrorPrefix| + |code|..|m| - |line|]
               == ", file: " + e.file + ", func: " + e.func + ", line: "
  {
    ErrorPrefix + Decimal.IntToString(e.result) + ", file: " + e.file
      + ", func: " + e.func + ", line: " + Decimal.IntToString(e.line)
  }

  /** `logError`, reached through the `VK_CHECK` macro: throws exactly when the
      result is not `VK_SUCCESS`, carrying the result and the call site. */
  function LogError(result: VkResult, file: string, func: string, line: int): (o: Outcome)
    ensures o.Pass? <==> result == VK_SUCCESS
    ensures o.Throw? ==> o.error.result == result && o.error.file == file
                         && o.error.func == func && o.error.line == line
  {
    if result != VK_SUCCESS then Throw(VulkanError(result, file, func, line)) else Pass
  }

  /** The characters of `s` before its first `stop`. */
  function TakeUntil(s: string, stop: char): (t: string)
    ensures |t| <= |s| && t == s[..|t|]
    ensures stop !in t
  {
    if |s| == 0 || s[0] == stop then [] else [s[0]] + TakeUntil(s[1..], stop)
  }

  /** Reads the result code back out of an exception text. */
  function ResultCodeOf(message: string): Option<int>
  {
    if |message| < |ErrorPrefix| || message[..|ErrorPrefix|] != ErrorPrefix then None
    else
      var code := TakeUntil(message[|ErrorPrefix|..], ',');
      if Decimal.IsIntString(code) then Some(Decimal.ParseInt(code)) else None
  }

  lemma {:induction false} TakeUntilStopsAtStop(t: string, k: nat, stop: char)
    requires k < |t| && t[k] == stop
    requires stop !in t[..k]
    ensures TakeUntil(t, stop) == t[..k]
  {
    if k > 0 {
      assert t[0] in t[..k];
      assert t[1..][..k - 1] == t[1..k];
      TakeUntilStopsAtStop(t[1..], k - 1, stop);
      assert t[..k] == [t[0]] + t[1..k];
    }
  }

  /** The exception text names the failing result code: whatever the call site,
      the code can be read back from the text. */
  lemma MessageNamesResult(e: VulkanError)
    ensures ResultCodeOf(Message(e)) == Some(e.result as int)
  {
    var code := Decimal.IntToString(e.result);
    var m := Message(e);
    var t := m[|ErrorPrefix|..];
    assert t[..|code|] == code;
    assert ',' !in code;
    TakeUntilStopsAtStop(t, |code|, ',');
    Decimal.IntToStringRoundTrip(e.result);
  }

  // VkDebugUtilsMessageSeverityFlagBitsEXT (VK_EXT_debug_utils)
  const SEVERITY_VERBOSE: bv32 := 0x0000_0001
  const SEVERITY_INFO: bv32 := 0x0000_0010
  const SEVERITY_WARNING: bv32 := 0x0000_0100
  const SEVERITY_ERROR: bv32 := 0x0000_1000

  // VkDebugUtilsMessageTypeFlagBitsEXT (VK_EXT_debug_utils)
  const TYPE_GENERAL: bv32 := 0x0000_0001
  const TYPE_VALIDATION: bv32 := 0x0000_0002
  const TYPE_PERFORMANCE: bv32 := 0x0000_0004

  predicate IsSeverityBit(severity: bv32)
  {
    severity == SEVERITY_VERBOSE || severity == SEVERITY_INFO
    || severity == SEVERITY_WARNING || severity == SEVERITY_ERROR
  }

  predicate IsTypeBit(messageType: bv32)
  {
    messageType == TYPE_GENERAL || messageType == TYPE_VALIDATION || messageType == TYPE_PERFORMANCE
  }

  function MessageSeverityToString(severity: bv32): (s: string)
    ensures s == "verbose" <==> severity == SEVERITY_VERBOSE
    ensures s == "info" <==> severity == SEVERITY_INFO
    ensures s == "WARNING" <==> severity == SEVERITY_WARNING
    ensures s == "ERROR" <==> severity == SEVERITY_ERROR
    ensures s == "UNKNOWN SEVERITY" <==> !IsSeverityBit(severity)
  {
    if severity == SEVERITY_VERBOSE then "verbose"
    else if severity == SEVERITY_INFO then "info"
    else if severity == SEVERITY_WARNING then "WARNING"
    else if severity == SEVERITY_ERROR then "ERROR"
    else "UNKNOWN SEVERITY"
  }

  function MessageTypeToString(messageType: bv32): (s: string)
    ensures s == "general" <==> messageType == TYPE_GENERAL
    ensures s == "validation" <==> messageType == TYPE_VALIDATION
    ensures s == "performance" <==> messageType == TYPE_PERFORMANCE
    ensures s == "UNKNOWN TYPE" <==> !IsTypeBit(messageType)
  {
    if messageType == TYPE_GENERAL then "general"
    else if messageType == TYPE_VALIDATION then "validation"
    else if messageType == TYPE_PERFORMANCE then "performance"
    else "UNKNOWN TYPE"
  }

  /** The printed names identify the flag: two values print the same only
      when they are equal or both fall through to the unknown text. */
  lemma NamesIdentifyFlags(a: bv32, b: bv32)
    ensures MessageSeverityToString(a) == MessageSeverityToString(b)
            <==> a == b || (!IsSeverityBit(a) && !IsSeverityBit(b))
    ensures MessageTypeToString(a) == MessageTypeToString(b)
            <==> a == b || (!IsTypeBit(a) && !IsTypeBit(b))
  {
  }

  /** A message type with two or more bits set is not one of the switch's
      cases, so it prints as unknown. */
  lemma CombinedTypeIsUnknown(messageType: bv32)
    requires messageType & (messageType - 1) != 0
    ensures MessageTypeToString(messageType) == "UNKNOWN TYPE"
  {
  }

  /** The filtering part of `VkDebugUtilsMessengerCreateInfoEXT`. */
  datatype CreateInfo = CreateInfo(messageSeverity: bv32, messageType: bv32)

  /** Whether a messenger created with `mask` is called for a message carrying
      the flag `bit`. */
  predicate Delivers(mask: bv32, bit: bv32)
  {
    mask & bit != 0
  }

  /** `getCreateInfo`: warnings and errors of every message type, nothing else. */
  function GetCreateInfo(): (info: CreateInfo)
    ensures Delivers(info.messageSeverity, SEVERITY_WARNING)
    ensures Delivers(info.messageSeverity, SEVERITY_ERROR)
    ensures !Delivers(info.messageSeverity, SEVERITY_VERBOSE)
    ensures !Delivers(info.messageSeverity, SEVERITY_INFO)
    ensures info.messageSeverity & !(SEVERITY_WARNING | SEVERITY_ERROR) == 0
    ensures Delivers(info.messageType, TYPE_GENERAL)
    ensures Delivers(info.messageType, TYPE_VALIDATION)
    ensures Delivers(info.messageType, TYPE_PERFORMANCE)
    ensures info.messageType & !(TYPE_GENERAL | TYPE_VALIDATION | TYPE_PERFORMANCE) == 0
  {
    CreateInfo(SEVERITY_WARNING | SEVERITY_ERROR, TYPE_GENERAL | TYPE_VALIDATION | TYPE_PERFORMANCE)
  }

  /** `debugCallback`'s return value (its console line is output only): the
      triggering Vulkan call is never aborted. */
  function DebugCallback(severity: bv32, messageType: bv32, message: string): (abort: VkBool32)
    ensures abort == VK_FALSE
  {
    VK_FALSE
  }

  /** `vkGetInstanceProcAddr` for an instance-level command such as
      `vkCreateDebugUtilsMessengerEXT`. `entry` is what the loader resolves
      for a live instance (`None` when the extension is absent); for a null
      instance the loader resolves no instance-level command at all. */
  function GetInstanceProcAddr(instance: Handle, entry: Option<CreateReply>): (resolved: Option<CreateReply>)
    ensures instance.Null? ==> resolved.None?
    ensures instance.Live? ==> resolved == entry
  {
    if instance.Null? then None else entry
  }

  /** `createDebugUtilsMessengerEXT`: looks the create function up and calls
      it, or reports `VK_ERROR_EXTENSION_NOT_PRESENT` when the lookup yields a
      null pointer. A resolved function's reply is its result and the handle
      it wrote; `handle` is the out-parameter's value before the call. */
  function CreateDebugUtilsMessenger(instance: Handle, entry: Option<CreateReply>, handle: Handle): (r: CreateReply)
    ensures GetInstanceProcAddr(instance, entry).None? ==>
              r.result == VK_ERROR_EXTENSION_NOT_PRESENT && r.handle == handle
    ensures GetInstanceProcAddr(instance, entry).Some? ==> r == entry.value
    ensures instance.Null? ==> r.result == VK_ERROR_EXTENSION_NOT_PRESENT && r.handle == handle
  {
    match GetInstanceProcAddr(instance, entry)
    case None => CreateReply(VK_ERROR_EXTENSION_NOT_PRESENT, handle)
    case Some(reply) => reply
  }

  const File: string := "Graphics/DebugMessenger.cpp"

  /** The messenger object: the instance it was created under and its own handle. */
  datatype State = State(instanceHandle: Handle, handle: Handle)

  /** What the constructor leaves. */
  const Constructed: State := State(Null, Null)

  /** `DebugMessenger::init`: record the instance, run the create proxy, and
      check its result. An uninitialised (null) instance always throws. */
  function Init(s: State, instance: Handle, entry: Option<CreateReply>): (r: Step<State>)
    ensures r.state.instanceHandle == instance
    ensures instance.Null? || entry.None? ==>
              && r.state.handle == s.handle
              && r.outcome == Throw(VulkanError(VK_ERROR_EXTENSION_NOT_PRESENT, File, "init", 52))
    ensures instance.Live? && entry.Some? ==>
              && r.state.handle == entry.value.handle
              && (r.outcome.Pass? <==> entry.value.result == VK_SUCCESS)
              && (r.outcome.Throw? ==> r.outcome.error == VulkanError(entry.value.result, File, "init", 52))
  {
    var reply := CreateDebugUtilsMessenger(instance, entry, s.handle);
    Step(State(instance, reply.handle), LogError(reply.result, File, "init", 52))
  }

  /** `cleanup`: the messenger the destroy proxy actually destroyed, if any.
      `destroyFound` is whether `vkGetInstanceProcAddr` resolved the destroy
      entry point. */
  function Cleanup(s: State, destroyFound: bool): (r: CleanupStep<State>)
    ensures r.destroyed.Some? <==> s.handle.Live? && s.instanceHandle.Live? && destroyFound
    ensures r.destroyed.Some? ==> r.destroyed.value == s.handle
    ensures s.handle.Live? && s.instanceHandle.Live? ==> r.state == Constructed
    ensures !(s.handle.Live? && s.instanceHandle.Live?) ==> r.state == s
  {
    if s.handle.Live? && s.instanceHandle.Live? then
      CleanupStep(State(Null, Null), if destroyFound then Some(s.handle) else None)
    else CleanupStep(s, None)
  }

  /** Create and destroy pair up: after a successful `init` under a live
      instance, `cleanup` destroys exactly the messenger the driver created
      and returns the object to its constructed state. Without the destroy
      entry point the handles are still nulled, and the messenger leaks. */
  lemma InitThenCleanup(s: State, instance: Handle, entry: Option<CreateReply>, destroyFound: bool)
    requires instance.Live? && entry.Some? && entry.value.handle.Live?
    ensures var r := Cleanup(Init(s, instance, entry).state, destroyFound);
            && r.state == Constructed
            && r.destroyed == (if destroyFound then Some(entry.value.handle) else None)
  {
  }

  /** An `init` that threw under a null instance leaves nothing for `cleanup`
      to destroy when the object was fresh. */
  lemma NullInstanceInitLeavesNothing(entry: Option<CreateReply>, destroyFound: bool)
    ensures Init(Constructed, Null, entry).outcome.Throw?
    ensures Cleanup(Init(Constructed, Null, entry).state, destroyFound) == CleanupStep(Constructed, None)
  {
  }

  /** A second `cleanup` changes nothing and destroys nothing. */
  lemma CleanupIdempotent(s: State, first: bool, second: bool)
    ensures Cleanup(Cleanup(s, first).state, second) == CleanupStep(Cleanup(s, first).state, None)
  {
  }
}
