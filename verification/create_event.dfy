/**
 * The front end's event creation flow: deploy a ticket manager, initialise
 * it, then register it with the event registry by a hand-built
 * `register_event` call. The byte buffers of that call (the length-prefixed
 * name and the registry box key) are filled in place, as the page does.
 *
 * Wallet and node interactions are inputs: whether deployment,
 * initialisation, the registry state query and the registration succeed.
 */
module CreateEvent {
  import opened Wrappers
  import opened Bytes
  import opened GlobalState
  import EventFactoryArc4

  /** The `register_event` selector the page hard-codes. */
  function RegisterEventSelector(): (s: seq<byte>)
    ensures |s| == 4
  {
    [0x91, 0x5e, 0x7d, 0x3d]
  }

  /** The ABI string argument: the length as two big-endian bytes, then the bytes. */
  function NameArg(nameBytes: seq<byte>): (r: seq<byte>)
    ensures |r| == |nameBytes| + 2 && r[2..] == nameBytes
    ensures |nameBytes| < 0x1_0000 ==> r[..2] == Be16(|nameBytes|)
  {
    [(|nameBytes| / 256) % 256, |nameBytes| % 256] + nameBytes
  }

  /** Reading a length-prefixed name back: the length from bytes 0 and 1, the name after them. */
  function DecodeNameArg(v: seq<byte>): (r: seq<byte>)
    ensures |r| <= |v|
  {
    var len := At(v, 0).GetOr(0) * 256 + At(v, 1).GetOr(0);
    JsSlice(v, 2, 2 + len)
  }

  /** Any name shorter than 65536 bytes survives the length-prefixed encoding. */
  lemma NameArgRoundTrip(nameBytes: seq<byte>)
    requires |nameBytes| < 0x1_0000
    ensures DecodeNameArg(NameArg(nameBytes)) == nameBytes
  {
    var v := NameArg(nameBytes);
    var n := |nameBytes|;
    assert (v[0] as int) * 256 + (v[1] as int) == n by {
      DivModUnique(n, 256, n / 256, n % 256);
    }
    assert v[2..2 + n] == nameBytes;
  }

  /** Fills `nameEncoded`: the two length bytes, then the name copied from offset 2. */
  method NameArgBuffer(nameBytes: seq<byte>) returns (buf: array<byte>)
    ensures buf[..] == NameArg(nameBytes)
  {
    var n := |nameBytes|;
    buf := new byte[2 + n];
    buf[0] := (n / 256) % 256;
    buf[1] := n % 256;
    var i := 0;
    while i < n
      invariant 0 <= i <= n
      invariant buf[0] == (n / 256) % 256 && buf[1] == n % 256
      invariant forall k :: 0 <= k < i ==> buf[2 + k] == nameBytes[k]
    {
      buf[2 + i] := nameBytes[i];
      i := i + 1;
    }
    assert buf[..] == NameArg(nameBytes) by {
      forall k | 0 <= k < buf.Length
        ensures buf[k] == NameArg(nameBytes)[k]
      {
        if k >= 2 { assert buf[2 + (k - 2)] == nameBytes[k - 2]; }
      }
    }
  }

  /** Fills `boxKey`: the prefix, then the encoded index after it. */
  method BoxKeyBuffer(prefix: seq<byte>, rawKey: seq<byte>) returns (buf: array<byte>)
    ensures buf[..] == prefix + rawKey
  {
    buf := new byte[|prefix| + |rawKey|];
    var i := 0;
    while i < |prefix|
      invariant 0 <= i <= |prefix|
      invariant forall k :: 0 <= k < i ==> buf[k] == prefix[k]
    {
      buf[i] := prefix[i];
      i := i + 1;
    }
    var j := 0;
    while j < |rawKey|
      invariant 0 <= j <= |rawKey|
      invariant forall k :: 0 <= k < |prefix| ==> buf[k] == prefix[k]
      invariant forall k :: 0 <= k < j ==> buf[|prefix| + k] == rawKey[k]
    {
      buf[|prefix| + j] := rawKey[j];
      j := j + 1;
    }
    assert buf[..] == prefix + rawKey by {
      forall k | 0 <= k < buf.Length
        ensures buf[k] == (prefix + rawKey)[k]
      {
        if k >= |prefix| { assert buf[|prefix| + (k - |prefix|)] == rawKey[k - |prefix|]; }
      }
    }
  }

  /** The registry's count: "event_count" if present, else "EventCount", else 0. */
  function FactoryCount(gs: seq<StateEntry>): (n: u64)
    ensures HasKey(gs, "event_count") ==> n == Find(gs, "event_count").value.Uint()
    ensures !HasKey(gs, "event_count") && HasKey(gs, "EventCount") ==> n == Find(gs, "EventCount").value.Uint()
    ensures !HasKey(gs, "event_count") && !HasKey(gs, "EventCount") ==> n == 0
  {
    match Find(gs, "event_count")
    case Some(v) => v.Uint()
    case None =>
      match Find(gs, "EventCount")
      case Some(v) => v.Uint()
      case None => 0
  }

  /** The registration call the page builds. */
  datatype RegisterCall = RegisterCall(factoryAppId: nat, appArgs: seq<seq<byte>>, boxKey: seq<byte>)

  /**
   * The registration call: the selector, the new application's id and the
   * length-prefixed name as arguments, and the registry box the entry will
   * be stored in, named from the registry's current count.
   */
  method BuildRegisterCall(factoryAppId: nat, appId: u64, eventName: string, factoryState: seq<StateEntry>)
    returns (call: RegisterCall)
    ensures call.factoryAppId == factoryAppId
    ensures call.appArgs == [RegisterEventSelector(), Itob(appId), NameArg(Utf8(eventName))]
    ensures call.boxKey == EventFactoryArc4.BoxKey(FactoryCount(factoryState))
  {
    var eventCount := FactoryCount(factoryState);
    Utf8Ascii("events");
    var key := BoxKeyBuffer(Utf8("events"), Itob(eventCount));
    var nameEncoded := NameArgBuffer(Utf8(eventName));
    call := RegisterCall(factoryAppId, [RegisterEventSelector(), Itob(appId), nameEncoded[..]], key[..]);
  }

  datatype DeployOutcome =
    | Refused(message: string)
    | Failed
    | Created(appId: u64, registered: bool)

  /**
   * `deployEvent`. `steps` lists the values `currentStep` takes after the
   * refusal checks. `deployed` is the new application's id (or a failure),
   * `initialized` the outcome of the `create_event` group, `factoryState`
   * the registry's global state query and `registered` the outcome of the
   * registration group.
   */
  method DeployEvent(
    hasAccount: bool,
    eventName: string,
    deployed: Option<u64>,
    initialized: bool,
    factoryAppId: nat,
    factoryState: Option<seq<StateEntry>>,
    registered: bool)
    returns (outcome: DeployOutcome, steps: seq<nat>, call: Option<RegisterCall>)
    ensures !hasAccount ==> outcome == Refused("Connect wallet first") && steps == [] && call == None
    ensures hasAccount && IsBlank(eventName) ==> outcome == Refused("Enter an event name") && steps == [] && call == None
    ensures outcome.Refused? <==> !hasAccount || IsBlank(eventName)
    // The step counter only moves forward, one stage at a time.
    ensures |steps| <= 4 && forall i :: 0 <= i < |steps| ==> steps[i] == i
    ensures outcome.Created? <==>
      && hasAccount && !IsBlank(eventName) && deployed.Some? && initialized
      && (factoryAppId != 0 ==> factoryState.Some? && registered)
    ensures outcome.Created? ==>
      |steps| == 4 && outcome.appId == deployed.value && outcome.registered == (factoryAppId != 0)
    // Registration is attempted only with a registry configured.
    ensures call.Some? <==>
      hasAccount && !IsBlank(eventName) && deployed.Some? && initialized && factoryAppId != 0 && factoryState.Some?
    ensures call.Some? ==>
      && call.value.factoryAppId == factoryAppId
      && call.value.appArgs == [RegisterEventSelector(), Itob(deployed.value), NameArg(Utf8(eventName))]
      && call.value.boxKey == EventFactoryArc4.BoxKey(FactoryCount(factoryState.value))
  {
    call := None;
    steps := [];
    if !hasAccount { return Refused("Connect wallet first"), steps, call; }
    if IsBlank(eventName) { return Refused("Enter an event name"), steps, call; }
    steps := [0];
    if deployed.None? { return Failed, steps, call; }
    var appId := deployed.value;
    steps := steps + [1];
    if !initialized { return Failed, steps, call; }
    steps := steps + [2];
    if factoryAppId != 0 {
      if factoryState.None? { return Failed, steps, call; }
      var register := BuildRegisterCall(factoryAppId, appId, eventName, factoryState.value);
      call := Some(register);
      if !registered { return Failed, steps, call; }
      steps := steps + [3];
      return Created(appId, true), steps, call;
    } else {
      steps := steps + [3];
      return Created(appId, false), steps, call;
    }
  }

  /**
   * Against the Algorand Python registry, the box the registration names is
   * the one `register_event` writes: the entry at the current count.
   */
  lemma RegistrationBoxAgrees(f: EventFactoryArc4.EventFactory, gs: seq<StateEntry>)
    requires UniqueKeys(gs) && gs == [StateEntry("event_count", UintValue(f.eventCount))]
    ensures EventFactoryArc4.BoxKey(FactoryCount(gs)) == EventFactoryArc4.BoxKey(f.eventCount)
  {
    assert gs[0].key == "event_count";
  }
}
