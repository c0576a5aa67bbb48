/**
 * The port table: the fixed order in which the adapter numbers its LV2
 * ports, and the bindings from those ports to host memory.
 *
 * Order: audio inputs, audio outputs, "enabled", "reset", the optional
 * free-wheel and latency ports (compiled in by build flags), then one
 * control slot per parameter.
 */
module PortTable {
  import opened HostMemory

  /** The two build-time port options. */
  datatype Flags = Flags(freeWheel: bool, latency: bool)

  function OptionalPorts(f: Flags): nat
  {
    (if f.freeWheel then 1 else 0) + (if f.latency then 1 else 0)
  }

  /** The index of the first control slot. */
  function ControlBase(numInputs: nat, numOutputs: nat, f: Flags): nat
  {
    numInputs + numOutputs + 2 + OptionalPorts(f)
  }

  datatype Role =
    | AudioIn(channel: nat)
    | AudioOut(channel: nat)
    | Enabled
    | Reset
    | FreeWheel
    | Latency
    | Control(slot: nat)
    | Unused

  /** The roles that exist for the given counts and build flags. */
  predicate Declared(r: Role, numInputs: nat, numOutputs: nat, numControls: nat, f: Flags)
  {
    match r
    case AudioIn(c) => c < numInputs
    case AudioOut(c) => c < numOutputs
    case Enabled => true
    case Reset => true
    case FreeWheel => f.freeWheel
    case Latency => f.latency
    case Control(s) => s < numControls
    case Unused => false
  }

  /** Where a role sits in the port order. */
  function PortIndex(r: Role, numInputs: nat, numOutputs: nat, f: Flags): nat
  {
    match r
    case AudioIn(c) => c
    case AudioOut(c) => numInputs + c
    case Enabled => numInputs + numOutputs
    case Reset => numInputs + numOutputs + 1
    case FreeWheel => numInputs + numOutputs + 2
    case Latency => numInputs + numOutputs + 2 + (if f.freeWheel then 1 else 0)
    case Control(s) => ControlBase(numInputs, numOutputs, f) + s
    case Unused => ControlBase(numInputs, numOutputs, f)
  }

  /**
   * The role of flat port index `p`.  Every index below the end of the
   * control slots has exactly one role, found back by `PortIndex`; every
   * index past it is unused.
   */
  function PortRole(p: nat, numInputs: nat, numOutputs: nat, numControls: nat, f: Flags): (r: Role)
    ensures r.Unused? <==> p >= ControlBase(numInputs, numOutputs, f) + numControls
    ensures !r.Unused? ==> Declared(r, numInputs, numOutputs, numControls, f)
    ensures !r.Unused? ==> PortIndex(r, numInputs, numOutputs, f) == p
  {
    var fw := if f.freeWheel then 1 else 0;
    if p < numInputs then AudioIn(p)
    else if p < numInputs + numOutputs then AudioOut(p - numInputs)
    else if p == numInputs + numOutputs then Enabled
    else if p == numInputs + numOutputs + 1 then Reset
    else if f.freeWheel && p == numInputs + numOutputs + 2 then FreeWheel
    else if f.latency && p == numInputs + numOutputs + 2 + fw then Latency
    else if p - ControlBase(numInputs, numOutputs, f) < numControls then Control(p - ControlBase(numInputs, numOutputs, f))
    else Unused
  }

  lemma PortIndexRoundTrip(r: Role, numInputs: nat, numOutputs: nat, numControls: nat, f: Flags)
    requires Declared(r, numInputs, numOutputs, numControls, f)
    ensures PortRole(PortIndex(r, numInputs, numOutputs, f), numInputs, numOutputs, numControls, f) == r
  {
  }

  //----------------------------------------------------------------------
  // Bindings

  /** The pointers the host has connected, one per port. */
  datatype PortBindings = PortBindings(
    audioIns: seq<Ptr>,
    audioOuts: seq<Ptr>,
    controls: seq<Ptr>,
    enabled: Ptr,
    reset: Ptr,
    freeWheel: Ptr,
    latency: Ptr)

  function Unbound(numInputs: nat, numOutputs: nat, numControls: nat): PortBindings
  {
    PortBindings(seq(numInputs, _ => Null), seq(numOutputs, _ => Null), seq(numControls, _ => Null),
                 Null, Null, Null, Null)
  }

  predicate Fits(b: PortBindings, r: Role)
  {
    match r
    case AudioIn(c) => c < |b.audioIns|
    case AudioOut(c) => c < |b.audioOuts|
    case Control(s) => s < |b.controls|
    case _ => true
  }

  /**
   * The bindings after pointer `d` is connected to a port of role `r`:
   * the one binding of that role becomes `d`, every other stays as it was,
   * and an unused port changes nothing.
   */
  function Bind(b: PortBindings, r: Role, d: Ptr): (res: PortBindings)
    requires Fits(b, r)
    ensures r.Unused? ==> res == b
    ensures res.audioIns == if r.AudioIn? then b.audioIns[r.channel := d] else b.audioIns
    ensures res.audioOuts == if r.AudioOut? then b.audioOuts[r.channel := d] else b.audioOuts
    ensures res.controls == if r.Control? then b.controls[r.slot := d] else b.controls
    ensures res.enabled == if r.Enabled? then d else b.enabled
    ensures res.reset == if r.Reset? then d else b.reset
    ensures res.freeWheel == if r.FreeWheel? then d else b.freeWheel
    ensures res.latency == if r.Latency? then d else b.latency
  {
    match r
    case AudioIn(c) => b.(audioIns := b.audioIns[c := d])
    case AudioOut(c) => b.(audioOuts := b.audioOuts[c := d])
    case Enabled => b.(enabled := d)
    case Reset => b.(reset := d)
    case FreeWheel => b.(freeWheel := d)
    case Latency => b.(latency := d)
    case Control(s) => b.(controls := b.controls[s := d])
    case Unused => b
  }
}
