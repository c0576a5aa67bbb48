/**
 * The LV2 plugin instance: it accepts or refuses the engine, keeps the
 * host's port connections and the cache of last seen control values, and
 * runs one block at a time.
 *
 * Host memory is handed to `Run` as a value and the updated memory comes
 * back; calls into the engine and diagnostics are appended to `trace`.
 */
module Wrapper {
  import opened Common
  import opened HostMemory
  import opened Engine
  import opened PortTable
  import opened ParameterSync
  import opened BufferView

  /** The control inputs and outputs that a block reads or writes can be dereferenced. */
  predicate ControlMemory(mem: Memory, b: PortBindings)
  {
    && ControlPortsHeld(mem, b)
    && Holds(mem, b.reset, 1) && Holds(mem, b.freeWheel, 1) && Holds(mem, b.latency, 1)
  }

  /** Every audio port holds at least `n` samples. */
  predicate AudioMemory(mem: Memory, b: PortBindings, n: nat)
  {
    AllBuffers(mem, b.audioIns, n) && AllBuffers(mem, b.audioOuts, n)
  }

  /**
   * The engine calls made before a block is looked at: a reset when the
   * reset port is above one half, and the free-wheel state whenever that
   * port is connected.
   */
  function PreludeEffects(b: PortBindings, mem: Memory): (e: seq<Effect>)
    requires ControlMemory(mem, b)
    ensures ResetEngine in e <==> b.reset.Addr? && Load(mem, b.reset) > 0.5
    ensures forall x :: SetNonRealtime(x) in e <==> b.freeWheel.Addr? && x == (Load(mem, b.freeWheel) > 0.5)
    ensures forall x :: x in e ==> x.ResetEngine? || x.SetNonRealtime?
    ensures |e| == (if b.reset.Addr? && Load(mem, b.reset) > 0.5 then 1 else 0) + (if b.freeWheel.Addr? then 1 else 0)
    ensures ResetEngine in e ==> e[0] == ResetEngine
  {
    (if b.reset.Addr? && Load(mem, b.reset) > 0.5 then [ResetEngine] else [])
    + (if b.freeWheel.Addr? then [SetNonRealtime(Load(mem, b.freeWheel) > 0.5)] else [])
  }

  /** Writing the latency output keeps every port readable. */
  lemma LatencyStoreKeepsPorts(mem: Memory, b: PortBindings, v: real, n: nat)
    requires ControlMemory(mem, b)
    ensures ControlMemory(Store(mem, b.latency, v), b)
    ensures AudioMemory(mem, b, n) ==> AudioMemory(Store(mem, b.latency, v), b, n)
  {
    var m1 := Store(mem, b.latency, v);
    if AudioMemory(mem, b, n) {
      SameShapeKeepsBuffers(mem, m1, b.audioIns, n);
      SameShapeKeepsBuffers(mem, m1, b.audioOuts, n);
    }
  }

  class JuceLv2Wrapper {
    /** Whether the instance accepted its engine. */
    const ok: bool
    /** Which optional ports are compiled in. */
    const flags: Flags
    /** The engine's parameter list, bypass included. */
    const params: seq<Param>
    const numInputs: nat
    const numOutputs: nat
    const numControls: nat
    const sampleRate: real
    const bufferSize: int
    var ports: PortBindings
    /** The channel pointers handed to the engine; allocated while active. */
    var audioBuffers: array?<Ptr>
    /** The last value seen for each parameter, bypass included. */
    var lastControlValues: seq<real>
    /** Engine calls, diagnostics and sample copies, oldest first. */
    var trace: seq<Effect>

    /** The state of an instance that accepted its engine. */
    ghost predicate Valid()
      reads this
    {
      && ok
      && SupportedIo(numInputs, numOutputs)
      && numControls == |params| && numControls >= 2
      && |ports.audioIns| == numInputs && |ports.audioOuts| == numOutputs
      && |ports.controls| == numControls
      && |lastControlValues| == numControls
    }

    /** Between activation and deactivation the channel array has one slot per channel. */
    ghost predicate Active()
      reads this
    {
      audioBuffers != null && audioBuffers.Length == Max(numInputs, numOutputs)
    }

    /**
     * Validates the engine in the order of the checks: an engine exists,
     * it has one or two inputs and outputs, it has a bypass parameter and
     * at least two parameters.  A refused engine leaves one diagnostic;
     * an accepted one gets unbound ports and a cache seeded from the
     * parameters' current values.
     */
    constructor (sampleRate: real, bufferSize: int, engine: Option<EngineShape>, flags: Flags)
      ensures this.flags == flags
      ensures ok <==> Validate(engine).Pass?
      ensures ok ==> Valid()
      ensures !ok ==> trace == [LogError(Validate(engine).error)]
      ensures engine.Some? ==>
        && params == engine.value.params
        && numInputs == engine.value.numInputs && numOutputs == engine.value.numOutputs
        && numControls == |engine.value.params|
      ensures ok ==>
        && trace == []
        && this.sampleRate == sampleRate && this.bufferSize == bufferSize
        && ports == Unbound(numInputs, numOutputs, numControls)
        && lastControlValues == SeedCache(params)
      ensures audioBuffers == null
    {
      this.flags := flags;
      var ps: seq<Param> := [];
      var nIn: nat, nOut: nat := 0, 0;
      var error: Option<InitError> := None;
      if engine.None? {
        error := Some(MissingEngine);
      } else {
        var e := engine.value;
        ps, nIn, nOut := e.params, e.numInputs, e.numOutputs;
        if nIn < 1 || nOut < 1 || nIn > 2 || nOut > 2 {
          error := Some(IncompatibleIo);
        } else if !e.hasBypass {
          error := Some(MissingBypass);
        } else if |ps| <= 1 {
          error := Some(NoParameters);
        }
      }
      var cache: seq<real> := [];
      if error.None? {
        cache := seq(|ps|, _ => 0.0);
        for i := 0 to |ps|
          invariant |cache| == |ps|
          invariant forall j :: 0 <= j < i ==> cache[j] == NativeValue(ps[j])
        {
          var p := ps[i];
          if p.ranged {
            cache := cache[i := p.fromNormalised(p.value)];
          } else {
            cache := cache[i := p.value];
          }
        }
      }
      ok := error.None?;
      params, numInputs, numOutputs, numControls := ps, nIn, nOut, |ps|;
      this.sampleRate, this.bufferSize := if error.None? then sampleRate else 0.0, if error.None? then bufferSize else 0;
      ports := Unbound(nIn, nOut, |ps|);
      audioBuffers := null;
      lastControlValues := cache;
      trace := if error.Some? then [LogError(error.value)] else [];
    }

    /**
     * Connects host pointer `data` to flat port `port`: the index is
     * narrowed by subtracting each group's size in port order, the binding
     * of the role it lands on is replaced, and an index past the control
     * slots is ignored.
     */
    method Connect(port: nat, data: Ptr)
      requires Valid()
      modifies this`ports
      ensures Valid()
      ensures ports == Bind(old(ports), PortRole(port, numInputs, numOutputs, numControls, flags), data)
    {
      ghost var role := PortRole(port, numInputs, numOutputs, numControls, flags);
      var p: int := port;
      if p < numInputs {
        ports := ports.(audioIns := ports.audioIns[p := data]);
        return;
      }
      p := p - numInputs;
      if p < numOutputs {
        ports := ports.(audioOuts := ports.audioOuts[p := data]);
        return;
      }
      p := p - numOutputs;
      if p == 0 {
        ports := ports.(enabled := data);
        return;
      }
      p := p - 1;
      if p == 0 {
        ports := ports.(reset := data);
        return;
      }
      p := p - 1;
      if flags.freeWheel {
        if p == 0 {
          ports := ports.(freeWheel := data);
          return;
        }
        p := p - 1;
      }
      if flags.latency {
        if p == 0 {
          ports := ports.(latency := data);
          return;
        }
        p := p - 1;
      }
      assert p == port - ControlBase(numInputs, numOutputs, flags);
      if p < numControls {
        ports := ports.(controls := ports.controls[p := data]);
        return;
      }
      assert role.Unused?;
    }

    /** Prepares the engine for the host's rate and block size and allocates the channel array. */
    method Activate()
      requires Valid()
      modifies this`audioBuffers, this`trace
      ensures Valid() && Active() && fresh(audioBuffers)
      ensures forall i :: 0 <= i < audioBuffers.Length ==> audioBuffers[i] == Null
      ensures trace == old(trace) + [PrepareToPlay(sampleRate, bufferSize),
                                     SetPlayConfigDetails(numInputs, numOutputs, sampleRate, bufferSize)]
    {
      trace := trace + [PrepareToPlay(sampleRate, bufferSize)];
      trace := trace + [SetPlayConfigDetails(numInputs, numOutputs, sampleRate, bufferSize)];
      audioBuffers := new Ptr[Max(numInputs, numOutputs)](_ => Null);
    }

    /** Frees the channel array and releases the engine's resources. */
    method Deactivate()
      requires Valid()
      modifies this`audioBuffers, this`trace
      ensures Valid() && audioBuffers == null
      ensures trace == old(trace) + [ReleaseResources]
    {
      audioBuffers := null;
      trace := trace + [ReleaseResources];
    }

    /**
     * Processes one block of `sampleCount` samples.  `suspended` and
     * `latencySamples` are what the engine answers when asked.
     */
    method Run(sampleCount: nat, mem: Memory, suspended: bool, latencySamples: int) returns (mem': Memory)
      requires Valid() && Active()
      requires ControlMemory(mem, ports)
      requires sampleCount > 0 ==> AudioMemory(mem, ports, sampleCount)
      modifies this`lastControlValues, this`trace, audioBuffers
      ensures Valid() && Active()
      ensures sampleCount == 0 ==>
        && mem' == Store(mem, ports.latency, latencySamples as real)
        && lastControlValues == old(lastControlValues)
        && audioBuffers[..] == old(audioBuffers[..])
        && trace == old(trace) + PreludeEffects(ports, mem)
      ensures sampleCount > 0 ==>
        var m1 := Store(mem, ports.latency, latencySamples as real);
        && ControlPortsHeld(m1, ports) && AudioMemory(m1, ports, sampleCount)
        && var rs := Readings(params, ports, m1);
        && var m2 := CopyInputs(m1, ports.audioIns, ports.audioOuts, sampleCount, numOutputs);
        && var view := ChannelView(ports.audioIns, ports.audioOuts);
        && lastControlValues == Synced(old(lastControlValues), rs)
        && audioBuffers[..] == view
        && mem' == (if suspended then ClearOutputs(m2, ports.audioOuts, sampleCount, numOutputs) else m2)
        && trace == old(trace) + PreludeEffects(ports, mem)
                    + SyncEffects(params, old(lastControlValues), rs, numControls)
                    + CopyEffects(ports.audioIns, ports.audioOuts, sampleCount, numOutputs)
                    + (if suspended then [] else [ProcessBlock(view, sampleCount)])
    {
      mem' := RunPrelude(mem, latencySamples);
      LatencyStoreKeepsPorts(mem, ports, latencySamples as real, sampleCount);
      if sampleCount == 0 {
        return;
      }
      ghost var m1, t1 := mem', trace;
      SyncParameters(mem');
      ghost var t2 := trace;
      mem' := PrepareBuffers(sampleCount, mem');
      assert trace == t2 + CopyEffects(ports.audioIns, ports.audioOuts, sampleCount, numOutputs);
      if suspended {
        mem' := ClearBuffers(sampleCount, mem');
      } else {
        trace := trace + [ProcessBlock(audioBuffers[..], sampleCount)];
      }
    }

    /**
     * What every call to `Run` does first, even for an empty block: reset
     * the engine when asked, pass on the free-wheel state, and report the
     * latency.
     */
    method RunPrelude(mem: Memory, latencySamples: int) returns (mem': Memory)
      requires ControlMemory(mem, ports)
      modifies this`trace
      ensures trace == old(trace) + PreludeEffects(ports, mem)
      ensures mem' == Store(mem, ports.latency, latencySamples as real)
    {
      ghost var t0 := trace;
      if ports.reset.Addr? && Load(mem, ports.reset) > 0.5 {
        trace := trace + [ResetEngine];
      }
      if ports.freeWheel.Addr? {
        trace := trace + [SetNonRealtime(Load(mem, ports.freeWheel) > 0.5)];
      }
      assert trace == t0 + PreludeEffects(ports, mem);
      mem' := mem;
      if ports.latency.Addr? {
        mem' := Store(mem', ports.latency, latencySamples as real);
      }
    }

    /**
     * The parameter loop of a block: `offset` counts the bypass entries
     * passed so far, so a regular parameter reads control slot
     * `i - offset`.
     */
    method SyncParameters(mem: Memory)
      requires Valid() && ControlPortsHeld(mem, ports)
      modifies this`lastControlValues, this`trace
      ensures Valid()
      ensures lastControlValues == Synced(old(lastControlValues), Readings(params, ports, mem))
      ensures trace == old(trace) + SyncEffects(params, old(lastControlValues), Readings(params, ports, mem), numControls)
    {
      ghost var cache := lastControlValues;
      ghost var rs := Readings(params, ports, mem);
      var values, b := lastControlValues, ports;
      var calls := [];
      var offset := 0;
      for i := 0 to numControls
        modifies {}
        invariant offset == BypassBefore(params, i)
        invariant values == SyncedUpTo(cache, rs, i)
        invariant calls == SyncEffects(params, cache, rs, i)
      {
        assert rs[i] == Reading(params, b, mem, i);
        assert i - offset == ControlSlot(params, i);
        var parameter := params[i];
        var value: real;
        if parameter.isBypass {
          offset := offset + 1;
          if b.enabled.Null? {
            SyncStep(params, cache, rs, i);
            continue;
          }
          value := 1.0 - Load(mem, b.enabled);
        } else {
          if b.controls[i - offset].Null? {
            SyncStep(params, cache, rs, i);
            continue;
          }
          value := Load(mem, b.controls[i - offset]);
        }
        assert rs[i] == Some(value);
        SyncStep(params, cache, rs, i);
        if ApproximatelyEqual(values[i], value) {
          continue;
        }
        assert Changed(cache, rs, i);
        values := values[i := value];
        if parameter.ranged {
          value := parameter.toNormalised(value);
        }
        assert value == EngineValue(params[i], rs[i].value);
        calls := calls + [SetValueNotifyingHost(i, value)];
      }
      SyncedUpToAll(cache, rs);
      lastControlValues := values;
      trace := trace + calls;
    }

    /**
     * Fills the channel array: output slots point at the outputs, each of
     * which first receives its input unless the host passed the same
     * buffer for both; the remaining slots point at the inputs.
     */
    method PrepareBuffers(n: nat, mem: Memory) returns (mem': Memory)
      requires Valid() && Active() && AudioMemory(mem, ports, n)
      modifies this`trace, audioBuffers
      ensures audioBuffers[..] == ChannelView(ports.audioIns, ports.audioOuts)
      ensures mem' == CopyInputs(mem, ports.audioIns, ports.audioOuts, n, numOutputs)
      ensures trace == old(trace) + CopyEffects(ports.audioIns, ports.audioOuts, n, numOutputs)
    {
      var ins, outs, buffers := ports.audioIns, ports.audioOuts, audioBuffers;
      mem' := mem;
      var copies := [];
      var i := 0;
      while i < numOutputs
        modifies buffers
        invariant 0 <= i <= numOutputs
        invariant mem' == CopyInputs(mem, ins, outs, n, i)
        invariant copies == CopyEffects(ins, outs, n, i)
        invariant forall j :: 0 <= j < i ==> buffers[j] == outs[j]
      {
        CopyInputsNext(mem, ins, outs, n, i);
        buffers[i] := outs[i];
        if i < numInputs && ins[i] != outs[i] {
          mem' := CopySamples(mem', outs[i], ins[i], n);
          copies := copies + [CopyChannel(i, n)];
        }
        i := i + 1;
      }
      while i < numInputs
        modifies buffers
        invariant numOutputs <= i <= Max(numInputs, numOutputs)
        invariant forall j :: 0 <= j < numOutputs ==> buffers[j] == outs[j]
        invariant forall j :: numOutputs <= j < i ==> buffers[j] == ins[j]
      {
        buffers[i] := ins[i];
        i := i + 1;
      }
      assert buffers[..] == ChannelView(ins, outs);
      trace := trace + copies;
    }

    /** A suspended engine: the first `n` samples of every output are silenced. */
    method ClearBuffers(n: nat, mem: Memory) returns (mem': Memory)
      requires Valid() && AllBuffers(mem, ports.audioOuts, n)
      ensures mem' == ClearOutputs(mem, ports.audioOuts, n, numOutputs)
    {
      var outs := ports.audioOuts;
      mem' := mem;
      for i := 0 to numOutputs
        invariant mem' == ClearOutputs(mem, outs, n, i)
      {
        SameShapeKeepsBuffers(mem, mem', outs, n);
        mem' := ClearSamples(mem', outs[i], n);
      }
    }
  }
}
