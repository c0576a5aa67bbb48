/**
 * The wrapped audio engine, reduced to what the LV2 adapter observes of
 * it: its channel counts after bus configuration, its ordered parameter
 * list, whether it designates a bypass parameter, the checks the adapter
 * makes before accepting it, and the calls the adapter makes into it.
 */
module Engine {
  import opened Common
  import opened HostMemory

  datatype ScalePoint = ScalePoint(caption: string, value: real)

  /**
   * One engine parameter.  `value` is the normalised value (getValue);
   * a ranged parameter converts between its native range and [0, 1] with
   * `fromNormalised` / `toNormalised`.  `isBypass` says that this entry of
   * the list is the engine's bypass parameter.  `ttlName` is the parameter
   * id after URL escaping and sanitising to a Turtle name.  `scalePoints`
   * is `Some` exactly for parameters that carry explicit scale points.
   */
  datatype Param = Param(
    ttlName: string,
    name: string,
    value: real,
    ranged: bool,
    rangeStart: real,
    rangeEnd: real,
    fromNormalised: real -> real,
    toNormalised: real -> real,
    unitLabel: string,
    isBypass: bool,
    isBoolean: bool,
    isAutomatable: bool,
    isDiscrete: bool,
    numSteps: int,
    valueStrings: seq<string>,
    scalePoints: Option<seq<ScalePoint>>)

  /** The engine once its buses are enabled and its parameter list refreshed. */
  datatype EngineShape = EngineShape(
    name: string,
    numInputs: nat,
    numOutputs: nat,
    params: seq<Param>,
    hasBypass: bool,
    alternateNames: seq<string>)

  /** The parameter's current value in its native domain. */
  function NativeValue(p: Param): real
  {
    if p.ranged then p.fromNormalised(p.value) else p.value
  }

  /** A host control value converted to what the engine's setter expects. */
  function EngineValue(p: Param, v: real): real
  {
    if p.ranged then p.toNormalised(v) else v
  }

  //----------------------------------------------------------------------
  // Shape validation, shared by instantiation and descriptor emission

  datatype InitError =
    | MissingFeature(uri: string)
    | MissingOption(uri: string)
    | MissingEngine
    | IncompatibleIo
    | MissingBypass
    | NoParameters

  datatype Outcome = Pass | Fail(error: InitError)

  predicate SupportedIo(numInputs: nat, numOutputs: nat)
  {
    1 <= numInputs <= 2 && 1 <= numOutputs <= 2
  }

  /** The engine shapes the adapter accepts. */
  predicate Supported(e: EngineShape)
  {
    SupportedIo(e.numInputs, e.numOutputs) && e.hasBypass && |e.params| >= 2
  }

  /**
   * The checks made, in order, before an engine is accepted; the first
   * failing one decides the diagnostic.
   */
  function Validate(engine: Option<EngineShape>): (r: Outcome)
    ensures r.Pass? <==> engine.Some? && Supported(engine.value)
    ensures r == Fail(MissingEngine) <==> engine.None?
    ensures r == Fail(IncompatibleIo) <==>
      engine.Some? && !SupportedIo(engine.value.numInputs, engine.value.numOutputs)
    ensures r == Fail(MissingBypass) <==>
      engine.Some? && SupportedIo(engine.value.numInputs, engine.value.numOutputs) && !engine.value.hasBypass
    ensures r == Fail(NoParameters) <==>
      engine.Some? && SupportedIo(engine.value.numInputs, engine.value.numOutputs) && engine.value.hasBypass
      && |engine.value.params| <= 1
  {
    if engine.None? then Fail(MissingEngine)
    else
      var e := engine.value;
      if e.numInputs < 1 || e.numOutputs < 1 || e.numInputs > 2 || e.numOutputs > 2 then Fail(IncompatibleIo)
      else if !e.hasBypass then Fail(MissingBypass)
      else if |e.params| <= 1 then Fail(NoParameters)
      else Pass
  }

  /** The seeded parameter cache: one slot per parameter, bypass included. */
  function SeedCache(params: seq<Param>): (r: seq<real>)
    ensures |r| == |params|
    ensures forall i :: 0 <= i < |params| ==> r[i] == NativeValue(params[i])
  {
    seq(|params|, i requires 0 <= i < |params| => NativeValue(params[i]))
  }

  //----------------------------------------------------------------------
  // Where the bypass parameter sits in the parameter list

  /** The number of bypass entries among the first `i` parameters. */
  function BypassBefore(params: seq<Param>, i: nat): (r: nat)
    requires i <= |params|
    ensures r <= i
  {
    if i == 0 then 0
    else BypassBefore(params, i - 1) + (if params[i - 1].isBypass then 1 else 0)
  }

  function BypassCount(params: seq<Param>): nat
  {
    BypassBefore(params, |params|)
  }

  /**
   * The control port slot of parameter `i`: its position in the list with
   * the bypass entries before it skipped.
   */
  function ControlSlot(params: seq<Param>, i: nat): nat
    requires i < |params|
  {
    i - BypassBefore(params, i)
  }

  /** Between positions `i` and `j` there are at most `j - i` bypass entries, one fewer when `i` is not one. */
  lemma {:induction false} BypassBetween(params: seq<Param>, i: nat, j: nat)
    requires i <= j <= |params|
    ensures BypassBefore(params, j) - BypassBefore(params, i) <= j - i
    ensures i < j && !params[i].isBypass ==> BypassBefore(params, j) - BypassBefore(params, i) <= j - i - 1
    decreases j - i
  {
    if i < j {
      BypassBetween(params, i, j - 1);
      if i == j - 1 {
        assert BypassBefore(params, j) == BypassBefore(params, i) + (if params[i].isBypass then 1 else 0);
      }
    }
  }

  /**
   * The slots of the non-bypass parameters are strictly increasing in
   * list order and all lie below the number of non-bypass parameters.
   */
  lemma ControlSlotOrder(params: seq<Param>, i: nat, j: nat)
    requires i < j < |params| && !params[i].isBypass && !params[j].isBypass
    ensures ControlSlot(params, i) < ControlSlot(params, j)
  {
    BypassBetween(params, i, j);
  }

  lemma ControlSlotBound(params: seq<Param>, i: nat)
    requires i < |params| && !params[i].isBypass
    ensures ControlSlot(params, i) < |params| - BypassCount(params)
  {
    BypassBetween(params, i, |params|);
  }

  //----------------------------------------------------------------------
  // What the adapter does to the outside world

  /**
   * One externally visible effect: a call into the engine, a diagnostic
   * written to the host's log, or a sample copy between host buffers.
   */
  datatype Effect =
    | LogError(error: InitError)
    | PrepareToPlay(sampleRate: real, blockSize: int)
    | SetPlayConfigDetails(inputs: nat, outputs: nat, sampleRate: real, blockSize: int)
    | ReleaseResources
    | ResetEngine
    | SetNonRealtime(nonRealtime: bool)
    | SetValueNotifyingHost(param: nat, value: real)
    | CopyChannel(channel: nat, samples: nat)
    | ProcessBlock(channels: seq<Ptr>, samples: nat)

  //----------------------------------------------------------------------
  // Approximate equality of floats, with the default tolerances of the
  // framework: absolute FLT_MIN (2^-126) and relative FLT_EPSILON (2^-23).

  const AbsoluteTolerance: real := 1.0 / 85070591730234615865843651857942052864.0
  const RelativeTolerance: real := 1.0 / 8388608.0

  function Abs(x: real): real
  {
    if x < 0.0 then -x else x
  }

  predicate ApproximatelyEqual(a: real, b: real)
  {
    var diff := Abs(a - b);
    diff <= AbsoluteTolerance || diff <= RelativeTolerance * Max0(Abs(a), Abs(b))
  }

  function Max0(a: real, b: real): real
  {
    if a >= b then a else b
  }

  lemma ApproximatelyEqualReflexive(a: real)
    ensures ApproximatelyEqual(a, a)
  {
  }
}
