/**
 * The plugin's self-description (the "dsp.ttl" document), reduced to what
 * matters to a host: the list of port records in the order they are
 * declared, the bracket structure of the `lv2:port` list that holds them,
 * the plugin's name and its optional abbreviation.
 *
 * The document writes ports as `lv2:port [ ... ] , [ ... ] ;` groups.  The
 * model keeps each group's brackets as items: `Open` is "lv2:port [",
 * `Sep` is "] , [", `Close` is "] ;".
 */
module Descriptor {
  import opened Common
  import opened Engine
  import opened PortTable
  import opened TtlText

  datatype Scale =
    | NoScale
    | Explicit(points: seq<ScalePoint>)
    | Enumeration(labels: seq<string>)

  /** What is declared about a control port's value. */
  datatype ControlInfo = ControlInfo(
    defaultValue: real,
    minimum: real,
    maximum: real,
    dbUnit: bool,
    toggled: bool,
    expensive: bool,
    scale: Scale)

  datatype PortRecord = PortRecord(index: nat, role: Role, symbol: string, name: string, control: Option<ControlInfo>)

  datatype Item = Open | Sep | Close | Port(port: PortRecord)

  datatype Description = Description(items: seq<Item>, pluginName: string, abbreviation: Option<string>)

  datatype RecallOutput = Refused(error: InitError) | Written(description: Description)

  /** The port records of an item list, in order. */
  function Ports(items: seq<Item>): seq<PortRecord>
  {
    if |items| == 0 then []
    else Ports(items[..|items| - 1]) + (if items[|items| - 1].Port? then [items[|items| - 1].port] else [])
  }

  lemma PortsSnoc(a: seq<Item>, x: Item)
    ensures Ports(a + [x]) == Ports(a) + (if x.Port? then [x.port] else [])
  {
    assert (a + [x])[..|a|] == a;
  }

  lemma PortsSnocPort(a: seq<Item>, r: PortRecord)
    ensures Ports(a + [Port(r)]) == Ports(a) + [r]
  {
    assert (a + [Port(r)])[..|a|] == a;
  }

  lemma PortsSnocBracket(a: seq<Item>, x: Item)
    requires !x.Port?
    ensures Ports(a + [x]) == Ports(a)
  {
    assert (a + [x])[..|a|] == a;
  }

  lemma {:induction false} PortsAppend(a: seq<Item>, b: seq<Item>)
    ensures Ports(a + b) == Ports(a) + Ports(b)
    decreases |b|
  {
    if |b| > 0 {
      var b0, x := b[..|b| - 1], b[|b| - 1];
      assert b == b0 + [x];
      assert a + b == (a + b0) + [x];
      PortsAppend(a, b0);
      PortsSnoc(a + b0, x);
      PortsSnoc(b0, x);
    } else {
      assert a + b == a;
    }
  }

  //----------------------------------------------------------------------
  // Bracket structure

  /** Where a reader of the port list stands: outside a group, expecting a port, or after one. */
  datatype Bracket = Outside | Expecting | AfterPort | Broken

  function Step(s: Bracket, it: Item): Bracket
  {
    match s
    case Outside => if it.Open? then Expecting else Broken
    case Expecting => if it.Port? then AfterPort else Broken
    case AfterPort => if it.Sep? then Expecting else if it.Close? then Outside else Broken
    case Broken => Broken
  }

  function Scan(s: Bracket, items: seq<Item>): Bracket
  {
    if |items| == 0 then s else Step(Scan(s, items[..|items| - 1]), items[|items| - 1])
  }

  lemma ScanSnoc(s: Bracket, a: seq<Item>, x: Item)
    ensures Scan(s, a + [x]) == Step(Scan(s, a), x)
  {
    assert (a + [x])[..|a|] == a;
  }

  lemma {:induction false} ScanAppend(s: Bracket, a: seq<Item>, b: seq<Item>)
    ensures Scan(s, a + b) == Scan(Scan(s, a), b)
    decreases |b|
  {
    if |b| > 0 {
      var b0, x := b[..|b| - 1], b[|b| - 1];
      assert b == b0 + [x];
      assert a + b == (a + b0) + [x];
      ScanAppend(s, a, b0);
      ScanSnoc(s, a + b0, x);
      ScanSnoc(Scan(s, a), b0, x);
    } else {
      assert a + b == a;
    }
  }

  /** Every group is opened, holds ports separated by `Sep`, and is closed. */
  predicate WellFormed(items: seq<Item>)
  {
    Scan(Outside, items) == Outside
  }

  //----------------------------------------------------------------------
  // Audio ports

  function AudioSymbol(input: bool, count: nat, c: nat): string
  {
    (if input then "lv2_audio_in" else "lv2_audio_out") + (if count == 1 then "" else "_" + NatToString(c + 1))
  }

  function AudioName(input: bool, count: nat, c: nat): string
  {
    (if input then "Audio Input" else "Audio Output") + (if count == 1 then "" else " " + NatToString(c + 1))
  }

  function AudioPort(input: bool, count: nat, c: nat, index: nat): (r: PortRecord)
    ensures r.index == index && r.role == if input then AudioIn(c) else AudioOut(c)
  {
    PortRecord(index, if input then AudioIn(c) else AudioOut(c), AudioSymbol(input, count, c), AudioName(input, count, c), None)
  }

  /**
   * The first `k` records of a group that holds all of `recs`: the group
   * is opened before the first record and closed after the last.
   */
  function Group(recs: seq<PortRecord>, k: nat): seq<Item>
    requires k <= |recs|
  {
    if k == 0 then []
    else
      var before := Group(recs, k - 1);
      var started := if k == 1 then before + [Open] else before;
      started + [Port(recs[k - 1])] + [if k == |recs| then Close else Sep]
  }

  /** A group is open exactly while it is being listed. */
  lemma {:induction false} GroupScan(recs: seq<PortRecord>, k: nat)
    requires k <= |recs|
    ensures Scan(Outside, Group(recs, k)) == if 0 < k < |recs| then Expecting else Outside
  {
    if k > 0 {
      var before := Group(recs, k - 1);
      var started := if k == 1 then before + [Open] else before;
      var withPort := started + [Port(recs[k - 1])];
      var last := if k == |recs| then Close else Sep;
      assert Scan(Outside, started) == Expecting by {
        GroupScan(recs, k - 1);
        if k == 1 {
          ScanSnoc(Outside, before, Open);
        }
      }
      ScanSnoc(Outside, started, Port(recs[k - 1]));
      ScanSnoc(Outside, withPort, last);
      assert Group(recs, k) == withPort + [last];
    }
  }

  /** A group declares its records in order. */
  lemma {:induction false} GroupPorts(recs: seq<PortRecord>, k: nat)
    requires k <= |recs|
    ensures Ports(Group(recs, k)) == recs[..k]
  {
    if k > 0 {
      var before := Group(recs, k - 1);
      var started := if k == 1 then before + [Open] else before;
      var withPort := started + [Port(recs[k - 1])];
      assert Ports(started) == recs[..k - 1] by {
        GroupPorts(recs, k - 1);
        if k == 1 {
          PortsSnocBracket(before, Open);
        }
      }
      assert Ports(withPort) == recs[..k] by {
        PortsSnocPort(started, recs[k - 1]);
        assert recs[..k] == recs[..k - 1] + [recs[k - 1]];
      }
      PortsSnocBracket(withPort, if k == |recs| then Close else Sep);
    }
  }

  /** The audio ports of one direction, numbered from `base`. */
  function AudioRecords(input: bool, count: nat, base: nat): (r: seq<PortRecord>)
    ensures |r| == count
    ensures forall c :: 0 <= c < count ==> r[c] == AudioPort(input, count, c, base + c)
  {
    seq(count, c requires 0 <= c < count => AudioPort(input, count, c, base + c))
  }

  /** A whole group is balanced and declares its records in order. */
  lemma GroupShape(recs: seq<PortRecord>)
    ensures Scan(Outside, Group(recs, |recs|)) == Outside
    ensures Ports(Group(recs, |recs|)) == recs
  {
    GroupScan(recs, |recs|);
    GroupPorts(recs, |recs|);
    assert recs[..|recs|] == recs;
  }

  /**
   * The audio ports have pairwise different symbols, also when one side has
   * a single unnumbered port and the other two numbered ones.
   */
  lemma AudioSymbolsDistinct(input1: bool, c1: nat, input2: bool, c2: nat, numInputs: nat, numOutputs: nat)
    requires input1 != input2 || c1 != c2
    requires c1 < (if input1 then numInputs else numOutputs)
    requires c2 < (if input2 then numInputs else numOutputs)
    ensures AudioSymbol(input1, if input1 then numInputs else numOutputs, c1)
         != AudioSymbol(input2, if input2 then numInputs else numOutputs, c2)
  {
    var count1, count2 := if input1 then numInputs else numOutputs, if input2 then numInputs else numOutputs;
    var s1, s2 := AudioSymbol(input1, count1, c1), AudioSymbol(input2, count2, c2);
    if input1 != input2 {
      assert s1[10] != s2[10];
    } else if s1 == s2 {
      var count := count1;
      assert count != 1;
      var p := if input1 then "lv2_audio_in_" else "lv2_audio_out_";
      assert s1 == p + NatToString(c1 + 1) && s2 == p + NatToString(c2 + 1);
      assert NatToString(c1 + 1) == s1[|p|..] == s2[|p|..] == NatToString(c2 + 1);
      NatToStringInjective(c1 + 1, c2 + 1);
    }
  }

  //----------------------------------------------------------------------
  // The fixed ports

  const EnabledInfo: ControlInfo := ControlInfo(1.0, 0.0, 1.0, false, true, false, NoScale)
  const SwitchInfo: ControlInfo := ControlInfo(0.0, 0.0, 1.0, false, true, false, NoScale)

  /** The roles of the fixed ports, in order: "enabled", "reset", then the optional free-wheel and latency ports. */
  function FixedRoles(f: Flags): (r: seq<Role>)
    ensures |r| == 2 + OptionalPorts(f)
    ensures forall j :: 0 <= j < |r| ==> r[j].Enabled? || r[j].Reset? || r[j].FreeWheel? || r[j].Latency?
  {
    [Enabled, Reset] + (if f.freeWheel then [FreeWheel] else []) + (if f.latency then [Latency] else [])
  }

  /** The record of a fixed port. */
  function FixedRecord(role: Role, index: nat): (r: PortRecord)
    requires role.Enabled? || role.Reset? || role.FreeWheel? || role.Latency?
    ensures r.role == role && r.index == index
  {
    match role
    case Enabled => PortRecord(index, role, "lv2_enabled", "Enabled", Some(EnabledInfo))
    case Reset => PortRecord(index, role, "lv2_reset", "Reset", Some(SwitchInfo))
    case FreeWheel => PortRecord(index, role, "lv2_freeWheeling", "Free Wheeling", Some(SwitchInfo))
    case Latency => PortRecord(index, role, "lv2_latency", "Latency", None)
  }

  /** No audio port shares its symbol with a fixed port. */
  lemma AudioSymbolNotFixed(input: bool, count: nat, c: nat, role: Role, index: nat)
    requires role.Enabled? || role.Reset? || role.FreeWheel? || role.Latency?
    ensures AudioSymbol(input, count, c) != FixedRecord(role, index).symbol
  {
    assert AudioSymbol(input, count, c)[4] == 'a';
    assert FixedRecord(role, index).symbol[4] != 'a';
  }

  /** The fixed ports, declared right after the audio ports. */
  function FixedRecords(numInputs: nat, numOutputs: nat, f: Flags): (r: seq<PortRecord>)
    ensures |r| == |FixedRoles(f)|
    ensures forall j :: 0 <= j < |r| ==> r[j].index == numInputs + numOutputs + j && r[j].role == FixedRoles(f)[j]
  {
    var roles := FixedRoles(f);
    seq(|roles|, j requires 0 <= j < |roles| => FixedRecord(roles[j], numInputs + numOutputs + j))
  }

  /** Records each followed by a separator. */
  function Continued(recs: seq<PortRecord>, k: nat): seq<Item>
    requires k <= |recs|
  {
    if k == 0 then [] else Continued(recs, k - 1) + [Port(recs[k - 1])] + [Sep]
  }

  lemma {:induction false} ContinuedScan(recs: seq<PortRecord>, k: nat)
    requires k <= |recs|
    ensures Scan(Expecting, Continued(recs, k)) == Expecting
  {
    if k > 0 {
      var before := Continued(recs, k - 1);
      var withPort := before + [Port(recs[k - 1])];
      assert Scan(Expecting, withPort) == AfterPort by {
        ContinuedScan(recs, k - 1);
        ScanSnoc(Expecting, before, Port(recs[k - 1]));
      }
      ScanSnoc(Expecting, withPort, Sep);
    }
  }

  lemma {:induction false} ContinuedPorts(recs: seq<PortRecord>, k: nat)
    requires k <= |recs|
    ensures Ports(Continued(recs, k)) == recs[..k]
  {
    if k > 0 {
      var before := Continued(recs, k - 1);
      var withPort := before + [Port(recs[k - 1])];
      assert Ports(withPort) == recs[..k] by {
        ContinuedPorts(recs, k - 1);
        PortsSnocPort(before, recs[k - 1]);
        assert recs[..k] == recs[..k - 1] + [recs[k - 1]];
      }
      PortsSnocBracket(withPort, Sep);
    }
  }

  /** A group that is opened and left open for more ports, as the fixed ports leave it for the parameters. */
  function Opened(recs: seq<PortRecord>): seq<Item>
  {
    [Open] + Continued(recs, |recs|)
  }

  /** After an opened group the list expects a port, and the group declares its records in order. */
  lemma OpenedShape(recs: seq<PortRecord>)
    ensures Scan(Outside, Opened(recs)) == Expecting
    ensures Ports(Opened(recs)) == recs
  {
    var body := Continued(recs, |recs|);
    assert [] + [Open] == [Open];
    assert Scan(Outside, [Open] + body) == Expecting by {
      ScanSnoc(Outside, [], Open);
      ScanAppend(Outside, [Open], body);
      ContinuedScan(recs, |recs|);
    }
    assert Ports([Open] + body) == recs by {
      PortsSnocBracket([], Open);
      PortsAppend([Open], body);
      ContinuedPorts(recs, |recs|);
      assert recs[..|recs|] == recs;
    }
  }

  /** Fixed port `j` has the role that connecting flat port `numInputs + numOutputs + j` binds. */
  lemma FixedRolesInOrder(numInputs: nat, numOutputs: nat, numControls: nat, f: Flags)
    ensures var roles := FixedRoles(f);
      forall j :: 0 <= j < |roles| ==> PortRole(numInputs + numOutputs + j, numInputs, numOutputs, numControls, f) == roles[j]
  {
  }

  //----------------------------------------------------------------------
  // Parameter ports

  /** The parameter's Turtle name with '-' turned into '_', which symbols may not contain. */
  function Symbol(p: Param): (r: string)
    ensures '-' !in r
  {
    ReplaceRemoves(p.ttlName, '-', '_');
    Replace(p.ttlName, '-', '_')
  }

  /** The scale points declared for a parameter. */
  function ScaleOf(p: Param): Scale
  {
    if p.scalePoints.Some? then
      if |p.scalePoints.value| > 0 then Explicit(p.scalePoints.value) else NoScale
    else if p.isDiscrete && !p.isBoolean && p.numSteps >= 2 then
      if |p.valueStrings| > 0 then Enumeration(p.valueStrings) else NoScale
    else NoScale
  }

  function ControlInfoOf(p: Param): ControlInfo
  {
    var lo := if p.ranged then p.rangeStart else 0.0;
    var hi := if p.ranged then p.rangeEnd else 1.0;
    ControlInfo(NativeValue(p), lo, hi, p.ranged && p.unitLabel == "dB", p.isBoolean, !p.isAutomatable, ScaleOf(p))
  }

  /** The record of regular parameter `i`, declared at `index`. */
  function ParamPort(params: seq<Param>, i: nat, index: nat): (r: PortRecord)
    requires i < |params|
    ensures r.index == index && r.role == Control(ControlSlot(params, i))
  {
    var slot := ControlSlot(params, i);
    PortRecord(index, Control(slot), Symbol(params[i]), DisplayName(params[i].name, slot), Some(ControlInfoOf(params[i])))
  }

  /** The two rules for closing the port list after a parameter. */
  datatype Closing = AsWritten | Corrected

  /** Only bypass entries sit at position `k` and after it. */
  predicate OnlyBypassFrom(params: seq<Param>, k: nat)
  {
    forall j :: k <= j < |params| ==> params[j].isBypass
  }

  /**
   * Whether the list is closed after parameter `i`: as written, after the
   * last entry of the parameter list; corrected, after the last regular
   * parameter.
   */
  predicate ClosesAfter(rule: Closing, params: seq<Param>, i: nat)
    requires i < |params|
  {
    match rule
    case AsWritten => i + 1 == |params|
    case Corrected => OnlyBypassFrom(params, i + 1)
  }

  /** The record declared for every entry of the parameter list, at the index of its control slot. */
  function ParamRecords(params: seq<Param>, base: nat): (r: seq<PortRecord>)
    ensures |r| == |params|
  {
    seq(|params|, i requires 0 <= i < |params| => ParamPort(params, i, base + ControlSlot(params, i)))
  }

  /**
   * The first `k` rounds of the parameter loop, declaring `recs[i]` for
   * parameter `i`; bypass entries are skipped.
   */
  function Layout(params: seq<Param>, rule: Closing, recs: seq<PortRecord>, k: nat): seq<Item>
    requires k <= |params| == |recs|
  {
    if k == 0 then []
    else if params[k - 1].isBypass then Layout(params, rule, recs, k - 1)
    else Layout(params, rule, recs, k - 1) + [Port(recs[k - 1])] + [if ClosesAfter(rule, params, k - 1) then Close else Sep]
  }

  /** One round of the parameter loop. */
  lemma LayoutStep(params: seq<Param>, rule: Closing, recs: seq<PortRecord>, k: nat)
    requires k < |params| == |recs|
    ensures params[k].isBypass ==> Layout(params, rule, recs, k + 1) == Layout(params, rule, recs, k)
    ensures !params[k].isBypass ==>
      Layout(params, rule, recs, k + 1)
      == Layout(params, rule, recs, k) + [Port(recs[k])] + [if ClosesAfter(rule, params, k) then Close else Sep]
  {
  }

  /** The record of parameter `i`. */
  lemma ParamRecordAt(params: seq<Param>, base: nat, i: nat)
    requires i < |params|
    ensures ParamRecords(params, base)[i] == ParamPort(params, i, base + ControlSlot(params, i))
  {
  }

  /** What one round of the parameter loop appends for regular parameter `i`, declared at `index`. */
  lemma WriteParamStep(params: seq<Param>, rule: Closing, base: nat, i: nat, index: nat, closes: bool)
    requires i < |params| && !params[i].isBypass && index == base + ControlSlot(params, i)
    requires closes == ClosesAfter(rule, params, i)
    ensures Layout(params, rule, ParamRecords(params, base), i + 1)
      == Layout(params, rule, ParamRecords(params, base), i) + [Port(ParamPort(params, i, index)), if closes then Close else Sep]
  {
    LayoutStep(params, rule, ParamRecords(params, base), i);
    ParamRecordAt(params, base, i);
  }

  /** The parameter loop as a whole. */
  function ParamItems(params: seq<Param>, rule: Closing, base: nat): seq<Item>
  {
    Layout(params, rule, ParamRecords(params, base), |params|)
  }

  /** `recs` places regular parameter `i` at index `base + ControlSlot(i)` in that slot. */
  predicate InSlots(params: seq<Param>, recs: seq<PortRecord>, base: nat)
    requires |recs| == |params|
  {
    forall i {:trigger recs[i]} :: 0 <= i < |params| && !params[i].isBypass ==>
      recs[i].index == base + ControlSlot(params, i) && recs[i].role == Control(ControlSlot(params, i))
  }

  /** The records of the regular parameters among the first `k`, in order. */
  function Regular(params: seq<Param>, recs: seq<PortRecord>, k: nat): seq<PortRecord>
    requires k <= |params| == |recs|
  {
    if k == 0 then []
    else Regular(params, recs, k - 1) + (if params[k - 1].isBypass then [] else [recs[k - 1]])
  }

  /** The parameter loop declares exactly the records of the regular parameters, in order. */
  lemma {:induction false} LayoutPorts(params: seq<Param>, rule: Closing, recs: seq<PortRecord>, k: nat)
    requires k <= |params| == |recs|
    ensures Ports(Layout(params, rule, recs, k)) == Regular(params, recs, k)
  {
    if k > 0 {
      var prev := Layout(params, rule, recs, k - 1);
      assert Ports(prev) == Regular(params, recs, k - 1) by {
        LayoutPorts(params, rule, recs, k - 1);
      }
      if !params[k - 1].isBypass {
        var last := if ClosesAfter(rule, params, k - 1) then Close else Sep;
        assert Layout(params, rule, recs, k) == prev + [Port(recs[k - 1])] + [last];
        PortsSnocPort(prev, recs[k - 1]);
        PortsSnocBracket(prev + [Port(recs[k - 1])], last);
      } else {
        assert Regular(params, recs, k) == Regular(params, recs, k - 1) + [];
      }
    }
  }

  /** The record of regular parameter `i` is the one in position `ControlSlot(i)`. */
  lemma {:induction false} RegularSlots(params: seq<Param>, recs: seq<PortRecord>, k: nat)
    requires k <= |params| == |recs|
    ensures |Regular(params, recs, k)| == k - BypassBefore(params, k)
    ensures forall i :: 0 <= i < k && !params[i].isBypass ==>
      ControlSlot(params, i) < |Regular(params, recs, k)| && Regular(params, recs, k)[ControlSlot(params, i)] == recs[i]
  {
    if k > 0 {
      RegularSlots(params, recs, k - 1);
      var before := Regular(params, recs, k - 1);
      var rs := Regular(params, recs, k);
      forall i | 0 <= i < k && !params[i].isBypass ensures ControlSlot(params, i) < |rs| && rs[ControlSlot(params, i)] == recs[i] {
        if i < k - 1 {
          BypassBetween(params, i, k - 1);
          assert rs[ControlSlot(params, i)] == before[ControlSlot(params, i)];
        }
      }
    }
  }

  /** Position `j` of the regular records holds index `base + j` and control slot `j`. */
  lemma {:induction false} RegularInSlots(params: seq<Param>, recs: seq<PortRecord>, base: nat, k: nat)
    requires k <= |params| == |recs| && InSlots(params, recs, base)
    ensures forall j :: 0 <= j < |Regular(params, recs, k)| ==>
      Regular(params, recs, k)[j].index == base + j && Regular(params, recs, k)[j].role == Control(j)
  {
    if k > 0 {
      RegularInSlots(params, recs, base, k - 1);
      RegularSlots(params, recs, k - 1);
      var before := Regular(params, recs, k - 1);
      var rs := Regular(params, recs, k);
      forall j | 0 <= j < |rs| ensures rs[j].index == base + j && rs[j].role == Control(j) {
        if j < |before| {
          assert rs[j] == before[j];
        }
      }
    }
  }

  /** The number of regular parameters before `k`. */
  predicate HasRegular(params: seq<Param>, k: nat)
    requires k <= |params|
  {
    exists i :: 0 <= i < k && !params[i].isBypass
  }

  /** As written, the list is only closed after the last entry, and only if that entry is regular. */
  lemma {:induction false} LayoutScanAsWritten(params: seq<Param>, recs: seq<PortRecord>, k: nat)
    requires k <= |params| == |recs|
    ensures Scan(Expecting, Layout(params, AsWritten, recs, k))
      == if k == |params| && k > 0 && !params[k - 1].isBypass then Outside else Expecting
  {
    if k > 0 {
      LayoutScanAsWritten(params, recs, k - 1);
      if !params[k - 1].isBypass {
        var prev := Layout(params, AsWritten, recs, k - 1);
        ScanSnoc(Expecting, prev, Port(recs[k - 1]));
        ScanSnoc(Expecting, prev + [Port(recs[k - 1])], if ClosesAfter(AsWritten, params, k - 1) then Close else Sep);
      }
    }
  }

  /** Corrected, the list is closed once the last regular parameter is declared. */
  lemma {:induction false} LayoutScanCorrected(params: seq<Param>, recs: seq<PortRecord>, k: nat)
    requires k <= |params| == |recs|
    ensures Scan(Expecting, Layout(params, Corrected, recs, k))
      == if HasRegular(params, k) && OnlyBypassFrom(params, k) then Outside else Expecting
  {
    if k > 0 {
      var prev := Layout(params, Corrected, recs, k - 1);
      if params[k - 1].isBypass {
        assert Scan(Expecting, prev) == if HasRegular(params, k - 1) && OnlyBypassFrom(params, k - 1) then Outside else Expecting by {
          LayoutScanCorrected(params, recs, k - 1);
        }
        assert HasRegular(params, k) == HasRegular(params, k - 1) by {
          if HasRegular(params, k) {
            var i :| 0 <= i < k && !params[i].isBypass;
            assert i < k - 1;
          }
        }
        assert OnlyBypassFrom(params, k) == OnlyBypassFrom(params, k - 1);
      } else {
        assert Scan(Expecting, prev) == Expecting by {
          LayoutScanCorrected(params, recs, k - 1);
          assert !OnlyBypassFrom(params, k - 1);
        }
        var last := if OnlyBypassFrom(params, k) then Close else Sep;
        assert Layout(params, Corrected, recs, k) == prev + [Port(recs[k - 1])] + [last];
        ScanSnoc(Expecting, prev, Port(recs[k - 1]));
        ScanSnoc(Expecting, prev + [Port(recs[k - 1])], last);
        assert HasRegular(params, k);
      }
    }
  }

  /** Both closing rules declare the same port records. */
  lemma ClosingKeepsPorts(params: seq<Param>, recs: seq<PortRecord>)
    requires |params| == |recs|
    ensures Ports(Layout(params, AsWritten, recs, |params|)) == Ports(Layout(params, Corrected, recs, |params|))
  {
    LayoutPorts(params, AsWritten, recs, |params|);
    LayoutPorts(params, Corrected, recs, |params|);
  }

  //----------------------------------------------------------------------
  // The whole port list

  /**
   * The port list assembled from its parts: a group of audio inputs, a
   * group of audio outputs, the fixed ports opening the group that the
   * parameter loop continues and closes.
   */
  function PortList(ins: seq<PortRecord>, outs: seq<PortRecord>, fixed: seq<PortRecord>,
                    params: seq<Param>, rule: Closing, recs: seq<PortRecord>): seq<Item>
    requires |recs| == |params|
  {
    Group(ins, |ins|) + Group(outs, |outs|) + Opened(fixed) + Layout(params, rule, recs, |params|)
  }

  /** Once the audio groups and the fixed ports are listed, the parameter loop decides the bracket structure. */
  lemma PortListScan(ins: seq<PortRecord>, outs: seq<PortRecord>, fixed: seq<PortRecord>,
                     params: seq<Param>, rule: Closing, recs: seq<PortRecord>)
    requires |recs| == |params|
    ensures Scan(Outside, PortList(ins, outs, fixed, params, rule, recs)) == Scan(Expecting, Layout(params, rule, recs, |params|))
  {
    var i, o, x := Group(ins, |ins|), Group(outs, |outs|), Opened(fixed);
    var p := Layout(params, rule, recs, |params|);
    GroupShape(ins);
    GroupShape(outs);
    OpenedShape(fixed);
    ScanAppend(Outside, i + o + x, p);
    ScanAppend(Outside, i + o, x);
    ScanAppend(Outside, i, o);
  }

  /** The port records of the list: inputs, outputs, fixed ports, then the regular parameters. */
  lemma PortListPorts(ins: seq<PortRecord>, outs: seq<PortRecord>, fixed: seq<PortRecord>,
                      params: seq<Param>, rule: Closing, recs: seq<PortRecord>)
    requires |recs| == |params|
    ensures Ports(PortList(ins, outs, fixed, params, rule, recs)) == ins + outs + fixed + Regular(params, recs, |params|)
  {
    var i, o, x := Group(ins, |ins|), Group(outs, |outs|), Opened(fixed);
    var p := Layout(params, rule, recs, |params|);
    GroupShape(ins);
    GroupShape(outs);
    OpenedShape(fixed);
    LayoutPorts(params, rule, recs, |params|);
    PortsAppend(i + o + x, p);
    PortsAppend(i + o, x);
    PortsAppend(i, o);
  }

  /** The port list of the description for engine `e`. */
  function DescriptionItems(e: EngineShape, f: Flags, rule: Closing): seq<Item>
  {
    PortList(AudioRecords(true, e.numInputs, 0), AudioRecords(false, e.numOutputs, e.numInputs),
             FixedRecords(e.numInputs, e.numOutputs, f),
             e.params, rule, ParamRecords(e.params, ControlBase(e.numInputs, e.numOutputs, f)))
  }

  /** The document for an accepted engine, with the given closing rule. */
  function Describe(e: EngineShape, f: Flags, rule: Closing): Description
  {
    Description(DescriptionItems(e, f, rule), Replace(e.name, '"', '\''), FirstAbbreviation(e.alternateNames))
  }

  /** The description is the two audio groups, the fixed ports and the parameter list, in that order. */
  lemma DescriptionParts(e: EngineShape, f: Flags, rule: Closing)
    ensures DescriptionItems(e, f, rule)
      == Group(AudioRecords(true, e.numInputs, 0), e.numInputs) + Group(AudioRecords(false, e.numOutputs, e.numInputs), e.numOutputs)
         + Opened(FixedRecords(e.numInputs, e.numOutputs, f)) + ParamItems(e.params, rule, ControlBase(e.numInputs, e.numOutputs, f))
  {
  }

  /** The parameter records sit in their control slots. */
  lemma ParamRecordsInSlots(params: seq<Param>, base: nat)
    ensures InSlots(params, ParamRecords(params, base), base)
  {
  }

  /**
   * The description declares every port the adapter can connect, in
   * order, with `lv2:index` equal to the position in the list and the
   * role that connecting that index binds: audio inputs, audio outputs,
   * the fixed ports and one control port per regular parameter.
   */
  lemma PortOrder(e: EngineShape, f: Flags, rule: Closing)
    ensures var ps := Ports(DescriptionItems(e, f, rule));
      && |ps| == ControlBase(e.numInputs, e.numOutputs, f) + |e.params| - BypassCount(e.params)
      && InOrder(ps, 0, e.numInputs, e.numOutputs, |e.params|, f)
  {
    var nIn, nOut, params := e.numInputs, e.numOutputs, e.params;
    var base := ControlBase(nIn, nOut, f);
    AudioInOrder(true, nIn, nOut, |params|, f);
    AudioInOrder(false, nIn, nOut, |params|, f);
    FixedInOrder(nIn, nOut, |params|, f);
    RegularInOrder(params, nIn, nOut, f);
    RegularSlots(params, ParamRecords(params, base), |params|);
    PortListInOrder(AudioRecords(true, nIn, 0), AudioRecords(false, nOut, nIn), FixedRecords(nIn, nOut, f),
                    params, rule, ParamRecords(params, base), nIn, nOut, f);
  }

  /** The four groups of the port list, each in order, make a port list in order. */
  lemma PortListInOrder(ins: seq<PortRecord>, outs: seq<PortRecord>, fixed: seq<PortRecord>,
                        params: seq<Param>, rule: Closing, recs: seq<PortRecord>,
                        numInputs: nat, numOutputs: nat, f: Flags)
    requires |recs| == |params|
    requires InOrder(ins, 0, numInputs, numOutputs, |params|, f)
    requires InOrder(outs, |ins|, numInputs, numOutputs, |params|, f)
    requires InOrder(fixed, |ins| + |outs|, numInputs, numOutputs, |params|, f)
    requires InOrder(Regular(params, recs, |params|), |ins| + |outs| + |fixed|, numInputs, numOutputs, |params|, f)
    ensures var ps := Ports(PortList(ins, outs, fixed, params, rule, recs));
      && |ps| == |ins| + |outs| + |fixed| + |Regular(params, recs, |params|)|
      && InOrder(ps, 0, numInputs, numOutputs, |params|, f)
  {
    var nC := |params|;
    var regular := Regular(params, recs, nC);
    PortListPorts(ins, outs, fixed, params, rule, recs);
    assert InOrder(ins + outs + fixed + regular, 0, numInputs, numOutputs, nC, f) by {
      InOrderAppend(ins, outs, 0, |ins|, numInputs, numOutputs, nC, f);
      InOrderAppend(ins + outs, fixed, 0, |ins| + |outs|, numInputs, numOutputs, nC, f);
      InOrderAppend(ins + outs + fixed, regular, 0, |ins| + |outs| + |fixed|, numInputs, numOutputs, nC, f);
    }
  }

  /** Record `j` of `recs` is declared at index `from + j`, with the role connecting that index binds. */
  predicate InOrder(recs: seq<PortRecord>, from: nat, numInputs: nat, numOutputs: nat, numControls: nat, f: Flags)
  {
    forall j :: 0 <= j < |recs| ==>
      recs[j].index == from + j && recs[j].role == PortRole(from + j, numInputs, numOutputs, numControls, f)
  }

  lemma InOrderAppend(a: seq<PortRecord>, b: seq<PortRecord>, from: nat, at: nat, numInputs: nat, numOutputs: nat, numControls: nat, f: Flags)
    requires at == from + |a|
    requires InOrder(a, from, numInputs, numOutputs, numControls, f)
    requires InOrder(b, at, numInputs, numOutputs, numControls, f)
    ensures InOrder(a + b, from, numInputs, numOutputs, numControls, f)
  {
    forall j | 0 <= j < |a + b|
      ensures (a + b)[j].index == from + j && (a + b)[j].role == PortRole(from + j, numInputs, numOutputs, numControls, f)
    {
      if j >= |a| {
        assert (a + b)[j] == b[j - |a|];
      }
    }
  }

  /** The audio inputs come first, then the audio outputs. */
  lemma AudioInOrder(input: bool, numInputs: nat, numOutputs: nat, numControls: nat, f: Flags)
    ensures var from := if input then 0 else numInputs;
      InOrder(AudioRecords(input, if input then numInputs else numOutputs, from), from, numInputs, numOutputs, numControls, f)
  {
    var count := if input then numInputs else numOutputs;
    var from := if input then 0 else numInputs;
    var recs := AudioRecords(input, count, from);
    forall c | 0 <= c < count
      ensures recs[c].index == from + c && recs[c].role == PortRole(from + c, numInputs, numOutputs, numControls, f)
    {
      var r := if input then AudioIn(c) else AudioOut(c);
      PortIndexRoundTrip(r, numInputs, numOutputs, numControls, f);
    }
  }

  /** The fixed ports follow the audio ports. */
  lemma FixedInOrder(numInputs: nat, numOutputs: nat, numControls: nat, f: Flags)
    ensures InOrder(FixedRecords(numInputs, numOutputs, f), numInputs + numOutputs, numInputs, numOutputs, numControls, f)
  {
    FixedRolesInOrder(numInputs, numOutputs, numControls, f);
  }

  /** The regular parameters fill the control slots after the fixed ports. */
  lemma RegularInOrder(params: seq<Param>, numInputs: nat, numOutputs: nat, f: Flags)
    ensures var base := ControlBase(numInputs, numOutputs, f);
      InOrder(Regular(params, ParamRecords(params, base), |params|), base, numInputs, numOutputs, |params|, f)
  {
    var base := ControlBase(numInputs, numOutputs, f);
    var recs := ParamRecords(params, base);
    var regular := Regular(params, recs, |params|);
    assert forall j :: 0 <= j < |regular| ==> regular[j].index == base + j && regular[j].role == Control(j) by {
      ParamRecordsInSlots(params, base);
      RegularInSlots(params, recs, base, |params|);
    }
    assert |regular| <= |params| by {
      RegularSlots(params, recs, |params|);
    }
    ControlRolesInOrder(numInputs, numOutputs, |params|, f, |regular|);
  }

  /** Control slot `j` is the role of index `ControlBase + j`. */
  lemma ControlRolesInOrder(numInputs: nat, numOutputs: nat, numControls: nat, f: Flags, count: nat)
    requires count <= numControls
    ensures forall j :: 0 <= j < count ==>
      PortRole(ControlBase(numInputs, numOutputs, f) + j, numInputs, numOutputs, numControls, f) == Control(j)
  {
    forall j | 0 <= j < count
      ensures PortRole(ControlBase(numInputs, numOutputs, f) + j, numInputs, numOutputs, numControls, f) == Control(j)
    {
      PortIndexRoundTrip(Control(j), numInputs, numOutputs, numControls, f);
    }
  }


  /**
   * Regular parameter `i` is declared in control slot `ControlSlot(i)`,
   * the port `Connect` routes to it, with its default set to the value the
   * adapter seeds its cache with.
   */
  lemma ParamDeclared(e: EngineShape, f: Flags, rule: Closing, i: nat)
    requires i < |e.params| && !e.params[i].isBypass
    ensures var ps := Ports(DescriptionItems(e, f, rule));
      var k := ControlBase(e.numInputs, e.numOutputs, f) + ControlSlot(e.params, i);
      && k < |ps|
      && ps[k] == ParamPort(e.params, i, k)
      && ps[k].control.Some? && ps[k].control.value.defaultValue == SeedCache(e.params)[i]
  {
    var base := ControlBase(e.numInputs, e.numOutputs, f);
    ParamRecordAt(e.params, base, i);
    PortListAt(AudioRecords(true, e.numInputs, 0), AudioRecords(false, e.numOutputs, e.numInputs),
               FixedRecords(e.numInputs, e.numOutputs, f), e.params, rule, ParamRecords(e.params, base), i);
  }

  /** In any port list, regular parameter `i` sits after the fixed ports, at its control slot. */
  lemma PortListAt(ins: seq<PortRecord>, outs: seq<PortRecord>, fixed: seq<PortRecord>,
                   params: seq<Param>, rule: Closing, recs: seq<PortRecord>, i: nat)
    requires |recs| == |params| && i < |params| && !params[i].isBypass
    ensures var ps := Ports(PortList(ins, outs, fixed, params, rule, recs));
      var k := |ins| + |outs| + |fixed| + ControlSlot(params, i);
      k < |ps| && ps[k] == recs[i]
  {
    var regular := Regular(params, recs, |params|);
    var k := |ins| + |outs| + |fixed| + ControlSlot(params, i);
    PortListPorts(ins, outs, fixed, params, rule, recs);
    RegularSlots(params, recs, |params|);
    assert (ins + outs + fixed + regular)[k] == regular[ControlSlot(params, i)];
  }

  /**
   * As written, the port list is well-formed exactly when the last entry
   * of the parameter list is not the bypass parameter: otherwise the list
   * ends on a separator and is never closed.
   */
  lemma AsWrittenWellFormedIff(e: EngineShape, f: Flags)
    requires |e.params| >= 1
    ensures WellFormed(DescriptionItems(e, f, AsWritten)) <==> !e.params[|e.params| - 1].isBypass
  {
    PortListWellFormedAsWritten(AudioRecords(true, e.numInputs, 0), AudioRecords(false, e.numOutputs, e.numInputs),
                                FixedRecords(e.numInputs, e.numOutputs, f), e.params,
                                ParamRecords(e.params, ControlBase(e.numInputs, e.numOutputs, f)));
  }

  /** As written, any port list is well-formed exactly when its last parameter is regular. */
  lemma PortListWellFormedAsWritten(ins: seq<PortRecord>, outs: seq<PortRecord>, fixed: seq<PortRecord>,
                                    params: seq<Param>, recs: seq<PortRecord>)
    requires |recs| == |params| >= 1
    ensures WellFormed(PortList(ins, outs, fixed, params, AsWritten, recs)) <==> !params[|params| - 1].isBypass
  {
    PortListScan(ins, outs, fixed, params, AsWritten, recs);
    LayoutScanAsWritten(params, recs, |params|);
  }

  /** Corrected, any port list is well-formed exactly when it has a regular parameter. */
  lemma PortListWellFormedCorrected(ins: seq<PortRecord>, outs: seq<PortRecord>, fixed: seq<PortRecord>,
                                    params: seq<Param>, recs: seq<PortRecord>)
    requires |recs| == |params|
    ensures WellFormed(PortList(ins, outs, fixed, params, Corrected, recs)) <==> HasRegular(params, |params|)
  {
    PortListScan(ins, outs, fixed, params, Corrected, recs);
    LayoutScanCorrected(params, recs, |params|);
  }

  /** An engine the adapter accepts whose bypass parameter comes last. */
  function BypassLastEngine(): (e: EngineShape)
    ensures Supported(e) && |e.params| == 2 && e.params[1].isBypass
  {
    var gain := Param("gain", "Gain", 0.5, false, 0.0, 1.0, x => x, x => x, "", false, false, true, false, 0, [], None);
    var bypass := gain.(ttlName := "bypass", name := "Bypass", isBypass := true, isBoolean := true);
    EngineShape("Plugin", 1, 1, [gain, bypass], true, [])
  }

  /** That engine gets a port list that is never closed. */
  lemma BypassLastBreaksPortList(f: Flags)
    ensures !WellFormed(DescriptionItems(BypassLastEngine(), f, AsWritten))
  {
    AsWrittenWellFormedIff(BypassLastEngine(), f);
  }

  /**
   * With the corrected rule the port list is well-formed exactly when
   * there is a regular parameter, wherever the bypass parameter sits.
   */
  lemma CorrectedWellFormed(e: EngineShape, f: Flags)
    ensures WellFormed(DescriptionItems(e, f, Corrected)) <==> HasRegular(e.params, |e.params|)
  {
    PortListWellFormedCorrected(AudioRecords(true, e.numInputs, 0), AudioRecords(false, e.numOutputs, e.numInputs),
                                FixedRecords(e.numInputs, e.numOutputs, f), e.params,
                                ParamRecords(e.params, ControlBase(e.numInputs, e.numOutputs, f)));
  }

  /** Seen from any later position there are at least as many bypass entries. */
  lemma {:induction false} BypassMonotone(params: seq<Param>, i: nat, j: nat)
    requires i <= j <= |params|
    ensures BypassBefore(params, i) <= BypassBefore(params, j)
    decreases j - i
  {
    if i < j {
      BypassMonotone(params, i, j - 1);
    }
  }

  /**
   * An accepted engine with at most one bypass entry has a regular
   * parameter, so its description is well-formed with the corrected closing
   * rule.  As written it is well-formed only when the last parameter is
   * regular (`AsWrittenWellFormedIff`).
   */
  lemma AcceptedIsWellFormed(e: EngineShape, f: Flags)
    requires Supported(e) && BypassCount(e.params) <= 1
    ensures WellFormed(DescriptionItems(e, f, Corrected))
  {
    CorrectedWellFormed(e, f);
    BypassMonotone(e.params, 2, |e.params|);
    assert BypassBefore(e.params, 2) <= 1;
    if !e.params[0].isBypass {
      assert HasRegular(e.params, |e.params|);
    } else {
      assert !e.params[1].isBypass;
      assert HasRegular(e.params, |e.params|);
    }
  }

  //----------------------------------------------------------------------
  // Writing the description

  /** The audio ports of one direction, as the emitter writes them. */
  method WriteAudioGroup(input: bool, count: nat, portIndex: nat) returns (items: seq<Item>, next: nat)
    ensures items == Group(AudioRecords(input, count, portIndex), count) && next == portIndex + count
  {
    ghost var recs := AudioRecords(input, count, portIndex);
    next := portIndex;
    if count == 1 {
      items := [Open, Port(AudioPort(input, 1, 0, next)), Close];
      next := next + 1;
      assert Group(recs, 0) == [];
      return;
    }
    items := [];
    for i := 0 to count
      invariant next == portIndex + i
      invariant items == Group(recs, i)
    {
      if i == 0 {
        items := items + [Open];
      }
      items := items + [Port(AudioPort(input, count, i, next))];
      next := next + 1;
      if i + 1 == count {
        items := items + [Close];
      } else {
        items := items + [Sep];
      }
    }
  }

  /** The fixed ports, each compiled in or out by its build flag. */
  method WriteFixedPorts(numInputs: nat, numOutputs: nat, f: Flags, portIndex: nat) returns (items: seq<Item>, next: nat)
    requires portIndex == numInputs + numOutputs
    ensures items == Opened(FixedRecords(numInputs, numOutputs, f)) && next == portIndex + 2 + OptionalPorts(f)
  {
    ghost var recs := FixedRecords(numInputs, numOutputs, f);
    items := [Open, Port(FixedRecord(Enabled, portIndex)), Sep, Port(FixedRecord(Reset, portIndex + 1)), Sep];
    next := portIndex + 2;
    assert items == [Open] + Continued(recs, 2) by {
      assert Continued(recs, 0) == [];
    }
    if f.freeWheel {
      items := items + [Port(FixedRecord(FreeWheel, next)), Sep];
      next := next + 1;
    }
    ghost var k := 2 + (if f.freeWheel then 1 else 0);
    assert items == [Open] + Continued(recs, k);
    if f.latency {
      items := items + [Port(FixedRecord(Latency, next)), Sep];
      next := next + 1;
    }
    assert items == [Open] + Continued(recs, |recs|);
  }

  /**
   * The parameter loop: bypass entries are skipped.  As written the list is
   * closed after the round of the last entry of the parameter list, which
   * does nothing when that entry is the bypass; corrected it is closed after
   * the last regular parameter.
   */
  method WriteParams(params: seq<Param>, base: nat, rule: Closing) returns (items: seq<Item>, next: nat)
    ensures items == ParamItems(params, rule, base)
    ensures next == base + |params| - BypassCount(params)
  {
    ghost var recs := ParamRecords(params, base);
    items := [];
    next := base;
    var offset := 0;
    for i := 0 to |params|
      invariant offset == BypassBefore(params, i)
      invariant next == base + i - offset
      invariant items == Layout(params, rule, recs, i)
    {
      if params[i].isBypass {
        LayoutStep(params, rule, recs, i);
        offset := offset + 1;
        continue;
      }
      var closes := match rule
        case AsWritten => i + 1 == |params|
        case Corrected => OnlyBypassFrom(params, i + 1);
      WriteParamStep(params, rule, base, i, next, closes);
      items := items + [Port(ParamPort(params, i, next)), if closes then Close else Sep];
      next := next + 1;
    }
  }

  /** The first alternate name usable as an abbreviation. */
  method ChooseAbbreviation(names: seq<string>) returns (r: Option<string>)
    ensures r == FirstAbbreviation(names)
  {
    var j := 0;
    while j < |names|
      invariant j <= |names|
      invariant FirstAbbreviation(names[j..]) == FirstAbbreviation(names)
    {
      if |names[j]| >= 2 && |names[j]| <= 3 {
        if ValidAbbreviationChar(CharAt(names[j], 0)) && ValidAbbreviationChar(CharAt(names[j], 1))
          && ValidAbbreviationChar(CharAt(names[j], 2))
        {
          return Some(names[j]);
        }
      }
      assert names[j..][1..] == names[j + 1..];
      j := j + 1;
    }
    return None;
  }

  /**
   * The descriptor generator: it refuses an engine the adapter would not
   * accept, with status 1 and the same diagnostic the constructor gives,
   * and otherwise writes the description, with status 0.  With `AsWritten`
   * the port list is closed as the generator closes it, with `Corrected`
   * after the last regular parameter.
   */
  method Recall(engine: Option<EngineShape>, f: Flags, rule: Closing) returns (status: int, out: RecallOutput)
    ensures status == (if out.Written? then 0 else 1)
    ensures Validate(engine).Fail? ==> out == Refused(Validate(engine).error)
    ensures Validate(engine).Pass? ==> out == Written(Describe(engine.value, f, rule))
  {
    if engine.None? {
      return 1, Refused(MissingEngine);
    }
    var e := engine.value;
    if e.numInputs < 1 || e.numOutputs < 1 || e.numInputs > 2 || e.numOutputs > 2 {
      return 1, Refused(IncompatibleIo);
    }
    if !e.hasBypass {
      return 1, Refused(MissingBypass);
    }
    if |e.params| <= 1 {
      return 1, Refused(NoParameters);
    }
    assert Validate(engine) == Pass;
    var ins, portIndex := WriteAudioGroup(true, e.numInputs, 0);
    var outs;
    outs, portIndex := WriteAudioGroup(false, e.numOutputs, portIndex);
    var fixed;
    fixed, portIndex := WriteFixedPorts(e.numInputs, e.numOutputs, f, portIndex);
    assert portIndex == ControlBase(e.numInputs, e.numOutputs, f);
    var regular;
    regular, portIndex := WriteParams(e.params, portIndex, rule);
    var abbreviation := ChooseAbbreviation(e.alternateNames);
    var pluginName := Replace(e.name, '"', '\'');
    assert ins + outs + fixed + regular == DescriptionItems(e, f, rule) by {
      DescriptionParts(e, f, rule);
    }
    return 0, Written(Description(ins + outs + fixed + regular, pluginName, abbreviation));
  }
}
