/**
 * The plugin's LV2 instantiation entry point: the host's feature list is
 * queried, the nominal block length is read from the host's options and
 * the wrapper is built.
 */
module Lv2Entry {
  import opened Common
  import opened Engine
  import opened PortTable
  import opened Wrapper

  const LogUri: string := "http://lv2plug.in/ns/ext/log#log"
  const OptionsUri: string := "http://lv2plug.in/ns/ext/options#options"
  const UridMapUri: string := "http://lv2plug.in/ns/ext/urid#map"
  const NominalBlockLengthUri: string := "http://lv2plug.in/ns/ext/buf-size#nominalBlockLength"
  const AtomIntUri: string := "http://lv2plug.in/ns/ext/atom#Int"

  newtype int32 = x: int | -0x8000_0000 <= x < 0x8000_0000

  /** One entry of the host's option array; its value is the 32-bit integer it points at. */
  datatype OptionEntry = OptionEntry(key: nat, valueType: nat, value: int32)

  /** What a feature's data pointer refers to. */
  datatype HostData =
    | Null
    | Options(entries: seq<OptionEntry>)
    | UridMap(ids: string -> nat)
    | OtherData

  datatype Feature = Feature(uri: string, data: HostData)

  //----------------------------------------------------------------------
  // Feature query

  /** The data of the first feature with `uri`, or `Null` when there is none. */
  function Lookup(features: seq<Feature>, uri: string): HostData
  {
    if |features| == 0 then Null
    else if features[0].uri == uri then features[0].data
    else Lookup(features[1..], uri)
  }

  /** One feature asked for: its URI and whether instantiation needs it. */
  datatype Query = Query(uri: string, required: bool)

  /** The logger is optional; the option array and the URID map are required, in that order. */
  const FeatureQueries: seq<Query> := [Query(LogUri, false), Query(OptionsUri, true), Query(UridMapUri, true)]

  predicate Missing(features: seq<Feature>, q: Query)
  {
    q.required && Lookup(features, q.uri).Null?
  }

  /** The URI of the first required feature the host does not provide. */
  function FirstMissing(features: seq<Feature>, queries: seq<Query>): Option<string>
  {
    if |queries| == 0 then None
    else if Missing(features, queries[0]) then Some(queries[0].uri)
    else FirstMissing(features, queries[1..])
  }

  /** The first missing query is the one reported. */
  lemma {:induction false} FirstMissingAt(features: seq<Feature>, queries: seq<Query>, i: nat)
    requires i < |queries| && Missing(features, queries[i])
    requires forall k :: 0 <= k < i ==> !Missing(features, queries[k])
    ensures FirstMissing(features, queries) == Some(queries[i].uri)
  {
    if i > 0 {
      assert !Missing(features, queries[0]);
      forall k | 0 <= k < i - 1 ensures !Missing(features, queries[1..][k]) {
        assert queries[1..][k] == queries[k + 1];
      }
      FirstMissingAt(features, queries[1..], i - 1);
    }
  }

  /** Nothing is reported when every required feature is provided. */
  lemma {:induction false} FirstMissingNone(features: seq<Feature>, queries: seq<Query>)
    requires forall k :: 0 <= k < |queries| ==> !Missing(features, queries[k])
    ensures FirstMissing(features, queries) == None
  {
    if |queries| > 0 {
      assert !Missing(features, queries[0]);
      forall k | 0 <= k < |queries| - 1 ensures !Missing(features, queries[1..][k]) {
        assert queries[1..][k] == queries[k + 1];
      }
      FirstMissingNone(features, queries[1..]);
    }
  }

  /**
   * Instantiation's query: a missing logger is never reported, a missing
   * option array is reported before a missing URID map.
   */
  lemma QueryReports(features: seq<Feature>)
    ensures FirstMissing(features, FeatureQueries)
      == if Lookup(features, OptionsUri).Null? then Some(OptionsUri)
         else if Lookup(features, UridMapUri).Null? then Some(UridMapUri)
         else None
  {
    var qs := FeatureQueries;
    assert !Missing(features, qs[0]);
    if Lookup(features, OptionsUri).Null? {
      FirstMissingAt(features, qs, 1);
    } else if Lookup(features, UridMapUri).Null? {
      FirstMissingAt(features, qs, 2);
    } else {
      FirstMissingNone(features, qs);
    }
  }

  /**
   * The URIs whose output variable the query writes, in order: it stops
   * at the first missing required feature, so the outputs after it keep
   * whatever they held before the query.
   */
  function QueryOutputs(features: seq<Feature>, queries: seq<Query>): seq<string>
  {
    if |queries| == 0 then []
    else if Missing(features, queries[0]) then [queries[0].uri]
    else [queries[0].uri] + QueryOutputs(features, queries[1..])
  }

  /**
   * Every query is written when nothing is missing; otherwise the written
   * prefix ends with the query that is reported missing.
   */
  lemma {:induction false} QueryOutputsUpToMissing(features: seq<Feature>, queries: seq<Query>)
    ensures |QueryOutputs(features, queries)| <= |queries|
    ensures forall k :: 0 <= k < |QueryOutputs(features, queries)| ==> QueryOutputs(features, queries)[k] == queries[k].uri
    ensures FirstMissing(features, queries).None? ==> |QueryOutputs(features, queries)| == |queries|
    ensures FirstMissing(features, queries).Some? ==>
      var n := |QueryOutputs(features, queries)|;
      n > 0 && Missing(features, queries[n - 1]) && FirstMissing(features, queries) == Some(queries[n - 1].uri)
  {
    if |queries| > 0 && !Missing(features, queries[0]) {
      var rest := QueryOutputs(features, queries[1..]);
      QueryOutputsUpToMissing(features, queries[1..]);
      assert QueryOutputs(features, queries) == [queries[0].uri] + rest;
      forall k | 0 <= k < |rest| ensures rest[k] == queries[k + 1].uri {
        assert queries[1..][k] == queries[k + 1];
      }
      if FirstMissing(features, queries).Some? {
        assert queries[1..][|rest| - 1] == queries[|rest|];
      }
    }
  }

  /**
   * As written, instantiation hands the URID-map output to the logger right
   * after the query (line 705), before it looks at the missing feature.
   * Without an option array the query stops before the URID map, so that
   * output was never written, even when the host does offer a map.
   */
  lemma MapUnsetWithoutOptions(features: seq<Feature>)
    requires Lookup(features, OptionsUri).Null?
    ensures FirstMissing(features, FeatureQueries) == Some(OptionsUri)
    ensures QueryOutputs(features, FeatureQueries) == [LogUri, OptionsUri]
    ensures UridMapUri !in QueryOutputs(features, FeatureQueries)
  {
    QueryReports(features);
    QueryOutputsUpToMissing(features, FeatureQueries);
    assert UridMapUri[25] != LogUri[25] && UridMapUri[25] != OptionsUri[25];
  }

  /**
   * Once no required feature is missing, both the option array and the
   * URID map were written, so handing the map to the logger after the
   * missing check reads a written value.
   */
  lemma MapSetWhenNothingMissing(features: seq<Feature>)
    requires FirstMissing(features, FeatureQueries).None?
    ensures QueryOutputs(features, FeatureQueries) == [LogUri, OptionsUri, UridMapUri]
  {
    QueryOutputsUpToMissing(features, FeatureQueries);
  }

  /** The host gives the option array and the URID map as what their URIs promise. */
  predicate HostTyped(features: seq<Feature>)
  {
    && (Lookup(features, OptionsUri).Null? || Lookup(features, OptionsUri).Options?)
    && (Lookup(features, UridMapUri).Null? || Lookup(features, UridMapUri).UridMap?)
  }

  //----------------------------------------------------------------------
  // Nominal block length

  /** An entry that ends the option array: its key or its type is zero. */
  predicate IsTerminator(o: OptionEntry)
  {
    o.key == 0 || o.valueType == 0
  }

  /** The entry for the nominal block length given as an integer. */
  predicate MatchesOption(o: OptionEntry, key: nat, valueType: nat)
  {
    o.key == key && o.valueType == valueType
  }

  /**
   * The scan of the option array from position `i`: the value of the first
   * matching entry before the terminator, or 0.  The end of the sequence
   * stands for the terminating entry.
   */
  function BlockLengthFrom(entries: seq<OptionEntry>, key: nat, valueType: nat, i: nat): int32
    requires i <= |entries|
    decreases |entries| - i
  {
    if i == |entries| || IsTerminator(entries[i]) then 0
    else if MatchesOption(entries[i], key, valueType) then entries[i].value
    else BlockLengthFrom(entries, key, valueType, i + 1)
  }

  function NominalBlockLength(entries: seq<OptionEntry>, key: nat, valueType: nat): int32
  {
    BlockLengthFrom(entries, key, valueType, 0)
  }

  /** The first matching entry before the terminator gives the block length. */
  lemma {:induction false} ScanFindsFirst(entries: seq<OptionEntry>, key: nat, valueType: nat, i: nat, j: nat)
    requires i <= j < |entries|
    requires forall k :: i <= k <= j ==> !IsTerminator(entries[k])
    requires MatchesOption(entries[j], key, valueType)
    requires forall k :: i <= k < j ==> !MatchesOption(entries[k], key, valueType)
    ensures BlockLengthFrom(entries, key, valueType, i) == entries[j].value
    decreases j - i
  {
    if i < j {
      ScanFindsFirst(entries, key, valueType, i + 1, j);
    }
  }

  /**
   * The block length is 0 when no entry before the terminator matches,
   * in particular when a match only follows the terminator.
   */
  lemma {:induction false} ScanFindsNothing(entries: seq<OptionEntry>, key: nat, valueType: nat, i: nat, end: nat)
    requires i <= end <= |entries|
    requires end == |entries| || IsTerminator(entries[end])
    requires forall k :: i <= k < end ==> !IsTerminator(entries[k]) && !MatchesOption(entries[k], key, valueType)
    ensures BlockLengthFrom(entries, key, valueType, i) == 0
    decreases end - i
  {
    if i < end {
      ScanFindsNothing(entries, key, valueType, i + 1, end);
    }
  }

  /** A nonzero block length is the value of some matching entry. */
  lemma {:induction false} ScanResultMatches(entries: seq<OptionEntry>, key: nat, valueType: nat, i: nat)
    requires i <= |entries|
    ensures BlockLengthFrom(entries, key, valueType, i) != 0 ==>
      exists j :: i <= j < |entries| && MatchesOption(entries[j], key, valueType)
        && entries[j].value == BlockLengthFrom(entries, key, valueType, i)
    decreases |entries| - i
  {
    if i < |entries| && !IsTerminator(entries[i]) && !MatchesOption(entries[i], key, valueType) {
      ScanResultMatches(entries, key, valueType, i + 1);
    }
  }

  /**
   * Walks the option array until its terminator and stops at the first
   * entry keyed by the nominal block length with integer type.
   */
  method ScanNominalBlockLength(entries: seq<OptionEntry>, ids: string -> nat) returns (bufferSize: int32)
    ensures bufferSize == NominalBlockLength(entries, ids(NominalBlockLengthUri), ids(AtomIntUri))
  {
    ghost var key, valueType := ids(NominalBlockLengthUri), ids(AtomIntUri);
    bufferSize := 0;
    var i := 0;
    while i < |entries| && !IsTerminator(entries[i])
      invariant i <= |entries|
      invariant bufferSize == 0
      invariant BlockLengthFrom(entries, key, valueType, i) == NominalBlockLength(entries, key, valueType)
    {
      if entries[i].key == ids(NominalBlockLengthUri) && entries[i].valueType == ids(AtomIntUri) {
        bufferSize := entries[i].value;
        break;
      }
      i := i + 1;
    }
  }

  /** The block length the host offers, once both required features are there. */
  function OfferedBlockLength(features: seq<Feature>): int32
    requires HostTyped(features) && FirstMissing(features, FeatureQueries).None?
  {
    QueryReports(features);
    var ids := Lookup(features, UridMapUri).ids;
    NominalBlockLength(Lookup(features, OptionsUri).entries, ids(NominalBlockLengthUri), ids(AtomIntUri))
  }

  //----------------------------------------------------------------------
  // Entry points

  /**
   * Instantiation.  A missing required feature and a missing (or zero)
   * nominal block length are logged and give no instance; otherwise the
   * wrapper is built and handed out only when it accepted the engine.
   * `engine` is what the plugin factory produced.
   */
  method Instantiate(sampleRate: real, features: seq<Feature>, engine: Option<EngineShape>, flags: Flags)
    returns (instance: JuceLv2Wrapper?, diagnostic: Option<InitError>)
    requires HostTyped(features)
    ensures instance == null <==> diagnostic.Some?
    ensures FirstMissing(features, FeatureQueries).Some? ==>
      diagnostic == Some(MissingFeature(FirstMissing(features, FeatureQueries).value))
    ensures FirstMissing(features, FeatureQueries).None? && OfferedBlockLength(features) == 0 ==>
      diagnostic == Some(MissingOption(NominalBlockLengthUri))
    ensures FirstMissing(features, FeatureQueries).None? && OfferedBlockLength(features) != 0 ==>
      diagnostic == if Validate(engine).Pass? then None else Some(Validate(engine).error)
    ensures instance != null ==>
      && fresh(instance) && instance.Valid() && engine.Some?
      && instance.params == engine.value.params && instance.flags == flags
      && instance.sampleRate == sampleRate && instance.bufferSize == OfferedBlockLength(features) as int
      && instance.ports == Unbound(instance.numInputs, instance.numOutputs, instance.numControls)
      && instance.lastControlValues == SeedCache(instance.params)
      && instance.audioBuffers == null && instance.trace == []
  {
    QueryReports(features);
    var options := Lookup(features, OptionsUri);
    var uridMap := Lookup(features, UridMapUri);
    if options.Null? {
      return null, Some(MissingFeature(OptionsUri));
    }
    if uridMap.Null? {
      return null, Some(MissingFeature(UridMapUri));
    }
    // The logger would get the URID map here, after the missing check,
    // where the query has written it.
    MapSetWhenNothingMissing(features);
    var bufferSize := ScanNominalBlockLength(options.entries, uridMap.ids);
    if bufferSize == 0 {
      return null, Some(MissingOption(NominalBlockLengthUri));
    }
    var wrapper := new JuceLv2Wrapper(sampleRate, bufferSize as int, engine, flags);
    if wrapper.ok {
      return wrapper, None;
    }
    return null, Some(Validate(engine).error);
  }
}
