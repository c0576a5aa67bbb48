# JUCE Anagram LV2 wrapper: a Dafny model

This project models the LV2 adapter that lets a JUCE audio processor (the
"engine") run as an Anagram LV2 plugin. It covers three parts.

- The plugin instance `JuceLv2Wrapper`:
  - it validates the engine;
  - it maps the host's flat port indices onto audio inputs, audio outputs, the fixed control ports ("enabled", "reset", the optional free-wheel and latency ports) and one control slot per regular parameter;
  - it keeps a cache of the last value seen for each parameter;
  - each block it syncs the parameters, copies inputs to outputs, and then either calls the engine or silences the outputs.
- The descriptor generator `doRecall`. It refuses the same engines the instance refuses. For an accepted engine it describes the plugin's ports in `dsp.ttl`:
  - their order and indices;
  - the bracket structure of the `lv2:port` list, both as the generator writes it and with the closing bracket corrected (see "## Findings");
  - names and symbols;
  - the plugin name and the optional abbreviation.
- The LV2 instantiation entry point: the feature query, the scan of the host's options for the nominal block length, and building the instance.

Modules, in dependency order:

- `Common`: `Option`, `Max`.
- `HostMemory`: host buffers as a value, a map from address to samples. Pointers are `Null | Addr(a)`, so two ports alias exactly when they hold the same address.
- `Engine`: the engine's shape and parameters, the validation rules, control-slot numbering, JUCE's `approximatelyEqual`, and the calls made into the engine (`Effect`).
- `PortTable`: port roles, the flat index of each role, and the bindings `connect` updates.
- `ParameterSync`: the per-block parameter sync, as functions.
- `BufferView`: the channel pointer array, and the input-to-output copies and output silencing, as functions.
- `Wrapper`: the class `JuceLv2Wrapper`. Its methods are proved against the functions above.
- `TtlText`: decimal numbering, character replacement, parameter display names, abbreviation choice.
- `Descriptor`: the description as a list of port records and brackets, proved well-formed and in port order.
- `Lv2Entry`: the instantiate lambda.

Some modelling choices:

- Engine calls, diagnostics and sample copies are recorded, in order, in the instance's `trace`.
- The engine's answers in `run` (whether it is suspended, its latency) are parameters of `Run`. The outcome of the plugin factory (`engine: Option<EngineShape>`) is a parameter of the constructor, `Instantiate` and `Recall`.
- The fields the constructor sets and nothing else changes are `const`.
- `SyncParameters` builds the new cache in a local sequence and stores it at the end; the source updates it slot by slot. `PrepareBuffers` writes the channel array element by element, as the source does, and only collects its record of the copies locally.

## Model

| member | source | states |
|---|---|---|
| Engine.Validate | juce_audio_plugin_client_Anagram_LV2.cpp:45-86 | An engine passes exactly when it exists, has 1 or 2 inputs and 1 or 2 outputs, has a bypass parameter and has at least two parameters. Each failure is identified by the first check it fails, in the source's order. |
| Engine.SeedCache | juce_audio_plugin_client_Anagram_LV2.cpp:98-106 | The cache has one value per parameter: the parameter's current value, converted from the normalised range for a ranged parameter. |
| Engine.ControlSlotOrder | juce_audio_plugin_client_Anagram_LV2.cpp:206-222 | Regular parameters' control slots (`i - offset`) strictly increase with the parameter index. |
| Engine.ControlSlotBound | juce_audio_plugin_client_Anagram_LV2.cpp:206-222 | A regular parameter's control slot is below the number of parameters minus the number of bypass entries. |
| PortTable.PortRole | juce_audio_plugin_client_Anagram_LV2.cpp:115-165 | The role a flat port index lands on is unused exactly when the index is past the last control slot. Otherwise the role is declared and its index is the given one. |
| PortTable.PortIndexRoundTrip | juce_audio_plugin_client_Anagram_LV2.cpp:115-165 | Every declared role is the role of its own flat index. |
| PortTable.Bind | juce_audio_plugin_client_Anagram_LV2.cpp:115-165 | Connecting replaces exactly the binding of the role the index lands on and keeps every other binding. An unused role changes nothing. |
| ParameterSync.Readings | juce_audio_plugin_client_Anagram_LV2.cpp:206-222 | The reading of parameter `i` is `1 - enabled` for the bypass parameter and its control slot's value otherwise. It is none when that port is unconnected. |
| ParameterSync.Synced | juce_audio_plugin_client_Anagram_LV2.cpp:224-227 | After a sync, a slot without a reading is unchanged, a slot changes only if its reading was not approximately equal to it, and a changed slot takes its reading. Every slot with a reading approximates it. |
| ParameterSync.SyncEffectsExactly | juce_audio_plugin_client_Anagram_LV2.cpp:224-232 | The setter is called for parameter `j` with value `v` exactly when `j` changed and `v` is its reading in the engine's domain (normalised when ranged). |
| ParameterSync.SyncEffectsIncreasing | juce_audio_plugin_client_Anagram_LV2.cpp:206-233 | A sync makes only setter calls, at most one per parameter, in increasing parameter order. |
| ParameterSync.QuietWhenUnchanged | juce_audio_plugin_client_Anagram_LV2.cpp:224-225 | When no reading differs from the cache, no setter is called. |
| ParameterSync.SyncSettles | juce_audio_plugin_client_Anagram_LV2.cpp:224-227 | A second sync with the same readings leaves the cache as it is and calls no setter. |
| ParameterSync.ControlPortRouting | juce_audio_plugin_client_Anagram_LV2.cpp:159-162 | Connecting a pointer changes what a regular parameter reads exactly when the index is that parameter's control-slot port. The parameter then reads the new pointer's value. |
| ParameterSync.EnabledPortRouting | juce_audio_plugin_client_Anagram_LV2.cpp:131-135 | Only the "enabled" port drives the bypass parameter, and it does so inverted. |
| BufferView.ChannelView | juce_audio_plugin_client_Anagram_LV2.cpp:238-248 | The channel array has max(inputs, outputs) entries: the output pointers first, then the remaining input pointers. |
| BufferView.CopyInputsDelivers | juce_audio_plugin_client_Anagram_LV2.cpp:239-245 | When the outputs are pairwise distinct and an input shares a buffer only with its own channel's output, each of the first `k` outputs holds its input's first `n` samples after the copies. |
| BufferView.CopyInputsKeepsTails | juce_audio_plugin_client_Anagram_LV2.cpp:243-244 | The copies keep every buffer's samples past the first `n`. |
| BufferView.CopyInputsKeepsOthers | juce_audio_plugin_client_Anagram_LV2.cpp:243-244 | The copies change no buffer other than the first `k` outputs. |
| BufferView.CopyEffectsExactly | juce_audio_plugin_client_Anagram_LV2.cpp:243-244 | Channel `c` is copied, with length `n`, exactly when it has an input whose pointer differs from its output's. |
| BufferView.CopyEffectsIncreasing | juce_audio_plugin_client_Anagram_LV2.cpp:239-245 | At most one copy is made per channel, in increasing channel order. |
| BufferView.ClearOutputsSilences | juce_audio_plugin_client_Anagram_LV2.cpp:261-262 | After silencing, the first `n` samples of each of the first `k` outputs are zero. |
| BufferView.ClearOutputsKeepsTails | juce_audio_plugin_client_Anagram_LV2.cpp:261-262 | Silencing keeps every buffer's samples past the first `n`. |
| BufferView.ClearOutputsKeepsOthers | juce_audio_plugin_client_Anagram_LV2.cpp:261-262 | Silencing changes no buffer other than the first `k` outputs. |
| HostMemory.Store | juce_audio_plugin_client_Anagram_LV2.cpp:190-191 | Writing through a pointer sets the first sample of that buffer and nothing else. |
| HostMemory.CopySamples | juce_audio_plugin_client_Anagram_LV2.cpp:244 | A sample copy sets the destination's first `n` samples to the source's and keeps everything else. |
| HostMemory.ClearSamples | juce_audio_plugin_client_Anagram_LV2.cpp:262 | Clearing zeroes the destination's first `n` samples and keeps everything else. |
| Wrapper.PreludeEffects | juce_audio_plugin_client_Anagram_LV2.cpp:184-188 | The engine is reset exactly when the reset port is connected and above 0.5. The free-wheel state is passed on exactly when its port is connected. No other call is made, each call is made at most once, and the reset comes first. |
| Wrapper.JuceLv2Wrapper.constructor | juce_audio_plugin_client_Anagram_LV2.cpp:36-109 | The instance is ok exactly when the engine passes validation. A refused engine leaves exactly its one diagnostic. An accepted one keeps the host's rate and block size, gets unbound ports and a cache seeded from the parameters. |
| Wrapper.JuceLv2Wrapper.Connect | juce_audio_plugin_client_Anagram_LV2.cpp:115-165 | The bindings after the call are the old bindings with the role of `port` bound to `data`. Indices past the control slots are ignored. |
| Wrapper.JuceLv2Wrapper.Activate | juce_audio_plugin_client_Anagram_LV2.cpp:167-173 | The engine is prepared and configured with the host's rate and block size, in that order. A fresh, nulled channel array of max(inputs, outputs) entries is allocated. |
| Wrapper.JuceLv2Wrapper.Deactivate | juce_audio_plugin_client_Anagram_LV2.cpp:175-180 | The channel array is freed, then the engine's resources are released. |
| Wrapper.JuceLv2Wrapper.RunPrelude | juce_audio_plugin_client_Anagram_LV2.cpp:184-191 | The reset and free-wheel calls are made, then the latency is written to the latency port when that port is connected. |
| Wrapper.JuceLv2Wrapper.SyncParameters | juce_audio_plugin_client_Anagram_LV2.cpp:201-234 | The cache becomes `Synced` of the readings. The calls made are exactly `SyncEffects`. |
| Wrapper.JuceLv2Wrapper.PrepareBuffers | juce_audio_plugin_client_Anagram_LV2.cpp:236-248 | The channel array becomes `ChannelView`. Memory is the result of the conditional input copies. The copies are recorded in channel order. |
| Wrapper.JuceLv2Wrapper.ClearBuffers | juce_audio_plugin_client_Anagram_LV2.cpp:259-263 | Every output's first `n` samples are silenced. |
| Wrapper.JuceLv2Wrapper.Run | juce_audio_plugin_client_Anagram_LV2.cpp:182-269 | An empty block does only the prelude. Otherwise a block does the prelude, the parameter sync on the post-latency memory, the buffer preparation, and then either silences the outputs (suspended) or hands the channel view to the engine. The new state and memory are stated in full. |
| TtlText.NatToStringRoundTrip | juce_audio_plugin_client_Anagram_LV2.cpp:448-450 | Decimal numbering reads back as the number. |
| TtlText.NatToStringInjective | juce_audio_plugin_client_Anagram_LV2.cpp:448-450 | Different numbers get different numerals, so numbered symbols are distinct. |
| TtlText.ReplaceRemoves | juce_audio_plugin_client_Anagram_LV2.cpp:550-553 | After the replacement the replaced character no longer occurs, and replacing again changes nothing. |
| TtlText.ShortName | juce_audio_plugin_client_Anagram_LV2.cpp:556 | The name is a prefix of the engine's name of at most 32 characters. A name that already fits is kept whole. |
| TtlText.DisplayName | juce_audio_plugin_client_Anagram_LV2.cpp:556-563 | The displayed name is the short name, or "Parameter N" (N the control slot plus one) when that is empty. Double quotes become single quotes, so no double quote remains. |
| TtlText.FirstAbbreviation | juce_audio_plugin_client_Anagram_LV2.cpp:657-673 | A chosen abbreviation is one of the alternate names and has two or three valid characters. |
| TtlText.FirstAbbreviationIsFirst | juce_audio_plugin_client_Anagram_LV2.cpp:657-673 | Nothing is chosen exactly when no name is usable. A chosen name is preceded only by unusable names. |
| Descriptor.GroupShape | juce_audio_plugin_client_Anagram_LV2.cpp:442-456 | An audio group opens before its first port, separates its ports, closes after its last, and declares its records in order. |
| Descriptor.AudioSymbolsDistinct | juce_audio_plugin_client_Anagram_LV2.cpp:431-486 | Audio ports of different direction or channel have different symbols, for every input and output count, including one side with a single unnumbered port and the other with two numbered ones. |
| Descriptor.AudioSymbolNotFixed | juce_audio_plugin_client_Anagram_LV2.cpp:431-537 | No audio port's symbol is the symbol of a fixed port. |
| Descriptor.FixedRecords | juce_audio_plugin_client_Anagram_LV2.cpp:488-537 | There are 2 fixed ports plus the compiled-in optional ones. They follow the audio ports, numbered consecutively, each with its fixed role; `FixedRolesInOrder` fixes the order. |
| Descriptor.OpenedShape | juce_audio_plugin_client_Anagram_LV2.cpp:488-537 | The fixed ports open a group and leave it open for the parameters, declaring their records in order. |
| Descriptor.FixedRolesInOrder | juce_audio_plugin_client_Anagram_LV2.cpp:488-537 | Fixed port `j` has the role that connecting index `inputs + outputs + j` binds. |
| Descriptor.Symbol | juce_audio_plugin_client_Anagram_LV2.cpp:550-553 | A parameter's symbol contains no '-'. |
| Descriptor.ParamPort | juce_audio_plugin_client_Anagram_LV2.cpp:560-563 | A regular parameter's record has the index it is written at and the role of its control slot. |
| Descriptor.LayoutPorts | juce_audio_plugin_client_Anagram_LV2.cpp:540-642 | The parameter loop declares exactly the regular parameters' records, in order, and skips the bypass entries. |
| Descriptor.LayoutScanAsWritten | juce_audio_plugin_client_Anagram_LV2.cpp:638-641 | As written, the list is closed only after the last entry of the parameter list, and only if that entry is regular. |
| Descriptor.LayoutScanCorrected | juce_audio_plugin_client_Anagram_LV2.cpp:638-641 | Corrected, the list is closed once the last regular parameter is declared. |
| Descriptor.ClosingKeepsPorts | juce_audio_plugin_client_Anagram_LV2.cpp:638-641 | Both closing rules declare the same port records. |
| Descriptor.PortOrder | juce_audio_plugin_client_Anagram_LV2.cpp:428-642 | The description declares the ports in order. The `j`-th port has index `j` and the role that connecting `j` binds. The count is the fixed base plus one per regular parameter. |
| Descriptor.ParamDeclared | juce_audio_plugin_client_Anagram_LV2.cpp:540-587 | Regular parameter `i` is declared at index `ControlBase + ControlSlot(i)`, the port `connect` routes to it. Its default is the value the instance seeds its cache with. |
| Descriptor.AsWrittenWellFormedIff | juce_audio_plugin_client_Anagram_LV2.cpp:638-641 | As written, the port list is well-formed exactly when the last parameter is not the bypass parameter. |
| Descriptor.BypassLastEngine | juce_audio_plugin_client_Anagram_LV2.cpp:540-548 | An engine the instance accepts, with two parameters of which the second is the bypass. |
| Descriptor.BypassLastBreaksPortList | juce_audio_plugin_client_Anagram_LV2.cpp:638-641 | As written, that engine's port list is never closed. |
| Descriptor.CorrectedWellFormed | juce_audio_plugin_client_Anagram_LV2.cpp:638-641 | With the corrected rule, the port list is well-formed exactly when there is a regular parameter, wherever the bypass sits. |
| Descriptor.AcceptedIsWellFormed | juce_audio_plugin_client_Anagram_LV2.cpp:540-641 | With the corrected closing rule, an accepted engine with at most one bypass entry gets a well-formed port list. As written, the list is well-formed only when the last parameter is regular (`Descriptor.AsWrittenWellFormedIff`). |
| Descriptor.WriteAudioGroup | juce_audio_plugin_client_Anagram_LV2.cpp:430-486 | The emitted audio items are the group of that direction's records, numbered from the running index. The index advances by the channel count. |
| Descriptor.WriteFixedPorts | juce_audio_plugin_client_Anagram_LV2.cpp:488-537 | The emitted fixed items open the group of the fixed records. The index advances by 2 plus the optional ports. |
| Descriptor.WriteParams | juce_audio_plugin_client_Anagram_LV2.cpp:540-642 | The emitted parameter items are the parameter layout under the given closing rule. With `AsWritten` the list is closed only after the round of the last entry (`i + 1 == numControls`). The index advances by one per regular parameter. |
| Descriptor.ChooseAbbreviation | juce_audio_plugin_client_Anagram_LV2.cpp:657-673 | The loop with `break` picks `FirstAbbreviation` of the alternate names. |
| Descriptor.Recall | juce_audio_plugin_client_Anagram_LV2.cpp:307-673 | A refused engine gives status 1 and the instance's diagnostic. An accepted one gives status 0 and the full description under the given closing rule: port list, plugin name with quotes replaced, abbreviation. `Recall(engine, f, AsWritten)` is what the generator writes, including the unclosed list when the bypass parameter is last. |
| Lv2Entry.FirstMissingAt | juce_audio_plugin_client_Anagram_LV2.cpp:696-710 | The first required feature that is missing is the one reported. |
| Lv2Entry.FirstMissingNone | juce_audio_plugin_client_Anagram_LV2.cpp:696-710 | Nothing is reported when every required feature is present. |
| Lv2Entry.QueryReports | juce_audio_plugin_client_Anagram_LV2.cpp:696-710 | A missing logger is never reported. A missing option array is reported before a missing URID map. |
| Lv2Entry.ScanFindsFirst | juce_audio_plugin_client_Anagram_LV2.cpp:712-722 | The first entry before the terminator keyed by the nominal block length with integer type gives the block length. |
| Lv2Entry.ScanFindsNothing | juce_audio_plugin_client_Anagram_LV2.cpp:712-722 | With no matching entry before the terminator (an entry whose key or type is zero), the block length is 0. |
| Lv2Entry.QueryOutputsUpToMissing | juce_audio_plugin_client_Anagram_LV2.cpp:699-703 | The query writes the outputs in order up to the first missing required feature, and that feature is the one reported; with nothing missing, every output is written. |
| Lv2Entry.MapUnsetWithoutOptions | juce_audio_plugin_client_Anagram_LV2.cpp:697-705 | Without an option array the query writes only the logger and options outputs, so the URID map handed to the logger at line 705 was never written. |
| Lv2Entry.MapSetWhenNothingMissing | juce_audio_plugin_client_Anagram_LV2.cpp:699-710 | Once no required feature is missing, the logger, options and URID-map outputs have all been written. |
| Lv2Entry.ScanResultMatches | juce_audio_plugin_client_Anagram_LV2.cpp:712-722 | A nonzero block length is the value of a matching entry. |
| Lv2Entry.ScanNominalBlockLength | juce_audio_plugin_client_Anagram_LV2.cpp:712-722 | The loop with `break` computes `NominalBlockLength` over the host's option array, with the mapped URIs as key and type. |
| Lv2Entry.Instantiate | juce_audio_plugin_client_Anagram_LV2.cpp:689-739 | A missing feature, then a zero block length, then a refused engine: each gives no instance and its diagnostic. Otherwise a fresh, valid instance is returned, with the host's rate and the offered block length. |

## Left out

- Engine configuration (`setPlayConfigDetails` or `enableAllBuses`, `refreshParameterList`) is left out. The engine's shape after configuration is the model's input.
- MIDI is left out. The buffer is only cleared, and no events are sent.
- The callback lock and the GUI and message-thread members are left out. They concern concurrency and build options.
- What the engine's `processBlock` writes to the buffers is left out. The call and the channel view it receives are recorded.
- File and stream output is left out: `manifest.ttl`, the console messages, the path resolution of the library, and the Turtle text layout beyond the port records, the brackets, the plugin name and the abbreviation.
- The `dsp.ttl` header lines and the maintainer and version blocks are left out. They are fixed text from build macros.
- `URL::addEscapeChars` and `sanitiseStringAsTtlName` are left out, as is the parameter ID. The symbol derives from an engine-supplied Turtle name (`ttlName`), with the '-' replacement modelled.
- Number formatting with `std::to_string` for floats is left out; floats are modelled as reals. This covers defaults, ranges, scale-point values and the positions `jmap` gives enumeration values.
- Scale-point labels and values are carried as the engine gives them. The text they become is not modelled.
- Floating point is left out; all samples and parameter values are reals. `approximatelyEqual` uses JUCE's default tolerances over the reals.
- `CharacterFunctions::isUpperCase` is modelled for ASCII letters only.
- `getName(32)` is modelled as taking the first 32 characters.
- The logger and the URID-map feature's handle mechanics are left out. A diagnostic is returned as a value.
- `lv2_log_logger_set_map` is left out.
- Lv2Entry.Instantiate: the source calls `lv2_log_logger_set_map` at line 705 with `uridMap` before checking for a missing feature. Without an option array, `uridMap` is never written (see "## Findings"). The model treats that call as having no effect and so never reads the unset value.
- The feature query (`FirstMissing`) follows the documented behaviour of the LV2 utility header `lv2/core/lv2_util.h`, which is not part of this model: required features are queried in order and the first missing one is reported.
- The `cleanup` lambda and the destructor are left out. Deleting an instance has no modelled effect.
- The connect, activate, run and deactivate lambdas only forward their arguments to the instance, so they are left out.
- The `extension_data` lambda (lines 763-778) is left out. It returns the Turtle recall interface for its one URI, and that interface only forwards to `doRecall`, which `Descriptor.Recall` models.
- `lv2_descriptor` (line 781) is left out. It only hands out the one descriptor for index 0.
- Host memory holds each buffer at its own address, so two buffers are either the same or disjoint. Buffers that partly overlap cannot be expressed, and `Separated` and `CopyInputsDelivers` say nothing about them.
- Wrapper.JuceLv2Wrapper.Connect: takes a `nat` port. It does not model a host index of 2^31 or more wrapping negative under `static_cast<int>`, because LV2 hosts only connect declared port indices.
- Wrapper.JuceLv2Wrapper.Run: takes a `nat` sample count, without the same `static_cast<int>` wrap-around, for the same reason.
- Lv2Entry.ScanNominalBlockLength: the end of the sequence stands for the array's terminating entry. The source reads past its end if the host omits the terminator.
- Lv2Entry.Instantiate: requires the host to give an option array under the options URI and a URID map under the map URI. The source casts the data pointers to those types.
- Wrapper.JuceLv2Wrapper.SyncParameters: builds the new cache in a local sequence and stores it at the end, where the source updates the cache slot by slot. Nothing else reads the cache during the loop.
- Wrapper.JuceLv2Wrapper.PrepareBuffers: fills a local alias of the channel array and records the copies at the end. The array itself is updated element by element, as in the source.
- `connect` accepts control slots up to the number of parameters. Only the number of regular parameters is declared, so with one bypass entry the last slot is stored but never read. The model does the same (`Bind` accepts every slot below `numControls`).
- For one input (or one output) the source writes a separate single-port group with unnumbered symbol and name. The model covers it through `AudioSymbol` and `AudioName`, because the bracket structure is the same.

## Findings

| source | as written | input that shows it | evidently intended | confidence | as-written member | corrected member |
|---|---|---|---|---|---|---|
| juce_audio_plugin_client_Anagram_LV2.cpp:638-641 | The `lv2:port` list is closed only after the last entry of the parameter list (`i + 1 == numControls`); `Descriptor.Recall` with `AsWritten` writes it so. When that entry is the bypass parameter, its round `continue`s before the check, so the previous regular parameter wrote "] , [" and the list is never closed. | An accepted engine with two parameters whose second is the bypass parameter (`Descriptor.BypassLastEngine`). | Close the list after the last regular parameter, wherever the bypass entry sits. | not executed | Descriptor.AsWrittenWellFormedIff | Descriptor.CorrectedWellFormed |
| juce_audio_plugin_client_Anagram_LV2.cpp:697-705 | `uridMap` is declared without an initial value and handed to `lv2_log_logger_set_map` right after `lv2_features_query`, before the `missing` check. The query stops at the first missing required feature, as the LV2 utility header documents, so it never writes `uridMap` when the option array is missing. | A host that offers a URID map but no option array. | Initialise `uridMap` to `nullptr`, or call `lv2_log_logger_set_map` only after the `missing` check. | plausible; not executed (the LV2 headers are not part of this model) | Lv2Entry.MapUnsetWithoutOptions | Lv2Entry.MapSetWhenNothingMissing |
