# TrackMate settings checks, segment linking and the manual detector, in Dafny

This project models three pieces of TrackMate, the Fiji plugin for single-particle tracking:

- **`SegmentTracker`** is the second step of Jaqaman's LAP tracker. It checks its settings map
  with `checkSettingsValidity`: every mandatory parameter must be present with its class, the
  three feature-penalty maps must be well formed, and no unknown key may appear. It then hands
  the graph to a segment linker. Each source-to-target assignment the linker returns becomes a
  new graph edge, weighted by that assignment's cost. The linker's cost matrix and solver are
  represented by their outcome, `LinkerOutcome`.
- **`AbstractProvider`** is the base of TrackMate's providers. It holds the selected key and the
  last error message. Its guarded helpers write a settings parameter to an XML element
  attribute, read one back (as a `Double`, an `Integer` or a `Boolean`), and check settings
  maps: `checkParameter`, `checkMapKeys` and `checkFeatureMap`.
- **`ManualDetectorFactory`** is the detector factory behind manual annotation. Its only
  setting is the spot radius, which it checks, stores, writes and reads. The detector it hands
  out finds nothing. `GetKey` is its key, `"MANUAL_DETECTOR"`.

Java objects that the source updates in place are Dafny classes:

- the provider, the tracker and the factory;
- a shared `Map<String, Object>` (`Values.SettingsMap`);
- a JDOM `Element` (`Values.Element`);
- the JGraphT graph (`Graphs.WeightedGraph`).

Settings values are the datatype `Values.Value`, and a `double` is kept opaque as the text
`Double.toString` prints for it. A `StringBuilder` error holder is modelled by the sequence of
pieces appended to it; the text is `Concat` of those pieces. Each checking method is proved
against a report function, which says exactly what it appends. Lemmas then relate those reports
to independent validity predicates (`SegmentSettingsValid`, `PenaltySettingOk`,
`KeysConform`, `RadiusSettingsValid`).

Some inputs come from outside the code and are parameters:

- The iteration order of a `HashMap` key set is the parameter `order`/`settingsOrder`. It is
  required to list every key exactly once (`Values.Enumerates`).
- `Double.parseDouble` is the partial function parameter `parseDouble`.
- The wall-clock time `process` measures is the parameter `elapsed`.
- `Runtime.availableProcessors()` is the parameter `availableProcessors`.

Files: `values.dfy`, `parsing.dfy`, `validation.dfy`, `provider.dfy`, `graph.dfy`,
`segment_tracker.dfy`, `manual_detector.dfy`.

## Model

| member | source | states |
|---|---|---|
| `Validation.CheckParameter` | src/main/java/fiji/plugin/trackmate/AbstractProvider.java:244-255 | succeeds iff the key maps to a non-null instance of the expected class; otherwise appends exactly the "could not be found" message (absent or null value) or the "not of the right class" message naming both classes |
| `Validation.CheckMapKeys` | src/main/java/fiji/plugin/trackmate/AbstractProvider.java:210-234 | succeeds iff every key is mandatory or optional and every mandatory key is present (null lists read as empty); succeeds iff nothing is appended; appends one message per unexpected key in key-set order, then one per missing mandatory key in list order |
| `Validation.KeysConformIffNoReport` | src/main/java/fiji/plugin/trackmate/AbstractProvider.java:210-234 | the key-set conformance predicate holds exactly when both loops of `checkMapKeys` report nothing |
| `Validation.UnexpectedKeyReportEmpty` | src/main/java/fiji/plugin/trackmate/AbstractProvider.java:218-224 | the unexpected-key loop reports nothing iff every visited key is allowed |
| `Validation.MissingKeyReportEmpty` | src/main/java/fiji/plugin/trackmate/AbstractProvider.java:226-231 | the missing-key loop reports nothing iff every mandatory key is present |
| `Validation.UnexpectedKeyReportNames` | src/main/java/fiji/plugin/trackmate/AbstractProvider.java:218-224 | a key is named as unexpected iff it is in the map and not allowed |
| `Validation.MissingKeyReportNames` | src/main/java/fiji/plugin/trackmate/AbstractProvider.java:226-231 | a key is named as missing iff it is mandatory and absent |
| `Validation.UnexpectedKeyReportCount` | src/main/java/fiji/plugin/trackmate/AbstractProvider.java:218-224 | for distinct keys, one message per key outside the allowed set and no more |
| `Validation.FramedInjective` | src/main/java/fiji/plugin/trackmate/AbstractProvider.java:222 | a message of the form prefix + key + suffix determines the key it names |
| `Validation.CheckFeatureMap` | src/main/java/fiji/plugin/trackmate/AbstractProvider.java:271-297 | succeeds iff the penalty setting is absent (null) or a map whose every key and value is a String; succeeds iff nothing is appended; appends "not a Map" for another class, else a key message and/or a value message per bad entry in iteration order (corrected for null entries, see Findings) |
| `Validation.PenaltyEntriesReportEmpty` | src/main/java/fiji/plugin/trackmate/AbstractProvider.java:283-295 | the entry loop reports nothing iff every entry has a String key and a String value |
| `Validation.FeatureMapCheckAsWritten` | src/main/java/fiji/plugin/trackmate/AbstractProvider.java:271-297 | the source's `checkFeatureMap` throws only for a penalty map holding a null key or value |
| `Validation.AsWrittenAgreesWithoutNulls` | src/main/java/fiji/plugin/trackmate/AbstractProvider.java:271-297 | where the source does not throw, it returns the same verdict and messages as the corrected check |
| `Validation.NullPenaltyWeightThrows` | src/main/java/fiji/plugin/trackmate/AbstractProvider.java:290-294 | a penalty map `{QUALITY=null}` makes the source throw, while the corrected check reports the value as not a String |
| `Providers.AttributeTextSucceeds` | src/main/java/fiji/plugin/trackmate/AbstractProvider.java:79-94 | definitional helper: the success condition of the attribute text `writeAttribute` stores, used by the round-trip lemmas |
| `Providers.IntegerAttributeRoundTrip` | src/main/java/fiji/plugin/trackmate/AbstractProvider.java:146-160 | an Integer written by `writeAttribute` is read back unchanged by `readIntegerAttribute` (through `Integer.parseInt` of its decimal text) |
| `Providers.BooleanAttributeRoundTrip` | src/main/java/fiji/plugin/trackmate/AbstractProvider.java:162-176 | a Boolean written by `writeAttribute` is read back unchanged by `readBooleanAttribute` |
| `Providers.DoubleAttributeRoundTrip` | src/main/java/fiji/plugin/trackmate/AbstractProvider.java:130-144 | a Double written by `writeAttribute` is read back unchanged by `readDoubleAttribute`, given that parsing its printed text gives it back |
| `Providers.BooleanAttributeFailsOnlyWhenMissing` | src/main/java/fiji/plugin/trackmate/AbstractProvider.java:162-176 | definitional helper: the Boolean reading fails only for a missing attribute, since `Boolean.parseBoolean` never throws |
| `Providers.AbstractProvider.constructor` | src/main/java/fiji/plugin/trackmate/AbstractProvider.java:24-33 | a provider starts with its keys, names and info texts, no selected key and no error |
| `Providers.AbstractProvider.Select` | src/main/java/fiji/plugin/trackmate/AbstractProvider.java:51-60 | returns true iff the key is known; then it becomes current and the error is cleared; otherwise the selection is unchanged and the error is "Unknown key: key.\n"; the current key always stays one of the keys |
| `Providers.AbstractProvider.WriteAttribute` | src/main/java/fiji/plugin/trackmate/AbstractProvider.java:79-94 | succeeds iff the value is present and of the expected class; then exactly that attribute is set to the value's text; otherwise the element is untouched and the error is the missing-parameter or the "Exoected ..." message |
| `Providers.AbstractProvider.ReadDoubleAttribute` | src/main/java/fiji/plugin/trackmate/AbstractProvider.java:130-144 | succeeds iff the attribute is present and parses; then exactly that settings entry is set; otherwise the settings are untouched and the error names the missing or unreadable attribute |
| `Providers.AbstractProvider.ReadIntegerAttribute` | src/main/java/fiji/plugin/trackmate/AbstractProvider.java:146-160 | same as the Double reader, with `Integer.parseInt` (optional sign, decimal digits, 32-bit range) |
| `Providers.AbstractProvider.ReadBooleanAttribute` | src/main/java/fiji/plugin/trackmate/AbstractProvider.java:162-176 | succeeds iff the attribute is present; then exactly that entry is set to `Boolean.parseBoolean` of it; otherwise only the error changes |
| `Graphs.WeightedGraph.AddEdge` | src/main/java/fiji/plugin/trackmate/tracking/jaqaman/SegmentTracker.java:210 | a new edge with the default weight when the spots are not yet joined, else `null` and no change; the graph stays simple |
| `Graphs.WeightedGraph.SetEdgeWeight` | src/main/java/fiji/plugin/trackmate/tracking/jaqaman/SegmentTracker.java:212-213 | only that edge's weight changes; the graph stays simple |
| `SegmentTracking.CheckSettingsValidity` | src/main/java/fiji/plugin/trackmate/tracking/jaqaman/SegmentTracker.java:241-285 | a null map fails with "Settings map is null.\n"; otherwise every one of the thirteen checks runs and appends its messages in call order, and the result is true iff the map is valid (well-typed entries, recognised keys) iff nothing was appended (feature maps checked by the corrected check, see Findings) |
| `SegmentTracking.ChecksDecideValidity` | src/main/java/fiji/plugin/trackmate/tracking/jaqaman/SegmentTracker.java:249-283 | the conjunction of the thirteen checks is exactly the validity predicate |
| `SegmentTracking.KeySetDecided` | src/main/java/fiji/plugin/trackmate/tracking/jaqaman/SegmentTracker.java:266-283 | the key-set check passes iff every key is recognised and all nine mandatory keys are present |
| `SegmentTracking.RecognisedKeys` | src/main/java/fiji/plugin/trackmate/tracking/jaqaman/SegmentTracker.java:266-281 | the mandatory and optional lists allow exactly the twelve copied keys and the blocking value |
| `SegmentTracking.MissingMandatoryKeyNamed` | src/main/java/fiji/plugin/trackmate/tracking/jaqaman/SegmentTracker.java:249-283 | a missing mandatory key is reported both by its parameter check and by the key-set check |
| `SegmentTracking.UnexpectedKeyNamed` | src/main/java/fiji/plugin/trackmate/tracking/jaqaman/SegmentTracker.java:266-283 | an unrecognised key is reported by the key-set check |
| `SegmentTracking.ProjectSettings` | src/main/java/fiji/plugin/trackmate/tracking/jaqaman/SegmentTracker.java:120-136 | the copied settings hold exactly the twelve keys (not the blocking value), each mapped to the full settings' value or null |
| `SegmentTracking.ProjectedSettingsValidIff` | src/main/java/fiji/plugin/trackmate/tracking/jaqaman/SegmentTracker.java:113-139 | the copy always passes the key-set check, and it is valid iff the full settings' values are well typed |
| `SegmentTracking.AssignmentEdgesGrow` | src/main/java/fiji/plugin/trackmate/tracking/jaqaman/SegmentTracker.java:207-214 | linking one more source adds exactly its edge, weighted by its cost |
| `SegmentTracking.NextEdgeIsNew` | src/main/java/fiji/plugin/trackmate/tracking/jaqaman/SegmentTracker.java:209-210 | for an assignment the linker guarantees, the next source is not yet joined to its target, so `addEdge` never returns null |
| `SegmentTracking.AddAssignedEdge` | src/main/java/fiji/plugin/trackmate/tracking/jaqaman/SegmentTracker.java:209-213 | one iteration adds the source's edge with its cost and keeps the graph simple |
| `SegmentTracking.AddAssignedEdges` | src/main/java/fiji/plugin/trackmate/tracking/jaqaman/SegmentTracker.java:207-214 | after the loop the graph holds its old edges plus exactly one edge per assigned source, weighted by its cost; spots unchanged |
| `SegmentTracking.SegmentTracker.constructor` | src/main/java/fiji/plugin/trackmate/tracking/jaqaman/SegmentTracker.java:106-111 | keeps the caller's graph and settings map, thread count set to the number of processors |
| `SegmentTracking.SegmentTracker.WithLogger` | src/main/java/fiji/plugin/trackmate/tracking/jaqaman/SegmentTracker.java:113-139 | keeps the graph and a fresh map of the twelve copied settings |
| `SegmentTracking.SegmentTracker.SetNumThreads` | src/main/java/fiji/plugin/trackmate/tracking/jaqaman/SegmentTracker.java:294-297 | `getNumThreads` then returns the given count |
| `SegmentTracking.SegmentTracker.SetDefaultNumThreads` | src/main/java/fiji/plugin/trackmate/tracking/jaqaman/SegmentTracker.java:288-291 | `getNumThreads` then returns the processor count |
| `SegmentTracking.SegmentTracker.Process` | src/main/java/fiji/plugin/trackmate/tracking/jaqaman/SegmentTracker.java:154-221 | true iff the graph is present, the settings valid and the linker succeeds; a null graph sets "[SegmentTracker] The input graph is null."; invalid settings set the prefix plus every validity message and leave the graph alone; a linker failure sets the linker's message and leaves the graph alone; success adds one edge per assignment weighted by its cost, records the elapsed time and keeps the error (feature maps checked by the corrected check, see Findings) |
| `ManualDetection.RadiusKeysConform` | src/main/java/fiji/plugin/trackmate/detection/ManualDetectorFactory.java:144-146 | the key check with the radius as only mandatory key and no optional keys accepts exactly the key set `{RADIUS}` |
| `ManualDetection.ManualDetectorFactory.CheckSettings` | src/main/java/fiji/plugin/trackmate/detection/ManualDetectorFactory.java:139-151 | true iff RADIUS maps to a Double and there is no other key; on failure the error is the concatenated (non-empty) messages of both checks; on success the previous error stays |
| `ManualDetection.ManualDetectorFactory.SetTarget` | src/main/java/fiji/plugin/trackmate/detection/ManualDetectorFactory.java:132-136 | always stores the caller's map and returns exactly the `checkSettings` verdict |
| `ManualDetection.ManualDetectorFactory.Marshall` | src/main/java/fiji/plugin/trackmate/detection/ManualDetectorFactory.java:154-161 | succeeds iff a Double radius is present; then only the RADIUS attribute is written; on failure the element is untouched and the error is set |
| `ManualDetection.ManualDetectorFactory.Unmarshall` | src/main/java/fiji/plugin/trackmate/detection/ManualDetectorFactory.java:164-175 | always clears the caller's map; succeeds iff the RADIUS attribute is present and parses, leaving exactly the radius in the map; a failed read leaves the map empty and sets the read's message without running the check |
| `ManualDetection.UnmarshalledSettingsValid` | src/main/java/fiji/plugin/trackmate/detection/ManualDetectorFactory.java:164-175 | a successful read always yields settings that `checkSettings` accepts, so `unmarshall` fails only on the read |
| `ManualDetection.MarshallRoundTrip` | src/main/java/fiji/plugin/trackmate/detection/ManualDetectorFactory.java:154-175 | valid settings written by `marshall` and read back by `unmarshall` are the same settings |
| `ManualDetection.DefaultSettings` | src/main/java/fiji/plugin/trackmate/detection/ManualDetectorFactory.java:196-201 | the default settings hold the default radius alone, so they are valid |
| `ManualDetection.DefaultSettingsPassChecks` | src/main/java/fiji/plugin/trackmate/detection/ManualDetectorFactory.java:139-151 | the default settings pass both checks of `checkSettings` without a message |
| `ManualDetection.GetDetector` | src/main/java/fiji/plugin/trackmate/detection/ManualDetectorFactory.java:76-111 | the detector finds no spot, `checkInput` and `process` succeed, its error is null and its processing time 0 |
| `Providers.AbstractProvider.GetCurrentKey` | src/main/java/fiji/plugin/trackmate/AbstractProvider.java:41-43 | returns the selected key, which is always one of the provider's keys (field documentation, lines 27-28) |
| `Providers.AbstractProvider.GetErrorMessage` | src/main/java/fiji/plugin/trackmate/AbstractProvider.java:65-67 | returns the message of the last unsuccessful call, or null |
| `SegmentTracking.SegmentTracker.GetResult` | src/main/java/fiji/plugin/trackmate/tracking/jaqaman/SegmentTracker.java:142-145 | returns the graph given at construction, the one `process` adds links to |
| `SegmentTracking.SegmentTracker.GetErrorMessage` | src/main/java/fiji/plugin/trackmate/tracking/jaqaman/SegmentTracker.java:224-227 | returns the message the last failed `process` set, or null |
| `SegmentTracking.SegmentTracker.GetProcessingTime` | src/main/java/fiji/plugin/trackmate/tracking/jaqaman/SegmentTracker.java:230-233 | returns the time the last successful `process` recorded |
| `SegmentTracking.SegmentTracker.GetNumThreads` | src/main/java/fiji/plugin/trackmate/tracking/jaqaman/SegmentTracker.java:300-303 | returns the thread count last set |
| `ManualDetection.GetKey` | src/main/java/fiji/plugin/trackmate/detection/ManualDetectorFactory.java:113-117 | the factory's key is "MANUAL_DETECTOR", distinct from its display name |
| `ManualDetection.ManualDetectorFactory.GetErrorMessage` | src/main/java/fiji/plugin/trackmate/detection/ManualDetectorFactory.java:125-129 | returns the message of the last failed check, read or write, or null |

## Left out

- Logging and progress reporting (`Logger`, `SlaveLogger`, `setLogger`) have no effect on the
  results and are not modelled.
- Cost-matrix building and the LAP solve (`JaqamanSegmentCostMatrixCreator`, `JaqamanLinker`)
  are not part of this model. `Process` takes the linker's outcome as a parameter, and
  `AssignmentFits` states what a successful assignment is assumed to satisfy.
- The same assumption covers JGraphT's exceptions. The linker is assumed never to assign a spot
  to itself, to a spot outside the graph, to an already joined pair, or twice to one pair; the
  source would throw in each case (`addEdge` on a loop, or `setEdgeWeight` on the `null` edge).
- `System.currentTimeMillis` and `Runtime.availableProcessors` become the parameters `elapsed`
  and `availableProcessors`.
- `checkInput` of `SegmentTracker` is not modelled: it always returns true and checks nothing
  (the checks run in `process`).
- `marshallMap`, `unmarshallMap`, `getKeys`, `getNames` and `getInfoTexts` of
  `AbstractProvider` are not modelled. The map helpers use JDOM attribute lists and double
  conversion, which are outside this model; the getters only return fields.
- GUI members of `ManualDetectorFactory` are not modelled: the configuration panel, the icon,
  `getInfoText`, `getName`, `toString`, `has2Dsegmentation` and `copy`. Neither are the image
  and interval arguments of `setTarget` and `getDetector`, which the factory ignores.
- `ManualDetectorFactory` calls helpers of `TMUtils` and `IOUtils`: `checkParameter`,
  `checkMapKeys`, `readDoubleAttribute` and `writeRadius`. Those classes are not part of this
  model. The helpers are taken to behave and word their messages like the `AbstractProvider`
  ones of the same names, with `writeRadius` writing the `RADIUS` attribute as a Double.
  `DetectorKeys` is not part of this model either: `RADIUS` and the default radius 5.0 are
  written out.
- `TrackerKeys` is not part of this model: the thirteen key texts are written out. Only their
  distinctness matters to the proofs.
- Floating point is not modelled. A `double` is the text `Double.toString` prints for it, and
  `Double.parseDouble` is an arbitrary partial function given as a parameter.
- `Integer.parseInt` is modelled for ASCII digits only. Java also accepts other Unicode decimal
  digits.
- `null` maps are not modelled. The source throws `NullPointerException` for a `null`
  full-settings map passed to the logger constructor, and for a `null` map passed to `setTarget`,
  `checkSettings`, `marshall`, `unmarshall` or `writeAttribute`. `null` keys in settings maps are
  not modelled either. Settings maps are `map<string, Value>`.
- Providers.AbstractProvider.WriteAttribute: attribute names and texts are assumed legal for XML.
  JDOM's `Element.setAttribute` throws `IllegalNameException` for a key that is not an XML name
  (such as "1ST KEY"), and `IllegalDataException` for text holding a character XML forbids (such
  as U+0001). The contract's "succeeds iff" does not cover those throws.
- ManualDetection.ManualDetectorFactory.Marshall: the same assumption of legal XML attribute text
  applies to the radius written by `writeRadius`.
- A penalty map value (`Values.MapV`) is a sequence of entries with a class name. Distinct keys
  and a `Map` class are not enforced, so the model admits entry lists that no Java map holds. The
  checks' verdicts and messages are stated for every entry list, Java's maps included.
- Concurrency (`numThreads` is only stored) is not modelled.

The doc comment of `checkFeatureMap` describes penalty maps as `Map<String, Double>`. The code
requires String values, and the model follows the code.

## Findings

| source | as written | input that shows it | evidently intended | confidence | as-written member | corrected member |
|---|---|---|---|---|---|---|
| src/main/java/fiji/plugin/trackmate/AbstractProvider.java:283-295 | a penalty-map key or value that is `null` fails its `instanceof String` test, and then `toString()` / `getClass()` is called on it, throwing `NullPointerException` out of `checkSettingsValidity` | settings with `GAP_CLOSING_FEATURE_PENALTIES` mapped to `{QUALITY=null}` | report the entry as not being a String and return false, as for any other non-String entry | not executed | `Validation.FeatureMapCheckAsWritten` (with `Validation.NullPenaltyWeightThrows`) | `Validation.CheckFeatureMap` |
