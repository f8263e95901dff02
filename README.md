# mobileinsight-core: DM log packet decoder, WCDMA RRC analyzer, LTE NAS analyzer

This project models three components of mobileinsight-core that sit one after
another in its analysis pipeline, and proves properties of each:

- **The DM log packet decoder** (`DmLogPacket`, `dm_log_packet.dfy`). It takes
  the `(field_name, val, type_str)` triplets the collector library produces:
  - The pre-parse pass replaces every embedded `raw_msg/<T>` payload with the
    dissected XML, wrapped in `<msg>`.
  - For a WCDMA BCCH broadcast, the pre-parse pass also decodes the complete
    short SIBs that follow, using a fixed table of SIB types.
  - The renderer turns a record into a dict, a tuple, or an `item`/`pair`
    element tree.
  - The positional result search collects the last decode for each target name.
- **The WCDMA RRC analyzer** (`WcdmaRrcAnalyzer`, `wcdma_rrc_analyzer.dfy`). It
  is a class holding the serving-cell status object, a history of status
  objects keyed by timestamp, and a table of per-cell configuration objects
  keyed by `(cell id, frequency)`:
  - Cell-id records fill or replace the status.
  - WCDMA signalling messages carry serving-cell, intra-frequency and EUTRA
    neighbour SIB elements. Each element's fields are overlaid on fixed
    defaults and scaled (doubled where 3GPP TS 25.331 uses units of 2 dB).
- **The LTE NAS analyzer** (`LteNasAnalyzer`, `lte_nas_analyzer.dfy`). It is a
  class holding the EMM status with its GUTI, the ESM bearers by id, the
  current bearer id, and the profile store it writes QoS to:
  - EMM and ESM state reports overwrite fields from a decoded dictionary.
  - EMM and ESM over-the-air messages are walked field by field. A GUTI
    element replaces the GUTI. A QoS element merges the QoS fields it carries
    into the current bearer and writes them to the profile.
  - `get_profiled_qos` reads a network's QoS back from the profile.

Three support modules hold what the components share:
- `Wrappers`: `Option` and `Result`.
- `PyValues`: Python scalars, plus `int()`, `str.split` and `binascii.a2b_hex`.
- `Xml`: an abstract element tree with ElementTree's `get`, `iter`, `find` and
  `findall`, and the `field_val[name] = show` fold both analyzers run.

Foreign code is passed in as parameters:
- the Wireshark dissector (`Dissector`);
- the XML text parser (`XmlParser`, standing for `ET.XML`/`ET.fromstring`);
- the `nas_util` helpers and `float()` (the `NasUtil` record).

A Python exception raised inside a callback is modelled as a failed result:
`ok == false`, or `Failure`. Every update made before the exception is kept,
as it is in the analyzers. The `RuntimeError` that `_preparse_internal_list`
re-raises is `Failure` as well.

Behaviours of the code worth knowing (the model follows the code):
- **The config is created before `int()` fails.** The SIB callback creates the
  configuration of the current cell before the element's `int()` conversions
  run (automator/analyzer/wcdma_rrc_analyzer.py lines 146-155). An element
  with a missing mandatory field therefore still leaves an entry behind, with
  default settings.
- **The history stores the new status.** Each time the serving cell status
  changes, the history records the NEW status object, not the one it
  replaced.
- **The replacement cascade keeps only the last field.** Once the status is
  initialised, one event can replace the status several times. The four
  checks compare against the status the previous check left. So after a
  replacement, every later present key that is not None replaces it again.
  The final status holds a single field (`CascadeReplaced`).
- **`FormatError` is never raised.** The decoder documents it, but no code
  path raises it. A triplet with an unknown tag makes `_parse_internal_list`
  reuse the previous iteration's `xx`. On the first iteration there is no
  `xx`, and an UnboundLocalError is raised instead.
- **The ESM state report copies the maximum downlink rates.** It reads `"DL
  MBR"` and `"DL MBR ext"` into the guaranteed downlink rate fields.
- **The profile id is concatenated without `xstr`.** So an ESM state report
  that arrives before the GUTI is complete raises a TypeError.

## Model

| member | source | states |
|---|---|---|
| Xml.Element.Get | mobile_insight/analyzer/lte_nas_analyzer.py:219 | `get` yields the attribute exactly when the element has it |
| Xml.WithNameMembers | mobile_insight/monitor/dm_collector/dm_endec/dm_log_packet.py:112-113 | the `[@name='n']` filter keeps exactly the elements carrying that name |
| Xml.ChildrenTaggedMembers | mobile_insight/monitor/dm_collector/dm_endec/dm_log_packet.py:117-118 | the child step of `find("field[...]")` keeps exactly the direct children with the tag |
| Xml.First | mobile_insight/monitor/dm_collector/dm_endec/dm_log_packet.py:133-140 | `find` yields the first match, and None exactly when there is none |
| Xml.LastNamed | automator/analyzer/wcdma_rrc_analyzer.py:143-144 | the position found is the last field with the name; None means no field has it |
| Xml.OverlayLookup | automator/analyzer/wcdma_rrc_analyzer.py:143-144 | after the `field_val` fold a key holds the `show` of the last field so named, otherwise its default; keys appear only from defaults or fields |
| Xml.OverlayKeys | automator/analyzer/wcdma_rrc_analyzer.py:143-144 | the fold never drops a default key |
| Xml.OverlayStep | automator/analyzer/wcdma_rrc_analyzer.py:143-144 | one more field overwrites exactly its name's entry |
| Xml.FieldValue | automator/analyzer/wcdma_rrc_analyzer.py:134-144 | a name read after the fold is the last `show` so named, else the default |
| Xml.CollectFieldVals | automator/analyzer/wcdma_rrc_analyzer.py:143-144 | the loop over `iter('field')` builds exactly the overlay of the defaults with every field in document order |
| PyValues.ToInt | mobile_insight/analyzer/lte_nas_analyzer.py:248 | `int()` keeps ints, parses strings (surrounding whitespace, an optional sign, whitespace after the sign, then digits), and raises on None |
| PyValues.SpaceAfterSign | mobile_insight/analyzer/lte_nas_analyzer.py:248 | `int()` accepts whitespace between the sign and the digits: `int("- 5") == -5`, `int("+\t3") == 3` |
| PyValues.ParseShowInt | mobile_insight/analyzer/lte_nas_analyzer.py:365 | `int(str(i)) == i` for every integer |
| PyValues.Split | mobile_insight/analyzer/lte_nas_analyzer.py:146 | `split` yields at least one piece, none containing the separator |
| PyValues.JoinSplit | mobile_insight/analyzer/lte_nas_analyzer.py:146 | joining the pieces of a split gives back the string |
| PyValues.SplitJoin | mobile_insight/analyzer/lte_nas_analyzer.py:146-148 | splitting a join of separator-free pieces gives back the pieces |
| PyValues.SplitCount | mobile_insight/analyzer/lte_nas_analyzer.py:146-148 | a split has a second piece exactly when the separator occurs (otherwise `tmp[1]` raises) |
| PyValues.HexRoundTrip | mobile_insight/monitor/dm_collector/dm_endec/dm_log_packet.py:123 | `a2b_hex` inverts hex encoding |
| PyValues.HexOddLength | mobile_insight/monitor/dm_collector/dm_endec/dm_log_packet.py:123 | `a2b_hex` fails on odd-length text |
| DmLogPacket.Need | mobile_insight/monitor/dm_collector/dm_endec/dm_log_packet.py:119-123 | a missing value raises; a present one is passed on |
| DmLogPacket.WrapShape | mobile_insight/monitor/dm_collector/dm_endec/dm_log_packet.py:358-363 | the wrapper starts with `<msg>\n` and ends with `</msg>\n`; it is empty if any part is None, otherwise the concatenated parts sit in between |
| DmLogPacket.WrapOnePart | mobile_insight/monitor/dm_collector/dm_endec/dm_log_packet.py:358-359 | a single string is wrapped as the one-element list holding it |
| DmLogPacket.Values | mobile_insight/monitor/dm_collector/dm_endec/dm_log_packet.py:358-363 | the decodes joined inside the wrapper, one per entry and in order, when none is None |
| DmLogPacket.SibInfos | mobile_insight/monitor/dm_collector/dm_endec/dm_log_packet.py:116-123 | the k-th id and payload read are those of the k-th complete SIB |
| DmLogPacket.SibStep | mobile_insight/monitor/dm_collector/dm_endec/dm_log_packet.py:116-130 | one complete SIB succeeds exactly when its id and payload read, and yields at most one decode |
| DmLogPacket.StepsAt | mobile_insight/monitor/dm_collector/dm_endec/dm_log_packet.py:94-152 | the k-th iteration outcome is that of the k-th triplet |
| DmLogPacket.PreFoldStep | mobile_insight/monitor/dm_collector/dm_endec/dm_log_packet.py:148-152 | an iteration that completes appends its triplet |
| DmLogPacket.PreFoldAfterStop | mobile_insight/monitor/dm_collector/dm_endec/dm_log_packet.py:108-110 | after the early return nothing more is appended |
| DmLogPacket.PreFoldAfterFailure | mobile_insight/monitor/dm_collector/dm_endec/dm_log_packet.py:155-164 | after an exception the whole pass fails |
| DmLogPacket.SibInfosOf | mobile_insight/monitor/dm_collector/dm_endec/dm_log_packet.py:116-123 | the reads of every complete SIB, by position |
| DmLogPacket.InfosOfUnique | mobile_insight/monitor/dm_collector/dm_endec/dm_log_packet.py:116-123 | those reads are the ones the specification names |
| DmLogPacket.DecodeCompleteSibs | mobile_insight/monitor/dm_collector/dm_endec/dm_log_packet.py:112-130 | the loop over the complete SIBs yields exactly the fold of per-SIB decodes, stopping at the first that raises |
| DmLogPacket.ReadCompleteSib | mobile_insight/monitor/dm_collector/dm_endec/dm_log_packet.py:117-123 | the body reads the SIB's `sib_Type` show and `sib_Data_variable` value |
| DmLogPacket.SibFoldStep | mobile_insight/monitor/dm_collector/dm_endec/dm_log_packet.py:116-130 | one more SIB appends its decode to those before |
| DmLogPacket.FoldFailureStays | mobile_insight/monitor/dm_collector/dm_endec/dm_log_packet.py:119-123 | once a SIB raises the whole list fails |
| DmLogPacket.StepsOfList | mobile_insight/monitor/dm_collector/dm_endec/dm_log_packet.py:94-152 | the outcome of every iteration, by position |
| DmLogPacket.StepsOfUnique | mobile_insight/monitor/dm_collector/dm_endec/dm_log_packet.py:94-152 | those outcomes are the ones the specification names |
| DmLogPacket.PreparseInternalList | mobile_insight/monitor/dm_collector/dm_endec/dm_log_packet.py:89-164 | the `while` loop computes exactly the pre-parse specification: triplets in order, early return on an unparsable BCCH, failure on an exception |
| DmLogPacket.PreparseEntry | mobile_insight/monitor/dm_collector/dm_endec/dm_log_packet.py:95-151 | one iteration yields that triplet's outcome |
| DmLogPacket.PreFoldShape | mobile_insight/monitor/dm_collector/dm_endec/dm_log_packet.py:94-153 | the output holds each iteration's triplet in order and ends at the first early return |
| DmLogPacket.PreparseShape | mobile_insight/monitor/dm_collector/dm_endec/dm_log_packet.py:94-153 | output triplet k stands exactly for input triplet k: copied unchanged; a raw message under the same name with tag `msg` holding its own decode, followed for a BCCH message by exactly the SIB decodes of its parsed XML; or, for a BCCH decode that does not parse, the `Unsupported` triplet holding that decode, which is then the last output. The output is cut short only after such a triplet |
| DmLogPacket.StepOutFor | mobile_insight/monitor/dm_collector/dm_endec/dm_log_packet.py:96-151 | an iteration that completes ends the loop exactly for an unparsable BCCH message, and yields `Unsupported` for it or the corresponding triplet otherwise |
| DmLogPacket.PreparseStopsAtUnsupported | mobile_insight/monitor/dm_collector/dm_endec/dm_log_packet.py:101-110 | the first unparsable BCCH message, at position k, makes the output exactly k+1 triplets long, the last one `Unsupported` with that message's decode |
| DmLogPacket.PreStepShape | mobile_insight/monitor/dm_collector/dm_endec/dm_log_packet.py:96-151 | an unparsable BCCH message never raises and yields `Unsupported` with its decode, ending the loop; any other iteration that does not raise yields its corresponding triplet and goes on |
| DmLogPacket.PreparseNoRaw | mobile_insight/monitor/dm_collector/dm_endec/dm_log_packet.py:150-151 | a record without raw messages passes through unchanged |
| DmLogPacket.PreFoldNoRaw | mobile_insight/monitor/dm_collector/dm_endec/dm_log_packet.py:150-151 | the prefix form of the same |
| DmLogPacket.KnownSibsDecodeInOrder | mobile_insight/monitor/dm_collector/dm_endec/dm_log_packet.py:80-130 | when every complete SIB reads, the loop yields exactly the decodes of the SIBs with known ids, in document order, each under its mapped type, whatever unknown SIBs sit between them |
| DmLogPacket.Known | mobile_insight/monitor/dm_collector/dm_endec/dm_log_packet.py:124-130 | the SIBs kept are no more than those read, and all have known ids |
| DmLogPacket.DecodeAll | mobile_insight/monitor/dm_collector/dm_endec/dm_log_packet.py:124-127 | one decode per known SIB, position by position, under the type its id maps to |
| DmLogPacket.BcchExtraKnown | mobile_insight/monitor/dm_collector/dm_endec/dm_log_packet.py:112-130 | for a parsed BCCH message with complete SIBs that does not raise, the decodes added are exactly those of its known SIBs in document order |
| DmLogPacket.UnknownSibsSkipped | mobile_insight/monitor/dm_collector/dm_endec/dm_log_packet.py:129-130 | complete SIBs with unknown ids add nothing and raise nothing |
| DmLogPacket.MalformedSibFails | mobile_insight/monitor/dm_collector/dm_endec/dm_log_packet.py:119-123 | a SIB with an unreadable id or payload fails the record |
| DmLogPacket.SegmentAddsNothing | mobile_insight/monitor/dm_collector/dm_endec/dm_log_packet.py:131-147 | without complete SIBs a segment never adds a decode; it can only fail on an unreadable segment id |
| DmLogPacket.Render | mobile_insight/monitor/dm_collector/dm_endec/dm_log_packet.py:188-239 | a `dict` or `list` triplet whose value is neither nested triplets nor an empty string makes the call fail; XML output types yield an element, the others a dict or tuple |
| DmLogPacket.RenderNested | mobile_insight/monitor/dm_collector/dm_endec/dm_log_packet.py:196-205 | the recursive call fails for a value that is neither nested triplets nor an empty string |
| DmLogPacket.MisfitFails | mobile_insight/monitor/dm_collector/dm_endec/dm_log_packet.py:192-226 | a `dict` or `list` triplet holding a scalar or a non-empty string, or in XML output a `msg` triplet holding no text, fails the whole call wherever it sits |
| DmLogPacket.AsValue | mobile_insight/monitor/dm_collector/dm_endec/dm_log_packet.py:192-195 | a plain or `msg` value is kept as it is: a scalar as a scalar, any other Python object unchanged |
| DmLogPacket.BytesText | mobile_insight/monitor/dm_collector/dm_endec/dm_log_packet.py:220-226 | Python 2 `str` of a byte string has one character per byte, with the byte's code |
| DmLogPacket.RenderFailureStays | mobile_insight/monitor/dm_collector/dm_endec/dm_log_packet.py:188-232 | an exception in any iteration fails the call |
| DmLogPacket.ParseInternalList | mobile_insight/monitor/dm_collector/dm_endec/dm_log_packet.py:167-239 | the `while` loop, with its recursive calls, computes exactly the render specification, including failure for a nested tag whose value is not nested |
| DmLogPacket.RenderEntry | mobile_insight/monitor/dm_collector/dm_endec/dm_log_packet.py:190-232 | one iteration advances the render by exactly one triplet |
| DmLogPacket.RenderFoldUnfold | mobile_insight/monitor/dm_collector/dm_endec/dm_log_packet.py:188-232 | the loop after n iterations is one step after n-1 |
| DmLogPacket.ListFold | mobile_insight/monitor/dm_collector/dm_endec/dm_log_packet.py:180-210 | after n iterations the tuple has n items, each its triplet's value |
| DmLogPacket.RenderList | mobile_insight/monitor/dm_collector/dm_endec/dm_log_packet.py:180-181 | `list` output has one item per triplet, in order: a plain or `msg` value as it is, the nested rendering, or for an unknown tag the item before |
| DmLogPacket.LastWith | mobile_insight/monitor/dm_collector/dm_endec/dm_log_packet.py:207-208 | the position found is the last triplet with the name |
| DmLogPacket.DictStep | mobile_insight/monitor/dm_collector/dm_endec/dm_log_packet.py:207-210 | a dict step succeeds with a list step and writes the same value under the triplet's name |
| DmLogPacket.DictFoldStep | mobile_insight/monitor/dm_collector/dm_endec/dm_log_packet.py:207-210 | the same for the n-th iteration |
| DmLogPacket.DictFold | mobile_insight/monitor/dm_collector/dm_endec/dm_log_packet.py:178-208 | after n iterations each name holds the value of its last triplet |
| DmLogPacket.RenderFoldFailure | mobile_insight/monitor/dm_collector/dm_endec/dm_log_packet.py:188-232 | a failed prefix fails every longer one |
| DmLogPacket.RenderDict | mobile_insight/monitor/dm_collector/dm_endec/dm_log_packet.py:178-179 | `dict` output succeeds exactly when `list` output does; its keys are the names of the triplets, each mapped to the value of its last triplet |
| DmLogPacket.XmlStep | mobile_insight/monitor/dm_collector/dm_endec/dm_log_packet.py:211-230 | one XML step appends exactly one child of the right shape |
| DmLogPacket.XmlFoldStep | mobile_insight/monitor/dm_collector/dm_endec/dm_log_packet.py:211-230 | the same for the n-th iteration |
| DmLogPacket.XmlFold | mobile_insight/monitor/dm_collector/dm_endec/dm_log_packet.py:211-230 | after n iterations the element has n children, one per triplet |
| DmLogPacket.XmlReuse | mobile_insight/monitor/dm_collector/dm_endec/dm_log_packet.py:188-230 | the loop variable after n iterations is what the last one carried, so a triplet with an unknown tag repeats the element of the child before it, and that child is not a plain text |
| DmLogPacket.RenderXml | mobile_insight/monitor/dm_collector/dm_endec/dm_log_packet.py:182-239 | XML output has one child per triplet, in order: `item`, or `pair` with `key`; a plain value gets `str(val)` text, a nested one `type` equal to its tag, a `msg` `type="list"` and the parse of its text; an unknown tag repeats the element of the child before it, which cannot be a plain text |
| DmLogPacket.UnknownFirstFails | mobile_insight/monitor/dm_collector/dm_endec/dm_log_packet.py:192-205 | a first triplet with an unknown tag has no `xx` to reuse and raises |
| DmLogPacket.RenderSucceeds | mobile_insight/monitor/dm_collector/dm_endec/dm_log_packet.py:178-237 | with every tag known and every `dict`/`list` triplet holding triplets, at every depth, dict and tuple output never fail |
| DmLogPacket.FoldSucceeds | mobile_insight/monitor/dm_collector/dm_endec/dm_log_packet.py:188-232 | the prefix form of the same |
| DmLogPacket.TargetNames | mobile_insight/monitor/dm_collector/dm_endec/dm_log_packet.py:318-319 | a single name is treated as a one-element list |
| DmLogPacket.LastDecodeIsLast | mobile_insight/monitor/dm_collector/dm_endec/dm_log_packet.py:324-329 | a target's slot holds the decode of the last result with that name, or None when no result has it |
| DmLogPacket.AllValues | mobile_insight/monitor/dm_collector/dm_endec/dm_log_packet.py:331-335 | the values of a list with no None, position by position |
| DmLogPacket.SearchResult | mobile_insight/monitor/dm_collector/dm_endec/dm_log_packet.py:317-335 | the nested loop over `ret` computes exactly the search specification |
| DmLogPacket.SearchOneName | mobile_insight/monitor/dm_collector/dm_endec/dm_log_packet.py:318-319 | a single name returns the bare decode, just like a one-name list |
| DmLogPacket.SearchFound | mobile_insight/monitor/dm_collector/dm_endec/dm_log_packet.py:320-335 | the search succeeds exactly when there is a target and every target has a decode; each tuple position then holds that decode |
| WcdmaRrcAnalyzer.CellStatus.With | automator/analyzer/wcdma_rrc_analyzer.py:91-97 | assigning a slot sets it and keeps the others |
| WcdmaRrcAnalyzer.Fill | automator/analyzer/wcdma_rrc_analyzer.py:87-97 | before initialisation each present key overwrites its slot and the others are kept |
| WcdmaRrcAnalyzer.CascadeUnchanged | automator/analyzer/wcdma_rrc_analyzer.py:98-121 | once initialised, the status is replaced exactly when a present key differs from its slot; otherwise it is unchanged |
| WcdmaRrcAnalyzer.CascadeReplaced | automator/analyzer/wcdma_rrc_analyzer.py:98-121 | after a replacement the status is a fresh object holding one field of the event; every key the event carries that is checked after that field is None; the status is no longer initialised |
| WcdmaRrcAnalyzer.WcdmaRrcStatus.constructor | automator/analyzer/wcdma_rrc_analyzer.py:274-278 | a new status has every slot None |
| WcdmaRrcAnalyzer.WcdmaRrcStatus.Set | automator/analyzer/wcdma_rrc_analyzer.py:91-97 | assigning one attribute changes only that slot |
| WcdmaRrcAnalyzer.WcdmaRrcStatus.Inited | automator/analyzer/wcdma_rrc_analyzer.py:285-287 | `inited()` holds exactly when id, freq, rac and lac are all non-None |
| WcdmaRrcAnalyzer.IntsOf | automator/analyzer/wcdma_rrc_analyzer.py:151-155 | the converted integers, one per field read |
| WcdmaRrcAnalyzer.IntsOfEach | automator/analyzer/wcdma_rrc_analyzer.py:151-155 | the conversions succeed exactly when each `int()` does, and each yields its field's integer |
| WcdmaRrcAnalyzer.ServScaling | automator/analyzer/wcdma_rrc_analyzer.py:151-155 | the serving record keeps `priority` and `s_PrioritySearch2` and doubles `threshServingLow` and `s_PrioritySearch1`; it fails exactly when some field is not an integer |
| WcdmaRrcAnalyzer.IntraScaling | automator/analyzer/wcdma_rrc_analyzer.py:180-196 | the intra-frequency record keeps `t_Reselection_S`, doubles the rest, and gives `q_HYST_2_S` the value of `q_Hyst_l_S` when it is None; it fails exactly when a field read is not an integer |
| WcdmaRrcAnalyzer.EutraScaling | automator/analyzer/wcdma_rrc_analyzer.py:219-230 | the neighbour is keyed by `int(earfcn)`, keeps `priority`, and doubles `qRxLevMinEUTRA` and both thresholds; it fails exactly when a field is not an integer |
| WcdmaRrcAnalyzer.ApplyField | automator/analyzer/wcdma_rrc_analyzer.py:130-230 | a non-SIB field changes nothing, and each SIB element changes only its own record |
| WcdmaRrcAnalyzer.RunsOfFold | automator/analyzer/wcdma_rrc_analyzer.py:130-230 | the configuration after each prefix of the fields |
| WcdmaRrcAnalyzer.RunsOfUnique | automator/analyzer/wcdma_rrc_analyzer.py:130-230 | those configurations are the ones the specification names |
| WcdmaRrcAnalyzer.ConfigFoldStopped | automator/analyzer/wcdma_rrc_analyzer.py:151-230 | after an `int()` failure the configuration stays where it stopped |
| WcdmaRrcAnalyzer.ConfigFoldIgnores | automator/analyzer/wcdma_rrc_analyzer.py:130-133 | fields that are not SIB elements leave the configuration as it was |
| WcdmaRrcAnalyzer.EutraStored | automator/analyzer/wcdma_rrc_analyzer.py:219-230 | an EUTRA element stores its record under its own frequency, replacing any earlier one, and keeps every other neighbour |
| WcdmaRrcAnalyzer.ServDefaultsApplied | automator/analyzer/wcdma_rrc_analyzer.py:136-155 | a serving element without `priority` fails; without `s_PrioritySearch2` that setting is 0 |
| WcdmaRrcAnalyzer.IntraSearchDefaults | automator/analyzer/wcdma_rrc_analyzer.py:163-165 | missing `s_Intrasearch` and `s_Intersearch` are 0 |
| WcdmaRrcAnalyzer.IntraHystDefaults | automator/analyzer/wcdma_rrc_analyzer.py:168-182 | without `q_HYST_2_S` it equals the doubled `q_Hyst_l_S`; without `q_Hyst_l_S` the element fails |
| WcdmaRrcAnalyzer.EutraDefaultsApplied | automator/analyzer/wcdma_rrc_analyzer.py:202-219 | a missing `qRxLevMinEUTRA` is stored as -280 (-140 doubled); a missing `earfcn` fails |
| WcdmaRrcAnalyzer.NextSib | automator/analyzer/wcdma_rrc_analyzer.py:132-230 | the loop body computes exactly the per-field configuration update |
| WcdmaRrcAnalyzer.WcdmaRrcConfig.constructor | automator/analyzer/wcdma_rrc_analyzer.py:300-302 | a new configuration is bound to the given status and holds the default SIB settings |
| WcdmaRrcAnalyzer.WcdmaRrcConfig.GetCellReselectionConfig | automator/analyzer/wcdma_rrc_analyzer.py:311-324 | on the serving frequency it gives the intra-frequency hysteresis; on another frequency it gives None unless a neighbour is stored there, and then that neighbour's priority and thresholds with `s_PrioritySearch2` |
| WcdmaRrcAnalyzer.ReselectionAfterEutra | automator/analyzer/wcdma_rrc_analyzer.py:219-324 | after an EUTRA element for frequency f, the getter asked about f (not the serving frequency) returns that element's priority and thresholds with `s_PrioritySearch2` |
| WcdmaRrcAnalyzer.WcdmaRrcAnalyzer.constructor | automator/analyzer/wcdma_rrc_analyzer.py:23-33 | a new analyzer has an all-None status and empty history and configuration table |
| WcdmaRrcAnalyzer.WcdmaRrcAnalyzer.GetCellList | automator/analyzer/wcdma_rrc_analyzer.py:234-242 | the listed cells are exactly those with a configuration |
| WcdmaRrcAnalyzer.WcdmaRrcAnalyzer.GetCellConfig | automator/analyzer/wcdma_rrc_analyzer.py:244-252 | a cell's configuration, None exactly for an unknown cell |
| WcdmaRrcAnalyzer.WcdmaRrcAnalyzer.GetCurCell | automator/analyzer/wcdma_rrc_analyzer.py:254-259 | the current status object itself |
| WcdmaRrcAnalyzer.WcdmaRrcAnalyzer.GetCurCellConfig | automator/analyzer/wcdma_rrc_analyzer.py:261-266 | the configuration of the current `(id, freq)` pair |
| WcdmaRrcAnalyzer.WcdmaRrcAnalyzer.CallbackServCell | automator/analyzer/wcdma_rrc_analyzer.py:82-121 | before initialisation the status is filled in place with no history; afterwards an event is either a no-op or replaces the status with a fresh object that the history records at the event's timestamp |
| WcdmaRrcAnalyzer.WcdmaRrcAnalyzer.FillStatus | automator/analyzer/wcdma_rrc_analyzer.py:87-97 | the four `has_key` assignments compute `Fill` |
| WcdmaRrcAnalyzer.WcdmaRrcAnalyzer.CheckStatus | automator/analyzer/wcdma_rrc_analyzer.py:98-121 | the four checks compute the cascade; the history gains the new status at the timestamp only on a replacement |
| WcdmaRrcAnalyzer.WcdmaRrcAnalyzer.CheckSlot | automator/analyzer/wcdma_rrc_analyzer.py:99-103 | one check replaces the status with a fresh one holding only the new value, and records it, exactly when the key is present and differs |
| WcdmaRrcAnalyzer.WcdmaRrcAnalyzer.EnsureConfig | automator/analyzer/wcdma_rrc_analyzer.py:146-149 | the current pair gets a configuration bound to the current status if it had none; nothing else changes |
| WcdmaRrcAnalyzer.WcdmaRrcAnalyzer.CallbackSibConfig | automator/analyzer/wcdma_rrc_analyzer.py:123-230 | ignored while the cell id is None; otherwise the current cell's configuration is the fold of the message's fields and exists exactly when it existed or a SIB element was met; other cells are untouched and no entry is removed |
| WcdmaRrcAnalyzer.WcdmaRrcAnalyzer.ApplySibFields | automator/analyzer/wcdma_rrc_analyzer.py:130-230 | the `for field` loop applies the fields in order up to the first failure |
| WcdmaRrcAnalyzer.WcdmaRrcAnalyzer.ApplySibField | automator/analyzer/wcdma_rrc_analyzer.py:132-230 | one iteration applies one field to the current cell's configuration, creating it first for a SIB element |
| WcdmaRrcAnalyzer.WcdmaRrcAnalyzer.RrcFilter | automator/analyzer/wcdma_rrc_analyzer.py:41-78 | every record updates the serving cell: before initialisation in place, with the history unchanged; afterwards a replacement records the fresh status under the timestamp and leaves the old object as it was, and no replacement keeps status and history; a record without `Msg` stops there; an unparsable `Msg` raises; only a parsed signalling message touches the configuration: every other cell keeps its configuration object and SIB settings, and the current cell (after the serving-cell update) gets the SIB fold of the message's fields over its previous or default settings, is created only when an SIB element is present, and the record succeeds exactly when that fold does |
| LteNasAnalyzer.ProfileIdParts | mobile_insight/analyzer/lte_nas_analyzer.py:410-422 | `profile_id` exists exactly when the GUTI is inited (so whenever the EMM status is), and splits back into mcc and mnc |
| LteNasAnalyzer.EsmQos.With | mobile_insight/analyzer/lte_nas_analyzer.py:264-316 | assigning a QoS field sets it and keeps the others |
| LteNasAnalyzer.UnsetQosAllNone | mobile_insight/analyzer/lte_nas_analyzer.py:480-499 | a new QoS record has every field None |
| LteNasAnalyzer.ThenOk | mobile_insight/analyzer/lte_nas_analyzer.py:264-316 | a run of assignments completes only if each statement did |
| LteNasAnalyzer.ThenPut | mobile_insight/analyzer/lte_nas_analyzer.py:264-316 | an assignment leaves exactly its value in its field |
| LteNasAnalyzer.ThenKeeps | mobile_insight/analyzer/lte_nas_analyzer.py:264-316 | an assignment leaves every other field as it was |
| LteNasAnalyzer.PeakThroughputDoubles | mobile_insight/analyzer/lte_nas_analyzer.py:274-276 | peak throughput is 1000 for code 1 and doubles with each code; code 0 gives 500.0 |
| LteNasAnalyzer.OtaUpdateKeep | mobile_insight/analyzer/lte_nas_analyzer.py:265-316 | a `has_key` statement does nothing exactly when its key is absent |
| LteNasAnalyzer.OtaPosition | mobile_insight/analyzer/lte_nas_analyzer.py:265-316 | every QoS field but the QCI has its own statement |
| LteNasAnalyzer.OtaFieldsDistinct | mobile_insight/analyzer/lte_nas_analyzer.py:265-316 | no two statements assign the same field, and none assigns the QCI |
| LteNasAnalyzer.MergeFirstOk | mobile_insight/analyzer/lte_nas_analyzer.py:265-316 | the first n statements complete exactly when none raises |
| LteNasAnalyzer.MergeFirstKeeps | mobile_insight/analyzer/lte_nas_analyzer.py:265-316 | a field whose key is absent, and the QCI, keep their value |
| LteNasAnalyzer.MergeFirstValue | mobile_insight/analyzer/lte_nas_analyzer.py:265-316 | a completed statement leaves its decoded value |
| LteNasAnalyzer.MergeQosOnlyPresent | mobile_insight/analyzer/lte_nas_analyzer.py:264-316 | a QoS element leaves the QCI and every field whose key it lacks unchanged |
| LteNasAnalyzer.MergeQosOk | mobile_insight/analyzer/lte_nas_analyzer.py:264-316 | the merge completes exactly when no carried field fails to convert |
| LteNasAnalyzer.MergeQosValue | mobile_insight/analyzer/lte_nas_analyzer.py:265-316 | each carried field holds its `int()` code decoded by its rule: as is, peak throughput, or the `nas_util` table or conversion |
| LteNasAnalyzer.ReportedPosition | mobile_insight/analyzer/lte_nas_analyzer.py:177-185 | each reported field has its own assignment |
| LteNasAnalyzer.ReportedFieldsDistinct | mobile_insight/analyzer/lte_nas_analyzer.py:177-185 | no two report assignments set the same field |
| LteNasAnalyzer.CopyFirstOk | mobile_insight/analyzer/lte_nas_analyzer.py:177-185 | the first n assignments complete exactly when their keys are present |
| LteNasAnalyzer.CopyFirstKeeps | mobile_insight/analyzer/lte_nas_analyzer.py:177-185 | fields not reported keep their value |
| LteNasAnalyzer.CopyFirstValue | mobile_insight/analyzer/lte_nas_analyzer.py:177-185 | a completed assignment leaves the report's value |
| LteNasAnalyzer.CopyReportedSpec | mobile_insight/analyzer/lte_nas_analyzer.py:177-185 | the copy completes exactly when all nine keys are present; it sets the nine fields to the report's values, so the guaranteed downlink rates equal the maximum ones, and it keeps the other ten |
| LteNasAnalyzer.ProfileUpdateSpec | mobile_insight/analyzer/lte_nas_analyzer.py:191-201 | an update creates the partition if absent, sets each written leaf, keeps the other leaves, and leaves other partitions alone |
| LteNasAnalyzer.ProfiledRecordSpec | mobile_insight/analyzer/lte_nas_analyzer.py:365-386 | the record is built exactly when every leaf converts, and holds each converted leaf |
| LteNasAnalyzer.ProfiledQos | mobile_insight/analyzer/lte_nas_analyzer.py:356-389 | None for a falsy plmn or an unwritten partition; otherwise the converted record, or failure if a conversion raises |
| LteNasAnalyzer.ProfiledLeafRoundTrip | mobile_insight/analyzer/lte_nas_analyzer.py:321-341 | an integer or None field written with `xstr` reads back unchanged (`"unknown"` and `""` map to None) |
| LteNasAnalyzer.ProfileFallback | mobile_insight/analyzer/lte_nas_analyzer.py:321-387 | after a QoS element writes a network's default partition, `get_profiled_qos` finds it and each integer or None field reads back as written |
| LteNasAnalyzer.OtaLeafWritten | mobile_insight/analyzer/lte_nas_analyzer.py:321-341 | a QoS element's profile update leaves each field's `xstr` in the partition |
| LteNasAnalyzer.OtaLeavesFirstValue | mobile_insight/analyzer/lte_nas_analyzer.py:322-340 | each leaf written holds its field's `xstr` |
| LteNasAnalyzer.OtaLeavesFirstKeys | mobile_insight/analyzer/lte_nas_analyzer.py:322-340 | the QCI is the one leaf a QoS element does not write |
| LteNasAnalyzer.ShowIntNotUnknown | mobile_insight/analyzer/lte_nas_analyzer.py:365 | no integer prints as the `"unknown"` sentinel |
| LteNasAnalyzer.InitialState | mobile_insight/analyzer/lte_nas_analyzer.py:56-66 | a new analyzer has no bearers, no current bearer, and an EMM status that is not inited |
| LteNasAnalyzer.EmmStateReportSpec | mobile_insight/analyzer/lte_nas_analyzer.py:138-151 | a report completes exactly when it has every key and its PLMN holds a '-'; it then overwrites state, substate and all five GUTI fields, with mcc and mnc from the PLMN |
| LteNasAnalyzer.EmmStatePlmnProfile | mobile_insight/analyzer/lte_nas_analyzer.py:144-151 | reporting PLMN "mcc-mnc" with a complete GUTI makes the profile id "mcc-mnc" |
| LteNasAnalyzer.EsmStateReportFrame | mobile_insight/analyzer/lte_nas_analyzer.py:165-187 | a report leaves the EMM status alone, makes the reported bearer current (creating its entry), and changes no other bearer |
| LteNasAnalyzer.EsmStateReportApplied | mobile_insight/analyzer/lte_nas_analyzer.py:170-205 | every report with a bearer id makes it current and stores in its entry whatever the assignments reached, even when one raises; the profile partition of the profile id and bearer type is written only after all assignments ran, and is otherwise left alone; a completed report has set the bearer's id, type, QoS and timestamp |
| LteNasAnalyzer.ReportBearerSteps | mobile_insight/analyzer/lte_nas_analyzer.py:175-187 | the assignments take effect up to the first that raises: the id once it converts, the type with the QoS copy (its completed prefix kept), the timestamp only when all ran |
| LteNasAnalyzer.EsmStateNeedsProfileId | mobile_insight/analyzer/lte_nas_analyzer.py:191 | before the GUTI is complete every report raises and the profile is not written |
| LteNasAnalyzer.GutiFieldValue | mobile_insight/analyzer/lte_nas_analyzer.py:221-230 | a GUTI sub-field after the fold is the last `show` so named, else None |
| LteNasAnalyzer.GutiOfElementSpec | mobile_insight/analyzer/lte_nas_analyzer.py:219-236 | a GUTI element replaces all five GUTI fields; a missing sub-field becomes None |
| LteNasAnalyzer.LastGutiWins | mobile_insight/analyzer/lte_nas_analyzer.py:217-236 | the last GUTI element of a message decides the GUTI; a message without one leaves it alone |
| LteNasAnalyzer.BearerIdStepFrame | mobile_insight/analyzer/lte_nas_analyzer.py:247-250 | a bearer id field leaves the EMM status alone and only adds a bearer |
| LteNasAnalyzer.QciStepFrame | mobile_insight/analyzer/lte_nas_analyzer.py:252-253 | a QCI field leaves the current bearer id and the bearer set alone |
| LteNasAnalyzer.QosElementStepFrame | mobile_insight/analyzer/lte_nas_analyzer.py:255-341 | a QoS element leaves the current bearer id and the bearer set alone |
| LteNasAnalyzer.EsmFieldFrame | mobile_insight/analyzer/lte_nas_analyzer.py:245-341 | any ESM field keeps the EMM status, never removes a bearer, and keeps the current bearer valid |
| LteNasAnalyzer.BearerIdAndQci | mobile_insight/analyzer/lte_nas_analyzer.py:247-253 | a bearer id field makes `int(show)` current and creates its entry; a QCI field sets the current bearer's QCI to `int(show)` |
| LteNasAnalyzer.QosElementOnlyPresent | mobile_insight/analyzer/lte_nas_analyzer.py:255-316 | a QoS element changes only the current bearer, and only the fields it carries |
| LteNasAnalyzer.QosElementApplied | mobile_insight/analyzer/lte_nas_analyzer.py:255-341 | without a current bearer the element raises at once; otherwise the bearer keeps its id and the merged QoS even if the bearer-type lookup raises, each carried field holds its decoded value once the merge completed, and the profile partition is written exactly when the element succeeds |
| LteNasAnalyzer.EsmFoldFrame | mobile_insight/analyzer/lte_nas_analyzer.py:245-341 | an ESM message keeps the EMM status, never removes a bearer, and keeps the current bearer valid |
| LteNasAnalyzer.EsmFoldStopped | mobile_insight/analyzer/lte_nas_analyzer.py:245 | the loop ends at the first field that raises |
| LteNasAnalyzer.FilterKeepsBearers | mobile_insight/analyzer/lte_nas_analyzer.py:91-136 | every message keeps the current bearer valid and never removes a bearer; other kinds, and OTA records without `Msg`, change nothing |
| LteNasAnalyzer.LteNasAnalyzer.constructor | mobile_insight/analyzer/lte_nas_analyzer.py:56-66 | a new analyzer is in the initial state over the given profile store |
| LteNasAnalyzer.LteNasAnalyzer.CallbackEmmState | mobile_insight/analyzer/lte_nas_analyzer.py:138-151 | the assignments update the EMM status as `EmmStateReport` says, and nothing else |
| LteNasAnalyzer.LteNasAnalyzer.AssignReported | mobile_insight/analyzer/lte_nas_analyzer.py:175-187 | the assignments to the bearer record compute `ReportBearer` |
| LteNasAnalyzer.LteNasAnalyzer.CallbackEsmState | mobile_insight/analyzer/lte_nas_analyzer.py:165-208 | the callback reaches the state `EsmStateReport` describes and keeps the current bearer valid |
| LteNasAnalyzer.LteNasAnalyzer.GutiFieldUpdate | mobile_insight/analyzer/lte_nas_analyzer.py:219-236 | a GUTI element replaces the GUTI; any other field changes nothing |
| LteNasAnalyzer.LteNasAnalyzer.CallbackEmm | mobile_insight/analyzer/lte_nas_analyzer.py:210-236 | the loop leaves the GUTI of the message's last GUTI element and changes nothing else |
| LteNasAnalyzer.LteNasAnalyzer.EsmFieldUpdate | mobile_insight/analyzer/lte_nas_analyzer.py:247-341 | one iteration reaches the state `EsmField` describes |
| LteNasAnalyzer.LteNasAnalyzer.CallbackEsm | mobile_insight/analyzer/lte_nas_analyzer.py:238-341 | the loop reaches the state `EsmFold` describes, stopping at the first field that raises |
| LteNasAnalyzer.LteNasAnalyzer.NasFilter | mobile_insight/analyzer/lte_nas_analyzer.py:91-136 | the routing reaches the state `Filter` describes and keeps the current bearer valid |
| LteNasAnalyzer.LteNasAnalyzer.GetQos | mobile_insight/analyzer/lte_nas_analyzer.py:348-354 | the current bearer's QoS when its id has an entry, else None; with the invariant, None only while no bearer is current |
| LteNasAnalyzer.LteNasAnalyzer.GetProfiledQos | mobile_insight/analyzer/lte_nas_analyzer.py:356-389 | reads the analyzer's own profile store as `ProfiledQos` describes |

## Left out

- `decode`, `decode_xml`, `decode_json` and `init` of the log packet are not modelled. `decode` only calls the dict rendering, which is modelled. The others serialise with library code (`ET.tostring`, `json`, `xmltodict`) or start the dissector process.
- The dissector, the XML parser and `ET.XML` are parameters. The model does not describe which texts parse.
- Logging, `dump`, `print`, `send`, `broadcast_info` and `time.time()` are left out. The exception-printing path of `_preparse_internal_list` is left out too, except for its outcome: failure.
- `set_source`/`enable_log` and `create_profile_hierarchy`/`LteNasProfileHierarchy` are left out; they only register callbacks and declare a schema.
- The profile store is modelled as a map from partition path to leaves. A leaf never written reads as the `"unknown"` sentinel. The `profile` module is not part of this model.
- The `nas_util` tables and conversions, `xstr` and `float()` are parameters (`NasUtil`). Any table lookup that raises is modelled as None.
- `dump` looks up `bearer_type`, `delivery_order` and `traffic_class` in the `nas_util` tables. Only the `bearer_type` lookup is modelled as able to raise (the profile update repeats it). The other two lookups run inside logging and are assumed to succeed.
- `getTimeInterval` is left out: datetime and float arithmetic. Floats are exact reals, and `residual_ber` float parsing is a parameter.
- Python 2's `1` and `1.0` are not told apart beyond the `PyInt`/`PyFloat` split. Peak throughput codes below 1 give a float, as `pow` does.
- The EMM `ciphering`, `integrity` and `timestamp` fields, and the module's `emm_state`/`emm_substate` tables, are not modelled. No core operation reads them.
- These WCDMA status and configuration parts are not modelled: `bandwidth`, `conn`, the `WcdmaRrcActive` object, and the inter-frequency `tReselection`/`p_Max` slots. Nothing in the core writes them beyond their defaults.
- `Guti.mcc` and `Guti.mnc` are modelled as optional strings: the only values ever written to them are strings or None.
- The record a state report or message arrives in is modelled as an already decoded dictionary (`msg.data.decode()`, `dict(...)`).
- `DmLogPacket.Render`, `DmLogPacket.ParseInternalList`: under XML output they require that no plain (untagged) triplet holds nested triplets (`XmlTexts`). Python's `str` of such a value is the `repr` of a list of tuples, which is not modelled.
- `DmLogPacket.Preparse` requires that every `raw_msg/` triplet carries bytes (`RawPayloads`), as the collector library produces them.
- `LteNasAnalyzer.LteNasAnalyzer.GetQos`: states the returned value, not that it is the same object the analyzer keeps updating. The model holds QoS records as values, so aliasing through the returned reference is not captured.
- `WcdmaRrcAnalyzer.WcdmaRrcAnalyzer.GetCurCell`: returns the status object itself. Later callbacks that replace the status are not reflected in a previously returned object, which is the same behaviour as the source.
