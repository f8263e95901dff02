/**
 * The DM log packet decoder: the pre-parse pass that replaces every embedded
 * raw message of a decoded record with its dissected XML (reassembling the
 * complete short SIBs of a WCDMA BCCH broadcast), the renderer that turns the
 * record into a dict, a tuple or an XML tree, the `<msg>` wrapper and the
 * positional result search.
 *
 * The Wireshark dissector and the XML parser are foreign: they are passed in
 * as functions (`Dissector`, `XmlParser`).
 */
module DmLogPacket {
  import opened Wrappers
  import opened PyValues
  import opened Xml

  /** `WSDissector.decode_msg(type, bytes)`: the decoded XML text, or None. */
  type Dissector = (string, seq<bv8>) -> Option<string>

  /** A scalar of a decoded record; objects other than None, int and str carry their `str()` text. */
  datatype Scalar = SNone | SInt(i: int) | SStr(s: string) | SOther(text: string)

  /** The value slot of a triplet: a scalar, a nested list of triplets, or raw message bytes. */
  datatype RawVal = RScalar(v: Scalar) | RNested(entries: seq<Entry>) | RBytes(b: seq<bv8>)

  /** One `(field_name, val, type_str)` triplet of a decoded record. */
  datatype Entry = Entry(name: string, val: RawVal, typeStr: string)

  /** Python `str(x)` of a scalar. */
  function StrOf(s: Scalar): string {
    match s
    case SNone => "None"
    case SInt(i) => ShowInt(i)
    case SStr(t) => t
    case SOther(t) => t
  }

  function Need<T>(o: Option<T>): (r: Result<T>)
    ensures r.Success? <==> o.Some?
    ensures r.Success? ==> r.value == o.value
  {
    match o
    case Some(v) => Success(v)
    case None => Failure
  }

  predicate StartsWith(s: string, prefix: string) {
    |prefix| <= |s| && s[..|prefix|] == prefix
  }

  // ---------------------------------------------------------------------
  // _wrap_decoded_xml
  // ---------------------------------------------------------------------

  const MsgOpen: string := "<msg>\n"
  const MsgClose: string := "</msg>\n"

  /** The argument of `_wrap_decoded_xml`: one string, or a list of decodes that may be None. */
  datatype XmlParts = OnePart(s: string) | Parts(ps: seq<Option<string>>)

  /** `"".join(xs)` */
  function Concat(xs: seq<string>): string {
    if xs == [] then "" else Concat(xs[..|xs| - 1]) + xs[|xs| - 1]
  }

  function Values(ps: seq<Option<string>>): (vs: seq<string>)
    requires None !in ps
    ensures |vs| == |ps|
    ensures forall k :: 0 <= k < |ps| ==> vs[k] == ps[k].value
  {
    if ps == [] then [] else Values(ps[..|ps| - 1]) + [ps[|ps| - 1].value]
  }

  function PartList(xmls: XmlParts): seq<Option<string>> {
    match xmls
    case OnePart(s) => [Some(s)]
    case Parts(ps) => ps
  }

  /**
   * `_wrap_decoded_xml`: the decodes between `<msg>` and `</msg>`; if any
   * decode is missing the wrapper is empty. Unwrapping the result gives back
   * the concatenated decodes.
   */
  function WrapDecodedXml(xmls: XmlParts): string {
    var ps := PartList(xmls);
    if None in ps then MsgOpen + MsgClose else MsgOpen + Concat(Values(ps)) + MsgClose
  }

  lemma WrapShape(xmls: XmlParts)
    ensures var r := WrapDecodedXml(xmls);
      && |r| >= |MsgOpen| + |MsgClose| && r[..|MsgOpen|] == MsgOpen
      && r[|r| - |MsgClose|..] == MsgClose
      && (None in PartList(xmls) ==> r == MsgOpen + MsgClose)
      && (None !in PartList(xmls) ==> r[|MsgOpen|..|r| - |MsgClose|] == Concat(Values(PartList(xmls))))
  {
    var r := WrapDecodedXml(xmls);
    assert r[..|MsgOpen|] == MsgOpen;
    assert r[|r| - |MsgClose|..] == MsgClose;
    if None !in PartList(xmls) {
      assert r[|MsgOpen|..|r| - |MsgClose|] == Concat(Values(PartList(xmls)));
    }
  }

  /** A single string is wrapped as a one-element list of decodes. */
  lemma WrapOnePart(s: string)
    ensures WrapDecodedXml(OnePart(s)) == MsgOpen + s + MsgClose
    ensures WrapDecodedXml(OnePart(s)) == WrapDecodedXml(Parts([Some(s)]))
  {
    assert Values([Some(s)]) == [s];
    assert Concat([s]) == s;
  }

  /** The value a pre-parsed `msg` triplet carries. */
  function MsgVal(parts: seq<Option<string>>): RawVal {
    RScalar(SStr(WrapDecodedXml(Parts(parts))))
  }

  // ---------------------------------------------------------------------
  // _preparse_internal_list: specification
  // ---------------------------------------------------------------------

  const RawPrefix: string := "raw_msg/"
  const BcchType: string := "RRC_DL_BCCH_BCH"
  const CompleteSibName: string := "rrc.CompleteSIBshort_element"
  const SibTypeName: string := "rrc.sib_Type"
  const SibDataName: string := "rrc.sib_Data_variable"
  const FirstSegmentName: string := "rrc.firstSegment_element"
  const SubsequentSegmentName: string := "rrc.subsequentSegment_element"
  const LastSegmentName: string := "rrc.lastSegmentShort_element"

  /** The WCDMA SIB type ids that are decoded, and the dissector type each is decoded as. */
  const WcdmaSibTypes: map<int, string> := map[
    0 := "RRC_MIB", 1 := "RRC_SIB1", 2 := "RRC_SIB2", 3 := "RRC_SIB3",
    7 := "RRC_SIB7", 12 := "RRC_SIB12", 27 := "RRC_SB1", 31 := "RRC_SIB19"]

  predicate IsRawMsg(e: Entry) { StartsWith(e.typeStr, RawPrefix) }

  function MsgType(e: Entry): string
    requires IsRawMsg(e)
  {
    e.typeStr[|RawPrefix|..]
  }

  /** The collector hands every embedded raw message over as bytes. */
  predicate RawPayloads(list: seq<Entry>) {
    forall k :: 0 <= k < |list| && IsRawMsg(list[k]) ==> list[k].val.RBytes?
  }

  /** `ET.XML(decoded)` inside the try: a missing decode raises as well. */
  function ParsedBcch(decoded: Option<string>, parse: XmlParser): Option<Element> {
    match decoded
    case None => None
    case Some(s) => parse(s)
  }

  /** `int(field.get("show"))` of a SIB's `rrc.sib_Type` child; None if it raises. */
  function SibId(sib: Element): Option<int> {
    match FindChild(sib, SibTypeName)
    case None => None
    case Some(f) =>
      match f.Get("show")
      case None => None
      case Some(s) => ParseInt(s)
  }

  /** `binascii.a2b_hex(field.get("value"))` of a SIB's `rrc.sib_Data_variable` child. */
  function SibBytes(sib: Element): Option<seq<bv8>> {
    match FindChild(sib, SibDataName)
    case None => None
    case Some(f) =>
      match f.Get("value")
      case None => None
      case Some(h) => HexDecode(h)
  }

  /** What the loop reads off one complete SIB: its type id and its payload. */
  datatype SibInfo = SibInfo(id: Option<int>, bytes: Option<seq<bv8>>)

  function InfoOf(sib: Element): SibInfo {
    SibInfo(SibId(sib), SibBytes(sib))
  }

  function SibInfos(sibs: seq<Element>): (infos: seq<SibInfo>)
    ensures |infos| == |sibs|
    ensures forall k :: 0 <= k < |sibs| ==> infos[k] == InfoOf(sibs[k])
  {
    if sibs == [] then [] else SibInfos(sibs[..|sibs| - 1]) + [InfoOf(sibs[|sibs| - 1])]
  }

  /**
   * One complete SIB: its decode under the type its id maps to, nothing for
   * an unknown id; a missing or non-integer id or a missing or malformed
   * payload raises.
   */
  function SibStep(info: SibInfo, dissect: Dissector): (r: Result<seq<Option<string>>>)
    ensures r.Success? <==> info.id.Some? && info.bytes.Some?
    ensures r.Success? ==> |r.value| <= 1
  {
    var id :- Need(info.id);
    var bytes :- Need(info.bytes);
    if id in WcdmaSibTypes then Success([dissect(WcdmaSibTypes[id], bytes)]) else Success([])
  }

  /** The decodes of the first `n` complete SIBs, in document order. */
  function SibFold(infos: seq<SibInfo>, n: nat, dissect: Dissector): Result<seq<Option<string>>>
    requires n <= |infos|
  {
    if n == 0 then Success([])
    else
      var prev :- SibFold(infos, n - 1, dissect);
      var one :- SibStep(infos[n - 1], dissect);
      Success(prev + one)
  }

  /** The first SIB segment of the message, trying first, subsequent and last segments in turn. */
  function FindSegment(xml: Element): Option<Element> {
    var first := FindDescendant(xml, FirstSegmentName);
    if first.Some? then first
    else
      var subsequent := FindDescendant(xml, SubsequentSegmentName);
      if subsequent.Some? then subsequent else FindDescendant(xml, LastSegmentName)
  }

  /** The segment branch only reads the segment's type id, which must be an integer. */
  predicate SegmentReadable(xml: Element) {
    match FindSegment(xml)
    case None => true
    case Some(seg) => SibId(seg).Some?
  }

  /** The decodes a parsed BCCH message adds after its own. */
  function BcchExtra(xml: Element, dissect: Dissector): Result<seq<Option<string>>> {
    var sibs := FindAllDescendants(xml, CompleteSibName);
    if sibs != [] then SibFold(SibInfos(sibs), |sibs|, dissect)
    else if SegmentReadable(xml) then Success([])
    else Failure
  }

  /** What one triplet becomes, and whether the loop returns right after it. */
  datatype StepOut = StepOut(out: Entry, stop: bool)

  /**
   * One iteration of the pre-parse loop: a raw message becomes a `msg`
   * triplet with its wrapped decode; a BCCH message that does not parse
   * becomes the `Unsupported` message and ends the loop.
   */
  function PreStep(e: Entry, dissect: Dissector, parse: XmlParser): Result<StepOut>
    requires IsRawMsg(e) ==> e.val.RBytes?
  {
    if !IsRawMsg(e) then Success(StepOut(e, false))
    else
      var decoded := dissect(MsgType(e), e.val.b);
      if MsgType(e) != BcchType then Success(StepOut(Entry(e.name, MsgVal([decoded]), "msg"), false))
      else
        match ParsedBcch(decoded, parse)
        case None => Success(StepOut(Entry("Unsupported", MsgVal([decoded]), "msg"), true))
        case Some(xml) =>
          var extra :- BcchExtra(xml, dissect);
          Success(StepOut(Entry(e.name, MsgVal([decoded] + extra), "msg"), false))
  }

  /** The iteration outcome of every triplet, in order. */
  function Steps(list: seq<Entry>, dissect: Dissector, parse: XmlParser): (steps: seq<Result<StepOut>>)
    requires RawPayloads(list)
    ensures |steps| == |list|
  {
    seq(|list|, k requires 0 <= k < |list| && RawPayloads(list) => PreStep(list[k], dissect, parse))
  }

  lemma StepsAt(list: seq<Entry>, k: nat, dissect: Dissector, parse: XmlParser)
    requires RawPayloads(list) && k < |list|
    ensures Steps(list, dissect, parse)[k] == PreStep(list[k], dissect, parse)
  {
  }

  /** The output so far, and whether the loop returned early. */
  datatype PreState = PreState(lst: seq<Entry>, stopped: bool)

  /**
   * The pre-parse loop after its first `n` iterations, given each
   * iteration's outcome: it stops at the first failure or early return.
   */
  function PreFold(steps: seq<Result<StepOut>>, n: nat): Result<PreState>
    requires n <= |steps|
  {
    if n == 0 then Success(PreState([], false))
    else
      var st :- PreFold(steps, n - 1);
      if st.stopped then Success(st)
      else
        var step :- steps[n - 1];
        Success(PreState(st.lst + [step.out], step.stop))
  }

  /** `_preparse_internal_list`; Failure stands for the RuntimeError it raises. */
  function Preparse(list: seq<Entry>, dissect: Dissector, parse: XmlParser): Result<seq<Entry>>
    requires RawPayloads(list)
  {
    var st :- PreFold(Steps(list, dissect, parse), |list|);
    Success(st.lst)
  }

  // ---------------------------------------------------------------------
  // _preparse_internal_list: the loop
  // ---------------------------------------------------------------------

  lemma PreFoldStep(steps: seq<Result<StepOut>>, n: nat, lst: seq<Entry>, step: StepOut)
    requires 0 < n <= |steps|
    requires PreFold(steps, n - 1) == Success(PreState(lst, false)) && steps[n - 1] == Success(step)
    ensures PreFold(steps, n) == Success(PreState(lst + [step.out], step.stop))
  {
  }

  lemma {:induction false} PreFoldAfterStop(steps: seq<Result<StepOut>>, m: nat, n: nat)
    requires m <= n <= |steps|
    requires PreFold(steps, m).Success? && PreFold(steps, m).value.stopped
    ensures PreFold(steps, n) == PreFold(steps, m)
  {
    if n > m {
      PreFoldAfterStop(steps, m, n - 1);
    }
  }

  lemma {:induction false} PreFoldAfterFailure(steps: seq<Result<StepOut>>, m: nat, n: nat)
    requires m <= n <= |steps|
    requires PreFold(steps, m).Failure?
    ensures PreFold(steps, n).Failure?
  {
    if n > m {
      PreFoldAfterFailure(steps, m, n - 1);
    }
  }

  /**
   * `infos` holds what the loop reads off each of `sibs`. The trigger keeps the
   * reads themselves out of sight until a caller names one.
   */
  ghost predicate InfosOf(sibs: seq<Element>, infos: seq<SibInfo>) {
    |infos| == |sibs| && forall k {:trigger InfoOf(sibs[k])} :: 0 <= k < |sibs| ==> infos[k] == InfoOf(sibs[k])
  }

  lemma {:induction false} SibInfosOf(sibs: seq<Element>) returns (infos: seq<SibInfo>)
    ensures InfosOf(sibs, infos)
  {
    infos := SibInfos(sibs);
  }

  lemma InfosOfUnique(sibs: seq<Element>, infos: seq<SibInfo>)
    requires InfosOf(sibs, infos)
    ensures infos == SibInfos(sibs)
  {
    assert forall k :: 0 <= k < |sibs| ==> infos[k] == SibInfos(sibs)[k];
  }

  /** The loop over the complete SIBs of a BCCH message. */
  method DecodeCompleteSibs(sibs: seq<Element>, dissect: Dissector) returns (r: Result<seq<Option<string>>>)
    ensures r == SibFold(SibInfos(sibs), |sibs|, dissect)
  {
    ghost var infos := SibInfosOf(sibs);
    var xmls: seq<Option<string>> := [];
    var k := 0;
    while k < |sibs|
      invariant 0 <= k <= |sibs|
      invariant SibFold(infos, k, dissect) == Success(xmls)
    {
      var info := ReadCompleteSib(sibs, k, infos);
      var sibId, sibMsg := info.id, info.bytes;
      if sibId.None? || sibMsg.None? {
        FoldFailureStays(infos, k + 1, dissect);
        InfosOfUnique(sibs, infos);
        return Failure;
      }
      SibFoldStep(infos, k + 1, dissect);
      if sibId.value in WcdmaSibTypes {
        var decoded := dissect(WcdmaSibTypes[sibId.value], sibMsg.value);
        xmls := xmls + [decoded];
      } else {
        assert xmls + [] == xmls;
      }
      k := k + 1;
    }
    InfosOfUnique(sibs, infos);
    r := Success(xmls);
  }

  /**
   * The reads of one complete SIB: `int()` of its type field's `show` and
   * `a2b_hex` of its data field's `value`.
   */
  method ReadCompleteSib(sibs: seq<Element>, k: nat, ghost infos: seq<SibInfo>) returns (info: SibInfo)
    requires k < |sibs| && InfosOf(sibs, infos)
    ensures info == infos[k]
  {
    var sib := sibs[k];
    var typeField := FindChild(sib, SibTypeName);
    var show := if typeField.Some? then typeField.value.Get("show") else None;
    var sibId := if show.Some? then ParseInt(show.value) else None;
    var dataField := FindChild(sib, SibDataName);
    var hex := if dataField.Some? then dataField.value.Get("value") else None;
    var sibMsg := if hex.Some? then HexDecode(hex.value) else None;
    info := SibInfo(sibId, sibMsg);
    assert info == InfoOf(sibs[k]);
  }

  lemma SibFoldStep(infos: seq<SibInfo>, n: nat, dissect: Dissector)
    requires 0 < n <= |infos| && SibFold(infos, n - 1, dissect).Success?
    requires SibStep(infos[n - 1], dissect).Success?
    ensures SibFold(infos, n, dissect) ==
      Success(SibFold(infos, n - 1, dissect).value + SibStep(infos[n - 1], dissect).value)
  {
  }

  lemma {:induction false} FoldFailureStays(infos: seq<SibInfo>, m: nat, dissect: Dissector)
    requires m <= |infos| && SibFold(infos, m, dissect).Failure?
    ensures SibFold(infos, |infos|, dissect).Failure?
    decreases |infos| - m
  {
    if m < |infos| {
      FoldFailureStays(infos, m + 1, dissect);
    }
  }

  /**
   * `steps` holds the outcome of every iteration. The trigger keeps the
   * iterations themselves out of sight until a caller names one.
   */
  ghost predicate StepsOf(list: seq<Entry>, dissect: Dissector, parse: XmlParser, steps: seq<Result<StepOut>>) {
    && RawPayloads(list)
    && |steps| == |list|
    && forall k {:trigger PreStep(list[k], dissect, parse)} :: 0 <= k < |list| ==>
         steps[k] == PreStep(list[k], dissect, parse)
  }

  lemma StepsOfList(list: seq<Entry>, dissect: Dissector, parse: XmlParser) returns (steps: seq<Result<StepOut>>)
    requires RawPayloads(list)
    ensures StepsOf(list, dissect, parse, steps)
  {
    steps := Steps(list, dissect, parse);
    forall k | 0 <= k < |list|
      ensures steps[k] == PreStep(list[k], dissect, parse)
    {
      StepsAt(list, k, dissect, parse);
    }
  }

  lemma StepsOfUnique(list: seq<Entry>, dissect: Dissector, parse: XmlParser, steps: seq<Result<StepOut>>)
    requires StepsOf(list, dissect, parse, steps)
    ensures steps == Steps(list, dissect, parse)
  {
    forall k | 0 <= k < |list|
      ensures steps[k] == Steps(list, dissect, parse)[k]
    {
      StepsAt(list, k, dissect, parse);
    }
  }

  /**
   * `_preparse_internal_list`: each raw message becomes one `msg` triplet
   * holding its wrapped decode; everything else is copied.
   */
  method PreparseInternalList(decodedList: seq<Entry>, dissect: Dissector, parse: XmlParser)
    returns (r: Result<seq<Entry>>)
    requires RawPayloads(decodedList)
    ensures r == Preparse(decodedList, dissect, parse)
  {
    ghost var steps := StepsOfList(decodedList, dissect, parse);
    var lst: seq<Entry> := [];
    var i := 0;
    while i < |decodedList|
      invariant 0 <= i <= |decodedList|
      invariant PreFold(steps, i) == Success(PreState(lst, false))
    {
      var step := PreparseEntry(decodedList, i, dissect, parse, steps);
      if step.Failure? {
        PreFoldAfterFailure(steps, i + 1, |decodedList|);
        StepsOfUnique(decodedList, dissect, parse, steps);
        return Failure;
      }
      PreFoldStep(steps, i + 1, lst, step.value);
      lst := lst + [step.value.out];
      if step.value.stop {
        PreFoldAfterStop(steps, i + 1, |decodedList|);
        StepsOfUnique(decodedList, dissect, parse, steps);
        return Success(lst);
      }
      i := i + 1;
    }
    StepsOfUnique(decodedList, dissect, parse, steps);
    r := Success(lst);
  }

  /** The body of the pre-parse loop for the `i`-th triplet. */
  method PreparseEntry(decodedList: seq<Entry>, i: nat, dissect: Dissector, parse: XmlParser,
                       ghost steps: seq<Result<StepOut>>)
    returns (r: Result<StepOut>)
    requires i < |decodedList| && StepsOf(decodedList, dissect, parse, steps)
    ensures r == steps[i]
  {
    var e := decodedList[i];
    assert steps[i] == PreStep(e, dissect, parse);
    if !IsRawMsg(e) {
      return Success(StepOut(e, false));
    }
    var msgType := e.typeStr[|RawPrefix|..];
    var decoded := dissect(msgType, e.val.b);
    var xmls := [decoded];
    if msgType == BcchType {
      var xml := ParsedBcch(decoded, parse);
      if xml.None? {
        return Success(StepOut(Entry("Unsupported", MsgVal(xmls), "msg"), true));
      }
      var sibs := FindAllDescendants(xml.value, CompleteSibName);
      if sibs != [] {
        var extra := DecodeCompleteSibs(sibs, dissect);
        if extra.Failure? {
          return Failure;
        }
        xmls := xmls + extra.value;
      } else {
        var segment := FindSegment(xml.value);
        if segment.Some? {
          var sibId := SibId(segment.value);
          if sibId.None? {
            return Failure;
          }
        }
      }
    }
    r := Success(StepOut(Entry(e.name, MsgVal(xmls), "msg"), false));
  }

  // ---------------------------------------------------------------------
  // Properties of the pre-parse pass
  // ---------------------------------------------------------------------

  /** A BCCH message whose decode does not parse as XML: the loop returns right after it. */
  ghost predicate Unparsable(e: Entry, dissect: Dissector, parse: XmlParser) {
    && IsRawMsg(e) && e.val.RBytes? && MsgType(e) == BcchType
    && ParsedBcch(dissect(MsgType(e), e.val.b), parse).None?
  }

  /** The triplet an unparsable BCCH message leaves as the last output. */
  function UnsupportedOf(e: Entry, dissect: Dissector): Entry
    requires IsRawMsg(e) && e.val.RBytes?
  {
    Entry("Unsupported", MsgVal([dissect(MsgType(e), e.val.b)]), "msg")
  }

  /**
   * How an output triplet stands for an input one: copied, or a `msg` triplet
   * under the same name wrapping the message's decode, followed for a parsed
   * BCCH message by the decodes of its SIBs.
   */
  ghost predicate Corresponds(inp: Entry, out: Entry, dissect: Dissector, parse: XmlParser)
    requires IsRawMsg(inp) ==> inp.val.RBytes?
  {
    if !IsRawMsg(inp) then out == inp
    else
      var decoded := dissect(MsgType(inp), inp.val.b);
      && out.name == inp.name && out.typeStr == "msg"
      && if MsgType(inp) != BcchType then out.val == MsgVal([decoded])
         else
           var xml := ParsedBcch(decoded, parse);
           && xml.Some? && BcchExtra(xml.value, dissect).Success?
           && out.val == MsgVal([decoded] + BcchExtra(xml.value, dissect).value)
  }

  /** The fold keeps each outcome's triplet, in order, and ends at the first early return. */
  lemma {:induction false} PreFoldShape(steps: seq<Result<StepOut>>, n: nat)
    requires n <= |steps| && PreFold(steps, n).Success?
    ensures var st := PreFold(steps, n).value;
      && |st.lst| <= n
      && (!st.stopped ==> |st.lst| == n)
      && (st.stopped ==> 1 <= |st.lst| && steps[|st.lst| - 1].Success? && steps[|st.lst| - 1].value.stop)
      && (forall k :: 0 <= k < |st.lst| ==>
            steps[k].Success? && st.lst[k] == steps[k].value.out
            && (k < |st.lst| - 1 || !st.stopped ==> !steps[k].value.stop))
  {
    if n > 0 {
      PreFoldShape(steps, n - 1);
    }
  }

  /**
   * Order and one-for-one: the k-th output triplet stands for the k-th input
   * triplet, except that an unparsable BCCH message becomes the `Unsupported`
   * triplet, is the last output, and drops the rest of the input.
   */
  lemma PreparseShape(list: seq<Entry>, dissect: Dissector, parse: XmlParser)
    requires RawPayloads(list) && Preparse(list, dissect, parse).Success?
    ensures var out := Preparse(list, dissect, parse).value;
      && |out| <= |list|
      && (forall k :: 0 <= k < |out| ==>
            if Unparsable(list[k], dissect, parse) then k == |out| - 1 && out[k] == UnsupportedOf(list[k], dissect)
            else Corresponds(list[k], out[k], dissect, parse))
      && (|out| < |list| ==> out != [] && Unparsable(list[|out| - 1], dissect, parse))
  {
    var steps := Steps(list, dissect, parse);
    PreFoldShape(steps, |list|);
    var out := Preparse(list, dissect, parse).value;
    forall k | 0 <= k < |out|
      ensures steps[k].Success? && (steps[k].value.stop <==> Unparsable(list[k], dissect, parse))
      ensures if Unparsable(list[k], dissect, parse) then k == |out| - 1 && out[k] == UnsupportedOf(list[k], dissect)
              else Corresponds(list[k], out[k], dissect, parse)
    {
      StepsAt(list, k, dissect, parse);
      StepOutFor(list[k], steps[k].value, dissect, parse);
    }
  }

  /** What one successful iteration yields, named by `Unparsable`. */
  lemma StepOutFor(e: Entry, step: StepOut, dissect: Dissector, parse: XmlParser)
    requires IsRawMsg(e) ==> e.val.RBytes?
    requires PreStep(e, dissect, parse) == Success(step)
    ensures step.stop <==> Unparsable(e, dissect, parse)
    ensures if Unparsable(e, dissect, parse) then step.out == UnsupportedOf(e, dissect)
            else Corresponds(e, step.out, dissect, parse)
  {
    PreStepShape(e, dissect, parse);
  }

  /**
   * The first unparsable BCCH message of a record ends the output: it becomes
   * the `Unsupported` triplet holding its own wrapped decode.
   */
  lemma PreparseStopsAtUnsupported(list: seq<Entry>, k: nat, dissect: Dissector, parse: XmlParser)
    requires RawPayloads(list) && Preparse(list, dissect, parse).Success?
    requires k < |list| && Unparsable(list[k], dissect, parse)
    requires forall j :: 0 <= j < k ==> !Unparsable(list[j], dissect, parse)
    ensures var out := Preparse(list, dissect, parse).value;
      |out| == k + 1 && out[k] == UnsupportedOf(list[k], dissect)
  {
    PreparseShape(list, dissect, parse);
  }

  /**
   * One iteration: an unparsable BCCH message always yields the `Unsupported`
   * triplet and ends the loop; every other triplet that does not raise yields
   * its corresponding triplet and the loop goes on.
   */
  lemma PreStepShape(e: Entry, dissect: Dissector, parse: XmlParser)
    requires IsRawMsg(e) ==> e.val.RBytes?
    ensures Unparsable(e, dissect, parse) ==> PreStep(e, dissect, parse).Success?
    ensures PreStep(e, dissect, parse).Success? ==>
      var step := PreStep(e, dissect, parse).value;
      && (step.stop <==> Unparsable(e, dissect, parse))
      && (step.stop ==> step.out == UnsupportedOf(e, dissect))
      && (!step.stop ==> Corresponds(e, step.out, dissect, parse))
  {
    if IsRawMsg(e) {
      var decoded := dissect(MsgType(e), e.val.b);
      if MsgType(e) != BcchType {
        assert [decoded] + [] == [decoded];
      } else if ParsedBcch(decoded, parse).Some? {
        var extra := BcchExtra(ParsedBcch(decoded, parse).value, dissect);
        if extra.Success? {
          assert PreStep(e, dissect, parse).value.out.val == MsgVal([decoded] + extra.value);
        }
      }
    }
  }

  /** A record without raw messages passes through unchanged. */
  lemma {:induction false} PreparseNoRaw(list: seq<Entry>, dissect: Dissector, parse: XmlParser)
    requires forall k :: 0 <= k < |list| ==> !IsRawMsg(list[k])
    ensures Preparse(list, dissect, parse) == Success(list)
  {
    var steps := Steps(list, dissect, parse);
    forall k | 0 <= k < |list|
      ensures steps[k] == Success(StepOut(list[k], false))
    {
      StepsAt(list, k, dissect, parse);
    }
    PreFoldNoRaw(list, steps, |list|);
    assert list[..|list|] == list;
  }

  lemma {:induction false} PreFoldNoRaw(list: seq<Entry>, steps: seq<Result<StepOut>>, n: nat)
    requires n <= |list| == |steps|
    requires forall k :: 0 <= k < |list| ==> steps[k] == Success(StepOut(list[k], false))
    ensures PreFold(steps, n) == Success(PreState(list[..n], false))
  {
    if n > 0 {
      PreFoldNoRaw(list, steps, n - 1);
      assert list[..n - 1] + [list[n - 1]] == list[..n];
    }
  }

  /** A complete SIB that reads and whose type id is in the table. */
  predicate IsKnown(info: SibInfo) {
    info.id.Some? && info.bytes.Some? && info.id.value in WcdmaSibTypes
  }

  /** The known complete SIBs, in document order. */
  function Known(infos: seq<SibInfo>): (known: seq<SibInfo>)
    ensures |known| <= |infos|
    ensures forall k :: 0 <= k < |known| ==> IsKnown(known[k])
  {
    if infos == [] then []
    else Known(infos[..|infos| - 1]) + (if IsKnown(infos[|infos| - 1]) then [infos[|infos| - 1]] else [])
  }

  /** The decode of a known SIB: its payload under the dissector type its id maps to. */
  function DecodeOf(info: SibInfo, dissect: Dissector): Option<string>
    requires IsKnown(info)
  {
    dissect(WcdmaSibTypes[info.id.value], info.bytes.value)
  }

  function DecodeAll(known: seq<SibInfo>, dissect: Dissector): (r: seq<Option<string>>)
    requires forall k :: 0 <= k < |known| ==> IsKnown(known[k])
    ensures |r| == |known| && forall k :: 0 <= k < |known| ==> r[k] == DecodeOf(known[k], dissect)
  {
    if known == [] then [] else DecodeAll(known[..|known| - 1], dissect) + [DecodeOf(known[|known| - 1], dissect)]
  }

  /**
   * When every complete SIB reads, the loop yields exactly the decodes of the
   * known SIBs, in document order; SIBs of unknown ids, wherever they sit,
   * are skipped.
   */
  lemma {:induction false} KnownSibsDecodeInOrder(infos: seq<SibInfo>, n: nat, dissect: Dissector)
    requires n <= |infos|
    requires forall k :: 0 <= k < n ==> infos[k].id.Some? && infos[k].bytes.Some?
    ensures SibFold(infos, n, dissect) == Success(DecodeAll(Known(infos[..n]), dissect))
  {
    if n > 0 {
      KnownSibsDecodeInOrder(infos, n - 1, dissect);
      var prev := Known(infos[..n - 1]);
      assert infos[..n][..n - 1] == infos[..n - 1];
      var x := infos[n - 1];
      if IsKnown(x) {
        assert Known(infos[..n]) == prev + [x];
        assert (prev + [x])[..|prev|] == prev;
      } else {
        assert Known(infos[..n]) == prev + [] == prev;
        assert SibStep(x, dissect) == Success([]);
        assert DecodeAll(prev, dissect) + [] == DecodeAll(prev, dissect);
      }
    }
  }

  /** The SIB decodes a parsed BCCH message with complete SIBs adds are those of its known SIBs. */
  lemma BcchExtraKnown(xml: Element, dissect: Dissector)
    requires FindAllDescendants(xml, CompleteSibName) != [] && BcchExtra(xml, dissect).Success?
    ensures var infos := SibInfos(FindAllDescendants(xml, CompleteSibName));
      BcchExtra(xml, dissect).value == DecodeAll(Known(infos), dissect)
  {
    var infos := SibInfos(FindAllDescendants(xml, CompleteSibName));
    forall j | 0 <= j < |infos|
      ensures infos[j].id.Some? && infos[j].bytes.Some?
    {
      if infos[j].id.None? || infos[j].bytes.None? {
        MalformedSibFails(infos, |infos|, j, dissect);
      }
    }
    KnownSibsDecodeInOrder(infos, |infos|, dissect);
    assert infos[..|infos|] == infos;
  }

  /** Complete SIBs of unknown type ids are skipped without an error. */
  lemma {:induction false} UnknownSibsSkipped(infos: seq<SibInfo>, n: nat, dissect: Dissector)
    requires n <= |infos|
    requires forall k :: 0 <= k < n ==>
      infos[k].id.Some? && infos[k].bytes.Some? && infos[k].id.value !in WcdmaSibTypes
    ensures SibFold(infos, n, dissect) == Success([])
  {
    if n > 0 {
      UnknownSibsSkipped(infos, n - 1, dissect);
      var prev := SibFold(infos, n - 1, dissect).value;
      var one := SibStep(infos[n - 1], dissect).value;
      assert SibFold(infos, n, dissect) == Success(prev + one);
      assert prev == [] && one == [];
      assert prev + one == [];
    }
  }

  /** A malformed complete SIB anywhere fails the whole message. */
  lemma {:induction false} MalformedSibFails(infos: seq<SibInfo>, n: nat, j: nat, dissect: Dissector)
    requires j < n <= |infos|
    requires infos[j].id.None? || infos[j].bytes.None?
    ensures SibFold(infos, n, dissect).Failure?
  {
    if n - 1 > j {
      MalformedSibFails(infos, n - 1, j, dissect);
    }
  }

  /**
   * Without complete SIBs a segment never adds a decode: the BCCH message
   * wraps its own decode only (or the record fails on an unreadable segment id).
   */
  lemma SegmentAddsNothing(xml: Element, dissect: Dissector)
    requires FindAllDescendants(xml, CompleteSibName) == []
    ensures BcchExtra(xml, dissect) == (if SegmentReadable(xml) then Success([]) else Failure)
  {
  }

  // ---------------------------------------------------------------------
  // _parse_internal_list: specification
  // ---------------------------------------------------------------------

  /** The `out_type` argument: "dict", "list", "xml/dict" or "xml/list". */
  datatype OutType = DictOut | ListOut | XmlDictOut | XmlListOut {
    predicate IsXml() { this == XmlDictOut || this == XmlListOut }
  }

  /** A rendered value: a scalar, a dict, a tuple, or a value passed through as is. */
  datatype Value = VScalar(s: Scalar) | VDict(d: map<string, Value>) | VTuple(items: seq<Value>) | VObj(raw: RawVal)

  /** What `_parse_internal_list` returns: a dict or tuple, or an XML element. */
  datatype Rendered = RValue(v: Value) | RElem(e: Element)

  /** The loop variable `xx` as the next iteration sees it. */
  datatype Carried = CValue(v: Value) | CText(t: string) | CElem(e: Element)

  /**
   * XML output renders a plain triplet as the text `str(val)`. The model
   * covers scalars and bytes there; a plain triplet holding nested triplets
   * (whose `str` is Python's `repr` of a list of tuples) is not covered.
   */
  predicate XmlTexts(list: seq<Entry>)
    decreases list
  {
    forall k :: 0 <= k < |list| ==> EntryTexts(list[k])
  }

  predicate EntryTexts(e: Entry)
    decreases e
  {
    && (e.typeStr == "" ==> !e.val.RNested?)
    && (IsNestedTag(e.typeStr) && e.val.RNested? ==> XmlTexts(e.val.entries))
  }

  predicate IsNestedTag(t: string) { t == "dict" || t == "list" }

  /** The output type of a nested `dict` or `list` triplet under `o`. */
  function NestedOut(o: OutType, t: string): OutType
    requires IsNestedTag(t)
  {
    if o.IsXml() then (if t == "dict" then XmlDictOut else XmlListOut)
    else (if t == "dict" then DictOut else ListOut)
  }

  /** The output so far and the last `xx`. */
  datatype RenderState = RenderState(d: map<string, Value>, items: seq<Value>, children: seq<Element>, xx: Option<Carried>)

  /** The sub-element an XML rendering adds for one triplet. */
  function SubTag(o: OutType, name: string, typeAttr: Option<string>, text: Option<string>, child: seq<Element>): Element
  {
    var base := if o == XmlListOut then map[] else map["key" := name];
    var attrs := if typeAttr.Some? then base["type" := typeAttr.value] else base;
    Element(if o == XmlListOut then "item" else "pair", attrs, text, child)
  }

  /** `val` kept as the loop variable: a scalar, or the Python object itself. */
  function AsValue(v: RawVal): (r: Value)
    ensures v.RScalar? ==> r == VScalar(v.v)
    ensures !v.RScalar? ==> r == VObj(v)
  {
    if v.RScalar? then VScalar(v.v) else VObj(v)
  }

  /** Python 2 `str` of a byte string: one character per byte. */
  function BytesText(b: seq<bv8>): (s: string)
    ensures |s| == |b| && forall k :: 0 <= k < |b| ==> s[k] as int == b[k] as int
  {
    seq(|b|, k requires 0 <= k < |b| => (b[k] as int) as char)
  }

  /** The text `ET.XML` is handed for a `msg` triplet; anything but a string raises. */
  function MsgText(v: RawVal): Option<string> {
    match v
    case RScalar(SStr(s)) => Some(s)
    case RBytes(b) => Some(BytesText(b))
    case _ => None
  }

  /** `str(val)` of a plain triplet in XML output. */
  function TextOf(v: RawVal): string
    requires !v.RNested?
  {
    match v
    case RScalar(s) => StrOf(s)
    case RBytes(b) => BytesText(b)
  }

  /** What `_parse_internal_list` returns for an empty list. */
  function EmptyRender(o: OutType): Rendered {
    match o
    case DictOut => RValue(VDict(map[]))
    case ListOut => RValue(VTuple([]))
    case XmlDictOut => RElem(Element("dict", map[], None, []))
    case XmlListOut => RElem(Element("list", map[], None, []))
  }

  /** A value the recursive call accepts: nested triplets, or an empty string. */
  predicate NestedShaped(v: RawVal) {
    v.RNested? || v == RScalar(SStr("")) || v == RBytes([])
  }

  /**
   * The recursive call for a `dict` or `list` triplet: nested triplets are
   * rendered, an empty string renders as an empty list; any other value
   * raises (`len` of a scalar, or a character unpacked as a triplet).
   */
  function RenderNested(o: OutType, v: RawVal, parse: XmlParser): (r: Result<Rendered>)
    requires o.IsXml() && v.RNested? ==> XmlTexts(v.entries)
    ensures !NestedShaped(v) ==> r.Failure?
    decreases v
  {
    match v
    case RNested(entries) => Render(o, entries, parse)
    case RScalar(s) => if s == SStr("") then Success(EmptyRender(o)) else Failure
    case RBytes(b) => if b == [] then Success(EmptyRender(o)) else Failure
  }

  /**
   * One iteration of the render loop: a nested triplet is rendered first. An
   * unknown tag reuses the previous `xx` (an UnboundLocalError on the first
   * iteration); in XML output a reused text cannot be appended as a child.
   */
  function RenderStep(o: OutType, st: RenderState, e: Entry, parse: XmlParser): Result<RenderState>
    requires o.IsXml() ==> EntryTexts(e)
    decreases e
  {
    var nested: Option<Rendered> :-
      if IsNestedTag(e.typeStr) then
        var r :- RenderNested(NestedOut(o, e.typeStr), e.val, parse);
        Success(Some(r))
      else Success(None);
    if !o.IsXml() then
      var xx: Value :-
        if e.typeStr == "" || e.typeStr == "msg" then Success(AsValue(e.val))
        else if nested.Some? && nested.value.RValue? then Success(nested.value.v)
        else if nested.None? && st.xx.Some? && st.xx.value.CValue? then Success(st.xx.value.v)
        else Failure;
      if o == DictOut then Success(st.(d := st.d[e.name := xx], xx := Some(CValue(xx))))
      else Success(st.(items := st.items + [xx], xx := Some(CValue(xx))))
    else if e.typeStr == "" then
      var text := TextOf(e.val);
      Success(st.(children := st.children + [SubTag(o, e.name, None, Some(text), [])], xx := Some(CText(text))))
    else
      var child: Element :-
        if e.typeStr == "msg" then
          var text :- Need(MsgText(e.val));
          Need(parse(text))
        else if nested.Some? && nested.value.RElem? then Success(nested.value.e)
        else if nested.None? && st.xx.Some? && st.xx.value.CElem? then Success(st.xx.value.e)
        else Failure;
      var typeAttr := if e.typeStr == "msg" then "list" else e.typeStr;
      Success(st.(children := st.children + [SubTag(o, e.name, Some(typeAttr), None, [child])], xx := Some(CElem(child))))
  }

  /** The render loop after its first `n` iterations. */
  function RenderFold(o: OutType, list: seq<Entry>, n: nat, parse: XmlParser): Result<RenderState>
    requires n <= |list| && (o.IsXml() ==> XmlTexts(list))
    decreases list, 0, n
  {
    if n == 0 then Success(RenderState(map[], [], [], None))
    else
      var st :- RenderFold(o, list, n - 1, parse);
      RenderStep(o, st, list[n - 1], parse)
  }

  /** `_parse_internal_list(out_type, decoded_list)`; Failure stands for an exception. */
  function Render(o: OutType, list: seq<Entry>, parse: XmlParser): (r: Result<Rendered>)
    requires o.IsXml() ==> XmlTexts(list)
    ensures r.Success? ==> (r.value.RElem? <==> o.IsXml())
    decreases list, 1
  {
    var st :- RenderFold(o, list, |list|, parse);
    match o
    case DictOut => Success(RValue(VDict(st.d)))
    case ListOut => Success(RValue(VTuple(st.items)))
    case XmlDictOut => Success(RElem(Element("dict", map[], None, st.children)))
    case XmlListOut => Success(RElem(Element("list", map[], None, st.children)))
  }

  // ---------------------------------------------------------------------
  // _parse_internal_list: the loop
  // ---------------------------------------------------------------------

  lemma {:induction false} RenderFailureStays(o: OutType, list: seq<Entry>, m: nat, parse: XmlParser)
    requires m <= |list| && (o.IsXml() ==> XmlTexts(list))
    requires RenderFold(o, list, m, parse).Failure?
    ensures Render(o, list, parse).Failure?
    decreases |list| - m
  {
    if m < |list| {
      RenderFailureStays(o, list, m + 1, parse);
    }
  }

  /** `_parse_internal_list`: the render loop, recursing into nested triplets. */
  method ParseInternalList(o: OutType, decodedList: seq<Entry>, parse: XmlParser) returns (r: Result<Rendered>)
    requires o.IsXml() ==> XmlTexts(decodedList)
    ensures r == Render(o, decodedList, parse)
    decreases decodedList, 1
  {
    var st := RenderState(map[], [], [], None);
    var i := 0;
    while i < |decodedList|
      invariant 0 <= i <= |decodedList|
      invariant RenderFold(o, decodedList, i, parse) == Success(st)
    {
      var next := RenderEntry(o, decodedList, i, st, parse);
      if next.Failure? {
        RenderFailureStays(o, decodedList, i + 1, parse);
        return Failure;
      }
      st := next.value;
      i := i + 1;
    }
    match o
    case DictOut => r := Success(RValue(VDict(st.d)));
    case ListOut => r := Success(RValue(VTuple(st.items)));
    case XmlDictOut => r := Success(RElem(Element("dict", map[], None, st.children)));
    case XmlListOut => r := Success(RElem(Element("list", map[], None, st.children)));
  }

  /**
   * The body of the render loop for the `i`-th triplet: pick `xx`, then add
   * it to the dict, the tuple or the element.
   */
  method RenderEntry(o: OutType, decodedList: seq<Entry>, i: nat, st: RenderState, parse: XmlParser)
    returns (next: Result<RenderState>)
    requires i < |decodedList| && (o.IsXml() ==> XmlTexts(decodedList))
    requires RenderFold(o, decodedList, i, parse) == Success(st)
    ensures next == RenderFold(o, decodedList, i + 1, parse)
    decreases decodedList, 0, i
  {
    var e := decodedList[i];
    assert o.IsXml() ==> EntryTexts(e);
    assert RenderFold(o, decodedList, i + 1, parse) == RenderStep(o, st, e, parse);
    var xx := st.xx;
    if e.typeStr == "" || e.typeStr == "msg" {
      xx := Some(CValue(AsValue(e.val)));
    } else if IsNestedTag(e.typeStr) {
      var sub: Result<Rendered>;
      if e.val.RNested? {
        sub := ParseInternalList(NestedOut(o, e.typeStr), e.val.entries, parse);
      } else if NestedShaped(e.val) {
        sub := Success(EmptyRender(NestedOut(o, e.typeStr)));
      } else {
        sub := Failure;
      }
      assert sub == RenderNested(NestedOut(o, e.typeStr), e.val, parse);
      if sub.Failure? {
        return Failure;
      }
      xx := Some(if sub.value.RElem? then CElem(sub.value.e) else CValue(sub.value.v));
    }
    var d, items, children := st.d, st.items, st.children;
    if !o.IsXml() {
      if xx.None? || !xx.value.CValue? {
        return Failure;
      }
      if o == DictOut {
        d := d[e.name := xx.value.v];
      } else {
        items := items + [xx.value.v];
      }
    } else if e.typeStr == "" {
      var text := TextOf(e.val);
      xx := Some(CText(text));
      children := children + [SubTag(o, e.name, None, Some(text), [])];
    } else {
      if e.typeStr == "msg" {
        var text := MsgText(e.val);
        if text.None? {
          return Failure;
        }
        var parsed := parse(text.value);
        if parsed.None? {
          return Failure;
        }
        xx := Some(CElem(parsed.value));
      }
      if xx.None? || !xx.value.CElem? {
        return Failure;
      }
      var typeAttr := if e.typeStr == "msg" then "list" else e.typeStr;
      children := children + [SubTag(o, e.name, Some(typeAttr), None, [xx.value.e])];
    }
    next := Success(RenderState(d, items, children, xx));
  }

  // ---------------------------------------------------------------------
  // Properties of the renderer
  // ---------------------------------------------------------------------

  /** The render loop after `n` iterations is the loop after `n - 1` plus one more step. */
  lemma RenderFoldUnfold(o: OutType, list: seq<Entry>, n: nat, parse: XmlParser)
    requires 0 < n <= |list| && (o.IsXml() ==> XmlTexts(list))
    ensures RenderFold(o, list, n, parse) ==
      match RenderFold(o, list, n - 1, parse)
      case Failure => Failure
      case Success(st) => RenderStep(o, st, list[n - 1], parse)
  {
  }

  /** A tag `_parse_internal_list` has a branch for. */
  predicate KnownTag(t: string) { t == "" || t == "msg" || IsNestedTag(t) }

  /**
   * The `k`-th item of a tuple rendering: the scalar itself, the rendering of
   * the nested triplets, or for an unknown tag a repeat of the item before.
   */
  ghost predicate ItemFor(list: seq<Entry>, k: nat, items: seq<Value>, parse: XmlParser)
    requires k < |list| && k < |items|
  {
    var e := list[k];
    if e.typeStr == "" || e.typeStr == "msg" then items[k] == AsValue(e.val)
    else if IsNestedTag(e.typeStr) then
      RenderNested(NestedOut(ListOut, e.typeStr), e.val, parse) == Success(RValue(items[k]))
    else 0 < k && items[k] == items[k - 1]
  }

  lemma {:induction false} ListFold(list: seq<Entry>, n: nat, parse: XmlParser)
    requires n <= |list| && RenderFold(ListOut, list, n, parse).Success?
    ensures var st := RenderFold(ListOut, list, n, parse).value;
      && |st.items| == n
      && (n == 0 ==> st.xx == None)
      && (n > 0 ==> st.xx == Some(CValue(st.items[n - 1])))
      && forall k :: 0 <= k < n ==> ItemFor(list, k, st.items, parse)
  {
    if n > 0 {
      RenderFoldUnfold(ListOut, list, n, parse);
      ListFold(list, n - 1, parse);
      var prev := RenderFold(ListOut, list, n - 1, parse).value;
      var st := RenderFold(ListOut, list, n, parse).value;
      assert st.items == prev.items + [st.items[n - 1]];
      forall k | 0 <= k < n
        ensures ItemFor(list, k, st.items, parse)
      {
        if k < n - 1 {
          assert ItemFor(list, k, prev.items, parse);
        }
      }
    }
  }

  /**
   * `"list"` output: one item per triplet, in order, each the triplet's value
   * (an unknown tag repeats the item before it).
   */
  lemma RenderList(list: seq<Entry>, parse: XmlParser)
    requires Render(ListOut, list, parse).Success?
    ensures var r := Render(ListOut, list, parse).value;
      && r.RValue? && r.v.VTuple?
      && |r.v.items| == |list|
      && forall k :: 0 <= k < |list| ==> ItemFor(list, k, r.v.items, parse)
  {
    ListFold(list, |list|, parse);
  }

  /** The position of the last of the first `n` triplets named `name`, if any. */
  function LastWith(list: seq<Entry>, n: nat, name: string): (r: Option<nat>)
    requires n <= |list|
    ensures r.Some? ==> r.value < n && list[r.value].name == name
    ensures r.Some? ==> forall j :: r.value < j < n ==> list[j].name != name
    ensures r.None? ==> forall j :: 0 <= j < n ==> list[j].name != name
  {
    if n == 0 then None
    else if list[n - 1].name == name then Some(n - 1)
    else LastWith(list, n - 1, name)
  }

  /** Dict and tuple steps pick the same `xx` and both record it. */
  lemma DictStep(ds: RenderState, ls: RenderState, e: Entry, parse: XmlParser)
    requires ds.xx == ls.xx
    ensures RenderStep(DictOut, ds, e, parse).Success? <==> RenderStep(ListOut, ls, e, parse).Success?
    ensures RenderStep(DictOut, ds, e, parse).Success? ==>
      var dn := RenderStep(DictOut, ds, e, parse).value;
      var ln := RenderStep(ListOut, ls, e, parse).value;
      && dn.xx == ln.xx && dn.xx.Some? && dn.xx.value.CValue?
      && ln.items == ls.items + [dn.xx.value.v]
      && dn.d == ds.d[e.name := dn.xx.value.v]
  {
    if IsNestedTag(e.typeStr) {
      assert NestedOut(DictOut, e.typeStr) == NestedOut(ListOut, e.typeStr);
    }
  }

  /** `DictStep` for the `n`-th iteration of both loops. */
  lemma DictFoldStep(list: seq<Entry>, n: nat, parse: XmlParser)
    requires 0 < n <= |list|
    requires RenderFold(DictOut, list, n - 1, parse).Success? && RenderFold(ListOut, list, n - 1, parse).Success?
    requires RenderFold(DictOut, list, n - 1, parse).value.xx == RenderFold(ListOut, list, n - 1, parse).value.xx
    ensures RenderFold(DictOut, list, n, parse).Success? <==> RenderFold(ListOut, list, n, parse).Success?
    ensures RenderFold(DictOut, list, n, parse).Success? ==>
      var dn := RenderFold(DictOut, list, n, parse).value;
      var ln := RenderFold(ListOut, list, n, parse).value;
      && dn.xx == ln.xx && dn.xx.Some? && dn.xx.value.CValue?
      && ln.items == RenderFold(ListOut, list, n - 1, parse).value.items + [dn.xx.value.v]
      && dn.d == RenderFold(DictOut, list, n - 1, parse).value.d[list[n - 1].name := dn.xx.value.v]
  {
    RenderFoldUnfold(DictOut, list, n, parse);
    RenderFoldUnfold(ListOut, list, n, parse);
    DictStep(RenderFold(DictOut, list, n - 1, parse).value, RenderFold(ListOut, list, n - 1, parse).value, list[n - 1], parse);
  }

  lemma {:induction false} DictFold(list: seq<Entry>, n: nat, parse: XmlParser)
    requires n <= |list|
    ensures RenderFold(DictOut, list, n, parse).Success? <==> RenderFold(ListOut, list, n, parse).Success?
    ensures RenderFold(DictOut, list, n, parse).Success? ==>
      var ds := RenderFold(DictOut, list, n, parse).value;
      var ls := RenderFold(ListOut, list, n, parse).value;
      && ds.xx == ls.xx
      && |ls.items| == n
      && (forall name :: name in ds.d <==> LastWith(list, n, name).Some?)
      && (forall name :: name in ds.d ==> ds.d[name] == ls.items[LastWith(list, n, name).value])
  {
    if n > 0 {
      DictFold(list, n - 1, parse);
      if RenderFold(DictOut, list, n - 1, parse).Success? {
        DictFoldStep(list, n, parse);
        if RenderFold(DictOut, list, n, parse).Success? {
          var ls := RenderFold(ListOut, list, n - 1, parse).value;
          var dn := RenderFold(DictOut, list, n, parse).value;
          var ln := RenderFold(ListOut, list, n, parse).value;
          forall name | name in dn.d
            ensures LastWith(list, n, name).Some?
            ensures dn.d[name] == ln.items[LastWith(list, n, name).value]
          {
            if name != list[n - 1].name {
              assert ln.items[LastWith(list, n - 1, name).value] == ls.items[LastWith(list, n - 1, name).value];
            }
          }
        }
      } else {
        RenderFoldFailure(DictOut, list, n, parse);
        RenderFoldFailure(ListOut, list, n, parse);
      }
    }
  }

  lemma RenderFoldFailure(o: OutType, list: seq<Entry>, n: nat, parse: XmlParser)
    requires 0 < n <= |list| && (o.IsXml() ==> XmlTexts(list)) && RenderFold(o, list, n - 1, parse).Failure?
    ensures RenderFold(o, list, n, parse).Failure?
  {
  }

  /**
   * `"dict"` output succeeds exactly when `"list"` output does; its keys are
   * the triplet names and each name maps to the item of the last triplet
   * with that name.
   */
  lemma RenderDict(list: seq<Entry>, parse: XmlParser)
    ensures Render(DictOut, list, parse).Success? <==> Render(ListOut, list, parse).Success?
    ensures Render(DictOut, list, parse).Success? ==>
      var d := Render(DictOut, list, parse).value.v.d;
      var items := Render(ListOut, list, parse).value.v.items;
      && |items| == |list|
      && (forall name :: name in d <==> exists k :: 0 <= k < |list| && list[k].name == name)
      && (forall name :: name in d ==> d[name] == items[LastWith(list, |list|, name).value])
  {
    DictFold(list, |list|, parse);
    if Render(DictOut, list, parse).Success? {
      var d := Render(DictOut, list, parse).value.v.d;
      forall name | (exists k :: 0 <= k < |list| && list[k].name == name)
        ensures name in d
      {
        var k :| 0 <= k < |list| && list[k].name == name;
        assert LastWith(list, |list|, name).Some?;
      }
    }
  }

  /**
   * The XML child for one triplet: `item`, or `pair` with the `key` attribute;
   * a plain scalar becomes the text `str(val)`, anything else becomes the one
   * child of a node whose `type` is the tag (`list` for a `msg`). For an
   * unknown tag that child is the element the previous iteration left in
   * `xx`, which `RenderXml` states across neighbouring children.
   */
  ghost predicate ChildFor(o: OutType, e: Entry, c: Element, parse: XmlParser)
    requires o.IsXml() && EntryTexts(e)
  {
    && c.tag == (if o == XmlListOut then "item" else "pair")
    && (o == XmlListOut ==> c.Get("key") == None)
    && (o != XmlListOut ==> c.Get("key") == Some(e.name))
    && (e.typeStr == "" ==> c.text == Some(TextOf(e.val)) && c.Get("type") == None && c.children == [])
    && (e.typeStr != "" ==>
          && c.text == None
          && c.Get("type") == Some(if e.typeStr == "msg" then "list" else e.typeStr)
          && |c.children| == 1)
    && (e.typeStr == "msg" ==> MsgText(e.val).Some? && parse(MsgText(e.val).value) == Some(c.children[0]))
    && (IsNestedTag(e.typeStr) ==> RenderNested(NestedOut(o, e.typeStr), e.val, parse) == Success(RElem(c.children[0])))
  }

  /** The `xx` an XML step leaves for the next one: the text it set, or the element it appended. */
  function CarriedBy(e: Entry, c: Element): Option<Carried>
    requires EntryTexts(e)
  {
    if e.typeStr == "" then Some(CText(TextOf(e.val)))
    else if |c.children| == 1 then Some(CElem(c.children[0]))
    else None
  }

  /** One XML step appends exactly the child `ChildFor` describes. */
  lemma XmlStep(o: OutType, st: RenderState, e: Entry, parse: XmlParser)
    requires o.IsXml() && EntryTexts(e) && RenderStep(o, st, e, parse).Success?
    ensures var next := RenderStep(o, st, e, parse).value;
      && |next.children| == |st.children| + 1
      && next.children[..|st.children|] == st.children
      && ChildFor(o, e, next.children[|st.children|], parse)
      && next.xx == CarriedBy(e, next.children[|st.children|])
      && (!KnownTag(e.typeStr) ==> st.xx == next.xx)
  {
    var next := RenderStep(o, st, e, parse).value;
    assert next.children[..|st.children|] == st.children;
  }

  /** `XmlStep` for the `n`-th iteration of the loop. */
  lemma XmlFoldStep(o: OutType, list: seq<Entry>, n: nat, parse: XmlParser)
    requires o.IsXml() && 0 < n <= |list| && XmlTexts(list) && RenderFold(o, list, n, parse).Success?
    ensures RenderFold(o, list, n - 1, parse).Success?
    ensures var prev := RenderFold(o, list, n - 1, parse).value.children;
      var next := RenderFold(o, list, n, parse).value.children;
      && |next| == |prev| + 1
      && next[..|prev|] == prev
      && ChildFor(o, list[n - 1], next[|prev|], parse)
    ensures var prev := RenderFold(o, list, n - 1, parse).value;
      var next := RenderFold(o, list, n, parse).value;
      && next.xx == CarriedBy(list[n - 1], next.children[|prev.children|])
      && (!KnownTag(list[n - 1].typeStr) ==> prev.xx == next.xx)
  {
    RenderFoldUnfold(o, list, n, parse);
    assert EntryTexts(list[n - 1]);
    XmlStep(o, RenderFold(o, list, n - 1, parse).value, list[n - 1], parse);
  }

  lemma {:induction false} XmlFold(o: OutType, list: seq<Entry>, n: nat, parse: XmlParser)
    requires o.IsXml() && n <= |list| && XmlTexts(list) && RenderFold(o, list, n, parse).Success?
    ensures var st := RenderFold(o, list, n, parse).value;
      && |st.children| == n
      && forall k :: 0 <= k < n ==> ChildFor(o, list[k], st.children[k], parse)
  {
    if n > 0 {
      XmlFoldStep(o, list, n, parse);
      XmlFold(o, list, n - 1, parse);
      var prev := RenderFold(o, list, n - 1, parse).value;
      var st := RenderFold(o, list, n, parse).value;
      forall k | 0 <= k < n
        ensures ChildFor(o, list[k], st.children[k], parse)
      {
        if k < n - 1 {
          assert st.children[k] == st.children[..n - 1][k] == prev.children[k];
        }
      }
    }
  }

  /** A child with an unknown tag that carried on its neighbour's `xx` holds its neighbour's element. */
  lemma ReuseNeighbour(o: OutType, e1: Entry, e2: Entry, c1: Element, c2: Element, parse: XmlParser)
    requires o.IsXml() && EntryTexts(e1) && EntryTexts(e2) && !KnownTag(e2.typeStr)
    requires ChildFor(o, e1, c1, parse) && ChildFor(o, e2, c2, parse)
    requires CarriedBy(e1, c1) == CarriedBy(e2, c2)
    ensures e1.typeStr != "" && c2.children == c1.children
  {
  }

  /**
   * The `xx` after `n` iterations is what the last one carried; so a triplet
   * with an unknown tag repeats the element of the child before it, which
   * cannot be a plain text.
   */
  lemma {:induction false} XmlReuse(o: OutType, list: seq<Entry>, n: nat, parse: XmlParser)
    requires o.IsXml() && n <= |list| && XmlTexts(list) && RenderFold(o, list, n, parse).Success?
    ensures var st := RenderFold(o, list, n, parse).value;
      && |st.children| == n
      && (n > 0 ==> st.xx == CarriedBy(list[n - 1], st.children[n - 1]))
      && forall k :: 0 < k < n && !KnownTag(list[k].typeStr) ==>
           list[k - 1].typeStr != "" && st.children[k].children == st.children[k - 1].children
  {
    if n > 0 {
      XmlFoldStep(o, list, n, parse);
      XmlReuse(o, list, n - 1, parse);
      var prev := RenderFold(o, list, n - 1, parse).value;
      var st := RenderFold(o, list, n, parse).value;
      if n > 1 && !KnownTag(list[n - 1].typeStr) {
        XmlFold(o, list, n - 1, parse);
        assert st.children[n - 2] == prev.children[n - 2];
        ReuseNeighbour(o, list[n - 2], list[n - 1], prev.children[n - 2], st.children[n - 1], parse);
      }
      forall k | 0 < k < n - 1 && !KnownTag(list[k].typeStr)
        ensures list[k - 1].typeStr != "" && st.children[k].children == st.children[k - 1].children
      {
        assert st.children[k] == prev.children[k];
        assert st.children[k - 1] == prev.children[k - 1];
      }
    }
  }

  /** XML output: a `dict` or `list` element with one child per triplet, in order. */
  lemma RenderXml(o: OutType, list: seq<Entry>, parse: XmlParser)
    requires o.IsXml() && XmlTexts(list) && Render(o, list, parse).Success?
    ensures var r := Render(o, list, parse).value;
      && r.RElem?
      && r.e.tag == (if o == XmlListOut then "list" else "dict")
      && r.e.attrs == map[] && r.e.text == None
      && |r.e.children| == |list|
      && (forall k :: 0 <= k < |list| ==> ChildFor(o, list[k], r.e.children[k], parse))
      && forall k :: 0 < k < |list| && !KnownTag(list[k].typeStr) ==>
           list[k - 1].typeStr != "" && r.e.children[k].children == r.e.children[k - 1].children
  {
    XmlFold(o, list, |list|, parse);
    XmlReuse(o, list, |list|, parse);
  }

  /** A first triplet with an unknown tag has no `xx` to reuse: the call raises. */
  lemma UnknownFirstFails(o: OutType, list: seq<Entry>, parse: XmlParser)
    requires (o.IsXml() ==> XmlTexts(list)) && |list| > 0 && !KnownTag(list[0].typeStr)
    ensures Render(o, list, parse).Failure?
  {
    RenderFoldUnfold(o, list, 1, parse);
    RenderFailureStays(o, list, 1, parse);
  }

  /**
   * A triplet whose value does not fit its tag makes the whole call raise,
   * wherever it sits: a `dict` or `list` triplet holding a scalar or a
   * non-empty string, or in XML output a `msg` triplet holding no text.
   */
  lemma MisfitFails(o: OutType, list: seq<Entry>, k: nat, parse: XmlParser)
    requires (o.IsXml() ==> XmlTexts(list)) && k < |list|
    requires || (IsNestedTag(list[k].typeStr) && !NestedShaped(list[k].val))
             || (o.IsXml() && list[k].typeStr == "msg" && MsgText(list[k].val).None?)
    ensures Render(o, list, parse).Failure?
  {
    if RenderFold(o, list, k, parse).Failure? {
      RenderFailureStays(o, list, k, parse);
    } else {
      RenderFoldUnfold(o, list, k + 1, parse);
      RenderFailureStays(o, list, k + 1, parse);
    }
  }

  /** Every tag known and every `dict` or `list` triplet holding triplets, at every depth. */
  predicate AllKnown(list: seq<Entry>)
    decreases list
  {
    forall k :: 0 <= k < |list| ==>
      && KnownTag(list[k].typeStr)
      && (IsNestedTag(list[k].typeStr) ==> list[k].val.RNested?)
      && (list[k].val.RNested? ==> AllKnown(list[k].val.entries))
  }

  /** With every tag known and every nesting well formed, dict and tuple output never fail. */
  lemma {:induction false} RenderSucceeds(o: OutType, list: seq<Entry>, parse: XmlParser)
    requires !o.IsXml() && AllKnown(list)
    ensures Render(o, list, parse).Success?
    decreases list, 1
  {
    FoldSucceeds(o, list, |list|, parse);
  }

  lemma {:induction false} FoldSucceeds(o: OutType, list: seq<Entry>, n: nat, parse: XmlParser)
    requires !o.IsXml() && n <= |list| && AllKnown(list)
    ensures RenderFold(o, list, n, parse).Success?
    decreases list, 0, n
  {
    if n > 0 {
      FoldSucceeds(o, list, n - 1, parse);
      RenderFoldUnfold(o, list, n, parse);
      var e := list[n - 1];
      assert e in list;
      if IsNestedTag(e.typeStr) {
        RenderSucceeds(NestedOut(o, e.typeStr), e.val.entries, parse);
      }
    }
  }

  // ---------------------------------------------------------------------
  // _search_result
  // ---------------------------------------------------------------------

  /** The `target` argument: one name, or a list or tuple of names. */
  datatype Target = OneName(name: string) | Names(names: seq<string>)

  /** What `_search_result` returns: the bare value for one target, a tuple otherwise. */
  datatype Found<T> = Bare(value: T) | Tuple(values: seq<T>)

  /** `if isinstance(target, str): target = [target]` */
  function TargetNames(target: Target): (ts: seq<string>)
    ensures target.OneName? ==> ts == [target.name]
    ensures target.Names? ==> ts == target.names
  {
    match target
    case OneName(n) => [n]
    case Names(ns) => ns
  }

  /**
   * What `ret[i]` holds after the first `n` results for a target named
   * `name`: the decode of the last of them with that name, or None.
   */
  function LastDecode<T>(result: seq<(string, Option<T>)>, n: nat, name: string): Option<T>
    requires n <= |result|
  {
    if n == 0 then None
    else if result[n - 1].0 == name then result[n - 1].1
    else LastDecode(result, n - 1, name)
  }

  /**
   * Last write wins: a name no result carries stays None; otherwise the
   * decode is that of a result with the name after which no other has it.
   */
  lemma {:induction false} LastDecodeIsLast<T>(result: seq<(string, Option<T>)>, n: nat, name: string)
    requires n <= |result|
    ensures (forall j :: 0 <= j < n ==> result[j].0 != name) ==> LastDecode(result, n, name) == None
    ensures (exists j :: 0 <= j < n && result[j].0 == name) ==>
      exists j :: 0 <= j < n && result[j] == (name, LastDecode(result, n, name))
        && forall k :: j < k < n ==> result[k].0 != name
  {
    if n > 0 && result[n - 1].0 != name {
      LastDecodeIsLast(result, n - 1, name);
    }
  }

  /** `all([x is not None for x in xs])` */
  predicate AllPresent<T>(xs: seq<Option<T>>) {
    forall k :: 0 <= k < |xs| ==> xs[k].Some?
  }

  function AllValues<T>(xs: seq<Option<T>>): (vs: seq<T>)
    requires AllPresent(xs)
    ensures |vs| == |xs| && forall k :: 0 <= k < |xs| ==> xs[k] == Some(vs[k])
  {
    if xs == [] then [] else [xs[0].value] + AllValues(xs[1..])
  }

  /**
   * `_search_result(result, target)`: for each target position the decode of
   * the last result with that name; Failure stands for the AssertionError on
   * an empty target or a position left None.
   */
  function Search<T>(result: seq<(string, Option<T>)>, target: Target): Result<Found<T>> {
    var ts := TargetNames(target);
    var ret := seq(|ts|, i requires 0 <= i < |ts| => LastDecode(result, |result|, ts[i]));
    if |ts| == 0 || !AllPresent(ret) then Failure
    else if |ts| == 1 then Success(Bare(ret[0].value))
    else Success(Tuple(AllValues(ret)))
  }

  /** `_search_result`: the nested loop filling the `ret` array. */
  method SearchResult<T>(result: seq<(string, Option<T>)>, target: Target) returns (r: Result<Found<T>>)
    ensures r == Search(result, target)
  {
    var ts := TargetNames(target);
    if |ts| == 0 {
      return Failure;
    }
    var ret := new Option<T>[|ts|](_ => None);
    var j := 0;
    while j < |result|
      invariant 0 <= j <= |result|
      invariant forall k :: 0 <= k < |ts| ==> ret[k] == LastDecode(result, j, ts[k])
    {
      var (name, decoded) := result[j];
      var i := 0;
      while i < |ts|
        invariant 0 <= i <= |ts|
        invariant forall k :: 0 <= k < i ==> ret[k] == LastDecode(result, j + 1, ts[k])
        invariant forall k :: i <= k < |ts| ==> ret[k] == LastDecode(result, j, ts[k])
      {
        if name == ts[i] {
          ret[i] := decoded;
        }
        i := i + 1;
      }
      j := j + 1;
    }
    ghost var spec := seq(|ts|, i requires 0 <= i < |ts| => LastDecode(result, |result|, ts[i]));
    assert ret[..] == spec;
    if !AllPresent(ret[..]) {
      return Failure;
    }
    if |ts| == 1 {
      r := Success(Bare(ret[0].value));
    } else {
      r := Success(Tuple(AllValues(ret[..])));
    }
  }

  /** A single name behaves as a one-element list: both return the bare value. */
  lemma SearchOneName<T>(result: seq<(string, Option<T>)>, name: string)
    ensures Search(result, OneName(name)) == Search(result, Names([name]))
    ensures Search(result, OneName(name)).Success? ==>
      Search(result, OneName(name)) == Success(Bare(LastDecode(result, |result|, name).value))
  {
  }

  /**
   * The search succeeds exactly when there is a target and every target's
   * last decode is present; each position then holds that decode.
   */
  lemma SearchFound<T>(result: seq<(string, Option<T>)>, target: Target)
    ensures var ts := TargetNames(target);
      Search(result, target).Success? <==>
        |ts| > 0 && forall i :: 0 <= i < |ts| ==> LastDecode(result, |result|, ts[i]).Some?
    ensures var ts := TargetNames(target);
      Search(result, target).Success? && |ts| > 1 ==>
        var vs := Search(result, target).value.values;
        |vs| == |ts| && forall i :: 0 <= i < |ts| ==> Some(vs[i]) == LastDecode(result, |result|, ts[i])
  {
    var ts := TargetNames(target);
    var ret := seq(|ts|, i requires 0 <= i < |ts| => LastDecode(result, |result|, ts[i]));
    if !AllPresent(ret) {
      var i :| 0 <= i < |ts| && ret[i].None?;
      assert LastDecode(result, |result|, ts[i]).None?;
    } else if |ts| > 1 {
      var vs := AllValues(ret);
      assert Search(result, target) == Success(Tuple(vs));
      forall i | 0 <= i < |ts|
        ensures Some(vs[i]) == LastDecode(result, |result|, ts[i])
      {
        assert ret[i] == LastDecode(result, |result|, ts[i]);
      }
    }
  }
}
