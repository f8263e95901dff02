/**
 * The LTE NAS analyzer: the EMM registration state with its GUTI, the ESM
 * bearers and their QoS, and the QoS profile the analyzer writes per network
 * and reads back when live data is missing.
 *
 * EMM and ESM state reports arrive as decoded dictionaries; EMM and ESM
 * over-the-air messages arrive as XML and are walked field by field.
 * Python exceptions raised by the callbacks (a missing key, a failed `int()`,
 * an unknown table entry) are modelled as `ok == false`, with the updates
 * made before the exception kept, as they are in the analyzer.
 */
module LteNasAnalyzer {
  import opened Wrappers
  import opened PyValues
  import opened Xml

  // ---------------------------------------------------------------------
  // Helpers from nas_util
  // ---------------------------------------------------------------------

  /**
   * The helpers the analyzer takes from nas_util: `xstr`, the `bearer_type`,
   * `mean_tput` and `residual_ber` tables, the `trans_delay`, `max_bitrate`
   * and `max_bitrate_ext` conversions (None where the lookup raises), and
   * the built-in `float()` on a profile leaf (None where it raises).
   */
  datatype NasUtil = NasUtil(
    xstr: PyVal -> string,
    bearerType: int -> Option<string>,
    meanTput: int -> Option<PyVal>,
    residualBer: int -> Option<PyVal>,
    transDelay: int -> Option<PyVal>,
    maxBitrate: int -> Option<PyVal>,
    maxBitrateExt: int -> Option<PyVal>,
    toFloat: PyVal -> Option<PyVal>)

  // ---------------------------------------------------------------------
  // EMM status and GUTI
  // ---------------------------------------------------------------------

  /** Truthiness of a text field that holds a string or None. */
  predicate TextTruthy(t: Option<string>) {
    t.Some? && t.value != ""
  }

  /** The `str` held by a field value, or None. */
  function TextOf(v: PyVal): Option<string> {
    if v.PyStr? then Some(v.s) else None
  }

  /**
   * The Globally Unique Temporary ID. Its country and network codes are only
   * ever written as strings (pieces of the reported PLMN, or `show`
   * attributes) or None; the other three hold whatever value was reported.
   */
  datatype Guti = Guti(mcc: Option<string>, mnc: Option<string>, mmeGroupId: PyVal, mmeCode: PyVal, mTmsi: PyVal)
  {
    /** `Guti.inited`: all five fields are set (truthy). */
    predicate Inited() {
      TextTruthy(mcc) && TextTruthy(mnc) && Truthy(mmeGroupId) && Truthy(mmeCode) && Truthy(mTmsi)
    }
  }

  const UnsetGuti := Guti(None, None, PyNone, PyNone, PyNone)

  /** The EMM status: registration state, substate and GUTI. */
  datatype EmmStatus = EmmStatus(state: PyVal, substate: PyVal, guti: Guti)
  {
    /** `EmmStatus.inited`: state, substate and the whole GUTI are set. */
    predicate Inited() {
      Truthy(state) && Truthy(substate) && guti.Inited()
    }

    /** `profile_id`: "mcc-mnc", the partition of the profile store, once the GUTI is complete. */
    function ProfileId(): Option<string> {
      if guti.Inited() then Some(guti.mcc.value + "-" + guti.mnc.value) else None
    }
  }

  const InitialEmm := EmmStatus(PyStr("null"), PyStr("null"), UnsetGuti)

  /**
   * A profile id exists exactly when the GUTI is complete (so whenever the
   * EMM status is inited), and splitting it at '-' gives back the country
   * and network codes when neither contains a '-'.
   */
  lemma ProfileIdParts(emm: EmmStatus)
    ensures emm.ProfileId().Some? <==> emm.guti.Inited()
    ensures emm.Inited() ==> emm.ProfileId().Some?
    ensures emm.ProfileId().Some? && '-' !in emm.guti.mcc.value && '-' !in emm.guti.mnc.value ==>
              Split(emm.ProfileId().value, '-') == [emm.guti.mcc.value, emm.guti.mnc.value]
  {
    if emm.ProfileId().Some? && '-' !in emm.guti.mcc.value && '-' !in emm.guti.mnc.value {
      var parts := [emm.guti.mcc.value, emm.guti.mnc.value];
      SplitJoin(parts, '-');
      assert Join(parts, '-') == emm.ProfileId().value;
    }
  }

  // ---------------------------------------------------------------------
  // ESM bearers and QoS
  // ---------------------------------------------------------------------

  /** The fields of an ESM QoS record, in the order of the profile hierarchy. */
  datatype QosField =
    | Qci | DelayClass | ReliabilityClass | PrecedenceClass | PeakTput | MeanTput
    | TrafficClass | DeliveryOrder | TransferDelay | TrafficHandlingPriority
    | MaxBitrateUlink | MaxBitrateDlink | GuaranteedBitrateUlink | GuaranteedBitrateDlink
    | MaxBitrateUlinkExt | MaxBitrateDlinkExt | GuaranteedBitrateUlinkExt | GuaranteedBitrateDlinkExt
    | ResidualBer

  /**
   * An ESM QoS record: the value of each field that has been assigned; a
   * field never assigned reads as None, the value every field starts with.
   */
  datatype EsmQos = EsmQos(fields: map<QosField, PyVal>)
  {
    /** `qos.<field>` */
    function Get(f: QosField): PyVal {
      if f in fields then fields[f] else PyNone
    }

    /** `qos.<field> = v` */
    function With(f: QosField, v: PyVal): (r: EsmQos)
      ensures r.Get(f) == v
      ensures forall g :: g != f ==> r.Get(g) == Get(g)
    {
      EsmQos(fields[f := v])
    }
  }

  /** A freshly constructed record: every field None. */
  const UnsetQos := EsmQos(map[])

  lemma UnsetQosAllNone(f: QosField)
    ensures UnsetQos.Get(f) == PyNone
  {
  }

  /** An ESM bearer: its id, its type (default 0), its QoS and the time of its last state report. */
  datatype EsmStatus = EsmStatus(epsId: PyVal, bearerType: int, qos: EsmQos, timestamp: PyVal)

  const NewBearer := EsmStatus(PyNone, 0, UnsetQos, PyNone)

  // ---------------------------------------------------------------------
  // Runs of assignments to QoS fields
  // ---------------------------------------------------------------------

  /** What one assignment statement does to its field: nothing, a new value, or an exception. */
  datatype Update = Keep | Put(v: PyVal) | Raise

  /** A QoS record part-way through a run of assignments, and whether no statement has raised yet. */
  datatype QosRun = QosRun(qos: EsmQos, ok: bool)

  /** The next assignment statement of a run; once a statement has raised, the rest are not executed. */
  function Then(r: QosRun, f: QosField, u: Update): QosRun {
    if !r.ok then r
    else match u
      case Keep => r
      case Raise => QosRun(r.qos, false)
      case Put(v) => QosRun(r.qos.With(f, v), true)
  }

  /** A run that completes had completed before its last statement, which did not raise. */
  lemma ThenOk(r: QosRun, f: QosField, u: Update)
    requires Then(r, f, u).ok
    ensures r.ok && !u.Raise?
  {
  }

  /** A statement that assigns a value leaves exactly that value in its field. */
  lemma ThenPut(r: QosRun, f: QosField, u: Update)
    requires Then(r, f, u).ok && !u.Keep?
    ensures u == Put(Then(r, f, u).qos.Get(f))
  {
  }

  /** A statement that assigns another field, or does nothing, leaves a field as it was. */
  lemma ThenKeeps(r: QosRun, f: QosField, u: Update, g: QosField)
    requires g != f || u.Keep?
    ensures Then(r, f, u).qos.Get(g) == r.qos.Get(g)
  {
  }

  /**
   * After one more statement a field holds what `w` assigns: the statement's
   * own value when it assigns that field, or the value the field held before.
   */
  lemma ThenValue(r: QosRun, f: QosField, u: Update, g: QosField, w: Update)
    requires Then(r, f, u).ok
    requires (g == f && !u.Keep? && w == u) || (g != f && w == Put(r.qos.Get(g)))
    ensures w == Put(Then(r, f, u).qos.Get(g))
  {
    if g == f {
      ThenPut(r, f, u);
    } else {
      ThenKeeps(r, f, u, g);
    }
  }

  // ---------------------------------------------------------------------
  // QoS carried by OTA messages
  // ---------------------------------------------------------------------

  /** The name of the message field that carries each QoS field. */
  function OtaKey(f: QosField): string {
    match f
    case Qci => "nas_eps.emm.qci"
    case DelayClass => "gsm_a.gm.sm.qos.delay_cls"
    case ReliabilityClass => "gsm_a.gm.sm.qos.reliability_cls"
    case PrecedenceClass => "gsm_a.gm.sm.qos.prec_class"
    case PeakTput => "gsm_a.gm.sm.qos.peak_throughput"
    case MeanTput => "gsm_a.gm.sm.qos.mean_throughput"
    case TrafficClass => "gsm_a.gm.sm.qos.traffic_cls"
    case DeliveryOrder => "gsm_a.gm.sm.qos.del_order"
    case TransferDelay => "gsm_a.gm.sm.qos.trans_delay"
    case TrafficHandlingPriority => "gsm_a.gm.sm.qos.traff_hdl_pri"
    case MaxBitrateUlink => "gsm_a.gm.sm.qos.max_bitrate_upl"
    case MaxBitrateDlink => "gsm_a.gm.sm.qos.max_bitrate_downl"
    case GuaranteedBitrateUlink => "gsm_a.gm.sm.qos.guar_bitrate_upl"
    case GuaranteedBitrateDlink => "gsm_a.gm.sm.qos.guar_bitrate_downl"
    case MaxBitrateUlinkExt => "gsm_a.gm.sm.qos.max_bitrate_upl_ext"
    case MaxBitrateDlinkExt => "gsm_a.gm.sm.qos.max_bitrate_downl_ext"
    case GuaranteedBitrateUlinkExt => "gsm_a.gm.sm.qos.guar_bitrate_upl_ext"
    case GuaranteedBitrateDlinkExt => "gsm_a.gm.sm.qos.guar_bitrate_downl_ext"
    case ResidualBer => "gsm_a.gm.sm.qos.ber"
  }

  function Pow2(n: nat): (p: nat)
    ensures p >= 1
  {
    if n == 0 then 1 else 2 * Pow2(n - 1)
  }

  /**
   * `1000*pow(2, code-1)` (section 10.5.6.5 of 3GPP TS 24.008): an int from
   * code 1 on; below that Python 2's `pow` with a negative exponent gives a
   * float.
   */
  function PeakThroughput(code: int): PyVal {
    if code >= 1 then PyInt(1000 * Pow2(code - 1)) else PyFloat(1000.0 / (Pow2(1 - code) as real))
  }

  /** Peak throughput is 1000 for code 1, doubles with each code above, and is 500.0 for code 0. */
  lemma PeakThroughputDoubles(code: int)
    requires code >= 1
    ensures PeakThroughput(1) == PyInt(1000)
    ensures PeakThroughput(code + 1) == PyInt(2 * PeakThroughput(code).i)
    ensures PeakThroughput(0) == PyFloat(500.0)
  {
  }

  /** The value stored for a QoS field read from an OTA element as the integer `code`; None where it raises. */
  function Decode(util: NasUtil, f: QosField, code: int): Option<PyVal> {
    match f
    case PeakTput => Some(PeakThroughput(code))
    case MeanTput => util.meanTput(code)
    case ResidualBer => util.residualBer(code)
    case TransferDelay => util.transDelay(code)
    case MaxBitrateUlink => util.maxBitrate(code)
    case MaxBitrateDlink => util.maxBitrate(code)
    case GuaranteedBitrateUlink => util.maxBitrate(code)
    case GuaranteedBitrateDlink => util.maxBitrate(code)
    case MaxBitrateUlinkExt => util.maxBitrateExt(code)
    case MaxBitrateDlinkExt => util.maxBitrateExt(code)
    case GuaranteedBitrateUlinkExt => util.maxBitrateExt(code)
    case GuaranteedBitrateDlinkExt => util.maxBitrateExt(code)
    case _ => Some(PyInt(code))
  }

  /** `if field_val.has_key(key): qos.f = conv(int(field_val[key]))` for one field. */
  function OtaUpdate(util: NasUtil, fv: FieldVals, f: QosField): Update {
    var key := Some(OtaKey(f));
    if key !in fv then Keep
    else match ToInt(fv[key])
      case None => Raise
      case Some(code) =>
        match Decode(util, f, code)
        case None => Raise
        case Some(v) => Put(v)
  }

  /** A statement does nothing exactly when its key is absent. */
  lemma OtaUpdateKeep(util: NasUtil, fv: FieldVals, f: QosField)
    ensures OtaUpdate(util, fv, f).Keep? <==> Some(OtaKey(f)) !in fv
  {
  }

  /** The eighteen `has_key` statements of a QoS element, by position: the field each one assigns. */
  function OtaField(k: nat): QosField
    requires k < 18
  {
    match k
    case 0 => DelayClass
    case 1 => ReliabilityClass
    case 2 => PrecedenceClass
    case 3 => PeakTput
    case 4 => MeanTput
    case 5 => TrafficClass
    case 6 => DeliveryOrder
    case 7 => TrafficHandlingPriority
    case 8 => ResidualBer
    case 9 => TransferDelay
    case 10 => MaxBitrateUlink
    case 11 => MaxBitrateDlink
    case 12 => GuaranteedBitrateUlink
    case 13 => GuaranteedBitrateDlink
    case 14 => MaxBitrateUlinkExt
    case 15 => MaxBitrateDlinkExt
    case 16 => GuaranteedBitrateUlinkExt
    case _ => GuaranteedBitrateDlinkExt
  }

  /** The position of the statement that assigns a field: every field but the QCI has exactly one. */
  function OtaPosition(f: QosField): (k: nat)
    requires f != Qci
    ensures k < 18 && OtaField(k) == f
  {
    match f
    case DelayClass => 0
    case ReliabilityClass => 1
    case PrecedenceClass => 2
    case PeakTput => 3
    case MeanTput => 4
    case TrafficClass => 5
    case DeliveryOrder => 6
    case TrafficHandlingPriority => 7
    case ResidualBer => 8
    case TransferDelay => 9
    case MaxBitrateUlink => 10
    case MaxBitrateDlink => 11
    case GuaranteedBitrateUlink => 12
    case GuaranteedBitrateDlink => 13
    case MaxBitrateUlinkExt => 14
    case MaxBitrateDlinkExt => 15
    case GuaranteedBitrateUlinkExt => 16
    case GuaranteedBitrateDlinkExt => 17
  }

  /** No two statements assign the same field, and none assigns the QCI. */
  lemma OtaFieldsDistinct(k: nat)
    requires k < 18
    ensures OtaField(k) != Qci && OtaPosition(OtaField(k)) == k
  {
  }

  /** Two different statements assign two different fields. */
  lemma OtaFieldsApart(i: nat, j: nat)
    requires i < j < 18
    ensures OtaField(i) != OtaField(j)
  {
    OtaFieldsDistinct(i);
    OtaFieldsDistinct(j);
  }

  /** The QoS record after the first `n` statements of a QoS element. */
  function MergeFirst(util: NasUtil, q: EsmQos, fv: FieldVals, n: nat): QosRun
    requires n <= 18
  {
    if n == 0 then QosRun(q, true)
    else Then(MergeFirst(util, q, fv, n - 1), OtaField(n - 1), OtaUpdate(util, fv, OtaField(n - 1)))
  }

  /** All eighteen statements of a QoS element, applied to the bearer's QoS. */
  function MergeQos(util: NasUtil, q: EsmQos, fv: FieldVals): QosRun {
    MergeFirst(util, q, fv, 18)
  }

  /** The first `n` statements run to completion exactly when none of them raises. */
  lemma {:induction false} MergeFirstOk(util: NasUtil, q: EsmQos, fv: FieldVals, n: nat)
    requires n <= 18
    ensures MergeFirst(util, q, fv, n).ok <==> forall k :: 0 <= k < n ==> !OtaUpdate(util, fv, OtaField(k)).Raise?
  {
    if n > 0 {
      MergeFirstOk(util, q, fv, n - 1);
    }
  }

  /** A field no statement among the first `n` assigns, or whose key is absent, keeps its value. */
  lemma {:induction false} MergeFirstKeeps(util: NasUtil, q: EsmQos, fv: FieldVals, n: nat, f: QosField)
    requires n <= 18
    requires f == Qci || OtaPosition(f) >= n || Some(OtaKey(f)) !in fv
    ensures MergeFirst(util, q, fv, n).qos.Get(f) == q.Get(f)
  {
    if n > 0 {
      MergeFirstKeeps(util, q, fv, n - 1, f);
      ThenKeeps(MergeFirst(util, q, fv, n - 1), OtaField(n - 1), OtaUpdate(util, fv, OtaField(n - 1)), f);
    }
  }

  /** Once the first `n` statements have run, the field statement `i` assigned holds its converted value. */
  lemma {:induction false} MergeFirstValue(util: NasUtil, q: EsmQos, fv: FieldVals, n: nat, i: nat)
    requires i < n <= 18
    requires Some(OtaKey(OtaField(i))) in fv
    requires MergeFirst(util, q, fv, n).ok
    ensures OtaUpdate(util, fv, OtaField(i)) == Put(MergeFirst(util, q, fv, n).qos.Get(OtaField(i)))
  {
    var prev := MergeFirst(util, q, fv, n - 1);
    var f, g := OtaField(n - 1), OtaField(i);
    var u := OtaUpdate(util, fv, f);
    ThenOk(prev, f, u);
    if i < n - 1 {
      MergeFirstValue(util, q, fv, n - 1, i);
      OtaFieldsApart(i, n - 1);
      ThenValue(prev, f, u, g, OtaUpdate(util, fv, g));
    } else {
      OtaUpdateKeep(util, fv, g);
      ThenValue(prev, f, u, g, u);
    }
  }

  /**
   * A QoS element only touches the fields it carries: the QCI and every
   * field whose key is absent keep their values, even when a conversion
   * raises.
   */
  lemma MergeQosOnlyPresent(util: NasUtil, q: EsmQos, fv: FieldVals, f: QosField)
    requires f == Qci || Some(OtaKey(f)) !in fv
    ensures MergeQos(util, q, fv).qos.Get(f) == q.Get(f)
  {
    MergeFirstKeeps(util, q, fv, 18, f);
  }

  /** The merge runs to completion exactly when no carried field fails to convert. */
  lemma MergeQosOk(util: NasUtil, q: EsmQos, fv: FieldVals)
    ensures MergeQos(util, q, fv).ok <==> forall g :: g != Qci ==> !OtaUpdate(util, fv, g).Raise?
  {
    MergeFirstOk(util, q, fv, 18);
    if MergeQos(util, q, fv).ok {
      forall g | g != Qci
        ensures !OtaUpdate(util, fv, g).Raise?
      {
        assert OtaField(OtaPosition(g)) == g;
      }
    } else {
      var k :| 0 <= k < 18 && OtaUpdate(util, fv, OtaField(k)).Raise?;
      OtaFieldsDistinct(k);
    }
  }

  /**
   * After a merge that runs to completion, each carried field present in the
   * element holds its value as decoded from the integer its `show` text
   * reads as.
   */
  lemma MergeQosValue(util: NasUtil, q: EsmQos, fv: FieldVals, f: QosField)
    requires MergeQos(util, q, fv).ok && f != Qci && Some(OtaKey(f)) in fv
    ensures ToInt(fv[Some(OtaKey(f))]).Some?
    ensures Some(MergeQos(util, q, fv).qos.Get(f)) == Decode(util, f, ToInt(fv[Some(OtaKey(f))]).value)
  {
    MergeFirstValue(util, q, fv, 18, OtaPosition(f));
  }

  // ---------------------------------------------------------------------
  // QoS carried by ESM state reports
  // ---------------------------------------------------------------------

  /** `qos.f = msg.data[key]`: a KeyError when the report lacks the key. */
  function Reported(data: map<string, PyVal>, key: string): Update {
    if key in data then Put(data[key]) else Raise
  }

  /** The nine QoS assignments of an ESM state report, by position: the field each one sets. */
  function ReportedField(k: nat): QosField
    requires k < 9
  {
    match k
    case 0 => Qci
    case 1 => MaxBitrateUlink
    case 2 => MaxBitrateDlink
    case 3 => GuaranteedBitrateUlink
    case 4 => GuaranteedBitrateDlink
    case 5 => MaxBitrateUlinkExt
    case 6 => MaxBitrateDlinkExt
    case 7 => GuaranteedBitrateUlinkExt
    case _ => GuaranteedBitrateDlinkExt
  }

  /**
   * The report key each assignment reads. Both guaranteed downlink rates are
   * read from the maximum-rate keys "DL MBR" and "DL MBR ext".
   */
  function ReportedKey(k: nat): string
    requires k < 9
  {
    match k
    case 0 => "QCI"
    case 1 => "UL MBR"
    case 2 => "DL MBR"
    case 3 => "UL GBR"
    case 4 => "DL MBR"
    case 5 => "UL MBR ext"
    case 6 => "DL MBR ext"
    case 7 => "UL GBR ext"
    case _ => "DL MBR ext"
  }

  /** The fields an ESM state report sets. */
  const ReportedFields: set<QosField> :=
    {Qci, MaxBitrateUlink, MaxBitrateDlink, GuaranteedBitrateUlink, GuaranteedBitrateDlink,
     MaxBitrateUlinkExt, MaxBitrateDlinkExt, GuaranteedBitrateUlinkExt, GuaranteedBitrateDlinkExt}

  predicate Reports(f: QosField) {
    f in ReportedFields
  }

  /** The position of the assignment that sets a reported field. */
  function ReportedPosition(f: QosField): (k: nat)
    requires Reports(f)
    ensures k < 9 && ReportedField(k) == f
  {
    match f
    case Qci => 0
    case MaxBitrateUlink => 1
    case MaxBitrateDlink => 2
    case GuaranteedBitrateUlink => 3
    case GuaranteedBitrateDlink => 4
    case MaxBitrateUlinkExt => 5
    case MaxBitrateDlinkExt => 6
    case GuaranteedBitrateUlinkExt => 7
    case GuaranteedBitrateDlinkExt => 8
  }

  /** No two assignments set the same field, and each sets a reported one. */
  lemma ReportedFieldsDistinct(k: nat)
    requires k < 9
    ensures Reports(ReportedField(k)) && ReportedPosition(ReportedField(k)) == k
  {
  }

  /** The QoS record after the first `n` assignments of a state report. */
  function CopyFirst(q: EsmQos, data: map<string, PyVal>, n: nat): QosRun
    requires n <= 9
  {
    if n == 0 then QosRun(q, true)
    else Then(CopyFirst(q, data, n - 1), ReportedField(n - 1), Reported(data, ReportedKey(n - 1)))
  }

  /** The nine QoS assignments of an ESM state report, applied to the bearer's QoS. */
  function CopyReported(q: EsmQos, data: map<string, PyVal>): QosRun {
    CopyFirst(q, data, 9)
  }

  lemma {:induction false} CopyFirstOk(q: EsmQos, data: map<string, PyVal>, n: nat)
    requires n <= 9
    ensures CopyFirst(q, data, n).ok <==> forall k :: 0 <= k < n ==> ReportedKey(k) in data
  {
    if n > 0 {
      CopyFirstOk(q, data, n - 1);
    }
  }

  lemma {:induction false} CopyFirstKeeps(q: EsmQos, data: map<string, PyVal>, n: nat, f: QosField)
    requires n <= 9
    requires !Reports(f) || ReportedPosition(f) >= n
    ensures CopyFirst(q, data, n).qos.Get(f) == q.Get(f)
  {
    if n > 0 {
      CopyFirstKeeps(q, data, n - 1, f);
      ThenKeeps(CopyFirst(q, data, n - 1), ReportedField(n - 1), Reported(data, ReportedKey(n - 1)), f);
    }
  }

  lemma {:induction false} CopyFirstValue(q: EsmQos, data: map<string, PyVal>, n: nat, i: nat)
    requires i < n <= 9
    requires CopyFirst(q, data, n).ok
    ensures ReportedKey(i) in data
    ensures CopyFirst(q, data, n).qos.Get(ReportedField(i)) == data[ReportedKey(i)]
  {
    var prev := CopyFirst(q, data, n - 1);
    assert prev.ok;
    if i < n - 1 {
      CopyFirstValue(q, data, n - 1, i);
      ReportedFieldsDistinct(i);
      ReportedFieldsDistinct(n - 1);
      ThenKeeps(prev, ReportedField(n - 1), Reported(data, ReportedKey(n - 1)), ReportedField(i));
    }
  }

  /**
   * The copy runs to completion exactly when the report has every key it
   * reads; it then overwrites the nine reported fields with the report's
   * values, so the guaranteed downlink rates equal the maximum downlink
   * rates, and it never touches the ten fields only OTA messages carry.
   */
  lemma CopyReportedSpec(q: EsmQos, data: map<string, PyVal>)
    ensures CopyReported(q, data).ok <==> forall k :: 0 <= k < 9 ==> ReportedKey(k) in data
    ensures forall f :: !Reports(f) ==> CopyReported(q, data).qos.Get(f) == q.Get(f)
    ensures CopyReported(q, data).ok ==>
              forall k :: 0 <= k < 9 ==> CopyReported(q, data).qos.Get(ReportedField(k)) == data[ReportedKey(k)]
    ensures CopyReported(q, data).ok ==>
              && CopyReported(q, data).qos.Get(GuaranteedBitrateDlink) == CopyReported(q, data).qos.Get(MaxBitrateDlink)
              && CopyReported(q, data).qos.Get(GuaranteedBitrateDlinkExt) == CopyReported(q, data).qos.Get(MaxBitrateDlinkExt)
  {
    CopyFirstOk(q, data, 9);
    forall f | !Reports(f)
      ensures CopyReported(q, data).qos.Get(f) == q.Get(f)
    {
      CopyFirstKeeps(q, data, 9, f);
    }
    if CopyReported(q, data).ok {
      forall k | 0 <= k < 9
        ensures CopyReported(q, data).qos.Get(ReportedField(k)) == data[ReportedKey(k)]
      {
        CopyFirstValue(q, data, 9, k);
      }
      assert ReportedField(4) == GuaranteedBitrateDlink && ReportedField(2) == MaxBitrateDlink;
      assert ReportedField(8) == GuaranteedBitrateDlinkExt && ReportedField(6) == MaxBitrateDlinkExt;
    }
  }

  // ---------------------------------------------------------------------
  // The QoS profile
  // ---------------------------------------------------------------------

  /** Every leaf the QoS partition of the NAS profile hierarchy declares. */
  const AllQosFields: set<QosField> :=
    {Qci, DelayClass, ReliabilityClass, PrecedenceClass, PeakTput, MeanTput, TrafficClass, DeliveryOrder,
     TransferDelay, TrafficHandlingPriority, MaxBitrateUlink, MaxBitrateDlink, GuaranteedBitrateUlink,
     GuaranteedBitrateDlink, MaxBitrateUlinkExt, MaxBitrateDlinkExt, GuaranteedBitrateUlinkExt,
     GuaranteedBitrateDlinkExt, ResidualBer}

  /**
   * The profile store, as far as the analyzer uses it: for each partition
   * path that has been written, the leaves written to it.
   */
  type Profile = map<string, map<QosField, PyVal>>

  /** The path of the QoS partition of a network profile for one bearer type. */
  function QosPartition(id: string, bearer: string): string {
    "LteNasProfile:" + id + ".eps.qos:" + bearer
  }

  /** `profile.update(path, leaves)`: creates the partition if absent; last write wins per leaf. */
  function ProfileUpdate(p: Profile, path: string, leaves: map<QosField, PyVal>): Profile {
    p[path := (if path in p then p[path] else map[]) + leaves]
  }

  /**
   * An update creates the partition if absent, gives each written leaf its
   * new value, keeps every other leaf of the partition, and leaves every
   * other partition as it was.
   */
  lemma ProfileUpdateSpec(p: Profile, path: string, leaves: map<QosField, PyVal>)
    ensures var r := ProfileUpdate(p, path, leaves);
            && path in r && r.Keys == p.Keys + {path}
            && (forall f :: f in leaves ==> f in r[path] && r[path][f] == leaves[f])
            && (forall f :: f !in leaves ==> (f in r[path] <==> path in p && f in p[path]))
            && (forall f :: f !in leaves && path in p && f in p[path] ==> r[path][f] == p[path][f])
            && (forall other :: other in p && other != path ==> r[other] == p[other])
  {
  }

  /** A leaf of a queried partition: its written value, or the "unknown" sentinel. */
  function QueriedLeaf(leaves: map<QosField, PyVal>, f: QosField): PyVal {
    if f in leaves then leaves[f] else PyStr("unknown")
  }

  /**
   * `f_qos_int`/`f_qos_float` in `get_profiled_qos`: an empty, None or
   * "unknown" leaf reads as None, `mean_tput` is passed through as stored,
   * `residual_ber` is converted by `float()` and every other leaf by
   * `int()`. None where the conversion raises.
   */
  function ProfiledLeaf(util: NasUtil, f: QosField, x: PyVal): Option<PyVal> {
    if f == MeanTput then Some(x)
    else if !Truthy(x) || x == PyStr("unknown") then Some(PyNone)
    else if f == ResidualBer then util.toFloat(x)
    else match ToInt(x)
      case Some(i) => Some(PyInt(i))
      case None => None
  }

  /** The leaves of a partition converted back into a QoS record, or None if some conversion raises. */
  function ProfiledRecord(util: NasUtil, leaves: map<QosField, PyVal>): Option<EsmQos> {
    var conv := map f | f in AllQosFields :: ProfiledLeaf(util, f, QueriedLeaf(leaves, f));
    if forall f | f in conv :: conv[f].Some? then Some(EsmQos(map f | f in conv :: conv[f].value)) else None
  }

  /** The record is built exactly when every leaf converts, and then holds each converted leaf. */
  lemma ProfiledRecordSpec(util: NasUtil, leaves: map<QosField, PyVal>, f: QosField)
    ensures ProfiledRecord(util, leaves).None? ==> exists g :: ProfiledLeaf(util, g, QueriedLeaf(leaves, g)).None?
    ensures ProfiledRecord(util, leaves).Some? ==> Some(ProfiledRecord(util, leaves).value.Get(f)) == ProfiledLeaf(util, f, QueriedLeaf(leaves, f))
  {
    assert f in AllQosFields;
    if ProfiledRecord(util, leaves).None? {
      var conv := map f | f in AllQosFields :: ProfiledLeaf(util, f, QueriedLeaf(leaves, f));
      var g :| g in conv && conv[g].None?;
    }
  }

  /**
   * `get_profiled_qos(plmn)`: no record for a falsy plmn or a partition
   * never written; otherwise the default bearer's leaves converted back,
   * failing when a conversion raises.
   */
  function ProfiledQos(util: NasUtil, p: Profile, plmn: PyVal): (r: Result<Option<EsmQos>>)
    ensures !Truthy(plmn) ==> r == Success(None)
    ensures Truthy(plmn) && QosPartition(util.xstr(plmn), "default") !in p ==> r == Success(None)
    ensures Truthy(plmn) && QosPartition(util.xstr(plmn), "default") in p ==>
              match ProfiledRecord(util, p[QosPartition(util.xstr(plmn), "default")])
              case Some(q) => r == Success(Some(q))
              case None => r.Failure?
  {
    if !Truthy(plmn) then Success(None)
    else
      var path := QosPartition(util.xstr(plmn), "default");
      if path !in p then Success(None)
      else match ProfiledRecord(util, p[path])
        case Some(q) => Success(Some(q))
        case None => Failure
  }

  /** `xstr` as nas_util defines it on the values a QoS element stores: "" for None, the decimal digits of an int. */
  predicate XstrRendersInts(util: NasUtil, v: PyVal) {
    (v.PyNone? ==> util.xstr(v) == "") && (v.PyInt? ==> util.xstr(v) == ShowInt(v.i))
  }

  /**
   * Reading a leaf back undoes writing it: an integer field stored with
   * `xstr` reads back as the same int, and None (stored as "") as None.
   */
  lemma ProfiledLeafRoundTrip(util: NasUtil, f: QosField, v: PyVal)
    requires f != MeanTput && f != ResidualBer
    requires v.PyInt? || v.PyNone?
    requires XstrRendersInts(util, v)
    ensures ProfiledLeaf(util, f, PyStr(util.xstr(v))) == Some(v)
  {
    if v.PyInt? {
      var s := ShowInt(v.i);
      ParseShowInt(v.i);
      ShowIntNotUnknown(v.i);
      assert Truthy(PyStr(s));
    }
  }

  /**
   * Profile fallback: once a QoS element has written a bearer's QoS to the
   * default partition of a network, reading that network's profiled QoS
   * finds the partition, and every integer or None field the element wrote
   * (all but the QCI, `mean_tput` and `residual_ber`) reads back unchanged.
   */
  lemma ProfileFallback(util: NasUtil, p: Profile, plmn: PyVal, q: EsmQos, f: QosField)
    requires Truthy(plmn)
    requires f != Qci && f != MeanTput && f != ResidualBer
    requires (q.Get(f).PyInt? || q.Get(f).PyNone?) && XstrRendersInts(util, q.Get(f))
    ensures var r := ProfiledQos(util, ProfileUpdate(p, QosPartition(util.xstr(plmn), "default"), OtaLeaves(util, q)), plmn);
            && r != Success(None)
            && (r.Success? ==> r.value.value.Get(f) == q.Get(f))
  {
    var path := QosPartition(util.xstr(plmn), "default");
    OtaLeafWritten(util, p, path, q, f);
    ProfiledLeafRoundTrip(util, f, q.Get(f));
    ProfiledRecordSpec(util, ProfileUpdate(p, path, OtaLeaves(util, q))[path], f);
  }

  /** A leaf written by a QoS element is read back as its `xstr` string. */
  lemma OtaLeafWritten(util: NasUtil, p: Profile, path: string, q: EsmQos, f: QosField)
    requires f != Qci
    ensures path in ProfileUpdate(p, path, OtaLeaves(util, q))
    ensures QueriedLeaf(ProfileUpdate(p, path, OtaLeaves(util, q))[path], f) == PyStr(util.xstr(q.Get(f)))
  {
    OtaLeavesFirstValue(util, q, 18, OtaPosition(f));
  }

  lemma ShowIntNotUnknown(i: int)
    ensures ShowInt(i) != "unknown"
  {
    var s := ShowInt(i);
    assert s[0] == '-' || IsDigit(s[0]) by {
      if i >= 0 {
        assert s == ShowNat(i);
      }
    }
  }

  /** `xstr(profile_id())`: the profile id as a Python value, None when the GUTI is incomplete. */
  function ProfileIdVal(emm: EmmStatus): PyVal {
    match emm.ProfileId()
    case Some(id) => PyStr(id)
    case None => PyNone
  }

  /** The leaves an ESM state report writes: the nine reported fields, as reported. */
  function StateLeaves(q: EsmQos): map<QosField, PyVal> {
    map f | f in ReportedFields :: q.Get(f)
  }

  /** The leaves written by the first `n` assignments of the profile update after a QoS element. */
  function OtaLeavesFirst(util: NasUtil, q: EsmQos, n: nat): map<QosField, PyVal>
    requires n <= 18
  {
    if n == 0 then map[]
    else OtaLeavesFirst(util, q, n - 1)[OtaField(n - 1) := PyStr(util.xstr(q.Get(OtaField(n - 1))))]
  }

  /** The leaves a QoS element writes: every field but the QCI, rendered with `xstr`. */
  function OtaLeaves(util: NasUtil, q: EsmQos): map<QosField, PyVal> {
    OtaLeavesFirst(util, q, 18)
  }

  /** Each of the first `n` assignments leaves its field's `xstr` string in place. */
  lemma {:induction false} OtaLeavesFirstValue(util: NasUtil, q: EsmQos, n: nat, i: nat)
    requires i < n <= 18
    ensures OtaField(i) in OtaLeavesFirst(util, q, n)
    ensures OtaLeavesFirst(util, q, n)[OtaField(i)] == PyStr(util.xstr(q.Get(OtaField(i))))
  {
    if i < n - 1 {
      OtaLeavesFirstValue(util, q, n - 1, i);
      OtaFieldsDistinct(i);
      OtaFieldsDistinct(n - 1);
    }
  }

  /** The QCI is the one field a QoS element does not write to the profile. */
  lemma {:induction false} OtaLeavesFirstKeys(util: NasUtil, q: EsmQos, n: nat)
    requires n <= 18
    ensures Qci !in OtaLeavesFirst(util, q, n)
  {
    if n > 0 {
      OtaLeavesFirstKeys(util, q, n - 1);
      OtaFieldsDistinct(n - 1);
    }
  }

  // ---------------------------------------------------------------------
  // The analyzer's state
  // ---------------------------------------------------------------------

  /** The EMM status, the bearers by id, the current bearer id, and the profile store. */
  datatype NasState = NasState(emm: EmmStatus, esm: map<PyVal, EsmStatus>, cur: PyVal, profile: Profile)

  /** The state after a callback, and whether the callback returned without raising. */
  datatype NasRun = NasRun(st: NasState, ok: bool)

  /**
   * The invariant the callbacks keep: a current bearer id, once there is
   * one, always names an entry of the bearer map.
   */
  predicate CurValid(st: NasState) {
    st.cur == PyNone || st.cur in st.esm
  }

  /** The analyzer's state right after construction. */
  function InitialState(profile: Profile): (st: NasState)
    ensures CurValid(st) && st.esm == map[] && !st.emm.Inited()
  {
    NasState(InitialEmm, map[], PyNone, profile)
  }

  // ---------------------------------------------------------------------
  // EMM state reports
  // ---------------------------------------------------------------------

  /** The EMM status after a callback, and whether it returned without raising. */
  datatype EmmRun = EmmRun(emm: EmmStatus, ok: bool)

  /**
   * `__callback_emm_state`: overwrite state and substate, split the PLMN at
   * '-' into country and network code, then copy the three other GUTI
   * fields; each missing key, a PLMN that is not a string, or a PLMN without
   * a '-' raises after the assignments before it.
   */
  function EmmStateReport(emm: EmmStatus, data: map<string, PyVal>): EmmRun {
    if "EMM State" !in data then EmmRun(emm, false)
    else
      var e1 := emm.(state := data["EMM State"]);
      if "EMM Substate" !in data then EmmRun(e1, false)
      else
        var e2 := e1.(substate := data["EMM Substate"]);
        if "PLMN" !in data || !data["PLMN"].PyStr? then EmmRun(e2, false)
        else
          var parts := Split(data["PLMN"].s, '-');
          var e3 := e2.(guti := e2.guti.(mcc := Some(parts[0])));
          if |parts| < 2 then EmmRun(e3, false)
          else
            var e4 := e3.(guti := e3.guti.(mnc := Some(parts[1])));
            if "GUTI MME Group ID" !in data then EmmRun(e4, false)
            else
              var e5 := e4.(guti := e4.guti.(mmeGroupId := data["GUTI MME Group ID"]));
              if "GUTI MME Code" !in data then EmmRun(e5, false)
              else
                var e6 := e5.(guti := e5.guti.(mmeCode := data["GUTI MME Code"]));
                if "GUTI M-TMSI" !in data then EmmRun(e6, false)
                else EmmRun(e6.(guti := e6.guti.(mTmsi := data["GUTI M-TMSI"])), true)
  }

  /**
   * An EMM state report is processed exactly when it carries every key and
   * its PLMN is a string holding a '-'; it then replaces the whole EMM
   * status: state, substate, and a GUTI whose codes are the first two
   * pieces of the PLMN.
   */
  lemma EmmStateReportSpec(emm: EmmStatus, data: map<string, PyVal>)
    ensures EmmStateReport(emm, data).ok <==>
              && "EMM State" in data && "EMM Substate" in data && "PLMN" in data && data["PLMN"].PyStr?
              && '-' in data["PLMN"].s
              && "GUTI MME Group ID" in data && "GUTI MME Code" in data && "GUTI M-TMSI" in data
    ensures EmmStateReport(emm, data).ok ==>
              var parts := Split(data["PLMN"].s, '-');
              EmmStateReport(emm, data).emm ==
                EmmStatus(data["EMM State"], data["EMM Substate"],
                          Guti(Some(parts[0]), Some(parts[1]), data["GUTI MME Group ID"],
                               data["GUTI MME Code"], data["GUTI M-TMSI"]))
  {
    if "PLMN" in data && data["PLMN"].PyStr? {
      SplitCount(data["PLMN"].s, '-');
    }
  }

  /**
   * Reporting PLMN "mcc-mnc" with a complete GUTI makes the profile id that
   * same "mcc-mnc": the profile partition is named after the reported
   * network.
   */
  lemma EmmStatePlmnProfile(emm: EmmStatus, data: map<string, PyVal>, mcc: string, mnc: string)
    requires "EMM State" in data && "EMM Substate" in data
    requires "GUTI MME Group ID" in data && "GUTI MME Code" in data && "GUTI M-TMSI" in data
    requires "PLMN" in data && data["PLMN"] == PyStr(mcc + "-" + mnc) && '-' !in mcc && '-' !in mnc
    requires mcc != "" && mnc != ""
    requires Truthy(data["GUTI MME Group ID"]) && Truthy(data["GUTI MME Code"]) && Truthy(data["GUTI M-TMSI"])
    ensures EmmStateReport(emm, data).ok
    ensures EmmStateReport(emm, data).emm.ProfileId() == Some(mcc + "-" + mnc)
  {
    SplitJoin([mcc, mnc], '-');
    assert Join([mcc, mnc], '-') == mcc + "-" + mnc;
    assert (mcc + "-" + mnc)[|mcc|] == '-';
    EmmStateReportSpec(emm, data);
  }

  // ---------------------------------------------------------------------
  // ESM state reports
  // ---------------------------------------------------------------------

  /** `esm_state[int(data["EPS bearer state"]) - 1]`: the connection state, None where the lookup raises. */
  function EsmConnState(data: map<string, PyVal>): Option<string> {
    if "EPS bearer state" !in data then None
    else match ToInt(data["EPS bearer state"])
      case None => None
      case Some(k) =>
        if k - 1 == 0 then Some("disconnected")
        else if k - 1 == 1 then Some("connected")
        else None
  }

  /** A bearer record after a run of assignments, and whether no statement raised. */
  datatype BearerRun = BearerRun(bearer: EsmStatus, ok: bool)

  /**
   * The assignments of an ESM state report to the reported bearer's record,
   * in order: id, type, the nine QoS fields, timestamp; each stops the run
   * where it raises.
   */
  function ReportBearer(b: EsmStatus, data: map<string, PyVal>): BearerRun
    requires "EPS bearer ID" in data
  {
    match ToInt(data["EPS bearer ID"])
    case None => BearerRun(b, false)
    case Some(id) =>
      var b1 := b.(epsId := PyInt(id));
      var ty := if "EPS bearer type" in data then ToInt(data["EPS bearer type"]) else None;
      if ty.None? then BearerRun(b1, false)
      else
        var copy := CopyReported(b1.qos, data);
        var b2 := b1.(bearerType := ty.value, qos := copy.qos);
        if !copy.ok || "timestamp" !in data then BearerRun(b2, false)
        else BearerRun(b2.(timestamp := data["timestamp"]), true)
  }

  /**
   * `__callback_esm_state`: make the reported bearer current (creating its
   * entry), run the assignments to its record, write its QoS to the profile
   * partition of the network and bearer type, then look up the connection
   * state. The profile id is concatenated without `xstr`, so a report
   * before the GUTI is complete raises there.
   */
  function EsmStateReport(util: NasUtil, st: NasState, data: map<string, PyVal>): NasRun {
    if "EPS bearer ID" !in data then NasRun(st, false)
    else
      var cur := data["EPS bearer ID"];
      var run := ReportBearer(if cur in st.esm then st.esm[cur] else NewBearer, data);
      var s1 := st.(cur := cur, esm := st.esm[cur := run.bearer]);
      if !run.ok then NasRun(s1, false)
      else
        var pid := st.emm.ProfileId();
        var bt := util.bearerType(run.bearer.bearerType);
        if pid.None? || bt.None? then NasRun(s1, false)
        else NasRun(s1.(profile := ProfileUpdate(s1.profile, QosPartition(pid.value, bt.value), StateLeaves(run.bearer.qos))),
                    EsmConnState(data).Some?)
  }

  /**
   * Whatever happens, an ESM state report leaves the EMM status alone; a
   * report without a bearer id changes nothing before it raises, and one
   * with a bearer id makes that bearer current and changes at most its
   * entry (so the map only grows and every other bearer is untouched).
   */
  lemma EsmStateReportFrame(util: NasUtil, st: NasState, data: map<string, PyVal>)
    ensures "EPS bearer ID" !in data ==> EsmStateReport(util, st, data) == NasRun(st, false)
    ensures "EPS bearer ID" in data ==>
              var r := EsmStateReport(util, st, data).st;
              var cur := data["EPS bearer ID"];
              && r.emm == st.emm && r.cur == cur && cur in r.esm
              && st.esm.Keys <= r.esm.Keys
              && forall b :: b in st.esm && b != cur ==> r.esm[b] == st.esm[b]
    ensures CurValid(st) ==> CurValid(EsmStateReport(util, st, data).st)
  {
  }

  /**
   * The assignments to the bearer record take effect up to the first that
   * raises: an unreadable id leaves the record alone; a readable id is set
   * even when the type then fails; a readable type is set together with
   * the QoS copy, whose completed prefix persists when a reported key is
   * missing; the timestamp is set only when everything before it ran.
   */
  lemma ReportBearerSteps(b: EsmStatus, data: map<string, PyVal>)
    requires "EPS bearer ID" in data
    ensures var r := ReportBearer(b, data);
            var id := ToInt(data["EPS bearer ID"]);
            var ty := if "EPS bearer type" in data then ToInt(data["EPS bearer type"]) else None;
            var copy := CopyReported(b.qos, data);
            && (id.None? ==> r == BearerRun(b, false))
            && (id.Some? ==> r.bearer.epsId == PyInt(id.value))
            && (id.Some? && ty.None? ==> r == BearerRun(b.(epsId := PyInt(id.value)), false))
            && (id.Some? && ty.Some? ==> r.bearer.bearerType == ty.value && r.bearer.qos == copy.qos)
            && (r.ok <==> id.Some? && ty.Some? && copy.ok && "timestamp" in data)
            && (r.ok ==> r.bearer.timestamp == data["timestamp"])
            && (!r.ok ==> r.bearer.timestamp == b.timestamp)
  {
  }

  /**
   * Every report with a bearer id stores in that bearer's entry whatever
   * the assignments reached, even when one of them raises; the profile
   * partition is written only once they all ran and both the profile id
   * and the bearer type name exist, and the report succeeds when the
   * connection state then reads. A report processed to the end has set
   * the reported bearer's id, type, QoS and timestamp, and written its QoS
   * to the profile partition named by the profile id and the bearer type.
   */
  lemma EsmStateReportApplied(util: NasUtil, st: NasState, data: map<string, PyVal>)
    requires "EPS bearer ID" in data
    ensures var cur := data["EPS bearer ID"];
            var run := ReportBearer(if cur in st.esm then st.esm[cur] else NewBearer, data);
            var written := run.ok && st.emm.ProfileId().Some? && util.bearerType(run.bearer.bearerType).Some?;
            var r := EsmStateReport(util, st, data);
            && r.st.cur == cur && r.st.emm == st.emm
            && r.st.esm == st.esm[cur := run.bearer]
            && (r.ok <==> written && EsmConnState(data).Some?)
            && (!written ==> r.st.profile == st.profile)
            && (written ==> r.st.profile == ProfileUpdate(st.profile,
                                                         QosPartition(st.emm.ProfileId().value, util.bearerType(run.bearer.bearerType).value),
                                                         StateLeaves(run.bearer.qos)))
    ensures EsmStateReport(util, st, data).ok ==>
            var r := EsmStateReport(util, st, data).st;
            var cur := data["EPS bearer ID"];
            var before := if cur in st.esm then st.esm[cur].qos else UnsetQos;
            && "EPS bearer type" in data && "timestamp" in data
            && st.emm.ProfileId().Some? && EsmConnState(data).Some?
            && r.esm[cur].epsId.PyInt? && Some(r.esm[cur].epsId.i) == ToInt(cur)
            && Some(r.esm[cur].bearerType) == ToInt(data["EPS bearer type"])
            && r.esm[cur].qos == CopyReported(before, data).qos
            && r.esm[cur].timestamp == data["timestamp"]
            && util.bearerType(r.esm[cur].bearerType).Some?
  {
    var cur := data["EPS bearer ID"];
    ReportBearerSteps(if cur in st.esm then st.esm[cur] else NewBearer, data);
  }

  /** Before the GUTI is complete every ESM state report raises, and the profile is left as it was. */
  lemma EsmStateNeedsProfileId(util: NasUtil, st: NasState, data: map<string, PyVal>)
    requires !st.emm.guti.Inited()
    ensures !EsmStateReport(util, st, data).ok
    ensures EsmStateReport(util, st, data).st.profile == st.profile
  {
  }

  // ---------------------------------------------------------------------
  // EMM messages: the GUTI element
  // ---------------------------------------------------------------------

  /** An element of an EMM message that carries a GUTI. */
  predicate IsGutiElement(field: Element) {
    field.Get("show") == Some("EPS mobile identity - GUTI")
  }

  /** The five names of a GUTI element's sub-fields, each defaulting to None. */
  const GutiDefaults: FieldVals :=
    map[Some("e212.mcc") := PyNone, Some("e212.mnc") := PyNone, Some("nas_eps.emm.mme_grp_id") := PyNone,
        Some("nas_eps.emm.mme_code") := PyNone, Some("nas_eps.emm.m_tmsi") := PyNone]

  /** The GUTI a GUTI element's `field_val` table describes. */
  function GutiOf(fv: FieldVals): Guti {
    Guti(TextOf(Val(fv, "e212.mcc")), TextOf(Val(fv, "e212.mnc")), Val(fv, "nas_eps.emm.mme_grp_id"),
         Val(fv, "nas_eps.emm.mme_code"), Val(fv, "nas_eps.emm.m_tmsi"))
  }

  /** The GUTI an element describes: its sub-fields folded over the defaults. */
  function GutiOfElement(field: Element): Guti {
    GutiOf(Overlay(GutiDefaults, Iter(field, "field")))
  }

  /** A GUTI sub-field after the fold: the `show` of the last sub-field so named, else None. */
  lemma GutiFieldValue(field: Element, name: string)
    requires Some(name) in GutiDefaults
    ensures Val(Overlay(GutiDefaults, Iter(field, "field")), name) == Shown(Iter(field, "field"), name, map[])
  {
    FieldValue(GutiDefaults, field, name);
    assert GutiDefaults[Some(name)] == PyNone;
  }

  /**
   * A GUTI element replaces all five GUTI fields: each takes the `show` of
   * the last sub-field so named, which is None when the element has no such
   * sub-field.
   */
  lemma GutiOfElementSpec(field: Element)
    ensures var es := Iter(field, "field");
            var g := GutiOfElement(field);
            && g.mcc == TextOf(Shown(es, "e212.mcc", map[]))
            && g.mnc == TextOf(Shown(es, "e212.mnc", map[]))
            && g.mmeGroupId == Shown(es, "nas_eps.emm.mme_grp_id", map[])
            && g.mmeCode == Shown(es, "nas_eps.emm.mme_code", map[])
            && g.mTmsi == Shown(es, "nas_eps.emm.m_tmsi", map[])
  {
    GutiFieldValue(field, "e212.mcc");
    GutiFieldValue(field, "e212.mnc");
    GutiFieldValue(field, "nas_eps.emm.mme_grp_id");
    GutiFieldValue(field, "nas_eps.emm.mme_code");
    GutiFieldValue(field, "nas_eps.emm.m_tmsi");
  }

  /** `__callback_emm`: the GUTI after the fields of an EMM message, in document order. */
  function GutiAfter(g: Guti, fs: seq<Element>): Guti {
    if fs == [] then g
    else
      var prev := GutiAfter(g, fs[..|fs| - 1]);
      if IsGutiElement(fs[|fs| - 1]) then GutiOfElement(fs[|fs| - 1]) else prev
  }

  /** The last GUTI element of a message decides the GUTI; a message without one leaves it alone. */
  lemma {:induction false} LastGutiWins(g: Guti, fs: seq<Element>)
    ensures (forall k :: 0 <= k < |fs| ==> !IsGutiElement(fs[k])) ==> GutiAfter(g, fs) == g
    ensures forall k :: 0 <= k < |fs| && IsGutiElement(fs[k]) && (forall j :: k < j < |fs| ==> !IsGutiElement(fs[j])) ==>
              GutiAfter(g, fs) == GutiOfElement(fs[k])
  {
    if fs != [] {
      var init := fs[..|fs| - 1];
      LastGutiWins(g, init);
      forall k | 0 <= k < |fs| && IsGutiElement(fs[k]) && (forall j :: k < j < |fs| ==> !IsGutiElement(fs[j]))
        ensures GutiAfter(g, fs) == GutiOfElement(fs[k])
      {
        if k < |fs| - 1 {
          assert !IsGutiElement(fs[|fs| - 1]);
          assert init[k] == fs[k];
          assert forall j :: k < j < |init| ==> init[j] == fs[j];
        }
      }
      if forall k :: 0 <= k < |fs| ==> !IsGutiElement(fs[k]) {
        assert forall k :: 0 <= k < |init| ==> init[k] == fs[k];
      }
    }
  }

  // ---------------------------------------------------------------------
  // ESM messages: bearer id, QCI and QoS elements
  // ---------------------------------------------------------------------

  /** `show` labels of the QoS elements of ESM messages. */
  const QosElementLabels: set<string> :=
    {"Quality Of Service - Negotiated QoS", "Quality Of Service - New QoS", "Quality Of Service - Requested QoS"}

  predicate IsQosElement(field: Element) {
    field.Get("show").Some? && field.Get("show").value in QosElementLabels
  }

  /** A field named `nas_eps.bearer_id` makes the bearer it names current, creating its entry. */
  function BearerIdStep(st: NasState, field: Element): NasRun {
    if field.Get("name") != Some("nas_eps.bearer_id") then NasRun(st, true)
    else match ToInt(ShowOf(field))
      case None => NasRun(st, false)
      case Some(i) =>
        var cur := PyInt(i);
        NasRun(st.(cur := cur, esm := if cur in st.esm then st.esm else st.esm[cur := NewBearer]), true)
  }

  /** A field named `nas_eps.emm.qci` sets the current bearer's QCI; it raises when there is no such bearer. */
  function QciStep(st: NasState, field: Element): NasRun {
    if field.Get("name") != Some("nas_eps.emm.qci") then NasRun(st, true)
    else match ToInt(ShowOf(field))
      case None => NasRun(st, false)
      case Some(q) =>
        if st.cur !in st.esm then NasRun(st, false)
        else
          var b := st.esm[st.cur];
          NasRun(st.(esm := st.esm[st.cur := b.(qos := b.qos.With(Qci, PyInt(q)))]), true)
  }

  /**
   * A QoS element: fold its sub-fields into `field_val`, set the current
   * bearer's id, run the eighteen `has_key` statements on its QoS, and
   * write the QoS to the profile partition named by `xstr(profile_id())`
   * and the bearer type. `int(None)` raises when no bearer is current.
   */
  function QosElementStep(util: NasUtil, st: NasState, field: Element): NasRun {
    if !IsQosElement(field) then NasRun(st, true)
    else
      var fv := Overlay(map[], Iter(field, "field"));
      match ToInt(st.cur)
      case None => NasRun(st, false)
      case Some(id) =>
        if st.cur !in st.esm then NasRun(st, false)
        else
          var b1 := st.esm[st.cur].(epsId := PyInt(id));
          var merged := MergeQos(util, b1.qos, fv);
          var b2 := b1.(qos := merged.qos);
          var s1 := st.(esm := st.esm[st.cur := b2]);
          if !merged.ok then NasRun(s1, false)
          else match util.bearerType(b2.bearerType)
            case None => NasRun(s1, false)
            case Some(bt) =>
              var path := QosPartition(util.xstr(ProfileIdVal(st.emm)), bt);
              NasRun(s1.(profile := ProfileUpdate(s1.profile, path, OtaLeaves(util, b2.qos))), true)
  }

  /** One field of an ESM message: the three tests of the loop body, in order. */
  function EsmField(util: NasUtil, st: NasState, field: Element): NasRun {
    var r1 := BearerIdStep(st, field);
    if !r1.ok then r1
    else
      var r2 := QciStep(r1.st, field);
      if !r2.ok then r2 else QosElementStep(util, r2.st, field)
  }

  /** `__callback_esm`: the fields of an ESM message in document order, stopping at the first that raises. */
  function EsmFold(util: NasUtil, st: NasState, fs: seq<Element>): NasRun {
    if fs == [] then NasRun(st, true)
    else
      var r := EsmFold(util, st, fs[..|fs| - 1]);
      if !r.ok then r else EsmField(util, r.st, fs[|fs| - 1])
  }

  /** What one step of an ESM message may change: bearers are only added, and only the current one is altered. */
  predicate EsmFramed(st: NasState, r: NasState) {
    && r.emm == st.emm
    && st.esm.Keys <= r.esm.Keys
    && (forall b :: b in st.esm && b != r.cur ==> r.esm[b] == st.esm[b])
    && (CurValid(st) ==> CurValid(r))
  }

  lemma BearerIdStepFrame(st: NasState, field: Element)
    ensures EsmFramed(st, BearerIdStep(st, field).st)
  {
  }

  lemma QciStepFrame(st: NasState, field: Element)
    ensures EsmFramed(st, QciStep(st, field).st) && QciStep(st, field).st.cur == st.cur
  {
  }

  lemma QosElementStepFrame(util: NasUtil, st: NasState, field: Element)
    ensures EsmFramed(st, QosElementStep(util, st, field).st) && QosElementStep(util, st, field).st.cur == st.cur
  {
  }

  /**
   * One field of an ESM message leaves the EMM status alone, only adds to
   * the bearer map, changes no bearer but the current one, and keeps a
   * current bearer id naming an entry.
   */
  lemma EsmFieldFrame(util: NasUtil, st: NasState, field: Element)
    ensures EsmFramed(st, EsmField(util, st, field).st)
  {
    var r1 := BearerIdStep(st, field);
    BearerIdStepFrame(st, field);
    if r1.ok {
      var r2 := QciStep(r1.st, field);
      QciStepFrame(r1.st, field);
      if r2.ok {
        QosElementStepFrame(util, r2.st, field);
      }
    }
  }

  /**
   * A field that names a bearer makes it current and gives it an entry,
   * leaving an existing entry as it was; a QCI field sets the current
   * bearer's QCI to the integer it shows.
   */
  lemma BearerIdAndQci(st: NasState, field: Element)
    ensures field.Get("name") == Some("nas_eps.bearer_id") ==>
              var r := BearerIdStep(st, field);
              && (r.ok <==> ToInt(ShowOf(field)).Some?)
              && (r.ok ==> r.st.cur == PyInt(ToInt(ShowOf(field)).value) && r.st.cur in r.st.esm
                           && (r.st.cur in st.esm ==> r.st.esm == st.esm))
    ensures field.Get("name") == Some("nas_eps.emm.qci") ==>
              var r := QciStep(st, field);
              && (r.ok <==> ToInt(ShowOf(field)).Some? && st.cur in st.esm)
              && (r.ok ==> r.st.esm[st.cur].qos.Get(Qci) == PyInt(ToInt(ShowOf(field)).value))
  {
  }

  /**
   * A QoS element changes only the current bearer's id and the QoS fields
   * whose keys it carries: the QCI, absent fields, the bearer type and the
   * timestamp keep their values, even when a conversion raises.
   */
  lemma QosElementOnlyPresent(util: NasUtil, st: NasState, field: Element, f: QosField)
    requires st.cur in st.esm
    requires f == Qci || Some(OtaKey(f)) !in Overlay(map[], Iter(field, "field"))
    ensures var r := QosElementStep(util, st, field).st;
            && r.cur == st.cur && st.cur in r.esm
            && r.esm[st.cur].qos.Get(f) == st.esm[st.cur].qos.Get(f)
            && r.esm[st.cur].bearerType == st.esm[st.cur].bearerType
            && r.esm[st.cur].timestamp == st.esm[st.cur].timestamp
  {
    if IsQosElement(field) && ToInt(st.cur).Some? {
      var fv := Overlay(map[], Iter(field, "field"));
      MergeQosOnlyPresent(util, st.esm[st.cur].qos.(fields := st.esm[st.cur].qos.fields), fv, f);
    }
  }

  /**
   * A QoS element raises at once when no bearer is current. Otherwise it
   * stores in the current bearer its id and the merged QoS, even when a
   * later statement raises: each carried field holds its decoded value
   * once the merge has run to the end. The profile partition named by
   * `xstr(profile_id())` and the bearer type is then written with the
   * bearer's QoS, as `xstr` strings, when the bearer type has a name;
   * otherwise the element raises and the profile is left alone.
   */
  lemma QosElementApplied(util: NasUtil, st: NasState, field: Element, f: QosField)
    requires IsQosElement(field)
    ensures ToInt(st.cur).None? || st.cur !in st.esm ==> QosElementStep(util, st, field) == NasRun(st, false)
    ensures ToInt(st.cur).Some? && st.cur in st.esm ==>
            var r := QosElementStep(util, st, field);
            var fv := Overlay(map[], Iter(field, "field"));
            var b1 := st.esm[st.cur].(epsId := PyInt(ToInt(st.cur).value));
            var merged := MergeQos(util, b1.qos, fv);
            var bt := util.bearerType(b1.bearerType);
            && r.st.esm == st.esm[st.cur := b1.(qos := merged.qos)]
            && r.st.emm == st.emm && r.st.cur == st.cur
            && (merged.ok && f != Qci && Some(OtaKey(f)) in fv ==>
                  ToInt(fv[Some(OtaKey(f))]).Some? &&
                  Some(r.st.esm[st.cur].qos.Get(f)) == Decode(util, f, ToInt(fv[Some(OtaKey(f))]).value))
            && (r.ok <==> merged.ok && bt.Some?)
            && (!r.ok ==> r.st.profile == st.profile)
            && (r.ok ==> r.st.profile == ProfileUpdate(st.profile,
                                                       QosPartition(util.xstr(ProfileIdVal(st.emm)), bt.value),
                                                       OtaLeaves(util, r.st.esm[st.cur].qos)))
  {
    if ToInt(st.cur).Some? && st.cur in st.esm {
      var fv := Overlay(map[], Iter(field, "field"));
      var b1 := st.esm[st.cur].(epsId := PyInt(ToInt(st.cur).value));
      if MergeQos(util, b1.qos, fv).ok && f != Qci && Some(OtaKey(f)) in fv {
        MergeQosValue(util, b1.qos, fv, f);
      }
    }
  }

  /** A whole ESM message leaves the EMM status alone, only adds bearers, and keeps the bearer invariant. */
  lemma {:induction false} EsmFoldFrame(util: NasUtil, st: NasState, fs: seq<Element>)
    ensures var r := EsmFold(util, st, fs).st;
            && r.emm == st.emm
            && st.esm.Keys <= r.esm.Keys
            && (CurValid(st) ==> CurValid(r))
  {
    if fs != [] {
      var prev := EsmFold(util, st, fs[..|fs| - 1]);
      EsmFoldFrame(util, st, fs[..|fs| - 1]);
      if prev.ok {
        EsmFieldFrame(util, prev.st, fs[|fs| - 1]);
      }
    }
  }

  /** The fold over the first `i + 1` fields is the fold over the first `i` and then field `i`, unless one raised. */
  lemma EsmFoldNext(util: NasUtil, st: NasState, fs: seq<Element>, i: nat)
    requires i < |fs|
    ensures var r := EsmFold(util, st, fs[..i]);
            EsmFold(util, st, fs[..i + 1]) == if r.ok then EsmField(util, r.st, fs[i]) else r
  {
    assert fs[..i + 1][..i] == fs[..i];
  }

  /** Once a field raises, the rest of the message is not processed. */
  lemma {:induction false} EsmFoldStopped(util: NasUtil, st: NasState, fs: seq<Element>, i: nat)
    requires i < |fs| && !EsmFold(util, st, fs[..i + 1]).ok
    ensures EsmFold(util, st, fs) == EsmFold(util, st, fs[..i + 1])
    decreases |fs| - i
  {
    if i + 1 < |fs| {
      assert fs[..|fs| - 1][..i + 1] == fs[..i + 1];
      EsmFoldStopped(util, st, fs[..|fs| - 1], i);
    } else {
      assert fs[..i + 1] == fs;
    }
  }

  // ---------------------------------------------------------------------
  // Dispatch
  // ---------------------------------------------------------------------

  /** The OTA message kinds, handled by walking their XML. */
  const OtaTypeIds: set<string> :=
    {"LTE_NAS_ESM_OTA_Incoming_Packet", "LTE_NAS_ESM_OTA_Outgoing_Packet",
     "LTE_NAS_EMM_OTA_Incoming_Packet", "LTE_NAS_EMM_OTA_Outgoing_Packet"}

  /**
   * `__nas_filter`: an OTA message without a 'Msg' entry is ignored;
   * otherwise its XML goes through the EMM then the ESM callback. EMM and
   * ESM state reports go to their callbacks; any other kind is ignored.
   */
  function Filter(util: NasUtil, parser: XmlParser, st: NasState, typeId: string, data: map<string, PyVal>): NasRun {
    if typeId in OtaTypeIds then
      if "Msg" !in data then NasRun(st, true)
      else if !data["Msg"].PyStr? then NasRun(st, false)
      else match parser(data["Msg"].s)
        case None => NasRun(st, false)
        case Some(xml) =>
          var fields := Iter(xml, "field");
          EsmFold(util, st.(emm := st.emm.(guti := GutiAfter(st.emm.guti, fields))), fields)
    else if typeId == "LTE_NAS_EMM_State" then
      var r := EmmStateReport(st.emm, data);
      NasRun(st.(emm := r.emm), r.ok)
    else if typeId == "LTE_NAS_ESM_State" then EsmStateReport(util, st, data)
    else NasRun(st, true)
  }

  /**
   * Every message keeps the bearer invariant, and the bearer map only
   * grows; messages of other kinds, and OTA messages without 'Msg', change
   * nothing.
   */
  lemma FilterKeepsBearers(util: NasUtil, parser: XmlParser, st: NasState, typeId: string, data: map<string, PyVal>)
    requires CurValid(st)
    ensures CurValid(Filter(util, parser, st, typeId, data).st)
    ensures st.esm.Keys <= Filter(util, parser, st, typeId, data).st.esm.Keys
    ensures typeId !in OtaTypeIds && typeId != "LTE_NAS_EMM_State" && typeId != "LTE_NAS_ESM_State" ==>
              Filter(util, parser, st, typeId, data) == NasRun(st, true)
    ensures typeId in OtaTypeIds && "Msg" !in data ==> Filter(util, parser, st, typeId, data) == NasRun(st, true)
  {
    if typeId in OtaTypeIds && "Msg" in data && data["Msg"].PyStr? && parser(data["Msg"].s).Some? {
      var fields := Iter(parser(data["Msg"].s).value, "field");
      EsmFoldFrame(util, st.(emm := st.emm.(guti := GutiAfter(st.emm.guti, fields))), fields);
    } else if typeId == "LTE_NAS_ESM_State" {
      EsmStateReportFrame(util, st, data);
    }
  }

  // ---------------------------------------------------------------------
  // The analyzer
  // ---------------------------------------------------------------------

  /**
   * The NAS analyzer object: its EMM status, its bearers by id, the current
   * bearer id, and the profile store it writes to. Each callback updates
   * these in place, as the analyzer's methods do.
   */
  class LteNasAnalyzer {
    const util: NasUtil
    var emm: EmmStatus
    var esm: map<PyVal, EsmStatus>
    var curEpsId: PyVal
    var profile: Profile

    function State(): NasState
      reads this
    {
      NasState(emm, esm, curEpsId, profile)
    }

    predicate Valid()
      reads this
    {
      CurValid(State())
    }

    constructor(util: NasUtil, profile: Profile)
      ensures this.util == util && State() == InitialState(profile) && Valid()
    {
      this.util := util;
      emm := InitialEmm;
      esm := map[];
      curEpsId := PyNone;
      this.profile := profile;
    }

    /** `__callback_emm_state` */
    method CallbackEmmState(data: map<string, PyVal>) returns (ok: bool)
      modifies this
      ensures EmmRun(emm, ok) == EmmStateReport(old(emm), data)
      ensures esm == old(esm) && curEpsId == old(curEpsId) && profile == old(profile)
    {
      if "EMM State" !in data { return false; }
      emm := emm.(state := data["EMM State"]);
      if "EMM Substate" !in data { return false; }
      emm := emm.(substate := data["EMM Substate"]);
      if "PLMN" !in data || !data["PLMN"].PyStr? { return false; }
      var tmp := Split(data["PLMN"].s, '-');
      emm := emm.(guti := emm.guti.(mcc := Some(tmp[0])));
      if |tmp| < 2 { return false; }
      emm := emm.(guti := emm.guti.(mnc := Some(tmp[1])));
      if "GUTI MME Group ID" !in data { return false; }
      emm := emm.(guti := emm.guti.(mmeGroupId := data["GUTI MME Group ID"]));
      if "GUTI MME Code" !in data { return false; }
      emm := emm.(guti := emm.guti.(mmeCode := data["GUTI MME Code"]));
      if "GUTI M-TMSI" !in data { return false; }
      emm := emm.(guti := emm.guti.(mTmsi := data["GUTI M-TMSI"]));
      ok := true;
    }

    /** The assignments of an ESM state report to one bearer record, in order. */
    static method AssignReported(b: EsmStatus, data: map<string, PyVal>) returns (r: BearerRun)
      requires "EPS bearer ID" in data
      ensures r == ReportBearer(b, data)
    {
      r := BearerRun(b, false);
      var id := ToInt(data["EPS bearer ID"]);
      if id.None? { return; }
      r := r.(bearer := r.bearer.(epsId := PyInt(id.value)));
      var ty := if "EPS bearer type" in data then ToInt(data["EPS bearer type"]) else None;
      if ty.None? { return; }
      r := r.(bearer := r.bearer.(bearerType := ty.value));
      var copy := CopyReported(r.bearer.qos, data);
      r := r.(bearer := r.bearer.(qos := copy.qos));
      if !copy.ok || "timestamp" !in data { return; }
      r := BearerRun(r.bearer.(timestamp := data["timestamp"]), true);
    }

    /** `__callback_esm_state` */
    method CallbackEsmState(data: map<string, PyVal>) returns (ok: bool)
      requires Valid()
      modifies this
      ensures NasRun(State(), ok) == EsmStateReport(util, old(State()), data)
      ensures Valid()
    {
      if "EPS bearer ID" !in data { return false; }
      curEpsId := data["EPS bearer ID"];
      if curEpsId !in esm {
        esm := esm[curEpsId := NewBearer];
      }
      var run := AssignReported(esm[curEpsId], data);
      assert old(esm)[curEpsId := NewBearer][curEpsId := run.bearer] == old(esm)[curEpsId := run.bearer];
      esm := esm[curEpsId := run.bearer];
      if !run.ok { return false; }
      var pid := emm.ProfileId();
      var bt := util.bearerType(run.bearer.bearerType);
      if pid.None? || bt.None? { return false; }
      profile := ProfileUpdate(profile, QosPartition(pid.value, bt.value), StateLeaves(run.bearer.qos));
      ok := EsmConnState(data).Some?;
    }

    /** One field of an EMM message: the body of the loop in `__callback_emm`. */
    method GutiFieldUpdate(field: Element)
      modifies this
      ensures emm == old(emm).(guti := if IsGutiElement(field) then GutiOfElement(field) else old(emm.guti))
      ensures esm == old(esm) && curEpsId == old(curEpsId) && profile == old(profile)
    {
      if IsGutiElement(field) {
        var fieldVal := CollectFieldVals(field, GutiDefaults);
        emm := emm.(guti := GutiOf(fieldVal));
      }
    }

    /** `__callback_emm` */
    method CallbackEmm(msg: Element)
      modifies this
      ensures emm == old(emm).(guti := GutiAfter(old(emm.guti), Iter(msg, "field")))
      ensures esm == old(esm) && curEpsId == old(curEpsId) && profile == old(profile)
    {
      var fields := Iter(msg, "field");
      var i := 0;
      while i < |fields|
        invariant 0 <= i <= |fields|
        invariant emm == old(emm).(guti := GutiAfter(old(emm.guti), fields[..i]))
        invariant esm == old(esm) && curEpsId == old(curEpsId) && profile == old(profile)
      {
        assert fields[..i + 1][..i] == fields[..i];
        GutiFieldUpdate(fields[i]);
        i := i + 1;
      }
      assert fields[..i] == fields;
    }

    /** One field of an ESM message: the body of the loop in `__callback_esm`. */
    method EsmFieldUpdate(field: Element) returns (ok: bool)
      modifies this
      ensures NasRun(State(), ok) == EsmField(util, old(State()), field)
    {
      if field.Get("name") == Some("nas_eps.bearer_id") {
        var id := ToInt(ShowOf(field));
        if id.None? { return false; }
        curEpsId := PyInt(id.value);
        if curEpsId !in esm {
          esm := esm[curEpsId := NewBearer];
        }
      }
      if field.Get("name") == Some("nas_eps.emm.qci") {
        var qci := ToInt(ShowOf(field));
        if qci.None? || curEpsId !in esm { return false; }
        esm := esm[curEpsId := esm[curEpsId].(qos := esm[curEpsId].qos.With(Qci, PyInt(qci.value)))];
      }
      if IsQosElement(field) {
        var fieldVal := CollectFieldVals(field, map[]);
        var id := ToInt(curEpsId);
        if id.None? || curEpsId !in esm { return false; }
        var b := esm[curEpsId].(epsId := PyInt(id.value));
        var merged := MergeQos(util, b.qos, fieldVal);
        b := b.(qos := merged.qos);
        esm := esm[curEpsId := b];
        if !merged.ok { return false; }
        var bt := util.bearerType(b.bearerType);
        if bt.None? { return false; }
        profile := ProfileUpdate(profile, QosPartition(util.xstr(ProfileIdVal(emm)), bt.value), OtaLeaves(util, b.qos));
      }
      ok := true;
    }

    /** `__callback_esm` */
    method CallbackEsm(msg: Element) returns (ok: bool)
      modifies this
      ensures NasRun(State(), ok) == EsmFold(util, old(State()), Iter(msg, "field"))
    {
      var fields := Iter(msg, "field");
      var i := 0;
      while i < |fields|
        invariant 0 <= i <= |fields|
        invariant EsmFold(util, old(State()), fields[..i]) == NasRun(State(), true)
      {
        EsmFoldNext(util, old(State()), fields, i);
        ok := EsmFieldUpdate(fields[i]);
        if !ok {
          EsmFoldStopped(util, old(State()), fields, i);
          return;
        }
        i := i + 1;
      }
      assert fields[..i] == fields;
      ok := true;
    }

    /** `__nas_filter`: one decoded message, routed by its kind. */
    method NasFilter(typeId: string, data: map<string, PyVal>, parser: XmlParser) returns (ok: bool)
      requires Valid()
      modifies this
      ensures NasRun(State(), ok) == Filter(util, parser, old(State()), typeId, data)
      ensures Valid()
    {
      FilterKeepsBearers(util, parser, State(), typeId, data);
      ok := true;
      if typeId in OtaTypeIds {
        if "Msg" !in data { return; }
        if !data["Msg"].PyStr? { return false; }
        var logXml := parser(data["Msg"].s);
        if logXml.None? { return false; }
        CallbackEmm(logXml.value);
        ok := CallbackEsm(logXml.value);
      }
      if typeId == "LTE_NAS_EMM_State" {
        ok := CallbackEmmState(data);
      }
      if typeId == "LTE_NAS_ESM_State" {
        ok := CallbackEsmState(data);
      }
    }

    /**
     * `get_qos`: the current bearer's QoS if it has an entry, else None;
     * with the bearer invariant, None only while no bearer is current.
     */
    function GetQos(): (r: Option<EsmQos>)
      reads this
      ensures r.Some? <==> curEpsId in esm
      ensures r.Some? ==> r.value == esm[curEpsId].qos
      ensures Valid() && r.None? ==> curEpsId == PyNone
    {
      if curEpsId in esm then Some(esm[curEpsId].qos) else None
    }

    /** `get_profiled_qos(plmn)`, read from the analyzer's profile store. */
    function GetProfiledQos(plmn: PyVal): (r: Result<Option<EsmQos>>)
      reads this
      ensures r == ProfiledQos(util, profile, plmn)
    {
      ProfiledQos(util, profile, plmn)
    }
  }
}
