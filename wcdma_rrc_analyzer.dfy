/**
 * The WCDMA RRC analyzer: a tracker of the serving cell's status (cell id,
 * UARFCN, LAC, RAC) with a history of the changes keyed by timestamp, and a
 * per-cell table of the idle-state reselection parameters read off the system
 * information blocks in WCDMA signalling messages.
 *
 * Values the trace collector delivers are Python scalars (`PyVal`); a message
 * in XML form is an abstract `Element`, and the XML parser is a parameter.
 */
module WcdmaRrcAnalyzer {
  import opened Wrappers
  import opened PyValues
  import opened Xml

  /** The trace collector's timestamp of a message, as a key of the history. */
  type Timestamp = int

  // ---------------------------------------------------------------------
  // Serving cell status
  // ---------------------------------------------------------------------

  /** The four slots of a cell status, in the order the update checks them. */
  datatype Slot = Freq | Id | Lac | Rac

  /** The key of the `WCDMA_CELL_ID` record that feeds each slot. */
  function KeyOf(s: Slot): string {
    match s
    case Freq => "UTRA DL Absolute RF channel number"
    case Id => "Cell identity (28-bits)"
    case Lac => "LAC id"
    case Rac => "RAC id"
  }

  /** The position of a slot in the order freq, id, lac, rac. */
  function Rank(s: Slot): nat {
    match s
    case Freq => 0
    case Id => 1
    case Lac => 2
    case Rac => 3
  }

  /** The contents of a `WcdmaRrcStatus` object at one moment. */
  datatype CellStatus = CellStatus(id: PyVal, freq: PyVal, rac: PyVal, lac: PyVal)
  {
    function Get(s: Slot): PyVal {
      match s
      case Freq => freq
      case Id => id
      case Lac => lac
      case Rac => rac
    }

    function With(s: Slot, v: PyVal): (r: CellStatus)
      ensures r.Get(s) == v
      ensures forall t :: t != s ==> r.Get(t) == Get(t)
    {
      match s
      case Freq => this.(freq := v)
      case Id => this.(id := v)
      case Lac => this.(lac := v)
      case Rac => this.(rac := v)
    }

    /** Every slot holds a value. */
    predicate Inited() {
      forall s: Slot :: Get(s) != PyNone
    }
  }

  /** A freshly constructed status: every slot None. */
  const Unset: CellStatus := CellStatus(PyNone, PyNone, PyNone, PyNone)

  /** A fresh status holding only `v` in slot `s`. */
  function Only(s: Slot, v: PyVal): CellStatus {
    Unset.With(s, v)
  }

  /** One slot of the fill done while the status is not initialised. */
  function FillStep(st: CellStatus, data: map<string, PyVal>, s: Slot): CellStatus {
    if KeyOf(s) in data then st.With(s, data[KeyOf(s)]) else st
  }

  /** The status after an event arrives while it is not initialised. */
  function Fill(st: CellStatus, data: map<string, PyVal>): (r: CellStatus)
    ensures forall s :: r.Get(s) == if KeyOf(s) in data then data[KeyOf(s)] else st.Get(s)
  {
    FillStep(FillStep(FillStep(FillStep(st, data, Freq), data, Id), data, Lac), data, Rac)
  }

  /** The status reached by the checks of an initialised status, and whether it was replaced. */
  datatype Change = Change(status: CellStatus, replaced: bool)

  /** One check: a present key whose value differs from the slot replaces the status. */
  function ChangeStep(c: Change, data: map<string, PyVal>, s: Slot): Change {
    if KeyOf(s) in data && c.status.Get(s) != data[KeyOf(s)] then Change(Only(s, data[KeyOf(s)]), true)
    else c
  }

  /** The four checks, in order, each against the status the previous one left. */
  function Cascade(st: CellStatus, data: map<string, PyVal>): Change {
    ChangeStep(ChangeStep(ChangeStep(ChangeStep(Change(st, false), data, Freq), data, Id), data, Lac), data, Rac)
  }

  /** The status after an event: a fill before initialisation, the checks after. */
  function ServCellNext(st: CellStatus, data: map<string, PyVal>): CellStatus {
    if st.Inited() then Cascade(st, data).status else Fill(st, data)
  }

  /**
   * Once initialised, the status stays as it is exactly when every key the
   * event carries holds the value already in its slot.
   */
  lemma CascadeUnchanged(st: CellStatus, data: map<string, PyVal>)
    ensures !Cascade(st, data).replaced <==> forall s :: KeyOf(s) in data ==> data[KeyOf(s)] == st.Get(s)
    ensures !Cascade(st, data).replaced ==> Cascade(st, data).status == st
  {
    if forall s :: KeyOf(s) in data ==> data[KeyOf(s)] == st.Get(s) {
    } else {
      var s :| KeyOf(s) in data && data[KeyOf(s)] != st.Get(s);
      var c1 := ChangeStep(Change(st, false), data, Freq);
      var c2 := ChangeStep(c1, data, Id);
      var c3 := ChangeStep(c2, data, Lac);
      assert c1.replaced || c2.replaced || c3.replaced || Cascade(st, data).replaced by {
        match s
        case Freq =>
        case Id =>
        case Lac =>
        case Rac =>
      }
    }
  }

  /**
   * After a replacement the status holds a single present field of the event,
   * and every key checked after it carries None: the status ends up holding the
   * last present non-None field, and is no longer initialised.
   */
  lemma CascadeReplaced(st: CellStatus, data: map<string, PyVal>) returns (s: Slot)
    requires Cascade(st, data).replaced
    ensures KeyOf(s) in data && Cascade(st, data).status == Only(s, data[KeyOf(s)])
    ensures forall t :: Rank(s) < Rank(t) && KeyOf(t) in data ==> data[KeyOf(t)] == PyNone
    ensures !Cascade(st, data).status.Inited()
  {
    var c1 := ChangeStep(Change(st, false), data, Freq);
    var c2 := ChangeStep(c1, data, Id);
    var c3 := ChangeStep(c2, data, Lac);
    var c4 := ChangeStep(c3, data, Rac);
    if c4 != c3 {
      s := Rac;
    } else if c3 != c2 {
      s := Lac;
    } else if c2 != c1 {
      s := Id;
    } else {
      s := Freq;
    }
    assert Cascade(st, data).status.Get(if s == Freq then Id else Freq) == PyNone;
  }

  class WcdmaRrcStatus {
    var id: PyVal
    var freq: PyVal
    var rac: PyVal
    var lac: PyVal

    constructor()
      ensures Snapshot() == Unset
    {
      id := PyNone;
      freq := PyNone;
      rac := PyNone;
      lac := PyNone;
    }

    function Snapshot(): CellStatus
      reads this
    {
      CellStatus(id, freq, rac, lac)
    }

    /** Assigns one slot (`status.freq = ...` and so on). */
    method Set(s: Slot, v: PyVal)
      modifies this
      ensures Snapshot() == old(Snapshot()).With(s, v)
    {
      match s
      case Freq => freq := v;
      case Id => id := v;
      case Lac => lac := v;
      case Rac => rac := v;
    }

    /** `inited()`: id, freq, rac and lac all set. */
    predicate Inited()
      reads this
      ensures Inited() <==> id != PyNone && freq != PyNone && rac != PyNone && lac != PyNone
    {
      var st := Snapshot();
      assert st.Get(Id) == id && st.Get(Freq) == freq && st.Get(Rac) == rac && st.Get(Lac) == lac;
      st.Inited()
    }
  }

  // ---------------------------------------------------------------------
  // SIB configuration records
  // ---------------------------------------------------------------------

  /** `WcdmaRrcSibServ`: the serving cell's reselection settings. */
  datatype ServConfig = ServConfig(priority: Option<int>, threshservLow: Option<int>,
                                   sPrioritySearch1: Option<int>, sPrioritySearch2: Option<int>)

  /** `WcdmaRrcSibIntraFreqConfig`: intra-frequency reselection settings. */
  datatype IntraFreqConfig = IntraFreqConfig(tReselection: Option<int>, qRxLevMin: Option<int>,
                                             sInterSearch: Option<int>, sIntraSearch: Option<int>,
                                             qHyst1: Option<int>, qHyst2: Option<int>)

  /** `WcdmaRrcSibInterFreqConfig` for an EUTRA neighbour frequency (its `tReselection` and `p_Max` are always None). */
  datatype InterFreqConfig = InterFreqConfig(freq: int, qRxLevMin: int, priority: int, threshxHigh: int, threshxLow: int)

  /** `WcdmaRrcSib`: the idle-state configuration of one cell. */
  datatype Sib = Sib(serv: ServConfig, intra: IntraFreqConfig, inter: map<int, InterFreqConfig>)

  const DefaultSib: Sib :=
    Sib(ServConfig(None, None, None, None), IntraFreqConfig(Some(0), Some(0), None, None, None, None), map[])

  /** `LteRrcReselectionConfig(cell, freq, priority, hyst, threshx_high, threshx_low)`. */
  datatype ReselectionConfig = ReselectionConfig(cell: PyVal, freq: PyVal, priority: Option<int>, hyst: Option<int>,
                                                 threshxHigh: Option<int>, threshxLow: Option<int>)

  const ServElem: string := "rrc.utra_ServingCell_element"
  const IntraElem: string := "rrc.cellSelectReselectInfo_element"
  const EutraElem: string := "rrc.EUTRA_FrequencyAndPriorityInfo_element"

  const Priority: string := "rrc.priority"
  const ThreshServingLow: string := "rrc.threshServingLow"
  const SPrioritySearch1: string := "rrc.s_PrioritySearch1"
  const SPrioritySearch2: string := "rrc.s_PrioritySearch2"

  const SIntrasearch: string := "rrc.s_Intrasearch"
  const SIntersearch: string := "rrc.s_Intersearch"
  const QRxlevMin: string := "rrc.q_RxlevMin"
  const QQualMin: string := "rrc.q_QualMin"
  const QHyst1: string := "rrc.q_Hyst_l_S"
  const TReselection: string := "rrc.t_Reselection_S"
  const QHyst2: string := "rrc.q_HYST_2_S"

  const Earfcn: string := "rrc.earfcn"
  const QRxLevMinEutra: string := "rrc.qRxLevMinEUTRA"
  const ThreshXhigh: string := "rrc.threshXhigh"
  const ThreshXlow: string := "rrc.threshXlow"

  /** Defaults of the serving-cell element: three mandatory fields, `s_PrioritySearch2` 0. */
  const ServDefaults: FieldVals :=
    map[Some(Priority) := PyNone, Some(ThreshServingLow) := PyNone,
        Some(SPrioritySearch1) := PyNone, Some(SPrioritySearch2) := PyInt(0)]

  /** Defaults of the cell selection element: the two search thresholds 0, the rest mandatory. */
  const IntraDefaults: FieldVals :=
    map[Some(SIntrasearch) := PyInt(0), Some(SIntersearch) := PyInt(0), Some(QRxlevMin) := PyNone,
        Some(QQualMin) := PyNone, Some(QHyst1) := PyNone, Some(TReselection) := PyNone, Some(QHyst2) := PyNone]

  /** Defaults of the EUTRA frequency element: `qRxLevMinEUTRA` is -140, the rest unset. */
  const EutraDefaults: FieldVals :=
    map[Some(Earfcn) := PyNone, Some(Priority) := PyNone, Some(QRxLevMinEutra) := PyInt(-140),
        Some(ThreshXhigh) := PyNone, Some(ThreshXlow) := PyNone]

  /**
   * `int(field_val[n])` for each of `names` in turn: the integers, or None
   * as soon as one conversion fails.
   */
  function IntsOf(fv: FieldVals, names: seq<string>): (r: Option<seq<int>>)
    ensures r.Some? ==> |r.value| == |names|
  {
    if names == [] then Some([])
    else
      var x :- ToInt(Val(fv, names[0]));
      var rest :- IntsOf(fv, names[1..]);
      Some([x] + rest)
  }

  /** The conversions succeed exactly when each one does, and yield each field's integer. */
  lemma {:induction false} IntsOfEach(fv: FieldVals, names: seq<string>)
    ensures IntsOf(fv, names).Some? <==> forall k :: 0 <= k < |names| ==> ToInt(Val(fv, names[k])).Some?
    ensures IntsOf(fv, names).Some? ==>
              forall k :: 0 <= k < |names| ==> Some(IntsOf(fv, names).value[k]) == ToInt(Val(fv, names[k]))
  {
    if names != [] {
      IntsOfEach(fv, names[1..]);
      if !(forall k :: 0 <= k < |names| ==> ToInt(Val(fv, names[k])).Some?) {
        var k :| 0 <= k < |names| && ToInt(Val(fv, names[k])).None?;
        assert k == 0 || ToInt(Val(fv, names[1..][k - 1])).None?;
      }
    }
  }

  const ServFields: seq<string> := [Priority, ThreshServingLow, SPrioritySearch1, SPrioritySearch2]

  /** The serving-cell record built from the element's `field_val` table; None when `int()` fails. */
  function ServOf(fv: FieldVals): Option<ServConfig> {
    var v :- IntsOf(fv, ServFields);
    Some(ServConfig(Some(v[0]), Some(v[1] * 2), Some(v[2] * 2), Some(v[3])))
  }

  /**
   * The serving-cell rules: priority and `s_PrioritySearch2` as read,
   * `threshServingLow` and `s_PrioritySearch1` doubled; the record fails when
   * any of the four is not an integer.
   */
  lemma ServScaling(fv: FieldVals)
    ensures ServOf(fv).Some? <==> ToInt(Val(fv, Priority)).Some? && ToInt(Val(fv, ThreshServingLow)).Some?
                                  && ToInt(Val(fv, SPrioritySearch1)).Some? && ToInt(Val(fv, SPrioritySearch2)).Some?
    ensures ServOf(fv).Some? ==>
              var r := ServOf(fv).value;
              && r.priority == ToInt(Val(fv, Priority))
              && r.threshservLow == Some(2 * ToInt(Val(fv, ThreshServingLow)).value)
              && r.sPrioritySearch1 == Some(2 * ToInt(Val(fv, SPrioritySearch1)).value)
              && r.sPrioritySearch2 == ToInt(Val(fv, SPrioritySearch2))
  {
    IntsOfEach(fv, ServFields);
    assert ServFields[0] == Priority && ServFields[1] == ThreshServingLow;
    assert ServFields[2] == SPrioritySearch1 && ServFields[3] == SPrioritySearch2;
  }

  const IntraFields: seq<string> := [TReselection, QRxlevMin, SIntersearch, SIntrasearch, QHyst1]

  /**
   * The intra-frequency record built from the element's `field_val` table;
   * `q_HYST_2_S` falls back to `q_Hyst_l_S` when it is None, and the record
   * is None when `int()` fails.
   */
  function IntraOf(fv: FieldVals): Option<IntraFreqConfig> {
    var v :- IntsOf(fv, IntraFields);
    var hyst2 :- if Val(fv, QHyst2) == PyNone then Some(v[4]) else ToInt(Val(fv, QHyst2));
    Some(IntraFreqConfig(Some(v[0]), Some(v[1] * 2), Some(v[2] * 2), Some(v[3] * 2), Some(v[4] * 2), Some(hyst2 * 2)))
  }

  /**
   * The intra-frequency rules: `t_Reselection_S` as read, every other field
   * doubled, `q_HYST_2_S` falling back to `q_Hyst_l_S`; the record fails when
   * any field read is not an integer.
   */
  lemma IntraScaling(fv: FieldVals)
    ensures IntraOf(fv).Some? <==> ToInt(Val(fv, TReselection)).Some? && ToInt(Val(fv, QRxlevMin)).Some?
                                   && ToInt(Val(fv, SIntersearch)).Some? && ToInt(Val(fv, SIntrasearch)).Some?
                                   && ToInt(Val(fv, QHyst1)).Some?
                                   && (Val(fv, QHyst2) == PyNone || ToInt(Val(fv, QHyst2)).Some?)
    ensures IntraOf(fv).Some? ==>
              var r := IntraOf(fv).value;
              && r.tReselection == ToInt(Val(fv, TReselection))
              && r.qRxLevMin == Some(2 * ToInt(Val(fv, QRxlevMin)).value)
              && r.sInterSearch == Some(2 * ToInt(Val(fv, SIntersearch)).value)
              && r.sIntraSearch == Some(2 * ToInt(Val(fv, SIntrasearch)).value)
              && r.qHyst1 == Some(2 * ToInt(Val(fv, QHyst1)).value)
              && r.qHyst2 == if Val(fv, QHyst2) == PyNone then r.qHyst1 else Some(2 * ToInt(Val(fv, QHyst2)).value)
  {
    IntsOfEach(fv, IntraFields);
    assert IntraFields[0] == TReselection && IntraFields[1] == QRxlevMin && IntraFields[2] == SIntersearch;
    assert IntraFields[3] == SIntrasearch && IntraFields[4] == QHyst1;
  }

  const EutraFields: seq<string> := [Earfcn, QRxLevMinEutra, Priority, ThreshXhigh, ThreshXlow]

  /** The EUTRA neighbour record, keyed by `int(earfcn)`; None when `int()` fails. */
  function EutraOf(fv: FieldVals): Option<InterFreqConfig> {
    var v :- IntsOf(fv, EutraFields);
    Some(InterFreqConfig(v[0], v[1] * 2, v[2], v[3] * 2, v[4] * 2))
  }

  /**
   * The EUTRA neighbour rules: the key is `int(earfcn)`, `priority` is as
   * read, `qRxLevMinEUTRA` and both thresholds are doubled; the record fails
   * when any field read is not an integer.
   */
  lemma EutraScaling(fv: FieldVals)
    ensures EutraOf(fv).Some? <==> ToInt(Val(fv, Earfcn)).Some? && ToInt(Val(fv, QRxLevMinEutra)).Some?
                                   && ToInt(Val(fv, Priority)).Some? && ToInt(Val(fv, ThreshXhigh)).Some?
                                   && ToInt(Val(fv, ThreshXlow)).Some?
    ensures EutraOf(fv).Some? ==>
              var r := EutraOf(fv).value;
              && Some(r.freq) == ToInt(Val(fv, Earfcn))
              && Some(r.priority) == ToInt(Val(fv, Priority))
              && r.qRxLevMin == 2 * ToInt(Val(fv, QRxLevMinEutra)).value
              && r.threshxHigh == 2 * ToInt(Val(fv, ThreshXhigh)).value
              && r.threshxLow == 2 * ToInt(Val(fv, ThreshXlow)).value
  {
    IntsOfEach(fv, EutraFields);
    assert EutraFields[0] == Earfcn && EutraFields[1] == QRxLevMinEutra && EutraFields[2] == Priority;
    assert EutraFields[3] == ThreshXhigh && EutraFields[4] == ThreshXlow;
  }

  /** The three element names the SIB callback acts on. */
  predicate IsSibElement(field: Element) {
    field.Get("name") == Some(ServElem) || field.Get("name") == Some(IntraElem) || field.Get("name") == Some(EutraElem)
  }

  /**
   * One field of the message applied to a cell's configuration: a serving-cell
   * element replaces the serving record, a cell selection element the
   * intra-frequency record, and an EUTRA element stores its record under its
   * frequency; any other field changes nothing. None when `int()` fails.
   */
  function ApplyField(sib: Sib, field: Element): (r: Option<Sib>)
    ensures !IsSibElement(field) ==> r == Some(sib)
    ensures r.Some? && field.Get("name") != Some(ServElem) ==> r.value.serv == sib.serv
    ensures r.Some? && field.Get("name") != Some(IntraElem) ==> r.value.intra == sib.intra
    ensures r.Some? && field.Get("name") != Some(EutraElem) ==> r.value.inter == sib.inter
  {
    var name := field.Get("name");
    if name == Some(ServElem) then
      var serv :- ServOf(Overlay(ServDefaults, Iter(field, "field")));
      Some(sib.(serv := serv))
    else if name == Some(IntraElem) then
      var intra :- IntraOf(Overlay(IntraDefaults, Iter(field, "field")));
      Some(sib.(intra := intra))
    else if name == Some(EutraElem) then
      var c :- EutraOf(Overlay(EutraDefaults, Iter(field, "field")));
      Some(sib.(inter := sib.inter[c.freq := c]))
    else Some(sib)
  }

  /** A configuration after some fields, and whether every one applied so far succeeded. */
  datatype SibRun = SibRun(sib: Sib, ok: bool)

  /** One field applied to a run that has not failed yet. */
  function StepRun(r: SibRun, field: Element): SibRun {
    if !r.ok then r
    else match ApplyField(r.sib, field)
      case None => SibRun(r.sib, false)
      case Some(sib) => SibRun(sib, true)
  }

  /** The first `n` fields applied in order; the first failure stops the run, keeping what came before. */
  function ConfigFold(start: Sib, fields: seq<Element>, n: nat): SibRun
    requires n <= |fields|
  {
    if n == 0 then SibRun(start, true) else StepRun(ConfigFold(start, fields, n - 1), fields[n - 1])
  }

  /**
   * `runs` lists the run after each prefix of `fields`; each step is only
   * unfolded where `StepRun` of that position is mentioned.
   */
  ghost predicate RunsOf(start: Sib, fields: seq<Element>, runs: seq<SibRun>) {
    && |runs| == |fields| + 1
    && runs[0] == SibRun(start, true)
    && forall k {:trigger StepRun(runs[k], fields[k])} :: 0 <= k < |fields| ==> runs[k + 1] == StepRun(runs[k], fields[k])
  }

  lemma RunsOfFold(start: Sib, fields: seq<Element>) returns (runs: seq<SibRun>)
    ensures RunsOf(start, fields, runs)
  {
    runs := seq(|fields| + 1, k requires 0 <= k <= |fields| => ConfigFold(start, fields, k));
  }

  lemma {:induction false} RunsOfUnique(start: Sib, fields: seq<Element>, runs: seq<SibRun>, n: nat)
    requires RunsOf(start, fields, runs) && n <= |fields|
    ensures runs[n] == ConfigFold(start, fields, n)
  {
    if n > 0 {
      RunsOfUnique(start, fields, runs, n - 1);
      assert runs[n] == StepRun(runs[n - 1], fields[n - 1]);
    }
  }

  /** Once a field fails, the run stays where it stopped. */
  lemma {:induction false} ConfigFoldStopped(start: Sib, fields: seq<Element>, i: nat, n: nat)
    requires i <= n <= |fields|
    requires !ConfigFold(start, fields, i).ok
    ensures ConfigFold(start, fields, n) == ConfigFold(start, fields, i)
    decreases n
  {
    if i < n {
      ConfigFoldStopped(start, fields, i, n - 1);
    }
  }

  /** Fields none of which is a SIB element leave the configuration as it was. */
  lemma {:induction false} ConfigFoldIgnores(start: Sib, fields: seq<Element>, n: nat)
    requires n <= |fields|
    requires forall k :: 0 <= k < n ==> !IsSibElement(fields[k])
    ensures ConfigFold(start, fields, n) == SibRun(start, true)
  {
    if n > 0 {
      ConfigFoldIgnores(start, fields, n - 1);
    }
  }

  /** An EUTRA element stores its record under its own frequency and keeps every other neighbour. */
  lemma EutraStored(sib: Sib, field: Element)
    requires field.Get("name") == Some(EutraElem)
    requires ApplyField(sib, field).Some?
    ensures var c := EutraOf(Overlay(EutraDefaults, Iter(field, "field")));
            c.Some? && ApplyField(sib, field).value.inter == sib.inter[c.value.freq := c.value]
  {
  }

  /**
   * The defaults of the serving-cell element: with no `priority` field the
   * element fails, and with no `s_PrioritySearch2` field that setting is 0.
   */
  lemma ServDefaultsApplied(field: Element)
    ensures var es := Iter(field, "field");
            LastNamed(es, Some(Priority)).None? ==> ServOf(Overlay(ServDefaults, es)).None?
    ensures var es := Iter(field, "field"); var r := ServOf(Overlay(ServDefaults, es));
            LastNamed(es, Some(SPrioritySearch2)).None? && r.Some? ==> r.value.sPrioritySearch2 == Some(0)
  {
    ServScaling(Overlay(ServDefaults, Iter(field, "field")));
    FieldValue(ServDefaults, field, Priority);
    FieldValue(ServDefaults, field, SPrioritySearch2);
    ServDefaultValues();
  }

  /** `priority` defaults to None and `s_PrioritySearch2` to 0. */
  lemma ServDefaultValues()
    ensures Val(ServDefaults, Priority) == PyNone && Val(ServDefaults, SPrioritySearch2) == PyInt(0)
  {
  }

  /** The defaults of the cell selection element: missing search thresholds are 0. */
  lemma IntraSearchDefaults(field: Element)
    ensures var es := Iter(field, "field"); var r := IntraOf(Overlay(IntraDefaults, es));
            r.Some? ==> (LastNamed(es, Some(SIntrasearch)).None? ==> r.value.sIntraSearch == Some(0))
                        && (LastNamed(es, Some(SIntersearch)).None? ==> r.value.sInterSearch == Some(0))
  {
    IntraScaling(Overlay(IntraDefaults, Iter(field, "field")));
    FieldValue(IntraDefaults, field, SIntrasearch);
    FieldValue(IntraDefaults, field, SIntersearch);
    IntraSearchZero();
  }

  /** The two search thresholds default to 0. */
  lemma IntraSearchZero()
    ensures Val(IntraDefaults, SIntrasearch) == PyInt(0) && Val(IntraDefaults, SIntersearch) == PyInt(0)
  {
  }

  /**
   * A cell selection element without `q_HYST_2_S` takes `q_Hyst_l_S`'s
   * (doubled) value for it, and one without `q_Hyst_l_S` fails.
   */
  lemma IntraHystDefaults(field: Element)
    ensures var es := Iter(field, "field"); var r := IntraOf(Overlay(IntraDefaults, es));
            r.Some? && LastNamed(es, Some(QHyst2)).None? ==> r.value.qHyst2 == r.value.qHyst1
    ensures var es := Iter(field, "field");
            LastNamed(es, Some(QHyst1)).None? ==> IntraOf(Overlay(IntraDefaults, es)).None?
  {
    IntraScaling(Overlay(IntraDefaults, Iter(field, "field")));
    FieldValue(IntraDefaults, field, QHyst2);
    FieldValue(IntraDefaults, field, QHyst1);
    IntraHystUnset();
  }

  /** Both hysteresis fields default to None. */
  lemma IntraHystUnset()
    ensures Val(IntraDefaults, QHyst1) == PyNone && Val(IntraDefaults, QHyst2) == PyNone
  {
  }

  /**
   * The defaults of the EUTRA element: a missing `qRxLevMinEUTRA` is stored as
   * -280 (-140 doubled), and a missing `earfcn` makes the element fail.
   */
  lemma EutraDefaultsApplied(field: Element)
    ensures var es := Iter(field, "field"); var r := EutraOf(Overlay(EutraDefaults, es));
            LastNamed(es, Some(QRxLevMinEutra)).None? && r.Some? ==> r.value.qRxLevMin == -280
    ensures var es := Iter(field, "field");
            LastNamed(es, Some(Earfcn)).None? ==> EutraOf(Overlay(EutraDefaults, es)).None?
  {
    EutraScaling(Overlay(EutraDefaults, Iter(field, "field")));
    FieldValue(EutraDefaults, field, QRxLevMinEutra);
    FieldValue(EutraDefaults, field, Earfcn);
    EutraDefaultValues();
  }

  /** `qRxLevMinEUTRA` defaults to -140 and `earfcn` to None. */
  lemma EutraDefaultValues()
    ensures Val(EutraDefaults, QRxLevMinEutra) == PyInt(-140) && Val(EutraDefaults, Earfcn) == PyNone
  {
  }

  /**
   * The body of the SIB callback's loop for one field, apart from the lazy
   * creation of the configuration: the element's `field_val` table (its
   * defaults overlaid with its descendants' `show` values) turned into the
   * record it sets.
   */
  method NextSib(sib: Sib, field: Element) returns (r: Option<Sib>)
    ensures r == ApplyField(sib, field)
  {
    var name := field.Get("name");
    if name == Some(ServElem) {
      var fv := CollectFieldVals(field, ServDefaults);
      var serv := ServOf(fv);
      if serv.None? {
        return None;
      }
      return Some(sib.(serv := serv.value));
    }
    if name == Some(IntraElem) {
      var fv := CollectFieldVals(field, IntraDefaults);
      var intra := IntraOf(fv);
      if intra.None? {
        return None;
      }
      return Some(sib.(intra := intra.value));
    }
    if name == Some(EutraElem) {
      var fv := CollectFieldVals(field, EutraDefaults);
      var neighbor := EutraOf(fv);
      if neighbor.None? {
        return None;
      }
      return Some(sib.(inter := sib.inter[neighbor.value.freq := neighbor.value]));
    }
    return Some(sib);
  }

  /** A cell's configuration: the status object it was created with and its idle-state settings. */
  class WcdmaRrcConfig {
    const status: WcdmaRrcStatus
    var sib: Sib

    constructor(status: WcdmaRrcStatus)
      ensures this.status == status && sib == DefaultSib
    {
      this.status := status;
      sib := DefaultSib;
    }

    /**
     * The reselection settings toward `freq`: the hysteresis of the
     * intra-frequency record on the cell's own frequency, the stored
     * neighbour's settings on a known EUTRA frequency, None otherwise.
     */
    function GetCellReselectionConfig(cell: PyVal, freq: PyVal): (r: Option<ReselectionConfig>)
      reads this, status
      ensures freq == status.freq ==> r == Some(ReselectionConfig(cell, freq, None, sib.intra.qHyst1, None, None))
      ensures freq != status.freq ==> (r.Some? <==> freq.PyInt? && freq.i in sib.inter)
      ensures r.Some? && freq != status.freq ==>
                var fc := sib.inter[freq.i];
                r.value == ReselectionConfig(cell, freq, Some(fc.priority), sib.serv.sPrioritySearch2,
                                             Some(fc.threshxHigh), Some(fc.threshxLow))
    {
      if freq == status.freq then
        Some(ReselectionConfig(cell, freq, None, sib.intra.qHyst1, None, None))
      else if !(freq.PyInt? && freq.i in sib.inter) then
        None
      else
        var fc := sib.inter[freq.i];
        Some(ReselectionConfig(cell, freq, Some(fc.priority), sib.serv.sPrioritySearch2,
                               Some(fc.threshxHigh), Some(fc.threshxLow)))
    }
  }

  /**
   * After an EUTRA element for frequency f, a configuration asked about f
   * (other than its own frequency) returns that element's priority and
   * thresholds, with the serving cell's `s_PrioritySearch2`.
   */
  lemma ReselectionAfterEutra(c: WcdmaRrcConfig, prev: Sib, field: Element, cell: PyVal)
    requires field.Get("name") == Some(EutraElem) && ApplyField(prev, field).Some?
    requires c.sib == ApplyField(prev, field).value
    ensures var e := EutraOf(Overlay(EutraDefaults, Iter(field, "field")));
            && e.Some?
            && (PyInt(e.value.freq) != c.status.freq ==>
                  c.GetCellReselectionConfig(cell, PyInt(e.value.freq))
                  == Some(ReselectionConfig(cell, PyInt(e.value.freq), Some(e.value.priority), c.sib.serv.sPrioritySearch2,
                                            Some(e.value.threshxHigh), Some(e.value.threshxLow))))
  {
    EutraStored(prev, field);
  }

  /** A cell key of the configuration table: the (cell id, frequency) pair. */
  type CellKey = (PyVal, PyVal)

  const SignalingType: string := "WCDMA_Signaling_Messages"

  /** Some field of the message is one of the three SIB elements. */
  predicate HasSibElement(fields: seq<Element>) {
    exists k :: 0 <= k < |fields| && IsSibElement(fields[k])
  }

  /** A record whose `Msg` parses as XML, of a WCDMA signalling message: the one kind the SIB callback sees. */
  predicate SibMessage(typeId: string, data: map<string, PyVal>, parse: XmlParser) {
    && typeId == SignalingType
    && "Msg" in data && data["Msg"].PyStr? && parse(data["Msg"].s).Some?
  }

  class WcdmaRrcAnalyzer {
    /** The current serving cell status. */
    var status: WcdmaRrcStatus
    /** Timestamp -> the status that became current at that time. */
    var history: map<Timestamp, WcdmaRrcStatus>
    /** (cell id, frequency) -> that cell's configuration. */
    var config: map<CellKey, WcdmaRrcConfig>

    /** Each cell has its own configuration object. */
    predicate Valid()
      reads this
    {
      forall p, q {:trigger config[p], config[q]} :: p in config && q in config && p != q ==> config[p] != config[q]
    }

    constructor()
      ensures Valid()
      ensures status.Snapshot() == Unset && history == map[] && config == map[]
    {
      status := new WcdmaRrcStatus();
      history := map[];
      config := map[];
    }

    function CurPair(): CellKey
      reads this, status
    {
      (status.id, status.freq)
    }

    /** `get_cell_list`: the cells that have a configuration. */
    function GetCellList(): (cells: set<CellKey>)
      reads this
      ensures forall c :: c in cells <==> GetCellConfig(c).Some?
    {
      config.Keys
    }

    /** `get_cell_config`: a cell's configuration, None for a cell never configured. */
    function GetCellConfig(cell: CellKey): (r: Option<WcdmaRrcConfig>)
      reads this
      ensures r.Some? <==> cell in config
      ensures r.Some? ==> r.value == config[cell]
    {
      if cell in config then Some(config[cell]) else None
    }

    /** `get_cur_cell`: the current status object itself. */
    function GetCurCell(): (r: WcdmaRrcStatus)
      reads this
      ensures r == status
    {
      status
    }

    /** `get_cur_cell_config`: the configuration of the current (id, freq) pair. */
    function GetCurCellConfig(): (r: Option<WcdmaRrcConfig>)
      reads this, status
      ensures r == GetCellConfig(CurPair())
    {
      var cur := (status.id, status.freq);
      if cur in config then Some(config[cur]) else None
    }

    /**
     * `__callback_serv_cell`: before initialisation, each present key fills
     * its slot of the current status object; afterwards each present key that
     * differs from the current status replaces the status by a fresh one that
     * holds only that key, and the history records the NEW status at the
     * event's timestamp.
     */
    method CallbackServCell(data: map<string, PyVal>, timestamp: Timestamp)
      requires Valid()
      modifies this, status
      ensures Valid() && config == old(config)
      ensures status.Snapshot() == ServCellNext(old(status.Snapshot()), data)
      ensures !old(status.Inited()) ==> status == old(status) && history == old(history)
      ensures old(status.Inited()) ==> old(status).Snapshot() == old(status.Snapshot())
      ensures old(status.Inited()) && Cascade(old(status.Snapshot()), data).replaced ==>
                fresh(status) && history == old(history)[timestamp := status]
      ensures old(status.Inited()) && !Cascade(old(status.Snapshot()), data).replaced ==>
                status == old(status) && history == old(history)
    {
      if !status.Inited() {
        FillStatus(data);
      } else {
        CheckStatus(data, timestamp);
      }
    }

    /** The fill of a status that is not initialised: each present key overwrites its slot. */
    method FillStatus(data: map<string, PyVal>)
      modifies status
      ensures status.Snapshot() == Fill(old(status.Snapshot()), data)
    {
      ghost var f := status.Snapshot();
      if KeyOf(Freq) in data {
        status.Set(Freq, data[KeyOf(Freq)]);
      }
      f := FillStep(f, data, Freq);
      if KeyOf(Id) in data {
        status.Set(Id, data[KeyOf(Id)]);
      }
      f := FillStep(f, data, Id);
      if KeyOf(Lac) in data {
        status.Set(Lac, data[KeyOf(Lac)]);
      }
      f := FillStep(f, data, Lac);
      if KeyOf(Rac) in data {
        status.Set(Rac, data[KeyOf(Rac)]);
      }
      f := FillStep(f, data, Rac);
      assert status.Snapshot() == f;
    }

    /** The four checks of an initialised status, in the order freq, id, lac, rac. */
    method CheckStatus(data: map<string, PyVal>, timestamp: Timestamp)
      requires status.Inited()
      modifies this
      ensures config == old(config)
      ensures status.Snapshot() == Cascade(old(status.Snapshot()), data).status
      ensures Cascade(old(status.Snapshot()), data).replaced ==>
                fresh(status) && history == old(history)[timestamp := status]
      ensures !Cascade(old(status.Snapshot()), data).replaced ==>
                status == old(status) && history == old(history)
    {
      ghost var st := status.Snapshot();
      ghost var h0 := history;
      ghost var c := Change(st, false);
      c := CheckSlot(Freq, data, timestamp, c, h0);
      c := CheckSlot(Id, data, timestamp, c, h0);
      c := CheckSlot(Lac, data, timestamp, c, h0);
      c := CheckSlot(Rac, data, timestamp, c, h0);
      assert c.replaced ==> !status.Inited();
    }

    /**
     * One check of an initialised status: when the event carries the slot's
     * key with a different value, a fresh status holding only that value
     * becomes current and is recorded in the history at the timestamp.
     */
    method CheckSlot(s: Slot, data: map<string, PyVal>, timestamp: Timestamp, ghost c: Change,
                     ghost h0: map<Timestamp, WcdmaRrcStatus>)
      returns (ghost next: Change)
      requires status.Snapshot() == c.status
      requires history == if c.replaced then h0[timestamp := status] else h0
      modifies this
      ensures config == old(config)
      ensures next == ChangeStep(c, data, s) && status.Snapshot() == next.status
      ensures history == if next.replaced then h0[timestamp := status] else h0
      ensures status == old(status) || fresh(status)
      ensures !next.replaced ==> status == old(status)
    {
      next := ChangeStep(c, data, s);
      if KeyOf(s) in data && status.Snapshot().Get(s) != data[KeyOf(s)] {
        status := new WcdmaRrcStatus();
        status.Set(s, data[KeyOf(s)]);
        history := history[timestamp := status];
      }
    }

    /** The lazy creation of the current cell's configuration, bound to the current status object. */
    method EnsureConfig(pair: CellKey)
      requires Valid()
      modifies this
      ensures Valid() && status == old(status) && history == old(history)
      ensures pair in config
      ensures pair in old(config) ==> config == old(config)
      ensures pair !in old(config) ==> config == old(config)[pair := config[pair]] && fresh(config[pair])
                                       && config[pair].status == status && config[pair].sib == DefaultSib
    {
      if pair !in config {
        var c := new WcdmaRrcConfig(status);
        config := config[pair := c];
      }
    }

    /**
     * `__callback_sib_config`: ignored while the cell id is None; otherwise
     * every `field` element of the message (document order) is applied to the
     * configuration of the current (id, freq) pair, which is created, bound to
     * the current status object, as soon as a SIB element is met. A field
     * whose `int()` conversion fails ends the callback (`ok` false) with the
     * changes made so far, including a configuration just created.
     */
    method CallbackSibConfig(data: Element) returns (ok: bool)
      requires Valid()
      modifies this, config.Values
      ensures Valid() && status == old(status) && history == old(history)
      ensures old(status.id) == PyNone ==> ok && config == old(config)
      ensures old(status.id) != PyNone ==>
                var fields := Iter(data, "field");
                var pair := CurPair();
                var start := if pair in old(config) then old(config[pair].sib) else DefaultSib;
                var run := ConfigFold(start, fields, |fields|);
                && ok == run.ok
                && (pair in config <==> pair in old(config) || HasSibElement(fields))
                && (pair in config ==> config[pair].sib == run.sib)
                && (pair in old(config) || pair !in config ==> config == old(config))
                && (pair !in old(config) && pair in config ==>
                      fresh(config[pair]) && config[pair].status == status && config == old(config)[pair := config[pair]])
      ensures forall p :: p in old(config) && (old(status.id) == PyNone || p != CurPair()) ==>
                config[p].sib == old(config[p].sib)
    {
      ok := true;
      if status.id == PyNone {
        return;
      }
      var fields := Iter(data, "field");
      var pair := (status.id, status.freq);
      ghost var start := if pair in config then config[pair].sib else DefaultSib;
      ghost var runs := RunsOfFold(start, fields);
      ghost var n;
      ok, n := ApplySibFields(fields, pair, runs);
      RunsOfUnique(start, fields, runs, n);
      if !ok {
        ConfigFoldStopped(start, fields, n, |fields|);
      }
    }

    /**
     * The loop of the SIB callback over the message's fields, up to the
     * first failure: on return the first `n` fields are applied, all of them
     * when `ok` holds.
     */
    method ApplySibFields(fields: seq<Element>, pair: CellKey, ghost runs: seq<SibRun>)
      returns (ok: bool, ghost n: nat)
      requires Valid() && |runs| == |fields| + 1
      requires RunsOf(runs[0].sib, fields, runs)
      requires runs[0].sib == if pair in config then config[pair].sib else DefaultSib
      modifies this, config.Values
      ensures status == old(status) && history == old(history)
      ensures n <= |fields| && (ok ==> n == |fields|) && ok == runs[n].ok
      ensures Progress(pair, runs, fields, n, old(config), map p | p in old(config) :: old(config[p].sib))
      ensures pair !in old(config) && pair in config ==> fresh(config[pair])
    {
      ghost var c0 := config;
      ghost var sibs0 := map p | p in config :: config[p].sib;
      ok := true;
      var i := 0;
      while i < |fields|
        invariant 0 <= i <= |fields|
        invariant status == old(status) && history == old(history)
        invariant Progress(pair, runs, fields, i, c0, sibs0) && runs[i].ok
        invariant pair !in old(config) && pair in config ==> fresh(config[pair])
      {
        ok := ApplySibField(fields, i, pair, runs, c0, sibs0);
        if !ok {
          return ok, i + 1;
        }
        i := i + 1;
      }
      n := i;
    }

    /**
     * How far the SIB callback has come after the first `i` fields: the
     * configuration of `pair` exists once a SIB element has been met and
     * holds the fold of those fields, and every other cell is as it was.
     */
    ghost predicate Progress(pair: CellKey, runs: seq<SibRun>, fields: seq<Element>, i: nat,
                             c0: map<CellKey, WcdmaRrcConfig>, sibs0: map<CellKey, Sib>)
      reads this, config.Values
    {
      && i < |runs|
      && i <= |fields|
      && Valid()
      && (pair in config <==> pair in c0 || exists k :: 0 <= k < i && IsSibElement(fields[k]))
      && (pair !in config ==> runs[i] == SibRun(DefaultSib, true))
      && (pair in config ==> config[pair].sib == runs[i].sib)
      && (pair in c0 || pair !in config ==> config == c0)
      && (pair !in c0 && pair in config ==> config == c0[pair := config[pair]] && config[pair].status == status)
      && (forall p :: p in sibs0 && p != pair ==> p in config && config[p].sib == sibs0[p])
    }

    /**
     * One iteration of the SIB callback's loop: the field at `i` applied to
     * the configuration of `pair`, created first if the field is a SIB
     * element; `ok` is false when its `int()` conversions fail.
     */
    method ApplySibField(fields: seq<Element>, i: nat, pair: CellKey, ghost runs: seq<SibRun>,
                         ghost c0: map<CellKey, WcdmaRrcConfig>, ghost sibs0: map<CellKey, Sib>)
      returns (ok: bool)
      requires i < |fields| && |runs| == |fields| + 1
      requires RunsOf(runs[0].sib, fields, runs)
      requires Progress(pair, runs, fields, i, c0, sibs0) && runs[i].ok
      modifies this, config.Values
      ensures status == old(status) && history == old(history)
      ensures Progress(pair, runs, fields, i + 1, c0, sibs0)
      ensures ok == runs[i + 1].ok
      ensures pair in old(config) ==> config[pair] == old(config[pair])
      ensures pair !in old(config) && pair in config ==> fresh(config[pair])
    {
      var field := fields[i];
      assert runs[i + 1] == StepRun(runs[i], field);
      ok := true;
      if IsSibElement(field) {
        EnsureConfig(pair);
        var c := config[pair];
        var next := NextSib(c.sib, field);
        if next.None? {
          ok := false;
          return;
        }
        c.sib := next.value;
      }
    }

    /**
     * `__rrc_filter`: every record updates the serving cell status; a record
     * carrying a `Msg` is parsed as XML (failing when the text is not a
     * well-formed document), and a WCDMA signalling message then updates the
     * SIB configuration.
     */
    method RrcFilter(timestamp: Timestamp, typeId: string, data: map<string, PyVal>, parse: XmlParser)
      returns (ok: bool)
      requires Valid()
      modifies this, status, config.Values
      ensures Valid()
      ensures status.Snapshot() == ServCellNext(old(status.Snapshot()), data)
      ensures !old(status.Inited()) ==> status == old(status) && history == old(history)
      ensures old(status.Inited()) ==> old(status).Snapshot() == old(status.Snapshot())
      ensures old(status.Inited()) && Cascade(old(status.Snapshot()), data).replaced ==>
                fresh(status) && history == old(history)[timestamp := status]
      ensures old(status.Inited()) && !Cascade(old(status.Snapshot()), data).replaced ==>
                status == old(status) && history == old(history)
      ensures old(config).Keys <= config.Keys
      ensures "Msg" !in data ==> ok && config == old(config)
      ensures "Msg" in data && !(data["Msg"].PyStr? && parse(data["Msg"].s).Some?) ==> !ok && config == old(config)
      ensures "Msg" in data && typeId != SignalingType ==> config == old(config)
      ensures "Msg" in data && data["Msg"].PyStr? && parse(data["Msg"].s).Some? && typeId != SignalingType ==> ok
      ensures forall p :: p in old(config) && (!SibMessage(typeId, data, parse) || status.id == PyNone || p != CurPair()) ==>
                config[p] == old(config[p]) && config[p].sib == old(config[p].sib)
      ensures SibMessage(typeId, data, parse) && status.id == PyNone ==> ok && config == old(config)
      ensures SibMessage(typeId, data, parse) && status.id != PyNone ==>
                var fields := Iter(parse(data["Msg"].s).value, "field");
                var pair := CurPair();
                var start := if pair in old(config) then old(config[pair].sib) else DefaultSib;
                var run := ConfigFold(start, fields, |fields|);
                && ok == run.ok
                && (pair in config <==> pair in old(config) || HasSibElement(fields))
                && (pair in config ==> config[pair].sib == run.sib)
                && (pair in old(config) || pair !in config ==> config == old(config))
                && (pair !in old(config) && pair in config ==>
                      fresh(config[pair]) && config[pair].status == status && config == old(config)[pair := config[pair]])
    {
      CallbackServCell(data, timestamp);
      ok := true;
      if "Msg" !in data {
        return;
      }
      var m := data["Msg"];
      if !m.PyStr? {
        ok := false;
        return;
      }
      var xml := parse(m.s);
      if xml.None? {
        ok := false;
        return;
      }
      if typeId == SignalingType {
        ok := CallbackSibConfig(xml.value);
      }
    }
  }
}
