/** Building whole banks (internal/sunspec/encoder.go, per_inverter.go). */
module Encoder {
  import opened Prelude
  import opened Snapshots
  import opened Banks
  import opened Models
  import Events
  import Params
  import Controls
  import DerTrip
  import FreqDroop
  import FreqWattCurve

  datatype PhaseMode = PhaseAuto | PhaseSingle | PhaseSplit | PhaseThree

  datatype Options = Options(
    manufacturer: string, modelName: string, serialOverride: string, serialFallback: string,
    phase: PhaseMode, disableMPPT: bool)

  function ModelId(m: PhaseMode): (id: u16)
    ensures 101 <= id <= 103
  {
    match m
    case PhaseSplit => 102
    case PhaseThree => 103
    case _ => 101
  }

  function PhasesUsed(m: PhaseMode): nat {
    match m
    case PhaseSplit => 2
    case PhaseThree => 3
    case _ => 1
  }

  /** The phases on which some inverter is online. */
  function LivePhases(invs: seq<Inverter>): set<nat> {
    set i | 0 <= i < |invs| && invs[i].online :: Params.PhaseBucket(invs[i])
  }

  lemma CountPhases(phases: set<nat>)
    requires forall p :: p in phases ==> p < 3
    ensures |phases| == (if 0 in phases then 1 else 0) + (if 1 in phases then 1 else 0) + (if 2 in phases then 1 else 0)
  {
    var rest := phases - {0} - {1} - {2};
    assert rest == {};
    assert |phases - {0}| == |phases| - (if 0 in phases then 1 else 0);
    assert |phases - {0} - {1}| == |phases - {0}| - (if 1 in phases then 1 else 0);
    assert |rest| == |phases - {0} - {1}| - (if 2 in phases then 1 else 0);
  }

  /** The smallest model that fits the phases in use. */
  method DetectPhase(s: Snapshot) returns (m: PhaseMode)
    ensures m == FittingMode(s)
    ensures !m.PhaseAuto? && (1 < |LivePhases(s.inverters)| ==> PhasesUsed(m) == |LivePhases(s.inverters)|)
  {
    var invs := s.inverters;
    var seen := [false, false, false, false];
    for i := 0 to |invs|
      invariant |seen| == 4
      invariant seen[1] <==> 0 in LivePhases(invs[..i])
      invariant seen[2] <==> 1 in LivePhases(invs[..i])
      invariant seen[3] <==> 2 in LivePhases(invs[..i])
    {
      var ph := if 1 <= invs[i].phase <= 3 then invs[i].phase else 1;
      PhasesGrow(invs, i, 0);
      PhasesGrow(invs, i, 1);
      PhasesGrow(invs, i, 2);
      if invs[i].online {
        seen := seen[ph := true];
      }
    }
    assert invs[..|invs|] == invs;
    CountPhases(LivePhases(invs));
    var count := 0;
    for i := 1 to 4
      invariant count == (if i > 1 && seen[1] then 1 else 0) + (if i > 2 && seen[2] then 1 else 0) + (if i > 3 && seen[3] then 1 else 0)
    {
      if seen[i] {
        count := count + 1;
      }
    }
    m := if count <= 1 then PhaseSingle else if count == 2 then PhaseSplit else PhaseThree;
  }

  lemma PhasesGrow(invs: seq<Inverter>, i: nat, p: nat)
    requires i < |invs|
    ensures p in LivePhases(invs[..i + 1]) <==> p in LivePhases(invs[..i]) || (invs[i].online && Params.PhaseBucket(invs[i]) == p)
  {
    if p in LivePhases(invs[..i]) {
      var j :| 0 <= j < i && invs[..i][j].online && Params.PhaseBucket(invs[..i][j]) == p;
      assert invs[..i + 1][j] == invs[..i][j];
    }
    if invs[i].online && Params.PhaseBucket(invs[i]) == p {
      assert invs[..i + 1][i] == invs[i];
    }
    if p in LivePhases(invs[..i + 1]) {
      var j :| 0 <= j < i + 1 && invs[..i + 1][j].online && Params.PhaseBucket(invs[..i + 1][j]) == p;
      assert j < i ==> invs[..i][j] == invs[..i + 1][j];
    }
  }

  function FittingMode(s: Snapshot): PhaseMode {
    var n := |LivePhases(s.inverters)|;
    if n <= 1 then PhaseSingle else if n == 2 then PhaseSplit else PhaseThree
  }

  function ModeFor(s: Snapshot, opt: Options): PhaseMode {
    if opt.phase == PhaseAuto then FittingMode(s) else opt.phase
  }

  function StrOr(a: string, b: string): string {
    if a != "" then a else b
  }

  function SerialFor(s: Snapshot, opt: Options): string {
    StrOr(opt.serialOverride, StrOr(s.ecuid, opt.serialFallback))
  }

  function PhaseValue(v: u16, idx: nat, used: nat): u16 {
    if idx < used then v else NOT_IMPL_U16
  }

  function PhaseReal(v: real, idx: nat, used: nat): Option<real> {
    if idx < used then Some(v) else None
  }

  function AggregateState(s: Snapshot): u16 {
    if s.inverterOnlineCount == 0 then ST_SLEEP else if s.systemPowerW > 0 then ST_MPPT else ST_STANDBY
  }

  function InverterState(inv: Inverter): u16 {
    if !inv.online then ST_SLEEP else if inv.acPowerW > 0 then ST_MPPT else ST_STANDBY
  }

  // ---- Choices the program leaves open --------------------------------------------------

  /** The record standing for the fleet: the first inverter's that has one, otherwise any
      (map iteration order), otherwise the empty record. */
  ghost predicate IsAggregateProtection(s: Snapshot, p: Protection) {
    if s.protection == map[] then p == NO_PROTECTION
    else if exists i :: 0 <= i < |s.inverters| && s.inverters[i].uid in s.protection then
      exists i :: FirstReported(s, i) && p == s.protection[s.inverters[i].uid]
    else exists uid :: uid in s.protection && p == s.protection[uid]
  }

  predicate FirstReported(s: Snapshot, i: int) {
    && 0 <= i < |s.inverters| && s.inverters[i].uid in s.protection
    && forall j :: 0 <= j < i ==> s.inverters[j].uid !in s.protection
  }

  method AggregateProtection(s: Snapshot) returns (p: Protection)
    ensures IsAggregateProtection(s, p)
  {
    if s.protection == map[] {
      return NO_PROTECTION;
    }
    var i := 0;
    while i < |s.inverters|
      invariant 0 <= i <= |s.inverters|
      invariant forall j :: 0 <= j < i ==> s.inverters[j].uid !in s.protection
    {
      if s.inverters[i].uid in s.protection {
        assert FirstReported(s, i);
        return s.protection[s.inverters[i].uid];
      }
      i := i + 1;
    }
    assert s.protection.Keys != {};
    var uid :| uid in s.protection;
    return s.protection[uid];
  }

  predicate HasVRef(p: Protection) {
    "AB" in p.has && p.avgOV > 0.0
  }

  function VRefOf(p: Protection): int {
    Trunc(p.avgOV / 1.10 + 0.5)
  }

  /** The nominal voltage backed out of any record that has the 10-minute limit. */
  ghost predicate IsNominalVRef(s: Snapshot, v: int) {
    if exists uid :: uid in s.protection && HasVRef(s.protection[uid]) then
      exists uid :: uid in s.protection && HasVRef(s.protection[uid]) && v == VRefOf(s.protection[uid])
    else v == 0
  }

  method NominalVRefV(s: Snapshot) returns (v: int)
    ensures IsNominalVRef(s, v)
  {
    var uids := s.protection.Keys;
    while uids != {}
      invariant uids <= s.protection.Keys
      invariant forall uid :: uid in s.protection && uid !in uids ==> !HasVRef(s.protection[uid])
      decreases uids
    {
      var uid :| uid in uids;
      var p := s.protection[uid];
      if "AB" in p.has && p.avgOV > 0.0 {
        return Trunc(p.avgOV / 1.10 + 0.5);
      }
      uids := uids - {uid};
    }
    return 0;
  }

  // ---- The aggregate bank ------------------------------------------------------------------

  function AggregateReadings(s: Snapshot, used: nat): Readings {
    var v := Real16(s.gridVoltageV + 0.5);
    Readings(
      Params.CurrentReg(s, Params.LiveW(s.inverters)),
      PhaseValue(Params.CurrentReg(s, Params.PhaseW(s.inverters, 0)), 0, used),
      PhaseValue(Params.CurrentReg(s, Params.PhaseW(s.inverters, 1)), 1, used),
      PhaseValue(Params.CurrentReg(s, Params.PhaseW(s.inverters, 2)), 2, used),
      PhaseValue(v, 0, used), PhaseValue(v, 1, used), PhaseValue(v, 2, used),
      Wrap16(Clamp(s.systemPowerW, -32760, 32760)), Real16(s.gridFrequencyHz * 100.0 + 0.5), s.lifetimeEnergyWh,
      Wrap16(Clamp(Int32(s.maxTemperatureC), -100, 200)), AggregateState(s), Events.AggregateEventBits(s.inverters))
  }

  function AggregateFloats(s: Snapshot, used: nat): (r: FloatReadings)
    ensures |r.fields| == 23
  {
    var r, v := AggregateReadings(s, 3), s.gridVoltageV;
    FloatReadings([
      Some(r.amps as real / 10.0), PhaseReal(r.aphA as real / 10.0, 0, used),
      PhaseReal(r.aphB as real / 10.0, 1, used), PhaseReal(r.aphC as real / 10.0, 2, used),
      None, None, None, PhaseReal(v, 0, used), PhaseReal(v, 1, used), PhaseReal(v, 2, used),
      Some(s.systemPowerW as real), Some(s.gridFrequencyHz), None, None, None, Some(s.lifetimeEnergyWh as real),
      None, None, None, Some(s.maxTemperatureC as real), None, None, None],
      r.st, r.bits)
  }

  function FleetW(s: Snapshot, env: Env): int {
    if s.systemMaxPowerW > 0 then s.systemMaxPowerW else TotalNameplateW(s.inverters, env.nameplates)
  }

  /** Sound blocks of the given body lengths, none of them a writable model. */
  predicate Monitors(bs: seq<Block>, lens: seq<nat>) {
    && |bs| == |lens|
    && forall i :: 0 <= i < |bs| ==> Sound(bs[i]) && bs[i].id <= 121 && |bs[i].body| == lens[i]
  }

  lemma MonitorsNext(bs: seq<Block>, lens: seq<nat>, b: Block)
    requires Monitors(bs, lens) && Sound(b) && b.id <= 121
    ensures Monitors(bs + [b], lens + [|b.body|])
  {
  }

  function CommonFive(common: Block, inverter: Block, float: Block, dc: Block, nameplate: Block): (bs: seq<Block>)
    requires common.id == 1 && common.len == |common.body| == 66
    requires 101 <= inverter.id <= 103 && inverter.len == |inverter.body| == 50
    requires 111 <= float.id <= 113 && float.len == |float.body| == 60
    requires dc.id == 114 && dc.len == |dc.body| == 48
    requires nameplate.id == 120 && nameplate.len == |nameplate.body| == 26
    ensures Monitors(bs, [66, 50, 60, 48, 26])
  {
    [common, inverter, float, dc, nameplate]
  }

  function AggregateMonitor(s: Snapshot, opt: Options, env: Env, vref: int): seq<Block> {
    var mode := ModeFor(s, opt);
    var used := PhasesUsed(mode);
    CommonFive(
      CommonBlock(StrOr(opt.manufacturer, "APsystems"), StrOr(opt.modelName, StrOr(s.model, "ECU-R-Pro")),
                  StrOr(s.firmware, "0"), SerialFor(s, opt), 1),
      InverterBlock(ModelId(mode), AggregateReadings(s, used)),
      FloatBlock(env, ModelId(mode) + 10, AggregateFloats(s, used)),
      DCDataBlock(env, FirstEight(AllPanels(s.inverters)), ChannelV, ChannelA),
      NameplateBlock(FleetW(s, env))) +
    [SettingsBlock(TotalLimitedW(s.inverters, env.nameplates), vref)]
  }

  lemma AggregateMonitors(s: Snapshot, opt: Options, env: Env, vref: int)
    ensures Monitors(AggregateMonitor(s, opt, env, vref), [66, 50, 60, 48, 26, 30])
  {
    hide CommonFive, CommonBlock, InverterBlock, FloatBlock, DCDataBlock, NameplateBlock, SettingsBlock;
    var bs := AggregateMonitor(s, opt, env, vref);
    MonitorsNext(bs[..5], [66, 50, 60, 48, 26], bs[5]);
  }

  /** Sound blocks with the given identifiers and body lengths. */
  predicate Shaped(bs: seq<Block>, ids: seq<u16>, lens: seq<nat>) {
    && |bs| == |ids| == |lens|
    && forall i :: 0 <= i < |bs| ==> Sound(bs[i]) && bs[i].id == ids[i] && |bs[i].body| == lens[i]
  }

  function GridSeven(lv: Block, hv: Block, lf: Block, hf: Block, es: Block, droop: Block, curve: Block): (bs: seq<Block>)
    requires lv.id == 707 && lv.len == |lv.body| == 38 && hv.id == 708 && hv.len == |hv.body| == 38
    requires lf.id == 709 && lf.len == |lf.body| == 47 && hf.id == 710 && hf.len == |hf.body| == 47
    requires es.id == 703 && es.len == |es.body| == 17 && droop.id == 711 && droop.len == |droop.body| == 22
    requires curve.id == 134 && curve.len == |curve.body| == 68
    ensures Shaped(bs, GRID_IDS, GRID_LENS)
  {
    [lv, hv, lf, hf, es, droop, curve]
  }

  /** Models 707-710, 703, 711 and 134 of one protection record. */
  function GridBlocks(p: Protection, vNom: real, rslt: u16, req: u16): (bs: seq<Block>)
    ensures Shaped(bs, GRID_IDS, GRID_LENS)
  {
    GridSeven(DerTrip.LvBlock(p, vNom), DerTrip.HvBlock(p, vNom), DerTrip.LfBlock(p), DerTrip.HfBlock(p),
              DerTrip.EnterServiceBlock(p, vNom), FreqDroop.DroopBlock(p, rslt, req), FreqWattCurve.CurveBlock(p))
  }

  const GRID_LENS: seq<nat> := [38, 38, 47, 47, 17, 22, 68]

  const GRID_IDS: seq<u16> := [707, 708, 709, 710, 703, 711, 134]

  function AggregateControls(s: Snapshot, env: Env): (b: Block)
    ensures b.id == Controls.MODEL && b.len == |b.body| == 24
  {
    Controls.ControlsBlock(Wrap16(Controls.MeanPct(s.inverters, env.nameplates)),
                           Controls.Flag(Controls.AnyLimited(s.inverters)), Controls.Flag(Controls.AnyOnline(s.inverters)))
  }

  function PanelBlocks(opt: Options, ps: seq<Panel>): seq<Block> {
    if opt.disableMPPT then [] else MpptBlocks(ps)
  }

  /** Every block of the aggregate bank.  `p` and `vref` are the open choices, (rslt,
      req) what the write tracker answers for unit 1. */
  function AggregateBlocks(s: Snapshot, opt: Options, env: Env, p: Protection, vref: int, rslt: u16, req: u16): seq<Block> {
    AggregateMonitor(s, opt, env, vref) + [AggregateControls(s, env)] + GridBlocks(p, s.gridVoltageV, rslt, req) +
    PanelBlocks(opt, AllPanels(s.inverters)) + VendorBlocks(s, env.nameplates)
  }

  // ---- Per-inverter banks -------------------------------------------------------------------

  /** Decimal digits of the software version, as `strconv.Itoa` prints them. */
  function Itoa(n: int): string
    decreases n < 0, if n < 0 then -n else n
  {
    if n < 0 then "-" + Itoa(-n)
    else if n < 10 then ["0123456789"[n]]
    else Itoa(n / 10) + ["0123456789"[n % 10]]
  }

  function InverterLabel(inv: Inverter): string {
    if inv.typeCode == "01" then "DS3"
    else if inv.typeCode == "02" then "YC1000"
    else if inv.typeCode == "03" then "QS1"
    else if inv.typeCode == "04" then "DS3-H"
    else if inv.typeCode == "05" then "QT2"
    else if inv.typeCode != "" then "type-" + inv.typeCode
    else "microinverter"
  }

  function InverterReadings(inv: Inverter): Readings {
    var a := if inv.acVoltageV > 0 && inv.acPowerW >= 0 then
               var amps10 := inv.acPowerW as real / inv.acVoltageV as real * 10.0;
               if amps10 < 65535.0 then Real16(amps10 + 0.5) else 0
             else 0;
    Readings(a, a, NOT_IMPL_U16, NOT_IMPL_U16,
      if 0 < inv.acVoltageV < 65535 then inv.acVoltageV else 0, NOT_IMPL_U16, NOT_IMPL_U16,
      Wrap16(Clamp(Int32(inv.acPowerW), -32760, 32760)),
      if inv.frequencyHz > 0.0 then Real16(inv.frequencyHz * 100.0 + 0.5) else 0, 0,
      TmpOf(inv), InverterState(inv), inv.eventBits)
  }

  function InverterFloats(inv: Inverter): (r: FloatReadings)
    ensures |r.fields| == 23
  {
    var a := Some(if inv.acVoltageV > 0 && inv.acPowerW >= 0 then inv.acPowerW as real / inv.acVoltageV as real else 0.0);
    FloatReadings([
      a, a, None, None, None, None, None, Some(inv.acVoltageV as real), None, None, Some(inv.acPowerW as real),
      if inv.frequencyHz > 0.0 then Some(inv.frequencyHz) else None, None, None, None, Some(0.0),
      None, None, None, Some(inv.temperatureC as real), None, None, None],
      InverterState(inv), inv.eventBits)
  }

  /** A register that holds a signed number. */
  predicate Holds16(reg: u16, x: int) {
    reg as int == if x < 0 then x + 65536 else x
  }

  /** What an inverter's bank says of a telegram: signed power, voltage, frequency,
      temperature, state and flags at their offsets in Model 101. */
  lemma InverterIsMeasured(inv: Inverter)
    ensures var b := InverterBlock(INVERTER_MODEL, InverterReadings(inv)).body;
            && (-32760 <= inv.acPowerW <= 32760 ==> Holds16(b[12], inv.acPowerW))
            && (0 < inv.acVoltageV < 65535 ==> b[8] == inv.acVoltageV)
            && (0.0 < inv.frequencyHz <= 655.0 ==> inv.frequencyHz * 100.0 - 0.5 < b[14] as real <= inv.frequencyHz * 100.0 + 0.5)
            && (-100 <= inv.temperatureC <= 200 ==> Holds16(b[31], inv.temperatureC))
            && b[36] == (if !inv.online then 2 else if inv.acPowerW > 0 then 4 else 8)
            && b[38] as int * 65536 + b[39] as int == Events.WordValue(Events.Evt1(inv.eventBits)) as int
  {
    ReadingsAt(INVERTER_MODEL, InverterReadings(inv));
    hide InverterBlock, Events.WordValue, Events.Evt1;
    if 0.0 < inv.frequencyHz <= 655.0 {
      HzIsNearest(inv.frequencyHz);
    }
    SignedHolds(inv.acPowerW, -32760, 32760);
    SignedHolds(inv.temperatureC, -100, 200);
    hide Real16, Wrap16, Int32, Clamp, Holds16;
  }

  lemma SignedHolds(x: int, lo: int, hi: int)
    requires -32768 <= lo <= hi < 32768
    ensures lo <= x <= hi ==> Holds16(Wrap16(Clamp(Int32(x), lo, hi)), x)
  {
  }

  lemma HzIsNearest(hz: real)
    requires 0.0 < hz <= 655.0
    ensures hz * 100.0 - 0.5 < Real16(hz * 100.0 + 0.5) as real <= hz * 100.0 + 0.5
  {
    var x := hz * 100.0 + 0.5;
    assert x.Floor as real <= x < x.Floor as real + 1.0;
  }

  /** What the fleet's bank says: signed power, lifetime energy, state by the inverters
      online, and currents only for the phases in use. */
  lemma FleetIsMeasured(s: Snapshot, id: u16, used: nat)
    requires 1 <= used <= 3
    ensures var b := InverterBlock(id, AggregateReadings(s, used)).body;
            && (-32760 <= s.systemPowerW <= 32760 ==> Holds16(b[12], s.systemPowerW))
            && b[22] as int * 65536 + b[23] as int == s.lifetimeEnergyWh % 0x1_0000_0000
            && b[36] == (if s.inverterOnlineCount == 0 then 2 else if s.systemPowerW > 0 then 4 else 8)
            && b[0] == Params.CurrentReg(s, Params.LiveW(s.inverters))
            && (forall ph :: 0 <= ph < 3 ==> b[ph + 1] == if ph < used then Params.CurrentReg(s, Params.PhaseW(s.inverters, ph)) else 0xFFFF)
            && (used < 3 ==> b[10] == 0xFFFF) && (used < 2 ==> b[9] == 0xFFFF)
            && b[38] as int * 65536 + b[39] as int == Events.WordValue(Events.Evt1(Events.AggregateEventBits(s.inverters))) as int
  {
    ReadingsAt(id, AggregateReadings(s, used));
    hide InverterBlock, Events.WordValue, Events.Evt1, Events.AggregateEventBits, Params.CurrentReg, Real16;
  }

  /** A per-inverter bank leaves voltage and current unimplemented without voltage. */
  function OwnChannelV(p: Panel): Option<real> {
    if p.inv.acVoltageV > 0 then Some(Volts(p.inv)) else None
  }

  function OwnChannelA(p: Panel): Option<real> {
    if p.inv.acVoltageV > 0 then Some(p.powerW as real / Volts(p.inv)) else None
  }

  function InverterMonitor(inv: Inverter, unit: u16, opt: Options, env: Env): (bs: seq<Block>)
    ensures Monitors(bs, [66, 50, 60, 48, 26])
  {
    CommonFive(
      CommonBlock(StrOr(opt.manufacturer, "APsystems"), InverterLabel(inv), Itoa(inv.softwareVer), inv.uid, unit),
      InverterBlock(INVERTER_MODEL, InverterReadings(inv)),
      FloatBlock(env, INVERTER_MODEL + 10, InverterFloats(inv)),
      DCDataBlock(env, PanelsOf(inv), OwnChannelV, OwnChannelA),
      NameplateBlock(NameplateW(inv, env.nameplates)))
  }

  function InverterControls(inv: Inverter, env: Env): (b: Block)
    ensures b.id == Controls.MODEL && b.len == |b.body| == 24
  {
    Controls.ControlsBlock(Wrap16(Controls.InvCapPct(inv, env.nameplates)),
                           Controls.Flag(Controls.Limited(inv)), Controls.Flag(inv.online))
  }

  /** Every block of an inverter's own bank. */
  function InverterBlocks(inv: Inverter, unit: u16, opt: Options, env: Env, p: Protection, rslt: u16, req: u16): seq<Block> {
    InverterMonitor(inv, unit, opt, env) + [InverterControls(inv, env)] +
    GridBlocks(p, inv.acVoltageV as real, rslt, req) + PanelBlocks(opt, PanelsOf(inv))
  }

  // ---- Emission ---------------------------------------------------------------------------------

  /** The monitoring blocks, one after the other. */
  method EmitBlocks(bank: Bank, bs: seq<Block>)
    modifies bank
    ensures bank.regs == old(bank.regs) + RenderAll(bs)
  {
    for i := 0 to |bs|
      invariant bank.regs == old(bank.regs) + RenderAll(bs[..i])
    {
      EmitBlock(bank, bs[i]);
      RenderNext(bs, i);
      Assoc(old(bank.regs), RenderAll(bs[..i]), Render(bs[i]));
    }
    assert bs[..|bs|] == bs;
  }

  lemma RenderNext(bs: seq<Block>, i: nat)
    requires i < |bs|
    ensures RenderAll(bs[..i + 1]) == RenderAll(bs[..i]) + Render(bs[i])
  {
    assert bs[..i + 1] == bs[..i] + [bs[i]];
    RenderConcat(bs[..i], [bs[i]]);
    RenderOne(bs[i]);
  }

  method EmitGrid(bank: Bank, p: Protection, vNom: real, rslt: u16, req: u16)
    modifies bank
    ensures bank.regs == old(bank.regs) + RenderAll(GridBlocks(p, vNom, rslt, req))
  {
    hide DerTrip.LvBlock, DerTrip.HvBlock, DerTrip.LfBlock, DerTrip.HfBlock, DerTrip.EnterServiceBlock;
    hide FreqDroop.DroopBlock, FreqWattCurve.CurveBlock;
    DerTrip.EmitDERTripModels(bank, p, vNom);
    DerTrip.EmitEnterService(bank, p, vNom);
    FreqDroop.EmitFreqDroop(bank, p, rslt, req);
    FreqWattCurve.EmitFreqWattCurve(bank, p);
    RenderSeven(old(bank.regs), GridBlocks(p, vNom, rslt, req));
  }

  lemma RenderSeven(r: seq<u16>, bs: seq<Block>)
    requires |bs| == 7
    ensures r + RenderAll(bs) == r + Render(bs[0]) + Render(bs[1]) + Render(bs[2]) + Render(bs[3]) +
                                 Render(bs[4]) + Render(bs[5]) + Render(bs[6])
  {
    RenderHead(r, bs);
    RenderHead(r + Render(bs[0]), bs[1..]);
    RenderHead(r + Render(bs[0]) + Render(bs[1]), bs[1..][1..]);
    RenderHead(r + Render(bs[0]) + Render(bs[1]) + Render(bs[2]), bs[1..][1..][1..]);
    RenderThree(r + Render(bs[0]) + Render(bs[1]) + Render(bs[2]) + Render(bs[3]), bs[1..][1..][1..][1..]);
  }

  lemma RenderThree(r: seq<u16>, bs: seq<Block>)
    requires |bs| == 3
    ensures r + RenderAll(bs) == r + Render(bs[0]) + Render(bs[1]) + Render(bs[2])
  {
    RenderHead(r, bs);
    RenderHead(r + Render(bs[0]), bs[1..]);
    RenderOne(bs[2]);
    assert bs[1..][1..] == [bs[2]];
  }

  lemma RenderHead(r: seq<u16>, bs: seq<Block>)
    requires bs != []
    ensures r + RenderAll(bs) == r + Render(bs[0]) + RenderAll(bs[1..])
  {
    Assoc(r, Render(bs[0]), RenderAll(bs[1..]));
  }

  method Encode(s: Snapshot, opt: Options, env: Env, rslt: u16, req: u16)
    returns (bank: Bank, ghost p: Protection, ghost vref: int)
    ensures fresh(bank) && IsAggregateProtection(s, p) && IsNominalVRef(s, vref)
    ensures bank.regs == BankRegs(AggregateBlocks(s, opt, env, p, vref, rslt, req))
  {
    hide AggregateMonitor, AggregateControls, GridBlocks, PanelBlocks, VendorBlocks, BankRegs;
    hide IsAggregateProtection, IsNominalVRef;
    var prot := AggregateProtection(s);
    var v := NominalVRefV(s);
    p, vref := prot, v;
    bank := new Bank();
    bank.Put16(MAGIC);
    assert bank.regs == MAGIC;
    var monitor := AggregateMonitorOf(s, opt, env, v);
    EmitBlocks(bank, monitor);
    EmitAggregateControls(bank, s, env);
    EmitGrid(bank, prot, s.gridVoltageV, rslt, req);
    var panels := CollectPanels(s.inverters);
    EmitPanels(bank, opt, panels);
    EmitVendor(bank, s, env.nameplates);
    bank.Put16([END_MODEL, 0]);
    RenderGroups(monitor, AggregateControls(s, env), GridBlocks(prot, s.gridVoltageV, rslt, req),
                 PanelBlocks(opt, panels), VendorBlocks(s, env.nameplates));
  }

  method EmitAggregateControls(bank: Bank, s: Snapshot, env: Env)
    modifies bank
    ensures bank.regs == old(bank.regs) + Render(AggregateControls(s, env))
  {
    hide Controls.ControlsBlock;
    var pct, ena, conn := Controls.AggregateControlsState(s.inverters, env.nameplates);
    Controls.EmitControls(bank, pct, ena, conn);
  }

  method EmitInverterControls(bank: Bank, inv: Inverter, env: Env)
    modifies bank
    ensures bank.regs == old(bank.regs) + Render(InverterControls(inv, env))
  {
    hide Controls.ControlsBlock;
    var pct, ena, conn := Controls.PerInverterControlsState(inv, env.nameplates);
    Controls.EmitControls(bank, pct, ena, conn);
  }

  method EmitPanels(bank: Bank, opt: Options, panels: seq<Panel>)
    modifies bank
    ensures bank.regs == old(bank.regs) + RenderAll(PanelBlocks(opt, panels))
  {
    hide MpptBlocks;
    if !opt.disableMPPT {
      EmitMultiMPPT(bank, panels);
    }
  }

  lemma RenderGroups(monitor: seq<Block>, ctl: Block, grid: seq<Block>, mppt: seq<Block>, vendor: seq<Block>)
    ensures MAGIC + RenderAll(monitor) + Render(ctl) + RenderAll(grid) + RenderAll(mppt) + RenderAll(vendor) + [END_MODEL, 0]
         == BankRegs(monitor + [ctl] + grid + mppt + vendor)
  {
    RenderConcat(monitor, [ctl]);
    RenderOne(ctl);
    RenderConcat(monitor + [ctl], grid);
    RenderConcat(monitor + [ctl] + grid, mppt);
    RenderConcat(monitor + [ctl] + grid + mppt, vendor);
    Assoc(MAGIC, RenderAll(monitor), Render(ctl));
    Assoc(MAGIC, RenderAll(monitor) + Render(ctl), RenderAll(grid));
    Assoc(MAGIC, RenderAll(monitor) + Render(ctl) + RenderAll(grid), RenderAll(mppt));
    Assoc(MAGIC, RenderAll(monitor) + Render(ctl) + RenderAll(grid) + RenderAll(mppt), RenderAll(vendor));
  }

  /** The measured values behind the monitoring models, computed by the program's loops. */
  method AggregateMonitorOf(s: Snapshot, opt: Options, env: Env, vref: int) returns (bs: seq<Block>)
    ensures bs == AggregateMonitor(s, opt, env, vref)
  {
    hide CommonBlock, InverterBlock, FloatBlock, DCDataBlock, NameplateBlock, SettingsBlock;
    hide AggregateReadings, AggregateFloats, FleetW, TotalLimitedW;
    var mode := opt.phase;
    if mode == PhaseAuto {
      mode := DetectPhase(s);
    }
    var used := PhasesUsed(mode);
    var channels := FillChannels(s.inverters);
    bs := CommonFive(
      CommonBlock(StrOr(opt.manufacturer, "APsystems"), StrOr(opt.modelName, StrOr(s.model, "ECU-R-Pro")),
                  StrOr(s.firmware, "0"), SerialFor(s, opt), 1),
      InverterBlock(ModelId(mode), AggregateReadings(s, used)),
      FloatBlock(env, ModelId(mode) + 10, AggregateFloats(s, used)),
      DCDataBlock(env, channels, ChannelV, ChannelA),
      NameplateBlock(FleetW(s, env))) +
      [SettingsBlock(TotalLimitedW(s.inverters, env.nameplates), vref)];
  }

  method EncodePerInverter(inv: Inverter, unit: u16, opt: Options, env: Env, p: Protection, rslt: u16, req: u16)
    returns (bank: Bank)
    ensures fresh(bank) && bank.regs == BankRegs(InverterBlocks(inv, unit, opt, env, p, rslt, req))
  {
    hide InverterMonitor, InverterControls, GridBlocks, PanelBlocks, BankRegs;
    bank := new Bank();
    bank.Put16(MAGIC);
    assert bank.regs == MAGIC;
    var monitor := InverterMonitor(inv, unit, opt, env);
    EmitBlocks(bank, monitor);
    EmitInverterControls(bank, inv, env);
    EmitGrid(bank, p, inv.acVoltageV as real, rslt, req);
    EmitPanels(bank, opt, PanelsOf(inv));
    bank.Put16([END_MODEL, 0]);
    ghost var blocks := InverterBlocks(inv, unit, opt, env, p, rslt, req);
    assert blocks + [] == blocks;
    RenderGroups(monitor, InverterControls(inv, env), GridBlocks(p, inv.acVoltageV as real, rslt, req),
                 PanelBlocks(opt, PanelsOf(inv)), []);
  }
}
