/** The monitoring models of a bank: Common, 101-103, 111-113, 114, 120, 121, 160 and the
    vendor model (internal/sunspec/encoder.go, inverter_float.go, nameplate.go,
    settings.go, vendor.go, per_inverter.go). */
module Models {
  import opened Prelude
  import opened Snapshots
  import opened Banks
  import Events
  import Params

  const COMMON_MODEL: u16 := 1
  const INVERTER_MODEL: u16 := 101
  const DC_DATA_MODEL: u16 := 114
  const NAMEPLATE_MODEL: u16 := 120
  const SETTINGS_MODEL: u16 := 121
  const MPPT_MODEL: u16 := 160
  const VENDOR_MODEL: u16 := 64202

  const ST_OFF: u16 := 1
  const ST_SLEEP: u16 := 2
  const ST_MPPT: u16 := 4
  const ST_STANDBY: u16 := 8

  /** The float32 encoding and the loaded nameplate table are parameters. */
  datatype Env = Env(f32: real -> u32, nameplates: map<int, nat>)

  /** A block whose registers are all at hand: the header, then the body. */
  method EmitBlock(bank: Bank, b: Block)
    modifies bank
    ensures bank.regs == old(bank.regs) + Render(b)
  {
    bank.Put16([b.id, b.len]);
    bank.Put16(b.body);
  }

  // ---- Common ---------------------------------------------------------------------

  function CommonBlock(mn: string, md: string, vr: string, sn: string, da: u16): (b: Block)
    ensures b.id == COMMON_MODEL && b.len == |b.body| == 66
  {
    Block(COMMON_MODEL, 66,
      PackString(mn, 16) + PackString(md, 16) + PackString("", 8) + PackString(vr, 8) + PackString(sn, 16) + [da, 0])
  }

  // ---- 101 / 102 / 103 ---------------------------------------------------------------

  /** What the integer inverter model publishes about one device. */
  datatype Readings = Readings(
    amps: u16, aphA: u16, aphB: u16, aphC: u16, vphA: u16, vphB: u16, vphC: u16,
    w: u16, hz: u16, wh: nat, tmp: u16, st: u16, bits: EventBits)

  function ElectricalRegs(r: Readings): (regs: seq<u16>)
    ensures |regs| == 16
  {
    [r.amps, r.aphA, r.aphB, r.aphC, ScaleFactor(-1), NOT_IMPL_U16, NOT_IMPL_U16, NOT_IMPL_U16,
     r.vphA, r.vphB, r.vphC, ScaleFactor(0), r.w, ScaleFactor(0), r.hz, ScaleFactor(-2)]
  }

  function EnergyRegs(r: Readings): (regs: seq<u16>)
    ensures |regs| == 22
  {
    [NOT_IMPL_S16, ScaleFactor(0), NOT_IMPL_S16, ScaleFactor(0), NOT_IMPL_S16, ScaleFactor(0)] + Acc32(r.wh) +
    [ScaleFactor(0), NOT_IMPL_U16, ScaleFactor(0), NOT_IMPL_U16, ScaleFactor(0), NOT_IMPL_S16, ScaleFactor(0),
     r.tmp, NOT_IMPL_S16, NOT_IMPL_S16, NOT_IMPL_S16, ScaleFactor(0), r.st, 0]
  }

  /** Standard flags, then the raw words. */
  function EventRegs(bits: EventBits): (regs: seq<u16>)
    ensures |regs| == 12
  {
    Acc32(Events.WordValue(Events.Evt1(bits))) + Acc32(NOT_IMPL_U32) + Acc32(Events.WordValue(bits.w0)) +
    Acc32(Events.WordValue(bits.w1)) + Acc32(Events.WordValue(bits.w2)) + Acc32(NOT_IMPL_U32)
  }

  function InverterBlock(id: u16, r: Readings): (b: Block)
    ensures b.id == id && b.len == |b.body| == 50
  {
    Block(id, 50, ElectricalRegs(r) + EnergyRegs(r) + EventRegs(r.bits))
  }

  /** Where a client finds the measurements. */
  lemma ReadingsAt(id: u16, r: Readings)
    ensures var b := InverterBlock(id, r).body;
            && b[0] == r.amps && b[1] == r.aphA && b[2] == r.aphB && b[3] == r.aphC
            && b[8] == r.vphA && b[9] == r.vphB && b[10] == r.vphC && b[12] == r.w && b[14] == r.hz
            && b[22] as int * 65536 + b[23] as int == r.wh % 0x1_0000_0000 && b[31] == r.tmp && b[36] == r.st
            && b[38] as int * 65536 + b[39] as int == Events.WordValue(Events.Evt1(r.bits)) as int
  {
    hide EnergyRegs, EventRegs, Events.WordValue, Events.Evt1;
    var e, n, v := ElectricalRegs(r), EnergyRegs(r), EventRegs(r.bits);
    var b := InverterBlock(id, r).body;
    assert b == e + n + v;
    EnergyAt(r);
    EventsAt(r.bits);
    assert b[22] == n[6] && b[23] == n[7] && b[31] == n[15] && b[36] == n[20] && b[38] == v[0] && b[39] == v[1];
  }

  lemma EventsAt(bits: EventBits)
    ensures EventRegs(bits)[0] as int * 65536 + EventRegs(bits)[1] as int == Events.WordValue(Events.Evt1(bits)) as int
  {
    hide Events.WordValue, Events.Evt1;
  }

  lemma EnergyAt(r: Readings)
    ensures var n := EnergyRegs(r); n[6] as int * 65536 + n[7] as int == r.wh % 0x1_0000_0000 && n[15] == r.tmp && n[20] == r.st
  {
  }

  // ---- 111 / 112 / 113 ----------------------------------------------------------------

  const NAN: seq<u16> := [0x7FC0, 0]

  /** A float register pair; the quiet NaN when the field is not implemented. */
  function F32(env: Env, x: Option<real>): (regs: seq<u16>)
    ensures |regs| == 2
  {
    match x
    case None => NAN
    case Some(v) => Acc32(env.f32(v))
  }

  function F32s(env: Env, xs: seq<Option<real>>): (regs: seq<u16>)
    ensures |regs| == 2 * |xs|
  {
    if xs == [] then [] else F32s(env, xs[..|xs| - 1]) + F32(env, xs[|xs| - 1])
  }

  /** The measurements of the float inverter model: 23 float fields, the state and the
      event words. */
  datatype FloatReadings = FloatReadings(fields: seq<Option<real>>, st: u16, bits: EventBits)

  function FloatBlock(env: Env, id: u16, r: FloatReadings): (b: Block)
    requires |r.fields| == 23
    ensures b.id == id && b.len == |b.body| == 60
  {
    Block(id, 60, F32s(env, r.fields) + [r.st, 0] + EventRegs(r.bits))
  }

  // ---- Panels: 114 and 160 ----------------------------------------------------------

  /** A panel of an online inverter. */
  datatype Panel = Panel(inv: Inverter, channel: nat, powerW: int)

  function PanelsOf(inv: Inverter): (ps: seq<Panel>)
    ensures |ps| == |PanelPowers(inv)|
  {
    var powers := PanelPowers(inv);
    seq(|powers|, i requires 0 <= i < |powers| => Panel(inv, i, powers[i]))
  }

  /** Every panel of the fleet, in the order of Model 160. */
  function AllPanels(invs: seq<Inverter>): (ps: seq<Panel>)
    ensures |ps| <= 4 * |invs|
  {
    if invs == [] then [] else AllPanels(invs[..|invs| - 1]) + PanelsOf(invs[|invs| - 1])
  }

  function Powers(ps: seq<Panel>): seq<int> {
    seq(|ps|, i requires 0 <= i < |ps| => ps[i].powerW)
  }

  /** The panel list carries exactly the fleet's panel powers, in order: with
      `Params.PanelPowerIsConserved` its total is the live system power. */
  lemma {:induction false} PanelsCarryThePower(invs: seq<Inverter>)
    ensures Powers(AllPanels(invs)) == Params.FleetPanels(invs)
  {
    if invs != [] {
      var last := invs[|invs| - 1];
      PanelsCarryThePower(invs[..|invs| - 1]);
      assert Powers(PanelsOf(last)) == PanelPowers(last);
      assert Powers(AllPanels(invs[..|invs| - 1]) + PanelsOf(last))
          == Powers(AllPanels(invs[..|invs| - 1])) + Powers(PanelsOf(last));
    }
  }

  const CHANNELS: nat := 8

  function FirstEight(ps: seq<Panel>): (r: seq<Panel>)
    ensures |r| <= 8
  {
    ps[..Min(CHANNELS, |ps|)]
  }

  lemma FirstEightConcat(ps: seq<Panel>, qs: seq<Panel>)
    ensures FirstEight(FirstEight(ps) + qs) == FirstEight(ps + qs)
  {
  }

  lemma FirstEightOfPrefix(ps: seq<Panel>, qs: seq<Panel>)
    requires ps <= qs && |FirstEight(ps)| >= CHANNELS
    ensures FirstEight(ps) == FirstEight(qs)
  {
  }

  lemma EightOfNone()
    ensures FirstEight([]) == []
  {
  }

  lemma PanelsNext(invs: seq<Inverter>, k: nat)
    requires k < |invs|
    ensures AllPanels(invs[..k + 1]) == AllPanels(invs[..k]) + PanelsOf(invs[k])
    ensures !invs[k].online ==> PanelsOf(invs[k]) == [] && AllPanels(invs[..k + 1]) == AllPanels(invs[..k])
  {
    assert invs[..k + 1][..k] == invs[..k];
  }

  /** The first eight panels of the fleet: a nested loop with two breaks. */
  method FillChannels(invs: seq<Inverter>) returns (channels: seq<Panel>)
    ensures channels == FirstEight(AllPanels(invs))
  {
    channels := [];
    assert AllPanels(invs[..0]) == [];
    hide AllPanels, FirstEight;
    EightOfNone();
    var k := 0;
    while k < |invs|
      invariant 0 <= k <= |invs|
      invariant channels == FirstEight(AllPanels(invs[..k]))
    {
      var inv := invs[k];
      PanelsNext(invs, k);
      FirstEightConcat(AllPanels(invs[..k]), PanelsOf(inv));
      if inv.online {
        channels := AddPanels(channels, inv);
        if |channels| >= CHANNELS {
          FirstPanels(invs, k + 1);
          FirstEightOfPrefix(AllPanels(invs[..k + 1]), AllPanels(invs));
          return;
        }
      }
      k := k + 1;
    }
    assert invs[..|invs|] == invs;
  }

  method AddPanels(channels: seq<Panel>, inv: Inverter) returns (more: seq<Panel>)
    requires |channels| <= CHANNELS
    ensures more == FirstEight(channels + PanelsOf(inv))
  {
    more := channels;
    var powers := PanelPowers(inv);
    var i := 0;
    while i < |powers|
      invariant 0 <= i <= |powers|
      invariant more == FirstEight(channels + PanelsOf(inv)[..i])
    {
      if |more| >= CHANNELS {
        break;
      }
      more := more + [Panel(inv, i, powers[i])];
      i := i + 1;
    }
  }

  /** Once eight panels are found the rest of the fleet cannot change them. */
  lemma {:induction false} FirstPanels(invs: seq<Inverter>, k: nat)
    requires k <= |invs|
    ensures AllPanels(invs[..k]) <= AllPanels(invs)
    decreases |invs| - k
  {
    hide PanelsOf, AllPanels;
    if k == |invs| {
      assert invs[..k] == invs;
    } else {
      FirstPanels(invs, k + 1);
      PanelsNext(invs, k);
    }
  }

  function Volts(inv: Inverter): real {
    inv.acVoltageV as real
  }

  /** The aggregate bank publishes zero volts and amperes for a channel without voltage. */
  function ChannelV(p: Panel): Option<real> {
    Some(if p.inv.acVoltageV > 0 then Volts(p.inv) else 0.0)
  }

  function ChannelA(p: Panel): Option<real> {
    Some(if p.inv.acVoltageV > 0 then p.powerW as real / Volts(p.inv) else 0.0)
  }

  function Fields(ps: seq<Panel>, f: Panel -> Option<real>): (xs: seq<Option<real>>)
    requires |ps| <= CHANNELS
    ensures |xs| == 8
  {
    seq(8, i => if 0 <= i < |ps| then f(ps[i]) else None)
  }

  /** Eight voltages, eight currents, eight powers; channels beyond the list are NaN. */
  function DCDataBlock(env: Env, ps: seq<Panel>, v: Panel -> Option<real>, a: Panel -> Option<real>): (b: Block)
    requires |ps| <= CHANNELS
    ensures b.id == DC_DATA_MODEL && b.len == |b.body| == 48
  {
    Block(DC_DATA_MODEL, 48,
      F32s(env, Fields(ps, v)) + F32s(env, Fields(ps, a)) + F32s(env, Fields(ps, (p: Panel) => Some(p.powerW as real))))
  }

  // ---- 160 ------------------------------------------------------------------------------

  function PanelLabel(inv: Inverter, channel: nat): string {
    var uid := if |inv.uid| > 6 then inv.uid[|inv.uid| - 6..] else inv.uid;
    if channel < 8 then uid + "/" + ["ABCDEFGH"[channel]] else uid
  }

  function DcaOf(p: Panel): u16 {
    if p.inv.acVoltageV > 0 && p.powerW >= 0 then
      var amps10 := p.powerW as real / Volts(p.inv) * 10.0;
      if amps10 < 65535.0 then Real16(amps10 + 0.5) else NOT_IMPL_U16
    else NOT_IMPL_U16
  }

  function DcvOf(p: Panel): u16 {
    if 0 < p.inv.acVoltageV < 65535 then p.inv.acVoltageV else NOT_IMPL_U16
  }

  function DcwOf(p: Panel): u16 {
    if 0 <= p.powerW < 65535 then p.powerW else NOT_IMPL_U16
  }

  function TmpOf(inv: Inverter): u16 {
    Wrap16(Clamp(Int32(inv.temperatureC), -100, 200))
  }

  const MODULE_TAIL: seq<u16> := Acc32(0) + Acc32(NOT_IMPL_U32)

  function ModuleRegs(i: nat, p: Panel): (regs: seq<u16>)
    ensures |regs| == 20
  {
    [Wrap16(i + 1)] + PackString(PanelLabel(p.inv, p.channel), 8) + [DcaOf(p), DcvOf(p), DcwOf(p)] + MODULE_TAIL +
    [TmpOf(p.inv), if p.powerW > 0 then ST_MPPT else ST_OFF] + Acc32(NOT_IMPL_U32)
  }

  function Modules(ps: seq<Panel>): (regs: seq<u16>)
    ensures |regs| == 20 * |ps|
  {
    if ps == [] then [] else Modules(ps[..|ps| - 1]) + ModuleRegs(|ps| - 1, ps[|ps| - 1])
  }

  function MpptHeader(n: u16): (regs: seq<u16>)
    ensures |regs| == 8
  {
    [ScaleFactor(-1), ScaleFactor(0), ScaleFactor(0), ScaleFactor(0)] + Acc32(NOT_IMPL_U32) + [n, NOT_IMPL_U16]
  }

  /** The declared length, in 16-bit arithmetic. */
  function MpptLen(n: nat): (len: u16)
    ensures 8 + 20 * n < 0x1_0000 ==> len == 8 + 20 * n
  {
    Wrap16(8 + 20 * Wrap16(n))
  }

  function MpptBlock(ps: seq<Panel>): (b: Block)
    ensures b.id == MPPT_MODEL && |b.body| == 8 + 20 * |ps|
    ensures |b.body| < 0x1_0000 ==> b.len == |b.body|
  {
    Block(MPPT_MODEL, MpptLen(|ps|), MpptHeader(Wrap16(|ps|)) + Modules(ps))
  }

  /** No block at all when there is no panel. */
  function MpptBlocks(ps: seq<Panel>): seq<Block> {
    if ps == [] then [] else [MpptBlock(ps)]
  }

  method EmitModule(bank: Bank, i: nat, p: Panel)
    modifies bank
    ensures bank.regs == old(bank.regs) + ModuleRegs(i, p)
  {
    bank.Put16([Wrap16(i + 1)]);
    bank.PutString(PanelLabel(p.inv, p.channel), 8);
    bank.Put16([DcaOf(p), DcvOf(p), DcwOf(p)]);
    bank.Put16(MODULE_TAIL);
    bank.Put16([TmpOf(p.inv), if p.powerW > 0 then ST_MPPT else ST_OFF]);
    bank.PutAcc32(NOT_IMPL_U32);
  }

  method EmitMultiMPPT(bank: Bank, ps: seq<Panel>)
    modifies bank
    ensures bank.regs == old(bank.regs) + RenderAll(MpptBlocks(ps))
  {
    if |ps| == 0 {
      return;
    }
    var n: nat := Wrap16(|ps|);
    var bodyLen := Wrap16(8 + 20 * n);
    bank.Put16([MPPT_MODEL, bodyLen]);
    bank.Put16(MpptHeader(n));
    EmitModules(bank, ps);
    Assoc(old(bank.regs) + [MPPT_MODEL, bodyLen], MpptHeader(n), Modules(ps));
    Assoc(old(bank.regs), [MPPT_MODEL, bodyLen], MpptHeader(n) + Modules(ps));
    RenderOne(MpptBlock(ps));
  }

  lemma ModulesNext(ps: seq<Panel>, i: nat)
    requires i < |ps|
    ensures Modules(ps[..i + 1]) == Modules(ps[..i]) + ModuleRegs(i, ps[i])
  {
    assert ps[..i + 1][..i] == ps[..i];
  }

  method EmitModules(bank: Bank, ps: seq<Panel>)
    modifies bank
    ensures bank.regs == old(bank.regs) + Modules(ps)
  {
    for i := 0 to |ps|
      invariant bank.regs == old(bank.regs) + Modules(ps[..i])
    {
      EmitModule(bank, i, ps[i]);
      ModulesNext(ps, i);
      Assoc(old(bank.regs), Modules(ps[..i]), ModuleRegs(i, ps[i]));
    }
    assert ps[..|ps|] == ps;
  }

  // ---- Power in the registers of Model 160 ------------------------------------------------

  /** The power registers of the first n modules of a Model 160 body. */
  function PowerRegs(body: seq<u16>, n: nat): (r: seq<int>)
    requires |body| >= 8 + 20 * n
    ensures |r| == n
  {
    if n == 0 then [] else PowerRegs(body, n - 1) + [body[8 + 20 * (n - 1) + 11]]
  }

  lemma {:induction false} ModuleAt(ps: seq<Panel>, i: nat)
    requires i < |ps|
    ensures Modules(ps)[20 * i..20 * i + 20] == ModuleRegs(i, ps[i])
  {
    hide ModuleRegs;
    var n := |ps| - 1;
    assert Modules(ps) == Modules(ps[..n]) + ModuleRegs(n, ps[n]);
    if i < n {
      ModuleAt(ps[..n], i);
      assert Modules(ps)[20 * i..20 * i + 20] == Modules(ps[..n])[20 * i..20 * i + 20];
    }
  }

  lemma ModulePower(i: nat, p: Panel)
    ensures ModuleRegs(i, p)[11] == DcwOf(p)
  {
    hide DcwOf, DcaOf, DcvOf, TmpOf, PackString;
    var name := PackString(PanelLabel(p.inv, p.channel), 8);
    var rest := MODULE_TAIL + [TmpOf(p.inv), if p.powerW > 0 then ST_MPPT else ST_OFF] + Acc32(NOT_IMPL_U32);
    assert ModuleRegs(i, p) == ([Wrap16(i + 1)] + name) + [DcaOf(p), DcvOf(p), DcwOf(p)] + rest;
  }

  lemma PowerReg(ps: seq<Panel>, i: nat)
    requires i < |ps|
    ensures MpptBlock(ps).body[8 + 20 * i + 11] == DcwOf(ps[i])
  {
    hide ModuleRegs, Modules, MpptHeader, DcwOf;
    ModuleAt(ps, i);
    ModulePower(i, ps[i]);
    var h, m := MpptHeader(Wrap16(|ps|)), Modules(ps);
    assert MpptBlock(ps).body == h + m;
    assert m[20 * i + 11] == m[20 * i..20 * i + 20][11];
  }

  lemma {:induction false} PowerRegsShown(ps: seq<Panel>, n: nat)
    requires n <= |ps| && forall p :: p in ps ==> 0 <= p.powerW < 65535
    ensures PowerRegs(MpptBlock(ps).body, n) == Powers(ps[..n])
  {
    hide MpptBlock;
    if n > 0 {
      PowerRegsShown(ps, n - 1);
      PowerReg(ps, n - 1);
      assert ps[n - 1] in ps;
      assert Powers(ps[..n]) == Powers(ps[..n - 1]) + [ps[n - 1].powerW];
    }
  }

  /** Power is conserved from text to registers: for parsed inverters whose panel powers fit
      their registers, the power registers of Model 160 add up to the live system power,
      and so do the three phases. */
  lemma PublishedPowerIsConserved(invs: seq<Inverter>)
    requires forall inv :: inv in invs ==> Params.FromTail(inv)
    requires forall p :: p in AllPanels(invs) ==> 0 <= p.powerW < 65535
    ensures var total := Params.Sum(PowerRegs(MpptBlock(AllPanels(invs)).body, |AllPanels(invs)|));
            && total == Params.LiveW(invs)
            && total == Params.PhaseW(invs, 0) + Params.PhaseW(invs, 1) + Params.PhaseW(invs, 2)
  {
    hide MpptBlock, AllPanels;
    var ps := AllPanels(invs);
    PowerRegsShown(ps, |ps|);
    assert ps[..|ps|] == ps;
    PanelsCarryThePower(invs);
    Params.PanelPowerIsConserved(invs);
    Params.PhasePowerIsConserved(invs);
  }

  lemma RenderOne(b: Block)
    ensures RenderAll([b]) == Render(b)
  {
    assert [b][1..] == [];
  }

  method CollectPanels(invs: seq<Inverter>) returns (panels: seq<Panel>)
    ensures panels == AllPanels(invs)
  {
    panels := [];
    assert AllPanels(invs[..0]) == [];
    hide AllPanels;
    for k := 0 to |invs|
      invariant panels == AllPanels(invs[..k])
    {
      PanelsNext(invs, k);
      var inv := invs[k];
      if inv.online {
        var ch := PanelPowers(inv);
        ghost var before := panels;
        for i := 0 to |ch|
          invariant panels == before + PanelsOf(inv)[..i]
        {
          panels := panels + [Panel(inv, i, ch[i])];
        }
        assert PanelsOf(inv)[..|ch|] == PanelsOf(inv);
      }
    }
    assert invs[..|invs|] == invs;
  }

  // ---- 120 and 121 ------------------------------------------------------------------------

  function TotalNameplateW(invs: seq<Inverter>, table: map<int, nat>): int {
    if invs == [] then 0 else TotalNameplateW(invs[..|invs| - 1], table) + NameplateW(invs[|invs| - 1], table)
  }

  /** min(per-panel cap × panels, nameplate) of every inverter. */
  function TotalLimitedW(invs: seq<Inverter>, table: map<int, nat>): int {
    if invs == [] then 0
    else
      var last := invs[|invs| - 1];
      var dc, ac := last.limitedPowerW * PanelCount(last), NameplateW(last, table);
      TotalLimitedW(invs[..|invs| - 1], table) + (if 0 < ac < dc then ac else dc)
  }

  function NameplateBlock(w: int): (b: Block)
    ensures b.id == NAMEPLATE_MODEL && b.len == |b.body| == 26
  {
    var rated := Wrap16(Clamp(Int32(w), 0, 65535));
    var amps := if w > 0 then Real16(w as real / 230.0 * 10.0 + 0.5) else 0;
    Block(NAMEPLATE_MODEL, 26, [
      4, rated, ScaleFactor(0), rated, ScaleFactor(0),
      NOT_IMPL_S16, NOT_IMPL_S16, NOT_IMPL_S16, NOT_IMPL_S16, ScaleFactor(0), amps, ScaleFactor(-1),
      1000, 1000, 1000, 1000, ScaleFactor(-3), NOT_IMPL_U16, ScaleFactor(0), NOT_IMPL_U16, ScaleFactor(0),
      NOT_IMPL_U16, ScaleFactor(0), NOT_IMPL_U16, ScaleFactor(0), 0])
  }

  function SettingsBlock(limitedW: int, vref: int): (b: Block)
    ensures b.id == SETTINGS_MODEL && b.len == |b.body| == 30
  {
    var u, i := NOT_IMPL_U16, NOT_IMPL_S16;
    Block(SETTINGS_MODEL, 30, [
      if 0 < limitedW <= 65535 then limitedW else u, if 0 < vref < 65535 then vref else u, i, u, u,
      u, i, i, i, i, u, i, i, i, i, u, u, u, u, u,
      ScaleFactor(0), ScaleFactor(0), ScaleFactor(0), ScaleFactor(0), ScaleFactor(0), ScaleFactor(0), ScaleFactor(0),
      ScaleFactor(-3), ScaleFactor(-2), 0])
  }

  // ---- Vendor -------------------------------------------------------------------------------

  function Word16(x: int): u16 {
    Wrap16(Clamp(Int32(x), 0, 65535))
  }

  function VendorRow(i: nat, inv: Inverter, table: map<int, nat>): (regs: seq<u16>)
    ensures |regs| == 10
  {
    [Wrap16(i + 1), Word16(inv.signalStrength), Word16(inv.limitedPowerW), Word16(inv.phase), Word16(inv.model),
     Word16(inv.softwareVer), Wrap16(PanelCount(inv)), Word16(NameplateW(inv, table)), if inv.online then 1 else 0, 0]
  }

  function VendorRows(invs: seq<Inverter>, table: map<int, nat>): (regs: seq<u16>)
    ensures |regs| == 10 * |invs|
  {
    if invs == [] then []
    else VendorRows(invs[..|invs| - 1], table) + VendorRow(|invs| - 1, invs[|invs| - 1], table)
  }

  function VendorHeader(s: Snapshot): (regs: seq<u16>)
    ensures |regs| == 16
  {
    [Word16(s.pollingInterval)] + PackString(s.firmware, 8) + Acc32(s.todayEnergyWh) + Acc32(s.monthEnergyWh) +
    Acc32(s.yearEnergyWh) + [Wrap16(|s.inverters|)]
  }

  function VendorBlock(s: Snapshot, table: map<int, nat>): (b: Block)
    ensures b.id == VENDOR_MODEL && |b.body| == 16 + 10 * |s.inverters|
    ensures |b.body| < 0x1_0000 ==> b.len == |b.body|
  {
    Block(VENDOR_MODEL, Wrap16(16 + 10 * Wrap16(|s.inverters|)), VendorHeader(s) + VendorRows(s.inverters, table))
  }

  function VendorBlocks(s: Snapshot, table: map<int, nat>): seq<Block> {
    if s.inverters == [] then [] else [VendorBlock(s, table)]
  }

  method EmitVendor(bank: Bank, s: Snapshot, table: map<int, nat>)
    modifies bank
    ensures bank.regs == old(bank.regs) + RenderAll(VendorBlocks(s, table))
  {
    if |s.inverters| == 0 {
      return;
    }
    var n: nat := Wrap16(|s.inverters|);
    var body := Wrap16(16 + 10 * n);
    bank.Put16([VENDOR_MODEL, body]);
    EmitVendorHeader(bank, s);
    EmitVendorRows(bank, s.inverters, table);
    RenderOne(VendorBlock(s, table));
  }

  method EmitVendorRows(bank: Bank, invs: seq<Inverter>, table: map<int, nat>)
    modifies bank
    ensures bank.regs == old(bank.regs) + VendorRows(invs, table)
  {
    hide VendorRow;
    for i := 0 to |invs|
      invariant bank.regs == old(bank.regs) + VendorRows(invs[..i], table)
    {
      assert invs[..i + 1][..i] == invs[..i];
      bank.Put16(VendorRow(i, invs[i], table));
    }
    assert invs[..|invs|] == invs;
  }

  method EmitVendorHeader(bank: Bank, s: Snapshot)
    modifies bank
    ensures bank.regs == old(bank.regs) + VendorHeader(s)
  {
    bank.Put16([Word16(s.pollingInterval)]);
    bank.PutString(s.firmware, 8);
    bank.PutAcc32(s.todayEnergyWh);
    bank.PutAcc32(s.monthEnergyWh);
    bank.PutAcc32(s.yearEnergyWh);
    bank.Put16([Wrap16(|s.inverters|)]);
  }
}
