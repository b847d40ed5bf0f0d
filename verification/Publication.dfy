/** What clients see at fixed addresses: the banks the server publishes for a snapshot
    (internal/server/server.go, `buildBanks`), register by register. */
module Publication {
  import opened Prelude
  import opened Snapshots
  import opened Banks
  import opened Models
  import opened Encoder
  import opened Walker
  import opened Layout
  import Controls
  import DerTrip
  import FreqDroop
  import FreqWattCurve

  /** The unit identifier of the inverter at an index, as an 8-bit cast. */
  function UnitOf(i: nat): u8 {
    Wrap8(2 + i)
  }

  /** The bank of one inverter; `ans` is what the tracker answers for its unit. */
  function InverterRegs(s: Snapshot, i: nat, opt: Options, env: Env, ans: (u16, u16)): seq<u16>
    requires i < |s.inverters|
  {
    BankRegs(InverterBlocks(s.inverters[i], UnitOf(i), opt, env, ProtectionOf(s, s.inverters[i].uid), ans.0, ans.1))
  }

  /** The aggregate bank, for some choice of the records standing for the fleet. */
  ghost predicate IsAggregateBank(regs: seq<u16>, s: Snapshot, opt: Options, env: Env, ans: (u16, u16)) {
    exists p, vref :: IsAggregateProtection(s, p) && IsNominalVRef(s, vref)
                      && regs == BankRegs(AggregateBlocks(s, opt, env, p, vref, ans.0, ans.1))
  }

  /** The bank of one inverter, for some answer. */
  ghost predicate IsInverterBank(regs: seq<u16>, s: Snapshot, i: nat, opt: Options, env: Env)
    requires i < |s.inverters|
  {
    exists ans :: regs == InverterRegs(s, i, opt, env, ans)
  }

  /** The body registers of the model whose header is at an address. */
  function Field(regs: seq<u16>, header: u16, off: nat): u16 {
    At(regs, Wrap16(header + 2 + off))
  }

  predicate BodyAt(regs: seq<u16>, header: u16, body: seq<u16>) {
    forall j :: 0 <= j < |body| ==> Field(regs, header, j) == body[j]
  }

  lemma BlockIsAt(bs: seq<Block>, k: nat, header: u16)
    requires k < |bs| && Fits(bs) && header == BASE + HeaderAt(bs, k)
    ensures header + 2 + |bs[k].body| <= 0xFFFF && BodyAt(BankRegs(bs), header, bs[k].body)
  {
    hide BankRegs, HeaderAt;
    PrintedBlock(bs, k);
  }

  /** Every inverter's bank publishes its Models 710, 703, 711 and 134 at the same addresses. */
  lemma InverterPublishes(s: Snapshot, i: nat, opt: Options, env: Env, ans: (u16, u16))
    requires i < |s.inverters|
    ensures var p := ProtectionOf(s, s.inverters[i].uid); var regs := InverterRegs(s, i, opt, env, ans);
            && BASE + |regs| <= 0xFFFF
            && BodyAt(regs, PER_INVERTER.droop, FreqDroop.Body(p, ans.0, ans.1))
            && BodyAt(regs, PER_INVERTER.highFreqTrip, DerTrip.HfBlock(p).body)
            && BodyAt(regs, PER_INVERTER.enterService, DerTrip.EnterServiceBlock(p, s.inverters[i].acVoltageV as real).body)
            && BodyAt(regs, PER_INVERTER.curve, FreqWattCurve.CurveBlock(p).body)
  {
    hide InverterBlocks, GridBlocks, BankRegs, HeaderAt, BodyAt, DerTrip.HfBlock, DerTrip.EnterServiceBlock, FreqWattCurve.CurveBlock, FreqDroop.Body, FreqDroop.DroopBlock, ProtectionOf;
    var inv := s.inverters[i];
    var p := ProtectionOf(s, inv.uid);
    var bs := InverterBlocks(inv, UnitOf(i), opt, env, p, ans.0, ans.1);
    InverterIsLaidOut(inv, UnitOf(i), opt, env, p, ans.0, ans.1);
    GridOrder(p, inv.acVoltageV as real, ans.0, ans.1);
    var grid := GridBlocks(p, inv.acVoltageV as real, ans.0, ans.1);
    assert bs[9] == bs[5..13][4] == grid[3] && bs[11] == bs[5..13][6] == grid[5];
    assert bs[10] == bs[5..13][5] == grid[4] && bs[12] == bs[5..13][7] == grid[6];
    BlockIsAt(bs, 9, PER_INVERTER.highFreqTrip);
    BlockIsAt(bs, 11, PER_INVERTER.droop);
    BlockIsAt(bs, 10, PER_INVERTER.enterService);
    BlockIsAt(bs, 12, PER_INVERTER.curve);
  }

  lemma GridOrder(p: Protection, vNom: real, rslt: u16, req: u16)
    ensures var grid := GridBlocks(p, vNom, rslt, req);
            && grid[3] == DerTrip.HfBlock(p) && grid[5].body == FreqDroop.Body(p, rslt, req)
            && grid[4] == DerTrip.EnterServiceBlock(p, vNom) && grid[6] == FreqWattCurve.CurveBlock(p)
  {
    hide DerTrip.HfBlock, DerTrip.EnterServiceBlock, FreqWattCurve.CurveBlock, FreqDroop.Body;
  }

  /** The aggregate bank publishes the tracker's answer for unit 1 in its Model 711. */
  lemma AggregatePublishes(regs: seq<u16>, s: Snapshot, opt: Options, env: Env, ans: (u16, u16))
    requires IsAggregateBank(regs, s, opt, env, ans) && |s.inverters| <= MAX_FLEET
    ensures BASE + |regs| <= 0xFFFF
    ensures Field(regs, AGGREGATE.droop, FreqDroop.ADPT_RSLT) == ans.0 && Field(regs, AGGREGATE.droop, FreqDroop.ADPT_REQ) == ans.1
  {
    hide IsAggregateProtection, IsNominalVRef, AggregateBlocks, GridBlocks, BankRegs, HeaderAt, FreqDroop.Body;
    var p, vref :| IsAggregateProtection(s, p) && IsNominalVRef(s, vref)
                   && regs == BankRegs(AggregateBlocks(s, opt, env, p, vref, ans.0, ans.1));
    var bs := AggregateBlocks(s, opt, env, p, vref, ans.0, ans.1);
    AggregateIsLaidOut(s, opt, env, p, vref, ans.0, ans.1);
    AggregateDroop(s, opt, env, p, vref, ans.0, ans.1);
    GridOrder(p, s.gridVoltageV, ans.0, ans.1);
    FreqDroop.BodyFields(p, ans.0, ans.1);
    BlockIsAt(bs, 12, AGGREGATE.droop);
    assert bs[12].body == FreqDroop.Body(p, ans.0, ans.1);
  }

  /** A written limit, once the inverter reports it, reads back on the inverter's own bank
      as the written percentage raised to 4 and lowered to 100 if no nameplate is known,
      with the enable flag set exactly for a real limit. */
  lemma ControlsReadBack(s: Snapshot, i: nat, opt: Options, env: Env, ans: (u16, u16), pct: u16)
    requires i < |s.inverters| && s.inverters[i].limitedPowerW == Controls.CapWatts(pct)
    ensures var regs, inv := InverterRegs(s, i, opt, env, ans), s.inverters[i];
            && Field(regs, PER_INVERTER.controls, Controls.WMAXLIMPCT) <= 100
            && (NameplateW(inv, env.nameplates) == 0 ==>
                  Field(regs, PER_INVERTER.controls, Controls.WMAXLIMPCT) == Max(4, Min(pct, 100)))
            && Field(regs, PER_INVERTER.controls, Controls.WMAXLIM_ENA) == (if pct < 100 then 1 else 0)
            && Field(regs, PER_INVERTER.controls, Controls.CONN) == (if inv.online then 1 else 0)
  {
    hide InverterControls, InverterRegs, BodyAt, Controls.InvCapPct;
    ControlsArePublished(s, i, opt, env, ans);
    ControlsFrom(InverterRegs(s, i, opt, env, ans), s.inverters[i], env, pct);
  }

  /** Every inverter's bank publishes its Model 123 at the same address. */
  lemma ControlsArePublished(s: Snapshot, i: nat, opt: Options, env: Env, ans: (u16, u16))
    requires i < |s.inverters|
    ensures BodyAt(InverterRegs(s, i, opt, env, ans), PER_INVERTER.controls, InverterControls(s.inverters[i], env).body)
  {
    hide InverterBlocks, InverterControls, GridBlocks, BankRegs, HeaderAt, BodyAt, ProtectionOf, Controls.InvCapPct;
    var inv := s.inverters[i];
    var p := ProtectionOf(s, inv.uid);
    var bs := InverterBlocks(inv, UnitOf(i), opt, env, p, ans.0, ans.1);
    InverterIsLaidOut(inv, UnitOf(i), opt, env, p, ans.0, ans.1);
    assert bs[5] == bs[5..13][0] == InverterControls(inv, env);
    BlockIsAt(bs, 5, PER_INVERTER.controls);
  }

  lemma ControlsFrom(regs: seq<u16>, inv: Inverter, env: Env, pct: u16)
    requires BodyAt(regs, PER_INVERTER.controls, InverterControls(inv, env).body) && inv.limitedPowerW == Controls.CapWatts(pct)
    ensures Field(regs, PER_INVERTER.controls, Controls.WMAXLIMPCT) <= 100
    ensures NameplateW(inv, env.nameplates) == 0 ==>
      Field(regs, PER_INVERTER.controls, Controls.WMAXLIMPCT) == Max(4, Min(pct, 100))
    ensures Field(regs, PER_INVERTER.controls, Controls.WMAXLIM_ENA) == if pct < 100 then 1 else 0
    ensures Field(regs, PER_INVERTER.controls, Controls.CONN) == if inv.online then 1 else 0
  {
    var w := inv.limitedPowerW;
    Controls.ReadBackIsMonotone(inv, env.nameplates, w, w);
    assert inv.(limitedPowerW := w) == inv;
    if NameplateW(inv, env.nameplates) == 0 {
      Controls.ReadBackWithoutNameplate(inv, env.nameplates, pct);
    }
    hide Controls.InvCapPct, Field, NameplateW;
  }
}
