/** Where the writable models are: the banks the encoder builds have a fixed layout up
    to Model 134, whatever the fleet, and always end inside the address space. */
module Layout {
  import opened Prelude
  import opened Snapshots
  import opened Banks
  import opened Models
  import opened Encoder
  import opened Walker
  import Controls

  const MAX_FLEET: nat := 254

  /** Sum of the sizes (header and body) of the first k lengths. */
  function Total(lens: seq<nat>, k: nat): nat
    requires k <= |lens|
  {
    if k == 0 then 0 else Total(lens, k - 1) + 2 + lens[k - 1]
  }

  lemma {:induction false} HeaderIsTotal(bs: seq<Block>, lens: seq<nat>, k: nat)
    requires k <= |lens| <= |bs| && forall i :: 0 <= i < |lens| ==> |bs[i].body| == lens[i]
    ensures HeaderAt(bs, k) == 2 + Total(lens, k)
  {
    if k == 0 {
      assert bs[..0] == [];
    } else {
      HeaderIsTotal(bs, lens, k - 1);
      HeaderStep(bs, k - 1);
    }
  }

  const AGGREGATE_LENS: seq<nat> := [66, 50, 60, 48, 26, 30, 24, 38, 38, 47, 47, 17, 22, 68]
  const INVERTER_LENS: seq<nat> := [66, 50, 60, 48, 26, 24, 38, 38, 47, 47, 17, 22, 68]

  /** The addresses of the writable models, per kind of bank. */
  datatype Layout = Layout(controls: u16, highFreqTrip: u16, enterService: u16, droop: u16, curve: u16)

  const AGGREGATE: Layout := Layout(40294, 40449, 40498, 40517, 40541)
  const PER_INVERTER: Layout := Layout(40262, 40417, 40466, 40485, 40509)

  /** A printed bank in which Models 123, 710, 703, 711 and 134 sit at fixed addresses,
      their bodies lie inside the bank, and everything is found where it was emitted. */
  ghost predicate LaidOut(bs: seq<Block>, l: Layout, first: nat) {
    && |bs| >= first + 8 && AllSound(bs) && Fits(bs)
    && bs[first].id == Controls.MODEL && bs[first + 4].id == 710
    && bs[first + 5].id == 703 && bs[first + 6].id == 711 && bs[first + 7].id == 134
    && |bs[first].body| == 24 && |bs[first + 4].body| == 47
    && |bs[first + 5].body| == 17 && |bs[first + 6].body| == 22 && |bs[first + 7].body| == 68
    && BASE + HeaderAt(bs, first) == l.controls && BASE + HeaderAt(bs, first + 4) == l.highFreqTrip
    && BASE + HeaderAt(bs, first + 5) == l.enterService && BASE + HeaderAt(bs, first + 6) == l.droop
    && BASE + HeaderAt(bs, first + 7) == l.curve
    && (forall i :: 0 <= i < first ==> bs[i].id <= 121)
    && (forall i :: first < i < first + 4 ==> 707 <= bs[i].id <= 709)
  }

  lemma AggregateTotals()
    ensures Total(AGGREGATE_LENS, 6) == 292 && Total(AGGREGATE_LENS, 10) == 447 && Total(AGGREGATE_LENS, 11) == 496
    ensures Total(AGGREGATE_LENS, 12) == 515 && Total(AGGREGATE_LENS, 13) == 539 && Total(AGGREGATE_LENS, 14) == 609
  {
    var l := AGGREGATE_LENS;
    assert Total(l, 1) == 68 && Total(l, 2) == 120 && Total(l, 3) == 182 && Total(l, 4) == 232;
    assert Total(l, 5) == 260 && Total(l, 6) == 292 && Total(l, 7) == 318 && Total(l, 8) == 358;
    assert Total(l, 9) == 398 && Total(l, 10) == 447 && Total(l, 11) == 496 && Total(l, 12) == 515;
  }

  lemma InverterTotals()
    ensures Total(INVERTER_LENS, 5) == 260 && Total(INVERTER_LENS, 9) == 415 && Total(INVERTER_LENS, 10) == 464
    ensures Total(INVERTER_LENS, 11) == 483 && Total(INVERTER_LENS, 12) == 507 && Total(INVERTER_LENS, 13) == 577
  {
    var l := INVERTER_LENS;
    assert Total(l, 1) == 68 && Total(l, 2) == 120 && Total(l, 3) == 182 && Total(l, 4) == 232;
    assert Total(l, 5) == 260 && Total(l, 6) == 286 && Total(l, 7) == 326 && Total(l, 8) == 366;
    assert Total(l, 9) == 415 && Total(l, 10) == 464 && Total(l, 11) == 483 && Total(l, 12) == 507;
  }

  /** The two blocks whose length depends on the fleet. */
  lemma TailShape(opt: Options, ps: seq<Panel>, vendor: seq<Block>)
    requires |ps| <= 4 * MAX_FLEET
    requires |vendor| <= 1 && forall b :: b in vendor ==> Sound(b) && |b.body| <= 16 + 10 * MAX_FLEET
    ensures var tail := PanelBlocks(opt, ps) + vendor;
            && AllSound(tail)
            && |RenderAll(tail)| <= 10 + 20 * |ps| + (if vendor == [] then 0 else 2 + |vendor[0].body|)
  {
    RenderConcat(PanelBlocks(opt, ps), vendor);
    if vendor != [] {
      assert vendor == [vendor[0]];
      RenderOne(vendor[0]);
    }
    if ps != [] {
      RenderOne(MpptBlock(ps));
    }
  }

  /** For every fleet of at most 254 inverters, every choice the program leaves open and
      every tracker answer, the aggregate bank is laid out at fixed addresses and fits. */
  lemma AggregateIsLaidOut(s: Snapshot, opt: Options, env: Env, p: Protection, vref: int, rslt: u16, req: u16)
    requires |s.inverters| <= MAX_FLEET
    ensures var bs := AggregateBlocks(s, opt, env, p, vref, rslt, req);
            && LaidOut(bs, AGGREGATE, 6)
            && |BankRegs(bs)| <= 641 + 20 * |AllPanels(s.inverters)| + 10 * |s.inverters|
            && |AllPanels(s.inverters)| <= 4 * |s.inverters|
  {
    hide AggregateMonitor, AggregateControls, GridBlocks, MpptBlocks, VendorBlock, AllPanels, LaidOut, Total, AllSound, Fits, BankRegs, HeaderAt;
    AggregateMonitors(s, opt, env, vref);
    var monitor, ctl, grid := AggregateMonitor(s, opt, env, vref), AggregateControls(s, env), GridBlocks(p, s.gridVoltageV, rslt, req);
    var vendor := VendorBlocks(s, env.nameplates);
    var tail := PanelBlocks(opt, AllPanels(s.inverters)) + vendor;
    TailShape(opt, AllPanels(s.inverters), vendor);
    AggregateTotals();
    Assemble(monitor, ctl, grid, tail, AGGREGATE_LENS);
    Laid(monitor + [ctl] + grid + tail, AGGREGATE_LENS, AGGREGATE, 6);
    assert AggregateBlocks(s, opt, env, p, vref, rslt, req) == monitor + [ctl] + grid + tail;
  }

  lemma AggregateDroop(s: Snapshot, opt: Options, env: Env, p: Protection, vref: int, rslt: u16, req: u16)
    ensures |AggregateBlocks(s, opt, env, p, vref, rslt, req)| > 12
    ensures AggregateBlocks(s, opt, env, p, vref, rslt, req)[12] == GridBlocks(p, s.gridVoltageV, rslt, req)[5]
  {
    hide AggregateMonitor, AggregateControls, GridBlocks, MpptBlocks, VendorBlock, AllPanels;
    AggregateMonitors(s, opt, env, vref);
  }

  /** Likewise for an inverter's own bank. */
  lemma InverterIsLaidOut(inv: Inverter, unit: u16, opt: Options, env: Env, p: Protection, rslt: u16, req: u16)
    ensures var bs := InverterBlocks(inv, unit, opt, env, p, rslt, req);
            && LaidOut(bs, PER_INVERTER, 5)
            && |BankRegs(bs)| <= 591 + 20 * PanelCount(inv)
            && bs[5..13] == [InverterControls(inv, env)] + GridBlocks(p, inv.acVoltageV as real, rslt, req)
  {
    hide InverterMonitor, InverterControls, GridBlocks, MpptBlocks, LaidOut, Total, AllSound, Fits, BankRegs, HeaderAt;
    var monitor, ctl, grid := InverterMonitor(inv, unit, opt, env), InverterControls(inv, env), GridBlocks(p, inv.acVoltageV as real, rslt, req);
    var tail := PanelBlocks(opt, PanelsOf(inv));
    TailShape(opt, PanelsOf(inv), []);
    assert tail + [] == tail;
    InverterTotals();
    Assemble(monitor, ctl, grid, tail, INVERTER_LENS);
    Laid(monitor + [ctl] + grid + tail, INVERTER_LENS, PER_INVERTER, 5);
    Middle(monitor, ctl, grid, tail);
    assert InverterBlocks(inv, unit, opt, env, p, rslt, req) == monitor + [ctl] + grid + tail;
  }

  lemma Middle(monitor: seq<Block>, ctl: Block, grid: seq<Block>, tail: seq<Block>)
    ensures (monitor + [ctl] + grid + tail)[|monitor|..|monitor| + 1 + |grid|] == [ctl] + grid
  {
  }

  lemma AssembleShape(monitor: seq<Block>, ctl: Block, grid: seq<Block>, tail: seq<Block>, lens: seq<nat>)
    requires |lens| == |monitor| + 8 && Monitors(monitor, lens[..|monitor|])
    requires ctl.id == Controls.MODEL && ctl.len == |ctl.body| == 24 == lens[|monitor|]
    requires Shaped(grid, GRID_IDS, GRID_LENS) && lens[|monitor| + 1..] == GRID_LENS && AllSound(tail)
    ensures var bs, first := monitor + [ctl] + grid + tail, |monitor|;
            && AllSound(bs) && |bs| >= |lens|
            && (forall i :: 0 <= i < |lens| ==> |bs[i].body| == lens[i])
            && (forall i :: 0 <= i < first ==> bs[i].id <= 121)
            && bs[first] == ctl && forall i :: 0 <= i < 7 ==> bs[first + 1 + i] == grid[i] && bs[first + 1 + i].id == GRID_IDS[i]
  {
    var bs := monitor + [ctl] + grid + tail;
    forall b | b in bs
      ensures Sound(b)
    {
      if b !in tail {
        assert b in monitor || b == ctl || b in grid;
      }
    }
    forall i | 0 <= i < |lens|
      ensures |bs[i].body| == lens[i]
    {
      if i < |monitor| {
        assert lens[..|monitor|][i] == lens[i];
      } else if i > |monitor| {
        assert lens[|monitor| + 1..][i - |monitor| - 1] == lens[i];
      }
    }
  }

  /** Monitoring blocks, Model 123, the grid models and a tail, put together. */
  lemma Assemble(monitor: seq<Block>, ctl: Block, grid: seq<Block>, tail: seq<Block>, lens: seq<nat>)
    requires |lens| == |monitor| + 8 && Monitors(monitor, lens[..|monitor|])
    requires ctl.id == Controls.MODEL && ctl.len == |ctl.body| == 24 == lens[|monitor|]
    requires Shaped(grid, GRID_IDS, GRID_LENS) && lens[|monitor| + 1..] == GRID_LENS
    requires AllSound(tail) && Total(lens, |lens|) + |RenderAll(tail)| <= 25531
    ensures var bs, first := monitor + [ctl] + grid + tail, |monitor|;
            && AllSound(bs) && Fits(bs) && |BankRegs(bs)| == 4 + Total(lens, |lens|) + |RenderAll(tail)|
            && (forall i :: 0 <= i < |lens| ==> |bs[i].body| == lens[i])
            && (forall i :: 0 <= i <= |lens| ==> HeaderAt(bs, i) == 2 + Total(lens, i))
            && (forall i :: 0 <= i < first ==> bs[i].id <= 121)
            && bs[first] == ctl && forall i :: 0 <= i < 7 ==> bs[first + 1 + i] == grid[i] && bs[first + 1 + i].id == GRID_IDS[i]
  {
    AssembleShape(monitor, ctl, grid, tail, lens);
    var front := monitor + [ctl] + grid;
    var bs := front + tail;
    hide AllSound, Monitors, Shaped, Total;
    forall i | 0 <= i <= |lens|
      ensures HeaderAt(bs, i) == 2 + Total(lens, i)
    {
      HeaderIsTotal(bs, lens, i);
    }
    assert |front| == |lens| && bs[..|lens|] == front;
    RenderConcat(front, tail);
  }

  lemma Laid(bs: seq<Block>, lens: seq<nat>, l: Layout, first: nat)
    requires |lens| == first + 8 <= |bs| && AllSound(bs) && Fits(bs)
    requires forall i :: 0 <= i < |lens| ==> |bs[i].body| == lens[i] && HeaderAt(bs, i) == 2 + Total(lens, i)
    requires forall i :: 0 <= i < first ==> bs[i].id <= 121
    requires bs[first].id == Controls.MODEL && forall i :: 0 <= i < 7 ==> bs[first + 1 + i].id == GRID_IDS[i]
    requires lens[first] == 24 && lens[first + 1..] == GRID_LENS
    requires l.controls == BASE + 2 + Total(lens, first) && l.highFreqTrip == BASE + 2 + Total(lens, first + 4)
    requires l.enterService == BASE + 2 + Total(lens, first + 5) && l.droop == BASE + 2 + Total(lens, first + 6)
    requires l.curve == BASE + 2 + Total(lens, first + 7)
    ensures LaidOut(bs, l, first)
  {
    hide AllSound, Fits, HeaderAt, Total;
    forall j | first < j < first + 8
      ensures bs[j].id == GRID_IDS[j - first - 1] && |bs[j].body| == GRID_LENS[j - first - 1]
    {
      var i := j - first - 1;
      assert bs[first + 1 + i].id == GRID_IDS[i] && lens[first + 1..][i] == lens[j];
    }
  }

  // ---- Routing -------------------------------------------------------------------------------

  /** A laid-out bank answers every lookup of a writable model with its fixed address. */
  lemma WritableModelsAreFound(bs: seq<Block>, l: Layout, first: nat)
    requires LaidOut(bs, l, first)
    ensures Find(BankRegs(bs), 123, BASE + 2) == Some(l.controls)
    ensures Find(BankRegs(bs), 703, BASE + 2) == Some(l.enterService)
    ensures Find(BankRegs(bs), 711, BASE + 2) == Some(l.droop)
    ensures Find(BankRegs(bs), 134, BASE + 2) == Some(l.curve)
  {
    hide BankRegs, AllSound, Fits, HeaderAt;
    FoundAt(bs, 123, first);
    FoundAt(bs, 703, first + 5);
    FoundAt(bs, 711, first + 6);
    FoundAt(bs, 134, first + 7);
  }

  lemma FoundAt(bs: seq<Block>, id: u16, k: nat)
    requires k < |bs| && bs[k].id == id != END_MODEL && forall i :: 0 <= i < k ==> bs[i].id != id
    requires AllSound(bs) && Fits(bs)
    ensures HeaderAt(bs, k) + 2 <= |BankRegs(bs)|
    ensures Find(BankRegs(bs), id, BASE + 2) == Some(BASE + HeaderAt(bs, k))
  {
    HeaderRegs(bs, k);
    FindInPrinted(bs, id);
  }

  /** The round trip for every bank the encoder builds: each block's declared length is the
      number of its registers, a walk visits exactly the emitted models in order and ends
      on the end marker in the last two registers, and a lookup finds exactly the emitted
      identifiers, at the header of the first block that has them. */
  lemma BankRoundTrip(bs: seq<Block>, l: Layout, first: nat, i: nat, id: u16)
    requires LaidOut(bs, l, first) && i < |bs| && id != END_MODEL
    ensures var regs := BankRegs(bs); var visited := Walk(regs, BASE + 2);
            && bs[i].len == |bs[i].body|
            && |visited| == |bs| + 1 && At(regs, visited[i]) == bs[i].id
            && At(regs, visited[|bs|]) == END_MODEL && visited[|bs|] == BASE + |regs| - 2 && regs[|regs| - 1] == 0
    ensures match Find(BankRegs(bs), id, BASE + 2)
      case None => forall j :: 0 <= j < |bs| ==> bs[j].id != id
      case Some(a) => exists j :: 0 <= j < |bs| && bs[j].id == id && a == BASE + HeaderAt(bs, j) && forall k :: 0 <= k < j ==> bs[k].id != id
  {
    hide BankRegs, HeaderAt;
    assert bs[i] in bs;
    WalkVisitsEveryModel(bs, i);
    FindInPrinted(bs, id);
  }
}
