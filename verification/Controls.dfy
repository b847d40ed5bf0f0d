/** Model 123, inverter controls: the published side (internal/sunspec/controls.go). */
module Controls {
  import opened Prelude
  import opened Snapshots
  import opened Banks
  import opened Commands

  const MODEL: u16 := 123
  const BODY_LEN: u16 := 24

  const CONN: nat := 2
  const WMAXLIMPCT: nat := 3
  const WMAXLIMPCT_RVRTTMS: nat := 5
  const WMAXLIM_ENA: nat := 7

  function ControlsBlock(pct: u16, ena: u16, conn: u16): (b: Block)
    ensures b.id == MODEL && b.len == |b.body| == 24
    ensures b.body[CONN] == conn && b.body[WMAXLIMPCT] == pct && b.body[WMAXLIM_ENA] == ena
  {
    Block(MODEL, BODY_LEN, [
      NOT_IMPL_U16, NOT_IMPL_U16, conn, pct, NOT_IMPL_U16, NOT_IMPL_U16, NOT_IMPL_U16, ena,
      NOT_IMPL_S16, NOT_IMPL_U16, NOT_IMPL_U16, NOT_IMPL_U16, 0,
      NOT_IMPL_S16, NOT_IMPL_S16, NOT_IMPL_S16, NOT_IMPL_U16, NOT_IMPL_U16, NOT_IMPL_U16, 0, 0,
      ScaleFactor(0), ScaleFactor(0), ScaleFactor(0)])
  }

  method EmitControls(bank: Bank, pct: u16, ena: u16, conn: u16)
    modifies bank
    ensures bank.regs == old(bank.regs) + Render(ControlsBlock(pct, ena, conn))
  {
    bank.Put16([MODEL, BODY_LEN]);
    bank.Put16([NOT_IMPL_U16, NOT_IMPL_U16, conn, pct, NOT_IMPL_U16, NOT_IMPL_U16, NOT_IMPL_U16, ena]);
    bank.Put16([NOT_IMPL_S16, NOT_IMPL_U16, NOT_IMPL_U16, NOT_IMPL_U16, 0]);
    bank.Put16([NOT_IMPL_S16, NOT_IMPL_S16, NOT_IMPL_S16, NOT_IMPL_U16, NOT_IMPL_U16, NOT_IMPL_U16, 0, 0]);
    bank.Put16([ScaleFactor(0), ScaleFactor(0), ScaleFactor(0)]);
  }

  /** Integer division as the program does it: toward zero. */
  function Quot(x: int, y: int): int
    requires y > 0
  {
    if x < 0 then -(-x / y) else x / y
  }

  /** A cap of zero watts means that no cap was read. */
  function CapW(inv: Inverter): int {
    if inv.limitedPowerW == 0 then MAX_PANEL_W else inv.limitedPowerW
  }

  /** The effective output ceiling as a percentage of the nameplate, or the panel cap
      as a percentage when the nameplate is unknown. */
  function InvCapPct(inv: Inverter, table: map<int, nat>): int {
    var nameplate := NameplateW(inv, table);
    if nameplate <= 0 then Min(Quot(CapW(inv) * 100, MAX_PANEL_W), 100)
    else
      var effective := Min(CapW(inv) * PanelCount(inv), nameplate);
      Min(Quot(effective * 100, nameplate), 100)
  }

  predicate Limited(inv: Inverter) {
    CapW(inv) < MAX_PANEL_W
  }

  function SumPct(invs: seq<Inverter>, table: map<int, nat>): int {
    if invs == [] then 0 else SumPct(invs[..|invs| - 1], table) + InvCapPct(invs[|invs| - 1], table)
  }

  predicate AnyLimited(invs: seq<Inverter>) {
    exists i :: 0 <= i < |invs| && Limited(invs[i])
  }

  predicate AnyOnline(invs: seq<Inverter>) {
    exists i :: 0 <= i < |invs| && invs[i].online
  }

  function MeanPct(invs: seq<Inverter>, table: map<int, nat>): int {
    if invs == [] then 100 else Quot(SumPct(invs, table), |invs|)
  }

  function Flag(b: bool): u16 {
    if b then 1 else 0
  }

  /** The aggregate enable flag is the OR of the per-inverter ones, likewise the
      connection flag; the percentage is the mean. */
  method AggregateControlsState(invs: seq<Inverter>, table: map<int, nat>) returns (pct: u16, ena: u16, conn: u16)
    ensures pct == Wrap16(MeanPct(invs, table)) && ena == Flag(AnyLimited(invs)) && conn == Flag(AnyOnline(invs))
  {
    if |invs| == 0 {
      return 100, 0, 0;
    }
    var totalPct, limited, online := 0, 0, 0;
    for i := 0 to |invs|
      invariant totalPct == SumPct(invs[..i], table)
      invariant limited >= 0 && (limited > 0 <==> exists j :: 0 <= j < i && Limited(invs[j]))
      invariant online >= 0 && (online > 0 <==> exists j :: 0 <= j < i && invs[j].online)
    {
      assert invs[..i + 1][..i] == invs[..i];
      totalPct := totalPct + InvCapPct(invs[i], table);
      if CapW(invs[i]) < MAX_PANEL_W {
        limited := limited + 1;
      }
      if invs[i].online {
        online := online + 1;
      }
    }
    assert invs[..|invs|] == invs;
    pct := Wrap16(Quot(totalPct, |invs|));
    ena := if limited > 0 then 1 else 0;
    conn := if online > 0 then 1 else 0;
  }

  method PerInverterControlsState(inv: Inverter, table: map<int, nat>) returns (pct: u16, ena: u16, conn: u16)
    ensures pct == Wrap16(InvCapPct(inv, table)) && ena == Flag(Limited(inv)) && conn == Flag(inv.online)
  {
    pct := Wrap16(InvCapPct(inv, table));
    ena, conn := 0, 0;
    if CapW(inv) < MAX_PANEL_W {
      ena := 1;
    }
    if inv.online {
      conn := 1;
    }
  }

  // ---- Read-back ------------------------------------------------------------------

  /** The panel watts a written percentage turns into. */
  function CapWatts(pct: u16): (w: int)
    ensures MIN_PANEL_W <= w <= MAX_PANEL_W
  {
    Max(MAX_PANEL_W * Min(pct, 100) / 100, MIN_PANEL_W)
  }

  /** Without a nameplate the percentage read back is the one written, raised to 4 and
      lowered to 100. */
  lemma ReadBackWithoutNameplate(inv: Inverter, table: map<int, nat>, pct: u16)
    requires inv.limitedPowerW == CapWatts(pct) && NameplateW(inv, table) == 0
    ensures InvCapPct(inv, table) == Max(4, Min(pct, 100))
  {
  }

  /** Rated watts and panels: the loaded table first, then the defaults of the type codes. */
  predicate Rated(inv: Inverter, table: map<int, nat>, n: nat, panels: nat) {
    && panels == (if inv.typeCode == "01" || inv.typeCode == "04" then 2 else if inv.typeCode == "03" then 4 else 0)
    && n == if inv.model in table then table[inv.model]
            else if inv.typeCode == "01" then 730 else if inv.typeCode == "03" then 1460 else if inv.typeCode == "04" then 880 else 0
  }

  /** With a rating of n watts the percentage read back is the largest whole one that the
      output ceiling - the cap of all panels, at most n - still reaches. */
  lemma ReadBackWithNameplate(inv: Inverter, table: map<int, nat>, n: nat, panels: nat)
    requires Rated(inv, table, n, panels) && n > 0 && inv.limitedPowerW > 0
    ensures var ceiling := if inv.limitedPowerW * panels < n then inv.limitedPowerW * panels else n;
            && 0 <= InvCapPct(inv, table) <= 100
            && InvCapPct(inv, table) * n <= 100 * ceiling < (InvCapPct(inv, table) + 1) * n
  {
    var ceiling := Min(inv.limitedPowerW * panels, n);
    assert InvCapPct(inv, table) == Min(Quot(ceiling * 100, n), 100);
    hide InvCapPct, Rated;
    assert inv.limitedPowerW * panels >= 0;
    LargestPct(ceiling, n);
  }

  lemma LargestPct(x: nat, n: nat)
    requires x <= n && n > 0
    ensures var q := Quot(x * 100, n); 0 <= q <= 100 && q * n <= 100 * x < (q + 1) * n
  {
    ScaledDiv(x, n);
    var q := x * 100 / n;
    assert x * 100 == n * q + x * 100 % n;
  }

  lemma DivMonotone(x: int, y: int, d: int)
    requires 0 <= x <= y && d > 0
    ensures 0 <= x / d <= y / d
  {
    var p, q := x / d, y / d;
    assert x == d * p + x % d && y == d * q + y % d;
    if p > q {
      MulMonotone(q + 1, p, d);
      assert false;
    }
    if p < 0 {
      MulMonotone(p, -1, d);
    }
  }

  lemma MulMonotone(a: int, b: int, d: int)
    requires a <= b && d >= 0
    ensures d * a <= d * b
  {
  }

  lemma ScaledDiv(x: int, d: int)
    requires 0 <= x <= d && d > 0
    ensures 0 <= x * 100 / d <= 100
  {
    DivMonotone(x * 100, d * 100, d);
    assert 100 * d / d == 100;
  }

  /** In every case the percentage read back is in 0..100 and grows with the cap. */
  lemma ReadBackIsMonotone(inv: Inverter, table: map<int, nat>, low: int, high: int)
    requires 0 < low <= high
    ensures var a, b := InvCapPct(inv.(limitedPowerW := low), table), InvCapPct(inv.(limitedPowerW := high), table);
            0 <= a <= b <= 100
  {
    var n := NameplateW(inv, table);
    assert NameplateW(inv.(limitedPowerW := low), table) == n == NameplateW(inv.(limitedPowerW := high), table);
    if n <= 0 {
      DivMonotone(low * 100, high * 100, MAX_PANEL_W);
    } else {
      var k := PanelCount(inv);
      assert low * k <= high * k && 0 <= low * k;
      var a, b := Min(low * k, n), Min(high * k, n);
      DivMonotone(a * 100, b * 100, n);
      ScaledDiv(b, n);
    }
  }

  /** The aggregate percentage is a mean of percentages, so it stays in range and its
      register does not wrap. */
  lemma {:induction false} SumPctInRange(invs: seq<Inverter>, table: map<int, nat>)
    requires forall inv :: inv in invs ==> inv.limitedPowerW >= 0
    ensures 0 <= SumPct(invs, table) <= 100 * |invs|
  {
    if invs != [] {
      var last := invs[|invs| - 1];
      SumPctInRange(invs[..|invs| - 1], table);
      ReadBackIsMonotone(last, table, CapW(last), CapW(last));
      assert InvCapPct(last, table) == InvCapPct(last.(limitedPowerW := CapW(last)), table);
    }
  }

  lemma AggregatePctInRange(invs: seq<Inverter>, table: map<int, nat>)
    requires forall inv :: inv in invs ==> inv.limitedPowerW >= 0
    ensures 0 <= MeanPct(invs, table) <= 100
  {
    if invs == [] {
      return;
    }
    SumPctInRange(invs, table);
    DivMonotone(SumPct(invs, table), 100 * |invs|, |invs|);
    assert 100 * |invs| / |invs| == 100;
  }
}
