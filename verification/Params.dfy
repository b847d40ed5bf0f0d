/** One line of parameters_app.conf, already split into fields
    (internal/source/params.go), the live power sum (internal/source/
    snapshot_builder.go) and the per-phase split (internal/sunspec/encoder.go): the
    same watts, however they are grouped. */
module Params {
  import opened Prelude
  import opened Snapshots
  import Events

  datatype Parsed = Parsed(inv: Inverter) | Malformed(field: nat)

  /** Phase voltage and total AC power, from the telemetry columns. */
  function GuessACFromTail(typeCode: string, tail: seq<int>): (int, int) {
    if (typeCode == "01" || typeCode == "04") && |tail| >= 5 then (tail[2], tail[1] + tail[3])
    else if typeCode == "03" && |tail| >= 6 then (tail[2], tail[1] + tail[3] + tail[4] + tail[5])
    else (0, 0)
  }

  /** Voltage and power are the ones the telemetry columns give. */
  predicate FromTail(inv: Inverter) {
    (inv.acVoltageV, inv.acPowerW) == GuessACFromTail(inv.typeCode, inv.rawTail)
  }

  const BLANK := Inverter("", false, "", 0.0, 0, 0, 0, 0, 0, 0, 0, 0, [], Events.NO_EVENTS)

  predicate Numeric(f: seq<string>, atoi: string -> Option<int>, from: nat) {
    forall i :: from <= i < |f| ==> atoi(f[i]).Some?
  }

  /** When a line is accepted: a short record only for an offline inverter, otherwise
      every telemetry column must be numeric. */
  predicate Acceptable(f: seq<string>, atoi: string -> Option<int>, parseFloat: string -> Option<real>) {
    && |f| >= 3
    && atoi(f[1]).Some?
    && (|f| < 5 ==> atoi(f[1]).value == 0)
    && (|f| >= 5 ==> parseFloat(f[3]).Some? && Numeric(f, atoi, 4))
  }

  /** Voltage, power and panels as the columns of a full line say: the sixth is the first
      panel, the seventh the voltage, the others follow by type. */
  predicate InColumns(inv: Inverter, f: seq<string>, atoi: string -> Option<int>)
    requires |f| >= 5 && Numeric(f, atoi, 4)
  {
    var n := i requires 4 <= i < |f| => atoi(f[i]).value;
    if (f[2] == "01" || f[2] == "04") && |f| >= 9 then
      && inv.acVoltageV == n(6) && inv.acPowerW == n(5) + n(7)
      && (inv.online ==> PanelPowers(inv) == [n(5), n(7)])
    else if f[2] == "03" && |f| >= 10 then
      && inv.acVoltageV == n(6) && inv.acPowerW == n(5) + n(7) + n(8) + n(9)
      && (inv.online ==> PanelPowers(inv) == [n(5), n(7), n(8), n(9)])
    else inv.acVoltageV == 0 && inv.acPowerW == 0 && PanelPowers(inv) == []
  }

  /** `strconv.Atoi` and `strconv.ParseFloat` are parameters. */
  method ParseInverterLine(f: seq<string>, atoi: string -> Option<int>, parseFloat: string -> Option<real>)
    returns (r: Parsed)
    ensures r.Parsed? <==> Acceptable(f, atoi, parseFloat)
    ensures r.Parsed? && |f| >= 5 ==> InColumns(r.inv, f, atoi)
    ensures r.Parsed? ==>
      && FromTail(r.inv)
      && r.inv.uid == f[0] && r.inv.typeCode == f[2]
      && (r.inv.online <==> atoi(f[1]).value != 0)
      && r.inv.frequencyHz == (if |f| < 5 then 0.0 else parseFloat(f[3]).value)
      && r.inv.temperatureC == (if |f| < 5 then 0 else atoi(f[4]).value - 100)
      && |r.inv.rawTail| == Max(0, if |f| < 5 then 0 else |f| - 4)
      && forall i :: 0 <= i < |r.inv.rawTail| ==> r.inv.rawTail[i] == atoi(f[4 + i]).value
  {
    if |f| < 3 {
      return Malformed(0);
    }
    var online := atoi(f[1]);
    if online.None? {
      return Malformed(1);
    }
    if |f| < 5 {
      if online.value != 0 {
        return Malformed(1);
      }
      return Parsed(BLANK.(uid := f[0], online := false, typeCode := f[2]));
    }
    var freq := parseFloat(f[3]);
    if freq.None? {
      return Malformed(3);
    }
    var tempRaw := atoi(f[4]);
    if tempRaw.None? {
      return Malformed(4);
    }
    var tail := [];
    var i := 4;
    while i < |f|
      invariant 4 <= i <= |f| && |tail| == i - 4
      invariant forall j :: 4 <= j < i ==> atoi(f[j]).Some? && tail[j - 4] == atoi(f[j]).value
    {
      var v := atoi(f[i]);
      if v.None? {
        return Malformed(i);
      }
      tail := tail + [v.value];
      i := i + 1;
    }
    var (vAC, wAC) := GuessACFromTail(f[2], tail);
    return Parsed(BLANK.(
      uid := f[0], online := online.value != 0, typeCode := f[2], frequencyHz := freq.value,
      temperatureC := tempRaw.value - 100, rawTail := tail, acVoltageV := vAC, acPowerW := wAC));
  }

  // ---- Power conservation ------------------------------------------------------

  function Sum(xs: seq<int>): int {
    if xs == [] then 0 else Sum(xs[..|xs| - 1]) + xs[|xs| - 1]
  }

  lemma {:induction false} SumOfConcat(xs: seq<int>, ys: seq<int>)
    ensures Sum(xs + ys) == Sum(xs) + Sum(ys)
  {
    if ys == [] {
      assert xs + ys == xs;
    } else {
      assert (xs + ys)[..|xs + ys| - 1] == xs + ys[..|ys| - 1];
      SumOfConcat(xs, ys[..|ys| - 1]);
    }
  }

  /** For a parsed inverter that is online, the panels add up to its AC power. */
  lemma PanelsAddUp(inv: Inverter)
    requires FromTail(inv) && inv.online
    ensures Sum(PanelPowers(inv)) == inv.acPowerW
  {
    var p := PanelPowers(inv);
    if |p| == 2 {
      SumOfConcat([p[0]], [p[1]]);
      assert p == [p[0]] + [p[1]];
    } else if |p| == 4 {
      SumOfConcat([p[0]] + [p[1]], [p[2]] + [p[3]]);
      SumOfConcat([p[0]], [p[1]]);
      SumOfConcat([p[2]], [p[3]]);
      assert p == ([p[0]] + [p[1]]) + ([p[2]] + [p[3]]);
    }
  }

  /** The panel powers of the online inverters, in the order of Model 160. */
  function FleetPanels(invs: seq<Inverter>): seq<int> {
    if invs == [] then []
    else FleetPanels(invs[..|invs| - 1]) + PanelPowers(invs[|invs| - 1])
  }

  /** The AC power of the online inverters whose phase bucket is `ph` (0, 1, 2). */
  function PhaseBucket(inv: Inverter): nat {
    if 1 <= inv.phase <= 3 then inv.phase - 1 else 0
  }

  function PhaseW(invs: seq<Inverter>, ph: nat): int {
    if invs == [] then 0
    else
      var last := invs[|invs| - 1];
      PhaseW(invs[..|invs| - 1], ph) + (if last.online && PhaseBucket(last) == ph then last.acPowerW else 0)
  }

  function LiveW(invs: seq<Inverter>): int {
    if invs == [] then 0
    else
      var last := invs[|invs| - 1];
      LiveW(invs[..|invs| - 1]) + (if last.online then last.acPowerW else 0)
  }

  method LiveSystemPowerW(invs: seq<Inverter>) returns (w: int)
    ensures w == Int32(LiveW(invs))
  {
    var sum := 0;
    for i := 0 to |invs|
      invariant sum == LiveW(invs[..i])
    {
      assert invs[..i + 1][..i] == invs[..i];
      if invs[i].online {
        sum := sum + invs[i].acPowerW;
      }
    }
    assert invs[..|invs|] == invs;
    w := Int32(sum);
  }

  /** The panel list of Model 160 and the live system power carry the same total. */
  lemma {:induction false} PanelPowerIsConserved(invs: seq<Inverter>)
    requires forall inv :: inv in invs ==> FromTail(inv)
    ensures Sum(FleetPanels(invs)) == LiveW(invs)
  {
    if invs != [] {
      var front, last := invs[..|invs| - 1], invs[|invs| - 1];
      PanelPowerIsConserved(front);
      SumOfConcat(FleetPanels(front), PanelPowers(last));
      if last.online {
        PanelsAddUp(last);
      }
    }
  }

  /** No online inverter is counted in two phases or in none. */
  lemma {:induction false} PhasePowerIsConserved(invs: seq<Inverter>)
    ensures PhaseW(invs, 0) + PhaseW(invs, 1) + PhaseW(invs, 2) == LiveW(invs)
  {
    if invs != [] {
      PhasePowerIsConserved(invs[..|invs| - 1]);
    }
  }

  // ---- Phase currents ------------------------------------------------------------

  /** Deci-amperes of `w` watts at `v` volts. */
  function DeciAmps(w: int, v: real): real
    requires v != 0.0
  {
    w as real / v * 10.0
  }

  /** The current register of `w` watts at the grid voltage; zero without one. */
  function CurrentReg(s: Snapshot, w: int): u16 {
    if s.gridVoltageV <= 0.0 then 0 else Real16(DeciAmps(w, s.gridVoltageV) + 0.5)
  }

  /** Total and per-phase current registers. */
  method DerivePhaseCurrents(s: Snapshot) returns (total: u16, perPhase: seq<u16>)
    ensures total == CurrentReg(s, LiveW(s.inverters))
    ensures |perPhase| == 3 && forall i :: 0 <= i < 3 ==> perPhase[i] == CurrentReg(s, PhaseW(s.inverters, i))
  {
    hide Real16;
    perPhase := [0, 0, 0];
    if s.gridVoltageV <= 0.0 {
      return 0, perPhase;
    }
    var phaseW := [0, 0, 0];
    for i := 0 to |s.inverters|
      invariant |phaseW| == 3
      invariant forall j :: 0 <= j < 3 ==> phaseW[j] == PhaseW(s.inverters[..i], j)
      invariant phaseW[0] + phaseW[1] + phaseW[2] == LiveW(s.inverters[..i])
    {
      assert s.inverters[..i + 1][..i] == s.inverters[..i];
      if s.inverters[i].online {
        var ph := s.inverters[i].phase - 1;
        if ph < 0 || ph > 2 {
          ph := 0;
        }
        phaseW := phaseW[ph := phaseW[ph] + s.inverters[i].acPowerW];
      }
    }
    assert s.inverters[..|s.inverters|] == s.inverters;
    total, perPhase := CurrentsOf(phaseW, s.gridVoltageV);
  }

  method CurrentsOf(phaseW: seq<int>, v: real) returns (total: u16, perPhase: seq<u16>)
    requires |phaseW| == 3 && v > 0.0
    ensures total == Real16((phaseW[0] + phaseW[1] + phaseW[2]) as real / v * 10.0 + 0.5)
    ensures |perPhase| == 3 && forall j :: 0 <= j < 3 ==> perPhase[j] == Real16(phaseW[j] as real / v * 10.0 + 0.5)
  {
    hide Real16;
    perPhase := [0, 0, 0];
    var sum := 0;
    for i := 0 to 3
      invariant |perPhase| == 3
      invariant forall j :: 0 <= j < i ==> perPhase[j] == Real16(phaseW[j] as real / v * 10.0 + 0.5)
      invariant sum == (if i > 0 then phaseW[0] else 0) + (if i > 1 then phaseW[1] else 0) + (if i > 2 then phaseW[2] else 0)
    {
      perPhase := perPhase[i := Real16(phaseW[i] as real / v * 10.0 + 0.5)];
      sum := sum + phaseW[i];
    }
    total := Real16(sum as real / v * 10.0 + 0.5);
  }

  lemma RoundedSum(x: real, y: real, z: real)
    ensures -1 <= (x + y + z + 0.5).Floor - ((x + 0.5).Floor + (y + 0.5).Floor + (z + 0.5).Floor) <= 1
  {
    var fx, fy, fz := (x + 0.5).Floor, (y + 0.5).Floor, (z + 0.5).Floor;
    var t := (x + y + z + 0.5).Floor;
    assert fx as real <= x + 0.5 < fx as real + 1.0;
    assert fy as real <= y + 0.5 < fy as real + 1.0;
    assert fz as real <= z + 0.5 < fz as real + 1.0;
    assert t as real <= x + y + z + 0.5 < t as real + 1.0;
    assert ((t - (fx + fy + fz)) as real) < 2.0;
    assert ((fx + fy + fz) - t) as real < 2.0;
  }

  lemma InRange(x: real)
    requires 0.0 <= x < 65535.5
    ensures Real16(x) == x.Floor
  {
  }

  lemma SplitCurrentsAgree(a: int, b: int, c: int, v: real)
    requires a >= 0 && b >= 0 && c >= 0 && v > 0.0
    requires DeciAmps(a + b + c, v) < 65535.0
    ensures var sum := Real16(DeciAmps(a, v) + 0.5) + Real16(DeciAmps(b, v) + 0.5) + Real16(DeciAmps(c, v) + 0.5);
            -1 <= Real16(DeciAmps(a + b + c, v) + 0.5) - sum <= 1
  {
    var x, y, z := DeciAmps(a, v), DeciAmps(b, v), DeciAmps(c, v);
    NonNegative(a, v);
    NonNegative(b, v);
    NonNegative(c, v);
    assert DeciAmps(a + b + c, v) == x + y + z;
    RoundedSum(x, y, z);
    InRange(x + 0.5);
    InRange(y + 0.5);
    InRange(z + 0.5);
    InRange(x + y + z + 0.5);
  }

  /** For non-negative phase powers whose total current fits a register, the total and
      the sum of the three phase currents differ by at most one unit. */
  lemma CurrentsAgree(invs: seq<Inverter>, v: real)
    requires v > 0.0 && DeciAmps(LiveW(invs), v) < 65535.0
    requires PhaseW(invs, 0) >= 0 && PhaseW(invs, 1) >= 0 && PhaseW(invs, 2) >= 0
    ensures var sum := Real16(DeciAmps(PhaseW(invs, 0), v) + 0.5) + Real16(DeciAmps(PhaseW(invs, 1), v) + 0.5) +
                       Real16(DeciAmps(PhaseW(invs, 2), v) + 0.5);
            -1 <= Real16(DeciAmps(LiveW(invs), v) + 0.5) - sum <= 1
  {
    PhasePowerIsConserved(invs);
    SplitCurrentsAgree(PhaseW(invs, 0), PhaseW(invs, 1), PhaseW(invs, 2), v);
  }

  lemma NonNegative(w: int, v: real)
    requires w >= 0 && v > 0.0
    ensures DeciAmps(w, v) >= 0.0
  {
    assert (w as real) / v >= 0.0;
  }
}
