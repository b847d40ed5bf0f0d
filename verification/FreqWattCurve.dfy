/** Model 134, the frequency-watt curve (internal/sunspec/freq_watt_curve.go). */
module FreqWattCurve {
  import opened Prelude
  import opened Snapshots
  import opened Banks

  const MODEL: u16 := 134
  const BODY_LEN: u16 := 10 + 1 * 58

  const HZ1: nat := 11
  const HZ2: nat := 13
  const HZ3: nat := 15
  const HZ4: nat := 17

  function HzCenti16(hz: real): u16 {
    if hz <= 0.0 then 0 else Saturating(hz * 100.0, 0xFFFF)
  }

  /** Decoding a nonzero register and encoding it again gives the register back. */
  lemma HzCenti16RoundTrip(wire: u16)
    ensures HzCenti16(wire as real / 100.0) == wire
  {
    assert wire as real / 100.0 * 100.0 == wire as real;
    SaturatingIsExact(wire, 0xFFFF);
  }

  predicate HasAll(p: Protection) {
    "DH" in p.has && "DI" in p.has && "CB" in p.has && "CC" in p.has
  }

  function Enabled(p: Protection): u16 {
    if HasAll(p) && (Trunc(p.ofDroopMode) == 13 || Trunc(p.ofDroopMode) == 14) then 1 else 0
  }

  function Header(p: Protection): (r: seq<u16>)
    ensures |r| == 10
  {
    [1, Enabled(p), 0, 0, 0, 1, 20, ScaleFactor(-2), ScaleFactor(0), ScaleFactor(0)]
  }

  function Points(p: Protection): (r: seq<u16>)
    ensures |r| == 9
  {
    [if HasAll(p) then 4 else 0,
     HzCenti16(p.ofCurveUFLow), 0, HzCenti16(p.ofCurveUFHigh), 100,
     HzCenti16(p.ofCurveOFLow), 100, HzCenti16(p.ofDroopEnd), 0]
  }

  const TRAILER: seq<u16> := [0, 0, 0, 0, 0, 100, 0, 0, 0]

  function CurveBlock(p: Protection): (b: Block)
    ensures b.id == MODEL && b.len == |b.body| == 68
  {
    Block(MODEL, BODY_LEN, Header(p) + Points(p) + seq(32, i => 0) + PackString("APS-FW1", 8) + TRAILER)
  }

  method EmitFreqWattCurve(bank: Bank, p: Protection)
    modifies bank
    ensures bank.regs == old(bank.regs) + Render(CurveBlock(p))
  {
    hide Header, Points, PackString;
    bank.Put16([MODEL, BODY_LEN]);
    bank.Put16(Header(p));
    bank.Put16(Points(p));
    EmitUnusedPoints(bank);
    bank.PutString("APS-FW1", 8);
    bank.Put16(TRAILER);
  }

  method EmitUnusedPoints(bank: Bank)
    modifies bank
    ensures bank.regs == old(bank.regs) + seq(32, i => 0)
  {
    var i := 0;
    while i < 16
      invariant 0 <= i <= 16
      invariant bank.regs == old(bank.regs) + seq(2 * i, j => 0)
    {
      bank.Put16([0]);
      bank.Put16([0]);
      i := i + 1;
    }
  }

  /** The four threshold registers of the body, as a client reads them. */
  lemma PublishedPoints(p: Protection)
    ensures var b := CurveBlock(p).body;
      && b[HZ1] == HzCenti16(p.ofCurveUFLow) && b[HZ2] == HzCenti16(p.ofCurveUFHigh)
      && b[HZ3] == HzCenti16(p.ofCurveOFLow) && b[HZ4] == HzCenti16(p.ofDroopEnd)
      && b[12] == b[18] == 0 && b[14] == b[16] == 100
  {
  }
}
