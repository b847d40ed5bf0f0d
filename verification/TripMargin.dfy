/** The distance between the droop start and the fast over-frequency trip, as clients read
    both (internal/server/freq_droop_writer.go, internal/sunspec/freq_droop.go,
    der_trip.go). */
module TripMargin {
  import opened Prelude
  import opened Snapshots
  import opened Banks
  import opened Models
  import opened Encoder
  import opened Layout
  import opened Publication
  import opened DerTrip
  import FreqDroop
  import DroopWriter

  /** The fast point comes after the slow one, if that is reported. */
  function FastSlot(p: Protection): nat {
    if "AF" in p.has && "BK" in p.has then 1 else 0
  }

  /** The fast point of an inverter's Model 710. */
  function FastHz(regs: seq<u16>, p: Protection): u32 {
    Join32(Field(regs, PER_INVERTER.highFreqTrip, 9 + 4 * FastSlot(p)), Field(regs, PER_INVERTER.highFreqTrip, 10 + 4 * FastSlot(p)))
  }

  function DbOf(regs: seq<u16>): u32 {
    Join32(Field(regs, PER_INVERTER.droop, FreqDroop.DBOF_HI), Field(regs, PER_INVERTER.droop, FreqDroop.DBOF_LO))
  }

  lemma DbOfFrom(regs: seq<u16>, p: Protection, ans: (u16, u16))
    requires BodyAt(regs, PER_INVERTER.droop, FreqDroop.Body(p, ans.0, ans.1))
    ensures DbOf(regs) == FreqDroop.DbOfOf(p)
  {
    FreqDroop.BodyFields(p, ans.0, ans.1);
    hide FreqDroop.Body, FreqDroop.DbOfOf, Field;
  }

  lemma FastFrom(regs: seq<u16>, p: Protection)
    requires BodyAt(regs, PER_INVERTER.highFreqTrip, HfBlock(p).body) && "AK" in p.has && "BI" in p.has
    ensures FastHz(regs, p) == HzCenti(p.ofFast) && FastSlot(p) < Field(regs, PER_INVERTER.highFreqTrip, 8)
  {
    HighFrequencyInRegisters(p);
    hide HfBlock, Field, HzCenti, SecCenti;
    var b, k := HfBlock(p).body, FastSlot(p);
    assert Field(regs, PER_INVERTER.highFreqTrip, 9 + 4 * k) == b[9 + 4 * k];
    assert Field(regs, PER_INVERTER.highFreqTrip, 10 + 4 * k) == b[10 + 4 * k];
    assert Field(regs, PER_INVERTER.highFreqTrip, 8) == b[8];
  }

  lemma Published(s: Snapshot, i: nat, opt: Options, env: Env, ans: (u16, u16))
    requires i < |s.inverters|
    ensures var p := ProtectionOf(s, s.inverters[i].uid); var regs := InverterRegs(s, i, opt, env, ans);
            && DbOf(regs) == FreqDroop.DbOfOf(p)
            && ("AK" in p.has && "BI" in p.has ==>
                  FastHz(regs, p) == HzCenti(p.ofFast) && FastSlot(p) < Field(regs, PER_INVERTER.highFreqTrip, 8))
  {
    hide *;
    var p, regs := ProtectionOf(s, s.inverters[i].uid), InverterRegs(s, i, opt, env, ans);
    InverterPublishes(s, i, opt, env, ans);
    DbOfFrom(regs, p, ans);
    if "AK" in p.has && "BI" in p.has {
      FastFrom(regs, p);
    }
  }

  /** Both roundings keep the order of a start half a hertz below the trip. */
  lemma MarginSurvivesRounding(n: u32, fast: real)
    requires DroopWriter.StartHz(n) <= fast - DroopWriter.OF_MARGIN_HZ
    ensures n + 5050 <= HzCenti(fast) <==> n + 5050 <= 0xFFFF_FFFF
  {
    var v := fast * 100.0;
    assert v >= (n + 5050) as real;
    if v <= 4294967295.0 {
      SaturatingIsExact(n + 5050, 0xFFFF_FFFF);
      SaturatingIsMonotone((n + 5050) as real, v, 0xFFFF_FFFF);
    }
  }

  /** For every accepted start: once the inverter reports it with its fast trip unchanged,
      the next bank's droop start stays 50.50 Hz below its fast trip, read as registers,
      exactly when the trip register does not saturate.  A start reported only within the
      tracker's tolerance costs at most five hundredths. */
  lemma MarginInRegisters(s: Snapshot, unit: u8, off: u16, regs: seq<u16>, n: u32,
                          after: Snapshot, i: nat, opt: Options, env: Env, ans: (u16, u16))
    requires DroopWriter.Accepted(s, unit, off, regs) == Some(DroopWriter.Deadband(n))
    requires i < |after.inverters|
    requires var was, p := ProtectionOf(s, s.inverters[unit - 2].uid), ProtectionOf(after, after.inverters[i].uid);
             && "DC" in p.has && "AK" in p.has && "BI" in p.has && p.ofFast == was.ofFast
             && FreqDroop.Near(p.ofDroopStart, DroopWriter.StartHz(n))
    ensures var p := ProtectionOf(after, after.inverters[i].uid); var bank := InverterRegs(after, i, opt, env, ans);
            && (p.ofDroopStart == DroopWriter.StartHz(n) ==> (DbOf(bank) + 5050 <= FastHz(bank, p) <==> n + 5050 <= 0xFFFF_FFFF))
            && (n + 5050 <= 0xFFFF_FFFF ==> DbOf(bank) + 5045 <= FastHz(bank, p))
  {
    var p, bank := ProtectionOf(after, after.inverters[i].uid), InverterRegs(after, i, opt, env, ans);
    AcceptedMargin(s, unit, off, regs, n);
    hide *;
    Published(after, i, opt, env, ans);
    Margin(n, p);
  }

  lemma AcceptedMargin(s: Snapshot, unit: u8, off: u16, regs: seq<u16>, n: u32)
    requires DroopWriter.Accepted(s, unit, off, regs) == Some(DroopWriter.Deadband(n))
    ensures n > 0 && DroopWriter.StartHz(n) <= ProtectionOf(s, s.inverters[unit - 2].uid).ofFast - DroopWriter.OF_MARGIN_HZ
  {
  }

  lemma Margin(n: u32, p: Protection)
    requires n > 0 && DroopWriter.StartHz(n) <= p.ofFast - DroopWriter.OF_MARGIN_HZ
    requires "DC" in p.has && FreqDroop.Near(p.ofDroopStart, DroopWriter.StartHz(n))
    ensures p.ofDroopStart == DroopWriter.StartHz(n) ==> (FreqDroop.DbOfOf(p) + 5050 <= HzCenti(p.ofFast) <==> n + 5050 <= 0xFFFF_FFFF)
    ensures n + 5050 <= 0xFFFF_FFFF ==> FreqDroop.DbOfOf(p) + 5045 <= HzCenti(p.ofFast)
  {
    hide HzCenti, FreqDroop.DbOfOf;
    MarginSurvivesRounding(n, p.ofFast);
    if p.ofDroopStart == DroopWriter.StartHz(n) {
      FreqDroop.DbOfExact(p, n);
    }
    if n + 5050 <= 0xFFFF_FFFF {
      FreqDroop.DbOfReadBack(p, n);
    }
  }
}
