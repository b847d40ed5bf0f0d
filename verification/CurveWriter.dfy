/** Writes to Model 134 (internal/server/freq_watt_curve_writer.go). */
module CurveWriter {
  import opened Prelude
  import opened Snapshots
  import opened Commands
  import opened Profiles
  import FreqDroop
  import FreqWattCurve
  import DroopWriter
  import Tracker

  /** A writable point: its body offset, parameter and two-letter code. */
  datatype HzPoint = HzPoint(body: u16, param: Param, code: string)

  const POINTS: seq<HzPoint> := [
    HzPoint(11, CurveUFLow, "DH"), HzPoint(13, CurveUFHigh, "DI"),
    HzPoint(15, CurveOFLow, "CB"), HzPoint(17, CurveOFHigh, "CC")]

  predicate Writable(field: nat) {
    field == 11 || field == 13 || field == 15 || field == 17
  }

  predicate ScanPasses(off: u16, regs: seq<u16>) {
    forall field: u16 :: field < FreqWattCurve.BODY_LEN && Touches(off, regs, field) ==> Writable(field)
  }

  /** The point a window writes: exactly one register, at one of the four offsets. */
  function PointOf(off: u16, regs: seq<u16>): (r: Option<nat>)
    ensures r.Some? ==> r.value < 4 && |regs| == 1 && POINTS[r.value].body == off
  {
    if |regs| == 1 && Writable(off) then Some((off - 11) / 2) else None
  }

  /** The four points alternate with read-only registers, so a window that survives the
      scan and touches a point is that one register. */
  lemma SurvivorsAreSinglePoints(off: u16, regs: seq<u16>)
    requires |regs| <= MAX_WRITE && ScanPasses(off, regs)
    ensures forall i :: 0 <= i < 4 ==> (Touches(off, regs, POINTS[i].body) <==> PointOf(off, regs) == Some(i))
    ensures forall i :: 0 <= i < 4 && Touches(off, regs, POINTS[i].body) ==> ReadField(off, regs, POINTS[i].body) == regs[0]
  {
    assert |regs| > 0 ==> Touches(off, regs, off);
    assert |regs| > 1 && off < 68 ==> Touches(off, regs, off + 1);
  }

  lemma PointsSurvive(off: u16, regs: seq<u16>)
    requires PointOf(off, regs).Some?
    ensures ScanPasses(off, regs)
  {
  }

  /** The row an acceptable write queues. */
  function Accepted(s: Snapshot, unit: u8, off: u16, regs: seq<u16>): (r: Option<Row>)
    ensures r.Some? ==> Mapped(s, unit)
  {
    var pt := PointOf(off, regs);
    if Mapped(s, unit) && pt.Some? && regs[0] != 0 && FamilyForModel(s.inverters[unit - 2].model) != Unknown
       && s.inverters[unit - 2].uid != "" then
      Some(ParamRow(s.inverters[unit - 2].uid, POINTS[pt.value].param, regs[0] as real / 100.0))
    else None
  }

  function Result(s: Snapshot, unit: u8, off: u16, regs: seq<u16>, fate: Fate, db: Db): DroopWriter.Outcome {
    match Accepted(s, unit, off, regs)
    case Some(row) =>
      var (d, ok) := Attempt(db, fate, row);
      DroopWriter.Outcome(d, ok, if ok then Some(map[POINTS[PointOf(off, regs).value].code := regs[0] as real / 100.0]) else None)
    case None => DroopWriter.Outcome(db, false, None)
  }

  method Scan(off: u16, regs: seq<u16>) returns (ok: bool)
    ensures ok <==> ScanPasses(off, regs)
  {
    var field: u16 := 0;
    while field < FreqWattCurve.BODY_LEN
      invariant 0 <= field <= FreqWattCurve.BODY_LEN
      invariant forall f: u16 :: f < field && Touches(off, regs, f) ==> Writable(f)
    {
      if Touches(off, regs, field) && !Writable(field) {
        return false;
      }
      field := field + 1;
    }
    return true;
  }

  /** Every route of these parameters is direct, except for an unknown family. */
  lemma CurveRoutes(family: Family, i: nat)
    requires i < 4
    ensures RouteFor(family, POINTS[i].param).Direct? <==> family != Unknown
  {
  }

  method Apply(unit: u8, s: Snapshot, writer: Writer, tracker: Tracker.WriteTracker, off: u16, regs: seq<u16>, now: int)
    returns (ok: bool)
    requires |regs| <= MAX_WRITE
    modifies writer, tracker
    ensures var r := Result(s, unit, off, regs, writer.fate, old(writer.State()));
            && writer.State() == r.db && ok == r.ok
            && tracker.entries == DroopWriter.Noted(old(tracker.entries), Tracker.Key(unit, FreqWattCurve.MODEL), r.track, now)
  {
    if unit <= 1 || unit - 2 >= |s.inverters| {
      return false;
    }
    hide Attempt, FamilyForModel;
    var inv := s.inverters[unit - 2];
    var scanned := Scan(off, regs);
    if !scanned {
      if PointOf(off, regs).Some? {
        PointsSurvive(off, regs);
      }
      return false;
    }
    SurvivorsAreSinglePoints(off, regs);
    var expected;
    ok, expected := QueuePoints(writer, FamilyForModel(inv.model), inv.uid, off, regs);
    hide ScanPasses;
    if ok && |expected| > 0 {
      tracker.Track(unit, FreqWattCurve.MODEL, expected, now);
    }
  }

  /** The loop over the four points; an untouched window is an error. */
  method QueuePoints(writer: Writer, family: Family, uid: string, off: u16, regs: seq<u16>)
    returns (ok: bool, expected: map<string, real>)
    requires |regs| <= MAX_WRITE && ScanPasses(off, regs)
    modifies writer
    ensures var pt := PointOf(off, regs);
            if pt.Some? && regs[0] != 0 && family != Unknown && uid != ""
            then (writer.State(), ok) == Attempt(old(writer.State()), writer.fate, ParamRow(uid, POINTS[pt.value].param, regs[0] as real / 100.0))
                 && (ok ==> expected == map[POINTS[pt.value].code := regs[0] as real / 100.0])
            else writer.State() == old(writer.State()) && !ok
  {
    SurvivorsAreSinglePoints(off, regs);
    hide Attempt, ScanPasses;
    var pt := PointOf(off, regs);
    expected := map[];
    var touched := false;
    var i := 0;
    while i < |POINTS|
      invariant 0 <= i <= 4
      invariant touched <==> pt.Some? && pt.value < i
      invariant !touched ==> writer.State() == old(writer.State()) && expected == map[]
      invariant touched ==> regs[0] != 0 && family != Unknown && uid != ""
      invariant touched ==>
        && (writer.State(), true) == Attempt(old(writer.State()), writer.fate, ParamRow(uid, POINTS[pt.value].param, regs[0] as real / 100.0))
        && expected == map[POINTS[pt.value].code := regs[0] as real / 100.0]
    {
      if Touches(off, regs, POINTS[i].body) {
        touched := true;
        var wire := ReadField(off, regs, POINTS[i].body);
        var hz := wire as real / 100.0;
        if hz <= 0.0 {
          return false, expected;
        }
        CurveRoutes(family, i);
        ok := DroopWriter.Dispatch(writer, family, uid, POINTS[i].param, hz);
        if !ok {
          return;
        }
        expected := expected[POINTS[i].code := hz];
      }
      i := i + 1;
    }
    ok := touched;
  }

  /** With a database that takes the statement, a write succeeds exactly when the unit
      names an identified inverter of known family and the window is one nonzero register
      at offset 11, 13, 15 or 17; it then queues one row, and encoding that row's value
      again gives back the register. */
  lemma AcceptanceCharacterised(s: Snapshot, unit: u8, off: u16, regs: seq<u16>, fate: Fate, db: Db)
    requires |regs| <= MAX_WRITE && fate(db.attempts)
    ensures var r := Result(s, unit, off, regs, fate, db);
            && (r.ok <==> Mapped(s, unit) && FamilyForModel(s.inverters[unit - 2].model) != Unknown
                          && s.inverters[unit - 2].uid != ""
                          && |regs| == 1 && (off == 11 || off == 13 || off == 15 || off == 17) && regs[0] != 0)
            && (!r.ok ==> r.db == db && r.track == None)
            && (r.ok ==> exists row :: r.db.log == db.log + [row] && row.ParamRow?
                                       && row.uid == s.inverters[unit - 2].uid && FreqWattCurve.HzCenti16(row.value) == regs[0])
  {
    match Accepted(s, unit, off, regs) {
      case None =>
      case Some(row) =>
        FreqWattCurve.HzCenti16RoundTrip(regs[0]);
        assert Result(s, unit, off, regs, fate, db).db.log == db.log + [row];
    }
  }

  /** The parameter and the code of the point at a body offset. */
  predicate NamesPoint(off: u16, param: Param, code: string) {
    || (off == 11 && param == CurveUFLow && code == "DH")
    || (off == 13 && param == CurveUFHigh && code == "DI")
    || (off == 15 && param == CurveOFLow && code == "CB")
    || (off == 17 && param == CurveOFHigh && code == "CC")
  }

  /** The effect in registers: for an identified inverter of a known model, the one nonzero
      register at offset 11, 13, 15 or 17 is queued in hertz as the parameter of that
      offset and, if the database takes it, tracked under its code; everything else is
      refused. */
  lemma WriteInRegisters(s: Snapshot, unit: u8, off: u16, regs: seq<u16>, fate: Fate, db: Db, param: Param, code: string)
    requires NamesPoint(off, param, code)
    ensures ParamName(param)
         == if off == 11 then "Under_Frequency_Watt_Low_set" else if off == 13 then "Under_Frequency_Watt_High_set"
            else if off == 15 then "Over_frequency_Watt_Low_set" else "Over_frequency_Watt_High_set"
    ensures var r := Result(s, unit, off, regs, fate, db);
            if 2 <= unit && unit - 2 < |s.inverters| && s.inverters[unit - 2].uid != ""
               && DroopWriter.KnownModel(s.inverters[unit - 2].model) && |regs| == 1 && regs[0] != 0 then
              var value := regs[0] as real / 100.0;
              var (d, ok) := Attempt(db, fate, ParamRow(s.inverters[unit - 2].uid, param, value));
              r == DroopWriter.Outcome(d, ok, if ok then Some(map[code := value]) else None)
            else r == DroopWriter.Outcome(db, false, None)
  {
    DroopWriter.FamiliesInCodes(s, unit);
    hide FamilyForModel, Attempt;
  }

  /** Every tracked request expects one code: that of its offset, at its register's value. */
  lemma TracksAsAsked(s: Snapshot, unit: u8, off: u16, regs: seq<u16>, fate: Fate, db: Db) returns (code: string)
    requires Result(s, unit, off, regs, fate, db).track.Some?
    ensures |regs| == 1 && Result(s, unit, off, regs, fate, db).track == Some(map[code := regs[0] as real / 100.0])
    ensures if off == 17 then code == "CC" else code == "DH" || code == "DI" || code == "CB"
  {
    code := POINTS[PointOf(off, regs).value].code;
  }

  /** What a record reports for a point. */
  function Reported(p: Protection, off: u16): real
    requires off == 11 || off == 13 || off == 15 || off == 17
  {
    if off == 11 then p.ofCurveUFLow else if off == 13 then p.ofCurveUFHigh else if off == 15 then p.ofCurveOFLow else p.ofDroopEnd
  }

  /** A point reads back where it was written: a record that reports the queued value for the
      queued parameter publishes the written register at the written offset. */
  lemma PointReadsBack(p: Protection, off: u16, reg: u16, param: Param, code: string)
    requires NamesPoint(off, param, code) && Reported(p, off) == reg as real / 100.0
    ensures FreqWattCurve.CurveBlock(p).body[off] == reg
  {
    FreqWattCurve.PublishedPoints(p);
    FreqWattCurve.HzCenti16RoundTrip(reg);
    hide FreqWattCurve.CurveBlock, FreqWattCurve.HzCenti16;
  }

  /** A tracked request matches a record exactly if it wrote Hz4 and the record reports that
      value (code CC) within tolerance. */
  lemma CompletesExactlyForHz4(s: Snapshot, unit: u8, off: u16, regs: seq<u16>, fate: Fate, db: Db, p: Protection)
    requires Result(s, unit, off, regs, fate, db).track.Some?
    ensures var want := Result(s, unit, off, regs, fate, db).track.value;
            Tracker.MatchesAll(p, want) <==>
              off == 17 && "CC" in p.has && FreqDroop.Near(p.ofDroopEnd, regs[0] as real / 100.0)
  {
    var want := Result(s, unit, off, regs, fate, db).track.value;
    if off != 17 {
      Tracker.CurveCodesNeverMatch(p, want);
    } else {
      assert want == map["CC" := regs[0] as real / 100.0] && "CC" in want;
      assert Tracker.MatchesAll(p, want) <==> Tracker.MatchesOne(p, "CC", regs[0] as real / 100.0);
    }
  }

  lemma Reporting(hz: real) returns (p: Protection)
    ensures "CC" in p.has && FreqDroop.Near(p.ofDroopEnd, hz)
  {
    p := NO_PROTECTION.(ofDroopEnd := hz, has := {"CC"});
  }

  /** Of the four points exactly Hz4 can ever be reported as completed. */
  lemma OnlyHz4CanComplete(s: Snapshot, unit: u8, off: u16, regs: seq<u16>, fate: Fate, db: Db)
    requires Result(s, unit, off, regs, fate, db).track.Some?
    ensures (exists p :: Tracker.MatchesAll(p, Result(s, unit, off, regs, fate, db).track.value)) <==> off == 17
  {
    assert |regs| > 0;
    hide Tracker.MatchesAll, Result, FreqDroop.Near;
    var want := Result(s, unit, off, regs, fate, db).track.value;
    forall p
      ensures Tracker.MatchesAll(p, want) <==>
                off == 17 && "CC" in p.has && FreqDroop.Near(p.ofDroopEnd, regs[0] as real / 100.0)
    {
      CompletesExactlyForHz4(s, unit, off, regs, fate, db, p);
    }
    if off == 17 {
      var p := Reporting(regs[0] as real / 100.0);
      assert Tracker.MatchesAll(p, want);
    }
  }
}
