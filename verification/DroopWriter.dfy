/** Writes to Model 711 (internal/server/freq_droop_writer.go). */
module DroopWriter {
  import opened Prelude
  import opened Snapshots
  import opened Commands
  import opened Profiles
  import FreqDroop
  import Tracker

  const OF_MARGIN_HZ: real := 0.5
  const MIN_KOF: u16 := 100
  const MAX_KOF: u16 := 1500

  // ---- What a window means -----------------------------------------------------------------

  /** The single thing an acceptable write asks for. */
  datatype Command =
    | Request
    | Enable(on: bool)
    | Deadband(n: u32)
    | Slope(k: u16)
    | Delay(secs: u32)

  /** Only five kinds of window mean anything: Ena (alone or with the request counter),
      the counter alone, the whole of DbOf, KOf, and the whole of RspTms. */
  function CommandOf(off: u16, regs: seq<u16>): Option<Command> {
    if off == 0 && 1 <= |regs| <= 2 then Some(Enable(regs[0] != 0))
    else if off == 1 && |regs| == 1 then Some(Request)
    else if off == 12 && |regs| == 2 then Some(Deadband(Join32(regs[0], regs[1])))
    else if off == 16 && |regs| == 1 then Some(Slope(regs[0]))
    else if off == 18 && |regs| == 2 then Some(Delay(Join32(regs[0], regs[1])))
    else None
  }

  function StartHz(n: u32): real {
    50.0 + n as real / 100.0
  }

  function ModeFor(on: bool, p: Protection): int {
    if !on then FreqDroop.MODE_DISABLED
    else if Trunc(p.ofDroopMode) == FreqDroop.MODE_ASNZS then FreqDroop.MODE_ASNZS
    else FreqDroop.MODE_OTHER
  }

  function ParamFor(cmd: Command): Param
    requires !cmd.Request?
  {
    match cmd
    case Enable(_) => DroopMode
    case Deadband(_) => DroopStart
    case Slope(_) => DroopSlope
    case Delay(_) => DroopDelay
  }

  function ValueFor(cmd: Command, p: Protection): real
    requires !cmd.Request?
  {
    match cmd
    case Enable(on) => ModeFor(on, p) as real
    case Deadband(n) => StartHz(n)
    case Slope(k) => k as real / 10.0
    case Delay(secs) => secs as real
  }

  predicate InBounds(cmd: Command, p: Protection) {
    match cmd
    case Deadband(n) => n > 0 && StartHz(n) <= p.ofFast - OF_MARGIN_HZ
    case Slope(k) => MIN_KOF <= k <= MAX_KOF
    case _ => true
  }

  /** May the command be queued for the inverter of this unit? */
  predicate Admissible(cmd: Command, s: Snapshot, unit: u8)
    requires Mapped(s, unit) && !cmd.Request?
  {
    var inv := s.inverters[unit - 2];
    var p := ProtectionOf(s, inv.uid);
    && "AK" in p.has && InBounds(cmd, p)
    && RouteFor(FamilyForModel(inv.model), ParamFor(cmd)).Direct?
    && inv.uid != ""
  }

  function RowFor(cmd: Command, s: Snapshot, unit: u8): Row
    requires Mapped(s, unit) && !cmd.Request?
  {
    var uid := s.inverters[unit - 2].uid;
    ParamRow(uid, ParamFor(cmd), ValueFor(cmd, ProtectionOf(s, uid)))
  }

  /** What the inverter is expected to report once the row has landed; delays are not
      reported. */
  function ExpectedFor(cmd: Command, p: Protection): map<string, real>
    requires !cmd.Request?
  {
    match cmd
    case Enable(on) => map["CV" := ModeFor(on, p) as real]
    case Deadband(n) => map["DC" := StartHz(n)]
    case Slope(k) => map["DD" := k as real / 10.0]
    case Delay(_) => map[]
  }

  /** The command a window queues for a unit, if it queues one. */
  function Accepted(s: Snapshot, unit: u8, off: u16, regs: seq<u16>): (r: Option<Command>)
    ensures r.Some? ==> Mapped(s, unit) && !r.value.Request? && Admissible(r.value, s, unit)
  {
    var cmd := CommandOf(off, regs);
    if Mapped(s, unit) && cmd.Some? && !cmd.value.Request? && Admissible(cmd.value, s, unit) then cmd else None
  }

  // ---- The read-only scan -------------------------------------------------------------------

  predicate Writable(field: nat) {
    field == 0 || field == 1 || field == 12 || field == 13 || field == 16 || field == 18 || field == 19
  }

  /** No read-only register of the body is covered. */
  predicate ScanPasses(off: u16, regs: seq<u16>) {
    forall field: u16 :: field < 22 && Touches(off, regs, field) ==> Writable(field)
  }

  predicate WantsField(off: u16, regs: seq<u16>) {
    || Touches(off, regs, 0)
    || (Touches(off, regs, 12) && Touches(off, regs, 13))
    || Touches(off, regs, 16)
    || (Touches(off, regs, 18) && Touches(off, regs, 19))
  }

  /** No contiguous window survives the scan while covering two writable groups, and
      the survivors that touch a whole field or just the counter are exactly the windows
      with a meaning. */
  lemma ScanLeavesOneGroup(off: u16, regs: seq<u16>)
    requires |regs| <= MAX_WRITE
    ensures CommandOf(off, regs).Some? <==> ScanPasses(off, regs) && (WantsField(off, regs) || Touches(off, regs, 1))
    ensures ScanPasses(off, regs) ==>
      forall f: u16, g: u16 :: f < g < 22 && Touches(off, regs, f) && Touches(off, regs, g) ==>
        (f == 0 && g == 1) || (f == 12 && g == 13) || (f == 18 && g == 19)
  {
    assert |regs| > 0 ==> Touches(off, regs, off);
    assert |regs| > 1 && off < 22 ==> Touches(off, regs, off + 1);
    assert |regs| > 2 && off < 22 ==> Touches(off, regs, off + 2);
    if CommandOf(off, regs).Some? {
      assert forall field: u16 :: Touches(off, regs, field) ==> off <= field < off + |regs|;
    }
  }

  /** What the program reads off a window that survived the scan. */
  lemma SurvivorsAreCommands(off: u16, regs: seq<u16>)
    requires |regs| <= MAX_WRITE && ScanPasses(off, regs)
    ensures Touches(off, regs, 0) ==> CommandOf(off, regs) == Some(Enable(ReadField(off, regs, 0) != 0))
    ensures Touches(off, regs, 12) && Touches(off, regs, 13) ==>
      CommandOf(off, regs) == Some(Deadband(Join32(ReadField(off, regs, 12), ReadField(off, regs, 13))))
    ensures Touches(off, regs, 16) ==> CommandOf(off, regs) == Some(Slope(ReadField(off, regs, 16)))
    ensures Touches(off, regs, 18) && Touches(off, regs, 19) ==>
      CommandOf(off, regs) == Some(Delay(Join32(ReadField(off, regs, 18), ReadField(off, regs, 19))))
    ensures !WantsField(off, regs) ==> CommandOf(off, regs) == if Touches(off, regs, 1) then Some(Request) else None
  {
    ScanLeavesOneGroup(off, regs);
  }

  // ---- Apply ----------------------------------------------------------------------------------

  /** One parameter through the route of the inverter's family. */
  method Dispatch(writer: Writer, family: Family, uid: string, param: Param, value: real) returns (ok: bool)
    modifies writer
    ensures RouteFor(family, param).Direct? && uid != "" ==>
      (writer.State(), ok) == Attempt(old(writer.State()), writer.fate, ParamRow(uid, param, value))
    ensures !(RouteFor(family, param).Direct? && uid != "") ==> writer.State() == old(writer.State()) && !ok
  {
    match RouteFor(family, param) {
      case Direct => ok := writer.SetProtectionParam(uid, param, value);
      case GridProfile => ok := false;
      case Unsupported => ok := false;
    }
  }

  /** What one write leaves behind: the database, the answer, and the expectation
      handed to the tracker. */
  datatype Outcome = Outcome(db: Db, ok: bool, track: Option<map<string, real>>)

  /** An accepted command queues exactly its row, and if the database takes it, tracks
      exactly its expectation; everything else except a bare counter bump is an error;
      neither an error nor a bump changes anything. */
  function Result(s: Snapshot, unit: u8, off: u16, regs: seq<u16>, fate: Fate, db: Db): Outcome {
    match Accepted(s, unit, off, regs)
    case Some(cmd) =>
      var expected := ExpectedFor(cmd, ProtectionOf(s, s.inverters[unit - 2].uid));
      var (d, ok) := Attempt(db, fate, RowFor(cmd, s, unit));
      Outcome(d, ok, if ok && expected != map[] then Some(expected) else None)
    case None => Outcome(db, Mapped(s, unit) && CommandOf(off, regs) == Some(Request), None)
  }

  /** The tracker after a write. */
  function Noted(entries: Tracker.Entries, key: Tracker.Key, track: Option<map<string, real>>, now: int): Tracker.Entries {
    match track
    case None => entries
    case Some(expected) => Tracker.Tracked(entries, key, expected, now)
  }

  /** DbOf: the start must lie above 50 Hz and half a hertz below the fast trip. */
  method QueueDeadband(writer: Writer, family: Family, uid: string, prot: Protection, dbOf: u32) returns (ok: bool)
    modifies writer
    ensures if InBounds(Deadband(dbOf), prot) && RouteFor(family, DroopStart).Direct? && uid != ""
            then (writer.State(), ok) == Attempt(old(writer.State()), writer.fate, ParamRow(uid, DroopStart, StartHz(dbOf)))
            else writer.State() == old(writer.State()) && !ok
  {
    var hzStart := 50.0 + dbOf as real / 100.0;
    if hzStart <= 50.0 {
      return false;
    }
    if hzStart > prot.ofFast - OF_MARGIN_HZ {
      return false;
    }
    ok := Dispatch(writer, family, uid, DroopStart, hzStart);
  }

  method QueueSlope(writer: Writer, family: Family, uid: string, kOf: u16) returns (ok: bool)
    modifies writer
    ensures if MIN_KOF <= kOf <= MAX_KOF && RouteFor(family, DroopSlope).Direct? && uid != ""
            then (writer.State(), ok) == Attempt(old(writer.State()), writer.fate, ParamRow(uid, DroopSlope, kOf as real / 10.0))
            else writer.State() == old(writer.State()) && !ok
  {
    if kOf < MIN_KOF || kOf > MAX_KOF {
      return false;
    }
    ok := Dispatch(writer, family, uid, DroopSlope, kOf as real / 10.0);
  }

  /** Nonzero Ena keeps the regional mode 13 and otherwise selects 14. */
  method QueueMode(writer: Writer, family: Family, uid: string, prot: Protection, ena: u16) returns (ok: bool, modeVal: int)
    modifies writer
    ensures modeVal == ModeFor(ena != 0, prot)
    ensures if RouteFor(family, DroopMode).Direct? && uid != ""
            then (writer.State(), ok) == Attempt(old(writer.State()), writer.fate, ParamRow(uid, DroopMode, modeVal as real))
            else writer.State() == old(writer.State()) && !ok
  {
    modeVal := FreqDroop.MODE_OTHER;
    if ena == 0 {
      modeVal := FreqDroop.MODE_DISABLED;
    } else if Trunc(prot.ofDroopMode) == FreqDroop.MODE_ASNZS {
      modeVal := FreqDroop.MODE_ASNZS;
    }
    ok := Dispatch(writer, family, uid, DroopMode, modeVal as real);
  }

  /** The loop over the 22 body offsets. */
  method Scan(off: u16, regs: seq<u16>) returns (ok: bool)
    ensures ok <==> ScanPasses(off, regs)
  {
    var field: u16 := 0;
    while field < 22
      invariant 0 <= field <= 22
      invariant forall f: u16 :: f < field && Touches(off, regs, f) ==> Writable(f)
    {
      if Touches(off, regs, field) && !Writable(field) {
        return false;
      }
      field := field + 1;
    }
    return true;
  }

  /** The expectation handed to the tracker. */
  method Expectation(ena: Option<int>, dbOf: Option<u32>, kOf: Option<u16>) returns (expected: map<string, real>)
    ensures ena.Some? && dbOf.None? && kOf.None? ==> expected == map["CV" := ena.value as real]
    ensures ena.None? && dbOf.Some? && kOf.None? ==> expected == map["DC" := StartHz(dbOf.value)]
    ensures ena.None? && dbOf.None? && kOf.Some? ==> expected == map["DD" := kOf.value as real / 10.0]
    ensures ena.None? && dbOf.None? && kOf.None? ==> expected == map[]
  {
    expected := map[];
    if ena.Some? {
      expected := expected["CV" := ena.value as real];
    }
    if dbOf.Some? {
      expected := expected["DC" := 50.0 + dbOf.value as real / 100.0];
    }
    if kOf.Some? {
      expected := expected["DD" := kOf.value as real / 10.0];
    }
  }

  /** The fields of a window that survived the scan, in the program's order. */
  method QueueFields(writer: Writer, family: Family, uid: string, prot: Protection, off: u16, regs: seq<u16>)
    returns (ok: bool, expected: map<string, real>)
    requires |regs| <= MAX_WRITE && ScanPasses(off, regs) && WantsField(off, regs)
    modifies writer
    ensures CommandOf(off, regs).Some? && !CommandOf(off, regs).value.Request?
    ensures var cmd := CommandOf(off, regs).value;
            if InBounds(cmd, prot) && RouteFor(family, ParamFor(cmd)).Direct? && uid != ""
            then (writer.State(), ok) == Attempt(old(writer.State()), writer.fate, ParamRow(uid, ParamFor(cmd), ValueFor(cmd, prot)))
                 && (ok ==> expected == ExpectedFor(cmd, prot))
            else writer.State() == old(writer.State()) && !ok
  {
    SurvivorsAreCommands(off, regs);
    var ena, dbOf, kOf, rspTms := None, None, None, None;
    if Touches(off, regs, 12) && Touches(off, regs, 13) {
      dbOf := Some(Join32(ReadField(off, regs, 12), ReadField(off, regs, 13)));
    }
    if Touches(off, regs, 16) {
      kOf := Some(ReadField(off, regs, 16));
    }
    if Touches(off, regs, 18) && Touches(off, regs, 19) {
      rspTms := Some(Join32(ReadField(off, regs, 18), ReadField(off, regs, 19)));
    }
    hide ScanPasses, Touches, ReadField, CommandOf, Attempt, RouteFor;
    expected := map[];
    if dbOf.Some? {
      ok := QueueDeadband(writer, family, uid, prot, dbOf.value);
      if !ok {
        return;
      }
    }
    if kOf.Some? {
      ok := QueueSlope(writer, family, uid, kOf.value);
      if !ok {
        return;
      }
    }
    if rspTms.Some? {
      ok := Dispatch(writer, family, uid, DroopDelay, rspTms.value as real);
      if !ok {
        return;
      }
    }
    if Touches(off, regs, 0) {
      var modeVal;
      ok, modeVal := QueueMode(writer, family, uid, prot, ReadField(off, regs, 0));
      if !ok {
        return;
      }
      ena := Some(modeVal);
    }
    expected := Expectation(ena, dbOf, kOf);
    return true, expected;
  }

  method Apply(unit: u8, s: Snapshot, writer: Writer, tracker: Tracker.WriteTracker, off: u16, regs: seq<u16>, now: int)
    returns (ok: bool)
    requires |regs| <= MAX_WRITE
    modifies writer, tracker
    ensures var r := Result(s, unit, off, regs, writer.fate, old(writer.State()));
            && writer.State() == r.db && ok == r.ok
            && tracker.entries == Noted(old(tracker.entries), Tracker.Key(unit, FreqDroop.MODEL), r.track, now)
  {
    if unit <= 1 || unit - 2 >= |s.inverters| {
      return false;
    }
    var inv := s.inverters[unit - 2];
    var prot := ProtectionOf(s, inv.uid);
    var wantsReq := Touches(off, regs, 1);
    var wantsField := WantsField(off, regs);
    var scanned := Scan(off, regs);
    ScanLeavesOneGroup(off, regs);
    if !scanned {
      return false;
    }
    SurvivorsAreCommands(off, regs);
    hide ScanPasses, Touches, CommandOf, Attempt, RouteFor, FamilyForModel, ProtectionOf, WantsField, InBounds, ExpectedFor, ValueFor;
    if !wantsField {
      return wantsReq;
    }
    if "AK" !in prot.has {
      return false;
    }
    var expected;
    ok, expected := QueueFields(writer, FamilyForModel(inv.model), inv.uid, prot, off, regs);
    if ok && |expected| > 0 {
      tracker.Track(unit, FreqDroop.MODEL, expected, now);
    }
  }

  /** Every queued row is within its bounds, for the inverter at index unit-2, and no
      slope or delay goes to a QS1A. */
  lemma AcceptedRowsAreSafe(s: Snapshot, unit: u8, off: u16, regs: seq<u16>)
    requires Accepted(s, unit, off, regs).Some?
    ensures var cmd := Accepted(s, unit, off, regs).value; var row := RowFor(cmd, s, unit);
            var inv := s.inverters[unit - 2]; var p := ProtectionOf(s, inv.uid);
            && row.uid == inv.uid && FamilyForModel(inv.model) != Unknown && "AK" in p.has
            && (row.param == DroopStart ==> 50.0 < row.value <= p.ofFast - 0.5)
            && (row.param == DroopSlope ==> 10.0 <= row.value <= 150.0)
            && (row.param == DroopMode ==> row.value == 13.0 || row.value == 14.0 || row.value == 15.0)
            && (FamilyForModel(inv.model) == QS1A ==> row.param == DroopStart || row.param == DroopMode)
  {
  }

  /** Accepted writes are all-or-nothing and single-parameter: a write that succeeds has
      queued exactly one row - none only for the counter alone - and covers every register
      of the field it sets and no register outside that field's group; a write that fails
      has queued nothing and tracks nothing. */
  lemma WriteIsAllOrNothing(s: Snapshot, unit: u8, off: u16, regs: seq<u16>, fate: Fate, db: Db)
    requires |regs| <= MAX_WRITE
    ensures var r := Result(s, unit, off, regs, fate, db);
            && r.db.power == db.power && r.db.onOff == db.onOff
            && (!r.ok ==> r.db.params == db.params && r.db.log == db.log && r.track == None)
            && (r.ok ==> if off == 1 && |regs| == 1 then r.db == db && r.track == None else QueuedOne(s, unit, off, regs, db, r.db))
            && (r.ok ==> (Touches(off, regs, 12) <==> Touches(off, regs, 13)) && (Touches(off, regs, 18) <==> Touches(off, regs, 19)))
            && (r.ok ==> forall f: u16, g: u16 :: f < g < 22 && Touches(off, regs, f) && Touches(off, regs, g) ==>
                  (f == 0 && g == 1) || (f == 12 && g == 13) || (f == 18 && g == 19))
  {
    ScanLeavesOneGroup(off, regs);
    hide RouteFor, FamilyForModel, ProtectionOf, InBounds, ScanPasses, WantsField;
  }

  /** Exactly one parameter of the inverter at index unit-2 is new or changed. */
  predicate QueuedOne(s: Snapshot, unit: u8, off: u16, regs: seq<u16>, before: Db, after: Db) {
    && Accepted(s, unit, off, regs).Some?
    && var row := RowFor(Accepted(s, unit, off, regs).value, s, unit);
       after.log == before.log + [row] && after.params == before.params[(row.uid, row.param) := row.value]
  }

  // ---- The effect in registers ------------------------------------------------------------------

  /** The model codes the program knows. */
  predicate KnownModel(code: int) {
    || code == 0x05 || code == 0x06 || code == 0x07 || code == 0x17 || code == 0x08 || code == 0x18
    || code == 0x20 || code == 0x21 || code == 0x22 || code == 0x36
    || code == 0x29 || code == 0x30 || code == 0x31 || code == 0x32
  }

  /** Those of the QS1A. */
  predicate Qs1aModel(code: int) {
    code == 0x08 || code == 0x18
  }

  /** The unit names an identified inverter of a known model whose fast trip is reported. */
  predicate Serves(s: Snapshot, unit: u8) {
    && 2 <= unit && unit - 2 < |s.inverters|
    && var inv := s.inverters[unit - 2];
       inv.uid != "" && KnownModel(inv.model) && inv.uid in s.protection && "AK" in s.protection[inv.uid].has
  }

  /** ... and it is not a QS1A. */
  predicate ServesSlopes(s: Snapshot, unit: u8) {
    Serves(s, unit) && !Qs1aModel(s.inverters[unit - 2].model)
  }

  /** A start above 50 Hz and half a hertz below the reported fast trip. */
  predicate StartFits(s: Snapshot, unit: u8, start: real) {
    Serves(s, unit) && 50.0 < start <= s.protection[s.inverters[unit - 2].uid].ofFast - 0.5
  }

  /** One statement for the unit's inverter; if the database takes it, the expectation is
      tracked. */
  predicate Queues(r: Outcome, s: Snapshot, unit: u8, fate: Fate, db: Db, param: Param, value: real, want: map<string, real>)
  {
    && Serves(s, unit)
    && var (d, ok) := Attempt(db, fate, ParamRow(s.inverters[unit - 2].uid, param, value));
       r == Outcome(d, ok, if ok && want != map[] then Some(want) else None)
  }

  predicate Refuses(r: Outcome, db: Db) {
    r == Outcome(db, false, None)
  }

  /** Ena (offset 0, alone or with the counter): 15 for a zero register; otherwise 13 where
      the record is in the regional mode 13, else 14. */
  lemma EnableInRegisters(s: Snapshot, unit: u8, regs: seq<u16>, fate: Fate, db: Db)
    requires 1 <= |regs| <= 2
    ensures ParamName(DroopMode) == "Over_frequency_Watt_set"
    ensures var r := Result(s, unit, 0, regs, fate, db);
            if !Serves(s, unit) then Refuses(r, db)
            else
              var mode := s.protection[s.inverters[unit - 2].uid].ofDroopMode;
              var value := if regs[0] == 0 then 15.0 else if 13.0 <= mode < 14.0 then 13.0 else 14.0;
              Queues(r, s, unit, fate, db, DroopMode, value, map["CV" := value])
  {
    FamiliesInCodes(s, unit);
    if Serves(s, unit) {
      var mode := s.protection[s.inverters[unit - 2].uid].ofDroopMode;
      assert Trunc(mode) == 13 <==> 13.0 <= mode < 14.0;
    }
    hide FamilyForModel, Attempt;
  }

  /** DbOf (offset 12, both registers): the start in Hz, above 50 and half a hertz below the
      fast trip. */
  lemma DeadbandInRegisters(s: Snapshot, unit: u8, regs: seq<u16>, fate: Fate, db: Db, start: real)
    requires |regs| == 2 && 100.0 * (start - 50.0) == (regs[0] as int * 65536 + regs[1] as int) as real
    ensures ParamName(DroopStart) == "Over_frequency_Watt_Start_set"
    ensures if StartFits(s, unit, start) then Queues(Result(s, unit, 12, regs, fate, db), s, unit, fate, db, DroopStart, start, map["DC" := start])
            else Refuses(Result(s, unit, 12, regs, fate, db), db)
  {
    FamiliesInCodes(s, unit);
    hide FamilyForModel, Attempt;
  }

  /** KOf (offset 16): 100..1500, a tenth of it as slope, not for a QS1A. */
  lemma SlopeInRegisters(s: Snapshot, unit: u8, regs: seq<u16>, fate: Fate, db: Db, slope: real)
    requires |regs| == 1 && 10.0 * slope == regs[0] as real
    ensures ParamName(DroopSlope) == "Over_Frequency_Watt_Slope_set"
    ensures if ServesSlopes(s, unit) && 100 <= regs[0] <= 1500 then
              Queues(Result(s, unit, 16, regs, fate, db), s, unit, fate, db, DroopSlope, slope, map["DD" := slope])
            else Refuses(Result(s, unit, 16, regs, fate, db), db)
  {
    FamiliesInCodes(s, unit);
    hide FamilyForModel, Attempt;
  }

  /** RspTms (offset 18, both registers): whole seconds, not for a QS1A, never tracked. */
  lemma DelayInRegisters(s: Snapshot, unit: u8, regs: seq<u16>, fate: Fate, db: Db)
    requires |regs| == 2
    ensures ParamName(DroopDelay) == "Over_frequency_Watt_Delay_Time_set"
    ensures var r, secs := Result(s, unit, 18, regs, fate, db), (regs[0] as int * 65536 + regs[1] as int) as real;
            if ServesSlopes(s, unit) then
              Queues(r, s, unit, fate, db, DroopDelay, secs, map[])
            else Refuses(r, db)
  {
    FamiliesInCodes(s, unit);
    hide FamilyForModel, Attempt;
  }

  /** The counter alone (offset 1) succeeds on any inverter's unit without effect; every other
      window is refused. */
  lemma OtherWindowsInRegisters(s: Snapshot, unit: u8, off: u16, regs: seq<u16>, fate: Fate, db: Db)
    requires |regs| <= MAX_WRITE
    requires !(off == 0 && 1 <= |regs| <= 2) && !(off == 12 && |regs| == 2) && !(off == 16 && |regs| == 1) && !(off == 18 && |regs| == 2)
    ensures Result(s, unit, off, regs, fate, db)
         == Outcome(db, off == 1 && |regs| == 1 && 2 <= unit && unit - 2 < |s.inverters|, None)
  {
  }

  /** The code a tracked window asks to be reported, and the value; `mode` is the mode
      reported when it is accepted. */
  predicate AsksFor(off: u16, regs: seq<u16>, mode: real, code: string, value: real) {
    || (off == 0 && 1 <= |regs| <= 2 && code == "CV" &&
          value == (if regs[0] == 0 then 15.0 else if 13.0 <= mode < 14.0 then 13.0 else 14.0))
    || (off == 12 && |regs| == 2 && code == "DC" && 100.0 * (value - 50.0) == (regs[0] as int * 65536 + regs[1] as int) as real)
    || (off == 16 && |regs| == 1 && code == "DD" && 10.0 * value == regs[0] as real)
  }

  /** Every tracked request expects one code, as its registers ask. */
  lemma TracksAsAsked(s: Snapshot, unit: u8, off: u16, regs: seq<u16>) returns (code: string, value: real)
    requires Accepted(s, unit, off, regs).Some? && !Accepted(s, unit, off, regs).value.Delay?
    ensures var p := ProtectionOf(s, s.inverters[unit - 2].uid);
            && ExpectedFor(Accepted(s, unit, off, regs).value, p) == map[code := value]
            && AsksFor(off, regs, p.ofDroopMode, code, value)
  {
    var cmd := Accepted(s, unit, off, regs).value;
    hide Admissible, AsksFor, ExpectedFor;
    code, value := CommandAsks(off, regs, cmd, ProtectionOf(s, s.inverters[unit - 2].uid));
  }

  lemma CommandAsks(off: u16, regs: seq<u16>, cmd: Command, p: Protection) returns (code: string, value: real)
    requires CommandOf(off, regs) == Some(cmd) && !cmd.Request? && !cmd.Delay?
    ensures ExpectedFor(cmd, p) == map[code := value] && AsksFor(off, regs, p.ofDroopMode, code, value)
  {
    match cmd
    case Enable(on) =>
      ModesByReport(p);
      code, value := "CV", ModeFor(on, p) as real;
    case Deadband(n) =>
      StartScales(n);
      code, value := "DC", StartHz(n);
    case Slope(k) => code, value := "DD", k as real / 10.0;
  }

  lemma ModesByReport(p: Protection)
    ensures Trunc(p.ofDroopMode) == 13 <==> 13.0 <= p.ofDroopMode < 14.0
  {
  }

  lemma StartScales(n: u32)
    ensures 100.0 * (StartHz(n) - 50.0) == n as real
  {
  }

  /** The families by model code. */
  lemma FamiliesInCodes(s: Snapshot, unit: u8)
    ensures Mapped(s, unit) ==>
      var family, code := FamilyForModel(s.inverters[unit - 2].model), s.inverters[unit - 2].model;
      (family != Unknown <==> KnownModel(code)) && (family == QS1A <==> Qs1aModel(code))
  {
  }
}
