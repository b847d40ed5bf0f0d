/** What was written reads back where it was written: from a client's write through routing,
    writer, queued row and the inverter's report to the registers a client reads
    (internal/server, internal/sunspec). */
module ReadBack {
  import opened Prelude
  import opened Snapshots
  import opened Commands
  import opened Profiles
  import opened Publication
  import Banks
  import Controls
  import Encoder
  import Models
  import Layout
  import Reverter
  import Server
  import Tracker
  import DerTrip
  import FreqDroop
  import FreqWattCurve
  import ControlsWriter
  import EnterServiceWriter
  import DroopWriter
  import CurveWriter

  /** The record reports the value of a queued row in the field of its parameter. */
  predicate ReportsRow(p: Protection, row: Row)
    requires row.ParamRow?
  {
    match row.param
    case GridRecovery => p.reconnectS == row.value
    case DroopStart => "DC" in p.has && p.ofDroopStart == row.value
    case DroopSlope => "DD" in p.has && p.ofDroopSlope == row.value
    case DroopMode => p.ofDroopMode == row.value
    case CurveUFLow => p.ofCurveUFLow == row.value
    case CurveUFHigh => p.ofCurveUFHigh == row.value
    case CurveOFLow => p.ofCurveOFLow == row.value
    case CurveOFHigh => p.ofDroopEnd == row.value
    case _ => false
  }

  /** Ena reads back as 0 or 1, and the request counter is the tracker's own. */
  predicate Plain(row: Row, regs: seq<u16>)
    requires row.ParamRow?
  {
    row.param == DroopMode ==> |regs| == 1 && regs[0] <= 1
  }

  // ---- The bodies --------------------------------------------------------------------------

  lemma EnterServiceReadsBack(s: Snapshot, unit: u8, off: u16, regs: seq<u16>, fate: Fate, db: Db, row: Row, p: Protection, vNom: real)
    requires EnterServiceWriter.Result(s, unit, off, regs, fate, db).0.log == db.log + [row]
    requires row.ParamRow? && ReportsRow(p, row)
    ensures off + |regs| <= 17 && regs == DerTrip.EnterServiceBlock(p, vNom).body[off..off + |regs|]
  {
    EnterServiceWriter.WriteInRegisters(s, unit, off, regs, fate, db);
    var secs: u32 := regs[0] as int * 65536 + regs[1] as int;
    LastRow(db, ParamRow(s.inverters[unit - 2].uid, GridRecovery, secs as real), row);
    DerTrip.EnterServiceReadBack(p, vNom, secs);
    hide DerTrip.EnterServiceBlock;
    var b := DerTrip.EnterServiceBlock(p, vNom).body;
    JoinIsUnique(regs[0], regs[1], b[7], b[8]);
    assert b[7..9] == [b[7], b[8]] && regs == [regs[0], regs[1]];
  }

  lemma JoinIsUnique(a: u16, b: u16, c: u16, d: u16)
    requires Join32(a, b) == Join32(c, d)
    ensures a == c && b == d
  {
  }

  lemma LastRow(db: Db, written: Row, row: Row)
    requires db.log + [written] == db.log + [row]
    ensures written == row
  {
    assert (db.log + [written])[|db.log|] == (db.log + [row])[|db.log|];
  }

  lemma CurveReadsBack(s: Snapshot, unit: u8, off: u16, regs: seq<u16>, fate: Fate, db: Db, row: Row, p: Protection)
    requires CurveWriter.Result(s, unit, off, regs, fate, db).db.log == db.log + [row]
    requires row.ParamRow? && ReportsRow(p, row)
    ensures off + |regs| <= 68 && regs == FreqWattCurve.CurveBlock(p).body[off..off + |regs|]
  {
    hide FreqWattCurve.CurveBlock, CurveWriter.Result;
    var code := CurveRow(s, unit, off, regs, fate, db, row);
    CurveWriter.PointReadsBack(p, off, regs[0], row.param, code);
  }

  lemma CurveRow(s: Snapshot, unit: u8, off: u16, regs: seq<u16>, fate: Fate, db: Db, row: Row) returns (code: string)
    requires CurveWriter.Result(s, unit, off, regs, fate, db).db.log == db.log + [row] && row.ParamRow?
    ensures |regs| == 1 && CurveWriter.NamesPoint(off, row.param, code) && row.value == regs[0] as real / 100.0
  {
    LastRow(db, CurveWriter.Accepted(s, unit, off, regs).value, row);
    code := CurveWriter.POINTS[CurveWriter.PointOf(off, regs).value].code;
  }

  lemma DroopReadsBack(s: Snapshot, unit: u8, off: u16, regs: seq<u16>, fate: Fate, db: Db, row: Row, p: Protection, ans: (u16, u16))
    requires DroopWriter.Result(s, unit, off, regs, fate, db).db.log == db.log + [row]
    requires row.ParamRow? && ReportsRow(p, row) && Plain(row, regs)
    ensures off + |regs| <= 22 && regs == FreqDroop.Body(p, ans.0, ans.1)[off..off + |regs|]
  {
    var cmd := DroopWriter.Accepted(s, unit, off, regs).value;
    LastRow(db, DroopWriter.RowFor(cmd, s, unit), row);
    CommandReadsBack(off, regs, cmd, ProtectionOf(s, s.inverters[unit - 2].uid), p, ans, row.value);
  }

  lemma CommandReadsBack(off: u16, regs: seq<u16>, cmd: DroopWriter.Command, was: Protection, p: Protection, ans: (u16, u16), value: real)
    requires DroopWriter.CommandOf(off, regs) == Some(cmd) && !cmd.Request? && !cmd.Delay? && DroopWriter.InBounds(cmd, was)
    requires value == DroopWriter.ValueFor(cmd, was) && (cmd.Enable? ==> |regs| == 1 && regs[0] <= 1)
    requires match cmd case Enable(_) => p.ofDroopMode == value
                       case Deadband(_) => "DC" in p.has && p.ofDroopStart == value
                       case _ => "DD" in p.has && p.ofDroopSlope == value
    ensures off + |regs| <= 22 && regs == FreqDroop.Body(p, ans.0, ans.1)[off..off + |regs|]
  {
    FreqDroop.BodyFields(p, ans.0, ans.1);
    hide FreqDroop.Body;
    var b := FreqDroop.Body(p, ans.0, ans.1);
    match cmd
    case Enable(on) =>
      assert b[0] == regs[0];
    case Deadband(n) =>
      FreqDroop.DbOfExact(p, n);
      JoinIsUnique(regs[0], regs[1], b[12], b[13]);
      assert b[12..14] == [b[12], b[13]] && regs == [regs[0], regs[1]];
    case Slope(k) =>
      KOfExact(p, k);
      assert b[16] == regs[0];
  }

  lemma KOfExact(p: Protection, k: u16)
    requires "DD" in p.has && p.ofDroopSlope == k as real / 10.0 && 0 < k < 65535
    ensures FreqDroop.KOfOf(p) == k
  {
    assert p.ofDroopSlope * 10.0 == k as real;
  }

  // ---- The banks ---------------------------------------------------------------------------

  /** A client that reads part of a writable model on a mapped unit. */
  lemma WindowIsRead(banks: map<u8, seq<u16>>, u: u8, m: Server.Model, body: seq<u16>, addr: u16, off: u16, n: u16)
    requires u in banks && Server.Printed(banks[u], Layout.PER_INVERTER, 5) && |body| == Server.BodyLen(m)
    requires BodyAt(banks[u], Server.BodyStart(Layout.PER_INVERTER, m) - 2, body)
    requires addr == Server.BodyStart(Layout.PER_INVERTER, m) + off && 0 < n && off + n <= |body|
    ensures Server.Read(Some(banks), u, addr, n) == Some(body[off..off + n])
  {
    var bank, header := banks[u], Server.BodyStart(Layout.PER_INVERTER, m) - 2;
    Server.PrintedFits(bank, Layout.PER_INVERTER, 5);
    Server.BodiesInBank(bank, Layout.PER_INVERTER, 5, m);
    hide Server.Printed, Server.Registers, BodyAt, Server.Read, Server.BodyLen;
    Server.ReadOfBank(banks, u, bank, addr, n);
    RegistersOfBody(bank, header, body, addr, off, n);
  }

  lemma RegistersOfBody(bank: seq<u16>, header: u16, body: seq<u16>, addr: u16, off: u16, n: u16)
    requires BodyAt(bank, header, body) && header as int + 2 + |body| <= Banks.BASE as int + |bank| <= 0xFFFF
    requires header >= Banks.BASE && addr as int == header as int + 2 + off as int && off + n <= |body|
    ensures bank[addr - Banks.BASE..][..n] == body[off..off + n]
  {
    var seen, part := bank[addr - Banks.BASE..][..n], body[off..off + n];
    forall j | 0 <= j < n
      ensures seen[j] == part[j]
    {
      assert Field(bank, header, off + j) == body[off + j];
    }
  }

  lemma OwnBank(banks: map<u8, seq<u16>>, s: Snapshot, opt: Encoder.Options, env: Models.Env, entries: Tracker.Entries, u: u8)
    returns (ans: (u16, u16))
    requires |s.inverters| <= Layout.MAX_FLEET && Server.BanksHeld(banks, s, opt, env, entries, |s.inverters|) && Mapped(s, u)
    ensures u in banks && banks[u] == InverterRegs(s, u - 2, opt, env, ans) && Server.Printed(banks[u], Layout.PER_INVERTER, 5)
  {
    hide InverterRegs, Server.Printed, IsAggregateBank;
    Server.BanksArePrinted(banks, s, opt, env, entries, u);
    Server.HolderIsOwn(u, |s.inverters|);
    assert Server.BankHeld(banks, s, opt, env, entries, |s.inverters|, u);
    ans := Server.AnswerFor(entries, u);
  }

  /** A write of registers at an address on a unit, as the server handles it. */
  datatype Write = Write(banks: map<u8, seq<u16>>, seen: Snapshot, unit: u8, addr: u16, regs: seq<u16>, st: Server.State, now: int)

  /** A permitted write that queues exactly this row. */
  predicate QueuesRow(w: Write, fate: Fate, row: Row)
    requires Reverter.Indexed(w.st.rev) && |w.regs| <= MAX_WRITE
  {
    Server.Handled(true, Some(w.banks), Some(w.seen), w.unit, w.addr, w.regs, fate, w.st, w.now).0.db.log == w.st.db.log + [row]
  }

  lemma RowOfModel(m: Server.Model, off: u16, w: Write, fate: Fate, row: Row, p: Protection, vNom: real, ans: (u16, u16)) returns (body: seq<u16>)
    requires Reverter.Indexed(w.st.rev) && |w.regs| <= MAX_WRITE
    requires Server.Dispatched(m, off, w.seen, w.unit, w.regs, fate, w.st, w.now).0.db.log == w.st.db.log + [row]
    requires row.ParamRow? && ReportsRow(p, row) && Plain(row, w.regs)
    ensures !m.ControlsModel? && |body| == Server.BodyLen(m) && off + |w.regs| <= |body| && w.regs == body[off..off + |w.regs|]
    ensures m.EnterServiceModel? ==> body == DerTrip.EnterServiceBlock(p, vNom).body
    ensures m.DroopModel? ==> body == FreqDroop.Body(p, ans.0, ans.1)
    ensures m.CurveModel? ==> body == FreqWattCurve.CurveBlock(p).body
  {
    hide ReportsRow, Plain, DroopWriter.Result, CurveWriter.Result, EnterServiceWriter.Result, ControlsWriter.Result;
    hide DerTrip.EnterServiceBlock, FreqDroop.Body, FreqWattCurve.CurveBlock, DroopWriter.Noted;
    match m
    case ControlsModel =>
      ControlsQueueNoParam(w.seen, w.unit, off, w.regs, fate, w.st.db, w.st.rev, w.now, row);
      body := [];
    case EnterServiceModel =>
      EnterServiceReadsBack(w.seen, w.unit, off, w.regs, fate, w.st.db, row, p, vNom);
      body := DerTrip.EnterServiceBlock(p, vNom).body;
    case DroopModel =>
      DroopReadsBack(w.seen, w.unit, off, w.regs, fate, w.st.db, row, p, ans);
      body := FreqDroop.Body(p, ans.0, ans.1);
    case CurveModel =>
      CurveReadsBack(w.seen, w.unit, off, w.regs, fate, w.st.db, row, p);
      body := FreqWattCurve.CurveBlock(p).body;
  }

  /** The batches of Model 123 contain no protection parameter. */
  lemma ControlsQueueNoParam(s: Snapshot, unit: u8, off: u16, regs: seq<u16>, fate: Fate, db: Db, rev: Reverter.State, now: int, row: Row)
    requires Reverter.Indexed(rev)
    requires ControlsWriter.Result(s, unit, off, regs, fate, db, rev, now).db.log == db.log + [row]
    ensures !row.ParamRow?
  {
    var targets, p := ControlsWriter.Targets(s, unit), ControlsWriter.PowerOf(off, regs);
    if targets != [] {
      var r := ControlsWriter.PowerResult(p, unit, targets, fate, db, rev, now);
      if !p.Keep? {
        BatchAddsNoParam(db, fate, CapRows(targets, ControlsWriter.Watts(p)));
      }
      match ControlsWriter.Written(off, regs, ControlsWriter.Controls.CONN)
      case Some(conn) => BatchAddsNoParam(r.db, fate, SwitchRows(targets, conn != 0));
      case None =>
    }
    hide ControlsWriter.Targets, ControlsWriter.PowerOf, AttemptAll, CapRows, SwitchRows;
    var after := ControlsWriter.Result(s, unit, off, regs, fate, db, rev, now).db;
    assert AddsNoParam(db, after);
    assert after.log[|db.log|] == row;
  }

  predicate AddsNoParam(before: Db, after: Db) {
    before.log <= after.log && forall n :: |before.log| <= n < |after.log| ==> !after.log[n].ParamRow?
  }

  lemma BatchAddsNoParam(db: Db, fate: Fate, rows: seq<Row>)
    requires forall row :: row in rows ==> !row.ParamRow?
    ensures AddsNoParam(db, AttemptAll(db, fate, rows).0)
  {
    var n := AttemptAllWritesAPrefix(db, fate, rows);
    var after := AttemptAll(db, fate, rows).0;
    forall i | |db.log| <= i < |after.log|
      ensures !after.log[i].ParamRow?
    {
      assert after.log[i] == rows[i - |db.log|];
    }
  }

  /** Write, report, read: when a permitted write on the unit of an inverter queues a
      protection parameter, and a later snapshot's record of that inverter - still the
      unit's own - reports the queued value, a client that reads the registers it wrote
      finds what it wrote. */
  lemma WrittenReadsBack(w: Write, fate: Fate, row: Row, before: Snapshot, entries: Tracker.Entries,
                         banks: map<u8, seq<u16>>, after: Snapshot, later: Tracker.Entries, opt: Encoder.Options, env: Models.Env)
    requires Reverter.Indexed(w.st.rev) && |w.regs| <= MAX_WRITE && w.addr + |w.regs| <= 0xFFFF
    requires |before.inverters| <= Layout.MAX_FLEET && Server.BanksHeld(w.banks, before, opt, env, entries, |before.inverters|)
    requires |after.inverters| <= Layout.MAX_FLEET && Server.BanksHeld(banks, after, opt, env, later, |after.inverters|)
    requires Mapped(before, w.unit) && QueuesRow(w, fate, row) && row.ParamRow? && Plain(row, w.regs)
    requires Mapped(after, w.unit) && after.inverters[w.unit - 2].uid == row.uid
    requires ReportsRow(ProtectionOf(after, row.uid), row)
    ensures Server.Read(Some(banks), w.unit, w.addr, |w.regs|) == Some(w.regs)
  {
    hide ReportsRow, Plain, Server.BanksHeld, Server.Handled, Server.Dispatched, InverterRegs, Server.Printed, BodyAt, Server.Read;
    hide DerTrip.EnterServiceBlock, FreqDroop.Body, FreqWattCurve.CurveBlock, ProtectionOf;
    var m, off := ModelOf(w, fate, row, before, entries, opt, env);
    var ans := OwnBank(banks, after, opt, env, later, w.unit);
    var inv := after.inverters[w.unit - 2];
    InverterPublishes(after, w.unit - 2, opt, env, ans);
    var body := RowOfModel(m, off, w, fate, row, ProtectionOf(after, inv.uid), inv.acVoltageV as real, ans);
    WindowIsRead(banks, w.unit, m, body, w.addr, off, |w.regs|);
  }

  /** The model a write that queues a row is routed to, and the offset into its body. */
  lemma ModelOf(w: Write, fate: Fate, row: Row, before: Snapshot, entries: Tracker.Entries, opt: Encoder.Options, env: Models.Env)
    returns (m: Server.Model, off: u16)
    requires Reverter.Indexed(w.st.rev) && |w.regs| <= MAX_WRITE && w.addr + |w.regs| <= 0xFFFF
    requires |before.inverters| <= Layout.MAX_FLEET && Server.BanksHeld(w.banks, before, opt, env, entries, |before.inverters|)
    requires Mapped(before, w.unit) && QueuesRow(w, fate, row)
    ensures w.addr == Server.BodyStart(Layout.PER_INVERTER, m) + off && |w.regs| > 0
    ensures Server.Dispatched(m, off, w.seen, w.unit, w.regs, fate, w.st, w.now).0.db.log == w.st.db.log + [row]
  {
    hide Server.BanksHeld, Server.Handled, Server.Dispatched;
    Server.WritesInOwnBank(w.banks, before, opt, env, entries, w.seen, w.unit, w.addr, w.regs, fate, w.st, w.now);
    m :| Server.InWindow(before, w.unit, m, w.addr, |w.regs|);
    off := w.addr - Server.FirstRegister(before, w.unit, m);
    EmptyWritesQueueNothing(m, off, w, fate, row);
  }

  lemma EmptyWritesQueueNothing(m: Server.Model, off: u16, w: Write, fate: Fate, row: Row)
    requires Reverter.Indexed(w.st.rev) && |w.regs| <= MAX_WRITE
    requires Server.Dispatched(m, off, w.seen, w.unit, w.regs, fate, w.st, w.now).0.db.log == w.st.db.log + [row]
    ensures |w.regs| > 0
  {
  }

  /** A limit once reported, as a client reads Model 123 of the unit: enabled exactly below
      100 %, connected exactly if online, and without a rating the written percentage
      raised to 4 and lowered to 100, otherwise the largest whole percentage of the rating
      that the panels may still produce. */
  lemma LimitIsRead(banks: map<u8, seq<u16>>, s: Snapshot, opt: Encoder.Options, env: Models.Env, entries: Tracker.Entries,
                    u: u8, pct: u16, n: nat, panels: nat) returns (out: seq<u16>)
    requires |s.inverters| <= Layout.MAX_FLEET && Server.BanksHeld(banks, s, opt, env, entries, |s.inverters|) && Mapped(s, u)
    requires Controls.Rated(s.inverters[u - 2], env.nameplates, n, panels)
    requires s.inverters[u - 2].limitedPowerW == Max(20, 5 * Min(pct, 100))
    ensures Server.Read(Some(banks), u, 40264, 24) == Some(out) && |out| == 24
    ensures out[7] == (if pct < 100 then 1 else 0) && out[2] == (if s.inverters[u - 2].online then 1 else 0)
    ensures if n == 0 then out[3] == Max(4, Min(pct, 100)) else LargestPct(out[3], s.inverters[u - 2].limitedPowerW * panels, n)
  {
    out := ControlsRead(banks, s, opt, env, entries, u);
    hide Server.BanksHeld, Server.Read, Encoder.InverterControls, LargestPct, Controls.Rated;
    ControlsSay(s.inverters[u - 2], env, pct, n, panels);
  }

  lemma ControlsRead(banks: map<u8, seq<u16>>, s: Snapshot, opt: Encoder.Options, env: Models.Env, entries: Tracker.Entries, u: u8)
    returns (out: seq<u16>)
    requires |s.inverters| <= Layout.MAX_FLEET && Server.BanksHeld(banks, s, opt, env, entries, |s.inverters|) && Mapped(s, u)
    ensures Server.Read(Some(banks), u, 40264, 24) == Some(out) && out == Encoder.InverterControls(s.inverters[u - 2], env).body
  {
    hide InverterRegs, BodyAt, Encoder.InverterControls, Server.BanksHeld, Server.Read, Server.Printed;
    out := Encoder.InverterControls(s.inverters[u - 2], env).body;
    var ans := OwnBank(banks, s, opt, env, entries, u);
    ControlsArePublished(s, u - 2, opt, env, ans);
    ControlsWindow(banks, u, out);
  }

  lemma ControlsWindow(banks: map<u8, seq<u16>>, u: u8, body: seq<u16>)
    requires u in banks && Server.Printed(banks[u], Layout.PER_INVERTER, 5) && |body| == 24
    requires BodyAt(banks[u], Layout.PER_INVERTER.controls, body)
    ensures Server.Read(Some(banks), u, 40264, 24) == Some(body)
  {
    hide Server.Printed, Server.Read, BodyAt;
    WindowIsRead(banks, u, Server.ControlsModel, body, 40264, 0, 24);
    assert body[0..24] == body;
  }

  lemma CapIsLimited(inv: Inverter, pct: u16)
    requires inv.limitedPowerW == Max(20, 5 * Min(pct, 100))
    ensures inv.limitedPowerW == Controls.CapWatts(pct) && (Controls.Limited(inv) <==> pct < 100)
  {
  }

  lemma ControlsSay(inv: Inverter, env: Models.Env, pct: u16, n: nat, panels: nat)
    requires Controls.Rated(inv, env.nameplates, n, panels) && inv.limitedPowerW == Max(20, 5 * Min(pct, 100))
    ensures var b := Encoder.InverterControls(inv, env).body;
            && b[7] == (if pct < 100 then 1 else 0) && b[2] == (if inv.online then 1 else 0)
            && if n == 0 then b[3] == Max(4, Min(pct, 100)) else LargestPct(b[3], inv.limitedPowerW * panels, n)
  {
    CapIsLimited(inv, pct);
    assert NameplateW(inv, env.nameplates) == n;
    hide Controls.InvCapPct, Controls.CapWatts, Controls.Limited, Controls.Rated, NameplateW;
    if n == 0 {
      Controls.ReadBackWithoutNameplate(inv, env.nameplates, pct);
    } else {
      Controls.ReadBackWithNameplate(inv, env.nameplates, n, panels);
    }
  }

  predicate LargestPct(pct: u16, ceiling: int, n: nat) {
    var reached := if ceiling < n then ceiling else n;
    pct as int * n <= 100 * reached < (pct as int + 1) * n
  }
}
