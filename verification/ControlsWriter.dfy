/** Writes to Model 123 (internal/server/controls_writer.go). */
module ControlsWriter {
  import opened Prelude
  import opened Snapshots
  import opened Commands
  import opened Profiles
  import Controls
  import Reverter
  import Tracker

  // ---- What a window means -----------------------------------------------------------------

  /** The register a window writes at a body offset, if it covers that offset. */
  function Written(off: u16, regs: seq<u16>, field: nat): Option<u16> {
    if off <= field < off + |regs| then Some(regs[field - off]) else None
  }

  datatype Power =
    | Keep
    | Restore
    | CapTo(pct: u16, rvrtTms: Option<u16>)

  /** Disabling the limit overrides a percentage in the same window; enabling it without
      a percentage changes nothing. */
  function PowerOf(off: u16, regs: seq<u16>): Power {
    if Written(off, regs, Controls.WMAXLIM_ENA) == Some(0) then Restore
    else match Written(off, regs, Controls.WMAXLIMPCT)
      case None => Keep
      case Some(pct) => CapTo(pct, Written(off, regs, Controls.WMAXLIMPCT_RVRTTMS))
  }

  /** The inverters a unit stands for: the fleet for 0 and 1, one for a mapped unit. */
  function Targets(s: Snapshot, unit: u8): seq<string> {
    if unit <= 1 then seq(|s.inverters|, i requires 0 <= i < |s.inverters| => s.inverters[i].uid)
    else if Mapped(s, unit) then [s.inverters[unit - 2].uid]
    else []
  }

  predicate Reverts(rvrtTms: u16) {
    rvrtTms != 0 && rvrtTms != 0xFFFF
  }

  function Watts(p: Power): int
    requires !p.Keep?
  {
    match p
    case Restore => MAX_PANEL_W
    case CapTo(pct, _) => Controls.CapWatts(pct)
  }

  // ---- The whole write --------------------------------------------------------------------

  datatype Outcome = Outcome(db: Db, timers: Reverter.State, ok: bool)

  function Rearmed(rev: Reverter.State, unit: u8, rvrtTms: u16, targets: seq<string>, now: int): Reverter.State
    requires Reverter.Indexed(rev)
  {
    if Reverts(rvrtTms) then Reverter.Scheduled(rev, unit, rvrtTms * Tracker.SECOND, targets, now)
    else Reverter.Cancelled(rev, unit)
  }

  /** A restore cancels the timer before the first statement; a cap touches the timer
      only once every statement has succeeded and only if the window says so. */
  function PowerResult(p: Power, unit: u8, targets: seq<string>, fate: Fate, db: Db, rev: Reverter.State, now: int): Outcome
    requires Reverter.Indexed(rev)
  {
    match p
    case Keep => Outcome(db, rev, true)
    case Restore =>
      var (d, ok) := AttemptAll(db, fate, CapRows(targets, MAX_PANEL_W));
      Outcome(d, Reverter.Cancelled(rev, unit), ok)
    case CapTo(pct, rvrtTms) =>
      var (d, ok) := AttemptAll(db, fate, CapRows(targets, Controls.CapWatts(pct)));
      Outcome(d, if ok && rvrtTms.Some? then Rearmed(rev, unit, rvrtTms.value, targets, now) else rev, ok)
  }

  /** Power first, then the connection, stopping at the first failing statement. */
  function Result(s: Snapshot, unit: u8, off: u16, regs: seq<u16>, fate: Fate, db: Db, rev: Reverter.State, now: int): Outcome
    requires Reverter.Indexed(rev)
  {
    var targets := Targets(s, unit);
    if targets == [] then Outcome(db, rev, false)
    else
      var r := PowerResult(PowerOf(off, regs), unit, targets, fate, db, rev, now);
      match Written(off, regs, Controls.CONN)
      case Some(conn) =>
        if r.ok then
          var (d, ok) := AttemptAll(r.db, fate, SwitchRows(targets, conn != 0));
          Outcome(d, r.timers, ok)
        else r
      case None => r
  }

  // ---- Apply ---------------------------------------------------------------------------------

  lemma WindowTests(off: u16, regs: seq<u16>, field: u16)
    requires |regs| <= MAX_WRITE
    ensures Touches(off, regs, field) <==> Written(off, regs, field).Some?
    ensures Touches(off, regs, field) ==> Written(off, regs, field) == Some(ReadField(off, regs, field))
  {
  }

  method TargetUIDs(s: Snapshot, unit: u8) returns (out: seq<string>)
    ensures out == Targets(s, unit)
  {
    out := [];
    if unit <= 1 {
      for i := 0 to |s.inverters|
        invariant out == Targets(s, unit)[..i]
      {
        out := out + [s.inverters[i].uid];
      }
      return;
    }
    var idx := unit as int - 2;
    if idx < 0 || idx >= |s.inverters| {
      return;
    }
    return [s.inverters[idx].uid];
  }

  lemma RowsUnfold(uids: seq<string>, i: nat, watts: int, on: bool)
    requires i < |uids|
    ensures CapRows(uids[i..], watts)[0] == CapRow(uids[i], watts)
    ensures CapRows(uids[i..], watts)[1..] == CapRows(uids[i + 1..], watts)
    ensures SwitchRows(uids[i..], on)[0] == SwitchRow(uids[i], on)
    ensures SwitchRows(uids[i..], on)[1..] == SwitchRows(uids[i + 1..], on)
  {
  }

  method RestoreFull(writer: Writer, uids: seq<string>) returns (ok: bool)
    modifies writer
    ensures (writer.State(), ok) == AttemptAll(old(writer.State()), writer.fate, CapRows(uids, MAX_PANEL_W))
  {
    assert uids[0..] == uids;
    for i := 0 to |uids|
      invariant AttemptAll(old(writer.State()), writer.fate, CapRows(uids, MAX_PANEL_W))
             == AttemptAll(writer.State(), writer.fate, CapRows(uids[i..], MAX_PANEL_W))
    {
      RowsUnfold(uids, i, MAX_PANEL_W, true);
      ok := writer.RestoreFullPower(uids[i]);
      if !ok {
        return;
      }
    }
    ok := true;
  }

  method ApplyCap(writer: Writer, uids: seq<string>, pct: u16) returns (ok: bool)
    modifies writer
    ensures (writer.State(), ok) == AttemptAll(old(writer.State()), writer.fate, CapRows(uids, Controls.CapWatts(pct)))
  {
    var percent := pct;
    if percent > 100 {
      percent := 100;
    }
    var watts := MAX_PANEL_W * percent / 100;
    if watts < MIN_PANEL_W {
      watts := MIN_PANEL_W;
    }
    assert uids[0..] == uids;
    for i := 0 to |uids|
      invariant AttemptAll(old(writer.State()), writer.fate, CapRows(uids, watts))
             == AttemptAll(writer.State(), writer.fate, CapRows(uids[i..], watts))
    {
      RowsUnfold(uids, i, watts, true);
      ok := writer.SetMaxPower(uids[i], watts);
      if !ok {
        return;
      }
    }
    ok := true;
  }

  method ApplyConn(writer: Writer, uids: seq<string>, conn: u16) returns (ok: bool)
    modifies writer
    ensures (writer.State(), ok) == AttemptAll(old(writer.State()), writer.fate, SwitchRows(uids, conn != 0))
  {
    assert uids[0..] == uids;
    for i := 0 to |uids|
      invariant AttemptAll(old(writer.State()), writer.fate, SwitchRows(uids, conn != 0))
             == AttemptAll(writer.State(), writer.fate, SwitchRows(uids[i..], conn != 0))
    {
      RowsUnfold(uids, i, 0, conn != 0);
      ok := writer.SetTurnOnOff(uids[i], conn != 0);
      if !ok {
        return;
      }
    }
    ok := true;
  }

  method ArmOrCancelReversion(reverter: Reverter.Reverter, unit: u8, rvrtTms: u16, targets: seq<string>, now: int)
    requires Reverter.Valid(reverter.View())
    modifies reverter
    ensures Reverter.Valid(old(reverter.View())) && Reverter.Valid(reverter.View())
    ensures reverter.View() == Rearmed(old(reverter.View()), unit, rvrtTms, targets, now)
  {
    if rvrtTms == 0 || rvrtTms == 0xFFFF {
      reverter.Cancel(unit);
      return;
    }
    reverter.Schedule(unit, rvrtTms * Tracker.SECOND, targets, now);
  }

  method Apply(unit: u8, s: Snapshot, writer: Writer, reverter: Reverter.Reverter, off: u16, regs: seq<u16>, now: int)
    returns (ok: bool)
    requires |regs| <= MAX_WRITE && Reverter.Valid(reverter.View())
    modifies writer, reverter
    ensures Reverter.Valid(reverter.View())
    ensures Outcome(writer.State(), reverter.View(), ok)
         == Result(s, unit, off, regs, writer.fate, old(writer.State()), old(reverter.View()), now)
  {
    var targets := TargetUIDs(s, unit);
    if |targets| == 0 {
      return false;
    }
    WindowTests(off, regs, Controls.WMAXLIM_ENA);
    WindowTests(off, regs, Controls.WMAXLIMPCT);
    WindowTests(off, regs, Controls.WMAXLIMPCT_RVRTTMS);
    WindowTests(off, regs, Controls.CONN);
    var enaWritten := Touches(off, regs, Controls.WMAXLIM_ENA);
    var pctWritten := Touches(off, regs, Controls.WMAXLIMPCT);
    var rvrtWritten := Touches(off, regs, Controls.WMAXLIMPCT_RVRTTMS);
    hide Touches, Written, AttemptAll, Rearmed, Reverter.Cancelled;
    if enaWritten && ReadField(off, regs, Controls.WMAXLIM_ENA) == 0 {
      reverter.Cancel(unit);
      ok := RestoreFull(writer, targets);
      if !ok {
        return;
      }
    } else if pctWritten {
      ok := ApplyCap(writer, targets, ReadField(off, regs, Controls.WMAXLIMPCT));
      if !ok {
        return;
      }
      if rvrtWritten {
        ArmOrCancelReversion(reverter, unit, ReadField(off, regs, Controls.WMAXLIMPCT_RVRTTMS), targets, now);
      }
    }
    if Touches(off, regs, Controls.CONN) {
      ok := ApplyConn(writer, targets, ReadField(off, regs, Controls.CONN));
      return;
    }
    ok := true;
  }

  // ---- Effect and frame -----------------------------------------------------------------------

  /** Entries and timers of every other unit are as they were. */
  ghost predicate OtherTimersKept(before: Reverter.State, after: Reverter.State, unit: u8)
    requires Reverter.Indexed(before)
  {
    forall u :: u != unit ==>
      && (u in after.timers <==> u in before.timers)
      && (u in before.timers ==> after.timers[u] == before.timers[u] && before.timers[u] < |after.pool|
                                 && after.pool[before.timers[u]] == before.pool[before.timers[u]])
  }

  predicate OwnTimerSet(p: Power, unit: u8, targets: seq<string>, before: Reverter.State, after: Reverter.State, now: int) {
    match p
    case Keep => after == before
    case CapTo(_, None) => after == before
    case Restore => unit !in after.timers
    case CapTo(_, Some(rvrtTms)) =>
      if Reverts(rvrtTms) then
        && unit in after.timers && after.timers[unit] < |after.pool|
        && after.pool[after.timers[unit]] == Reverter.Timer(unit, now, rvrtTms * Tracker.SECOND, targets, Reverter.Armed)
      else unit !in after.timers
  }

  function CappedTo(power: map<string, Cap>, uids: seq<string>, p: Power): map<string, Cap> {
    map u | u in power :: if u in uids && !p.Keep? then Cap(Watts(p), true) else power[u]
  }

  function SwitchedTo(onOff: map<string, bool>, uids: seq<string>, on: bool): map<string, bool> {
    onOff + map u | u in uids :: on
  }

  lemma TimerFrame(p: Power, unit: u8, targets: seq<string>, fate: Fate, db: Db, rev: Reverter.State, now: int)
    requires Reverter.Valid(rev) && targets != []
    ensures var r := PowerResult(p, unit, targets, fate, db, rev, now);
            OtherTimersKept(rev, r.timers, unit) && (r.ok ==> OwnTimerSet(p, unit, targets, rev, r.timers, now))
  {
  }

  lemma PowerEffect(p: Power, unit: u8, targets: seq<string>, fate: Fate, db: Db, rev: Reverter.State, now: int)
    requires Reverter.Valid(rev)
    ensures var r := PowerResult(p, unit, targets, fate, db, rev, now);
            r.ok ==> r.db.power == CappedTo(db.power, targets, p) && r.db.onOff == db.onOff && r.db.params == db.params
  {
    if !p.Keep? {
      CapsTakeEffect(db, fate, targets, Watts(p));
    }
  }

  lemma ConnEffect(targets: seq<string>, on: bool, fate: Fate, db: Db)
    ensures var (d, ok) := AttemptAll(db, fate, SwitchRows(targets, on));
            ok ==> d.onOff == SwitchedTo(db.onOff, targets, on) && d.power == db.power && d.params == db.params
  {
    SwitchesTakeEffect(db, fate, targets, on);
    var (d, ok) := AttemptAll(db, fate, SwitchRows(targets, on));
    if ok {
      forall u | u in d.onOff
        ensures u in targets || u in db.onOff
      {
      }
    }
  }

  /** The effect of a write in which every statement succeeds, for any window at all: the
      caps of the targets that have a power row, the switches of all targets, and the
      unit's timer; nothing else changes. */
  lemma FullEffect(s: Snapshot, unit: u8, off: u16, regs: seq<u16>, fate: Fate, db: Db, rev: Reverter.State, now: int)
    requires Reverter.Valid(rev) && Result(s, unit, off, regs, fate, db, rev, now).ok
    ensures var r := Result(s, unit, off, regs, fate, db, rev, now);
            var p, targets, conn := PowerOf(off, regs), Targets(s, unit), Written(off, regs, Controls.CONN);
            && targets != []
            && r.db.power == CappedTo(db.power, targets, p)
            && r.db.onOff == (if conn.Some? then SwitchedTo(db.onOff, targets, conn.value != 0) else db.onOff)
            && r.db.params == db.params
            && OwnTimerSet(p, unit, targets, rev, r.timers, now) && OtherTimersKept(rev, r.timers, unit)
  {
    var p, targets := PowerOf(off, regs), Targets(s, unit);
    var r := PowerResult(p, unit, targets, fate, db, rev, now);
    TimerFrame(p, unit, targets, fate, db, rev, now);
    PowerEffect(p, unit, targets, fate, db, rev, now);
    match Written(off, regs, Controls.CONN)
    case Some(conn) => ConnEffect(targets, conn != 0, fate, r.db);
    case None =>
  }

  /** Whatever fails: protection parameters, other inverters and other units' timers are
      untouched, caps are the old or the new ones, and no timer is armed without every
      cap being in place. */
  lemma FailureFrame(s: Snapshot, unit: u8, off: u16, regs: seq<u16>, fate: Fate, db: Db, rev: Reverter.State, now: int)
    requires Reverter.Valid(rev) && !Result(s, unit, off, regs, fate, db, rev, now).ok
    ensures var r := Result(s, unit, off, regs, fate, db, rev, now);
            var p, targets, conn := PowerOf(off, regs), Targets(s, unit), Written(off, regs, Controls.CONN);
            && (targets == [] ==> r.db == db && r.timers == rev)
            && r.db.params == db.params && r.db.power.Keys == db.power.Keys && OtherTimersKept(rev, r.timers, unit)
            && (forall u :: u in db.power && r.db.power[u] != db.power[u] ==>
                  u in targets && !p.Keep? && r.db.power[u] == Cap(Watts(p), true))
            && (forall u :: u in r.db.onOff && !(u in db.onOff && r.db.onOff[u] == db.onOff[u]) ==>
                  u in targets && conn.Some? && r.db.onOff[u] == (conn.value != 0))
            && db.onOff.Keys <= r.db.onOff.Keys
            && (|r.timers.pool| > |rev.pool| ==> forall u :: u in db.power && u in targets ==> r.db.power[u] == Cap(Watts(p), true))
  {
    var p, targets := PowerOf(off, regs), Targets(s, unit);
    if targets != [] {
      var r := PowerResult(p, unit, targets, fate, db, rev, now);
      TimerFrame(p, unit, targets, fate, db, rev, now);
      if !p.Keep? {
        CapsTakeEffect(db, fate, targets, Watts(p));
      }
      match Written(off, regs, Controls.CONN)
      case Some(conn) => SwitchesTakeEffect(r.db, fate, targets, conn != 0);
      case None =>
    }
  }

  /** A write fails only on an unmapped unit or because a statement failed. */
  lemma {:induction false} BatchSucceeds(db: Db, fate: Fate, rows: seq<Row>)
    requires forall k: nat :: k >= db.attempts ==> fate(k)
    ensures AttemptAll(db, fate, rows).1
    decreases |rows|
  {
    if rows != [] {
      BatchSucceeds(Attempt(db, fate, rows[0]).0, fate, rows[1..]);
    }
  }

  lemma SucceedsOnMappedUnits(s: Snapshot, unit: u8, off: u16, regs: seq<u16>, fate: Fate, db: Db, rev: Reverter.State, now: int)
    requires Reverter.Valid(rev) && forall k :: fate(k)
    ensures Result(s, unit, off, regs, fate, db, rev, now).ok <==> Mapped(s, unit) || (unit <= 1 && s.inverters != [])
  {
    var p, targets := PowerOf(off, regs), Targets(s, unit);
    if !p.Keep? {
      BatchSucceeds(db, fate, CapRows(targets, Watts(p)));
    }
    var r := PowerResult(p, unit, targets, fate, db, rev, now);
    match Written(off, regs, Controls.CONN)
    case Some(conn) => BatchSucceeds(r.db, fate, SwitchRows(targets, conn != 0));
    case None =>
  }

  // ---- The effect in registers ------------------------------------------------------------------

  /** The inverters a client means: the whole fleet on units 0 and 1, the one at index
      unit-2 otherwise. */
  predicate StandsFor(s: Snapshot, unit: u8, x: string) {
    if unit <= 1 then exists i :: 0 <= i < |s.inverters| && s.inverters[i].uid == x
    else unit - 2 < |s.inverters| && s.inverters[unit - 2].uid == x
  }

  lemma TargetsStand(s: Snapshot, unit: u8, x: string)
    ensures x in Targets(s, unit) <==> StandsFor(s, unit, x)
  {
    if unit <= 1 && x in Targets(s, unit) {
      var i :| 0 <= i < |s.inverters| && Targets(s, unit)[i] == x;
      assert s.inverters[i].uid == x;
    }
    if unit <= 1 && StandsFor(s, unit, x) {
      var i :| 0 <= i < |s.inverters| && s.inverters[i].uid == x;
      assert Targets(s, unit)[i] == x;
    }
  }

  /** The limit the registers ask for (3 percentage, 7 enable), given the old one. */
  function LimitAsked(off: u16, regs: seq<u16>, was: Cap): Cap {
    if off <= 7 < off + |regs| && regs[7 - off] == 0 then Cap(500, true)
    else if off <= 3 < off + |regs| then Cap(Max(20, 5 * Min(regs[3 - off], 100)), true)
    else was
  }

  /** The limits after a successful write, read off its registers (2 connection, 3
      percentage, 5 reversion time, 7 enable): enable 0 gives 500 W whatever the
      percentage; otherwise a percentage gives that share of 500 W, at least 20 W and at
      most 500 W; every other inverter keeps its limit. */
  lemma LimitsInRegisters(s: Snapshot, unit: u8, off: u16, regs: seq<u16>, fate: Fate, db: Db, rev: Reverter.State, now: int)
    requires Reverter.Valid(rev) && Result(s, unit, off, regs, fate, db, rev, now).ok
    ensures var power := Result(s, unit, off, regs, fate, db, rev, now).db.power;
            && power.Keys == db.power.Keys
            && forall x :: x in db.power ==>
                 power[x] == if StandsFor(s, unit, x) then LimitAsked(off, regs, db.power[x]) else db.power[x]
  {
    FullEffect(s, unit, off, regs, fate, db, rev, now);
    hide Result, Targets, StandsFor;
    forall x | x in db.power
      ensures x in Targets(s, unit) <==> StandsFor(s, unit, x)
    {
      TargetsStand(s, unit, x);
    }
  }

  /** The switches after a successful write. */
  lemma SwitchesInRegisters(s: Snapshot, unit: u8, off: u16, regs: seq<u16>, fate: Fate, db: Db, rev: Reverter.State, now: int, x: string)
    requires Reverter.Valid(rev) && Result(s, unit, off, regs, fate, db, rev, now).ok
    ensures var d := Result(s, unit, off, regs, fate, db, rev, now).db;
            && d.params == db.params
            && if StandsFor(s, unit, x) && off <= 2 < off + |regs| then x in d.onOff && d.onOff[x] == (regs[2 - off] != 0)
               else (x in d.onOff <==> x in db.onOff) && (x in d.onOff ==> d.onOff[x] == db.onOff[x])
  {
    FullEffect(s, unit, off, regs, fate, db, rev, now);
    TargetsStand(s, unit, x);
    hide Result, Targets, StandsFor;
  }

  /** The unit has no timer in the map, and the one it had is not armed any more. */
  predicate NoTimer(before: Reverter.State, after: Reverter.State, unit: u8)
    requires Reverter.Indexed(before)
  {
    && unit !in after.timers
    && (unit in before.timers ==> before.timers[unit] < |after.pool| && after.pool[before.timers[unit]].phase != Reverter.Armed)
  }

  /** The unit's map entry is an armed timer that started now, runs for the given seconds,
      and covers exactly the inverters the client means, in fleet order. */
  predicate NewTimer(after: Reverter.State, s: Snapshot, unit: u8, seconds: int, now: int) {
    && unit in after.timers && after.timers[unit] < |after.pool|
    && var t := after.pool[after.timers[unit]];
       && t.unit == unit && t.started == now && t.after == seconds * 1_000_000_000 && t.phase == Reverter.Armed
       && if unit <= 1 then |t.targets| == |s.inverters| && forall i :: 0 <= i < |s.inverters| ==> t.targets[i] == s.inverters[i].uid
          else unit - 2 < |s.inverters| && t.targets == [s.inverters[unit - 2].uid]
  }

  /** The timers after a successful write: enable 0 leaves the unit none; otherwise a
      percentage with a reversion time arms that many seconds, 0 and 0xFFFF leaving none;
      any other write leaves the unit's timer alone, and every write other units'. */
  lemma TimersInRegisters(s: Snapshot, unit: u8, off: u16, regs: seq<u16>, fate: Fate, db: Db, rev: Reverter.State, now: int)
    requires Reverter.Valid(rev) && Result(s, unit, off, regs, fate, db, rev, now).ok
    ensures var after := Result(s, unit, off, regs, fate, db, rev, now).timers;
            && OtherTimersKept(rev, after, unit)
            && if off <= 7 < off + |regs| && regs[7 - off] == 0 then NoTimer(rev, after, unit)
               else if off <= 3 < off + |regs| && off <= 5 < off + |regs| then
                 if regs[5 - off] == 0 || regs[5 - off] == 0xFFFF then NoTimer(rev, after, unit)
                 else NewTimer(after, s, unit, regs[5 - off], now)
               else after == rev
  {
    TimerFrame(PowerOf(off, regs), unit, Targets(s, unit), fate, db, rev, now);
  }

  /** With a database that takes every statement, exactly the writes on units that stand for
      some inverter succeed. */
  lemma SuccessInUnits(s: Snapshot, unit: u8, off: u16, regs: seq<u16>, fate: Fate, db: Db, rev: Reverter.State, now: int)
    requires Reverter.Valid(rev) && forall k :: fate(k)
    ensures Result(s, unit, off, regs, fate, db, rev, now).ok <==> exists x :: StandsFor(s, unit, x)
  {
    SucceedsOnMappedUnits(s, unit, off, regs, fate, db, rev, now);
    if unit <= 1 && s.inverters != [] {
      assert StandsFor(s, unit, s.inverters[0].uid);
    } else if Mapped(s, unit) {
      assert StandsFor(s, unit, s.inverters[unit - 2].uid);
    }
  }
}
