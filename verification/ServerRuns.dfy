/** Whole runs of the server: requests of any client, every step of a refresh, and every
    step of the reversion timers interleave (internal/server/server.go and the writers).
    `EndToEnd` shows that each such run is a run of the two protocols as well. */
module ServerRuns {
  import opened Prelude
  import opened Snapshots
  import opened Commands
  import opened Profiles
  import opened Reverter
  import Server
  import Tracker
  import TrackerRuns
  import FreqDroop
  import FreqWattCurve
  import ControlsWriter
  import EnterServiceWriter
  import DroopWriter
  import CurveWriter

  /** A refresh stores its banks and its snapshot one after the other, so a request may see
      the banks of one and the snapshot of another: here of any other.  `Sent` is the
      radio program clearing the pending flag of a row. */
  datatype Event =
    | Request(permitted: bool, unit: u8, addr: u16, regs: seq<u16>)
    | Refresh(step: TrackerRuns.Event)
    | StoreSnapshot(s: Snapshot)
    | Tick(dt: nat)
    | Sent(uid: string)
    | Expiry(id: nat)
    | Fire(id: nat)
    | RestoreOne(id: nat)
    | StopAll

  datatype World = World(
    now: int, st: Server.State, refresh: TrackerRuns.Refresh,
    banks: Option<map<u8, seq<u16>>>, snap: Option<Snapshot>)

  /** The part of the state the asynchronous result protocol sees. */
  function TrackerView(w: World): TrackerRuns.World {
    TrackerRuns.World(w.now, w.st.entries, w.refresh, match w.banks case None => map[] case Some(all) => all)
  }

  ghost predicate Enabled(w: World, e: Event, cfg: TrackerRuns.Setup) {
    match e
    case Request(_, _, _, regs) => |regs| <= MAX_WRITE
    case Refresh(step) => !step.Track? && !step.Tick? && TrackerRuns.Enabled(TrackerView(w), step, cfg)
    case Sent(uid) => uid in w.st.db.power
    case Expiry(id) => CanExpire(w.st.rev, id, w.now)
    case Fire(id) => CanBeginFire(w.st.rev, id)
    case RestoreOne(id) => CanRestore(w.st.rev, id)
    case _ => true
  }

  // ---- Requests --------------------------------------------------------------------------------

  /** A request that reaches a writer: the model, the offset into its body, and the snapshot
      it is handled with. */
  datatype Route = Route(m: Server.Model, off: u16, s: Snapshot)

  function Routed(w: World, e: Event): Option<Route>
    requires e.Request? && |e.regs| <= MAX_WRITE
  {
    if !e.permitted || w.snap.None? then None
    else match Server.BankFor(w.banks, e.unit)
      case None => None
      case Some(bank) =>
        match Server.RouteFrom(bank, e.addr, |e.regs|, 0)
        case None => None
        case Some((m, off)) => Some(Route(m, off, w.snap.value))
  }

  /** What a request tracks, if it tracks something. */
  function Tracking(w: World, e: Event, fate: Fate): Option<(Tracker.Key, map<string, real>)>
    requires e.Request? && |e.regs| <= MAX_WRITE
  {
    match Routed(w, e)
    case Some(Route(DroopModel, off, s)) =>
      (match DroopWriter.Result(s, e.unit, off, e.regs, fate, w.st.db).track
       case None => None
       case Some(expected) => Some((Tracker.Key(e.unit, FreqDroop.MODEL), expected)))
    case Some(Route(CurveModel, off, s)) =>
      (match CurveWriter.Result(s, e.unit, off, e.regs, fate, w.st.db).track
       case None => None
       case Some(expected) => Some((Tracker.Key(e.unit, FreqWattCurve.MODEL), expected)))
    case _ => None
  }

  ghost function Next(w: World, e: Event, fate: Fate, cfg: TrackerRuns.Setup): World
    requires Enabled(w, e, cfg) && Valid(w.st.rev)
  {
    match e
    case Request(permitted, unit, addr, regs) =>
      var r := match Tracking(w, e, fate) case None => w.refresh case Some(t) => TrackerRuns.Noticed(w.refresh, t.0);
      w.(st := Server.Handled(permitted, w.banks, w.snap, unit, addr, regs, fate, w.st, w.now).0, refresh := r)
    case Refresh(step) =>
      var t := TrackerRuns.Next(TrackerView(w), step, cfg);
      World(w.now, w.st.(entries := t.entries), t.refresh, if step.Publish? then Some(t.banks) else w.banks, w.snap)
    case StoreSnapshot(s) => w.(snap := Some(s))
    case Tick(dt) => w.(now := w.now + dt)
    case Sent(uid) =>
      w.(st := w.st.(db := w.st.db.(power := w.st.db.power[uid := Cap(w.st.db.power[uid].watts, false)])))
    case Expiry(id) => w.(st := w.st.(rev := Expire(w.st.rev, id)))
    case Fire(id) => w.(st := w.st.(rev := BeginFire(w.st.rev, id)))
    case RestoreOne(id) =>
      w.(st := w.st.(db := Attempt(w.st.db, fate, RestoreRow(w.st.rev.pool[id])).0, rev := Restore(w.st.rev, id)))
    case StopAll => w.(st := w.st.(rev := AllStopped(w.st.rev)))
  }

  /** A run starts without timers, tracked requests or banks. */
  ghost predicate IsRun(ws: seq<World>, es: seq<Event>, fate: Fate, cfg: TrackerRuns.Setup): (r: bool)
    ensures r ==> |ws| == |es| + 1
  {
    && |ws| == |es| + 1
    && ws[0].st.rev == EMPTY && ws[0].st.db.log == [] && ws[0].st.entries == map[] && ws[0].refresh == TrackerRuns.Idle
    && forall k :: 0 <= k < |es| ==>
         Enabled(ws[k], es[k], cfg) && Valid(ws[k].st.rev) && ws[k + 1] == Next(ws[k], es[k], fate, cfg)
  }

  /** A routed request has the effect of its model's writer, any other none. */
  lemma HandledIsRouted(w: World, e: Event, fate: Fate)
    requires e.Request? && |e.regs| <= MAX_WRITE && Valid(w.st.rev)
    ensures Server.Handled(e.permitted, w.banks, w.snap, e.unit, e.addr, e.regs, fate, w.st, w.now).0
         == match Routed(w, e)
            case None => w.st
            case Some(r) => Server.Dispatched(r.m, r.off, r.s, e.unit, e.regs, fate, w.st, w.now).0
  {
    hide Server.Dispatched, Server.RouteFrom, Server.BankFor;
  }

  // ---- What a row may be ------------------------------------------------------------------

  /** A row that a request on a unit may write, given the snapshot it was handled with. */
  ghost predicate Justified(row: Row, s: Snapshot, unit: u8) {
    match row
    case CapRow(uid, watts) => MIN_PANEL_W <= watts <= MAX_PANEL_W && uid in ControlsWriter.Targets(s, unit)
    case SwitchRow(uid, _) => uid in ControlsWriter.Targets(s, unit)
    case ParamRow(uid, param, value) =>
      && Mapped(s, unit) && uid == s.inverters[unit - 2].uid && uid != ""
      && InRange(param, value, ProtectionOf(s, uid))
      && AllowedFor(FamilyForModel(s.inverters[unit - 2].model), param)
  }

  predicate InRange(param: Param, value: real, p: Protection) {
    match param
    case GridRecovery => 10.0 <= value <= 610.0
    case DroopStart => "AK" in p.has && 50.0 < value <= p.ofFast - 0.5
    case DroopSlope => "AK" in p.has && 10.0 <= value <= 150.0
    case DroopDelay => "AK" in p.has && 0.0 <= value <= 4294967295.0
    case DroopMode => "AK" in p.has && (value == 13.0 || value == 14.0 || value == 15.0)
    case RecoverHigh => false
    case _ => 0.0 < value <= 655.35
  }

  /** No freq-watt parameter goes to an unknown family, no slope or delay to a QS1A. */
  predicate AllowedFor(family: Family, param: Param) {
    && (param != GridRecovery ==> family != Unknown)
    && (family == QS1A ==> param != DroopSlope && param != DroopDelay)
  }

  // ---- One request ----------------------------------------------------------------------------

  /** The log grows by justified rows only. */
  ghost predicate Grows(before: Db, after: Db, s: Snapshot, unit: u8) {
    && before.log <= after.log
    && forall n :: |before.log| <= n < |after.log| ==> Justified(after.log[n], s, unit)
  }

  lemma BatchGrows(db: Db, fate: Fate, rows: seq<Row>, s: Snapshot, unit: u8)
    requires forall row :: row in rows ==> Justified(row, s, unit)
    ensures Grows(db, AttemptAll(db, fate, rows).0, s, unit)
  {
    hide Justified;
    var n := AttemptAllWritesAPrefix(db, fate, rows);
    var after := AttemptAll(db, fate, rows).0;
    forall i | |db.log| <= i < |after.log|
      ensures Justified(after.log[i], s, unit)
    {
      assert after.log[i] == rows[i - |db.log|];
    }
  }

  lemma OneRowGrows(db: Db, fate: Fate, row: Row, s: Snapshot, unit: u8)
    requires Justified(row, s, unit)
    ensures Grows(db, Attempt(db, fate, row).0, s, unit)
  {
    hide Justified;
  }

  lemma GrowsTwice(a: Db, b: Db, c: Db, s: Snapshot, unit: u8)
    requires Grows(a, b, s, unit) && Grows(b, c, s, unit)
    ensures Grows(a, c, s, unit)
  {
    hide Justified;
    forall n | |a.log| <= n < |c.log|
      ensures Justified(c.log[n], s, unit)
    {
      assert n < |b.log| ==> c.log[n] == b.log[n];
    }
  }

  lemma ControlsGrow(s: Snapshot, unit: u8, off: u16, regs: seq<u16>, fate: Fate, db: Db, rev: State, now: int)
    requires Valid(rev)
    ensures Grows(db, ControlsWriter.Result(s, unit, off, regs, fate, db, rev, now).db, s, unit)
  {
    var targets, p := ControlsWriter.Targets(s, unit), ControlsWriter.PowerOf(off, regs);
    if targets != [] {
      if !p.Keep? {
        BatchGrows(db, fate, CapRows(targets, ControlsWriter.Watts(p)), s, unit);
      }
      var r := ControlsWriter.PowerResult(p, unit, targets, fate, db, rev, now);
      assert Grows(db, r.db, s, unit);
      match ControlsWriter.Written(off, regs, ControlsWriter.Controls.CONN)
      case Some(conn) =>
        BatchGrows(r.db, fate, SwitchRows(targets, conn != 0), s, unit);
        GrowsTwice(db, r.db, AttemptAll(r.db, fate, SwitchRows(targets, conn != 0)).0, s, unit);
      case None =>
    }
  }

  lemma EnterServiceGrows(s: Snapshot, unit: u8, off: u16, regs: seq<u16>, fate: Fate, db: Db)
    ensures Grows(db, EnterServiceWriter.Result(s, unit, off, regs, fate, db).0, s, unit)
  {
    match EnterServiceWriter.Accepted(s, unit, off, regs)
    case Some(row) => OneRowGrows(db, fate, row, s, unit);
    case None =>
  }

  lemma DroopGrows(s: Snapshot, unit: u8, off: u16, regs: seq<u16>, fate: Fate, db: Db)
    ensures Grows(db, DroopWriter.Result(s, unit, off, regs, fate, db).db, s, unit)
  {
    match DroopWriter.Accepted(s, unit, off, regs)
    case Some(cmd) =>
      DroopWriter.AcceptedRowsAreSafe(s, unit, off, regs);
      OneRowGrows(db, fate, DroopWriter.RowFor(cmd, s, unit), s, unit);
    case None =>
  }

  lemma CurveGrows(s: Snapshot, unit: u8, off: u16, regs: seq<u16>, fate: Fate, db: Db)
    ensures Grows(db, CurveWriter.Result(s, unit, off, regs, fate, db).db, s, unit)
  {
    match CurveWriter.Accepted(s, unit, off, regs)
    case Some(row) => OneRowGrows(db, fate, row, s, unit);
    case None =>
  }

  /** A permitted request, and the unit and snapshot it was handled with. */
  ghost predicate Asked(w: World, e: Event) {
    e.Request? && e.permitted && w.snap.Some?
  }

  /** A request adds justified rows, and the timer it may arm covers its own targets. */
  lemma RequestGrows(w: World, e: Event, fate: Fate, cfg: TrackerRuns.Setup)
    requires Enabled(w, e, cfg) && Valid(w.st.rev) && e.Request?
    ensures Valid(Next(w, e, fate, cfg).st.rev)
    ensures Next(w, e, fate, cfg).st == w.st || Asked(w, e)
    ensures Asked(w, e) ==>
      && Grows(w.st.db, Next(w, e, fate, cfg).st.db, w.snap.value, e.unit)
      && ArmsOwn(w.st.rev, Next(w, e, fate, cfg).st.rev, w.snap.value, e.unit)
  {
    HandledIsRouted(w, e, fate);
    hide Grows, ArmsOwn, Server.Handled, Server.Dispatched, Server.RouteFrom, Tracking, Valid;
    match Routed(w, e)
    case None => NothingGrows(w, e.unit);
    case Some(r) => DispatchGrows(r.m, r.off, r.s, e.unit, e.regs, fate, w.st, w.now);
  }

  lemma NothingGrows(w: World, unit: u8)
    ensures forall s :: Grows(w.st.db, w.st.db, s, unit) && ArmsOwn(w.st.rev, w.st.rev, s, unit)
  {
  }

  /** Timers of the pool stay as they are up to their phase; at most one is new, and it
      covers the unit's targets. */
  ghost predicate ArmsOwn(before: State, after: State, s: Snapshot, unit: u8) {
    && |before.pool| <= |after.pool| <= |before.pool| + 1
    && (forall id :: 0 <= id < |before.pool| ==>
          after.pool[id].targets == before.pool[id].targets && after.pool[id].unit == before.pool[id].unit)
    && (forall id :: |before.pool| <= id < |after.pool| ==>
          after.pool[id].targets == ControlsWriter.Targets(s, unit) && after.pool[id].unit == unit)
  }

  lemma DispatchGrows(m: Server.Model, off: u16, s: Snapshot, unit: u8, regs: seq<u16>, fate: Fate, st: Server.State, now: int)
    requires Valid(st.rev)
    ensures var st' := Server.Dispatched(m, off, s, unit, regs, fate, st, now).0;
            Valid(st'.rev) && Grows(st.db, st'.db, s, unit) && ArmsOwn(st.rev, st'.rev, s, unit)
  {
    hide Grows, DroopWriter.Result, CurveWriter.Result, EnterServiceWriter.Result;
    match m
    case ControlsModel =>
      ControlsGrow(s, unit, off, regs, fate, st.db, st.rev, now);
      ControlsArm(s, unit, off, regs, fate, st.db, st.rev, now);
    case EnterServiceModel => EnterServiceGrows(s, unit, off, regs, fate, st.db);
    case DroopModel => DroopGrows(s, unit, off, regs, fate, st.db);
    case CurveModel => CurveGrows(s, unit, off, regs, fate, st.db);
  }

  lemma ControlsArm(s: Snapshot, unit: u8, off: u16, regs: seq<u16>, fate: Fate, db: Db, rev: State, now: int)
    requires Valid(rev)
    ensures var after := ControlsWriter.Result(s, unit, off, regs, fate, db, rev, now).timers;
            Valid(after) && ArmsOwn(rev, after, s, unit)
  {
    var p, targets := ControlsWriter.PowerOf(off, regs), ControlsWriter.Targets(s, unit);
    LockedArms(rev, unit, if p.CapTo? && p.rvrtTms.Some? then p.rvrtTms.value * Tracker.SECOND else 0, s, now);
    hide ControlsWriter.Targets, ControlsWriter.PowerOf, AttemptAll, CapRows, SwitchRows, ArmsOwn, Valid, Cancelled, Scheduled;
  }

  lemma LockedArms(rev: State, unit: u8, after: int, s: Snapshot, now: int)
    requires Valid(rev)
    ensures Valid(Cancelled(rev, unit)) && ArmsOwn(rev, rev, s, unit) && ArmsOwn(rev, Cancelled(rev, unit), s, unit)
    ensures var n := Scheduled(rev, unit, after, ControlsWriter.Targets(s, unit), now); Valid(n) && ArmsOwn(rev, n, s, unit)
  {
    hide ControlsWriter.Targets;
    CancelKeepsValid(rev, unit);
    ScheduleKeepsValid(rev, unit, after, ControlsWriter.Targets(s, unit), now);
  }

  // ---- The history ----------------------------------------------------------------------------

  lemma StepKeepsValid(w: World, e: Event, fate: Fate, cfg: TrackerRuns.Setup)
    requires Enabled(w, e, cfg) && Valid(w.st.rev)
    ensures Valid(Next(w, e, fate, cfg).st.rev)
  {
    match e
    case Request(_, _, _, _) => RequestGrows(w, e, fate, cfg);
    case Refresh(_) => hide TrackerRuns.Next;
    case Expiry(id) => GoroutineKeepsValid(w.st.rev, id);
    case Fire(id) => GoroutineKeepsValid(w.st.rev, id);
    case RestoreOne(id) => GoroutineKeepsValid(w.st.rev, id);
    case _ =>
  }

  /** No enabled event is excluded from a run. */
  lemma RunsExtend(ws: seq<World>, es: seq<Event>, fate: Fate, cfg: TrackerRuns.Setup, e: Event)
    requires IsRun(ws, es, fate, cfg) && Enabled(ws[|es|], e, cfg)
    ensures Valid(ws[|es|].st.rev) && IsRun(ws + [Next(ws[|es|], e, fate, cfg)], es + [e], fate, cfg)
  {
    hide Next, Valid, Enabled;
    if |es| > 0 {
      StepKeepsValid(ws[|es| - 1], es[|es| - 1], fate, cfg);
    } else {
      assert Valid(EMPTY) by {
        EmptyIsValid();
      }
    }
  }

  lemma EmptyIsValid()
    ensures Valid(EMPTY)
  {
  }

  lemma OtherStepsKeepTimers(w: World, e: Event, fate: Fate, cfg: TrackerRuns.Setup)
    requires Enabled(w, e, cfg) && Valid(w.st.rev) && !e.Request?
    ensures var before, after := w.st.rev.pool, Next(w, e, fate, cfg).st.rev.pool;
            && |after| == |before|
            && forall id :: 0 <= id < |before| ==> after[id].targets == before[id].targets && after[id].unit == before[id].unit
  {
    hide TrackerRuns.Next, TrackerRuns.Enabled;
  }

  /** The request that armed a timer: the pool grew by it at that step, and the timer covers
      exactly the targets of its unit in its snapshot. */
  ghost predicate Arms(ws: seq<World>, es: seq<Event>, j: nat, t: Timer, id: nat)
    requires j < |es| && j + 1 < |ws|
  {
    && Asked(ws[j], es[j]) && |ws[j].st.rev.pool| == id < |ws[j + 1].st.rev.pool|
    && t.unit == es[j].unit && t.targets == ControlsWriter.Targets(ws[j].snap.value, es[j].unit)
  }

  /** Every timer was armed by one permitted request and covers that request's targets. */
  lemma {:induction false} TimersComeFromRequests(ws: seq<World>, es: seq<Event>, fate: Fate, cfg: TrackerRuns.Setup, k: nat, id: nat)
    returns (j: nat)
    requires IsRun(ws, es, fate, cfg) && k <= |es| && id < |ws[k].st.rev.pool|
    ensures j < k && Arms(ws, es, j, ws[k].st.rev.pool[id], id)
    decreases k
  {
    hide Next, Valid, Enabled, Grows, ControlsWriter.Targets;
    var w, e := ws[k - 1], es[k - 1];
    if e.Request? {
      RequestGrows(w, e, fate, cfg);
    } else {
      OtherStepsKeepTimers(w, e, fate, cfg);
    }
    if id < |w.st.rev.pool| {
      j := TimersComeFromRequests(ws, es, fate, cfg, k - 1, id);
    } else {
      j := k - 1;
    }
  }

  lemma OtherStepsLog(w: World, e: Event, fate: Fate, cfg: TrackerRuns.Setup)
    requires Enabled(w, e, cfg) && Valid(w.st.rev) && !e.Request?
    ensures var before, after := w.st.db.log, Next(w, e, fate, cfg).st.db.log;
            after == before || (e.RestoreOne? && CanRestore(w.st.rev, e.id) && after == before + [RestoreRow(w.st.rev.pool[e.id])])
  {
    hide TrackerRuns.Next, TrackerRuns.Enabled;
  }

  /** Step j queued row n. */
  predicate QueuedAt(ws: seq<World>, j: nat, n: nat, row: Row) {
    j + 1 < |ws| && |ws[j].st.db.log| <= n < |ws[j + 1].st.db.log| && ws[j + 1].st.db.log[n] == row
  }

  /** Queue history: whatever the interleaving of requests, refreshes, failures and timers,
      the step j that queued a row is a permitted request, whose own unit and snapshot
      justify the row, or one restore of a timer; then a is the earlier request that
      armed this very timer, and its unit and snapshot justify the row. */
  lemma {:induction false} QueueHistory(ws: seq<World>, es: seq<Event>, fate: Fate, cfg: TrackerRuns.Setup, k: nat, n: nat)
    returns (j: nat, a: nat)
    requires IsRun(ws, es, fate, cfg) && k <= |es| && n < |ws[k].st.db.log|
    ensures a <= j < k && QueuedAt(ws, j, n, ws[k].st.db.log[n])
    ensures Asked(ws[a], es[a]) && Justified(ws[k].st.db.log[n], ws[a].snap.value, es[a].unit)
    ensures es[j].Request? ==> a == j
    ensures !es[j].Request? ==>
      && es[j].RestoreOne? && CanRestore(ws[j].st.rev, es[j].id)
      && ws[k].st.db.log[n] == RestoreRow(ws[j].st.rev.pool[es[j].id])
      && a < j && Arms(ws, es, a, ws[j].st.rev.pool[es[j].id], es[j].id)
    decreases k
  {
    hide Next, Valid, Enabled, Justified, ArmsOwn, Arms, ControlsWriter.Targets;
    var w, e := ws[k - 1], es[k - 1];
    if e.Request? {
      RequestGrows(w, e, fate, cfg);
    } else {
      OtherStepsLog(w, e, fate, cfg);
    }
    if n < |w.st.db.log| {
      j, a := QueueHistory(ws, es, fate, cfg, k - 1, n);
    } else if e.Request? {
      j, a := k - 1, k - 1;
    } else {
      j := k - 1;
      a := RestoresAreJustified(ws, es, fate, cfg, k - 1);
    }
  }

  lemma RestoresAreJustified(ws: seq<World>, es: seq<Event>, fate: Fate, cfg: TrackerRuns.Setup, k: nat) returns (a: nat)
    requires IsRun(ws, es, fate, cfg) && k < |es| && es[k].RestoreOne? && CanRestore(ws[k].st.rev, es[k].id)
    ensures a < k && Arms(ws, es, a, ws[k].st.rev.pool[es[k].id], es[k].id)
    ensures Asked(ws[a], es[a]) && Justified(RestoreRow(ws[k].st.rev.pool[es[k].id]), ws[a].snap.value, es[a].unit)
  {
    hide IsRun, ControlsWriter.Targets;
    a := TimersComeFromRequests(ws, es, fate, cfg, k, es[k].id);
  }
}
