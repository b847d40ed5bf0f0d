/** Caps with a reversion time, over whole runs: Model 123 writes of any client on any
    unit, other rows, time, expiry and restores interleave
    (internal/server/controls_writer.go, reverter.go).  Each write is one step.  An
    atomic run has the expiry of each timer happen together with the locked section of
    its `fire` (`Lapse`); other runs take them apart (`Expiry`, `Fire`). */
module Failsafe {
  import opened Prelude
  import opened Snapshots
  import opened Commands
  import opened Reverter
  import ControlsWriter
  import TimerRuns
  import Tracker

  datatype Event =
    | Write(s: Snapshot, unit: u8, off: u16, regs: seq<u16>)
    | Tick(dt: nat)
    | Sent(uid: string)
    | Queue(db: Db)
    | Lapse(id: nat)
    | Expiry(id: nat)
    | Fire(id: nat)
    | RestoreOne(id: nat)
    | StopAll

  datatype World = World(now: int, db: Db, rev: State)

  predicate Enabled(w: World, e: Event) {
    match e
    case Lapse(id) => CanExpire(w.rev, id, w.now)
    case Expiry(id) => CanExpire(w.rev, id, w.now)
    case Fire(id) => CanBeginFire(w.rev, id)
    case Queue(db) => db.power == w.db.power && db.attempts >= w.db.attempts
    case RestoreOne(id) => CanRestore(w.rev, id)
    case Sent(uid) => uid in w.db.power
    case _ => true
  }

  ghost function WriteResult(w: World, e: Event, fate: Fate): ControlsWriter.Outcome
    requires e.Write? && Valid(w.rev)
  {
    ControlsWriter.Result(e.s, e.unit, e.off, e.regs, fate, w.db, w.rev, w.now)
  }

  /** `Sent` is the radio program clearing the pending flag of a row it has sent; `Queue` is
      any write to the other tables. */
  ghost function Next(w: World, e: Event, fate: Fate): World
    requires Enabled(w, e) && Valid(w.rev)
  {
    match e
    case Write(_, _, _, _) => var r := WriteResult(w, e, fate); World(w.now, r.db, r.timers)
    case Tick(dt) => w.(now := w.now + dt)
    case Sent(uid) => w.(db := w.db.(power := w.db.power[uid := Cap(w.db.power[uid].watts, false)]))
    case Queue(db) => w.(db := db)
    case Lapse(id) => w.(rev := BeginFire(Expire(w.rev, id), id))
    case Expiry(id) => w.(rev := Expire(w.rev, id))
    case Fire(id) => w.(rev := BeginFire(w.rev, id))
    case RestoreOne(id) =>
      World(w.now, Attempt(w.db, fate, RestoreRow(w.rev.pool[id])).0, Restore(w.rev, id))
    case StopAll => w.(rev := AllStopped(w.rev))
  }

  ghost predicate IsRun(ws: seq<World>, es: seq<Event>, fate: Fate) {
    && |ws| == |es| + 1
    && ws[0].rev == EMPTY
    && forall k :: 0 <= k < |es| ==> Enabled(ws[k], es[k]) && Valid(ws[k].rev) && ws[k + 1] == Next(ws[k], es[k], fate)
  }

  lemma StepKeepsValid(w: World, e: Event, fate: Fate)
    requires Enabled(w, e) && Valid(w.rev)
    ensures Valid(Next(w, e, fate).rev)
  {
    match e
    case Write(_, unit, _, _) =>
      WriteTimers(w, e, fate);
      var p, targets := ControlsWriter.PowerOf(e.off, e.regs), ControlsWriter.Targets(e.s, e.unit);
      CancelKeepsValid(w.rev, unit);
      ScheduleKeepsValid(w.rev, unit, if p.CapTo? && p.rvrtTms.Some? then p.rvrtTms.value * Tracker.SECOND else 0, targets, w.now);
    case Lapse(id) =>
      GoroutineKeepsValid(w.rev, id);
      GoroutineKeepsValid(Expire(w.rev, id), id);
    case Expiry(id) => GoroutineKeepsValid(w.rev, id);
    case Fire(id) => GoroutineKeepsValid(w.rev, id);
    case RestoreOne(id) => GoroutineKeepsValid(w.rev, id);
    case _ =>
  }

  /** The validity that `IsRun` mentions excludes nothing: every enabled event of a run
      leads to a longer run. */
  lemma RunsExtend(ws: seq<World>, es: seq<Event>, fate: Fate, e: Event)
    requires IsRun(ws, es, fate) && Enabled(ws[|es|], e)
    ensures Valid(ws[|es|].rev) && IsRun(ws + [Next(ws[|es|], e, fate)], es + [e], fate)
  {
    hide Next, Enabled;
    if |es| > 0 {
      StepKeepsValid(ws[|es| - 1], es[|es| - 1], fate);
    }
  }

  /** A run in which expiry is never apart from the locked section of `fire`. */
  ghost predicate IsAtomicRun(ws: seq<World>, es: seq<Event>, fate: Fate): (r: bool)
    ensures r ==> |ws| == |es| + 1
  {
    IsRun(ws, es, fate) && forall k :: 0 <= k < |es| ==> !es[k].Expiry?
  }

  // ---- The bijection ----------------------------------------------------------------------

  /** What a write can do to the timers. */
  lemma WriteTimers(w: World, e: Event, fate: Fate)
    requires e.Write? && Valid(w.rev)
    ensures var r := WriteResult(w, e, fate); var p, targets := ControlsWriter.PowerOf(e.off, e.regs), ControlsWriter.Targets(e.s, e.unit);
            || r.timers == w.rev
            || (p.Restore? && r.timers == Cancelled(w.rev, e.unit))
            || (p.CapTo? && p.rvrtTms.Some? && r.timers == Cancelled(w.rev, e.unit))
            || (p.CapTo? && p.rvrtTms.Some? && ControlsWriter.Reverts(p.rvrtTms.value) && targets != []
                && r.timers == Scheduled(w.rev, e.unit, p.rvrtTms.value * Tracker.SECOND, targets, w.now))
  {
  }

  ghost predicate Settled(st: State) {
    Bijective(st) && forall id :: 0 <= id < |st.pool| ==> st.pool[id].phase != Expired
  }

  lemma StepKeepsSettled(w: World, e: Event, fate: Fate)
    requires Enabled(w, e) && Settled(w.rev) && !e.Expiry?
    ensures Settled(Next(w, e, fate).rev)
  {
    match e
    case Write(_, unit, _, _) =>
      WriteTimers(w, e, fate);
      var p, targets := ControlsWriter.PowerOf(e.off, e.regs), ControlsWriter.Targets(e.s, e.unit);
      LockedOperationsKeepBijection(w.rev, unit,
        if p.CapTo? && p.rvrtTms.Some? then p.rvrtTms.value * Tracker.SECOND else 0, targets, w.now);
    case Lapse(id) => AtomicExpiryKeepsBijection(w.rev, id, w.now);
    case RestoreOne(id) => RestoreKeepsBijection(w.rev, id);
    case StopAll => LockedOperationsKeepBijection(w.rev, 0, 0, [], 0);
    case _ =>
  }

  /** In every state of an atomic run the map entries and the armed timers are in bijection. */
  lemma {:induction false} BijectionAlways(ws: seq<World>, es: seq<Event>, fate: Fate, k: nat)
    requires IsAtomicRun(ws, es, fate) && k <= |es|
    ensures Settled(ws[k].rev) && Valid(ws[k].rev)
    decreases k
  {
    if k > 0 {
      BijectionAlways(ws, es, fate, k - 1);
      StepKeepsSettled(ws[k - 1], es[k - 1], fate);
    }
  }

  lemma AtomicRunsExtend(ws: seq<World>, es: seq<Event>, fate: Fate, e: Event)
    requires IsAtomicRun(ws, es, fate) && Enabled(ws[|es|], e) && !e.Expiry?
    ensures Valid(ws[|es|].rev) && IsAtomicRun(ws + [Next(ws[|es|], e, fate)], es + [e], fate)
  {
    hide Next, Enabled, IsRun;
    RunsExtend(ws, es, fate, e);
  }

  // ---- What a step does to one inverter -----------------------------------------------------

  function Targets(e: Event): seq<string>
    requires e.Write?
  {
    ControlsWriter.Targets(e.s, e.unit)
  }

  function PowerOf(e: Event): ControlsWriter.Power
    requires e.Write?
  {
    ControlsWriter.PowerOf(e.off, e.regs)
  }

  /** A write that caps or restores an inverter. */
  predicate Rules(e: Event, x: string) {
    e.Write? && x in Targets(e) && !PowerOf(e).Keep?
  }

  /** A write on unit u that caps x with a reversion time, all its caps being taken. */
  ghost predicate Refreshes(w: World, e: Event, fate: Fate, u: u8, x: string): (r: bool)
    requires Valid(w.rev)
    ensures r ==> e.Write? && e.unit == u && Rules(e, x) && PowerOf(e).CapTo? && PowerOf(e).rvrtTms.Some? && Window(e) > 1
  {
    && e.Write? && e.unit == u && x in Targets(e)
    && PowerOf(e).CapTo? && PowerOf(e).rvrtTms.Some? && ControlsWriter.Reverts(PowerOf(e).rvrtTms.value)
    && ControlsWriter.PowerResult(PowerOf(e), u, Targets(e), fate, w.db, w.rev, w.now).ok
  }

  function Window(e: Event): int
    requires e.Write? && PowerOf(e).CapTo? && PowerOf(e).rvrtTms.Some?
  {
    PowerOf(e).rvrtTms.value * Tracker.SECOND
  }

  lemma RefreshArms(w: World, e: Event, fate: Fate, u: u8, x: string)
    requires Valid(w.rev) && Refreshes(w, e, fate, u, x)
    ensures Next(w, e, fate).rev == Scheduled(w.rev, u, Window(e), Targets(e), w.now)
  {
  }

  /** The caps after a write, whether or not some statement failed. */
  lemma WritePower(w: World, e: Event, fate: Fate, x: string)
    requires e.Write? && Valid(w.rev) && x in w.db.power
    ensures var r := WriteResult(w, e, fate);
            && x in r.db.power
            && (r.db.power[x] == w.db.power[x] || (Rules(e, x) && r.db.power[x] == Cap(ControlsWriter.Watts(PowerOf(e)), true)))
            && (Rules(e, x) && ControlsWriter.PowerResult(PowerOf(e), e.unit, Targets(e), fate, w.db, w.rev, w.now).ok ==>
                  r.db.power[x] == Cap(ControlsWriter.Watts(PowerOf(e)), true))
  {
    var p, targets := PowerOf(e), Targets(e);
    if !p.Keep? {
      CapsTakeEffect(w.db, fate, targets, ControlsWriter.Watts(p));
    }
    var r := ControlsWriter.PowerResult(p, e.unit, targets, fate, w.db, w.rev, w.now);
    match ControlsWriter.Written(e.off, e.regs, ControlsWriter.Controls.CONN)
    case Some(conn) => SwitchesTakeEffect(r.db, fate, targets, conn != 0);
    case None =>
  }

  /** The timers after a schedule in a settled state: the unit's old timer is out. */
  lemma ScheduledPool(st: State, unit: u8, after: int, targets: seq<string>, now: int, id: nat)
    requires Settled(st)
    ensures var n := Scheduled(st, unit, after, targets, now);
            id < |n.pool| ==>
              && (n.pool[id].phase == Armed ==>
                    || (id < |st.pool| && n.pool[id] == st.pool[id] && n.pool[id].unit != unit)
                    || n.pool[id] == Timer(unit, now, after, targets, Armed))
              && (n.pool[id].phase.Firing? ==> id < |st.pool| && n.pool[id] == st.pool[id])
  {
    assert !Orphan(st, id);
  }

  // ---- A refreshed cap is never lifted ---------------------------------------------------------

  /** A timer that cannot restore x before `due`, unless its unit is handled. */
  predicate Harmless(t: Timer, u: u8, x: string, due: int) {
    match t.phase
    case Armed => x in t.targets ==> t.unit == u && Due(t) >= due
    case Firing(n) => n <= |t.targets| ==> x !in t.targets[n..]
    case _ => true
  }

  ghost predicate NoThreat(st: State, u: u8, x: string, due: int) {
    Settled(st) && forall id :: 0 <= id < |st.pool| ==> Harmless(st.pool[id], u, x, due)
  }

  /** No timer of another unit covers x and no fire in flight still has to restore it. */
  ghost predicate Quiet(st: State, u: u8, x: string) {
    forall id :: 0 <= id < |st.pool| ==>
      match st.pool[id].phase
      case Armed => x in st.pool[id].targets ==> st.pool[id].unit == u
      case Firing(n) => n <= |st.pool[id].targets| ==> x !in st.pool[id].targets[n..]
      case _ => true
  }

  /** Writes that concern x cap it, and only unit u does so with a reversion time. */
  predicate KeepsCapped(e: Event, u: u8, x: string) {
    Rules(e, x) ==> PowerOf(e).CapTo? && (PowerOf(e).rvrtTms.Some? && ControlsWriter.Reverts(PowerOf(e).rvrtTms.value) ==> e.unit == u)
  }

  predicate Lifts(w: World, e: Event, x: string) {
    e.RestoreOne? && CanRestore(w.rev, e.id) && RestoreRow(w.rev.pool[e.id]).uid == x
  }

  lemma RefreshClears(w: World, e: Event, fate: Fate, u: u8, x: string)
    requires Settled(w.rev) && Quiet(w.rev, u, x) && Refreshes(w, e, fate, u, x)
    ensures NoThreat(Next(w, e, fate).rev, u, x, w.now + Window(e))
  {
    RefreshArms(w, e, fate, u, x);
    StepKeepsSettled(w, e, fate);
    var n := Next(w, e, fate).rev;
    forall id | 0 <= id < |n.pool|
      ensures Harmless(n.pool[id], u, x, w.now + Window(e))
    {
      ScheduledPool(w.rev, u, Window(e), Targets(e), w.now, id);
    }
  }

  lemma NoThreatIsQuiet(st: State, u: u8, x: string, due: int)
    requires NoThreat(st, u, x, due)
    ensures Settled(st) && Quiet(st, u, x)
  {
    forall id | 0 <= id < |st.pool|
      ensures Harmless(st.pool[id], u, x, due)
    {
    }
  }

  lemma RefreshLiftsNothing(w: World, e: Event, fate: Fate, u: u8, x: string)
    requires Valid(w.rev) && Refreshes(w, e, fate, u, x)
    ensures !Lifts(w, e, x)
  {
  }

  lemma StepKeepsAway(w: World, e: Event, fate: Fate, u: u8, x: string, due: int)
    requires Enabled(w, e) && NoThreat(w.rev, u, x, due) && w.now < due && KeepsCapped(e, u, x) && !e.Expiry?
    requires !Refreshes(w, e, fate, u, x)
    ensures NoThreat(Next(w, e, fate).rev, u, x, due) && !Lifts(w, e, x)
  {
    StepKeepsSettled(w, e, fate);
    var n := Next(w, e, fate).rev;
    if e.RestoreOne? {
      assert Harmless(w.rev.pool[e.id], u, x, due);
    }
    forall id | 0 <= id < |n.pool|
      ensures Harmless(n.pool[id], u, x, due)
    {
      assert id < |w.rev.pool| ==> Harmless(w.rev.pool[id], u, x, due);
      if e.Write? {
        WriteTimers(w, e, fate);
        if PowerOf(e).CapTo? && PowerOf(e).rvrtTms.Some? && n != w.rev {
          ScheduledPool(w.rev, e.unit, Window(e), Targets(e), w.now, id);
        }
      }
    }
  }

  /** When the cap last refreshed runs out. */
  ghost function Lapses(ws: seq<World>, es: seq<Event>, fate: Fate, u: u8, x: string, i: nat, k: nat): int
    requires IsAtomicRun(ws, es, fate) && i < k <= |es| && Refreshes(ws[i], es[i], fate, u, x)
    decreases k
  {
    if Refreshes(ws[k - 1], es[k - 1], fate, u, x) then ws[k - 1].now + Window(es[k - 1])
    else Lapses(ws, es, fate, u, x, i, k - 1)
  }

  /** From step i on, x is kept capped through unit u and refreshed before each lapse. */
  ghost predicate Fed(ws: seq<World>, es: seq<Event>, fate: Fate, u: u8, x: string, i: nat): (r: bool)
    ensures r ==> IsAtomicRun(ws, es, fate) && i < |es| && Valid(ws[i].rev) && Refreshes(ws[i], es[i], fate, u, x)
  {
    && IsAtomicRun(ws, es, fate) && i < |es| && Refreshes(ws[i], es[i], fate, u, x)
    && forall k :: i < k < |es| ==> KeepsCapped(es[k], u, x) && ws[k].now < Lapses(ws, es, fate, u, x, i, k)
  }

  lemma {:induction false} FedStaysAway(ws: seq<World>, es: seq<Event>, fate: Fate, u: u8, x: string, i: nat, j: nat)
    requires Fed(ws, es, fate, u, x, i) && Quiet(ws[i].rev, u, x) && i < j <= |es|
    ensures NoThreat(ws[j].rev, u, x, Lapses(ws, es, fate, u, x, i, j)) && !Lifts(ws[j - 1], es[j - 1], x)
    decreases j
  {
    hide Refreshes, Next, NoThreat, Quiet, KeepsCapped, Lifts, Window, Settled, Rules, PowerOf, Enabled;
    var k := j - 1;
    if k == i {
      BijectionAlways(ws, es, fate, i);
      RefreshLiftsNothing(ws[i], es[i], fate, u, x);
      RefreshClears(ws[i], es[i], fate, u, x);
    } else {
      FedStaysAway(ws, es, fate, u, x, i, k);
      var due := Lapses(ws, es, fate, u, x, i, k);
      if Refreshes(ws[k], es[k], fate, u, x) {
        NoThreatIsQuiet(ws[k].rev, u, x, due);
        RefreshLiftsNothing(ws[k], es[k], fate, u, x);
        RefreshClears(ws[k], es[k], fate, u, x);
      } else {
        StepKeepsAway(ws[k], es[k], fate, u, x, due);
      }
    }
  }

  lemma StepBound(w: World, e: Event, fate: Fate, u: u8, x: string, bound: int)
    requires Enabled(w, e) && Valid(w.rev) && !Lifts(w, e, x) && x in w.db.power
    requires Rules(e, x) ==> ControlsWriter.Watts(PowerOf(e)) <= bound
    requires Refreshes(w, e, fate, u, x) || w.db.power[x].watts <= bound
    ensures x in Next(w, e, fate).db.power && Next(w, e, fate).db.power[x].watts <= bound
  {
    if e.Write? {
      WritePower(w, e, fate, x);
    }
  }

  /** A cap refreshed in time is never lifted: however the run interleaves, the inverter's
      limit stays at or below the largest limit written for it. */
  lemma {:induction false} NeverLifted(ws: seq<World>, es: seq<Event>, fate: Fate, u: u8, x: string, i: nat, j: nat, bound: int)
    requires Fed(ws, es, fate, u, x, i) && Quiet(ws[i].rev, u, x) && i < j <= |es|
    requires forall k :: i <= k < j && Rules(es[k], x) ==> ControlsWriter.Watts(PowerOf(es[k])) <= bound
    requires x in ws[i].db.power
    ensures x in ws[j].db.power && ws[j].db.power[x].watts <= bound
    decreases j
  {
    var k := j - 1;
    hide Refreshes, Next, Quiet, KeepsCapped, Lifts, Rules, PowerOf, Enabled, Lapses;
    if k > i {
      NeverLifted(ws, es, fate, u, x, i, k, bound);
    }
    FedStaysAway(ws, es, fate, u, x, i, j);
    StepBound(ws[k], es[k], fate, u, x, bound);
  }

  // ---- ... and when it can be -------------------------------------------------------------------

  lemma {:induction false} LapsesOfPrefix(ws: seq<World>, es: seq<Event>, w: World, e: Event, fate: Fate, u: u8, x: string, i: nat, k: nat)
    requires IsAtomicRun(ws, es, fate) && IsAtomicRun(ws + [w], es + [e], fate) && i < k <= |es| && Refreshes(ws[i], es[i], fate, u, x)
    ensures Lapses(ws + [w], es + [e], fate, u, x, i, k) == Lapses(ws, es, fate, u, x, i, k)
    decreases k
  {
    assert (ws + [w])[k - 1] == ws[k - 1] && (es + [e])[k - 1] == es[k - 1];
    if !Refreshes(ws[k - 1], es[k - 1], fate, u, x) {
      LapsesOfPrefix(ws, es, w, e, fate, u, x, i, k - 1);
    }
  }

  lemma LapsesExtend(ws: seq<World>, es: seq<Event>, fate: Fate, u: u8, x: string, i: nat, w: World, e: Event)
    requires IsAtomicRun(ws, es, fate) && IsAtomicRun(ws + [w], es + [e], fate) && i < |es| && Valid(ws[i].rev)
    requires Refreshes(ws[i], es[i], fate, u, x)
    ensures Valid(ws[|es|].rev) && forall k :: i < k <= |es| ==> Lapses(ws + [w], es + [e], fate, u, x, i, k) == Lapses(ws, es, fate, u, x, i, k)
    ensures !Refreshes(ws[|es|], e, fate, u, x) ==>
      Lapses(ws + [w], es + [e], fate, u, x, i, |es| + 1) == Lapses(ws, es, fate, u, x, i, |es|)
  {
    BijectionAlways(ws, es, fate, |es|);
    hide Refreshes, Next, Enabled, Valid, Settled, Window;
    forall k | i < k <= |es|
      ensures Lapses(ws + [w], es + [e], fate, u, x, i, k) == Lapses(ws, es, fate, u, x, i, k)
    {
      LapsesOfPrefix(ws, es, w, e, fate, u, x, i, k);
    }
  }

  lemma FedExtends(ws: seq<World>, es: seq<Event>, fate: Fate, u: u8, x: string, i: nat, e: Event)
    requires Fed(ws, es, fate, u, x, i) && Enabled(ws[|es|], e) && !e.Expiry?
    requires KeepsCapped(e, u, x) && ws[|es|].now < Lapses(ws, es, fate, u, x, i, |es|)
    ensures Valid(ws[|es|].rev) && Fed(ws + [Next(ws[|es|], e, fate)], es + [e], fate, u, x, i)
    ensures !Refreshes(ws[|es|], e, fate, u, x) ==>
      Lapses(ws + [Next(ws[|es|], e, fate)], es + [e], fate, u, x, i, |es| + 1) == Lapses(ws, es, fate, u, x, i, |es|)
  {
    hide Refreshes, Next, KeepsCapped, Enabled, Valid, IsAtomicRun, Lapses;
    AtomicRunsExtend(ws, es, fate, e);
    LapsesExtend(ws, es, fate, u, x, i, Next(ws[|es|], e, fate), e);
  }

  /** An armed timer of another unit that covers x, or a fire that still has to restore x. */
  predicate Threatens(t: Timer, u: u8, x: string) {
    || (t.phase == Armed && x in t.targets && t.unit != u)
    || (t.phase.Firing? && t.phase.next <= |t.targets| && x in t.targets[t.phase.next..])
  }

  /** A fire in flight goes on to restore x. */
  lemma {:induction false} FireGoesOn(ws: seq<World>, es: seq<Event>, fate: Fate, u: u8, x: string, i: nat, id: nat)
    returns (ws': seq<World>, es': seq<Event>)
    requires Fed(ws, es, fate, u, x, i) && ws[|es|].now < Lapses(ws, es, fate, u, x, i, |es|)
    requires id < |ws[|es|].rev.pool|
    requires var t := ws[|es|].rev.pool[id]; t.phase.Firing? && t.phase.next < |t.targets| && x in t.targets[t.phase.next..]
    ensures Fed(ws', es', fate, u, x, i) && ws <= ws' && es < es' && Lifts(ws'[|es'| - 1], es'[|es'| - 1], x)
    decreases |ws[|es|].rev.pool[id].targets| - ws[|es|].rev.pool[id].phase.next
  {
    hide Refreshes, Lapses;
    var w, e := ws[|es|], RestoreOne(id);
    var t := w.rev.pool[id];
    FedExtends(ws, es, fate, u, x, i, e);
    ws', es' := ws + [Next(w, e, fate)], es + [e];
    if t.targets[t.phase.next] != x {
      NotARefresh(w, e, fate, u, x);
      assert t.targets[t.phase.next..][1..] == t.targets[t.phase.next + 1..];
      ws', es' := FireGoesOn(ws', es', fate, u, x, i, id);
    }
  }

  lemma NotARefresh(w: World, e: Event, fate: Fate, u: u8, x: string)
    requires Valid(w.rev) && !e.Write?
    ensures !Refreshes(w, e, fate, u, x)
  {
  }

  /** From now on every statement succeeds. */
  ghost predicate Reliable(fate: Fate, db: Db) {
    forall k: nat :: k >= db.attempts ==> fate(k)
  }

  lemma {:induction false} BatchAttempts(db: Db, fate: Fate, rows: seq<Row>)
    ensures AttemptAll(db, fate, rows).0.attempts >= db.attempts
    decreases |rows|
  {
    if rows != [] {
      var (d, ok) := Attempt(db, fate, rows[0]);
      BatchAttempts(d, fate, rows[1..]);
    }
  }

  lemma AttemptsGrow(w: World, e: Event, fate: Fate)
    requires Enabled(w, e) && Valid(w.rev)
    ensures Next(w, e, fate).db.attempts >= w.db.attempts
  {
    if e.Write? {
      var p, targets := PowerOf(e), Targets(e);
      if !p.Keep? {
        BatchAttempts(w.db, fate, CapRows(targets, ControlsWriter.Watts(p)));
      }
      var r := ControlsWriter.PowerResult(p, e.unit, targets, fate, w.db, w.rev, w.now);
      match ControlsWriter.Written(e.off, e.regs, ControlsWriter.Controls.CONN)
      case Some(conn) => BatchAttempts(r.db, fate, SwitchRows(targets, conn != 0));
      case None =>
    }
  }

  /** A refresh, repeated in any state, is a refresh again and leaves other units' timers
      alone. */
  lemma RefreshRepeats(w: World, w': World, e: Event, fate: Fate, u: u8, x: string, id: nat)
    requires Settled(w.rev) && Settled(w'.rev) && Refreshes(w, e, fate, u, x) && Reliable(fate, w'.db)
    requires id < |w'.rev.pool| && w'.rev.pool[id].phase == Armed && w'.rev.pool[id].unit != u
    ensures Refreshes(w', e, fate, u, x) && Window(e) >= Tracker.SECOND
    ensures Next(w', e, fate).now == w'.now && Reliable(fate, Next(w', e, fate).db)
    ensures id < |Next(w', e, fate).rev.pool| && Next(w', e, fate).rev.pool[id] == w'.rev.pool[id]
  {
    ControlsWriter.BatchSucceeds(w'.db, fate, CapRows(Targets(e), ControlsWriter.Watts(PowerOf(e))));
    assert Refreshes(w', e, fate, u, x);
    AttemptsGrow(w', e, fate);
    RefreshArms(w', e, fate, u, x);
  }

  lemma TimePasses(ws: seq<World>, es: seq<Event>, fate: Fate, u: u8, x: string, i: nat, e: Event)
    requires Fed(ws, es, fate, u, x, i) && ws[|es|].now < Lapses(ws, es, fate, u, x, i, |es|)
    requires Enabled(ws[|es|], e) && !e.Write? && !e.Expiry?
    ensures Valid(ws[|es|].rev) && Fed(ws + [Next(ws[|es|], e, fate)], es + [e], fate, u, x, i)
    ensures Lapses(ws + [Next(ws[|es|], e, fate)], es + [e], fate, u, x, i, |es| + 1) == Lapses(ws, es, fate, u, x, i, |es|)
  {
    FedExtends(ws, es, fate, u, x, i, e);
  }

  lemma RefreshAgain(ws: seq<World>, es: seq<Event>, fate: Fate, u: u8, x: string, i: nat)
    requires Fed(ws, es, fate, u, x, i) && ws[|es|].now < Lapses(ws, es, fate, u, x, i, |es|)
    requires Valid(ws[|es|].rev) && Refreshes(ws[|es|], es[i], fate, u, x)
    ensures Fed(ws + [Next(ws[|es|], es[i], fate)], es + [es[i]], fate, u, x, i)
    ensures Lapses(ws + [Next(ws[|es|], es[i], fate)], es + [es[i]], fate, u, x, i, |es| + 1) == ws[|es|].now + Window(es[i])
  {
    FedExtends(ws, es, fate, u, x, i, es[i]);
  }

  /** A timer of another unit that is due before the next lapse expires and fires. */
  lemma LetItFire(ws: seq<World>, es: seq<Event>, fate: Fate, u: u8, x: string, i: nat, id: nat, left: nat)
    returns (ws': seq<World>, es': seq<Event>)
    requires Fed(ws, es, fate, u, x, i) && ws[|es|].now + left < Lapses(ws, es, fate, u, x, i, |es|)
    requires id < |ws[|es|].rev.pool| && Due(ws[|es|].rev.pool[id]) <= ws[|es|].now + left
    requires var t := ws[|es|].rev.pool[id]; t.phase == Armed && x in t.targets
    ensures Fed(ws', es', fate, u, x, i) && ws <= ws' && es < es' && Lifts(ws'[|es'| - 1], es'[|es'| - 1], x)
  {
    hide Refreshes, Lapses, KeepsCapped, IsAtomicRun;
    TimePasses(ws, es, fate, u, x, i, Tick(left));
    var ws1, es1 := ws + [Next(ws[|es|], Tick(left), fate)], es + [Tick(left)];
    TimePasses(ws1, es1, fate, u, x, i, Lapse(id));
    var ws2, es2 := ws1 + [Next(ws1[|es1|], Lapse(id), fate)], es1 + [Lapse(id)];
    assert ws2[|es2|].rev.pool[id].phase == Firing(0);
    ws', es' := FireGoesOn(ws2, es2, fate, u, x, i, id);
  }

  /** Just before the lapse the same refresh comes again; other units' timers run on. */
  lemma OneRound(ws: seq<World>, es: seq<Event>, fate: Fate, u: u8, x: string, i: nat, id: nat)
    returns (ws': seq<World>, es': seq<Event>)
    requires Fed(ws, es, fate, u, x, i) && Reliable(fate, ws[|es|].db)
    requires Lapses(ws, es, fate, u, x, i, |es|) == ws[|es|].now + Window(es[i])
    requires id < |ws[|es|].rev.pool| && ws[|es|].rev.pool[id].phase == Armed && ws[|es|].rev.pool[id].unit != u
    ensures Fed(ws', es', fate, u, x, i) && ws <= ws' && es < es' && es'[i] == es[i] && Reliable(fate, ws'[|es'|].db)
    ensures ws'[|es'|].now == ws[|es|].now + Window(es[i]) - 1 > ws[|es|].now
    ensures id < |ws'[|es'|].rev.pool| && ws'[|es'|].rev.pool[id] == ws[|es|].rev.pool[id]
    ensures Lapses(ws', es', fate, u, x, i, |es'|) == ws'[|es'|].now + Window(es[i])
  {
    hide *;
    BijectionAlways(ws, es, fate, i);
    BijectionAlways(ws, es, fate, |es|);
    var e := Tick(Window(es[i]) - 1);
    var w := Ticked(ws[|es|], e, fate);
    TimePasses(ws, es, fate, u, x, i, e);
    RefreshRepeats(ws[i], w, es[i], fate, u, x, id);
    ws', es' := ComeAgain(ws + [w], es + [e], fate, u, x, i);
  }

  lemma Ticked(w: World, e: Event, fate: Fate) returns (w': World)
    requires e.Tick? && Valid(w.rev)
    ensures Enabled(w, e) && w' == Next(w, e, fate) == w.(now := w.now + e.dt)
  {
    w' := Next(w, e, fate);
  }

  lemma ComeAgain(ws: seq<World>, es: seq<Event>, fate: Fate, u: u8, x: string, i: nat)
    returns (ws': seq<World>, es': seq<Event>)
    requires Fed(ws, es, fate, u, x, i) && ws[|es|].now < Lapses(ws, es, fate, u, x, i, |es|)
    requires Valid(ws[|es|].rev) && Refreshes(ws[|es|], es[i], fate, u, x)
    ensures ws' == ws + [Next(ws[|es|], es[i], fate)] && es' == es + [es[i]] && Fed(ws', es', fate, u, x, i)
    ensures Lapses(ws', es', fate, u, x, i, |es'|) == ws[|es|].now + Window(es[i])
  {
    hide Refreshes, Lapses, Window, KeepsCapped, Next;
    RefreshAgain(ws, es, fate, u, x, i);
    ws', es' := ws + [Next(ws[|es|], es[i], fate)], es + [es[i]];
  }

  /** Refreshing as often as it takes, another unit's timer is waited for; then it fires. */
  lemma {:induction false} WaitForTimer(ws: seq<World>, es: seq<Event>, fate: Fate, u: u8, x: string, i: nat, id: nat)
    returns (ws': seq<World>, es': seq<Event>)
    requires Fed(ws, es, fate, u, x, i) && Reliable(fate, ws[|es|].db)
    requires Lapses(ws, es, fate, u, x, i, |es|) == ws[|es|].now + Window(es[i])
    requires id < |ws[|es|].rev.pool|
    requires var t := ws[|es|].rev.pool[id]; t.phase == Armed && t.unit != u && x in t.targets
    ensures Fed(ws', es', fate, u, x, i) && ws <= ws' && es < es' && Lifts(ws'[|es'| - 1], es'[|es'| - 1], x)
    decreases Max(0, Due(ws[|es|].rev.pool[id]) - ws[|es|].now)
  {
    hide Refreshes, Lapses, Window, KeepsCapped, Next;
    var left := Max(0, Due(ws[|es|].rev.pool[id]) - ws[|es|].now);
    if left < Window(es[i]) {
      ws', es' := LetItFire(ws, es, fate, u, x, i, id, left);
    } else {
      ws', es' := OneRound(ws, es, fate, u, x, i, id);
      ws', es' := WaitForTimer(ws', es', fate, u, x, i, id);
    }
  }

  /** Fed continuations of a run by a refresh. */
  ghost predicate Continues(ws: seq<World>, es: seq<Event>, e: Event, ws': seq<World>, es': seq<Event>, fate: Fate, u: u8, x: string)
    requires |ws| == |es| + 1
  {
    Fed(ws', es', fate, u, x, |es|) && ws <= ws' && es < es' && es'[|es|] == e
  }

  /** If every statement succeeds from the refresh on: a refreshed cap is safe in every
      continuation exactly when, at the refresh, no timer
      of another unit covers the inverter and no fire in flight still has to restore it. */
  lemma NeverLiftedExactlyWhenQuiet(ws: seq<World>, es: seq<Event>, fate: Fate, u: u8, x: string, e: Event)
    requires IsAtomicRun(ws, es, fate) && Reliable(fate, ws[|es|].db)
    requires Valid(ws[|es|].rev) && Refreshes(ws[|es|], e, fate, u, x)
    ensures Quiet(ws[|es|].rev, u, x) <==>
      forall ws', es' :: Continues(ws, es, e, ws', es', fate, u, x) ==> !Lifts(ws'[|es'| - 1], es'[|es'| - 1], x)
  {
    hide Refreshes, Fed, Lapses, Next, IsAtomicRun, Valid, Window, Lifts;
    if Quiet(ws[|es|].rev, u, x) {
      forall ws', es' | Continues(ws, es, e, ws', es', fate, u, x)
        ensures !Lifts(ws'[|es'| - 1], es'[|es'| - 1], x)
      {
        assert ws'[|es|] == ws[|es|];
        FedStaysAway(ws', es', fate, u, x, |es|, |es'|);
      }
    } else {
      var ws', es' := ThreatIsCarriedOut(ws, es, fate, u, x, e);
      assert Continues(ws, es, e, ws', es', fate, u, x);
    }
  }

  lemma ThreatIsCarriedOut(ws: seq<World>, es: seq<Event>, fate: Fate, u: u8, x: string, e: Event)
    returns (ws': seq<World>, es': seq<Event>)
    requires IsAtomicRun(ws, es, fate) && Reliable(fate, ws[|es|].db)
    requires Valid(ws[|es|].rev) && Refreshes(ws[|es|], e, fate, u, x) && !Quiet(ws[|es|].rev, u, x)
    ensures Continues(ws, es, e, ws', es', fate, u, x) && Lifts(ws'[|es'| - 1], es'[|es'| - 1], x)
  {
    hide Refreshes, Fed, Lapses, Next, IsAtomicRun, Window, Settled;
    var id :| 0 <= id < |ws[|es|].rev.pool| && Threatens(ws[|es|].rev.pool[id], u, x);
    BijectionAlways(ws, es, fate, |es|);
    ThreatSurvives(ws[|es|], e, fate, u, x, id);
    AttemptsGrow(ws[|es|], e, fate);
    RefreshFeeds(ws, es, fate, u, x, e);
    ws', es' := CarryOut(ws + [Next(ws[|es|], e, fate)], es + [e], fate, u, x, |es|, id);
  }

  lemma CarryOut(ws: seq<World>, es: seq<Event>, fate: Fate, u: u8, x: string, i: nat, id: nat)
    returns (ws': seq<World>, es': seq<Event>)
    requires Fed(ws, es, fate, u, x, i) && Reliable(fate, ws[|es|].db)
    requires Lapses(ws, es, fate, u, x, i, |es|) == ws[|es|].now + Window(es[i])
    requires id < |ws[|es|].rev.pool| && Threatens(ws[|es|].rev.pool[id], u, x)
    ensures Fed(ws', es', fate, u, x, i) && ws <= ws' && es < es' && Lifts(ws'[|es'| - 1], es'[|es'| - 1], x)
  {
    hide Refreshes, Lapses, Fed, IsAtomicRun, Window;
    if ws[|es|].rev.pool[id].phase == Armed {
      ws', es' := WaitForTimer(ws, es, fate, u, x, i, id);
    } else {
      ws', es' := FireGoesOn(ws, es, fate, u, x, i, id);
    }
  }

  lemma ThreatSurvives(w: World, e: Event, fate: Fate, u: u8, x: string, id: nat)
    requires Settled(w.rev) && Refreshes(w, e, fate, u, x) && id < |w.rev.pool| && Threatens(w.rev.pool[id], u, x)
    ensures id < |Next(w, e, fate).rev.pool| && Next(w, e, fate).rev.pool[id] == w.rev.pool[id]
  {
    RefreshArms(w, e, fate, u, x);
  }

  /** A refresh is a fed run of its own. */
  lemma RefreshFeeds(ws: seq<World>, es: seq<Event>, fate: Fate, u: u8, x: string, e: Event)
    requires IsAtomicRun(ws, es, fate) && Valid(ws[|es|].rev) && Refreshes(ws[|es|], e, fate, u, x)
    ensures Next(ws[|es|], e, fate).now == ws[|es|].now
    ensures Fed(ws + [Next(ws[|es|], e, fate)], es + [e], fate, u, x, |es|)
    ensures Lapses(ws + [Next(ws[|es|], e, fate)], es + [e], fate, u, x, |es|, |es| + 1) == ws[|es|].now + Window(e)
  {
    AtomicRunsExtend(ws, es, fate, e);
  }

  const HALF_FOR_TEN_SECONDS: seq<u16> := [50, 0, 10]

  const FLEET_OF_ONE := Snapshot(
    "", "", "", 0, 0, 0, 0, 0, 0, 0, 0.0, 0.0, 0, 1,
    [Inverter("A", true, "01", 0.0, 0, 0, 0, 0, 0, 0, 0, 0, [], EventBits({}, {}, {}, {}))], map[])

  /** A fleet cap with a reversion time, and then the same cap on the one inverter. */
  lemma FleetThenInverter(db: Db, fate: Fate) returns (ws: seq<World>, es: seq<Event>, e: Event)
    requires Reliable(fate, db)
    ensures es == [Write(FLEET_OF_ONE, 1, 3, HALF_FOR_TEN_SECONDS)] && e == Write(FLEET_OF_ONE, 2, 3, HALF_FOR_TEN_SECONDS)
    ensures IsAtomicRun(ws, es, fate) && Valid(ws[1].rev) && Reliable(fate, ws[1].db)
    ensures Refreshes(ws[1], e, fate, 2, "A") && !Quiet(ws[1].rev, 2, "A")
  {
    var fleet := Write(FLEET_OF_ONE, 1, 3, HALF_FOR_TEN_SECONDS);
    e := Write(FLEET_OF_ONE, 2, 3, HALF_FOR_TEN_SECONDS);
    assert PowerOf(fleet) == PowerOf(e) == ControlsWriter.CapTo(50, Some(10));
    assert Targets(fleet) == Targets(e) == ["A"];
    var w0 := World(0, db, EMPTY);
    CapSucceeds(w0.db, fate, ["A"], 50);
    assert Refreshes(w0, fleet, fate, 1, "A");
    var w1 := Next(w0, fleet, fate);
    RefreshArms(w0, fleet, fate, 1, "A");
    assert w1.rev == State(map[1 := 0], [Timer(1, 0, 10 * Tracker.SECOND, ["A"], Armed)]);
    AttemptsGrow(w0, fleet, fate);
    CapSucceeds(w1.db, fate, ["A"], 50);
    ws, es := [w0, w1], [fleet];
  }

  lemma CapSucceeds(db: Db, fate: Fate, uids: seq<string>, pct: u16)
    requires Reliable(fate, db)
    ensures AttemptAll(db, fate, CapRows(uids, ControlsWriter.Controls.CapWatts(pct))).1
  {
    ControlsWriter.BatchSucceeds(db, fate, CapRows(uids, ControlsWriter.Controls.CapWatts(pct)));
  }

  /** A run in which a cap that is always refreshed in time is lifted: the inverter was
      capped through the fleet before, and that timer still covers it. */
  lemma FleetTimerLiftsRefreshedCap(db: Db, fate: Fate) returns (ws: seq<World>, es: seq<Event>)
    requires Reliable(fate, db)
    ensures Fed(ws, es, fate, 2, "A", 1) && |es| > 2
    ensures es[0] == Write(FLEET_OF_ONE, 1, 3, HALF_FOR_TEN_SECONDS) && es[1] == Write(FLEET_OF_ONE, 2, 3, HALF_FOR_TEN_SECONDS)
    ensures Lifts(ws[|es| - 1], es[|es| - 1], "A")
  {
    var ws1, es1, e := FleetThenInverter(db, fate);
    hide Fed, Refreshes, Quiet, IsAtomicRun, Valid;
    ws, es := ThreatIsCarriedOut(ws1, es1, fate, 2, "A", e);
    assert es[0] == es1[0];
  }

  // ---- An unrefreshed cap ends at full power --------------------------------------------------

  /** A write that may touch the timer of a unit. */
  predicate HandlesTimer(e: Event, u: u8) {
    e.Write? && e.unit == u && (PowerOf(e).Restore? || (PowerOf(e).CapTo? && PowerOf(e).rvrtTms.Some?))
  }

  /** Between steps i and j nothing writes a limit for x, touches unit u's timer or shuts
      the timers down. */
  ghost predicate LeftAlone(es: seq<Event>, u: u8, x: string, i: nat, j: nat)
    requires j <= |es|
  {
    forall k :: i < k < j ==> !Rules(es[k], x) && !HandlesTimer(es[k], u) && !es[k].StopAll?
  }

  /** Some restore of x between steps i and j was taken by the database. */
  ghost predicate Restored(ws: seq<World>, es: seq<Event>, fate: Fate, x: string, i: nat, j: nat)
    requires j <= |es| < |ws|
  {
    exists k :: i < k < j && Lifts(ws[k], es[k], x) && fate(ws[k].db.attempts)
  }

  /** The timer made by step i restored x between steps i and j, taken or not. */
  ghost predicate Attempted(ws: seq<World>, es: seq<Event>, id: nat, x: string, i: nat, j: nat)
    requires j <= |es| < |ws|
  {
    exists k :: i < k < j && es[k] == RestoreOne(id) && Lifts(ws[k], es[k], x)
  }

  /** The timer t is on its way: armed, expired or firing, however expiry and `fire`
      interleave with the rest. */
  ghost predicate OnItsWay(w: World, t: Timer, id: nat) {
    && Valid(w.rev) && id < |w.rev.pool| && w.rev.pool[id].(phase := Armed) == t
    && w.rev.pool[id].phase != Stopped && (w.rev.pool[id].phase.Firing? ==> w.rev.pool[id].phase.next <= |t.targets|)
  }

  /** How many targets of the timer have had their restore. */
  function Done(p: Phase): nat {
    if p.Firing? then p.next else 0
  }

  lemma StepOnItsWay(w: World, e: Event, fate: Fate, t: Timer, id: nat)
    requires Enabled(w, e) && OnItsWay(w, t, id) && !HandlesTimer(e, t.unit) && !e.StopAll?
    ensures OnItsWay(Next(w, e, fate), t, id)
    ensures Done(Next(w, e, fate).rev.pool[id].phase)
         == Done(w.rev.pool[id].phase) + if e == RestoreOne(id) then 1 else 0
    ensures e == RestoreOne(id) ==> Done(w.rev.pool[id].phase) < |t.targets| && Lifts(w, e, t.targets[Done(w.rev.pool[id].phase)])
  {
    StepKeepsValid(w, e, fate);
    if e.Write? {
      WriteTimers(w, e, fate);
    }
  }

  /** The timer a refresh arms. */
  function ArmedBy(w: World, e: Event): Timer
    requires e.Write? && PowerOf(e).CapTo? && PowerOf(e).rvrtTms.Some?
  {
    Timer(e.unit, w.now, Window(e), Targets(e), Armed)
  }

  lemma RefreshStarts(w: World, e: Event, fate: Fate, u: u8, x: string)
    requires Valid(w.rev) && Refreshes(w, e, fate, u, x)
    ensures OnItsWay(Next(w, e, fate), ArmedBy(w, e), |w.rev.pool|) && Done(Next(w, e, fate).rev.pool[|w.rev.pool|].phase) == 0
  {
    StepKeepsValid(w, e, fate);
    RefreshArms(w, e, fate, u, x);
  }

  lemma {:induction false} StaysOnItsWay(ws: seq<World>, es: seq<Event>, fate: Fate, u: u8, x: string, i: nat, j: nat)
    requires IsRun(ws, es, fate) && i < j <= |es| && Valid(ws[i].rev) && Refreshes(ws[i], es[i], fate, u, x)
    requires LeftAlone(es, u, x, i, j)
    ensures OnItsWay(ws[j], ArmedBy(ws[i], es[i]), |ws[i].rev.pool|)
    decreases j
  {
    hide Refreshes, Next, Enabled, Rules, HandlesTimer, OnItsWay, Valid;
    if j == i + 1 {
      RefreshStarts(ws[i], es[i], fate, u, x);
    } else {
      StaysOnItsWay(ws, es, fate, u, x, i, j - 1);
      StepOnItsWay(ws[j - 1], es[j - 1], fate, ArmedBy(ws[i], es[i]), |ws[i].rev.pool|);
    }
  }

  /** Every target the timer has passed has had its restore. */
  lemma {:induction false} DoneMeansAttempted(ws: seq<World>, es: seq<Event>, fate: Fate, u: u8, x: string, i: nat, j: nat, n: nat)
    requires IsRun(ws, es, fate) && i < j <= |es| && Valid(ws[i].rev) && Refreshes(ws[i], es[i], fate, u, x)
    requires LeftAlone(es, u, x, i, j) && |ws[i].rev.pool| < |ws[j].rev.pool|
    requires n < Done(ws[j].rev.pool[|ws[i].rev.pool|].phase)
    ensures n < |Targets(es[i])| && Attempted(ws, es, |ws[i].rev.pool|, Targets(es[i])[n], i, j)
    decreases j
  {
    hide Refreshes, Next, Enabled, Rules, HandlesTimer, Valid, Lifts, Done;
    var id, t := |ws[i].rev.pool|, ArmedBy(ws[i], es[i]);
    RefreshStarts(ws[i], es[i], fate, u, x);
    if j > i + 1 {
      StaysOnItsWay(ws, es, fate, u, x, i, j - 1);
      StepOnItsWay(ws[j - 1], es[j - 1], fate, t, id);
      if n < Done(ws[j - 1].rev.pool[id].phase) {
        DoneMeansAttempted(ws, es, fate, u, x, i, j - 1, n);
      }
    }
  }

  lemma StepPower(w: World, e: Event, fate: Fate, x: string)
    requires Enabled(w, e) && Valid(w.rev) && !Rules(e, x) && x in w.db.power
    ensures x in Next(w, e, fate).db.power
    ensures Next(w, e, fate).db.power[x].watts
         == if Lifts(w, e, x) && fate(w.db.attempts) then MAX_PANEL_W else w.db.power[x].watts
  {
    if e.Write? {
      WritePower(w, e, fate, x);
    }
  }

  /** For every failure pattern: the limit of an inverter that is left alone is 500 W exactly
      from the first restore on that the database takes, and unchanged before. */
  lemma {:induction false} LimitUntilRestored(ws: seq<World>, es: seq<Event>, fate: Fate, u: u8, x: string, i: nat, j: nat)
    requires IsRun(ws, es, fate) && i < j <= |es| && LeftAlone(es, u, x, i, j) && x in ws[i + 1].db.power
    ensures x in ws[j].db.power
    ensures ws[j].db.power[x].watts == if Restored(ws, es, fate, x, i, j) then MAX_PANEL_W else ws[i + 1].db.power[x].watts
    decreases j
  {
    hide Next, Enabled, Rules, HandlesTimer, Valid, Lifts;
    if j > i + 1 {
      LimitUntilRestored(ws, es, fate, u, x, i, j - 1);
      StepPower(ws[j - 1], es[j - 1], fate, x);
    }
  }

  // ---- Rest --------------------------------------------------------------------------------------

  predicate Goroutine(e: Event) {
    e.Lapse? || e.Expiry? || e.Fire? || e.RestoreOne?
  }

  /** No timer goroutine has anything left to do. */
  ghost predicate AtRest(w: World) {
    forall e :: Goroutine(e) ==> !Enabled(w, e)
  }

  /** A cap that nobody refreshes ends at 500 W, in every interleaving and for every failure
      pattern: once the reversion time has passed and the goroutines are at rest, the
      refresh's own timer has restored every target, and the limit of a target is 500 W
      if and only if some restore of it was taken by the database, the written limit
      otherwise. */
  lemma UnrefreshedEndsAtFullPower(ws: seq<World>, es: seq<Event>, fate: Fate, u: u8, x: string, i: nat, j: nat)
    requires IsRun(ws, es, fate) && i < j <= |es| && Valid(ws[i].rev) && Refreshes(ws[i], es[i], fate, u, x)
    requires x in ws[i].db.power && LeftAlone(es, u, x, i, j)
    requires ws[j].now >= ws[i].now + Window(es[i]) && AtRest(ws[j])
    ensures Attempted(ws, es, |ws[i].rev.pool|, x, i, j) && x in ws[j].db.power
    ensures ws[j].db.power[x].watts
         == if Restored(ws, es, fate, x, i, j) then MAX_PANEL_W else ControlsWriter.Watts(PowerOf(es[i]))
  {
    var id, targets := |ws[i].rev.pool|, Targets(es[i]);
    StaysOnItsWay(ws, es, fate, u, x, i, j);
    RestMeansDone(ws[j], ArmedBy(ws[i], es[i]), id);
    RefreshCaps(ws[i], es[i], fate, u, x);
    hide Refreshes, Next, Enabled, Rules, HandlesTimer, OnItsWay, Valid, Restored, Attempted;
    LimitUntilRestored(ws, es, fate, u, x, i, j);
    var n :| 0 <= n < |targets| && targets[n] == x;
    DoneMeansAttempted(ws, es, fate, u, x, i, j, n);
  }

  lemma RestMeansDone(w: World, t: Timer, id: nat)
    requires OnItsWay(w, t, id) && AtRest(w) && w.now >= Due(t)
    ensures Done(w.rev.pool[id].phase) == |t.targets|
  {
    assert Goroutine(Expiry(id)) && Goroutine(Fire(id)) && Goroutine(RestoreOne(id));
    assert !Enabled(w, Expiry(id)) && !Enabled(w, Fire(id)) && !Enabled(w, RestoreOne(id));
  }

  lemma RefreshCaps(w: World, e: Event, fate: Fate, u: u8, x: string)
    requires Valid(w.rev) && Refreshes(w, e, fate, u, x) && x in w.db.power
    ensures x in Next(w, e, fate).db.power && Next(w, e, fate).db.power[x].watts == ControlsWriter.Watts(PowerOf(e))
    ensures x in Targets(e)
  {
    WritePower(w, e, fate, x);
  }

  /** The goroutine steps a timer may still take. */
  function Remaining(t: Timer): nat {
    match t.phase
    case Armed => 2 + |t.targets|
    case Stopped => 0
    case Expired => 1 + |t.targets|
    case Firing(n) => if n < |t.targets| then |t.targets| - n else 0
  }

  function Remainder(pool: seq<Timer>): nat {
    if pool == [] then 0 else Remainder(pool[..|pool| - 1]) + Remaining(pool[|pool| - 1])
  }

  lemma {:induction false} RemainderUpdate(pool: seq<Timer>, id: nat, t: Timer)
    requires id < |pool|
    ensures Remainder(pool[id := t]) == Remainder(pool) - Remaining(pool[id]) + Remaining(t)
  {
    hide Remaining;
    var n := |pool| - 1;
    if id == n {
      assert pool[id := t][..n] == pool[..n];
    } else {
      assert pool[id := t][..n] == pool[..n][id := t];
      RemainderUpdate(pool[..n], id, t);
    }
  }

  lemma GoroutineStepWorks(w: World, e: Event, fate: Fate)
    requires Enabled(w, e) && Valid(w.rev) && Goroutine(e)
    ensures Remainder(Next(w, e, fate).rev.pool) < Remainder(w.rev.pool) && Next(w, e, fate).now == w.now
  {
    RemainderUpdate(w.rev.pool, e.id, Next(w, e, fate).rev.pool[e.id]);
    hide Remainder;
    assert Next(w, e, fate).rev.pool == w.rev.pool[e.id := Next(w, e, fate).rev.pool[e.id]];
  }

  /** However they are scheduled, the goroutines come to rest: no more of their steps can
      follow each other than `Remainder` counts. */
  lemma {:induction false} GoroutinesAreFinite(ws: seq<World>, es: seq<Event>, fate: Fate, i: nat, j: nat)
    requires IsRun(ws, es, fate) && i <= j <= |es| && forall k :: i <= k < j ==> Goroutine(es[k])
    ensures j - i + Remainder(ws[j].rev.pool) <= Remainder(ws[i].rev.pool)
    decreases j
  {
    hide Next, Enabled, Goroutine, Valid, Remainder;
    if i < j {
      GoroutinesAreFinite(ws, es, fate, i, j - 1);
      GoroutineStepWorks(ws[j - 1], es[j - 1], fate);
    }
  }

  /** Every run can be continued by goroutine steps alone to a state at rest. */
  lemma {:induction false} ComesToRest(ws: seq<World>, es: seq<Event>, fate: Fate) returns (ws': seq<World>, es': seq<Event>)
    requires IsRun(ws, es, fate)
    ensures IsRun(ws', es', fate) && ws <= ws' && es <= es' && AtRest(ws'[|es'|]) && ws'[|es'|].now == ws[|es|].now
    ensures forall k :: |es| <= k < |es'| ==> Goroutine(es'[k])
    decreases Remainder(ws[|es|].rev.pool)
  {
    hide Next, Enabled, Goroutine, Valid, Remainder;
    ws', es' := ws, es;
    if !AtRest(ws[|es|]) {
      var e :| Goroutine(e) && Enabled(ws[|es|], e);
      RunsExtend(ws, es, fate, e);
      GoroutineStepWorks(ws[|es|], e, fate);
      ws', es' := ComesToRest(ws + [Next(ws[|es|], e, fate)], es + [e], fate);
    }
  }

  // ---- Seen as timer runs -----------------------------------------------------------------------

  function TimersOf(w: World): TimerRuns.World {
    TimerRuns.World(w.now, w.rev)
  }

  /** The one timer operation of a write; a tick of zero stands for none. */
  ghost function WriteTimerEvent(w: World, e: Event, fate: Fate): TimerRuns.Event
    requires e.Write? && Valid(w.rev)
  {
    var p, targets := PowerOf(e), Targets(e);
    if targets == [] then TimerRuns.Tick(0)
    else match p
      case Keep => TimerRuns.Tick(0)
      case Restore => TimerRuns.Cancel(e.unit)
      case CapTo(_, rvrtTms) =>
        if rvrtTms.None? || !ControlsWriter.PowerResult(p, e.unit, targets, fate, w.db, w.rev, w.now).ok then TimerRuns.Tick(0)
        else if ControlsWriter.Reverts(rvrtTms.value) then TimerRuns.Schedule(e.unit, rvrtTms.value * Tracker.SECOND, targets)
        else TimerRuns.Cancel(e.unit)
  }

  ghost function TimerEvent(w: World, e: Event, fate: Fate): TimerRuns.Event
    requires Valid(w.rev) && !e.Lapse?
  {
    match e
    case Write(_, _, _, _) => WriteTimerEvent(w, e, fate)
    case Tick(dt) => TimerRuns.Tick(dt)
    case Sent(_) => TimerRuns.Tick(0)
    case Queue(_) => TimerRuns.Tick(0)
    case Expiry(id) => TimerRuns.Expiry(id)
    case Fire(id) => TimerRuns.Fire(id)
    case RestoreOne(id) => TimerRuns.RestoreOne(id)
    case StopAll => TimerRuns.StopAll
  }

  /** Every step with separate expiry is exactly one event of the timers. */
  lemma StepIsOneTimerEvent(w: World, e: Event, fate: Fate)
    requires Enabled(w, e) && Valid(w.rev) && !e.Lapse?
    ensures TimerRuns.Enabled(TimersOf(w), TimerEvent(w, e, fate))
    ensures TimersOf(Next(w, e, fate)) == TimerRuns.Next(TimersOf(w), TimerEvent(w, e, fate))
  {
  }

  lemma LapseIsTwoTimerEvents(w: World, id: nat, fate: Fate)
    requires Enabled(w, Lapse(id)) && Valid(w.rev)
    ensures var mid := TimerRuns.Next(TimersOf(w), TimerRuns.Expiry(id));
            && Valid(mid.st) && TimerRuns.Enabled(mid, TimerRuns.Fire(id))
            && TimersOf(Next(w, Lapse(id), fate)) == TimerRuns.Next(mid, TimerRuns.Fire(id))
  {
    GoroutineKeepsValid(w.rev, id);
  }

  /** Every run is a run of the timers: the theorems of `TimerRuns` hold of it. */
  lemma {:induction false} RunsAreTimerRuns(ws: seq<World>, es: seq<Event>, fate: Fate, k: nat)
    returns (ts: seq<TimerRuns.World>, tes: seq<TimerRuns.Event>)
    requires IsRun(ws, es, fate) && k <= |es|
    ensures TimerRuns.IsRun(ts, tes) && ts[|tes|] == TimersOf(ws[k])
    ensures (forall i :: 0 <= i < k ==> !es[i].Lapse?) ==>
      && |tes| == k && (forall i :: 0 <= i <= k ==> ts[i] == TimersOf(ws[i]))
      && forall i :: 0 <= i < k ==> Valid(ws[i].rev) && tes[i] == TimerEvent(ws[i], es[i], fate)
    decreases k
  {
    hide Next, Enabled, TimerRuns.Next, TimerRuns.Enabled, Valid;
    if k == 0 {
      ts, tes := [TimersOf(ws[0])], [];
    } else {
      var w, e := ws[k - 1], es[k - 1];
      ts, tes := RunsAreTimerRuns(ws, es, fate, k - 1);
      if e.Lapse? {
        LapseIsTwoTimerEvents(w, e.id, fate);
        LapseEnabled(w, e.id);
        var mid := TimerRuns.Next(TimersOf(w), TimerRuns.Expiry(e.id));
        TimerRuns.RunsExtend(ts, tes, TimerRuns.Expiry(e.id));
        ts, tes := ts + [mid], tes + [TimerRuns.Expiry(e.id)];
        TimerRuns.RunsExtend(ts, tes, TimerRuns.Fire(e.id));
        ts, tes := ts + [TimersOf(ws[k])], tes + [TimerRuns.Fire(e.id)];
      } else {
        StepIsOneTimerEvent(w, e, fate);
        TimerRuns.RunsExtend(ts, tes, TimerEvent(w, e, fate));
        ts, tes := ts + [TimersOf(ws[k])], tes + [TimerEvent(w, e, fate)];
      }
    }
  }

  lemma LapseEnabled(w: World, id: nat)
    requires Enabled(w, Lapse(id))
    ensures TimerRuns.Enabled(TimersOf(w), TimerRuns.Expiry(id))
  {
  }
}
