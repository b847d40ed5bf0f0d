/** Every interleaving of the reversion timers: scheduling, cancelling, shutdown, time,
    expiry, the locked section of `fire` and each single restore are separate steps
    (internal/server/reverter.go). */
module TimerRuns {
  import opened Prelude
  import opened Reverter

  datatype Event =
    | Schedule(unit: u8, after: int, targets: seq<string>)
    | Cancel(unit: u8)
    | StopAll
    | Tick(dt: nat)
    | Expiry(id: nat)
    | Fire(id: nat)
    | RestoreOne(id: nat)

  datatype World = World(now: int, st: State)

  predicate Enabled(w: World, e: Event) {
    match e
    case Expiry(id) => CanExpire(w.st, id, w.now)
    case Fire(id) => CanBeginFire(w.st, id)
    case RestoreOne(id) => CanRestore(w.st, id)
    case _ => true
  }

  ghost function Next(w: World, e: Event): World
    requires Enabled(w, e) && Valid(w.st)
  {
    match e
    case Schedule(unit, after, targets) => w.(st := Scheduled(w.st, unit, after, targets, w.now))
    case Cancel(unit) => w.(st := Cancelled(w.st, unit))
    case StopAll => w.(st := AllStopped(w.st))
    case Tick(dt) => w.(now := w.now + dt)
    case Expiry(id) => w.(st := Expire(w.st, id))
    case Fire(id) => w.(st := BeginFire(w.st, id))
    case RestoreOne(id) => w.(st := Restore(w.st, id))
  }

  /** Worlds connected by enabled events, starting without timers. */
  ghost predicate IsRun(ws: seq<World>, es: seq<Event>) {
    && |ws| == |es| + 1
    && ws[0].st == EMPTY
    && forall k :: 0 <= k < |es| ==> Enabled(ws[k], es[k]) && Valid(ws[k].st) && ws[k + 1] == Next(ws[k], es[k])
  }

  lemma StepKeepsValid(w: World, e: Event)
    requires Enabled(w, e) && Valid(w.st)
    ensures Valid(Next(w, e).st)
  {
    match e
    case Schedule(unit, after, targets) => ScheduleKeepsValid(w.st, unit, after, targets, w.now);
    case Cancel(unit) => CancelKeepsValid(w.st, unit);
    case Expiry(id) => GoroutineKeepsValid(w.st, id);
    case Fire(id) => GoroutineKeepsValid(w.st, id);
    case RestoreOne(id) => GoroutineKeepsValid(w.st, id);
    case _ =>
  }

  /** The validity that `IsRun` mentions is never a restriction: every enabled event of a
      run leads to a longer run. */
  lemma RunsExtend(ws: seq<World>, es: seq<Event>, e: Event)
    requires IsRun(ws, es) && Enabled(ws[|es|], e)
    ensures Valid(ws[|es|].st) && IsRun(ws + [Next(ws[|es|], e)], es + [e])
  {
    if |es| > 0 {
      StepKeepsValid(ws[|es| - 1], es[|es| - 1]);
    }
  }

  // ---- One timer's life ------------------------------------------------------------------------

  /** How far a timer has come; a stopped timer goes nowhere. */
  function Progress(p: Phase): nat {
    match p
    case Armed => 0
    case Stopped => 1
    case Expired => 1
    case Firing(n) => 2 + n
  }

  predicate SameTimer(a: Timer, b: Timer) {
    a.unit == b.unit && a.started == b.started && a.after == b.after && a.targets == b.targets
  }

  /** A stopped timer stays stopped, an expired one fires, progress is never lost, and a
      timer has its expiry behind it once it is past Armed and not stopped. */
  ghost predicate Evolves(a: World, b: World, id: nat) {
    && id < |a.st.pool| <= |b.st.pool| && a.now <= b.now
    && SameTimer(a.st.pool[id], b.st.pool[id])
    && Progress(a.st.pool[id].phase) <= Progress(b.st.pool[id].phase)
    && (a.st.pool[id].phase == Stopped ==> b.st.pool[id].phase == Stopped)
    && (a.st.pool[id].phase == Expired || a.st.pool[id].phase.Firing? ==> b.st.pool[id].phase == Expired || b.st.pool[id].phase.Firing?)
  }

  lemma StepEvolves(w: World, e: Event, id: nat)
    requires Enabled(w, e) && Valid(w.st) && id < |w.st.pool|
    ensures Evolves(w, Next(w, e), id)
  {
  }

  lemma {:induction false} RunEvolves(ws: seq<World>, es: seq<Event>, i: nat, j: nat, id: nat)
    requires IsRun(ws, es) && i <= j <= |es| && id < |ws[i].st.pool|
    ensures Evolves(ws[i], ws[j], id)
    decreases j - i
  {
    if i < j {
      RunEvolves(ws, es, i, j - 1, id);
      StepEvolves(ws[j - 1], es[j - 1], id);
    }
  }

  /** Each scheduled timer begins to fire at most once, and restores each of its targets at
      most once. */
  lemma FiresAtMostOnce(ws: seq<World>, es: seq<Event>, i: nat, j: nat, id: nat)
    requires IsRun(ws, es) && i < j < |es|
    ensures !(es[i] == Fire(id) && es[j] == Fire(id))
    ensures es[i] == es[j] == RestoreOne(id) ==> ws[i].st.pool[id].phase.next < ws[j].st.pool[id].phase.next
  {
    if es[i] == es[j] && (es[i] == Fire(id) || es[i] == RestoreOne(id)) {
      RunEvolves(ws, es, i + 1, j, id);
    }
  }

  /** Every timer comes from a scheduling event with a positive delay and some target. */
  lemma {:induction false} Origin(ws: seq<World>, es: seq<Event>, k: nat, id: nat) returns (j: nat)
    requires IsRun(ws, es) && k <= |es| && id < |ws[k].st.pool|
    ensures j < k && es[j].Schedule? && es[j].after > 0 && es[j].targets != [] && id == |ws[j].st.pool|
    ensures var t := ws[k].st.pool[id];
            t.unit == es[j].unit && t.after == es[j].after && t.targets == es[j].targets && t.started == ws[j].now
    decreases k
  {
    if id < |ws[k - 1].st.pool| {
      j := Origin(ws, es, k - 1, id);
      StepEvolves(ws[k - 1], es[k - 1], id);
    } else {
      j := k - 1;
    }
  }

  lemma StepDue(w: World, e: Event, id: nat)
    requires Enabled(w, e) && Valid(w.st) && id < |Next(w, e).st.pool|
    requires Next(w, e).st.pool[id].phase == Expired || Next(w, e).st.pool[id].phase.Firing?
    ensures id < |w.st.pool|
    ensures w.st.pool[id].phase == Armed ==> w.now >= Due(w.st.pool[id])
    ensures w.st.pool[id].phase != Stopped
  {
  }

  /** The expiry of a timer that is expired or firing is behind it. */
  lemma {:induction false} ExpiredMeansDue(ws: seq<World>, es: seq<Event>, k: nat, id: nat)
    requires IsRun(ws, es) && k <= |es| && id < |ws[k].st.pool|
    requires ws[k].st.pool[id].phase == Expired || ws[k].st.pool[id].phase.Firing?
    ensures ws[k].now >= Due(ws[k].st.pool[id])
    decreases k
  {
    hide Next, Valid, Enabled;
    if k > 0 {
      StepDue(ws[k - 1], es[k - 1], id);
      StepEvolves(ws[k - 1], es[k - 1], id);
      if ws[k - 1].st.pool[id].phase != Armed {
        ExpiredMeansDue(ws, es, k - 1, id);
      }
    }
  }

  /** A timer never fires before the delay of the very schedule that made it has elapsed,
      and it restores exactly the targets of that schedule, in order. */
  lemma NeverEarly(ws: seq<World>, es: seq<Event>, k: nat, id: nat) returns (j: nat)
    requires IsRun(ws, es) && k < |es| && (es[k] == Fire(id) || es[k] == RestoreOne(id))
    ensures j < k && es[j].Schedule? && id == |ws[j].st.pool| && ws[k].now >= ws[j].now + es[j].after
    ensures id < |ws[k].st.pool| && (es[k] == RestoreOne(id) ==> CanRestore(ws[k].st, id))
    ensures ws[k].st.pool[id].targets == es[j].targets && ws[k].st.pool[id].unit == es[j].unit
  {
    j := Origin(ws, es, k, id);
    ExpiredMeansDue(ws, es, k, id);
  }

  // ---- Fail-safe -----------------------------------------------------------------------------------

  /** An event that may stop the timers of a unit. */
  predicate Handles(e: Event, unit: u8) {
    match e
    case Schedule(u, _, _) => u == unit
    case Cancel(u) => u == unit
    case StopAll => true
    case _ => false
  }

  lemma StepUntouched(w: World, e: Event, id: nat)
    requires Enabled(w, e) && Valid(w.st) && id < |w.st.pool| && w.st.pool[id].phase != Stopped && !Handles(e, w.st.pool[id].unit)
    ensures id < |Next(w, e).st.pool| && Next(w, e).st.pool[id].phase != Stopped
  {
  }

  lemma {:induction false} UntouchedSurvives(ws: seq<World>, es: seq<Event>, i: nat, j: nat, id: nat)
    requires IsRun(ws, es) && i <= j <= |es| && id < |ws[i].st.pool| && ws[i].st.pool[id].phase != Stopped
    requires forall k :: i <= k < j ==> !Handles(es[k], ws[i].st.pool[id].unit)
    ensures id < |ws[j].st.pool| && ws[j].st.pool[id].phase != Stopped
    decreases j - i
  {
    hide Next, Valid, Enabled, Handles;
    if i < j {
      UntouchedSurvives(ws, es, i, j - 1, id);
      RunEvolves(ws, es, i, j - 1, id);
      StepUntouched(ws[j - 1], es[j - 1], id);
    }
  }

  /** Fail-safe: after a schedule with a positive delay, until something handles the unit
      again, its timer is armed (and then not overdue without being able to expire),
      expired with its fire in flight, or firing - stale fires of older timers included. */
  lemma FailSafe(ws: seq<World>, es: seq<Event>, i: nat, j: nat)
    requires IsRun(ws, es) && i < j <= |es| && es[i].Schedule? && es[i].after > 0 && es[i].targets != []
    requires forall k :: i < k < j ==> !Handles(es[k], es[i].unit)
    ensures var id := |ws[i].st.pool|;
            && id < |ws[j].st.pool|
            && ws[j].st.pool[id].unit == es[i].unit && ws[j].st.pool[id].targets == es[i].targets
            && ws[j].st.pool[id].phase != Stopped
            && (ws[j].st.pool[id].phase == Armed && ws[j].now >= ws[i].now + es[i].after ==> Enabled(ws[j], Expiry(id)))
  {
    var id := |ws[i].st.pool|;
    UntouchedSurvives(ws, es, i + 1, j, id);
    RunEvolves(ws, es, i + 1, j, id);
  }

  // ---- Cancelling and stale fires --------------------------------------------------------------------

  /** A fire whose unit's map entry already names a newer timer that is still armed. */
  predicate StaleFire(w: World, e: Event) {
    e.Fire? && CanBeginFire(w.st, e.id) &&
    var u := w.st.pool[e.id].unit;
    u in w.st.timers && w.st.timers[u] < |w.st.pool| && w.st.pool[w.st.timers[u]].phase == Armed
  }

  lemma StepOrphans(w: World, e: Event, id: nat)
    requires Enabled(w, e) && Valid(w.st) && !StaleFire(w, e) && Orphan(Next(w, e).st, id)
    ensures Orphan(w.st, id)
  {
    match e
    case Fire(k) => FireOrphansExactlyNewerEntries(w.st, k, id);
    case Schedule(unit, after, targets) => assert Next(w, e).st == Scheduled(w.st, unit, after, targets, w.now);
    case _ =>
  }

  /** An orphan that is still armed stays one: the map never names a timer again. */
  lemma OrphansStay(w: World, e: Event, id: nat)
    requires Enabled(w, e) && Valid(w.st) && Orphan(w.st, id) && Next(w, e).st.pool[id].phase == Armed
    ensures Orphan(Next(w, e).st, id)
  {
  }

  /** The stale fire that took a timer's map entry away. */
  predicate Orphans(w: World, e: Event, id: nat) {
    StaleFire(w, e) && w.st.timers[w.st.pool[e.id].unit] == id
  }

  lemma StaleFireOrphans(w: World, e: Event, id: nat)
    requires Enabled(w, e) && Valid(w.st)
    ensures Orphan(Next(w, e).st, id) && !Orphan(w.st, id) ==> Orphans(w, e, id)
    ensures Orphans(w, e, id) ==> Orphan(Next(w, e).st, id)
  {
    if Orphan(Next(w, e).st, id) && !Orphan(w.st, id) && !StaleFire(w, e) {
      StepOrphans(w, e, id);
    }
    if e.Fire? {
      FireOrphansExactlyNewerEntries(w.st, e.id, id);
    }
  }

  ghost predicate OrphanedBefore(ws: seq<World>, es: seq<Event>, k: nat, id: nat)
    requires k <= |es| < |ws|
  {
    exists i :: 0 <= i < k && Orphans(ws[i], es[i], id)
  }

  /** In every run a timer is orphaned exactly when it is armed and some earlier stale fire
      took its entry away. */
  lemma {:induction false} OrphansComeFromStaleFires(ws: seq<World>, es: seq<Event>, k: nat, id: nat)
    requires IsRun(ws, es) && k <= |es| && id < |ws[k].st.pool|
    ensures Orphan(ws[k].st, id) <==> ws[k].st.pool[id].phase == Armed && OrphanedBefore(ws, es, k, id)
    decreases k
  {
    hide Next, Enabled, Valid, Orphans;
    if Orphan(ws[k].st, id) {
      StaleFireOrphans(ws[k - 1], es[k - 1], id);
      if Orphan(ws[k - 1].st, id) {
        OrphansComeFromStaleFires(ws, es, k - 1, id);
      }
    }
    if ws[k].st.pool[id].phase == Armed && OrphanedBefore(ws, es, k, id) {
      var i :| 0 <= i < k && Orphans(ws[i], es[i], id);
      StaleFireOrphans(ws[i], es[i], id);
      OrphanLasts(ws, es, i + 1, k, id);
    }
  }

  lemma {:induction false} OrphanLasts(ws: seq<World>, es: seq<Event>, i: nat, k: nat, id: nat)
    requires IsRun(ws, es) && i <= k <= |es| && Orphan(ws[i].st, id)
    requires id < |ws[k].st.pool| && ws[k].st.pool[id].phase == Armed
    ensures Orphan(ws[k].st, id)
    decreases k - i
  {
    hide Next, Enabled, Valid;
    if i < k {
      RunEvolves(ws, es, i, k - 1, id);
      StepEvolves(ws[k - 1], es[k - 1], id);
      OrphanLasts(ws, es, i, k - 1, id);
      OrphansStay(ws[k - 1], es[k - 1], id);
    }
  }

  predicate ArmedOn(st: State, unit: u8, id: nat) {
    id < |st.pool| && st.pool[id].unit == unit && st.pool[id].phase == Armed
  }

  /** In every run the timers of its unit that a cancel leaves armed are exactly the armed
      ones whose entry an earlier stale fire took away. */
  lemma CancelDefeatedExactlyByStaleFires(ws: seq<World>, es: seq<Event>, k: nat)
    requires IsRun(ws, es) && k < |es| && es[k].Cancel?
    ensures forall id: nat :: ArmedOn(ws[k + 1].st, es[k].unit, id) <==> ArmedOn(ws[k].st, es[k].unit, id) && OrphanedBefore(ws, es, k, id)
  {
    var w, n := ws[k].st, ws[k + 1].st;
    assert n == Cancelled(w, es[k].unit);
    hide OrphanedBefore, IsRun;
    forall id: nat
      ensures ArmedOn(n, es[k].unit, id) <==> ArmedOn(w, es[k].unit, id) && OrphanedBefore(ws, es, k, id)
    {
      if id < |w.pool| {
        OrphansComeFromStaleFires(ws, es, k, id);
      }
    }
  }

  /** In a run without stale fires no timer is ever orphaned, so a cancel always leaves its
      unit without armed timers. */
  lemma {:induction false} CancelWorksWithoutStaleFires(ws: seq<World>, es: seq<Event>, k: nat, id: nat)
    requires IsRun(ws, es) && k < |es| && forall i :: 0 <= i < k ==> !StaleFire(ws[i], es[i])
    ensures !Orphan(ws[k].st, id)
    ensures es[k].Cancel? && id < |ws[k + 1].st.pool| && ws[k + 1].st.pool[id].unit == es[k].unit ==>
              ws[k + 1].st.pool[id].phase != Armed
    decreases k
  {
    if Orphan(ws[k].st, id) && k > 0 {
      StepOrphans(ws[k - 1], es[k - 1], id);
      CancelWorksWithoutStaleFires(ws, es, k - 1, id);
    }
  }

  lemma StaleTimer() returns (ws: seq<World>, es: seq<Event>)
    ensures |ws| == 4 && es == [Schedule(2, 1, ["A"]), Tick(1), Expiry(0)] && IsRun(ws, es)
    ensures ws[3] == World(1, State(map[2 := 0], [Timer(2, 0, 1, ["A"], Expired)]))
  {
    es := [Schedule(2, 1, ["A"]), Tick(1), Expiry(0)];
    var w0 := World(0, EMPTY);
    var w1 := Next(w0, es[0]);
    assert w1 == World(0, State(map[2 := 0], [Timer(2, 0, 1, ["A"], Armed)]));
    var w2 := Next(w1, es[1]);
    var w3 := Next(w2, es[2]);
    ws := [w0, w1, w2, w3];
  }

  /** A run in which a cancel is defeated: the first timer expires, its unit is scheduled
      again, and only then the stale fire deletes the newer entry. */
  lemma CancelCanBeDefeated() returns (ws: seq<World>, es: seq<Event>)
    ensures IsRun(ws, es) && |es| == 6 && es[5] == Cancel(2)
    ensures |ws[6].st.pool| == 2 && ws[6].st.pool[1].unit == 2 && ws[6].st.pool[1].phase == Armed
  {
    var ws3, es3 := StaleTimer();
    var w3, again := ws3[3], Schedule(2, 1, ["A"]);
    var w4 := Next(w3, again);
    assert w4 == World(1, State(map[2 := 1], [Timer(2, 0, 1, ["A"], Expired), Timer(2, 1, 1, ["A"], Armed)]));
    var w5 := Next(w4, Fire(0));
    assert w5 == World(1, State(map[], [Timer(2, 0, 1, ["A"], Firing(0)), Timer(2, 1, 1, ["A"], Armed)]));
    var w6 := Next(w5, Cancel(2));
    assert w6 == w5;
    hide Next;
    RunsExtend(ws3, es3, again);
    RunsExtend(ws3 + [w4], es3 + [again], Fire(0));
    RunsExtend(ws3 + [w4] + [w5], es3 + [again] + [Fire(0)], Cancel(2));
    ws, es := ws3 + [w4] + [w5] + [w6], es3 + [again] + [Fire(0)] + [Cancel(2)];
  }
}
