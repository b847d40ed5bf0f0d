/** Reversion timers (internal/server/reverter.go), and the timers of the Go runtime
    they rest on. */
module Reverter {
  import opened Prelude
  import opened Commands

  /** A runtime timer.  Expiry starts a goroutine; `fire` first takes the lock and
      deletes a map entry, then restores its targets one by one. */
  datatype Phase = Armed | Stopped | Expired | Firing(next: nat)

  datatype Timer = Timer(unit: u8, started: int, after: int, targets: seq<string>, phase: Phase)

  /** The map from units to timers, and every timer ever created. */
  datatype State = State(timers: map<u8, nat>, pool: seq<Timer>)

  const EMPTY := State(map[], [])

  function Due(t: Timer): int {
    t.started + t.after
  }

  /** `Timer.Stop`: without effect on a timer that is no longer armed. */
  function StopTimer(t: Timer): Timer {
    if t.phase == Armed then t.(phase := Stopped) else t
  }

  /** Map entries name timers of their own unit that have not begun to fire and were not
      stopped. */
  ghost predicate Valid(st: State) {
    forall u :: u in st.timers ==>
      && st.timers[u] < |st.pool| && st.pool[st.timers[u]].unit == u
      && (st.pool[st.timers[u]].phase == Armed || st.pool[st.timers[u]].phase == Expired)
  }

  /** Map entries name timers that exist. */
  predicate Indexed(st: State) {
    forall u :: u in st.timers ==> st.timers[u] < |st.pool|
  }

  // ---- The locked operations --------------------------------------------------------------

  function Cancelled(st: State, unit: u8): State
    requires Indexed(st)
  {
    if unit in st.timers then
      State(st.timers - {unit}, st.pool[st.timers[unit] := StopTimer(st.pool[st.timers[unit]])])
    else st
  }

  function Scheduled(st: State, unit: u8, after: int, targets: seq<string>, now: int): State
    requires Indexed(st)
  {
    var d := Cancelled(st, unit);
    if after <= 0 || targets == [] then d
    else State(d.timers[unit := |d.pool|], d.pool + [Timer(unit, now, after, targets, Armed)])
  }

  function AllStopped(st: State): State {
    State(map[], seq(|st.pool|, i requires 0 <= i < |st.pool| =>
      if exists u | u in st.timers :: st.timers[u] == i then StopTimer(st.pool[i]) else st.pool[i]))
  }

  // ---- The goroutine of one timer -------------------------------------------------------------

  predicate CanExpire(st: State, id: nat, now: int) {
    id < |st.pool| && st.pool[id].phase == Armed && now >= Due(st.pool[id])
  }

  function Expire(st: State, id: nat): State
    requires id < |st.pool|
  {
    st.(pool := st.pool[id := st.pool[id].(phase := Expired)])
  }

  predicate CanBeginFire(st: State, id: nat) {
    id < |st.pool| && st.pool[id].phase == Expired
  }

  /** The locked section of `fire`: the unit's entry goes, whichever timer it names. */
  function BeginFire(st: State, id: nat): State
    requires id < |st.pool|
  {
    State(st.timers - {st.pool[id].unit}, st.pool[id := st.pool[id].(phase := Firing(0))])
  }

  predicate CanRestore(st: State, id: nat) {
    id < |st.pool| && st.pool[id].phase.Firing? && st.pool[id].phase.next < |st.pool[id].targets|
  }

  /** One target; a database error is logged and the loop goes on. */
  function Restore(st: State, id: nat): State
    requires CanRestore(st, id)
  {
    st.(pool := st.pool[id := st.pool[id].(phase := Firing(st.pool[id].phase.next + 1))])
  }

  function RestoreRow(t: Timer): Row
    requires t.phase.Firing? && t.phase.next < |t.targets|
  {
    CapRow(t.targets[t.phase.next], MAX_PANEL_W)
  }

  /** The database after the remaining restores, errors skipped. */
  function RestoreFrom(db: Db, fate: Fate, targets: seq<string>, next: nat): Db
    requires next <= |targets|
    decreases |targets| - next
  {
    if next == |targets| then db
    else RestoreFrom(Attempt(db, fate, CapRow(targets[next], MAX_PANEL_W)).0, fate, targets, next + 1)
  }

  class Reverter {
    var timers: map<u8, nat>
    var pool: seq<Timer>

    constructor ()
      ensures View() == EMPTY
    {
      timers, pool := map[], [];
    }

    ghost function View(): State
      reads this
    {
      State(timers, pool)
    }

    method Schedule(unit: u8, after: int, targets: seq<string>, now: int)
      requires Valid(View())
      modifies this
      ensures View() == Scheduled(old(View()), unit, after, targets, now) && Valid(View())
    {
      if unit in timers {
        pool := pool[timers[unit] := StopTimer(pool[timers[unit]])];
        timers := timers - {unit};
      }
      ScheduleKeepsValid(old(View()), unit, after, targets, now);
      if after <= 0 || |targets| == 0 {
        return;
      }
      pool := pool + [Timer(unit, now, after, targets, Armed)];
      timers := timers[unit := |pool| - 1];
    }

    method Cancel(unit: u8)
      requires Valid(View())
      modifies this
      ensures View() == Cancelled(old(View()), unit) && Valid(View())
    {
      if unit in timers {
        pool := pool[timers[unit] := StopTimer(pool[timers[unit]])];
        timers := timers - {unit};
      }
    }

    /** Shutdown: the walk over the map, in any order. */
    method Stop()
      requires Valid(View())
      modifies this
      ensures View() == AllStopped(old(View())) && Valid(View())
    {
      ghost var st := View();
      hide StopTimer;
      while timers != map[]
        invariant timers.Keys <= st.timers.Keys && |pool| == |st.pool|
        invariant forall u :: u in timers ==> timers[u] == st.timers[u]
        invariant forall i :: 0 <= i < |pool| ==>
          pool[i] == if exists u :: u in st.timers && u !in timers && st.timers[u] == i then StopTimer(st.pool[i]) else st.pool[i]
        decreases timers.Keys
      {
        assert timers.Keys != {};
        var unit :| unit in timers;
        ghost var before, was := pool, timers;
        pool := pool[timers[unit] := StopTimer(pool[timers[unit]])];
        timers := timers - {unit};
        forall i | 0 <= i < |pool|
          ensures pool[i] == if exists u :: u in st.timers && u !in timers && st.timers[u] == i then StopTimer(st.pool[i]) else st.pool[i]
        {
          if i == st.timers[unit] {
            assert unit in st.timers && unit !in timers && st.timers[unit] == i;
            assert forall u :: u in st.timers && st.timers[u] == i ==> u == unit;
          } else {
            assert forall u :: u in st.timers && st.timers[u] == i ==> (u !in timers <==> u !in was);
          }
        }
      }
    }

    /** The goroutine of an expired timer, uninterrupted. */
    method Fire(id: nat, writer: Writer)
      requires Valid(View()) && CanBeginFire(View(), id)
      modifies this, writer
      ensures var t := old(pool[id]);
        && timers == old(timers) - {t.unit} && pool == old(pool)[id := t.(phase := Firing(|t.targets|))]
        && writer.State() == RestoreFrom(old(writer.State()), writer.fate, t.targets, 0)
        && Valid(View())
    {
      var t := pool[id];
      timers := timers - {t.unit};
      pool := pool[id := t.(phase := Firing(0))];
      var i := 0;
      while i < |t.targets|
        invariant 0 <= i <= |t.targets|
        invariant timers == old(timers) - {t.unit} && pool == old(pool)[id := t.(phase := Firing(i))]
        invariant RestoreFrom(old(writer.State()), writer.fate, t.targets, 0)
               == RestoreFrom(writer.State(), writer.fate, t.targets, i)
      {
        var ok := writer.RestoreFullPower(t.targets[i]);
        i := i + 1;
        pool := pool[id := t.(phase := Firing(i))];
      }
    }
  }

  // ---- Validity ---------------------------------------------------------------------------------

  lemma CancelKeepsValid(st: State, unit: u8)
    requires Valid(st)
    ensures Valid(Cancelled(st, unit))
  {
  }

  lemma ScheduleKeepsValid(st: State, unit: u8, after: int, targets: seq<string>, now: int)
    requires Valid(st)
    ensures Valid(Scheduled(st, unit, after, targets, now))
  {
    var d := Cancelled(st, unit);
    CancelKeepsValid(st, unit);
    var n := Scheduled(st, unit, after, targets, now);
    forall u | u in n.timers
      ensures n.timers[u] < |n.pool| && n.pool[n.timers[u]].unit == u
      ensures n.pool[n.timers[u]].phase == Armed || n.pool[n.timers[u]].phase == Expired
    {
      if u in d.timers && (u != unit) {
        assert n.timers[u] == d.timers[u];
      }
    }
  }

  lemma GoroutineKeepsValid(st: State, id: nat)
    requires Valid(st) && id < |st.pool|
    ensures st.pool[id].phase == Armed ==> Valid(Expire(st, id))
    ensures st.pool[id].phase == Expired ==> Valid(BeginFire(st, id))
    ensures CanRestore(st, id) ==> Valid(Restore(st, id))
  {
  }

  // ---- Orphans ------------------------------------------------------------------------------------

  /** An armed timer that the map does not name: nothing can stop it any more. */
  predicate Orphan(st: State, id: nat) {
    id < |st.pool| && st.pool[id].phase == Armed && !(st.pool[id].unit in st.timers && st.timers[st.pool[id].unit] == id)
  }

  /** The map entries and the armed timers are in bijection. */
  ghost predicate Bijective(st: State) {
    && Valid(st)
    && (forall u :: u in st.timers ==> st.pool[st.timers[u]].phase == Armed)
    && (forall id :: !Orphan(st, id))
  }

  /** Cancelling a unit leaves no armed timer of that unit exactly when it had no
      orphan. */
  lemma CancelDefeatsExactlyWithoutOrphans(st: State, unit: u8)
    requires Valid(st)
    ensures (forall id: nat :: id < |st.pool| && st.pool[id].unit == unit ==> Cancelled(st, unit).pool[id].phase != Armed)
       <==> (forall id: nat :: Orphan(st, id) ==> st.pool[id].unit != unit)
  {
    var after := Cancelled(st, unit);
    forall id: nat | id < |st.pool| && st.pool[id].unit == unit
      ensures after.pool[id].phase == Armed <==> Orphan(st, id)
    {
    }
  }

  /** The locked section of `fire` makes an orphan exactly when the map already names a
      newer, armed timer for the unit; it never makes any other. */
  lemma FireOrphansExactlyNewerEntries(st: State, id: nat, other: nat)
    requires Valid(st) && CanBeginFire(st, id)
    ensures Orphan(BeginFire(st, id), other) <==>
      Orphan(st, other)
      || (st.pool[id].unit in st.timers && st.timers[st.pool[id].unit] == other && st.pool[other].phase == Armed)
  {
  }

  /** When expiry and the locked section of `fire` happen at once, the bijection is kept
      by everything. */
  lemma AtomicExpiryKeepsBijection(st: State, id: nat, now: int)
    requires Bijective(st) && CanExpire(st, id, now)
    ensures Bijective(BeginFire(Expire(st, id), id))
  {
    var u := st.pool[id].unit;
    assert !Orphan(st, id);
    var n := BeginFire(Expire(st, id), id);
    forall k: nat
      ensures !Orphan(n, k)
    {
      assert !Orphan(st, k);
    }
  }

  lemma LockedOperationsKeepBijection(st: State, unit: u8, after: int, targets: seq<string>, now: int)
    requires Bijective(st)
    ensures Bijective(Cancelled(st, unit)) && Bijective(Scheduled(st, unit, after, targets, now)) && Bijective(AllStopped(st))
  {
    var c, n, a := Cancelled(st, unit), Scheduled(st, unit, after, targets, now), AllStopped(st);
    ScheduleKeepsValid(st, unit, after, targets, now);
    forall k: nat
      ensures !Orphan(c, k) && !Orphan(n, k) && !Orphan(a, k)
    {
      assert !Orphan(st, k);
    }
    forall u | u in n.timers
      ensures n.pool[n.timers[u]].phase == Armed
    {
      if u != unit {
        assert u in c.timers && n.timers[u] == c.timers[u];
      }
    }
  }

  lemma RestoreKeepsBijection(st: State, id: nat)
    requires Bijective(st) && CanRestore(st, id)
    ensures Bijective(Restore(st, id))
  {
    var n := Restore(st, id);
    forall k: nat
      ensures !Orphan(n, k)
    {
      assert !Orphan(st, k);
    }
  }
}
