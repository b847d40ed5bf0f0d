/** Every run of the server is, step by step, a run of the asynchronous result protocol, of
    the caps and of the timers, so that their theorems hold of it; and what this says
    about requests and published registers. */
module EndToEnd {
  import opened Prelude
  import opened Snapshots
  import opened Commands
  import opened Profiles
  import opened Reverter
  import opened ServerRuns
  import opened Publication
  import Layout
  import Server
  import Tracker
  import TrackerRuns
  import TimerRuns
  import Failsafe
  import ControlsWriter
  import DroopWriter
  import CurveWriter
  import EnterServiceWriter
  import FreqDroop

  // ---- The asynchronous result protocol ---------------------------------------------------

  /** A tick of zero stands for a step that does not concern the protocol. */
  function TrackerEvent(w: World, e: Event, fate: Fate): TrackerRuns.Event
    requires e.Request? ==> |e.regs| <= MAX_WRITE
  {
    match e
    case Request(_, _, _, _) =>
      (match Tracking(w, e, fate) case None => TrackerRuns.Tick(0) case Some((key, expected)) => TrackerRuns.Track(key, expected))
    case Refresh(step) => step
    case Tick(dt) => TrackerRuns.Tick(dt)
    case _ => TrackerRuns.Tick(0)
  }

  /** What a request tracks is what its accepted command expects; units 0 and 1 are never
      tracked. */
  lemma OnlyAcceptedCommandsAreTracked(w: World, e: Event, fate: Fate)
    requires e.Request? && |e.regs| <= MAX_WRITE && Tracking(w, e, fate).Some?
    ensures var (key, expected) := Tracking(w, e, fate).value;
            && key.unit == e.unit && e.unit >= 2 && Asked(w, e)
            && (key.model == FreqDroop.MODEL ==> QueuesDroop(w, e, fate) && expected == Expected(w, e))
  {
  }

  /** A request that is routed to Model 711, accepted as a command whose outcome can be
      observed, and taken by the database. */
  predicate QueuesDroop(w: World, e: Event, fate: Fate)
    requires e.Request? && |e.regs| <= MAX_WRITE
  {
    && Routed(w, e).Some? && Routed(w, e).value.m.DroopModel? && Accepted(w, e).Some? && !Accepted(w, e).value.Delay?
    && fate(w.st.db.attempts)
  }

  function Accepted(w: World, e: Event): (r: Option<DroopWriter.Command>)
    requires e.Request? && |e.regs| <= MAX_WRITE && Routed(w, e).Some?
  {
    DroopWriter.Accepted(Routed(w, e).value.s, e.unit, Routed(w, e).value.off, e.regs)
  }

  /** The record the command was accepted against. */
  function Was(w: World, e: Event): Protection
    requires e.Request? && |e.regs| <= MAX_WRITE && Routed(w, e).Some?
    requires Mapped(Routed(w, e).value.s, e.unit)
  {
    var s := Routed(w, e).value.s;
    ProtectionOf(s, s.inverters[e.unit - 2].uid)
  }

  function Expected(w: World, e: Event): map<string, real>
    requires e.Request? && |e.regs| <= MAX_WRITE && Routed(w, e).Some?
    requires Accepted(w, e).Some? && Mapped(Routed(w, e).value.s, e.unit) && !Accepted(w, e).value.Request?
  {
    DroopWriter.ExpectedFor(Accepted(w, e).value, Was(w, e))
  }

  /** A handled request leaves the tracker as it is or tracks once. */
  lemma RequestTracksAtMostOnce(w: World, e: Event, fate: Fate)
    requires e.Request? && |e.regs| <= MAX_WRITE && Valid(w.st.rev)
    ensures Server.Handled(e.permitted, w.banks, w.snap, e.unit, e.addr, e.regs, fate, w.st, w.now).0.entries
         == match Tracking(w, e, fate)
            case None => w.st.entries
            case Some((key, expected)) => Tracker.Tracked(w.st.entries, key, expected, w.now)
  {
    HandledIsRouted(w, e, fate);
    hide Server.Handled, Routed, DroopWriter.Result, CurveWriter.Result, EnterServiceWriter.Result, ControlsWriter.Result;
  }

  /** Every step of the server is exactly one event of the protocol. */
  lemma StepIsOneTrackerEvent(w: World, e: Event, fate: Fate, cfg: TrackerRuns.Setup)
    requires Enabled(w, e, cfg) && Valid(w.st.rev)
    ensures TrackerRuns.Enabled(TrackerView(w), TrackerEvent(w, e, fate), cfg)
    ensures TrackerView(Next(w, e, fate, cfg)) == TrackerRuns.Next(TrackerView(w), TrackerEvent(w, e, fate), cfg)
  {
    hide Server.Handled, Tracking, IsAggregateBank, InverterRegs;
    if e.Request? {
      RequestTracksAtMostOnce(w, e, fate);
      if Tracking(w, e, fate).Some? {
        OnlyAcceptedCommandsAreTracked(w, e, fate);
      }
    }
  }

  ghost predicate SeenAsTrackerRun(ws: seq<World>, es: seq<Event>, fate: Fate, ts: seq<TrackerRuns.World>, tes: seq<TrackerRuns.Event>)
    requires |ws| == |es| + 1
  {
    && |ts| == |ws| && |tes| == |es|
    && (forall k :: 0 <= k < |ws| ==> ts[k] == TrackerView(ws[k]))
    && forall k :: 0 <= k < |es| ==> (es[k].Request? ==> |es[k].regs| <= MAX_WRITE) && tes[k] == TrackerEvent(ws[k], es[k], fate)
  }

  /** Every run of the server is a run of the asynchronous result protocol, step by step. */
  lemma RunsAreTrackerRuns(ws: seq<World>, es: seq<Event>, fate: Fate, cfg: TrackerRuns.Setup)
    returns (ts: seq<TrackerRuns.World>, tes: seq<TrackerRuns.Event>)
    requires IsRun(ws, es, fate, cfg)
    ensures TrackerRuns.IsRun(ts, tes, cfg) && SeenAsTrackerRun(ws, es, fate, ts, tes)
  {
    ts := seq(|ws|, k requires 0 <= k < |ws| => TrackerView(ws[k]));
    assert forall k :: 0 <= k < |es| && es[k].Request? ==> Enabled(ws[k], es[k], cfg);
    tes := seq(|es|, k requires 0 <= k < |es| && (es[k].Request? ==> |es[k].regs| <= MAX_WRITE) => TrackerEvent(ws[k], es[k], fate));
    forall k | 0 <= k < |es|
      ensures TrackerRuns.Enabled(ts[k], tes[k], cfg) && ts[k + 1] == TrackerRuns.Next(ts[k], tes[k], cfg)
    {
      hide Next, Enabled, TrackerRuns.Next, TrackerRuns.Enabled, Valid, TrackerEvent, TrackerView;
      StepIsOneTrackerEvent(ws[k], es[k], fate, cfg);
    }
    hide Next, TrackerRuns.Next, TrackerRuns.Enabled, TrackerEvent;
  }

  /** In every run each entry of Model 711 carries the expectation of the last accepted,
      in-bounds command that the database took for its unit. */
  lemma EntriesComeFromRequests(ws: seq<World>, es: seq<Event>, fate: Fate, cfg: TrackerRuns.Setup, k: nat, u: u8) returns (t: nat)
    requires IsRun(ws, es, fate, cfg) && k <= |es| && Tracker.Key(u, FreqDroop.MODEL) in ws[k].st.entries
    ensures u >= 2 && t < k && Asks(ws[t], es[t], fate, u)
    ensures forall i :: t < i < k ==> !Asks(ws[i], es[i], fate, u)
    ensures var e := ws[k].st.entries[Tracker.Key(u, FreqDroop.MODEL)];
            e.expected == Expected(ws[t], es[t]) && e.deadline == ws[t].now + Tracker.WRITE_DEADLINE
  {
    var key := Tracker.Key(u, FreqDroop.MODEL);
    var ts, tes := RunsAreTrackerRuns(ws, es, fate, cfg);
    hide IsRun, TrackerRuns.IsRun;
    var m;
    t, m := TrackerRuns.ResultHasWitness(ts, tes, cfg, k, key);
    AsksIsTracking(ws[t], es[t], fate, u);
    forall i | t < i < k
      ensures !Asks(ws[i], es[i], fate, u)
    {
      AsksIsTracking(ws[i], es[i], fate, u);
    }
  }

  /** A request on unit u that queues and tracks a Model 711 command. */
  predicate Asks(w: World, e: Event, fate: Fate, u: u8) {
    e.Request? && |e.regs| <= MAX_WRITE && e.unit == u && QueuesDroop(w, e, fate)
  }

  lemma ObservableIsTracked(w: World, e: Event, fate: Fate)
    requires e.Request? && |e.regs| <= MAX_WRITE && QueuesDroop(w, e, fate)
    ensures Tracking(w, e, fate) == Some((Tracker.Key(e.unit, FreqDroop.MODEL), Expected(w, e)))
  {
    var want := Expected(w, e);
    assert "CV" in want || "DC" in want || "DD" in want;
    hide DroopWriter.Accepted;
  }

  lemma AsksIsTracking(w: World, e: Event, fate: Fate, u: u8)
    requires e.Request? ==> |e.regs| <= MAX_WRITE
    requires forall step :: e == Refresh(step) ==> !step.Track?
    ensures TrackerRuns.Tracks(TrackerEvent(w, e, fate), Tracker.Key(u, FreqDroop.MODEL)) <==> Asks(w, e, fate, u)
    ensures Asks(w, e, fate, u) ==> TrackerEvent(w, e, fate).expected == Expected(w, e)
  {
    hide Tracking, Routed;
    if e.Request? && Tracking(w, e, fate).Some? {
      OnlyAcceptedCommandsAreTracked(w, e, fate);
    }
    if e.Request? && QueuesDroop(w, e, fate) {
      ObservableIsTracked(w, e, fate);
    }
  }

  /** A request on unit u that asks that a value be reported for a code. */
  predicate AsksFor(w: World, e: Event, fate: Fate, u: u8, code: string, value: real) {
    Asks(w, e, fate, u) && DroopWriter.AsksFor(Routed(w, e).value.off, e.regs, Was(w, e).ofDroopMode, code, value)
  }

  lemma RequestOf(ws: seq<World>, es: seq<Event>, fate: Fate, cfg: TrackerRuns.Setup, m: nat, u: u8)
    returns (t: nat, code: string, value: real)
    requires IsRun(ws, es, fate, cfg) && m <= |es| && Tracker.Key(u, FreqDroop.MODEL) in ws[m].st.entries
    ensures t < m && AsksFor(ws[t], es[t], fate, u, code, value) && (forall i :: t < i < m ==> !Asks(ws[i], es[i], fate, u))
    ensures var e := ws[m].st.entries[Tracker.Key(u, FreqDroop.MODEL)];
            && e.expected == map[code := value] == Expected(ws[t], es[t])
            && e.deadline == ws[t].now + 900_000_000_000 && Tracker.Requestable(code)
  {
    hide IsRun, Next, Asks, AsksFor, Expected;
    t := EntriesComeFromRequests(ws, es, fate, cfg, m, u);
    code, value := AskedValue(ws[t], es[t], fate, u);
  }

  lemma AskedValue(w: World, e: Event, fate: Fate, u: u8) returns (code: string, value: real)
    requires Asks(w, e, fate, u)
    ensures AsksFor(w, e, fate, u, code, value) && Expected(w, e) == map[code := value] && Tracker.Requestable(code)
  {
    hide Routed, DroopWriter.Accepted;
    var r := Routed(w, e).value;
    code, value := DroopWriter.TracksAsAsked(r.s, u, r.off, e.regs);
  }

  /** Settling is exact: in every run, a reconciliation that finds a Model 711 request of unit
      u in progress completes it exactly if its snapshot reports for the inverter at index
      u-2 the value the last accepted command t asked for, whatever else the snapshot
      holds; otherwise it fails it exactly if 900 seconds have passed since t. */
  lemma ReportSettles(ws: seq<World>, es: seq<Event>, fate: Fate, cfg: TrackerRuns.Setup, m: nat, u: u8)
    returns (t: nat, code: string, value: real)
    requires IsRun(ws, es, fate, cfg) && m < |es| && es[m] == Refresh(TrackerRuns.Reconcile)
    requires Tracker.Key(u, FreqDroop.MODEL) in ws[m].st.entries && ws[m].st.entries[Tracker.Key(u, FreqDroop.MODEL)].rslt == 0
    ensures t < m && AsksFor(ws[t], es[t], fate, u, code, value) && (forall i :: t < i < m ==> !Asks(ws[i], es[i], fate, u))
    ensures ws[m].refresh.Fresh? && Tracker.Key(u, FreqDroop.MODEL) in ws[m + 1].st.entries
    ensures ws[m + 1].st.entries[Tracker.Key(u, FreqDroop.MODEL)].rslt
         == if Tracker.Reports(ws[m].refresh.s, u, code, value) then 1 else if ws[m].now > ws[t].now + 900_000_000_000 then 2 else 0
  {
    ReconciliationIs(ws, es, fate, cfg, m);
    hide IsRun, AsksFor, Asks, Tracker.Reports, Tracker.Reconciled, DroopWriter.ExpectedFor, Next;
    t, code, value := RequestOf(ws, es, fate, cfg, m, u);
    Tracker.SettlesByReport(ws[m].st.entries, ws[m].refresh.s, ws[m].now, Tracker.Key(u, FreqDroop.MODEL), code, value);
  }

  lemma ReconciliationIs(ws: seq<World>, es: seq<Event>, fate: Fate, cfg: TrackerRuns.Setup, m: nat)
    requires IsRun(ws, es, fate, cfg) && m < |es| && es[m] == Refresh(TrackerRuns.Reconcile)
    ensures ws[m].refresh.Fresh? && ws[m + 1].st.entries == Tracker.Reconciled(ws[m].st.entries, ws[m].refresh.s, ws[m].now)
  {
    hide Tracker.Reconciled;
  }

  /** What a request on unit u tracks for Model 134. */
  function CurveTrack(w: World, e: Event, fate: Fate, u: u8): Option<map<string, real>> {
    if e.Request? && |e.regs| <= MAX_WRITE && e.unit == u then
      match Routed(w, e)
      case Some(Route(CurveModel, off, s)) => CurveWriter.Result(s, u, off, e.regs, fate, w.st.db).track
      case _ => None
    else None
  }

  /** A request on unit u that queues and tracks a Model 134 point. */
  predicate AsksCurve(w: World, e: Event, fate: Fate, u: u8) {
    CurveTrack(w, e, fate, u).Some?
  }

  lemma PointAsked(w: World, e: Event, fate: Fate, u: u8) returns (code: string, off: u16, hz: real)
    requires AsksCurve(w, e, fate, u)
    ensures AsksPoint(w, e, fate, u, off, hz) && CurveTrack(w, e, fate, u) == Some(map[code := hz])
    ensures if off == 17 then code == "CC" else code == "DH" || code == "DI" || code == "CB"
  {
    hide Routed, CurveWriter.Result;
    var r := Routed(w, e).value;
    code := CurveWriter.TracksAsAsked(r.s, u, r.off, e.regs, fate, w.st.db);
    off, hz := r.off, e.regs[0] as real / 100.0;
  }

  /** ... for one register at an offset, and the value in hertz. */
  predicate AsksPoint(w: World, e: Event, fate: Fate, u: u8, off: u16, hz: real) {
    AsksCurve(w, e, fate, u) && Routed(w, e).value.off == off && |e.regs| == 1 && hz == e.regs[0] as real / 100.0
  }

  /** ... and for Model 134: Hz4 by the report of its value, every other point never. */
  lemma ReportSettlesCurve(ws: seq<World>, es: seq<Event>, fate: Fate, cfg: TrackerRuns.Setup, m: nat, u: u8)
    returns (t: nat, off: u16, hz: real)
    requires IsRun(ws, es, fate, cfg) && m < |es| && es[m] == Refresh(TrackerRuns.Reconcile)
    requires Tracker.Key(u, 134) in ws[m].st.entries && ws[m].st.entries[Tracker.Key(u, 134)].rslt == 0
    ensures t < m && AsksPoint(ws[t], es[t], fate, u, off, hz) && (forall i :: t < i < m ==> !AsksCurve(ws[i], es[i], fate, u))
    ensures ws[m].refresh.Fresh? && Tracker.Key(u, 134) in ws[m + 1].st.entries
    ensures ws[m + 1].st.entries[Tracker.Key(u, 134)].rslt
         == if off == 17 && Tracker.Reports(ws[m].refresh.s, u, "CC", hz) then 1
            else if ws[m].now > ws[t].now + 900_000_000_000 then 2 else 0
  {
    ReconciliationIs(ws, es, fate, cfg, m);
    hide IsRun, AsksCurve, AsksPoint, Tracker.Reconciled, Tracker.Reports, Next, Enabled, Routed, CurveTrack;
    t := CurveRequestOf(ws, es, fate, cfg, m, u);
    var code;
    code, off, hz := PointAsked(ws[t], es[t], fate, u);
    Tracker.SettlesByReport(ws[m].st.entries, ws[m].refresh.s, ws[m].now, Tracker.Key(u, 134), code, hz);
  }

  lemma CurveRequestOf(ws: seq<World>, es: seq<Event>, fate: Fate, cfg: TrackerRuns.Setup, m: nat, u: u8) returns (t: nat)
    requires IsRun(ws, es, fate, cfg) && m <= |es| && Tracker.Key(u, 134) in ws[m].st.entries
    ensures t < m && AsksCurve(ws[t], es[t], fate, u) && (forall i :: t < i < m ==> !AsksCurve(ws[i], es[i], fate, u))
    ensures CurveTrack(ws[t], es[t], fate, u) == Some(ws[m].st.entries[Tracker.Key(u, 134)].expected)
    ensures ws[m].st.entries[Tracker.Key(u, 134)].deadline == ws[t].now + 900_000_000_000
  {
    var key := Tracker.Key(u, 134);
    var ts, tes := RunsAreTrackerRuns(ws, es, fate, cfg);
    hide IsRun, TrackerRuns.IsRun;
    var settled;
    t, settled := TrackerRuns.ResultHasWitness(ts, tes, cfg, m, key);
    AsksCurveIsTracking(ws[t], es[t], fate, u);
    forall i | t < i < m
      ensures !AsksCurve(ws[i], es[i], fate, u)
    {
      AsksCurveIsTracking(ws[i], es[i], fate, u);
    }
  }

  lemma AsksCurveIsTracking(w: World, e: Event, fate: Fate, u: u8)
    requires e.Request? ==> |e.regs| <= MAX_WRITE
    requires forall step :: e == Refresh(step) ==> !step.Track?
    ensures TrackerRuns.Tracks(TrackerEvent(w, e, fate), Tracker.Key(u, 134)) <==> AsksCurve(w, e, fate, u)
    ensures AsksCurve(w, e, fate, u) ==> CurveTrack(w, e, fate, u) == Some(TrackerEvent(w, e, fate).expected)
  {
    hide Routed, CurveWriter.Result, DroopWriter.Result;
  }

  /** The registers of Model 711 show what a window asked for; `mode` is the mode asked for
      and `reported` the one the registers were made from. */
  predicate ShownIn(out: seq<u16>, off: u16, regs: seq<u16>, mode: real, reported: real)
    requires |out| == 22
  {
    && (off == 12 && |regs| == 2 ==>
          var n := regs[0] as int * 65536 + regs[1] as int;
          n <= 4294967290 ==> n - 5 <= out[12] as int * 65536 + out[13] as int <= n + 5)
    && (off == 16 && |regs| == 1 ==> out[16] == regs[0] || out[16] as int == regs[0] as int + 1)
    && (off == 0 && 1 <= |regs| ==>
          var ena := if regs[0] == 0 then 0 else 1;
          && (out[0] == ena <==> mode == 14.0 || reported >= mode)
          && (reported == reported.Floor as real ==> out[0] == ena))
  }

  /** A command that is shown in a bank is shown in what a client reads of it. */
  lemma ShownIsRead(regs: seq<u16>, out: seq<u16>, off: u16, window: seq<u16>, cmd: DroopWriter.Command, was: Protection, p: Protection,
                    code: string, value: real)
    requires |out| == 22 && forall j :: 0 <= j < 22 ==> out[j] == TrackerRuns.DroopField(regs, j)
    requires DroopWriter.CommandOf(off, window) == Some(cmd) && DroopWriter.AsksFor(off, window, was.ofDroopMode, code, value)
    requires TrackerRuns.Shows(regs, cmd, was, p)
    ensures ShownIn(out, off, window, value, p.ofDroopMode)
  {
    hide TrackerRuns.DroopField;
    DroopWriter.ModesByReport(was);
  }

  /** What a client reads of Model 711 on a mapped unit after a publication. */
  lemma DroopAfterPublish(ws: seq<World>, es: seq<Event>, fate: Fate, cfg: TrackerRuns.Setup, k: nat, u: u8,
                          ts: seq<TrackerRuns.World>, tes: seq<TrackerRuns.Event>) returns (bank: seq<u16>, out: seq<u16>)
    requires IsRun(ws, es, fate, cfg) && k < |es| && es[k] == Refresh(TrackerRuns.Publish) && ws[k].refresh.Encoding?
    requires TrackerRuns.IsRun(ts, tes, cfg) && SeenAsTrackerRun(ws, es, fate, ts, tes)
    requires |ws[k].refresh.s.inverters| <= Layout.MAX_FLEET && Mapped(ws[k].refresh.s, u)
    ensures ws[k + 1].banks.Some? && u in ws[k + 1].banks.value && ws[k + 1].banks.value[u] == bank
    ensures Server.Read(ws[k + 1].banks, u, 40487, 22) == Some(out)
    ensures |out| == 22 && forall j :: 0 <= j < 22 ==> out[j] == TrackerRuns.DroopField(bank, j)
  {
    PublishedBanks(ws, es, fate, cfg, k);
    var banks := ws[k + 1].banks.value;
    bank := PublishedBank(ts, tes, cfg, k, u);
    hide *;
    assert banks[u] == bank;
    out := OwnDroopIsRead(banks, u);
  }

  lemma PublishedBank(ts: seq<TrackerRuns.World>, tes: seq<TrackerRuns.Event>, cfg: TrackerRuns.Setup, k: nat, u: u8)
    returns (bank: seq<u16>)
    requires TrackerRuns.IsRun(ts, tes, cfg) && k < |tes| && tes[k] == TrackerRuns.Publish && ts[k].refresh.Encoding?
    requires |ts[k].refresh.s.inverters| <= Layout.MAX_FLEET && Mapped(ts[k].refresh.s, u)
    ensures u in ts[k + 1].banks && ts[k + 1].banks[u] == bank && Server.Printed(bank, Layout.PER_INVERTER, 5)
  {
    hide TrackerRuns.IsRun, IsInverterBank, IsAggregateBank, Server.Printed;
    TrackerRuns.BanksStand(ts, tes, cfg, k);
    bank := ts[k + 1].banks[u];
    BankIsPrinted(bank, ts[k].refresh.s, u - 2, cfg);
  }

  lemma OwnDroopIsRead(banks: map<u8, seq<u16>>, u: u8) returns (out: seq<u16>)
    requires u in banks && Server.Printed(banks[u], Layout.PER_INVERTER, 5)
    ensures Server.Read(Some(banks), u, 40487, 22) == Some(out)
    ensures |out| == 22 && forall j :: 0 <= j < 22 ==> out[j] == TrackerRuns.DroopField(banks[u], j)
  {
    hide Server.Printed, Field, Server.Read;
    out := Server.DroopIsRead(banks, u, banks[u], Layout.PER_INVERTER, 5, 40487);
  }

  lemma BankIsPrinted(bank: seq<u16>, s: Snapshot, i: nat, cfg: TrackerRuns.Setup)
    requires i < |s.inverters| && IsInverterBank(bank, s, i, cfg.opt, cfg.env)
    ensures Server.Printed(bank, Layout.PER_INVERTER, 5)
  {
    hide InverterRegs, Server.Printed;
    var ans :| bank == InverterRegs(s, i, cfg.opt, cfg.env, ans);
    Server.InverterIsPrinted(s, i, cfg.opt, cfg.env, ans);
  }

  /** The result and the counter due for a request in progress: completed if it is reported,
      failed if it is not and the reconciliation came after the deadline; settled requests
      that the pruning found too old are answered (COMPLETED, 0). */
  function Due(reported: bool, counter: u16, at: int, swept: int, deadline: int, grace: int): (u16, u16) {
    var rslt := if reported then 1 else if at > deadline then 2 else 0;
    if rslt != 0 && swept > deadline + grace then (1, 0) else (rslt, counter)
  }

  lemma VerdictIsDue(h: TrackerRuns.Record, s: Snapshot, u: u8, swept: int, grace: nat, code: string, value: real)
    requires var key := Tracker.Key(u, FreqDroop.MODEL);
             && key in h.before && h.before[key].rslt == 0 && h.before[key].expected == map[code := value]
             && Tracker.Requestable(code) && h.judged == Tracker.Reconciled(h.before, s, h.at)
    ensures var key := Tracker.Key(u, FreqDroop.MODEL);
            && TrackerRuns.Verdict(h.judged, key, grace, swept)
               == Due(Tracker.Reports(s, u, code, value), h.before[key].reqCounter, h.at, swept, h.before[key].deadline, grace)
            && (Tracker.Reports(s, u, code, value) <==> TrackerRuns.Flipped(h, key))
  {
    hide Tracker.Reports, Tracker.Reconciled;
    Tracker.SettlesByReport(h.before, s, h.at, Tracker.Key(u, FreqDroop.MODEL), code, value);
  }

  lemma AnswerIsDue(ts: seq<TrackerRuns.World>, tes: seq<TrackerRuns.Event>, cfg: TrackerRuns.Setup, k: nat, u: u8, bank: seq<u16>,
                    code: string, value: real)
    requires TrackerRuns.IsRun(ts, tes, cfg) && k < |tes| && tes[k] == TrackerRuns.Publish && ts[k].refresh.Encoding?
    requires |ts[k].refresh.s.inverters| <= Layout.MAX_FLEET && Mapped(ts[k].refresh.s, u)
    requires u in ts[k + 1].banks && ts[k + 1].banks[u] == bank
    requires var h, key := ts[k].refresh.h, Tracker.Key(u, FreqDroop.MODEL);
             && key in h.before && h.before[key].rslt == 0 && h.before[key].expected == map[code := value]
             && Tracker.Requestable(code) && h.judged == Tracker.Reconciled(h.before, ts[k].refresh.s, h.at)
    ensures var r, key := ts[k].refresh, Tracker.Key(u, FreqDroop.MODEL);
            var due := Due(Tracker.Reports(r.s, u, code, value), r.h.before[key].reqCounter, r.h.at, r.swept, r.h.before[key].deadline, cfg.grace);
            TrackerRuns.Result(bank) == due || (key in r.h.again && TrackerRuns.Result(bank).0 == 0)
  {
    hide TrackerRuns.IsRun, TrackerRuns.Result, TrackerRuns.Verdict, Due, Tracker.Reports, Tracker.Reconciled;
    TrackerRuns.ResultsArePublished(ts, tes, cfg, k, u);
    var r := ts[k].refresh;
    VerdictIsDue(r.h, r.s, u, r.swept, cfg.grace, code, value);
  }

  /** A request the snapshot reports is shown in the registers read. */
  lemma CommandIsShown(ts: seq<TrackerRuns.World>, tes: seq<TrackerRuns.Event>, cfg: TrackerRuns.Setup, k: nat, u: u8, bank: seq<u16>,
                       out: seq<u16>, w: World, e: Event, fate: Fate, code: string, value: real)
    requires TrackerRuns.IsRun(ts, tes, cfg) && k < |tes| && tes[k] == TrackerRuns.Publish && ts[k].refresh.Encoding?
    requires |ts[k].refresh.s.inverters| <= Layout.MAX_FLEET
    requires u in ts[k + 1].banks && ts[k + 1].banks[u] == bank
    requires |out| == 22 && forall j :: 0 <= j < 22 ==> out[j] == TrackerRuns.DroopField(bank, j)
    requires AsksFor(w, e, fate, u, code, value) && Tracker.Reports(ts[k].refresh.s, u, code, value)
    requires var h, key := ts[k].refresh.h, Tracker.Key(u, FreqDroop.MODEL);
             && key in h.before && h.before[key].rslt == 0 && h.before[key].expected == map[code := value] == Expected(w, e)
             && Tracker.Requestable(code) && h.judged == Tracker.Reconciled(h.before, ts[k].refresh.s, h.at)
    ensures ShownIn(out, Routed(w, e).value.off, e.regs, value, ProtectionOf(ts[k].refresh.s, ts[k].refresh.s.inverters[u - 2].uid).ofDroopMode)
  {
    var r, cmd := ts[k].refresh, Accepted(w, e).value;
    ExpectedOf(w, e, fate, u);
    hide TrackerRuns.IsRun, TrackerRuns.Result, TrackerRuns.Shows, TrackerRuns.CompletionShown, TrackerRuns.DroopField;
    hide Tracker.Reconciled, ShownIn, Expected, Routed, DroopWriter.Admissible;
    VerdictIsDue(r.h, r.s, u, r.swept, cfg.grace, code, value);
    TrackerRuns.CompletedIsSound(ts, tes, cfg, k, u, cmd, Was(w, e));
    ShownIsRead(bank, out, Routed(w, e).value.off, e.regs, cmd, Was(w, e), ProtectionOf(r.s, r.s.inverters[u - 2].uid), code, value);
  }

  /** From request to register: a refresh publishes exactly what is due.  For a Model 711
      request of a mapped unit that its reconciliation m finds in progress, t is the last
      accepted command on that unit; a client that reads the 22 registers at 40487 after
      the publication finds at offsets 2 and 1 the result and counter due, unless the unit
      was asked again since m, which may show IN_PROGRESS; and if the snapshot reports the
      value of t, the registers show what t asked for. */
  lemma PublishedAnswers(ws: seq<World>, es: seq<Event>, fate: Fate, cfg: TrackerRuns.Setup, k: nat, u: u8)
    returns (t: nat, m: nat, code: string, value: real, out: seq<u16>)
    requires IsRun(ws, es, fate, cfg) && k < |es| && es[k] == Refresh(TrackerRuns.Publish) && ws[k].refresh.Encoding?
    requires |ws[k].refresh.s.inverters| <= Layout.MAX_FLEET && Mapped(ws[k].refresh.s, u)
    requires Tracker.Key(u, FreqDroop.MODEL) in ws[k].refresh.h.before
    requires ws[k].refresh.h.before[Tracker.Key(u, FreqDroop.MODEL)].rslt == 0
    ensures t < m < k && es[m] == Refresh(TrackerRuns.Reconcile)
    ensures ws[m].refresh == TrackerRuns.Fresh(ws[k].refresh.s) && ws[m].st.entries == ws[k].refresh.h.before
    ensures AsksFor(ws[t], es[t], fate, u, code, value) && (forall i :: t < i < m ==> !Asks(ws[i], es[i], fate, u))
    ensures Server.Read(ws[k + 1].banks, u, 40487, 22) == Some(out) && |out| == 22
    ensures var r := ws[k].refresh;
            var reported := Tracker.Reports(r.s, u, code, value);
            var counter := r.h.before[Tracker.Key(u, FreqDroop.MODEL)].reqCounter;
            && (reported <==> TrackerRuns.Flipped(r.h, Tracker.Key(u, FreqDroop.MODEL)))
            && ((out[2], out[1]) == Due(reported, counter, ws[m].now, r.swept, ws[t].now + 900_000_000_000, cfg.grace)
                || (out[2] == 0 && exists i :: m < i < k && Asks(ws[i], es[i], fate, u)))
            && (reported ==> ShownIn(out, Routed(ws[t], es[t]).value.off, es[t].regs, value, r.s.protection[r.s.inverters[u - 2].uid].ofDroopMode))
  {
    var ts, tes := RunsAreTrackerRuns(ws, es, fate, cfg);
    hide *;
    m := ReconciledAt(ws, es, fate, cfg, k, ts, tes);
    t, code, value := RequestOf(ws, es, fate, cfg, m, u);
    var bank;
    bank, out := DroopAfterPublish(ws, es, fate, cfg, k, u, ts, tes);
    PublishedBanks(ws, es, fate, cfg, k);
    AnswerIsDue(ts, tes, cfg, k, u, bank, code, value);
    VerdictIsDue(ws[k].refresh.h, ws[k].refresh.s, u, ws[k].refresh.swept, cfg.grace, code, value);
    if Tracker.Reports(ws[k].refresh.s, u, code, value) {
      CommandIsShown(ts, tes, cfg, k, u, bank, out, ws[t], es[t], fate, code, value);
    }
  }

  lemma ExpectedOf(w: World, e: Event, fate: Fate, u: u8)
    requires Asks(w, e, fate, u)
    ensures var cmd := Accepted(w, e).value; !cmd.Request? && !cmd.Delay? && DroopWriter.InBounds(cmd, Was(w, e))
    ensures Expected(w, e) == DroopWriter.ExpectedFor(Accepted(w, e).value, Was(w, e))
  {
  }

  lemma StepsAreOwn(ws: seq<World>, es: seq<Event>, fate: Fate, cfg: TrackerRuns.Setup)
    requires IsRun(ws, es, fate, cfg)
    ensures forall i :: 0 <= i < |es| ==> (es[i].Request? ==> |es[i].regs| <= MAX_WRITE) && (es[i].Refresh? ==> !es[i].step.Track?)
  {
    assert forall i :: 0 <= i < |es| ==> Enabled(ws[i], es[i], cfg);
    hide Next;
  }

  lemma ReconciledAt(ws: seq<World>, es: seq<Event>, fate: Fate, cfg: TrackerRuns.Setup, k: nat,
                     ts: seq<TrackerRuns.World>, tes: seq<TrackerRuns.Event>) returns (m: nat)
    requires IsRun(ws, es, fate, cfg) && k < |es| && ws[k].refresh.Encoding?
    requires TrackerRuns.IsRun(ts, tes, cfg) && SeenAsTrackerRun(ws, es, fate, ts, tes)
    ensures m < k && es[m] == Refresh(TrackerRuns.Reconcile) && TrackerRuns.OriginatesAt(TrackerView(ws[m]), TrackerView(ws[k]))
    ensures forall u: u8 :: Tracker.Key(u, FreqDroop.MODEL) in ws[k].refresh.h.again ==> exists i :: m < i < k && Asks(ws[i], es[i], fate, u)
  {
    StepsAreOwn(ws, es, fate, cfg);
    hide TrackerRuns.IsRun, IsRun;
    m := TrackerRuns.RecordHasOrigin(ts, tes, cfg, k);
    forall u: u8 | Tracker.Key(u, FreqDroop.MODEL) in ws[k].refresh.h.again
      ensures exists i :: m < i < k && Asks(ws[i], es[i], fate, u)
    {
      assert TrackerRuns.TrackedBetween(tes, m, k, Tracker.Key(u, FreqDroop.MODEL));
      var i :| m < i < k && TrackerRuns.Tracks(tes[i], Tracker.Key(u, FreqDroop.MODEL));
      AsksIsTracking(ws[i], es[i], fate, u);
    }
  }

  lemma PublishedBanks(ws: seq<World>, es: seq<Event>, fate: Fate, cfg: TrackerRuns.Setup, k: nat)
    requires IsRun(ws, es, fate, cfg) && k < |es| && es[k] == Refresh(TrackerRuns.Publish)
    ensures ws[k].refresh.Encoding? && ws[k + 1].banks.Some? && TrackerView(ws[k + 1]).banks == ws[k + 1].banks.value
  {
    hide TrackerRuns.Next, IsAggregateBank, InverterRegs;
  }

  /** COMPLETED is sound from request to register: when a refresh completes a request, there
      is a client request t on that unit whose command was accepted and queued, the last
      such one before the reconciliation m of this refresh; the snapshot reports its value
      for the inverter at index u-2; and a client that reads Model 711 of the unit after
      the publication finds what it asked for and COMPLETED with its counter - or with 0,
      exactly if the pruning found it too old - or IN_PROGRESS if the unit was asked again. */
  lemma CompletedIsSound(ws: seq<World>, es: seq<Event>, fate: Fate, cfg: TrackerRuns.Setup, k: nat, u: u8)
    returns (t: nat, m: nat, code: string, value: real, out: seq<u16>)
    requires IsRun(ws, es, fate, cfg) && k < |es| && es[k] == Refresh(TrackerRuns.Publish) && ws[k].refresh.Encoding?
    requires |ws[k].refresh.s.inverters| <= Layout.MAX_FLEET
    requires TrackerRuns.Flipped(ws[k].refresh.h, Tracker.Key(u, FreqDroop.MODEL))
    ensures t < m < k && es[m] == Refresh(TrackerRuns.Reconcile) && ws[m].st.entries == ws[k].refresh.h.before
    ensures AsksFor(ws[t], es[t], fate, u, code, value) && (forall i :: t < i < m ==> !Asks(ws[i], es[i], fate, u))
    ensures Tracker.Reports(ws[k].refresh.s, u, code, value)
    ensures Server.Read(ws[k + 1].banks, u, 40487, 22) == Some(out) && |out| == 22
    ensures var r := ws[k].refresh; var counter := r.h.before[Tracker.Key(u, FreqDroop.MODEL)].reqCounter;
            && ShownIn(out, Routed(ws[t], es[t]).value.off, es[t].regs, value, r.s.protection[r.s.inverters[u - 2].uid].ofDroopMode)
            && ((out[2] == 1 && out[1] == if r.swept > ws[t].now + 900_000_000_000 + cfg.grace then 0 else counter)
                || (out[2] == 0 && exists i :: m < i < k && Asks(ws[i], es[i], fate, u)))
  {
    FlippedIsMapped(ws, es, fate, cfg, k, u);
    hide IsRun, AsksFor, Asks, ShownIn, Server.Read, Next;
    t, m, code, value, out := PublishedAnswers(ws, es, fate, cfg, k, u);
  }

  lemma FlippedIsMapped(ws: seq<World>, es: seq<Event>, fate: Fate, cfg: TrackerRuns.Setup, k: nat, u: u8)
    requires IsRun(ws, es, fate, cfg) && k < |es| && es[k] == Refresh(TrackerRuns.Publish) && ws[k].refresh.Encoding?
    requires TrackerRuns.Flipped(ws[k].refresh.h, Tracker.Key(u, FreqDroop.MODEL))
    ensures Mapped(ws[k].refresh.s, u)
  {
    var ts, tes := RunsAreTrackerRuns(ws, es, fate, cfg);
    hide IsRun, TrackerRuns.IsRun, Next;
    TrackerRuns.FlippedMatched(ts, tes, cfg, k, Tracker.Key(u, FreqDroop.MODEL));
  }

  /** A client that reads Model 711 on any unit that sees the fleet's bank - unit 1, unit 0 or
      a unit past the fleet - always finds (COMPLETED, 0): no request ever tracks unit 1. */
  lemma AggregateIsAlwaysCompleted(ws: seq<World>, es: seq<Event>, fate: Fate, cfg: TrackerRuns.Setup, k: nat, u: u8)
    returns (out: seq<u16>)
    requires IsRun(ws, es, fate, cfg) && k < |es| && es[k] == Refresh(TrackerRuns.Publish) && ws[k].refresh.Encoding?
    requires |ws[k].refresh.s.inverters| <= Layout.MAX_FLEET && !(2 <= u && u - 2 < |ws[k].refresh.s.inverters|)
    ensures Server.Read(ws[k + 1].banks, u, 40519, 22) == Some(out) && |out| == 22 && out[2] == 1 && out[1] == 0
  {
    PublishedBanks(ws, es, fate, cfg, k);
    var ts, tes := RunsAreTrackerRuns(ws, es, fate, cfg);
    var banks := ws[k + 1].banks.value;
    AggregateStands(ts, tes, cfg, k, u);
    hide *;
    out := FleetDroopIsRead(banks, u);
  }

  lemma AggregateStands(ts: seq<TrackerRuns.World>, tes: seq<TrackerRuns.Event>, cfg: TrackerRuns.Setup, k: nat, u: u8)
    requires TrackerRuns.IsRun(ts, tes, cfg) && k < |tes| && tes[k] == TrackerRuns.Publish && ts[k].refresh.Encoding?
    requires |ts[k].refresh.s.inverters| <= Layout.MAX_FLEET && !Mapped(ts[k].refresh.s, u)
    ensures 1 in ts[k + 1].banks && (u in ts[k + 1].banks <==> u == 1) && Server.Printed(ts[k + 1].banks[1], Layout.AGGREGATE, 6)
    ensures Field(ts[k + 1].banks[1], Layout.AGGREGATE.droop, 2) == 1 && Field(ts[k + 1].banks[1], Layout.AGGREGATE.droop, 1) == 0
  {
    hide TrackerRuns.IsRun, IsInverterBank, IsAggregateBank, Server.Printed, Field;
    TrackerRuns.BanksStand(ts, tes, cfg, k);
    TrackerRuns.AggregateIsAlwaysCompleted(ts, tes, cfg, k);
    Server.AggregateIsPrinted(ts[k + 1].banks[1], ts[k].refresh.s, cfg.opt, cfg.env, (1, 0));
  }

  lemma FleetDroopIsRead(banks: map<u8, seq<u16>>, u: u8) returns (out: seq<u16>)
    requires 1 in banks && (u in banks <==> u == 1) && Server.Printed(banks[1], Layout.AGGREGATE, 6)
    ensures Server.Read(Some(banks), u, 40519, 22) == Some(out)
    ensures |out| == 22 && forall j :: 0 <= j < 22 ==> out[j] == Field(banks[1], Layout.AGGREGATE.droop, j)
  {
    hide Server.Printed, Field, Server.Read;
    out := Server.DroopIsRead(banks, u, banks[1], Layout.AGGREGATE, 6, 40519);
  }

  // ---- Caps and timers -------------------------------------------------------------------------

  function CapView(w: World): Failsafe.World {
    Failsafe.World(w.now, w.st.db, w.st.rev)
  }

  /** A request to another model only writes the other tables. */
  ghost function CapEvent(w: World, e: Event, fate: Fate): Failsafe.Event
    requires Valid(w.st.rev) && (e.Request? ==> |e.regs| <= MAX_WRITE)
  {
    match e
    case Request(permitted, unit, addr, regs) =>
      (match Routed(w, e)
       case Some(Route(ControlsModel, off, s)) => Failsafe.Write(s, unit, off, regs)
       case _ => Failsafe.Queue(Server.Handled(permitted, w.banks, w.snap, unit, addr, regs, fate, w.st, w.now).0.db))
    case Tick(dt) => Failsafe.Tick(dt)
    case Sent(uid) => Failsafe.Sent(uid)
    case Expiry(id) => Failsafe.Expiry(id)
    case Fire(id) => Failsafe.Fire(id)
    case RestoreOne(id) => Failsafe.RestoreOne(id)
    case StopAll => Failsafe.StopAll
    case _ => Failsafe.Tick(0)
  }

  /** The other writers leave the power table and the timers alone. */
  lemma OtherModelsKeepCaps(m: Server.Model, off: u16, s: Snapshot, unit: u8, regs: seq<u16>, fate: Fate, st: Server.State, now: int)
    requires Valid(st.rev) && !m.ControlsModel?
    ensures var st' := Server.Dispatched(m, off, s, unit, regs, fate, st, now).0;
            st'.rev == st.rev && st'.db.power == st.db.power && st'.db.attempts >= st.db.attempts
  {
    hide DroopWriter.Accepted, EnterServiceWriter.Accepted;
  }

  lemma StepIsOneCapEvent(w: World, e: Event, fate: Fate, cfg: TrackerRuns.Setup)
    requires Enabled(w, e, cfg) && Valid(w.st.rev)
    ensures !CapEvent(w, e, fate).Lapse? && Failsafe.Enabled(CapView(w), CapEvent(w, e, fate))
    ensures CapView(Next(w, e, fate, cfg)) == Failsafe.Next(CapView(w), CapEvent(w, e, fate), fate)
  {
    hide Tracking, TrackerRuns.Next, TrackerRuns.Enabled;
    if e.Request? {
      HandledIsRouted(w, e, fate);
      hide Server.Handled, ControlsWriter.Result;
      match Routed(w, e)
      case None =>
      case Some(r) =>
        hide Routed;
        if !r.m.ControlsModel? {
          OtherModelsKeepCaps(r.m, r.off, r.s, e.unit, e.regs, fate, w.st, w.now);
        }
    }
  }

  ghost predicate SeenAsCapRun(ws: seq<World>, es: seq<Event>, fate: Fate, cs: seq<Failsafe.World>, ces: seq<Failsafe.Event>)
    requires |ws| == |es| + 1
  {
    && |cs| == |ws| && |ces| == |es|
    && (forall k :: 0 <= k < |ws| ==> cs[k] == CapView(ws[k]))
    && forall k :: 0 <= k < |es| ==>
         Valid(ws[k].st.rev) && (es[k].Request? ==> |es[k].regs| <= MAX_WRITE) && ces[k] == CapEvent(ws[k], es[k], fate)
  }

  /** Every run of the server is a run of the caps, step by step, with expiry and `fire`
      apart: the theorems of `Failsafe` about such runs hold of it. */
  lemma RunsAreCapRuns(ws: seq<World>, es: seq<Event>, fate: Fate, cfg: TrackerRuns.Setup)
    returns (cs: seq<Failsafe.World>, ces: seq<Failsafe.Event>)
    requires IsRun(ws, es, fate, cfg)
    ensures Failsafe.IsRun(cs, ces, fate) && SeenAsCapRun(ws, es, fate, cs, ces)
    ensures forall k :: 0 <= k < |ces| ==> !ces[k].Lapse?
  {
    cs := seq(|ws|, k requires 0 <= k < |ws| => CapView(ws[k]));
    assert forall k :: 0 <= k < |es| ==> Enabled(ws[k], es[k], cfg);
    ces := seq(|es|, k requires 0 <= k < |es| && Valid(ws[k].st.rev) && (es[k].Request? ==> |es[k].regs| <= MAX_WRITE) =>
      CapEvent(ws[k], es[k], fate));
    forall k | 0 <= k < |es|
      ensures !ces[k].Lapse? && Failsafe.Enabled(cs[k], ces[k]) && cs[k + 1] == Failsafe.Next(cs[k], ces[k], fate)
    {
      hide Next, Enabled, Failsafe.Next, Failsafe.Enabled, Valid, CapEvent, CapView;
      StepIsOneCapEvent(ws[k], es[k], fate, cfg);
    }
    hide Next, Failsafe.Next, Failsafe.Enabled, CapEvent;
  }

  /** Every run of the server is a run of the timers, step by step: the theorems of
      `TimerRuns` hold of it. */
  lemma RunsAreTimerRuns(ws: seq<World>, es: seq<Event>, fate: Fate, cfg: TrackerRuns.Setup)
    returns (ts: seq<TimerRuns.World>, tes: seq<TimerRuns.Event>)
    requires IsRun(ws, es, fate, cfg)
    ensures TimerRuns.IsRun(ts, tes) && |tes| == |es|
    ensures forall k :: 0 <= k <= |es| ==> ts[k] == TimerRuns.World(ws[k].now, ws[k].st.rev)
    ensures forall k :: 0 <= k < |es| ==>
      && Valid(ws[k].st.rev) && (es[k].Request? ==> |es[k].regs| <= MAX_WRITE) && !CapEvent(ws[k], es[k], fate).Lapse?
      && tes[k] == Failsafe.TimerEvent(CapView(ws[k]), CapEvent(ws[k], es[k], fate), fate)
  {
    hide IsRun, Failsafe.IsRun, TimerRuns.IsRun, CapEvent, Failsafe.TimerEvent, Valid;
    var cs, ces := RunsAreCapRuns(ws, es, fate, cfg);
    ts, tes := Failsafe.RunsAreTimerRuns(cs, ces, fate, |ces|);
  }

  /** A requested cap with a reversion time, left alone, ends as `Failsafe` says, on the
      server: at rest after the time, 500 W if and only if some restore of the inverter was
      taken by the database, the requested limit otherwise. */
  lemma RequestedCapsEnd(ws: seq<World>, es: seq<Event>, fate: Fate, cfg: TrackerRuns.Setup, u: u8, x: string, i: nat, j: nat,
                         cs: seq<Failsafe.World>, ces: seq<Failsafe.Event>)
    requires IsRun(ws, es, fate, cfg) && SeenAsCapRun(ws, es, fate, cs, ces) && i < j <= |es|
    requires Failsafe.Refreshes(cs[i], ces[i], fate, u, x) && Failsafe.LeftAlone(ces, u, x, i, j)
    requires x in ws[i].st.db.power && ws[j].now >= ws[i].now + Failsafe.Window(ces[i]) && Failsafe.AtRest(cs[j])
    ensures Failsafe.Attempted(cs, ces, |ws[i].st.rev.pool|, x, i, j) && x in ws[j].st.db.power
    ensures ws[j].st.db.power[x].watts
         == if Failsafe.Restored(cs, ces, fate, x, i, j) then MAX_PANEL_W else ControlsWriter.Watts(Failsafe.PowerOf(ces[i]))
  {
    hide IsRun, Failsafe.IsRun, Failsafe.Refreshes, Failsafe.LeftAlone, Failsafe.AtRest, Failsafe.Attempted, Failsafe.Restored, CapEvent;
    var cs', ces' := RunsAreCapRuns(ws, es, fate, cfg);
    assert cs' == cs && ces' == ces;
    Failsafe.UnrefreshedEndsAtFullPower(cs, ces, fate, u, x, i, j);
  }
}
