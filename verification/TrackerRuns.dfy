/** The asynchronous result protocol over whole runs: writes are tracked at any moment
    between the steps of a refresh - build, reconcile, prune, one bank after the other,
    publish (internal/server/server.go, write_tracker.go). */
module TrackerRuns {
  import opened Prelude
  import opened Snapshots
  import opened Tracker
  import opened Publication
  import Banks
  import Encoder
  import Models
  import Layout
  import FreqDroop
  import DroopWriter

  datatype Setup = Setup(grace: nat, opt: Encoder.Options, env: Models.Env)

  /** What the theorems remember of a reconciliation: when it was, the entries before and
      after it, and which keys have been tracked again since. */
  datatype Record = Record(at: int, before: Entries, judged: Entries, again: set<Key>)

  /** The banks built so far, the tracker's answers in them, and how many there are. */
  datatype Work = Work(answers: map<u8, (u16, u16)>, built: map<u8, seq<u16>>, next: nat)

  /** How far a refresh has come. */
  datatype Refresh =
    | Idle
    | Fresh(s: Snapshot)
    | Judged(s: Snapshot, h: Record)
    | Encoding(s: Snapshot, h: Record, swept: int, work: Work)

  datatype World = World(now: int, entries: Entries, refresh: Refresh, banks: map<u8, seq<u16>>)

  datatype Event =
    | Track(key: Key, expected: map<string, real>)
    | Tick(dt: nat)
    | Build(snapshot: Snapshot)
    | Reconcile
    | Prune
    | EncodeAggregate(bank: seq<u16>)
    | EncodeInverter
    | Publish

  const AGGREGATE_KEY := Key(1, FreqDroop.MODEL)

  /** The model writers refuse units 0 and 1, so nothing is ever tracked for them. */
  ghost predicate Enabled(w: World, e: Event, cfg: Setup) {
    match e
    case Track(key, _) => key.unit >= 2
    case Tick(_) => true
    case Build(_) => w.refresh.Idle?
    case Reconcile => w.refresh.Fresh?
    case Prune => w.refresh.Judged?
    case EncodeAggregate(bank) =>
      && w.refresh.Encoding? && w.refresh.work.next == 0
      && IsAggregateBank(bank, w.refresh.s, cfg.opt, cfg.env, Lookup(w.entries, AGGREGATE_KEY))
    case EncodeInverter => w.refresh.Encoding? && 0 < w.refresh.work.next <= |w.refresh.s.inverters|
    case Publish => w.refresh.Encoding? && w.refresh.work.next == |w.refresh.s.inverters| + 1
  }

  function Noticed(r: Refresh, key: Key): Refresh {
    match r
    case Idle => r
    case Fresh(_) => r
    case Judged(s, h) => Judged(s, h.(again := h.again + {key}))
    case Encoding(s, h, swept, work) => Encoding(s, h.(again := h.again + {key}), swept, work)
  }

  ghost function Next(w: World, e: Event, cfg: Setup): World
    requires Enabled(w, e, cfg)
  {
    match e
    case Track(key, expected) =>
      w.(entries := Tracked(w.entries, key, expected, w.now), refresh := Noticed(w.refresh, key))
    case Tick(dt) => w.(now := w.now + dt)
    case Build(s) => w.(refresh := Fresh(s))
    case Reconcile =>
      var s := w.refresh.s;
      var judged := Reconciled(w.entries, s, w.now);
      w.(entries := judged, refresh := Judged(s, Record(w.now, w.entries, judged, {})))
    case Prune =>
      w.(entries := Pruned(w.entries, cfg.grace, w.now),
         refresh := Encoding(w.refresh.s, w.refresh.h, w.now, Work(map[], map[], 0)))
    case EncodeAggregate(bank) => w.(refresh := WithBank(w.refresh, 1, Lookup(w.entries, AGGREGATE_KEY), bank))
    case EncodeInverter =>
      var i := w.refresh.work.next - 1;
      var ans := Lookup(w.entries, Key(UnitOf(i), FreqDroop.MODEL));
      w.(refresh := WithBank(w.refresh, UnitOf(i), ans, InverterRegs(w.refresh.s, i, cfg.opt, cfg.env, ans)))
    case Publish => w.(banks := w.refresh.work.built, refresh := Idle)
  }

  function WithBank(r: Refresh, unit: u8, ans: (u16, u16), bank: seq<u16>): Refresh
    requires r.Encoding?
  {
    r.(work := Work(r.work.answers[unit := ans], r.work.built[unit := bank], r.work.next + 1))
  }

  ghost predicate IsRun(ws: seq<World>, es: seq<Event>, cfg: Setup): (r: bool)
    ensures r ==> |ws| == |es| + 1
  {
    && |ws| == |es| + 1
    && ws[0].entries == map[] && ws[0].refresh == Idle
    && forall k :: 0 <= k < |es| ==> Enabled(ws[k], es[k], cfg) && ws[k + 1] == Next(ws[k], es[k], cfg)
  }

  // ---- One refresh ------------------------------------------------------------------------

  /** What the tracker answers for a key that nobody has tracked since the reconciliation:
      the judged result, or the default once it has been pruned. */
  function Verdict(judged: Entries, key: Key, grace: nat, swept: int): (u16, u16) {
    if key in judged && !Stale(judged[key], grace, swept) then (judged[key].rslt, judged[key].reqCounter) else (COMPLETED, 0)
  }

  predicate OnlyMapped(entries: Entries) {
    forall key :: key in entries ==> key.unit >= 2
  }

  predicate TrackedAgain(entries: Entries, key: Key, at: int) {
    key in entries && entries[key].rslt == IN_PROGRESS && entries[key].deadline >= at
  }

  /** Since the reconciliation only the keys tracked again have changed. */
  ghost predicate SinceJudged(entries: Entries, h: Record) {
    forall key :: if key in h.again then TrackedAgain(entries, key, h.at)
                  else (key in entries <==> key in h.judged) && (key in entries ==> entries[key] == h.judged[key])
  }

  /** Since the pruning only the keys tracked again have changed. */
  ghost predicate SinceSwept(entries: Entries, h: Record, swept: int, grace: nat) {
    forall key :: if key in h.again then TrackedAgain(entries, key, h.at)
                  else (key in entries <==> key in h.judged && !Stale(h.judged[key], grace, swept))
                       && (key in entries ==> entries[key] == h.judged[key])
  }

  predicate Answered(ans: (u16, u16), h: Record, swept: int, key: Key, grace: nat) {
    ans == Verdict(h.judged, key, grace, swept) || (key in h.again && ans.0 == IN_PROGRESS)
  }

  ghost predicate Consistent(w: World, cfg: Setup) {
    && OnlyMapped(w.entries)
    && match w.refresh
       case Idle => true
       case Fresh(_) => true
       case Judged(s, h) =>
         && h.at <= w.now && h.judged == Reconciled(h.before, s, h.at) && SinceJudged(w.entries, h)
         && OnlyMapped(h.judged) && (forall key :: key in h.again ==> key.unit >= 2)
       case Encoding(s, h, swept, work) =>
         && h.at <= swept <= w.now && h.judged == Reconciled(h.before, s, h.at) && SinceSwept(w.entries, h, swept, cfg.grace)
         && OnlyMapped(h.judged) && (forall key :: key in h.again ==> key.unit >= 2)
         && forall u :: u in work.answers ==> Answered(work.answers[u], h, swept, Key(u, FreqDroop.MODEL), cfg.grace)
  }

  lemma LookupAnswers(entries: Entries, h: Record, swept: int, key: Key, grace: nat)
    requires SinceSwept(entries, h, swept, grace)
    ensures Answered(Lookup(entries, key), h, swept, key, grace)
  {
  }

  lemma SweepKeepsRelation(entries: Entries, h: Record, swept: int, grace: nat)
    requires SinceJudged(entries, h)
    ensures SinceSwept(Pruned(entries, grace, swept), h, swept, grace)
  {
  }

  lemma TrackSinceReconciled(entries: Entries, h: Record, swept: int, grace: nat, key: Key, expected: map<string, real>, now: int)
    requires now >= h.at
    ensures var n, again := Tracked(entries, key, expected, now), h.(again := h.again + {key});
            && (SinceJudged(entries, h) ==> SinceJudged(n, again))
            && (SinceSwept(entries, h, swept, grace) ==> SinceSwept(n, again, swept, grace))
  {
  }

  lemma TrackKeepsConsistent(w: World, key: Key, expected: map<string, real>, cfg: Setup)
    requires key.unit >= 2 && Consistent(w, cfg)
    ensures Consistent(Next(w, Event.Track(key, expected), cfg), cfg)
  {
    hide Verdict, Reconciled, SinceJudged, SinceSwept;
    match w.refresh
    case Judged(_, h) => TrackSinceReconciled(w.entries, h, w.now, cfg.grace, key, expected, w.now);
    case Encoding(_, h, swept, _) => TrackSinceReconciled(w.entries, h, swept, cfg.grace, key, expected, w.now);
    case _ =>
  }

  lemma StepKeepsConsistent(w: World, e: Event, cfg: Setup)
    requires Enabled(w, e, cfg) && Consistent(w, cfg)
    ensures Consistent(Next(w, e, cfg), cfg)
  {
    hide InverterRegs, IsAggregateBank;
    match e
    case Track(key, expected) => TrackKeepsConsistent(w, key, expected, cfg);
    case Prune =>
      hide SinceJudged, SinceSwept;
      SweepKeepsRelation(w.entries, w.refresh.h, w.now, cfg.grace);
    case EncodeAggregate(_) =>
      hide SinceJudged, SinceSwept, Answered;
      LookupAnswers(w.entries, w.refresh.h, w.refresh.swept, AGGREGATE_KEY, cfg.grace);
    case EncodeInverter =>
      hide SinceJudged, SinceSwept, Answered;
      LookupAnswers(w.entries, w.refresh.h, w.refresh.swept, Key(UnitOf(w.refresh.work.next - 1), FreqDroop.MODEL), cfg.grace);
    case _ =>
  }

  // ---- The banks of one refresh ---------------------------------------------------------------

  ghost predicate InverterBankBuilt(s: Snapshot, i: nat, work: Work, cfg: Setup)
    requires i < |s.inverters|
  {
    && UnitOf(i) in work.answers && UnitOf(i) in work.built
    && work.built[UnitOf(i)] == InverterRegs(s, i, cfg.opt, cfg.env, work.answers[UnitOf(i)])
  }

  /** Up to 254 inverters no bank is ever overwritten by another. */
  ghost predicate Progress(s: Snapshot, work: Work, cfg: Setup) {
    && work.next <= |s.inverters| + 1
    && (forall u: u8 :: u in work.built <==> 1 <= u <= work.next)
    && (work.next > 0 ==> 1 in work.answers && IsAggregateBank(work.built[1], s, cfg.opt, cfg.env, work.answers[1]))
    && forall i :: 0 <= i < |s.inverters| && i + 1 < work.next ==> InverterBankBuilt(s, i, work, cfg)
  }

  ghost predicate InProgress(w: World, cfg: Setup) {
    w.refresh.Encoding? && |w.refresh.s.inverters| <= Layout.MAX_FLEET ==> Progress(w.refresh.s, w.refresh.work, cfg)
  }

  lemma StepKeepsProgress(w: World, e: Event, cfg: Setup)
    requires Enabled(w, e, cfg) && InProgress(w, cfg)
    ensures InProgress(Next(w, e, cfg), cfg)
  {
    hide InverterRegs, IsAggregateBank, Lookup, Tracked, Reconciled, Pruned;
    var n := Next(w, e, cfg);
    if n.refresh.Encoding? && |n.refresh.s.inverters| <= Layout.MAX_FLEET {
      var s := n.refresh.s;
      forall i | 0 <= i < |s.inverters| && i + 1 < n.refresh.work.next
        ensures InverterBankBuilt(s, i, n.refresh.work, cfg)
      {
        assert UnitOf(i) == i + 2;
        if w.refresh.Encoding? && i + 1 < w.refresh.work.next {
          assert InverterBankBuilt(s, i, w.refresh.work, cfg);
        }
      }
    }
  }

  lemma {:induction false} Always(ws: seq<World>, es: seq<Event>, cfg: Setup, k: nat)
    requires IsRun(ws, es, cfg) && k <= |es|
    ensures Consistent(ws[k], cfg) && InProgress(ws[k], cfg)
    decreases k
  {
    hide Next, Enabled;
    if k > 0 {
      Always(ws, es, cfg, k - 1);
      StepKeepsConsistent(ws[k - 1], es[k - 1], cfg);
      StepKeepsProgress(ws[k - 1], es[k - 1], cfg);
    }
  }

  // ---- COMPLETED is sound -------------------------------------------------------------------

  /** The reconciliation of this refresh moved the request from IN_PROGRESS to COMPLETED. */
  predicate Flipped(h: Record, key: Key) {
    && key in h.before && h.before[key].rslt == IN_PROGRESS
    && key in h.judged && h.judged[key].rslt == COMPLETED
  }

  /** A register of an inverter's Model 711. */
  function DroopField(regs: seq<u16>, off: nat): u16 {
    Field(regs, Layout.PER_INVERTER.droop, off)
  }

  lemma DroopFields(regs: seq<u16>, p: Protection, ans: (u16, u16))
    requires BodyAt(regs, Layout.PER_INVERTER.droop, FreqDroop.Body(p, ans.0, ans.1))
    ensures DroopField(regs, FreqDroop.ENA) == FreqDroop.EnaOf(p) && DroopField(regs, FreqDroop.KOF) == FreqDroop.KOfOf(p)
    ensures Join32(DroopField(regs, FreqDroop.DBOF_HI), DroopField(regs, FreqDroop.DBOF_LO)) == FreqDroop.DbOfOf(p)
    ensures Result(regs) == ans
  {
    FreqDroop.BodyFields(p, ans.0, ans.1);
    hide FreqDroop.Body, FreqDroop.DbOfOf, FreqDroop.KOfOf, FreqDroop.EnaOf, Field;
  }

  /** The published result and request counter. */
  function Result(regs: seq<u16>): (u16, u16) {
    (DroopField(regs, FreqDroop.ADPT_RSLT), DroopField(regs, FreqDroop.ADPT_REQ))
  }

  /** The registers of an inverter's Model 711 show what a command asked for; p is the
      record they were made from, `was` the one the command was accepted against. */
  predicate Shows(regs: seq<u16>, cmd: DroopWriter.Command, was: Protection, p: Protection) {
    match cmd
    case Deadband(n) =>
      n <= 0xFFFF_FFFF - 5 ==>
        n - 5 <= Join32(DroopField(regs, FreqDroop.DBOF_HI), DroopField(regs, FreqDroop.DBOF_LO)) <= n + 5
    case Slope(k) => DroopField(regs, FreqDroop.KOF) == k || DroopField(regs, FreqDroop.KOF) == k + 1
    case Enable(on) =>
      var asked, mode := if on then 1 else 0, DroopWriter.ModeFor(on, was);
      && (DroopField(regs, FreqDroop.ENA) == asked <==> mode == FreqDroop.MODE_OTHER || p.ofDroopMode >= mode as real)
      && (p.ofDroopMode == p.ofDroopMode.Floor as real ==> DroopField(regs, FreqDroop.ENA) == asked)
    case _ => true
  }

  lemma MatchesCode(p: Protection, code: string, expected: real, want: map<string, real>)
    requires MatchesAll(p, want) && want == map[code := expected]
    ensures MatchesOne(p, code, expected)
  {
    assert code in want;
  }

  lemma DeadbandShown(p: Protection, n: u32)
    requires MatchesAll(p, map["DC" := DroopWriter.StartHz(n)]) && n > 0
    ensures n <= 0xFFFF_FFFF - 5 ==> n - 5 <= FreqDroop.DbOfOf(p) <= n + 5
  {
    hide MatchesAll, FreqDroop.DbOfOf;
    MatchesCode(p, "DC", DroopWriter.StartHz(n), map["DC" := DroopWriter.StartHz(n)]);
    if n <= 0xFFFF_FFFF - 5 {
      FreqDroop.DbOfReadBack(p, n);
    }
  }

  lemma SlopeShown(p: Protection, k: u16)
    requires MatchesAll(p, map["DD" := k as real / 10.0]) && 0 < k < 65535
    ensures FreqDroop.KOfOf(p) == k || FreqDroop.KOfOf(p) == k + 1
  {
    hide MatchesAll, FreqDroop.KOfOf;
    MatchesCode(p, "DD", k as real / 10.0, map["DD" := k as real / 10.0]);
    FreqDroop.KOfReadBack(p, k);
  }

  lemma EnableShown(p: Protection, on: bool, mode: int)
    requires MatchesAll(p, map["CV" := mode as real]) && 13 <= mode <= 15 && (on <==> mode != FreqDroop.MODE_DISABLED)
    ensures FreqDroop.EnaOf(p) == (if on then 1 else 0) <==> mode == FreqDroop.MODE_OTHER || p.ofDroopMode >= mode as real
    ensures p.ofDroopMode == p.ofDroopMode.Floor as real ==> FreqDroop.EnaOf(p) == if on then 1 else 0
  {
    hide MatchesAll, FreqDroop.EnaOf;
    MatchesCode(p, "CV", mode as real, map["CV" := mode as real]);
    FreqDroop.EnaReadBack(p, mode);
    if p.ofDroopMode == p.ofDroopMode.Floor as real {
      IntegralModes(p.ofDroopMode, mode);
    }
  }

  lemma IntegralModes(reported: real, mode: int)
    requires FreqDroop.Near(reported, mode as real) && reported == reported.Floor as real
    ensures reported == mode as real
  {
    var f := reported.Floor;
    assert (f - mode) as real == f as real - mode as real;
  }

  /** A record that meets the expectation of a command is published as asked. */
  lemma MatchIsShown(regs: seq<u16>, cmd: DroopWriter.Command, was: Protection, p: Protection, ans: (u16, u16))
    requires !cmd.Request? && !cmd.Delay? && DroopWriter.InBounds(cmd, was)
    requires MatchesAll(p, DroopWriter.ExpectedFor(cmd, was))
    requires BodyAt(regs, Layout.PER_INVERTER.droop, FreqDroop.Body(p, ans.0, ans.1))
    ensures Shows(regs, cmd, was, p)
  {
    hide BodyAt, DroopField, MatchesAll, FreqDroop.DbOfOf, FreqDroop.KOfOf, FreqDroop.EnaOf, FreqDroop.Body, Result, Join32;
    hide Trunc;
    DroopFields(regs, p, ans);
    match cmd {
      case Deadband(n) => DeadbandShown(p, n);
      case Slope(k) => SlopeShown(p, k);
      case Enable(on) => EnableShown(p, on, DroopWriter.ModeFor(on, was));
      case _ =>
    }
  }

  /** COMPLETED is sound end to end: when a refresh completes a request, the bank that same
      refresh publishes for the unit shows what was asked for, whatever is tracked in
      between, and its result registers show COMPLETED with the request's counter - or the
      default with counter 0, exactly if the request was completed too late to survive
      the pruning - unless the unit has been written again, which shows IN_PROGRESS. */
  lemma CompletedIsSound(ws: seq<World>, es: seq<Event>, cfg: Setup, k: nat, u: u8, cmd: DroopWriter.Command, was: Protection)
    requires IsRun(ws, es, cfg) && k < |es| && es[k] == Publish && |ws[k].refresh.s.inverters| <= Layout.MAX_FLEET
    requires !cmd.Request? && !cmd.Delay? && DroopWriter.InBounds(cmd, was)
    requires Flipped(ws[k].refresh.h, Key(u, FreqDroop.MODEL))
    requires ws[k].refresh.h.before[Key(u, FreqDroop.MODEL)].expected == DroopWriter.ExpectedFor(cmd, was)
    ensures var s := ws[k].refresh.s;
            && Mapped(s, u) && u in ws[k + 1].banks
            && Shows(ws[k + 1].banks[u], cmd, was, ProtectionOf(s, s.inverters[u - 2].uid))
            && CompletionShown(Result(ws[k + 1].banks[u]), ws[k].refresh.h, ws[k].refresh.swept, Key(u, FreqDroop.MODEL), cfg.grace)
  {
    hide *;
    var r, key := ws[k].refresh, Key(u, FreqDroop.MODEL);
    FlippedMatched(ws, es, cfg, k, key);
    BankOf(ws, es, cfg, k, u);
    ShownBank(r, u, cmd, was, cfg);
  }

  predicate CompletionShown(result: (u16, u16), h: Record, swept: int, key: Key, grace: nat)
    requires key in h.before && key in h.judged
  {
    var verdict := (COMPLETED, if Stale(h.judged[key], grace, swept) then 0 else h.before[key].reqCounter);
    result == verdict || (key in h.again && result.0 == IN_PROGRESS)
  }

  lemma ShownBank(r: Refresh, u: u8, cmd: DroopWriter.Command, was: Protection, cfg: Setup)
    requires r.Encoding? && Mapped(r.s, u) && BankBuilt(r, u, cfg.grace)
    requires !cmd.Request? && !cmd.Delay? && DroopWriter.InBounds(cmd, was)
    requires var h, key := r.h, Key(u, FreqDroop.MODEL);
             && Flipped(h, key) && h.before[key].expected == DroopWriter.ExpectedFor(cmd, was)
             && Matched(h.before[key], r.s, u) && h.judged[key] == h.before[key].(rslt := COMPLETED)
    ensures Shows(r.work.built[u], cmd, was, ProtectionOf(r.s, r.s.inverters[u - 2].uid))
    ensures CompletionShown(Result(r.work.built[u]), r.h, r.swept, Key(u, FreqDroop.MODEL), cfg.grace)
  {
    hide Shows, MatchesAll, DroopWriter.InBounds, DroopWriter.ExpectedFor, BodyAt, FreqDroop.Body, Result, Stale;
    var p, ans := ProtectionOf(r.s, r.s.inverters[u - 2].uid), r.work.answers[u];
    DroopFields(r.work.built[u], p, ans);
    MatchIsShown(r.work.built[u], cmd, was, p, ans);
  }

  lemma FlippedMatched(ws: seq<World>, es: seq<Event>, cfg: Setup, k: nat, key: Key)
    requires IsRun(ws, es, cfg) && k < |es| && es[k] == Publish && Flipped(ws[k].refresh.h, key)
    ensures ws[k].refresh.Encoding?
    ensures var h := ws[k].refresh.h;
            && Mapped(ws[k].refresh.s, key.unit) && Matched(h.before[key], ws[k].refresh.s, key.unit)
            && h.judged[key] == h.before[key].(rslt := COMPLETED)
  {
    Always(ws, es, cfg, k);
    hide InProgress, SinceSwept;
    var h := ws[k].refresh.h;
    ReconcileMoves(h.before, ws[k].refresh.s, h.at, key);
  }

  lemma PublishStores(ws: seq<World>, es: seq<Event>, cfg: Setup, k: nat)
    requires IsRun(ws, es, cfg) && k < |es| && es[k] == Publish
    ensures ws[k].refresh.Encoding? && ws[k].refresh.work.next == |ws[k].refresh.s.inverters| + 1
    ensures ws[k + 1].banks == ws[k].refresh.work.built
  {
    hide InverterRegs, IsAggregateBank, Lookup;
  }

  /** The bank of a mapped unit, made from this refresh's snapshot and its answer. */
  ghost predicate BankBuilt(r: Refresh, u: u8, grace: nat)
    requires r.Encoding? && Mapped(r.s, u)
  {
    && u in r.work.built && u in r.work.answers
    && Answered(r.work.answers[u], r.h, r.swept, Key(u, FreqDroop.MODEL), grace)
    && var p := ProtectionOf(r.s, r.s.inverters[u - 2].uid);
       BodyAt(r.work.built[u], Layout.PER_INVERTER.droop, FreqDroop.Body(p, r.work.answers[u].0, r.work.answers[u].1))
  }

  lemma AnswersAreGiven(w: World, cfg: Setup, u: u8)
    requires Consistent(w, cfg) && w.refresh.Encoding? && u in w.refresh.work.answers
    ensures Answered(w.refresh.work.answers[u], w.refresh.h, w.refresh.swept, Key(u, FreqDroop.MODEL), cfg.grace)
  {
    hide SinceSwept, Answered;
  }

  lemma BankIsBuilt(w: World, cfg: Setup, i: nat)
    requires InProgress(w, cfg) && w.refresh.Encoding? && i < |w.refresh.s.inverters|
    requires w.refresh.work.next == |w.refresh.s.inverters| + 1 <= Layout.MAX_FLEET + 1
    ensures UnitOf(i) == i + 2 && InverterBankBuilt(w.refresh.s, i, w.refresh.work, cfg)
  {
    hide InverterBankBuilt, IsAggregateBank;
  }

  lemma BuiltIsPublished(w: World, cfg: Setup, u: u8)
    requires Consistent(w, cfg) && InProgress(w, cfg) && w.refresh.Encoding? && Mapped(w.refresh.s, u)
    requires w.refresh.work.next == |w.refresh.s.inverters| + 1 <= Layout.MAX_FLEET + 1
    ensures BankBuilt(w.refresh, u, cfg.grace)
  {
    hide InverterRegs, InProgress, Answered, Consistent, BodyAt, FreqDroop.Body, UnitOf, ProtectionOf;
    var r := w.refresh;
    BankIsBuilt(w, cfg, u - 2);
    AnswersAreGiven(w, cfg, u);
    InverterPublishes(r.s, u - 2, cfg.opt, cfg.env, r.work.answers[u]);
  }

  lemma BankOf(ws: seq<World>, es: seq<Event>, cfg: Setup, k: nat, u: u8)
    requires IsRun(ws, es, cfg) && k < |es| && es[k] == Publish && ws[k].refresh.Encoding?
    requires Mapped(ws[k].refresh.s, u) && |ws[k].refresh.s.inverters| <= Layout.MAX_FLEET
    ensures ws[k + 1].banks == ws[k].refresh.work.built
    ensures BankBuilt(ws[k].refresh, u, cfg.grace) && u in ws[k + 1].banks
  {
    hide IsRun, Mapped, Consistent, InProgress, Answered, BodyAt;
    Always(ws, es, cfg, k);
    PublishStores(ws, es, cfg, k);
    BuiltIsPublished(ws[k], cfg, u);
  }

  ghost predicate BanksOf(banks: map<u8, seq<u16>>, s: Snapshot, cfg: Setup) {
    && (forall u: u8 :: u in banks <==> u == 1 || Mapped(s, u))
    && 1 in banks && IsAggregateBank(banks[1], s, cfg.opt, cfg.env, (COMPLETED, 0))
    && forall u: u8 :: Mapped(s, u) ==> u in banks && IsInverterBank(banks[u], s, u - 2, cfg.opt, cfg.env)
  }

  /** A publication stores a bank for unit 1 and for every unit of its snapshot's fleet, and
      no other. */
  lemma BanksStand(ws: seq<World>, es: seq<Event>, cfg: Setup, k: nat)
    requires IsRun(ws, es, cfg) && k < |es| && es[k] == Publish && ws[k].refresh.Encoding?
    requires |ws[k].refresh.s.inverters| <= Layout.MAX_FLEET
    ensures BanksOf(ws[k + 1].banks, ws[k].refresh.s, cfg)
  {
    hide IsRun, Consistent, IsAggregateBank, InverterRegs;
    Always(ws, es, cfg, k);
    PublishStores(ws, es, cfg, k);
    AggregateBuilt(ws[k], cfg);
    var s := ws[k].refresh.s;
    forall u: u8 | Mapped(s, u)
      ensures u in ws[k + 1].banks && IsInverterBank(ws[k + 1].banks[u], s, u - 2, cfg.opt, cfg.env)
    {
      BankIsBuilt(ws[k], cfg, u - 2);
    }
  }

  /** The aggregate bank always publishes (COMPLETED, 0). */
  lemma AggregateIsAlwaysCompleted(ws: seq<World>, es: seq<Event>, cfg: Setup, k: nat)
    requires IsRun(ws, es, cfg) && k < |es| && es[k] == Publish && |ws[k].refresh.s.inverters| <= Layout.MAX_FLEET
    ensures 1 in ws[k + 1].banks
    ensures Field(ws[k + 1].banks[1], Layout.AGGREGATE.droop, FreqDroop.ADPT_RSLT) == COMPLETED
    ensures Field(ws[k + 1].banks[1], Layout.AGGREGATE.droop, FreqDroop.ADPT_REQ) == 0
  {
    hide *;
    Always(ws, es, cfg, k);
    PublishStores(ws, es, cfg, k);
    AggregateBuilt(ws[k], cfg);
    var r := ws[k].refresh;
    AggregatePublishes(r.work.built[1], r.s, cfg.opt, cfg.env, (COMPLETED, 0));
  }

  lemma AggregateBuilt(w: World, cfg: Setup)
    requires Consistent(w, cfg) && InProgress(w, cfg) && w.refresh.Encoding?
    requires w.refresh.work.next == |w.refresh.s.inverters| + 1 <= Layout.MAX_FLEET + 1
    ensures 1 in w.refresh.work.built && IsAggregateBank(w.refresh.work.built[1], w.refresh.s, cfg.opt, cfg.env, (COMPLETED, 0))
  {
    hide IsAggregateBank, InverterBankBuilt, SinceSwept;
    assert AGGREGATE_KEY !in w.refresh.h.judged && AGGREGATE_KEY !in w.refresh.h.again;
  }

  function RecordOf(r: Refresh): Option<Record> {
    match r
    case Judged(_, h) => Some(h)
    case Encoding(_, h, _, _) => Some(h)
    case _ => None
  }

  lemma StepRecord(w: World, e: Event, cfg: Setup)
    requires Enabled(w, e, cfg) && RecordOf(Next(w, e, cfg).refresh).Some?
    ensures var h := RecordOf(Next(w, e, cfg).refresh).value;
            if e == Reconcile then OriginatesAt(w, Next(w, e, cfg)) && h.again == {}
            else SameOrigin(w, Next(w, e, cfg), if e.Track? then {e.key} else {})
  {
    hide InverterRegs, IsAggregateBank;
  }

  /** The reconciliation of world m found what the refresh of world k remembers. */
  predicate OriginatesAt(m: World, k: World)
    requires RecordOf(k.refresh).Some?
  {
    var h := RecordOf(k.refresh).value;
    h.before == m.entries && h.at == m.now && m.refresh == Fresh(k.refresh.s) && h.judged == Reconciled(h.before, k.refresh.s, h.at)
  }

  predicate SameOrigin(w: World, n: World, more: set<Key>)
    requires RecordOf(n.refresh).Some?
  {
    && RecordOf(w.refresh).Some? && n.refresh.s == w.refresh.s
    && var h := RecordOf(w.refresh).value; RecordOf(n.refresh).value == h.(again := h.again + more)
  }

  /** The key is tracked after step m and before step k. */
  predicate TrackedBetween(es: seq<Event>, m: nat, k: nat, key: Key)
    requires k <= |es|
  {
    exists i :: m < i < k && Tracks(es[i], key)
  }

  /** What a refresh remembers is what its reconciliation found and made, and the keys
      tracked since. */
  lemma {:induction false} RecordHasOrigin(ws: seq<World>, es: seq<Event>, cfg: Setup, k: nat) returns (m: nat)
    requires IsRun(ws, es, cfg) && k <= |es| && RecordOf(ws[k].refresh).Some?
    ensures m < k && es[m] == Reconcile && OriginatesAt(ws[m], ws[k])
    ensures forall key :: key in RecordOf(ws[k].refresh).value.again ==> TrackedBetween(es, m, k, key)
    decreases k
  {
    hide Next, Enabled;
    StepRecord(ws[k - 1], es[k - 1], cfg);
    if es[k - 1] == Reconcile {
      m := k - 1;
    } else {
      m := RecordHasOrigin(ws, es, cfg, k - 1);
      OriginStays(ws[m], ws[k - 1], ws[k], if es[k - 1].Track? then {es[k - 1].key} else {});
      forall key | key in RecordOf(ws[k].refresh).value.again
        ensures TrackedBetween(es, m, k, key)
      {
        assert TrackedBetween(es, m, k - 1, key) || Tracks(es[k - 1], key);
      }
    }
  }

  lemma OriginStays(m: World, w: World, n: World, more: set<Key>)
    requires RecordOf(n.refresh).Some? && SameOrigin(w, n, more) && OriginatesAt(m, w)
    ensures OriginatesAt(m, n)
  {
    hide Reconciled;
  }

  // ---- What else is published ------------------------------------------------------------------

  /** Every published result is the verdict of its own refresh, or IN_PROGRESS for a unit
      written again meanwhile. */
  lemma ResultsArePublished(ws: seq<World>, es: seq<Event>, cfg: Setup, k: nat, u: u8)
    requires IsRun(ws, es, cfg) && k < |es| && es[k] == Publish && ws[k].refresh.Encoding?
    requires Mapped(ws[k].refresh.s, u) && |ws[k].refresh.s.inverters| <= Layout.MAX_FLEET
    ensures u in ws[k + 1].banks
    ensures Answered(Result(ws[k + 1].banks[u]), ws[k].refresh.h, ws[k].refresh.swept, Key(u, FreqDroop.MODEL), cfg.grace)
  {
    hide IsRun, Answered, BodyAt, FreqDroop.Body, Result, ProtectionOf;
    BankOf(ws, es, cfg, k, u);
    var r := ws[k].refresh;
    DroopFields(r.work.built[u], ProtectionOf(r.s, r.s.inverters[u - 2].uid), r.work.answers[u]);
  }

  /** The reconciliation of this refresh moved the request from IN_PROGRESS to FAILED. */
  predicate FlippedToFailed(h: Record, key: Key) {
    && key in h.before && h.before[key].rslt == IN_PROGRESS
    && key in h.judged && h.judged[key].rslt == FAILED
  }

  /** A request that a refresh fails is published as FAILED by that refresh exactly when the
      pruning comes no later than deadline and grace; otherwise the default (COMPLETED, 0)
      is published and the failure never is.  A unit written again meanwhile may also show
      IN_PROGRESS. */
  lemma FailureIsPublishedOnlyInTime(ws: seq<World>, es: seq<Event>, cfg: Setup, k: nat, u: u8)
    requires IsRun(ws, es, cfg) && k < |es| && es[k] == Publish && ws[k].refresh.Encoding?
    requires Mapped(ws[k].refresh.s, u) && |ws[k].refresh.s.inverters| <= Layout.MAX_FLEET
    requires FlippedToFailed(ws[k].refresh.h, Key(u, FreqDroop.MODEL))
    ensures u in ws[k + 1].banks
    ensures var h, key, result := ws[k].refresh.h, Key(u, FreqDroop.MODEL), Result(ws[k + 1].banks[u]);
            var was := h.before[key];
            || result == (if ws[k].refresh.swept <= was.deadline + cfg.grace then (FAILED, was.reqCounter) else (COMPLETED, 0))
            || (key in h.again && result.0 == IN_PROGRESS)
  {
    hide IsRun, InProgress, Result, SinceSwept, Mapped;
    ResultsArePublished(ws, es, cfg, k, u);
    Always(ws, es, cfg, k);
    var h := ws[k].refresh.h;
    ReconcileMoves(h.before, ws[k].refresh.s, h.at, Key(u, FreqDroop.MODEL));
  }

  lemma RunsExtend(ws: seq<World>, es: seq<Event>, cfg: Setup, e: Event)
    requires IsRun(ws, es, cfg) && Enabled(ws[|es|], e, cfg)
    ensures IsRun(ws + [Next(ws[|es|], e, cfg)], es + [e], cfg)
  {
    hide Enabled, Next;
  }

  const ONE_INVERTER := Snapshot(
    "", "", "", 0, 0, 0, 0, 0, 0, 0, 0.0, 0.0, 0, 1,
    [Inverter("A", true, "01", 0.0, 0, 0, 0, 0, 0, 0, 0, 0, [], EventBits({}, {}, {}, {}))], map[])

  const DISABLE := Track(Key(2, FreqDroop.MODEL), map["CV" := 15.0])

  /** The write is never answered, and the next refresh comes six seconds after the
      deadline with an interval of five. */
  lemma LateRefresh(cfg: Setup) returns (ws: seq<World>, es: seq<Event>)
    requires cfg.grace == 5 * SECOND
    ensures IsRun(ws, es, cfg) && es == [DISABLE, Tick(WRITE_DEADLINE + 6 * SECOND), Build(ONE_INVERTER), Reconcile]
    ensures var key, e := Key(2, FreqDroop.MODEL), Entry(1, IN_PROGRESS, map["CV" := 15.0], WRITE_DEADLINE);
            ws[4] == World(WRITE_DEADLINE + 6 * SECOND, map[key := e.(rslt := FAILED)],
                           Judged(ONE_INVERTER, Record(WRITE_DEADLINE + 6 * SECOND, map[key := e], map[key := e.(rslt := FAILED)], {})), map[])
  {
    var key, e := Key(2, FreqDroop.MODEL), Entry(1, IN_PROGRESS, map["CV" := 15.0], WRITE_DEADLINE);
    var w0 := World(0, map[], Idle, map[]);
    var w1 := Next(w0, DISABLE, cfg);
    assert w1 == World(0, map[key := e], Idle, map[]);
    var w2 := Next(w1, Tick(WRITE_DEADLINE + 6 * SECOND), cfg);
    var w3 := Next(w2, Build(ONE_INVERTER), cfg);
    var w4 := Next(w3, Reconcile, cfg);
    NeverReported(ONE_INVERTER, e);
    assert Settle(e, ONE_INVERTER, 2, w3.now) == e.(rslt := FAILED);
    assert w4.entries == map[key := e.(rslt := FAILED)];
    es := [DISABLE, Tick(WRITE_DEADLINE + 6 * SECOND), Build(ONE_INVERTER), Reconcile];
    ws := [w0, w1, w2, w3, w4];
  }

  lemma NeverReported(s: Snapshot, e: Entry)
    requires s.protection == map[] && "CV" in e.expected
    ensures !Matched(e, s, 2)
  {
    assert !MatchesOne(NO_PROTECTION, "CV", e.expected["CV"]);
  }

  /** A step that only moves the work of a refresh on. */
  predicate SameRefresh(r: Refresh, r': Refresh, next: nat) {
    r.Encoding? && r'.Encoding? && r'.s == r.s && r'.h == r.h && r'.swept == r.swept && r'.work.next == next
  }

  lemma BuildAggregate(w: World, cfg: Setup, s: Snapshot) returns (e: Event)
    requires w.refresh.Encoding? && w.refresh.s == s && w.refresh.work.next == 0 && w.entries == map[] && s.protection == map[]
    ensures Enabled(w, e, cfg) && SameRefresh(w.refresh, Next(w, e, cfg).refresh, 1)
  {
    hide IsAggregateBank, InverterRegs;
    var bank := SomeAggregateBank(s, cfg);
    e := EncodeAggregate(bank);
  }

  lemma BuildInverter(w: World, cfg: Setup)
    requires w.refresh.Encoding? && 0 < w.refresh.work.next <= |w.refresh.s.inverters|
    ensures Enabled(w, EncodeInverter, cfg) && SameRefresh(w.refresh, Next(w, EncodeInverter, cfg).refresh, w.refresh.work.next + 1)
  {
    hide InverterRegs, Lookup;
  }

  /** The rest of a refresh of one inverter: the two banks are built and published. */
  lemma OneInverterIsPublished(ws: seq<World>, es: seq<Event>, cfg: Setup, s: Snapshot) returns (ws': seq<World>, es': seq<Event>)
    requires IsRun(ws, es, cfg) && ws[|es|].refresh.Encoding? && ws[|es|].refresh.s == s
    requires |s.inverters| == 1 && s.protection == map[] && ws[|es|].entries == map[] && ws[|es|].refresh.work.next == 0
    ensures IsRun(ws', es', cfg) && |es'| == |es| + 3 && es < es' && ws < ws' && es'[|es| + 2] == Publish
    ensures SameRefresh(ws[|es|].refresh, ws'[|es| + 2].refresh, 2)
  {
    hide IsRun, Next;
    var e := BuildAggregate(ws[|es|], cfg, s);
    RunsExtend(ws, es, cfg, e);
    ws', es' := ws + [Next(ws[|es|], e, cfg)], es + [e];
    BuildInverter(ws'[|es'|], cfg);
    RunsExtend(ws', es', cfg, EncodeInverter);
    ws', es' := ws' + [Next(ws'[|es'|], EncodeInverter, cfg)], es' + [EncodeInverter];
    RunsExtend(ws', es', cfg, Publish);
    ws', es' := ws' + [Next(ws'[|es'|], Publish, cfg)], es' + [Publish];
  }

  /** A run in which a request fails and its inverter's bank never says so: the failed
      request is pruned by the refresh that fails it, and the published result is
      COMPLETED with counter 0. */
  lemma FailureCanBeHidden(cfg: Setup) returns (ws: seq<World>, es: seq<Event>)
    requires cfg.grace == 5 * SECOND
    ensures IsRun(ws, es, cfg) && |es| == 8 && es[0] == DISABLE && es[3] == Reconcile && es[7] == Publish
    ensures Key(2, FreqDroop.MODEL) in ws[4].entries && ws[4].entries[Key(2, FreqDroop.MODEL)].rslt == FAILED
    ensures 2 in ws[8].banks && Result(ws[8].banks[2]) == (COMPLETED, 0)
  {
    var start, events := LateRefresh(cfg);
    var w5 := Next(start[4], Prune, cfg);
    assert w5.entries == map[] && FlippedToFailed(w5.refresh.h, Key(2, FreqDroop.MODEL));
    RunsExtend(start, events, cfg, Prune);
    hide Next, Enabled, IsRun, InverterRegs, IsAggregateBank, Result;
    ws, es := OneInverterIsPublished(start + [w5], events + [Prune], cfg, ONE_INVERTER);
    assert ws[4] == (start + [w5])[4] == start[4] && es[0] == (events + [Prune])[0] && es[3] == (events + [Prune])[3];
    PublishedFailure(ws, es, cfg);
  }

  lemma PublishedFailure(ws: seq<World>, es: seq<Event>, cfg: Setup)
    requires IsRun(ws, es, cfg) && |es| == 8 && es[7] == Publish && ws[7].refresh.Encoding? && ws[7].refresh.s == ONE_INVERTER
    requires var h, key := ws[7].refresh.h, Key(2, FreqDroop.MODEL);
             FlippedToFailed(h, key) && key !in h.again && ws[7].refresh.swept > h.before[key].deadline + cfg.grace
    ensures 2 in ws[8].banks && Result(ws[8].banks[2]) == (COMPLETED, 0)
  {
    hide IsRun, Result;
    FailureIsPublishedOnlyInTime(ws, es, cfg, 7, 2);
  }

  lemma SomeAggregateBank(s: Snapshot, cfg: Setup) returns (bank: seq<u16>)
    requires s.protection == map[]
    ensures IsAggregateBank(bank, s, cfg.opt, cfg.env, (COMPLETED, 0))
  {
    hide Encoder.AggregateBlocks, Banks.BankRegs;
    bank := Banks.BankRegs(Encoder.AggregateBlocks(s, cfg.opt, cfg.env, NO_PROTECTION, 0, COMPLETED, 0));
    assert Encoder.IsAggregateProtection(s, NO_PROTECTION) && Encoder.IsNominalVRef(s, 0);
  }

  // ---- Lifecycle ------------------------------------------------------------------------------

  predicate Tracks(e: Event, key: Key) {
    e.Track? && e.key == key
  }

  /** The reconciliation that settles a request. */
  ghost predicate SettledBy(w: World, e: Event, key: Key, rslt: u16) {
    && e == Reconcile && w.refresh.Fresh? && key in w.entries && w.entries[key].rslt == IN_PROGRESS
    && rslt == (if Matched(w.entries[key], w.refresh.s, key.unit) then COMPLETED else FAILED)
    && (rslt == FAILED ==> w.now > w.entries[key].deadline)
  }

  /** One step of any kind, seen by one request that is not replaced: its result moves only
      from IN_PROGRESS and only in a reconciliation, everything else about it stays, and
      it disappears only by pruning once settled. */
  lemma StepMoves(w: World, e: Event, cfg: Setup, key: Key)
    requires Enabled(w, e, cfg) && key in w.entries && !Tracks(e, key)
    ensures var n, was := Next(w, e, cfg), w.entries[key];
            if key in n.entries then
              && n.entries[key].(rslt := was.rslt) == was
              && (n.entries[key].rslt != was.rslt ==> SettledBy(w, e, key, n.entries[key].rslt))
            else e == Prune && was.rslt != IN_PROGRESS && w.now > was.deadline + cfg.grace
  {
    hide InverterRegs, IsAggregateBank, Matched;
    if e == Reconcile {
      ReconcileMoves(w.entries, w.refresh.s, w.now, key);
    }
  }

  lemma NewKeysAreTracked(w: World, e: Event, cfg: Setup, key: Key)
    requires Enabled(w, e, cfg) && key in Next(w, e, cfg).entries
    ensures key in w.entries || Tracks(e, key)
    ensures Tracks(e, key) ==>
      Next(w, e, cfg).entries[key]
      == Entry(Wrap16((if key in w.entries then w.entries[key].reqCounter else 0) + 1), IN_PROGRESS, e.expected, w.now + WRITE_DEADLINE)
  {
    hide InverterRegs, IsAggregateBank;
  }

  /** How often a key is tracked from step c to step k. */
  function CountTracks(es: seq<Event>, key: Key, c: nat, k: nat): nat
    requires c <= k <= |es|
  {
    if k == c then 0 else CountTracks(es, key, c, k - 1) + if Tracks(es[k - 1], key) then 1 else 0
  }

  /** The request counter is the number of writes since the entry was created, modulo
      2^16. */
  lemma {:induction false} CounterCountsTracks(ws: seq<World>, es: seq<Event>, cfg: Setup, k: nat, key: Key) returns (c: nat)
    requires IsRun(ws, es, cfg) && k <= |es| && key in ws[k].entries
    ensures c < k && Tracks(es[c], key) && key !in ws[c].entries && (forall m :: c < m <= k ==> key in ws[m].entries)
    ensures ws[k].entries[key].reqCounter == Wrap16(CountTracks(es, key, c, k))
    decreases k
  {
    hide Next, Enabled, Matched, InverterRegs, IsAggregateBank;
    assert k > 0;
    NewKeysAreTracked(ws[k - 1], es[k - 1], cfg, key);
    if key !in ws[k - 1].entries {
      c := k - 1;
    } else {
      c := CounterCountsTracks(ws, es, cfg, k - 1, key);
      if !Tracks(es[k - 1], key) {
        StepMoves(ws[k - 1], es[k - 1], cfg, key);
      }
    }
  }

  /** Every settled result has a witness: the write that made the request, and after it the
      one reconciliation that settled it - COMPLETED on a snapshot that shows all expected
      values, FAILED strictly after the deadline on one that does not. */
  lemma {:induction false} ResultHasWitness(ws: seq<World>, es: seq<Event>, cfg: Setup, k: nat, key: Key) returns (t: nat, m: nat)
    requires IsRun(ws, es, cfg) && k <= |es| && key in ws[k].entries
    ensures t < k && Tracks(es[t], key) && forall i :: t < i < k ==> !Tracks(es[i], key)
    ensures var e := ws[k].entries[key];
            && e.expected == es[t].expected && e.deadline == ws[t].now + WRITE_DEADLINE
            && (e.rslt == IN_PROGRESS || e.rslt == COMPLETED || e.rslt == FAILED)
            && (e.rslt != IN_PROGRESS ==>
                  t < m < k && SettledBy(ws[m], es[m], key, e.rslt) && ws[m].entries[key] == e.(rslt := IN_PROGRESS))
    decreases k
  {
    hide Next, Enabled, Matched, InverterRegs, IsAggregateBank;
    assert k > 0;
    NewKeysAreTracked(ws[k - 1], es[k - 1], cfg, key);
    if Tracks(es[k - 1], key) {
      t, m := k - 1, k - 1;
    } else {
      t, m := ResultHasWitness(ws, es, cfg, k - 1, key);
      StepMoves(ws[k - 1], es[k - 1], cfg, key);
      if ws[k].entries[key].rslt != ws[k - 1].entries[key].rslt {
        m := k - 1;
      }
    }
  }

  /** After each refresh no entry is older than its deadline plus one interval, counted from
      the reconciliation. */
  lemma EntriesAreNeverOld(ws: seq<World>, es: seq<Event>, cfg: Setup, k: nat, key: Key)
    requires IsRun(ws, es, cfg) && k < |es| && es[k] == Publish && key in ws[k + 1].entries
    ensures ws[k].refresh.Encoding? && ws[k + 1].entries[key].deadline + cfg.grace >= ws[k].refresh.h.at
  {
    Always(ws, es, cfg, k);
    PublishStores(ws, es, cfg, k);
    var r := ws[k].refresh;
    if key !in r.h.again {
      ReconcileMoves(r.h.before, r.s, r.h.at, key);
    }
  }
}
