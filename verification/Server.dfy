/** The server: publication, routing and the register handlers
    (internal/server/server.go). */
module Server {
  import opened Prelude
  import opened Snapshots
  import opened Banks
  import opened Publication
  import Encoder
  import Models
  import Walker
  import Layout
  import Commands
  import Profiles
  import Controls
  import FreqDroop
  import FreqWattCurve
  import Tracker
  import Reverter
  import ControlsWriter
  import EnterServiceWriter
  import DroopWriter
  import CurveWriter

  // ---- Publication --------------------------------------------------------------------------

  /** The last inverter among the first n whose 8-bit unit identifier is u. */
  function Holder(u: u8, n: nat): (r: Option<nat>)
    ensures r.Some? ==> r.value < n && UnitOf(r.value) == u
    ensures r.None? ==> forall i :: 0 <= i < n ==> UnitOf(i) != u
  {
    if n == 0 then None else if UnitOf(n - 1) == u then Some(n - 1) else Holder(u, n - 1)
  }

  function AnswerFor(entries: Tracker.Entries, u: u8): (u16, u16) {
    Tracker.Lookup(entries, Tracker.Key(u, FreqDroop.MODEL))
  }

  ghost predicate BankHeld(banks: map<u8, seq<u16>>, s: Snapshot, opt: Encoder.Options, env: Models.Env,
                           entries: Tracker.Entries, n: nat, u: u8)
    requires n <= |s.inverters|
  {
    match Holder(u, n)
    case Some(i) => u in banks && banks[u] == InverterRegs(s, i, opt, env, AnswerFor(entries, u))
    case None =>
      if u == 1 then 1 in banks && IsAggregateBank(banks[1], s, opt, env, AnswerFor(entries, 1)) else u !in banks
  }

  /** The banks after the first n inverters: identifiers wrap, the last one stays. */
  ghost predicate BanksHeld(banks: map<u8, seq<u16>>, s: Snapshot, opt: Encoder.Options, env: Models.Env,
                            entries: Tracker.Entries, n: nat)
    requires n <= |s.inverters|
  {
    forall u: u8 :: BankHeld(banks, s, opt, env, entries, n, u)
  }

  lemma NextBank(banks: map<u8, seq<u16>>, bank: seq<u16>, s: Snapshot, opt: Encoder.Options, env: Models.Env,
                 entries: Tracker.Entries, i: nat)
    requires i < |s.inverters| && BanksHeld(banks, s, opt, env, entries, i)
    requires bank == InverterRegs(s, i, opt, env, AnswerFor(entries, UnitOf(i)))
    ensures BanksHeld(banks[UnitOf(i) := bank], s, opt, env, entries, i + 1)
  {
    hide InverterRegs, IsAggregateBank, AnswerFor, UnitOf;
    var more, n := banks[UnitOf(i) := bank], i + 1;
    forall u: u8
      ensures BankHeld(more, s, opt, env, entries, n, u)
    {
      assert BankHeld(banks, s, opt, env, entries, i, u);
    }
  }

  method BuildBanks(s: Snapshot, opt: Encoder.Options, env: Models.Env, tracker: Tracker.WriteTracker)
    returns (banks: map<u8, seq<u16>>)
    ensures BanksHeld(banks, s, opt, env, tracker.entries, |s.inverters|)
  {
    hide Encoder.AggregateBlocks, Encoder.InverterBlocks, BankRegs;
    var rslt, req := tracker.Get(1, FreqDroop.MODEL);
    var agg, p, vref := Encoder.Encode(s, opt, env, rslt, req);
    banks := map[1 := agg.regs];
    for i := 0 to |s.inverters|
      invariant BanksHeld(banks, s, opt, env, tracker.entries, i)
    {
      var inv := s.inverters[i];
      var unit := Wrap8(2 + i);
      rslt, req := tracker.Get(unit, FreqDroop.MODEL);
      var b := Encoder.EncodePerInverter(inv, unit, opt, env, ProtectionOf(s, inv.uid), rslt, req);
      assert b.regs == InverterRegs(s, i, opt, env, AnswerFor(tracker.entries, unit));
      NextBank(banks, b.regs, s, opt, env, tracker.entries, i);
      banks := banks[unit := b.regs];
    }
  }

  /** Up to 254 inverters the units are 1 for the fleet and 2, 3, ... in order. */
  lemma {:induction false} HolderIsOwn(u: u8, n: nat)
    requires n <= Layout.MAX_FLEET
    ensures Holder(u, n) == if 2 <= u < n + 2 then Some(u - 2) else None
  {
    if n > 0 {
      HolderIsOwn(u, n - 1);
    }
  }

  lemma {:induction false} HolderLasts(u: u8, m: nat, n: nat)
    requires m <= n && Holder(u, m).Some?
    ensures Holder(u, n).Some?
  {
    if m < n {
      HolderLasts(u, m, n - 1);
    }
  }

  /** The aggregate bank stays reachable exactly for fleets of at most 255 inverters: the
      256th takes its unit identifier. */
  lemma AggregateSurvives(n: nat)
    ensures Holder(1, n).None? <==> n <= 255
  {
    if n <= 255 {
      if Holder(1, n).Some? {
        assert UnitOf(Holder(1, n).value) == 1;
      }
    } else {
      assert UnitOf(255) == 1;
      HolderLasts(1, 256, n);
    }
  }

  function BankFor(banks: Option<map<u8, seq<u16>>>, u: u8): Option<seq<u16>> {
    match banks
    case None => None
    case Some(m) => if u in m then Some(m[u]) else if 1 in m then Some(m[1]) else None
  }

  /** Registers one after the other, in 16-bit addresses. */
  function Registers(bank: seq<u16>, addr: u16, n: nat): (r: seq<u16>)
    ensures |r| == n && forall j :: 0 <= j < n ==> r[j] == At(bank, Wrap16(addr + j))
  {
    if n == 0 then [] else Registers(bank, addr, n - 1) + [At(bank, Wrap16(addr + n - 1))]
  }

  /** What a client reads. */
  function Read(banks: Option<map<u8, seq<u16>>>, u: u8, addr: u16, quantity: u16): Option<seq<u16>> {
    match BankFor(banks, u)
    case None => None
    case Some(bank) =>
      if Contains(bank, addr, quantity) then
        Some(Registers(bank, addr, quantity))
      else None
  }

  /** The unit whose bank a client sees: its own for a mapped unit, otherwise the fleet's. */
  function SeenUnit(s: Snapshot, u: u8): u8 {
    if 2 <= u && u - 2 < |s.inverters| then u else 1
  }

  /** Reading, in registers: with the banks of a fleet of at most 254 inverters published, a
      read on any unit returns exactly the addressed registers of the bank it sees if the
      window lies inside that bank, and is refused otherwise. */
  lemma ReadsInRegisters(banks: map<u8, seq<u16>>, s: Snapshot, opt: Encoder.Options, env: Models.Env, entries: Tracker.Entries,
                         u: u8, addr: u16, quantity: u16)
    requires |s.inverters| <= Layout.MAX_FLEET && BanksHeld(banks, s, opt, env, entries, |s.inverters|)
    ensures SeenUnit(s, u) in banks
    ensures var bank := banks[SeenUnit(s, u)];
            Read(Some(banks), u, addr, quantity)
            == if BASE <= addr && 0 < quantity && addr + quantity <= BASE + |bank| then Some(bank[addr - BASE..][..quantity]) else None
  {
    hide BanksHeld, Printed;
    BanksArePrinted(banks, s, opt, env, entries, u);
    BanksArePrinted(banks, s, opt, env, entries, 1);
    var bank := banks[SeenUnit(s, u)];
    PrintedFits(bank, if SeenUnit(s, u) == 1 then Layout.AGGREGATE else Layout.PER_INVERTER, if SeenUnit(s, u) == 1 then 6 else 5);
    ReadOfBank(banks, u, bank, addr, quantity);
  }

  lemma PrintedFits(regs: seq<u16>, l: Layout.Layout, first: nat)
    requires Printed(regs, l, first)
    ensures BASE + |regs| <= 0xFFFF
  {
    hide BankRegs;
  }

  lemma ReadOfBank(banks: map<u8, seq<u16>>, u: u8, bank: seq<u16>, addr: u16, quantity: u16)
    requires BankFor(Some(banks), u) == Some(bank) && BASE + |bank| <= 0xFFFF
    ensures Read(Some(banks), u, addr, quantity)
         == if BASE <= addr && 0 < quantity && addr + quantity <= BASE + |bank| then Some(bank[addr - BASE..][..quantity]) else None
  {
    ContainsInside(bank, addr, quantity);
    hide Contains, Registers;
    if Contains(bank, addr, quantity) {
      RegistersInside(bank, addr, quantity);
    }
  }

  lemma ContainsInside(bank: seq<u16>, addr: u16, quantity: u16)
    requires BASE + |bank| <= 0xFFFF
    ensures Contains(bank, addr, quantity) <==> BASE <= addr && 0 < quantity && addr + quantity <= BASE + |bank|
  {
  }

  lemma {:induction false} RegistersInside(bank: seq<u16>, addr: u16, n: nat)
    requires BASE <= addr && addr + n <= BASE + |bank| <= 0xFFFF
    ensures Registers(bank, addr, n) == bank[addr - BASE..][..n]
  {
    if n > 0 {
      RegistersInside(bank, addr, n - 1);
      assert Wrap16(addr + n - 1) == addr + n - 1;
      assert bank[addr - BASE..][..n] == bank[addr - BASE..][..n - 1] + [bank[addr - BASE + n - 1]];
    }
  }

  /** A client that reads the 22 body registers of Model 711 on a unit. */
  lemma DroopIsRead(banks: map<u8, seq<u16>>, u: u8, bank: seq<u16>, l: Layout.Layout, first: nat, addr: u16) returns (out: seq<u16>)
    requires BankFor(Some(banks), u) == Some(bank) && Printed(bank, l, first) && addr == l.droop + 2
    ensures Read(Some(banks), u, addr, 22) == Some(out)
    ensures |out| == 22 && forall j :: 0 <= j < 22 ==> out[j] == Field(bank, l.droop, j)
  {
    PrintedFits(bank, l, first);
    BodiesInBank(bank, l, first, DroopModel);
    hide Printed;
    ReadOfBank(banks, u, bank, addr, 22);
    out := bank[addr - BASE..][..22];
  }

  // ---- Routing --------------------------------------------------------------------------------

  /** The models a client may write, in the order they are tried. */
  datatype Model = ControlsModel | EnterServiceModel | DroopModel | CurveModel

  const CANDIDATES: seq<Model> := [ControlsModel, EnterServiceModel, DroopModel, CurveModel]

  function IdOf(m: Model): u16 {
    match m
    case ControlsModel => 123
    case EnterServiceModel => 703
    case DroopModel => 711
    case CurveModel => 134
  }

  function BodyLen(m: Model): u16 {
    match m
    case ControlsModel => 24
    case EnterServiceModel => 17
    case DroopModel => 22
    case CurveModel => 68
  }

  /** The window test, in 16-bit arithmetic: the offset into the body if it passes. */
  function Offset(bank: seq<u16>, m: Model, addr: u16, quantity: u16): Option<u16> {
    match Walker.Find(bank, IdOf(m), BASE + 2)
    case None => None
    case Some(base) =>
      var bodyStart := Wrap16(base + 2);
      var bodyEnd := Wrap16(bodyStart + BodyLen(m));
      if addr < bodyStart || Wrap16(addr + quantity) > bodyEnd then None else Some(Wrap16(addr - bodyStart))
  }

  /** The first candidate from position k on whose window test passes. */
  function RouteFrom(bank: seq<u16>, addr: u16, quantity: u16, k: nat): Option<(Model, u16)>
    requires k <= 4
    decreases 4 - k
  {
    if k == 4 then None
    else match Offset(bank, CANDIDATES[k], addr, quantity)
      case Some(off) => Some((CANDIDATES[k], off))
      case None => RouteFrom(bank, addr, quantity, k + 1)
  }

  /** Where the body of a model is in a laid-out bank. */
  function BodyStart(l: Layout.Layout, m: Model): int {
    match m
    case ControlsModel => l.controls + 2
    case EnterServiceModel => l.enterService + 2
    case DroopModel => l.droop + 2
    case CurveModel => l.curve + 2
  }

  predicate InBody(l: Layout.Layout, m: Model, addr: u16, quantity: u16) {
    BodyStart(l, m) <= addr && addr + quantity <= BodyStart(l, m) + BodyLen(m)
  }

  /** Some printed bank with the given layout. */
  ghost predicate Printed(regs: seq<u16>, l: Layout.Layout, first: nat) {
    exists bs :: Layout.LaidOut(bs, l, first) && regs == BankRegs(bs)
  }

  predicate KnownLayout(l: Layout.Layout) {
    l == Layout.AGGREGATE || l == Layout.PER_INVERTER
  }

  lemma FoundInLayout(bank: seq<u16>, l: Layout.Layout, first: nat, m: Model)
    requires Printed(bank, l, first)
    ensures Walker.Find(bank, IdOf(m), BASE + 2) == Some(BodyStart(l, m) - 2)
  {
    hide Walker.Find, BankRegs, Layout.LaidOut;
    var bs :| Layout.LaidOut(bs, l, first) && bank == BankRegs(bs);
    Layout.WritableModelsAreFound(bs, l, first);
  }

  lemma OffsetInLayout(bank: seq<u16>, l: Layout.Layout, first: nat, m: Model, addr: u16, quantity: u16)
    requires Printed(bank, l, first) && KnownLayout(l)
    ensures Offset(bank, m, addr, quantity)
         == if BodyStart(l, m) <= addr && Wrap16(addr + quantity) <= BodyStart(l, m) + BodyLen(m) then Some(addr - BodyStart(l, m)) else None
  {
    hide Walker.Find, Printed;
    FoundInLayout(bank, l, first, m);
  }

  lemma BodiesAreDisjoint(l: Layout.Layout, addr: u16, quantity: u16, m: Model, other: Model)
    requires KnownLayout(l) && InBody(l, m, addr, quantity) && InBody(l, other, addr, quantity)
    ensures other == m
  {
  }

  lemma RouteUnfolds(bank: seq<u16>, addr: u16, quantity: u16)
    ensures RouteFrom(bank, addr, quantity, 0)
         == if Offset(bank, ControlsModel, addr, quantity).Some? then Some((ControlsModel, Offset(bank, ControlsModel, addr, quantity).value))
            else if Offset(bank, EnterServiceModel, addr, quantity).Some? then Some((EnterServiceModel, Offset(bank, EnterServiceModel, addr, quantity).value))
            else if Offset(bank, DroopModel, addr, quantity).Some? then Some((DroopModel, Offset(bank, DroopModel, addr, quantity).value))
            else if Offset(bank, CurveModel, addr, quantity).Some? then Some((CurveModel, Offset(bank, CurveModel, addr, quantity).value))
            else None
  {
    hide Offset;
    assert RouteFrom(bank, addr, quantity, 4) == None;
    assert RouteFrom(bank, addr, quantity, 2) == if Offset(bank, DroopModel, addr, quantity).Some?
      then Some((DroopModel, Offset(bank, DroopModel, addr, quantity).value)) else RouteFrom(bank, addr, quantity, 3);
  }

  /** Unique routing: in a bank the encoder prints, a window inside the 16-bit address space
      is routed to a model exactly when it lies in that model's body, and no other
      model's body contains it (`BodiesAreDisjoint`). */
  lemma RoutingIsExact(bank: seq<u16>, l: Layout.Layout, first: nat, addr: u16, quantity: u16, m: Model, off: u16)
    requires Printed(bank, l, first) && KnownLayout(l) && addr + quantity <= 0xFFFF
    ensures RouteFrom(bank, addr, quantity, 0) == Some((m, off)) <==> InBody(l, m, addr, quantity) && off == addr - BodyStart(l, m)
  {
    hide Offset, Printed, KnownLayout, BodyStart, RouteFrom;
    RouteUnfolds(bank, addr, quantity);
    forall other
      ensures Offset(bank, other, addr, quantity) == if InBody(l, other, addr, quantity) then Some(addr - BodyStart(l, other)) else None
      ensures InBody(l, m, addr, quantity) && InBody(l, other, addr, quantity) ==> other == m
    {
      OffsetInLayout(bank, l, first, other, addr, quantity);
      if InBody(l, m, addr, quantity) && InBody(l, other, addr, quantity) {
        BodiesAreDisjoint(l, addr, quantity, m, other);
      }
    }
  }

  lemma BodiesInBank(bank: seq<u16>, l: Layout.Layout, first: nat, m: Model)
    requires Printed(bank, l, first)
    ensures BodyStart(l, m) + BodyLen(m) <= BASE + |bank|
  {
    hide BankRegs, Walker.HeaderAt, Walker.AllSound;
    var bs :| Layout.LaidOut(bs, l, first) && bank == BankRegs(bs);
    Walker.PrintedBlock(bs, first);
    Walker.PrintedBlock(bs, first + 5);
    Walker.PrintedBlock(bs, first + 6);
    Walker.PrintedBlock(bs, first + 7);
  }

  /** A window whose end wraps past 65535 passes the first window test, whatever is there,
      and is routed to Model 123 far outside its body. */
  lemma WrappedWindowsReachControls(bank: seq<u16>, l: Layout.Layout, first: nat, addr: u16, quantity: u16)
    requires Printed(bank, l, first) && KnownLayout(l) && quantity <= Profiles.MAX_WRITE && addr + quantity > 0xFFFF
    ensures RouteFrom(bank, addr, quantity, 0) == Some((ControlsModel, addr - BodyStart(l, ControlsModel)))
    ensures addr - BodyStart(l, ControlsModel) > BodyLen(ControlsModel)
  {
    OffsetInLayout(bank, l, first, ControlsModel, addr, quantity);
    hide Offset, Printed;
  }

  /** Every bank of a fleet of at most 254 inverters is printed with one of the two
      layouts. */
  lemma BanksArePrinted(banks: map<u8, seq<u16>>, s: Snapshot, opt: Encoder.Options, env: Models.Env, entries: Tracker.Entries, u: u8)
    requires |s.inverters| <= Layout.MAX_FLEET && BanksHeld(banks, s, opt, env, entries, |s.inverters|)
    ensures u in banks <==> u == 1 || Mapped(s, u)
    ensures u in banks ==> if u == 1 then Printed(banks[u], Layout.AGGREGATE, 6) else Printed(banks[u], Layout.PER_INVERTER, 5)
  {
    hide InverterRegs, IsAggregateBank, Holder, Printed;
    HolderIsOwn(u, |s.inverters|);
    assert BankHeld(banks, s, opt, env, entries, |s.inverters|, u);
    if u == 1 {
      AggregateIsPrinted(banks[1], s, opt, env, AnswerFor(entries, 1));
    } else if Mapped(s, u) {
      InverterIsPrinted(s, u - 2, opt, env, AnswerFor(entries, u));
    }
  }

  lemma AggregateIsPrinted(regs: seq<u16>, s: Snapshot, opt: Encoder.Options, env: Models.Env, ans: (u16, u16))
    requires |s.inverters| <= Layout.MAX_FLEET && IsAggregateBank(regs, s, opt, env, ans)
    ensures Printed(regs, Layout.AGGREGATE, 6)
  {
    hide Layout.LaidOut, Encoder.AggregateBlocks, BankRegs, Encoder.IsAggregateProtection, Encoder.IsNominalVRef;
    var p, vref :| Encoder.IsAggregateProtection(s, p) && Encoder.IsNominalVRef(s, vref)
                   && regs == BankRegs(Encoder.AggregateBlocks(s, opt, env, p, vref, ans.0, ans.1));
    Layout.AggregateIsLaidOut(s, opt, env, p, vref, ans.0, ans.1);
    assert Layout.LaidOut(Encoder.AggregateBlocks(s, opt, env, p, vref, ans.0, ans.1), Layout.AGGREGATE, 6);
  }

  lemma InverterIsPrinted(s: Snapshot, i: nat, opt: Encoder.Options, env: Models.Env, ans: (u16, u16))
    requires i < |s.inverters|
    ensures Printed(InverterRegs(s, i, opt, env, ans), Layout.PER_INVERTER, 5)
  {
    hide Layout.LaidOut, Encoder.InverterBlocks, BankRegs, ProtectionOf;
    var inv := s.inverters[i];
    var p := ProtectionOf(s, inv.uid);
    Layout.InverterIsLaidOut(inv, UnitOf(i), opt, env, p, ans.0, ans.1);
    assert Layout.LaidOut(Encoder.InverterBlocks(inv, UnitOf(i), opt, env, p, ans.0, ans.1), Layout.PER_INVERTER, 5);
  }

  // ---- Writing ----------------------------------------------------------------------------------

  /** What a write can change. */
  datatype State = State(db: Commands.Db, rev: Reverter.State, entries: Tracker.Entries)

  datatype Response = Applied | IllegalFunction | IllegalDataAddress | IllegalDataValue | DeviceFailure

  /** One model's writer. */
  function Dispatched(m: Model, off: u16, s: Snapshot, unit: u8, regs: seq<u16>, fate: Commands.Fate, st: State, now: int): (State, bool)
    requires Reverter.Indexed(st.rev)
  {
    match m
    case ControlsModel =>
      var r := ControlsWriter.Result(s, unit, off, regs, fate, st.db, st.rev, now);
      (State(r.db, r.timers, st.entries), r.ok)
    case EnterServiceModel =>
      var (d, ok) := EnterServiceWriter.Result(s, unit, off, regs, fate, st.db);
      (st.(db := d), ok)
    case DroopModel =>
      var r := DroopWriter.Result(s, unit, off, regs, fate, st.db);
      (State(r.db, st.rev, DroopWriter.Noted(st.entries, Tracker.Key(unit, FreqDroop.MODEL), r.track, now)), r.ok)
    case CurveModel =>
      var r := CurveWriter.Result(s, unit, off, regs, fate, st.db);
      (State(r.db, st.rev, DroopWriter.Noted(st.entries, Tracker.Key(unit, FreqWattCurve.MODEL), r.track, now)), r.ok)
  }

  /** A whole request against the published banks and snapshot. */
  function Handled(permitted: bool, banks: Option<map<u8, seq<u16>>>, snap: Option<Snapshot>, unit: u8, addr: u16, regs: seq<u16>,
                   fate: Commands.Fate, st: State, now: int): (State, Response)
    requires Reverter.Indexed(st.rev) && |regs| <= Profiles.MAX_WRITE
  {
    if !permitted then (st, IllegalFunction)
    else match BankFor(banks, unit)
      case None => (st, IllegalDataAddress)
      case Some(bank) =>
        match snap
        case None => (st, DeviceFailure)
        case Some(s) =>
          match RouteFrom(bank, addr, |regs|, 0)
          case None => (st, IllegalDataAddress)
          case Some(route) =>
            var (st', ok) := Dispatched(route.0, route.1, s, unit, regs, fate, st, now);
            (st', if ok then Applied else IllegalDataValue)
  }

  class Server {
    var banks: Option<map<u8, seq<u16>>>
    var snap: Option<Snapshot>
    const tracker: Tracker.WriteTracker
    const reverter: Reverter.Reverter
    const writer: Commands.Writer
    const opt: Encoder.Options
    const env: Models.Env
    const refreshInterval: nat

    constructor (writer: Commands.Writer, opt: Encoder.Options, env: Models.Env, refreshInterval: nat)
      ensures banks == None && snap == None && fresh(tracker) && fresh(reverter)
      ensures View() == State(writer.State(), Reverter.EMPTY, map[]) && Reverter.Valid(reverter.View())
    {
      banks, snap := None, None;
      tracker := new Tracker.WriteTracker();
      reverter := new Reverter.Reverter();
      this.writer, this.opt, this.env, this.refreshInterval := writer, opt, env, refreshInterval;
    }

    ghost function View(): State
      reads tracker, reverter, writer
    {
      State(writer.State(), reverter.View(), tracker.entries)
    }

    /** A failing build leaves everything as it was. */
    method Refresh(built: Option<Snapshot>, judgedAt: int, sweptAt: int) returns (ok: bool)
      modifies this`banks, this`snap, tracker
      ensures ok == built.Some?
      ensures !ok ==> banks == old(banks) && snap == old(snap) && tracker.entries == old(tracker.entries)
      ensures ok ==>
        && snap == built
        && tracker.entries == Tracker.Pruned(Tracker.Reconciled(old(tracker.entries), built.value, judgedAt), refreshInterval, sweptAt)
        && banks.Some? && BanksHeld(banks.value, built.value, opt, env, tracker.entries, |built.value.inverters|)
    {
      hide BanksHeld;
      if built.None? {
        return false;
      }
      tracker.Reconcile(built.value, judgedAt);
      tracker.PruneSettled(refreshInterval, sweptAt);
      var all := BuildBanks(built.value, opt, env, tracker);
      banks := Some(all);
      snap := built;
      return true;
    }

    method HandleRead(unit: u8, addr: u16, quantity: u16) returns (r: Option<seq<u16>>)
      ensures r == Read(banks, unit, addr, quantity)
    {
      var bank := BankFor(banks, unit);
      if bank.None? || !Contains(bank.value, addr, quantity) {
        return None;
      }
      var out := Slice(bank.value, addr, quantity);
      assert out == Read(banks, unit, addr, quantity).value;
      return Some(out);
    }

    method TryModel(m: Model, s: Snapshot, unit: u8, off: u16, regs: seq<u16>, now: int) returns (ok: bool)
      requires Reverter.Valid(reverter.View()) && |regs| <= Profiles.MAX_WRITE
      modifies tracker, reverter, writer
      ensures Reverter.Valid(reverter.View())
      ensures (View(), ok) == Dispatched(m, off, s, unit, regs, writer.fate, old(View()), now)
    {
      match m {
        case ControlsModel => ok := ControlsWriter.Apply(unit, s, writer, reverter, off, regs, now);
        case EnterServiceModel => ok := EnterServiceWriter.Apply(unit, s, writer, off, regs);
        case DroopModel => ok := DroopWriter.Apply(unit, s, writer, tracker, off, regs, now);
        case CurveModel => ok := CurveWriter.Apply(unit, s, writer, tracker, off, regs, now);
      }
    }

    /** `permitted` is the decision of the write gate; a permitted write has a database. */
    method HandleWrite(permitted: bool, unit: u8, addr: u16, regs: seq<u16>, now: int) returns (r: Response)
      requires Reverter.Valid(reverter.View()) && |regs| <= Profiles.MAX_WRITE
      modifies tracker, reverter, writer
      ensures Reverter.Valid(reverter.View())
      ensures (View(), r) == Handled(permitted, banks, snap, unit, addr, regs, writer.fate, old(View()), now)
    {
      hide Dispatched;
      if !permitted {
        return IllegalFunction;
      }
      var bank := BankFor(banks, unit);
      if bank.None? {
        return IllegalDataAddress;
      }
      if snap.None? {
        return DeviceFailure;
      }
      var k := 0;
      while k < |CANDIDATES|
        invariant 0 <= k <= 4 && View() == old(View()) && Reverter.Valid(reverter.View())
        invariant RouteFrom(bank.value, addr, |regs|, 0) == RouteFrom(bank.value, addr, |regs|, k)
      {
        var m := CANDIDATES[k];
        k := k + 1;
        var base, found := Walker.FindModelInBank(bank.value, IdOf(m));
        if !found {
          continue;
        }
        var bodyStart := Wrap16(base as int + 2);
        var bodyEnd := Wrap16(bodyStart as int + BodyLen(m));
        if addr < bodyStart || Wrap16(addr + |regs|) > bodyEnd {
          continue;
        }
        var addrOffset := Wrap16(addr as int - bodyStart);
        var ok := TryModel(m, snap.value, unit, addrOffset, regs, now);
        return if ok then Applied else IllegalDataValue;
      }
      return IllegalDataAddress;
    }
  }

  // ---- What the handler guarantees ----------------------------------------------------------------

  /** On a published bank, a request inside the address space is applied only inside the body
      of the one model it lies in, with that model's own effect at the right offset;
      outside every writable body it is refused and changes nothing. */
  lemma WritesHitOneModel(bank: seq<u16>, l: Layout.Layout, first: nat, banks: Option<map<u8, seq<u16>>>, s: Snapshot,
                          unit: u8, addr: u16, regs: seq<u16>, fate: Commands.Fate, st: State, now: int)
    requires Reverter.Indexed(st.rev) && |regs| <= Profiles.MAX_WRITE && addr + |regs| <= 0xFFFF
    requires BankFor(banks, unit) == Some(bank) && Printed(bank, l, first) && KnownLayout(l)
    ensures var (st', r) := Handled(true, banks, Some(s), unit, addr, regs, fate, st, now);
            if exists m :: InBody(l, m, addr, |regs|) then
              exists m :: InBody(l, m, addr, |regs|)
                && (st', r == Applied) == Dispatched(m, addr - BodyStart(l, m), s, unit, regs, fate, st, now)
            else st' == st && r == IllegalDataAddress
  {
    hide Printed, KnownLayout, RouteFrom, Dispatched;
    match RouteFrom(bank, addr, |regs|, 0)
    case Some(route) => RoutingIsExact(bank, l, first, addr, |regs|, route.0, route.1);
    case None =>
      forall m
        ensures !InBody(l, m, addr, |regs|)
      {
        if InBody(l, m, addr, |regs|) {
          RoutingIsExact(bank, l, first, addr, |regs|, m, addr - BodyStart(l, m));
        }
      }
  }

  /** A request whose end wraps past 65535 is never written anywhere, yet it is answered as
      applied whenever the unit stands for some inverter. */
  lemma WrappedWritesChangeNothing(bank: seq<u16>, l: Layout.Layout, first: nat, banks: Option<map<u8, seq<u16>>>, s: Snapshot,
                                   unit: u8, addr: u16, regs: seq<u16>, fate: Commands.Fate, st: State, now: int)
    requires Reverter.Indexed(st.rev) && |regs| <= Profiles.MAX_WRITE && addr + |regs| > 0xFFFF
    requires BankFor(banks, unit) == Some(bank) && Printed(bank, l, first) && KnownLayout(l)
    ensures Handled(true, banks, Some(s), unit, addr, regs, fate, st, now)
         == (st, if ControlsWriter.Targets(s, unit) != [] then Applied else IllegalDataValue)
  {
    hide Printed, KnownLayout, RouteFrom, ControlsWriter.Targets;
    WrappedWindowsReachControls(bank, l, first, addr, |regs|);
    var off: u16 := addr - BodyStart(l, ControlsModel);
    assert ControlsWriter.Written(off, regs, Controls.CONN) == None && ControlsWriter.PowerOf(off, regs) == ControlsWriter.Keep;
  }

  /** Writing, in addresses: with the banks of a fleet of at most 254 inverters published, a
      permitted request has the effect of the one model of the bank its unit sees whose
      body contains the window - the inverter's layout on a mapped unit, the fleet's on
      any other - and otherwise is refused without any effect. */
  lemma WritesInOwnBank(banks: map<u8, seq<u16>>, s: Snapshot, opt: Encoder.Options, env: Models.Env, entries: Tracker.Entries,
                        seen: Snapshot, u: u8, addr: u16, regs: seq<u16>, fate: Commands.Fate, st: State, now: int)
    requires |s.inverters| <= Layout.MAX_FLEET && BanksHeld(banks, s, opt, env, entries, |s.inverters|)
    requires Reverter.Indexed(st.rev) && |regs| <= Profiles.MAX_WRITE && addr + |regs| <= 0xFFFF
    ensures var (st', r) := Handled(true, Some(banks), Some(seen), u, addr, regs, fate, st, now);
            forall m :: InWindow(s, u, m, addr, |regs|) ==>
              (st', r == Applied) == Dispatched(m, addr - FirstRegister(s, u, m), seen, u, regs, fate, st, now)
    ensures (forall m :: !InWindow(s, u, m, addr, |regs|)) ==>
              Handled(true, Some(banks), Some(seen), u, addr, regs, fate, st, now) == (st, IllegalDataAddress)
  {
    hide BanksHeld, Printed, Handled, Dispatched, RouteFrom;
    BanksArePrinted(banks, s, opt, env, entries, u);
    BanksArePrinted(banks, s, opt, env, entries, 1);
    var l, first := if SeenUnit(s, u) == 1 then Layout.AGGREGATE else Layout.PER_INVERTER, if SeenUnit(s, u) == 1 then 6 else 5;
    WritesHitOneModel(banks[SeenUnit(s, u)], l, first, Some(banks), seen, u, addr, regs, fate, st, now);
    forall m
      ensures InWindow(s, u, m, addr, |regs|) <==> InBody(l, m, addr, |regs|)
      ensures FirstRegister(s, u, m) == BodyStart(l, m)
    {
    }
    forall m, other | InBody(l, m, addr, |regs|) && InBody(l, other, addr, |regs|)
      ensures other == m
    {
      BodiesAreDisjoint(l, addr, |regs|, m, other);
    }
  }

  /** The absolute address of the first body register of a writable model. */
  function FirstRegister(s: Snapshot, u: u8, m: Model): u16 {
    var mapped := 2 <= u && u - 2 < |s.inverters|;
    match m
    case ControlsModel => if mapped then 40264 else 40296
    case EnterServiceModel => if mapped then 40468 else 40500
    case DroopModel => if mapped then 40487 else 40519
    case CurveModel => if mapped then 40511 else 40543
  }

  /** The window lies in the model's 24, 17, 22 or 68 registers. */
  predicate InWindow(s: Snapshot, u: u8, m: Model, addr: u16, quantity: u16) {
    var len := match m case ControlsModel => 24 case EnterServiceModel => 17 case DroopModel => 22 case CurveModel => 68;
    FirstRegister(s, u, m) <= addr && addr + quantity <= FirstRegister(s, u, m) + len
  }
}
