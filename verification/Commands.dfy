/** The command tables of the ECU database (internal/source/writer.go). */
module Commands {
  import opened Prelude

  const MIN_PANEL_W: int := 20
  const MAX_PANEL_W: int := 500

  /** The protection parameters the server queues. */
  datatype Param =
    | GridRecovery | DroopStart | DroopSlope | DroopDelay | DroopMode
    | CurveUFLow | CurveUFHigh | CurveOFLow | CurveOFHigh | RecoverHigh

  /** The long-form name stored in the table. */
  function ParamName(p: Param): (name: string)
    ensures name != ""
  {
    match p
    case GridRecovery => "grid_recovery_time"
    case DroopStart => "Over_frequency_Watt_Start_set"
    case DroopSlope => "Over_Frequency_Watt_Slope_set"
    case DroopDelay => "Over_frequency_Watt_Delay_Time_set"
    case DroopMode => "Over_frequency_Watt_set"
    case CurveUFLow => "Under_Frequency_Watt_Low_set"
    case CurveUFHigh => "Under_Frequency_Watt_High_set"
    case CurveOFLow => "Over_frequency_Watt_Low_set"
    case CurveOFHigh => "Over_frequency_Watt_High_set"
    case RecoverHigh => "Over_frequency_Watt_recover_High_set"
  }

  /** The names tell the parameters apart, so tables keyed by either are the same. */
  lemma NamesAreDistinct(p: Param, q: Param)
    ensures ParamName(p) == ParamName(q) <==> p == q
  {
    assert ParamName(CurveUFLow)[0] == 'U' && ParamName(DroopStart)[0] == 'O';
    assert ParamName(DroopStart)[20] == 'S' && ParamName(CurveOFHigh)[20] == 'H' && ParamName(DroopSlope)[5] == 'F';
  }

  /** A row the server writes. */
  datatype Row =
    | CapRow(uid: string, watts: int)
    | SwitchRow(uid: string, on: bool)
    | ParamRow(uid: string, param: Param, value: real)

  datatype Cap = Cap(watts: int, pending: bool)

  /** The tables, the rows written so far, and the number of statements attempted. */
  datatype Db = Db(
    power: map<string, Cap>,
    onOff: map<string, bool>,
    params: map<(string, Param), real>,
    log: seq<Row>,
    attempts: nat)

  /** Does the k-th statement ever attempted succeed?  Every failure pattern of the
      database is some `Fate`. */
  type Fate = nat -> bool

  /** One successful statement: a cap only updates an existing row, the other two
      insert or replace. */
  function Execute(db: Db, row: Row): (r: Db)
    ensures r.log == db.log + [row] && r.attempts == db.attempts
    ensures r.power.Keys == db.power.Keys
  {
    var d := db.(log := db.log + [row]);
    match row
    case CapRow(uid, watts) =>
      if uid in db.power then d.(power := db.power[uid := Cap(watts, true)]) else d
    case SwitchRow(uid, on) => d.(onOff := db.onOff[uid := on])
    case ParamRow(uid, param, value) => d.(params := db.params[(uid, param) := value])
  }

  function Attempt(db: Db, fate: Fate, row: Row): (Db, bool) {
    var d := db.(attempts := db.attempts + 1);
    if fate(db.attempts) then (Execute(d, row), true) else (d, false)
  }

  /** Statements in order, stopping at the first that fails. */
  function AttemptAll(db: Db, fate: Fate, rows: seq<Row>): (r: (Db, bool))
    decreases |rows|
  {
    if rows == [] then (db, true)
    else
      var (d, ok) := Attempt(db, fate, rows[0]);
      if ok then AttemptAll(d, fate, rows[1..]) else (d, false)
  }

  /** Whatever fails, the rows written are a prefix of the rows asked for, and all of
      them exactly when the call succeeds. */
  lemma {:induction false} AttemptAllWritesAPrefix(db: Db, fate: Fate, rows: seq<Row>) returns (n: nat)
    ensures n <= |rows|
    ensures var (d, ok) := AttemptAll(db, fate, rows);
            d.log == db.log + rows[..n] && (ok <==> n == |rows|)
    decreases |rows|
  {
    n := 0;
    if rows != [] {
      var (d, ok) := Attempt(db, fate, rows[0]);
      if ok {
        var m := AttemptAllWritesAPrefix(d, fate, rows[1..]);
        n := m + 1;
        assert rows[..n] == [rows[0]] + rows[1..][..m];
        assert db.log + rows[..n] == db.log + [rows[0]] + rows[1..][..m];
      }
    }
  }

  // ---- Effects of whole batches ----------------------------------------------------

  function CapRows(uids: seq<string>, watts: int): (rows: seq<Row>)
    ensures |rows| == |uids|
  {
    seq(|uids|, i requires 0 <= i < |uids| => CapRow(uids[i], watts))
  }

  function SwitchRows(uids: seq<string>, on: bool): (rows: seq<Row>)
    ensures |rows| == |uids|
  {
    seq(|uids|, i requires 0 <= i < |uids| => SwitchRow(uids[i], on))
  }

  /** A completed batch of caps sets exactly the targets that have a power row and
      touches nothing else. */
  lemma {:induction false} CapsTakeEffect(db: Db, fate: Fate, uids: seq<string>, watts: int)
    ensures var (d, ok) := AttemptAll(db, fate, CapRows(uids, watts));
            && d.onOff == db.onOff && d.params == db.params && d.power.Keys == db.power.Keys
            && (forall u :: u in db.power && u !in uids ==> d.power[u] == db.power[u])
            && (ok ==> forall u :: u in db.power && u in uids ==> d.power[u] == Cap(watts, true))
            && (forall u :: u in db.power ==> d.power[u] == db.power[u] || d.power[u] == Cap(watts, true))
    decreases |uids|
  {
    var rows := CapRows(uids, watts);
    if uids != [] {
      assert rows[1..] == CapRows(uids[1..], watts);
      assert rows[0] == CapRow(uids[0], watts);
      var (d, ok) := Attempt(db, fate, rows[0]);
      if ok {
        CapsTakeEffect(d, fate, uids[1..], watts);
        assert uids == [uids[0]] + uids[1..];
      }
    }
  }

  /** A completed batch of switches sets exactly the targets and touches nothing else. */
  lemma {:induction false} SwitchesTakeEffect(db: Db, fate: Fate, uids: seq<string>, on: bool)
    ensures var (d, ok) := AttemptAll(db, fate, SwitchRows(uids, on));
            && d.power == db.power && d.params == db.params
            && (forall u :: u !in uids ==> (u in d.onOff <==> u in db.onOff) && (u in db.onOff ==> d.onOff[u] == db.onOff[u]))
            && (ok ==> forall u :: u in uids ==> u in d.onOff && d.onOff[u] == on)
            && (forall u :: u in d.onOff ==> d.onOff[u] == on || (u in db.onOff && d.onOff[u] == db.onOff[u]))
            && db.onOff.Keys <= d.onOff.Keys
    decreases |uids|
  {
    var rows := SwitchRows(uids, on);
    if uids != [] {
      assert rows[1..] == SwitchRows(uids[1..], on);
      assert rows[0] == SwitchRow(uids[0], on);
      var (d, ok) := Attempt(db, fate, rows[0]);
      if ok {
        SwitchesTakeEffect(d, fate, uids[1..], on);
        assert uids == [uids[0]] + uids[1..];
      }
    }
  }

  // ---- The writer --------------------------------------------------------------------

  class Writer {
    var power: map<string, Cap>
    var onOff: map<string, bool>
    var params: map<(string, Param), real>
    ghost var log: seq<Row>
    var attempts: nat
    const fate: Fate

    constructor (power: map<string, Cap>, fate: Fate)
      ensures State() == Db(power, map[], map[], [], 0) && this.fate == fate
    {
      this.power, onOff, params, log, attempts := power, map[], map[], [], 0;
      this.fate := fate;
    }

    ghost function State(): Db
      reads this
    {
      Db(power, onOff, params, log, attempts)
    }

    /** Out-of-range watts are refused before any statement is issued. */
    method SetMaxPower(uid: string, watts: int) returns (ok: bool)
      modifies this
      ensures MIN_PANEL_W <= watts <= MAX_PANEL_W ==> (State(), ok) == Attempt(old(State()), fate, CapRow(uid, watts))
      ensures !(MIN_PANEL_W <= watts <= MAX_PANEL_W) ==> State() == old(State()) && !ok
    {
      if watts < MIN_PANEL_W || watts > MAX_PANEL_W {
        return false;
      }
      ok := fate(attempts);
      attempts := attempts + 1;
      if ok {
        if uid in power {
          power := power[uid := Cap(watts, true)];
        }
        log := log + [CapRow(uid, watts)];
      }
    }

    method SetTurnOnOff(uid: string, on: bool) returns (ok: bool)
      modifies this
      ensures (State(), ok) == Attempt(old(State()), fate, SwitchRow(uid, on))
    {
      ok := fate(attempts);
      attempts := attempts + 1;
      if ok {
        onOff := onOff[uid := on];
        log := log + [SwitchRow(uid, on)];
      }
    }

    method RestoreFullPower(uid: string) returns (ok: bool)
      modifies this
      ensures (State(), ok) == Attempt(old(State()), fate, CapRow(uid, MAX_PANEL_W))
    {
      ok := SetMaxPower(uid, MAX_PANEL_W);
    }

    /** An empty inverter identifier is refused. */
    method SetProtectionParam(uid: string, param: Param, value: real) returns (ok: bool)
      modifies this
      ensures uid != "" ==> (State(), ok) == Attempt(old(State()), fate, ParamRow(uid, param, value))
      ensures uid == "" ==> State() == old(State()) && !ok
    {
      if uid == "" {
        return false;
      }
      ok := fate(attempts);
      attempts := attempts + 1;
      if ok {
        params := params[(uid, param) := value];
        log := log + [ParamRow(uid, param, value)];
      }
    }
  }
}
