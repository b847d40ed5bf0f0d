/** Writes to Model 703 (internal/server/enter_service_writer.go). */
module EnterServiceWriter {
  import opened Prelude
  import opened Snapshots
  import opened Commands

  const MIN_RECONNECT_S: int := 10
  const MAX_RECONNECT_S: int := 610

  /** The row of an acceptable write: the exact two-register window of ESDlyTms with a
      value in range, on a unit that names an inverter. */
  function Accepted(s: Snapshot, unit: u8, off: u16, regs: seq<u16>): (r: Option<Row>)
    ensures r.Some? ==> Mapped(s, unit) && r.value.ParamRow? && r.value.uid == s.inverters[unit - 2].uid
                        && r.value.param == GridRecovery && 10.0 <= r.value.value <= 610.0
  {
    if Mapped(s, unit) && off == 7 && |regs| == 2 && MIN_RECONNECT_S <= Join32(regs[0], regs[1]) <= MAX_RECONNECT_S
       && s.inverters[unit - 2].uid != "" then
      Some(ParamRow(s.inverters[unit - 2].uid, GridRecovery, Join32(regs[0], regs[1]) as real))
    else None
  }

  function Result(s: Snapshot, unit: u8, off: u16, regs: seq<u16>, fate: Fate, db: Db): (Db, bool) {
    match Accepted(s, unit, off, regs)
    case Some(row) => Attempt(db, fate, row)
    case None => (db, false)
  }

  /** The effect in registers: on the unit of an identified inverter the two registers at
      offset 7 are queued as seconds if they say 10 to 610; everything else is refused. */
  lemma WriteInRegisters(s: Snapshot, unit: u8, off: u16, regs: seq<u16>, fate: Fate, db: Db)
    ensures ParamName(GridRecovery) == "grid_recovery_time"
    ensures Result(s, unit, off, regs, fate, db)
         == if 2 <= unit && unit - 2 < |s.inverters| && s.inverters[unit - 2].uid != "" && off == 7 && |regs| == 2
               && 10 <= regs[0] as int * 65536 + regs[1] as int <= 610
            then Attempt(db, fate, ParamRow(s.inverters[unit - 2].uid, GridRecovery, (regs[0] as int * 65536 + regs[1] as int) as real))
            else (db, false)
  {
    hide Attempt;
  }

  method Apply(unit: u8, s: Snapshot, writer: Writer, off: u16, regs: seq<u16>) returns (ok: bool)
    modifies writer
    ensures (writer.State(), ok) == Result(s, unit, off, regs, writer.fate, old(writer.State()))
  {
    if unit <= 1 {
      return false;
    }
    var idx := unit as int - 2;
    if idx < 0 || idx >= |s.inverters| {
      return false;
    }
    var uid := s.inverters[idx].uid;
    if off != 7 || |regs| != 2 {
      return false;
    }
    var hi, lo := regs[0], regs[1];
    var seconds := Join32(hi, lo);
    if seconds < MIN_RECONNECT_S || seconds > MAX_RECONNECT_S {
      return false;
    }
    ok := writer.SetProtectionParam(uid, GridRecovery, seconds as real);
  }
}
