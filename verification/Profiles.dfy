/** Inverter families and write routes (internal/server/profiles.go), and the window
    tests of the model writers (internal/server/controls_writer.go). */
module Profiles {
  import opened Prelude
  import opened Commands

  datatype Family = Unknown | DS3 | QT2 | QS1A | YC600 | YC1000

  datatype Route = Direct | GridProfile | Unsupported

  function FamilyForModel(code: int): Family {
    match code
    case 0x07 => YC600
    case 0x17 => YC600
    case 0x08 => QS1A
    case 0x18 => QS1A
    case 0x05 => YC1000
    case 0x06 => YC1000
    case 0x20 => DS3
    case 0x21 => DS3
    case 0x22 => DS3
    case 0x36 => DS3
    case 0x29 => QT2
    case 0x30 => QT2
    case 0x31 => QT2
    case 0x32 => QT2
    case _ => Unknown
  }

  function RouteFor(family: Family, param: Param): Route {
    match family
    case Unknown => Unsupported
    case QS1A =>
      if param == RecoverHigh || param == DroopSlope || param == DroopDelay then Unsupported else Direct
    case _ => Direct
  }

  // ---- Windows --------------------------------------------------------------------------

  /** Section 6.12 of the Modbus Application Protocol Specification V1.1b3 bounds a write
      to 123 registers. */
  const MAX_WRITE: nat := 123

  /** Does a write of `regs` at body offset `off` cover the register at `field`? */
  predicate Touches(off: u16, regs: seq<u16>, field: u16) {
    field >= off && Wrap16(|regs|) > field - off
  }

  /** The value written to a register, zero when the write does not cover it. */
  function ReadField(off: u16, regs: seq<u16>, field: u16): u16 {
    if Touches(off, regs, field) && field - off < |regs| then regs[field - off] else 0
  }
}
