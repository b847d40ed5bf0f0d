/** The ECU state the encoder reads (internal/source/snapshot.go, protection.go). */
module Snapshots {
  import opened Prelude

  /** A 32-bit word of flags, as the set of its set bit positions (`Events.WordValue`
      is the number it stands for). */
  type Word = w: set<nat> | forall k :: k in w ==> k < 32

  /** Event flags packed least significant bit first into four 32-bit slots. */
  datatype EventBits = EventBits(w0: Word, w1: Word, w2: Word, w3: Word)

  datatype Inverter = Inverter(
    uid: string,
    online: bool,
    typeCode: string,
    frequencyHz: real,
    temperatureC: int,
    acVoltageV: int,
    acPowerW: int,
    signalStrength: int,
    phase: int,
    model: int,
    softwareVer: int,
    limitedPowerW: int,
    rawTail: seq<int>,
    eventBits: EventBits)

  /** Active grid-protection thresholds of one inverter.  `has` holds the two-letter
      codes the firmware has reported. */
  datatype Protection = Protection(
    uvStg2: real, uvFast: real, ovStg2: real, ovStg3: real, avgOV: real,
    vWinLow: real, vWinHi: real,
    ufSlow: real, ofSlow: real, ufFast: real, ofFast: real,
    reconnectS: real, startS: real,
    uv2ClrS: real, ov2ClrS: real, uv3ClrS: real, ov3ClrS: real,
    uf1ClrS: real, of1ClrS: real, uf2ClrS: real, of2ClrS: real,
    reconnVLow: real, reconnVHi: real, reconnFLow: real, reconnFHi: real,
    pfMode: real,
    ofDroopStart: real, ofDroopEnd: real, ofDroopSlope: real, ofDroopMode: real,
    ofCurveUFLow: real, ofCurveUFHigh: real, ofCurveOFLow: real,
    has: set<string>)

  const NO_PROTECTION := Protection(
    0.0, 0.0, 0.0, 0.0, 0.0, 0.0, 0.0, 0.0, 0.0, 0.0, 0.0, 0.0, 0.0, 0.0, 0.0, 0.0, 0.0,
    0.0, 0.0, 0.0, 0.0, 0.0, 0.0, 0.0, 0.0, 0.0, 0.0, 0.0, 0.0, 0.0, 0.0, 0.0, 0.0, {})

  datatype Snapshot = Snapshot(
    ecuid: string,
    firmware: string,
    model: string,
    pollingInterval: int,
    systemPowerW: int,
    systemMaxPowerW: int,
    lifetimeEnergyWh: nat,
    todayEnergyWh: nat,
    monthEnergyWh: nat,
    yearEnergyWh: nat,
    gridFrequencyHz: real,
    gridVoltageV: real,
    maxTemperatureC: int,
    inverterOnlineCount: int,
    inverters: seq<Inverter>,
    protection: map<string, Protection>)

  /** The protection record of an inverter; the zero record when there is none. */
  function ProtectionOf(s: Snapshot, uid: string): Protection {
    if uid in s.protection then s.protection[uid] else NO_PROTECTION
  }

  /** Unit 2..N+1 names inverter unit-2; units 0 and 1 name the whole fleet. */
  predicate Mapped(s: Snapshot, unit: u8) {
    2 <= unit && unit - 2 < |s.inverters|
  }

  function PanelCount(inv: Inverter): nat {
    if inv.typeCode == "01" || inv.typeCode == "04" then 2
    else if inv.typeCode == "03" then 4
    else 0
  }

  /** One value per panel of an online inverter; empty when offline or when the
      telemetry record is too short. */
  function PanelPowers(inv: Inverter): (powers: seq<int>)
    ensures |powers| <= PanelCount(inv) <= 4
    ensures |powers| == if inv.online && |inv.rawTail| >= PanelCount(inv) + (if inv.typeCode == "03" then 2 else 3)
                        then PanelCount(inv) else 0
  {
    if !inv.online then []
    else if (inv.typeCode == "01" || inv.typeCode == "04") && |inv.rawTail| >= 5 then
      [inv.rawTail[1], inv.rawTail[3]]
    else if inv.typeCode == "03" && |inv.rawTail| >= 6 then
      [inv.rawTail[1], inv.rawTail[3], inv.rawTail[4], inv.rawTail[5]]
    else []
  }

  /** Rated watts: the loaded model table first, then the default of the type code. */
  function NameplateW(inv: Inverter, table: map<int, nat>): nat {
    if inv.model in table then table[inv.model]
    else if inv.typeCode == "01" then 730
    else if inv.typeCode == "03" then 1460
    else if inv.typeCode == "04" then 880
    else 0
  }
}
