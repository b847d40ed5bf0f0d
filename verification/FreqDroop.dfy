/** Model 711, frequency droop (internal/sunspec/freq_droop.go). */
module FreqDroop {
  import opened Prelude
  import opened Snapshots
  import opened Banks

  const MODEL: u16 := 711
  const BODY_LEN: u16 := 22

  const IN_PROGRESS: u16 := 0
  const COMPLETED: u16 := 1
  const FAILED: u16 := 2

  /** Values of the mode parameter (CV). */
  const MODE_ASNZS: int := 13
  const MODE_OTHER: int := 14
  const MODE_DISABLED: int := 15

  /** Offsets inside the body. */
  const ENA: nat := 0
  const ADPT_REQ: nat := 1
  const ADPT_RSLT: nat := 2
  const DBOF_HI: nat := 12
  const DBOF_LO: nat := 13
  const KOF: nat := 16
  const RSPTMS_HI: nat := 18
  const RSPTMS_LO: nat := 19

  function EnaOf(p: Protection): u16 {
    var mode := Trunc(p.ofDroopMode);
    if mode == MODE_ASNZS || mode == MODE_OTHER then 1 else 0
  }

  /** Deadband above 50 Hz in centi-hertz. */
  function DbOfOf(p: Protection): u32 {
    if "DC" in p.has && p.ofDroopStart > 50.0 then Real32((p.ofDroopStart - 50.0) * 100.0 + 0.5) else 0
  }

  /** Slope in deci-percent per hertz, saturated. */
  function KOfOf(p: Protection): u16 {
    if "DD" in p.has && p.ofDroopSlope > 0.0 then
      var v := p.ofDroopSlope * 10.0 + 0.5;
      Real16(if v > 65535.0 then 65535.0 else v)
    else 0
  }

  function Header(ena: u16, rslt: u16, req: u16): (r: seq<u16>)
    ensures |r| == 12 && r[ENA] == ena && r[ADPT_REQ] == req && r[ADPT_RSLT] == rslt
  {
    [ena, req, rslt, 1] + Acc32(0) + Acc32(NOT_IMPL_U32) + [0, ScaleFactor(-2), ScaleFactor(-1), ScaleFactor(0)]
  }

  function Ctl(dbOf: u32, kOf: u16): (r: seq<u16>)
    ensures |r| == 10 && Join32(r[DBOF_HI - 12], r[DBOF_LO - 12]) == dbOf && r[KOF - 12] == kOf
  {
    Acc32(dbOf) + Acc32(NOT_IMPL_U32) + [kOf, NOT_IMPL_U16] + Acc32(0) + [0, 0]
  }

  function Body(p: Protection, rslt: u16, req: u16): (r: seq<u16>)
    ensures |r| == 22
  {
    Header(EnaOf(p), rslt, req) + Ctl(DbOfOf(p), KOfOf(p))
  }

  function DroopBlock(p: Protection, rslt: u16, req: u16): (b: Block)
    ensures b.id == MODEL && b.len == |b.body| == 22
  {
    Block(MODEL, BODY_LEN, Body(p, rslt, req))
  }

  method EmitFreqDroop(bank: Bank, p: Protection, rslt: u16, req: u16)
    modifies bank
    ensures bank.regs == old(bank.regs) + Render(DroopBlock(p, rslt, req))
  {
    hide Header, Ctl;
    var ena, dbOf, kOf := PublishedFields(p);
    bank.Put16([MODEL, BODY_LEN]);
    EmitHeader(bank, ena, rslt, req);
    EmitCtl(bank, dbOf, kOf);
  }

  method PublishedFields(p: Protection) returns (ena: u16, dbOf: u32, kOf: u16)
    ensures ena == EnaOf(p) && dbOf == DbOfOf(p) && kOf == KOfOf(p)
  {
    ena := 0;
    match Trunc(p.ofDroopMode) {
      case 13 => ena := 1;
      case 14 => ena := 1;
      case _ =>
    }
    dbOf := 0;
    if "DC" in p.has && p.ofDroopStart > 50.0 {
      dbOf := Real32((p.ofDroopStart - 50.0) * 100.0 + 0.5);
    }
    kOf := 0;
    if "DD" in p.has && p.ofDroopSlope > 0.0 {
      var v := p.ofDroopSlope * 10.0 + 0.5;
      if v > 65535.0 {
        v := 65535.0;
      }
      kOf := Real16(v);
    }
  }

  method EmitHeader(bank: Bank, ena: u16, rslt: u16, req: u16)
    modifies bank
    ensures bank.regs == old(bank.regs) + Header(ena, rslt, req)
  {
    bank.Put16([ena, req, rslt, 1]);
    bank.PutAcc32(0);
    bank.PutAcc32(NOT_IMPL_U32);
    bank.Put16([0, ScaleFactor(-2), ScaleFactor(-1), ScaleFactor(0)]);
  }

  method EmitCtl(bank: Bank, dbOf: u32, kOf: u16)
    modifies bank
    ensures bank.regs == old(bank.regs) + Ctl(dbOf, kOf)
  {
    bank.PutAcc32(dbOf);
    bank.PutAcc32(NOT_IMPL_U32);
    bank.Put16([kOf, NOT_IMPL_U16]);
    bank.PutAcc32(0);
    bank.Put16([0, 0]);
  }

  /** Where a client finds the published fields. */
  lemma BodyFields(p: Protection, rslt: u16, req: u16)
    ensures var b := Body(p, rslt, req);
      && b[ENA] == EnaOf(p) && b[ADPT_REQ] == req && b[ADPT_RSLT] == rslt
      && Join32(b[DBOF_HI], b[DBOF_LO]) == DbOfOf(p) && b[KOF] == KOfOf(p)
  {
    hide Header, Ctl;
    var h, c := Header(EnaOf(p), rslt, req), Ctl(DbOfOf(p), KOfOf(p));
    assert Body(p, rslt, req) == h + c;
    assert (h + c)[DBOF_HI] == c[0] && (h + c)[DBOF_LO] == c[1] && (h + c)[KOF] == c[4];
  }

  // ---- Read-back of an accepted request -----------------------------------------------

  /** Tolerance of the write tracker when it compares a reported value. */
  const TOLERANCE: real := 0.05

  predicate Near(actual: real, expected: real) {
    -TOLERANCE <= actual - expected <= TOLERANCE
  }

  /** A start frequency reported within tolerance is published within five units. */
  lemma DbOfReadBack(p: Protection, n: u32)
    requires n > 0 && "DC" in p.has && Near(p.ofDroopStart, 50.0 + n as real / 100.0)
    requires n <= 0xFFFF_FFFF - 5
    ensures n - 5 <= DbOfOf(p) <= n + 5
  {
    var x := (p.ofDroopStart - 50.0) * 100.0;
    assert n as real - 5.0 <= x <= n as real + 5.0;
    if p.ofDroopStart > 50.0 {
      var f := (x + 0.5).Floor;
      assert f as real <= x + 0.5 < f as real + 1.0;
      assert (n - 6) as real < f as real < (n + 6) as real;
    }
  }

  /** A start frequency reported exactly is published exactly. */
  lemma DbOfExact(p: Protection, n: u32)
    requires n > 0 && "DC" in p.has && p.ofDroopStart == 50.0 + n as real / 100.0
    ensures DbOfOf(p) == n
  {
    assert (p.ofDroopStart - 50.0) * 100.0 == n as real;
  }

  /** A slope reported within tolerance is published as k or k+1. */
  lemma KOfReadBack(p: Protection, k: u16)
    requires 0 < k < 65535 && "DD" in p.has && Near(p.ofDroopSlope, k as real / 10.0)
    ensures KOfOf(p) == k || KOfOf(p) == k + 1
  {
    var x := p.ofDroopSlope * 10.0;
    assert k as real - 0.5 <= x <= k as real + 0.5;
    var v := if x + 0.5 > 65535.0 then 65535.0 else x + 0.5;
    assert k as real <= v <= k as real + 1.0;
    var f := v.Floor;
    assert f as real <= v < f as real + 1.0;
    assert (k - 1) as real < f as real < (k + 2) as real;
  }

  /** A mode reported within tolerance is published as requested exactly when the
      report does not undershoot a mode other than 14: truncation turns 12.96 into 12
      and 14.96 into 14. */
  lemma EnaReadBack(p: Protection, mode: int)
    requires 13 <= mode <= 15 && Near(p.ofDroopMode, mode as real)
    ensures EnaOf(p) == (if mode == 15 then 0 else 1) <==> mode == MODE_OTHER || p.ofDroopMode >= mode as real
  {
    var t := Trunc(p.ofDroopMode);
    assert t as real <= p.ofDroopMode < t as real + 1.0;
    if p.ofDroopMode >= mode as real {
      assert t == mode;
    } else {
      assert t == mode - 1;
    }
  }

  lemma EnaCanMislead()
    ensures Near(14.96, 15.0) && EnaOf(NO_PROTECTION.(ofDroopMode := 14.96, has := {"CV"})) == 1
  {
  }
}
