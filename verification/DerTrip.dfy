/** Models 707-710, the DER trip curves (internal/sunspec/der_trip.go), and Model 703,
    Enter Service (internal/sunspec/enter_service.go). */
module DerTrip {
  import opened Prelude
  import opened Snapshots
  import opened Banks

  const LV_MODEL: u16 := 707
  const HV_MODEL: u16 := 708
  const LF_MODEL: u16 := 709
  const HF_MODEL: u16 := 710
  const V_BODY_LEN: u16 := 38
  const HZ_BODY_LEN: u16 := 47
  const NPT: nat := 3
  const CURVE_COMPLETED: u16 := 1
  const DEFAULT_VNOM := 230.0

  const ENTER_SERVICE_MODEL: u16 := 703
  const ENTER_SERVICE_BODY_LEN: u16 := 17

  // ---- Encoders ------------------------------------------------------------------

  function VNomOrDefault(vNom: real): real {
    if vNom <= 0.0 then DEFAULT_VNOM else vNom
  }

  /** Volts as centi-percent of the nominal voltage. */
  function PctOfVNom(v: real, vNom: real): u16 {
    if v <= 0.0 then 0 else Saturating(v / VNomOrDefault(vNom) * 10000.0, 0xFFFF)
  }

  function HzCenti(hz: real): u32 {
    if hz <= 0.0 then 0 else Saturating(hz * 100.0, 0xFFFF_FFFF)
  }

  function SecCenti(s: real): u32 {
    if s <= 0.0 then 0 else Saturating(s * 100.0, 0xFFFF_FFFF)
  }

  /** The encoders keep the order of the thresholds they encode. */
  lemma EncodersAreMonotone(x: real, y: real, vNom: real)
    requires x <= y
    ensures PctOfVNom(x, vNom) <= PctOfVNom(y, vNom)
    ensures HzCenti(x) <= HzCenti(y) && SecCenti(x) <= SecCenti(y)
  {
    var n := VNomOrDefault(vNom);
    assert x / n <= y / n by {
      assert (y - x) / n >= 0.0;
    }
    SaturatingIsMonotone(x / n * 10000.0, y / n * 10000.0, 0xFFFF);
    SaturatingIsMonotone(x * 100.0, y * 100.0, 0xFFFF_FFFF);
  }

  /** Below saturation a positive threshold is encoded within half a unit. */
  lemma EncodersAreNearest(x: real, vNom: real)
    requires x > 0.0
    ensures var pct := x / VNomOrDefault(vNom) * 10000.0;
            if pct <= 65535.0 then pct - 0.5 < PctOfVNom(x, vNom) as real <= pct + 0.5 else PctOfVNom(x, vNom) == 0xFFFF
    ensures x * 100.0 <= 4294967295.0 ==> x * 100.0 - 0.5 < HzCenti(x) as real <= x * 100.0 + 0.5
    ensures x * 100.0 <= 4294967295.0 ==> x * 100.0 - 0.5 < SecCenti(x) as real <= x * 100.0 + 0.5
    ensures x * 100.0 > 4294967295.0 ==> HzCenti(x) == SecCenti(x) == 0xFFFF_FFFF
  {
    var pct := x / VNomOrDefault(vNom) * 10000.0;
    assert x / VNomOrDefault(vNom) > 0.0;
    if pct <= 65535.0 {
      SaturatingIsNearest(pct, 0xFFFF);
    }
    if x * 100.0 <= 4294967295.0 {
      SaturatingIsNearest(x * 100.0, 0xFFFF_FFFF);
    }
  }

  // ---- Trip tiers -----------------------------------------------------------------

  datatype Point = Point(val: u32, tms: u32)

  /** One tier: `actPt` active points among three slots. */
  datatype Tier = Tier(actPt: nat, points: seq<Point>)

  const NO_POINT := Point(0, 0)
  const NO_TIER := Tier(0, [NO_POINT, NO_POINT, NO_POINT])

  /** The reported ones among the candidate points, in order. */
  function Reported(candidates: seq<Option<Point>>): (r: seq<Point>)
    ensures |r| <= |candidates|
  {
    if candidates == [] then []
    else
      var front := Reported(candidates[..|candidates| - 1]);
      match candidates[|candidates| - 1]
      case None => front
      case Some(pt) => front + [pt]
  }

  /** A tier is a packed prefix: the reported candidates occupy the front in order,
      `actPt` counts exactly them, and the slots behind are zero. */
  predicate Packs(t: Tier, candidates: seq<Option<Point>>) {
    var pts := Reported(candidates);
    && |t.points| == NPT
    && t.actPt == |pts| <= NPT
    && t.points[..t.actPt] == pts
    && forall i :: t.actPt <= i < NPT ==> t.points[i] == NO_POINT
  }

  function When(cond: bool, pt: Point): Option<Point> {
    if cond then Some(pt) else None
  }

  function LvCandidates(p: Protection, vNom: real): seq<Option<Point>> {
    [When("AC" in p.has && "BB" in p.has, Point(PctOfVNom(p.uvStg2, vNom), SecCenti(p.uv2ClrS))),
     When("AQ" in p.has && "BD" in p.has, Point(PctOfVNom(p.uvFast, vNom), SecCenti(p.uv3ClrS)))]
  }

  function HvCandidates(p: Protection, vNom: real): seq<Option<Point>> {
    [When("AY" in p.has && "BE" in p.has, Point(PctOfVNom(p.ovStg3, vNom), SecCenti(p.ov3ClrS))),
     When("AD" in p.has && "BC" in p.has, Point(PctOfVNom(p.ovStg2, vNom), SecCenti(p.ov2ClrS))),
     When("AB" in p.has, Point(PctOfVNom(p.avgOV, vNom), SecCenti(600.0)))]
  }

  function LfCandidates(p: Protection): seq<Option<Point>> {
    [When("AE" in p.has && "BJ" in p.has, Point(HzCenti(p.ufSlow), SecCenti(p.uf2ClrS))),
     When("AJ" in p.has && "BH" in p.has, Point(HzCenti(p.ufFast), SecCenti(p.uf1ClrS)))]
  }

  function HfCandidates(p: Protection): seq<Option<Point>> {
    [When("AF" in p.has && "BK" in p.has, Point(HzCenti(p.ofSlow), SecCenti(p.of2ClrS))),
     When("AK" in p.has && "BI" in p.has, Point(HzCenti(p.ofFast), SecCenti(p.of1ClrS)))]
  }

  /** The tier a candidate list packs into: `Packs` leaves no choice. */
  function Packed(candidates: seq<Option<Point>>): (t: Tier)
    requires |candidates| <= NPT
    ensures Packs(t, candidates)
  {
    var pts := Reported(candidates);
    Tier(|pts|, pts + NO_TIER.points[..NPT - |pts|])
  }

  lemma PackedIsUnique(t: Tier, candidates: seq<Option<Point>>)
    requires |candidates| <= NPT && Packs(t, candidates)
    ensures t == Packed(candidates)
  {
    assert t.points == t.points[..t.actPt] + t.points[t.actPt..];
  }

  /** One conditional fill: the slot at the counter is written and the counter moves. */
  method Fill(t: Tier, ghost candidates: seq<Option<Point>>, cond: bool, pt: Point) returns (r: Tier)
    requires |candidates| < NPT && Packs(t, candidates)
    ensures Packs(r, candidates + [When(cond, pt)])
  {
    assert (candidates + [When(cond, pt)])[..|candidates|] == candidates;
    r := t;
    if cond {
      r := Tier(t.actPt + 1, t.points[t.actPt := pt]);
      assert r.points[..r.actPt] == t.points[..t.actPt] + [pt];
    }
  }

  method TripPointsFromProtection(p: Protection, vNom: real) returns (lv: Tier, hv: Tier, lf: Tier, hf: Tier)
    ensures lv == Packed(LvCandidates(p, vNom)) && hv == Packed(HvCandidates(p, vNom))
    ensures lf == Packed(LfCandidates(p)) && hf == Packed(HfCandidates(p))
  {
    var lvs, hvs, lfs, hfs := LvCandidates(p, vNom), HvCandidates(p, vNom), LfCandidates(p), HfCandidates(p);
    lv := FillAll(lvs);
    hv := FillAll(hvs);
    lf := FillAll(lfs);
    hf := FillAll(hfs);
  }

  method FillAll(candidates: seq<Option<Point>>) returns (t: Tier)
    requires |candidates| <= NPT
    ensures t == Packed(candidates)
  {
    t := NO_TIER;
    for i := 0 to |candidates|
      invariant Packs(t, candidates[..i])
    {
      assert candidates[..i + 1] == candidates[..i] + [candidates[i]];
      match candidates[i] {
        case None => t := Fill(t, candidates[..i], false, NO_POINT);
        case Some(pt) => t := Fill(t, candidates[..i], true, pt);
      }
    }
    assert candidates[..|candidates|] == candidates;
    PackedIsUnique(t, candidates);
  }

  // ---- Registers --------------------------------------------------------------------

  function VPoint(pt: Point): (r: seq<u16>)
    ensures |r| == 3
  {
    [Wrap16(pt.val)] + Acc32(pt.tms)
  }

  function HzPoint(pt: Point): (r: seq<u16>)
    ensures |r| == 4
  {
    Acc32(pt.val) + Acc32(pt.tms)
  }

  function VTier(t: Tier): (r: seq<u16>)
    requires |t.points| == NPT && t.actPt <= NPT
    ensures |r| == 10
  {
    [t.actPt] + VPoint(t.points[0]) + VPoint(t.points[1]) + VPoint(t.points[2])
  }

  function HzTier(t: Tier): (r: seq<u16>)
    requires |t.points| == NPT && t.actPt <= NPT
    ensures |r| == 13
  {
    [t.actPt] + HzPoint(t.points[0]) + HzPoint(t.points[1]) + HzPoint(t.points[2])
  }

  /** Enabled when some point is active; version, point and curve counts; scale
      factors; read-only. */
  function CurveHeader(t: Tier): (r: seq<u16>)
    ensures |r| == 8
  {
    [if t.actPt > 0 then 1 else 0, 0, CURVE_COMPLETED, NPT, 1, ScaleFactor(-2), ScaleFactor(-2), 1]
  }

  function VBlock(id: u16, must: Tier): (b: Block)
    requires |must.points| == NPT && must.actPt <= NPT
    ensures b.len == |b.body| == 38
  {
    Block(id, V_BODY_LEN, CurveHeader(must) + VTier(must) + VTier(NO_TIER) + VTier(NO_TIER))
  }

  function HzBlock(id: u16, must: Tier): (b: Block)
    requires |must.points| == NPT && must.actPt <= NPT
    ensures b.len == |b.body| == 47
  {
    Block(id, HZ_BODY_LEN, CurveHeader(must) + HzTier(must) + HzTier(NO_TIER) + HzTier(NO_TIER))
  }

  method EmitVTier(bank: Bank, t: Tier)
    requires |t.points| == NPT && t.actPt <= NPT
    modifies bank
    ensures bank.regs == old(bank.regs) + VTier(t)
  {
    bank.Put16([t.actPt]);
    var i := 0;
    while i < |t.points|
      invariant 0 <= i <= 3
      invariant bank.regs == old(bank.regs) + [t.actPt] +
                             (if i > 0 then VPoint(t.points[0]) else []) +
                             (if i > 1 then VPoint(t.points[1]) else []) +
                             (if i > 2 then VPoint(t.points[2]) else [])
    {
      bank.Put16([Wrap16(t.points[i].val)]);
      bank.PutAcc32(t.points[i].tms);
      i := i + 1;
    }
  }

  method EmitHzTier(bank: Bank, t: Tier)
    requires |t.points| == NPT && t.actPt <= NPT
    modifies bank
    ensures bank.regs == old(bank.regs) + HzTier(t)
  {
    bank.Put16([t.actPt]);
    var i := 0;
    while i < |t.points|
      invariant 0 <= i <= 3
      invariant bank.regs == old(bank.regs) + [t.actPt] +
                             (if i > 0 then HzPoint(t.points[0]) else []) +
                             (if i > 1 then HzPoint(t.points[1]) else []) +
                             (if i > 2 then HzPoint(t.points[2]) else [])
    {
      bank.PutAcc32(t.points[i].val);
      bank.PutAcc32(t.points[i].tms);
      i := i + 1;
    }
  }

  method EmitDERTripV(bank: Bank, id: u16, must: Tier)
    requires |must.points| == NPT && must.actPt <= NPT
    modifies bank
    ensures bank.regs == old(bank.regs) + Render(VBlock(id, must))
  {
    hide CurveHeader, VTier;
    bank.Put16([id, V_BODY_LEN]);
    bank.Put16(CurveHeader(must));
    EmitVTier(bank, must);
    EmitVTier(bank, NO_TIER);
    EmitVTier(bank, NO_TIER);
  }

  method EmitDERTripHz(bank: Bank, id: u16, must: Tier)
    requires |must.points| == NPT && must.actPt <= NPT
    modifies bank
    ensures bank.regs == old(bank.regs) + Render(HzBlock(id, must))
  {
    hide CurveHeader, HzTier;
    bank.Put16([id, HZ_BODY_LEN]);
    bank.Put16(CurveHeader(must));
    EmitHzTier(bank, must);
    EmitHzTier(bank, NO_TIER);
    EmitHzTier(bank, NO_TIER);
  }

  function LvBlock(p: Protection, vNom: real): (b: Block)
    ensures b.id == LV_MODEL && b.len == |b.body| == 38
  {
    VBlock(LV_MODEL, Packed(LvCandidates(p, vNom)))
  }

  function HvBlock(p: Protection, vNom: real): (b: Block)
    ensures b.id == HV_MODEL && b.len == |b.body| == 38
  {
    VBlock(HV_MODEL, Packed(HvCandidates(p, vNom)))
  }

  function LfBlock(p: Protection): (b: Block)
    ensures b.id == LF_MODEL && b.len == |b.body| == 47
  {
    HzBlock(LF_MODEL, Packed(LfCandidates(p)))
  }

  function HfBlock(p: Protection): (b: Block)
    ensures b.id == HF_MODEL && b.len == |b.body| == 47
  {
    HzBlock(HF_MODEL, Packed(HfCandidates(p)))
  }

  /** The four trip models of a protection record, in order. */
  method EmitDERTripModels(bank: Bank, p: Protection, vNom: real)
    modifies bank
    ensures bank.regs == old(bank.regs) + Render(LvBlock(p, vNom)) + Render(HvBlock(p, vNom)) +
                         Render(LfBlock(p)) + Render(HfBlock(p))
  {
    var lv, hv, lf, hf := TripPointsFromProtection(p, vNom);
    EmitDERTripV(bank, LV_MODEL, lv);
    EmitDERTripV(bank, HV_MODEL, hv);
    EmitDERTripHz(bank, LF_MODEL, lf);
    EmitDERTripHz(bank, HF_MODEL, hf);
  }

  // ---- The curves in registers -----------------------------------------------------------------

  /** Two or three candidates, packed. */
  lemma PackedThree(a: Option<Point>, b: Option<Point>, c: Option<Point>)
    ensures var t := Packed([a, b, c]); var i := if a.Some? then 1 else 0; var j := if b.Some? then i + 1 else i;
            && t.actPt == (if c.Some? then j + 1 else j)
            && (a.Some? ==> t.points[0] == a.value) && (b.Some? ==> t.points[i] == b.value) && (c.Some? ==> t.points[j] == c.value)
            && forall k :: t.actPt <= k < 3 ==> t.points[k] == NO_POINT
    ensures var t := Packed([a, b]); var i := if a.Some? then 1 else 0;
            && t.actPt == (if b.Some? then i + 1 else i)
            && (a.Some? ==> t.points[0] == a.value) && (b.Some? ==> t.points[i] == b.value)
            && forall k :: t.actPt <= k < 3 ==> t.points[k] == NO_POINT
  {
    assert [a, b, c][..2] == [a, b] && [a, b][..1] == [a] && [a][..0] == [];
    assert Reported([a]) == if a.Some? then [a.value] else [];
    assert Reported([a, b]) == Reported([a]) + (if b.Some? then [b.value] else []);
    assert Reported([a, b, c]) == Reported([a, b]) + (if c.Some? then [c.value] else []);
  }

  /** Point k of a voltage curve with `act` active points: a value register, then seconds. */
  predicate VSlot(b: seq<u16>, k: nat, val: u16, tms: u32)
    requires |b| == 38 && k < 3
  {
    k < b[8] && b[9 + 3 * k] == val && b[10 + 3 * k] as int * 65536 + b[11 + 3 * k] as int == tms as int
  }

  /** Point k of a frequency curve: two value registers, then two of seconds. */
  predicate HzSlot(b: seq<u16>, k: nat, val: u32, tms: u32)
    requires |b| == 47 && k < 3
  {
    && k < b[8]
    && b[9 + 4 * k] as int * 65536 + b[10 + 4 * k] as int == val as int
    && b[11 + 4 * k] as int * 65536 + b[12 + 4 * k] as int == tms as int
  }

  lemma VSlots(id: u16, t: Tier, k: nat)
    requires |t.points| == NPT && t.actPt <= NPT && k < 3
    ensures var b := VBlock(id, t).body;
            && b[8] == t.actPt && b[0] == (if t.actPt > 0 then 1 else 0)
            && (k < t.actPt && t.points[k].val <= 0xFFFF ==> VSlot(b, k, t.points[k].val, t.points[k].tms))
            && (t.points[k] == NO_POINT ==> b[9 + 3 * k] == b[10 + 3 * k] == b[11 + 3 * k] == 0)
  {
    hide VPoint;
    var h, p, q, r := CurveHeader(t), VPoint(t.points[0]), VPoint(t.points[1]), VPoint(t.points[2]);
    assert VBlock(id, t).body == h + [t.actPt] + p + q + r + (VTier(NO_TIER) + VTier(NO_TIER));
    VPointSays(t.points[k]);
  }

  lemma VPointSays(pt: Point)
    ensures var r := VPoint(pt);
            && (pt.val <= 0xFFFF ==> r[0] == pt.val) && r[1] as int * 65536 + r[2] as int == pt.tms as int
            && (pt == NO_POINT ==> r == [0, 0, 0])
  {
  }

  lemma HzSlots(id: u16, t: Tier, k: nat)
    requires |t.points| == NPT && t.actPt <= NPT && k < 3
    ensures var b := HzBlock(id, t).body;
            && b[8] == t.actPt && b[0] == (if t.actPt > 0 then 1 else 0)
            && (k < t.actPt ==> HzSlot(b, k, t.points[k].val, t.points[k].tms))
            && (t.points[k] == NO_POINT ==> b[9 + 4 * k] == b[10 + 4 * k] == b[11 + 4 * k] == b[12 + 4 * k] == 0)
  {
    hide HzPoint;
    var h, p, q, r := CurveHeader(t), HzPoint(t.points[0]), HzPoint(t.points[1]), HzPoint(t.points[2]);
    assert HzBlock(id, t).body == h + [t.actPt] + p + q + r + (HzTier(NO_TIER) + HzTier(NO_TIER));
    HzPointSays(t.points[k]);
  }

  lemma HzPointSays(pt: Point)
    ensures var r := HzPoint(pt);
            && r[0] as int * 65536 + r[1] as int == pt.val as int && r[2] as int * 65536 + r[3] as int == pt.tms as int
            && (pt == NO_POINT ==> r == [0, 0, 0, 0])
  {
  }

  predicate BothIn(p: Protection, a: string, b: string) {
    a in p.has && b in p.has
  }

  function Count(b: bool): nat {
    if b then 1 else 0
  }

  /** Low voltage: the slow threshold (AC) with its clearing time (BB), then the fast one
      (AQ, BD), each only if both are reported; the slow one comes first. */
  lemma LowVoltageInRegisters(p: Protection, vNom: real)
    ensures var b, slow, fast := LvBlock(p, vNom).body, BothIn(p, "AC", "BB"), BothIn(p, "AQ", "BD");
            && b[8] == Count(slow) + Count(fast) && b[0] == Count(slow || fast)
            && (slow ==> VSlot(b, 0, PctOfVNom(p.uvStg2, vNom), SecCenti(p.uv2ClrS)))
            && (fast ==> VSlot(b, Count(slow), PctOfVNom(p.uvFast, vNom), SecCenti(p.uv3ClrS)))
  {
    hide PctOfVNom, SecCenti, VBlock, VSlot, Packed;
    var c := LvCandidates(p, vNom);
    PackedThree(c[0], c[1], None);
    VSlots(LV_MODEL, Packed(c), 0);
    VSlots(LV_MODEL, Packed(c), 1);
  }

  /** High voltage: the fast threshold (AY, BE), the slow one (AD, BC), then the ten-minute
      average (AB) with 600 s. */
  lemma HighVoltageInRegisters(p: Protection, vNom: real)
    ensures var b, fast, slow, avg := HvBlock(p, vNom).body, BothIn(p, "AY", "BE"), BothIn(p, "AD", "BC"), "AB" in p.has;
            && b[8] == Count(fast) + Count(slow) + Count(avg) && b[0] == Count(fast || slow || avg)
            && (fast ==> VSlot(b, 0, PctOfVNom(p.ovStg3, vNom), SecCenti(p.ov3ClrS)))
            && (slow ==> VSlot(b, Count(fast), PctOfVNom(p.ovStg2, vNom), SecCenti(p.ov2ClrS)))
            && (avg ==> VSlot(b, Count(fast) + Count(slow), PctOfVNom(p.avgOV, vNom), 60000))
  {
    assert SecCenti(600.0) == 60000;
    hide PctOfVNom, SecCenti, VBlock, VSlot, Packed;
    var c := HvCandidates(p, vNom);
    ThreeVoltages(HV_MODEL, c[0], c[1], c[2]);
  }

  predicate Fits16(c: Option<Point>) {
    c.Some? ==> c.value.val <= 0xFFFF
  }

  lemma ThreeVoltages(id: u16, a: Option<Point>, b: Option<Point>, c: Option<Point>)
    requires Fits16(a) && Fits16(b) && Fits16(c)
    ensures var r, i := VBlock(id, Packed([a, b, c])).body, Count(a.Some?); var j := i + Count(b.Some?);
            && r[8] == j + Count(c.Some?) && r[0] == Count(a.Some? || b.Some? || c.Some?)
            && (a.Some? ==> VSlot(r, 0, a.value.val, a.value.tms)) && (b.Some? ==> VSlot(r, i, b.value.val, b.value.tms))
            && (c.Some? ==> VSlot(r, j, c.value.val, c.value.tms))
  {
    hide VBlock, VSlot, Packed;
    var t := Packed([a, b, c]);
    PackedThree(a, b, c);
    VSlots(id, t, 0);
    VSlots(id, t, 1);
    VSlots(id, t, 2);
  }

  /** Low frequency: slow (AE, BJ), then fast (AJ, BH). */
  lemma LowFrequencyInRegisters(p: Protection)
    ensures var b, slow, fast := LfBlock(p).body, BothIn(p, "AE", "BJ"), BothIn(p, "AJ", "BH");
            && b[8] == Count(slow) + Count(fast) && b[0] == Count(slow || fast)
            && (slow ==> HzSlot(b, 0, HzCenti(p.ufSlow), SecCenti(p.uf2ClrS)))
            && (fast ==> HzSlot(b, Count(slow), HzCenti(p.ufFast), SecCenti(p.uf1ClrS)))
  {
    hide HzCenti, SecCenti, HzBlock, HzSlot, Packed;
    var c := LfCandidates(p);
    PackedThree(c[0], c[1], None);
    HzSlots(LF_MODEL, Packed(c), 0);
    HzSlots(LF_MODEL, Packed(c), 1);
  }

  /** High frequency: slow (AF, BK), then fast (AK, BI). */
  lemma HighFrequencyInRegisters(p: Protection)
    ensures var b, slow, fast := HfBlock(p).body, BothIn(p, "AF", "BK"), BothIn(p, "AK", "BI");
            && b[8] == Count(slow) + Count(fast) && b[0] == Count(slow || fast)
            && (slow ==> HzSlot(b, 0, HzCenti(p.ofSlow), SecCenti(p.of2ClrS)))
            && (fast ==> HzSlot(b, Count(slow), HzCenti(p.ofFast), SecCenti(p.of1ClrS)))
  {
    hide HzCenti, SecCenti, HzBlock, HzSlot, Packed;
    var c := HfCandidates(p);
    PackedThree(c[0], c[1], None);
    HzSlots(HF_MODEL, Packed(c), 0);
    HzSlots(HF_MODEL, Packed(c), 1);
  }

  // ---- Model 703 ----------------------------------------------------------------------

  function EnterServiceBlock(p: Protection, vNom: real): (b: Block)
    ensures b.id == ENTER_SERVICE_MODEL && b.len == |b.body| == 17
  {
    Block(ENTER_SERVICE_MODEL, ENTER_SERVICE_BODY_LEN, EnterServiceWindow(p, vNom) + ENTER_SERVICE_TAIL)
  }

  /** Enable flag, voltage and frequency windows, delay. */
  function EnterServiceWindow(p: Protection, vNom: real): (r: seq<u16>)
    ensures |r| == 9
  {
    [if "AG" in p.has then 1 else 0, PctOfVNom(p.reconnVHi, vNom), PctOfVNom(p.reconnVLow, vNom)] +
    Acc32(HzCenti(p.reconnFHi)) + Acc32(HzCenti(p.reconnFLow)) + Acc32(Real32(p.reconnectS + 0.5))
  }

  const ENTER_SERVICE_TAIL: seq<u16> :=
    Acc32(0) + Acc32(0) + Acc32(NOT_IMPL_U32) + [ScaleFactor(-2), ScaleFactor(-2)]

  method EmitEnterService(bank: Bank, p: Protection, vNom: real)
    modifies bank
    ensures bank.regs == old(bank.regs) + Render(EnterServiceBlock(p, vNom))
  {
    hide EnterServiceWindow;
    bank.Put16([ENTER_SERVICE_MODEL, ENTER_SERVICE_BODY_LEN]);
    EmitEnterServiceWindow(bank, p, vNom);
    bank.Put16(ENTER_SERVICE_TAIL);
  }

  method EmitEnterServiceWindow(bank: Bank, p: Protection, vNom: real)
    modifies bank
    ensures bank.regs == old(bank.regs) + EnterServiceWindow(p, vNom)
  {
    hide PctOfVNom, HzCenti;
    bank.Put16([if "AG" in p.has then 1 else 0, PctOfVNom(p.reconnVHi, vNom), PctOfVNom(p.reconnVLow, vNom)]);
    bank.PutAcc32(HzCenti(p.reconnFHi));
    bank.PutAcc32(HzCenti(p.reconnFLow));
    bank.PutAcc32(Real32(p.reconnectS + 0.5));
  }

  /** Model 703 in registers: reported or not, the voltage window, the frequency window. */
  lemma EnterServiceInRegisters(p: Protection, vNom: real)
    ensures var b := EnterServiceBlock(p, vNom).body;
            && b[0] == Count("AG" in p.has)
            && b[1] == PctOfVNom(p.reconnVHi, vNom) && b[2] == PctOfVNom(p.reconnVLow, vNom)
            && b[3] as int * 65536 + b[4] as int == HzCenti(p.reconnFHi) as int
            && b[5] as int * 65536 + b[6] as int == HzCenti(p.reconnFLow) as int
  {
    hide PctOfVNom, HzCenti;
    var w := EnterServiceWindow(p, vNom);
    assert EnterServiceBlock(p, vNom).body[..9] == w;
    Acc32Joins(HzCenti(p.reconnFHi));
    Acc32Joins(HzCenti(p.reconnFLow));
  }

  /** A recovery time that was written (whole seconds), once reported, reads back in the
      registers it was written to. */
  lemma EnterServiceReadBack(p: Protection, vNom: real, secs: u32)
    requires p.reconnectS == secs as real
    ensures var b := EnterServiceBlock(p, vNom).body; Join32(b[7], b[8]) == secs
  {
    hide PctOfVNom, HzCenti;
    var w := EnterServiceWindow(p, vNom);
    assert Real32(p.reconnectS + 0.5) == secs;
    Acc32Joins(secs);
    assert EnterServiceBlock(p, vNom).body[7] == w[7] && EnterServiceBlock(p, vNom).body[8] == w[8];
  }
}
