/** Event flags: parsing the ECU's bit string (internal/source/sqlite.go), the
    fleet-wide OR (internal/source/snapshot.go) and the translation to the standard
    SunSpec flags (internal/sunspec/events.go). */
module Events {
  import opened Prelude
  import opened Snapshots

  // ---- Words -----------------------------------------------------------------

  /** The part of a word's value contributed by bits k..31, divided by 2^k. */
  function ValueFrom(w: Word, k: nat): (v: nat)
    requires k <= 32
    ensures v < Pow2(32 - k)
    decreases 32 - k
  {
    if k == 32 then 0 else (if k in w then 1 else 0) + 2 * ValueFrom(w, k + 1)
  }

  function Pow2(n: nat): (p: nat)
    ensures p > 0
  {
    if n == 0 then 1 else 2 * Pow2(n - 1)
  }

  lemma Pow2Of32()
    ensures Pow2(32) == 0x1_0000_0000
  {
    assert Pow2(8) == 0x100;
    assert Pow2(16) == 0x1_0000;
    assert Pow2(24) == 0x100_0000;
  }

  /** The unsigned 32-bit number whose set bits are `w`. */
  function WordValue(w: Word): u32 {
    Pow2Of32();
    ValueFrom(w, 0)
  }

  predicate BitOf(v: nat, k: nat) {
    if k == 0 then v % 2 == 1 else BitOf(v / 2, k - 1)
  }

  lemma {:induction false} ValueFromBits(w: Word, k: nat, j: nat)
    requires k + j < 32
    ensures BitOf(ValueFrom(w, k), j) <==> k + j in w
    decreases j
  {
    var rest := ValueFrom(w, k + 1);
    assert ValueFrom(w, k) / 2 == rest && ValueFrom(w, k) % 2 == if k in w then 1 else 0;
    if j > 0 {
      ValueFromBits(w, k + 1, j - 1);
    }
  }

  /** `WordValue` is the number with exactly the bits of the set. */
  lemma WordValueBits(w: Word, j: nat)
    requires j < 32
    ensures BitOf(WordValue(w), j) <==> j in w
  {
    ValueFromBits(w, 0, j);
  }

  // ---- Slots -----------------------------------------------------------------

  const NO_EVENTS := EventBits({}, {}, {}, {})

  function Slot(b: EventBits, i: nat): Word
    requires i < 4
  {
    if i == 0 then b.w0 else if i == 1 then b.w1 else if i == 2 then b.w2 else b.w3
  }

  function WithSlot(b: EventBits, i: nat, w: Word): EventBits
    requires i < 4
  {
    if i == 0 then b.(w0 := w) else if i == 1 then b.(w1 := w) else if i == 2 then b.(w2 := w) else b.(w3 := w)
  }

  /** Is APsystems bit `n` set? */
  predicate Aps(b: EventBits, n: nat) {
    n < 128 && n % 32 in Slot(b, n / 32)
  }

  function OrBits(a: EventBits, b: EventBits): EventBits {
    EventBits(a.w0 + b.w0, a.w1 + b.w1, a.w2 + b.w2, a.w3 + b.w3)
  }

  // ---- Parsing ---------------------------------------------------------------

  /** Bit `n` of the result is set exactly when character `n` is '1'; characters past
      position 127 do not matter. */
  method ParseEventBits(eve: string) returns (out: EventBits)
    ensures forall n: nat :: Aps(out, n) <==> n < |eve| && n < 128 && eve[n] == '1'
  {
    out := NO_EVENTS;
    var i := 0;
    while i < |eve|
      invariant 0 <= i <= |eve| && i <= 128
      invariant forall n: nat :: Aps(out, n) <==> n < i && eve[n] == '1'
    {
      if i >= 128 {
        break;
      }
      if eve[i] == '1' {
        var slot, bit := i / 32, i % 32;
        ghost var before := out;
        out := WithSlot(out, slot, Slot(out, slot) + {bit});
        forall n: nat
          ensures Aps(out, n) <==> n == i || Aps(before, n)
        {
          if n < 128 && n / 32 == slot && n % 32 == bit {
            assert n == i;
          }
        }
      }
      i := i + 1;
    }
  }

  // ---- Aggregation -----------------------------------------------------------

  /** The bitwise OR of the flags of every inverter. */
  function AggregateEventBits(invs: seq<Inverter>): EventBits {
    if invs == [] then NO_EVENTS
    else OrBits(AggregateEventBits(invs[..|invs| - 1]), invs[|invs| - 1].eventBits)
  }

  method ComputeAggregateEventBits(invs: seq<Inverter>) returns (out: EventBits)
    ensures out == AggregateEventBits(invs)
    ensures forall n: nat :: Aps(out, n) <==> exists i :: 0 <= i < |invs| && Aps(invs[i].eventBits, n)
  {
    out := NO_EVENTS;
    for i := 0 to |invs|
      invariant out == AggregateEventBits(invs[..i])
      invariant forall n: nat :: Aps(out, n) <==> exists j :: 0 <= j < i && Aps(invs[j].eventBits, n)
    {
      assert invs[..i + 1][..i] == invs[..i];
      ghost var before := out;
      out := OrBits(out, invs[i].eventBits);
      forall n: nat
        ensures Aps(out, n) <==> Aps(before, n) || Aps(invs[i].eventBits, n)
      {
        OrBitsAps(before, invs[i].eventBits, n);
      }
    }
    assert invs[..|invs|] == invs;
  }

  lemma OrBitsAps(a: EventBits, b: EventBits, n: nat)
    ensures Aps(OrBits(a, b), n) <==> Aps(a, n) || Aps(b, n)
  {
  }

  // ---- Translation -----------------------------------------------------------

  /** Does some APsystems bit raise the standard flag at bit k?  `aps` tells which
      APsystems bits are set. */
  predicate Raised(aps: nat -> bool, k: nat) {
    match k
    case 0 => aps(17)                                        // ground fault
    case 1 => aps(8) || aps(10) || aps(39) || aps(41)        // DC over-voltage
    case 2 => aps(19)                                        // AC disconnect
    case 4 => aps(21)                                        // grid disconnect
    case 6 => aps(18)                                        // manual shutdown
    case 7 => aps(16)                                        // over-temperature
    case 8 => aps(0) || aps(29) || aps(31)                   // over-frequency
    case 9 => aps(1) || aps(30) || aps(32)                   // under-frequency
    case 10 =>                                               // AC over-voltage
      aps(2) || aps(4) || aps(6) || aps(23) || aps(33) || aps(35) || aps(37) || aps(44)
    case 11 =>                                               // AC under-voltage
      aps(3) || aps(5) || aps(7) || aps(24) || aps(34) || aps(36) || aps(38) || aps(45)
    case 15 => aps(28)                                       // hardware test failure
    case _ => false
  }

  function StandardFlags(aps: nat -> bool): (evt: Word)
    ensures forall k :: k in evt ==> k < 16
  {
    set k: nat | k < 16 && Raised(aps, k)
  }

  /** The standard event register: bit k is set exactly when one of its sources is;
      no bit of its upper half ever is. */
  function Evt1(b: EventBits): (evt: Word)
    ensures forall k :: k in evt ==> k < 16
  {
    StandardFlags((n: nat) => Aps(b, n))
  }

  /** `if cond { evt |= 1 << k }`. */
  function OrIf(evt: Word, cond: bool, k: nat): (r: Word)
    requires k < 32
    ensures forall j :: j in r <==> j in evt || (cond && j == k)
  {
    if cond then evt + {k} else evt
  }

  /** The program's sequence of tests, each or-ing one bit into `evt`. */
  method MapFlags(aps: nat -> bool) returns (evt: Word)
    ensures evt == StandardFlags(aps)
  {
    evt := LowFlags(aps);
    evt := OrIf(evt, aps(2) || aps(4) || aps(6) || aps(23) || aps(33) || aps(35) || aps(37) || aps(44), 10);
    evt := OrIf(evt, aps(3) || aps(5) || aps(7) || aps(24) || aps(34) || aps(36) || aps(38) || aps(45), 11);
    evt := OrIf(evt, aps(21), 4);
    evt := OrIf(evt, aps(28), 15);
    forall k: nat | k < 32
      ensures k in evt <==> k < 16 && Raised(aps, k)
    {
    }
  }

  method LowFlags(aps: nat -> bool) returns (evt: Word)
    ensures forall k: nat :: k in evt <==> k < 10 && k != 4 && Raised(aps, k)
  {
    evt := {};
    evt := OrIf(evt, aps(17), 0);
    evt := OrIf(evt, aps(8) || aps(10) || aps(39) || aps(41), 1);
    evt := OrIf(evt, aps(19), 2);
    evt := OrIf(evt, aps(18), 6);
    evt := OrIf(evt, aps(16), 7);
    evt := OrIf(evt, aps(0) || aps(29) || aps(31), 8);
    evt := OrIf(evt, aps(1) || aps(30) || aps(32), 9);
  }

  /** The standard flag of one APsystems position, if it has one. */
  function FlagOf(n: nat): Option<nat> {
    match n
    case 0 => Some(8) case 1 => Some(9) case 2 => Some(10) case 3 => Some(11)
    case 4 => Some(10) case 5 => Some(11) case 6 => Some(10) case 7 => Some(11)
    case 8 => Some(1) case 10 => Some(1)
    case 16 => Some(7) case 17 => Some(0) case 18 => Some(6) case 19 => Some(2) case 21 => Some(4)
    case 23 => Some(10) case 24 => Some(11) case 28 => Some(15)
    case 29 => Some(8) case 30 => Some(9) case 31 => Some(8) case 32 => Some(9)
    case 33 => Some(10) case 34 => Some(11) case 35 => Some(10) case 36 => Some(11) case 37 => Some(10) case 38 => Some(11)
    case 39 => Some(1) case 41 => Some(1)
    case 44 => Some(10) case 45 => Some(11)
    case _ => None
  }

  /** Flag by flag and position by position the translation is one table: a standard flag is
      raised exactly if some set position has it. */
  lemma FlagsByPosition(b: EventBits, k: nat)
    ensures k in Evt1(b) <==> exists n: nat :: Aps(b, n) && FlagOf(n) == Some(k)
  {
    var aps := (n: nat) => Aps(b, n);
    if k in Evt1(b) {
      var n := SourceOf(aps, k);
      assert Aps(b, n);
    }
    forall n: nat | Aps(b, n) && FlagOf(n) == Some(k)
      ensures k in Evt1(b)
    {
      assert aps(n) && Raised(aps, k);
    }
  }

  lemma SourceOf(aps: nat -> bool, k: nat) returns (n: nat)
    requires Raised(aps, k)
    ensures aps(n) && FlagOf(n) == Some(k)
  {
    n :| n <= 45 && aps(n) && FlagOf(n) == Some(k);
  }

  method MapAPsystemsToSunSpecEvt1(b: EventBits) returns (evt: Word)
    ensures evt == Evt1(b)
  {
    evt := MapFlags((n: nat) => Aps(b, n));
  }

  /** The translated flags of a union are the union of the translated flags. */
  lemma Evt1OfOr(a: EventBits, b: EventBits)
    ensures Evt1(OrBits(a, b)) == Evt1(a) + Evt1(b)
  {
    var p, q, r := (n: nat) => Aps(OrBits(a, b), n), (n: nat) => Aps(a, n), (n: nat) => Aps(b, n);
    forall n: nat
      ensures p(n) <==> q(n) || r(n)
    {
      OrBitsAps(a, b, n);
    }
    FlagsOfOr(p, q, r);
  }

  lemma FlagsOfOr(p: nat -> bool, q: nat -> bool, r: nat -> bool)
    requires forall n :: p(n) <==> q(n) || r(n)
    ensures StandardFlags(p) == StandardFlags(q) + StandardFlags(r)
  {
    forall k: nat | k < 16
      ensures Raised(p, k) <==> Raised(q, k) || Raised(r, k)
    {
    }
  }

  /** The OR of the translated flags of every inverter. */
  function OrOfEvt1(invs: seq<Inverter>): Word {
    if invs == [] then {} else OrOfEvt1(invs[..|invs| - 1]) + Evt1(invs[|invs| - 1].eventBits)
  }

  /** The aggregate bank's event register is the OR of the per-inverter ones. */
  lemma {:induction false} TranslationIsHomomorphic(invs: seq<Inverter>)
    ensures Evt1(AggregateEventBits(invs)) == OrOfEvt1(invs)
  {
    if invs == [] {
      NoFlags((n: nat) => Aps(NO_EVENTS, n));
    } else {
      var front := invs[..|invs| - 1];
      TranslationIsHomomorphic(front);
      Evt1OfOr(AggregateEventBits(front), invs[|invs| - 1].eventBits);
    }
  }

  lemma NoFlags(p: nat -> bool)
    requires forall n :: !p(n)
    ensures StandardFlags(p) == {}
  {
  }

  /** The positions the translation consults. */
  const SOURCES: set<nat> := {
    0, 1, 2, 3, 4, 5, 6, 7, 8, 10, 16, 17, 18, 19, 21, 23, 24, 28, 29, 30, 31, 32,
    33, 34, 35, 36, 37, 38, 39, 41, 44, 45}

  /** Vendor-only positions never influence the translation. */
  lemma VendorBitsDoNotMatter(a: EventBits, b: EventBits)
    requires forall n :: n in SOURCES ==> (Aps(a, n) <==> Aps(b, n))
    ensures Evt1(a) == Evt1(b)
  {
    SameSources((n: nat) => Aps(a, n), (n: nat) => Aps(b, n));
  }

  lemma SameSources(p: nat -> bool, q: nat -> bool)
    requires forall n :: n in SOURCES ==> p(n) == q(n)
    ensures StandardFlags(p) == StandardFlags(q)
  {
    forall k: nat | k < 16
      ensures Raised(p, k) == Raised(q, k)
    {
    }
  }
}
