/** The register bank (internal/sunspec/encoder.go) and the blocks it is made of. */
module Banks {
  import opened Prelude

  const BASE: u16 := 40000
  const END_MODEL: u16 := 0xFFFF
  const MAGIC: seq<u16> := [0x5375, 0x6E53]

  /** A model: its identifier, the length it declares, and the registers after the
      two header registers. */
  datatype Block = Block(id: u16, len: u16, body: seq<u16>)

  /** The declared length is the number of registers that follow. */
  predicate Sound(b: Block) {
    b.len == |b.body| && b.id != END_MODEL && b.id != 0
  }

  function Render(b: Block): seq<u16> {
    [b.id, b.len] + b.body
  }

  function RenderAll(bs: seq<Block>): seq<u16> {
    if bs == [] then [] else Render(bs[0]) + RenderAll(bs[1..])
  }

  function BankRegs(bs: seq<Block>): seq<u16> {
    MAGIC + RenderAll(bs) + [END_MODEL, 0]
  }

  lemma Assoc(a: seq<u16>, b: seq<u16>, c: seq<u16>)
    ensures a + b + c == a + (b + c)
  {
  }

  lemma {:induction false} RenderConcat(bs: seq<Block>, cs: seq<Block>)
    ensures RenderAll(bs + cs) == RenderAll(bs) + RenderAll(cs)
  {
    if bs == [] {
      assert bs + cs == cs;
    } else {
      assert (bs + cs)[1..] == bs[1..] + cs;
      RenderConcat(bs[1..], cs);
    }
  }

  // ---- Strings -------------------------------------------------------------------

  /** The byte at position i of a string padded with zero bytes. */
  function PaddedByte(s: string, i: nat): u8 {
    if i < |s| then Wrap8(s[i] as int) else 0
  }

  /** A string packed two bytes to a register, cut or padded to n registers. */
  function PackString(s: string, n: nat): (r: seq<u16>)
    ensures |r| == n
    ensures forall i :: 0 <= i < n ==> r[i] == PaddedByte(s, 2 * i) * 0x100 + PaddedByte(s, 2 * i + 1)
  {
    if n == 0 then []
    else PackString(s, n - 1) + [PaddedByte(s, 2 * n - 2) * 0x100 + PaddedByte(s, 2 * n - 1)]
  }

  // ---- The growing bank ------------------------------------------------------------

  class Bank {
    var regs: seq<u16>

    constructor ()
      ensures regs == []
    {
      regs := [];
    }

    method Put16(vals: seq<u16>)
      modifies this
      ensures regs == old(regs) + vals
    {
      regs := regs + vals;
    }

    method PutAcc32(v: nat)
      modifies this
      ensures regs == old(regs) + Acc32(v)
    {
      var hi, lo := Wrap16(v / 0x1_0000), Wrap16(v);
      regs := regs + [hi, lo];
    }

    method PutString(s: string, registerCount: nat)
      modifies this
      ensures regs == old(regs) + PackString(s, registerCount)
    {
      var i := 0;
      while i < 2 * registerCount
        invariant i % 2 == 0 && 0 <= i <= 2 * registerCount
        invariant regs == old(regs) + PackString(s, i / 2)
      {
        regs := regs + [PaddedByte(s, i) * 0x100 + PaddedByte(s, i + 1)];
        i := i + 2;
      }
    }
  }

  // ---- Reading ---------------------------------------------------------------------

  /** The register at an absolute address, zero when out of range. */
  function At(regs: seq<u16>, addr: u16): u16 {
    if addr < BASE then 0
    else if addr - BASE >= |regs| then 0
    else regs[addr - BASE]
  }

  predicate Contains(regs: seq<u16>, addr: u16, count: u16) {
    count != 0 && addr >= BASE && Wrap32(addr + count) <= Wrap32(BASE + |regs|)
  }

  /** A read the bank contains returns exactly the addressed registers, provided the
      bank ends inside the address space. */
  method Slice(regs: seq<u16>, addr: u16, count: u16) returns (out: seq<u16>)
    ensures |out| == count && forall j :: 0 <= j < count ==> out[j] == At(regs, Wrap16(addr + j))
    ensures Contains(regs, addr, count) && BASE + |regs| <= 0x1_0000 ==>
      out == regs[addr - BASE..addr - BASE + count]
  {
    out := [];
    var i: u16 := 0;
    while i < count
      invariant 0 <= i <= count && |out| == i
      invariant forall j :: 0 <= j < i ==> out[j] == At(regs, Wrap16(addr + j))
    {
      out := out + [At(regs, Wrap16(addr + i))];
      i := i + 1;
    }
  }
}
