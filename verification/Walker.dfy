/** Walking a bank as a linked list of models (internal/server/server.go,
    `findModelInBank`). */
module Walker {
  import opened Prelude
  import opened Banks

  /** The address after the last register, in 16 bits. */
  function End(regs: seq<u16>): u16 {
    Wrap16(BASE + Wrap16(|regs|))
  }

  /** One search, in the program's wrapping 16-bit arithmetic, on any registers at all. */
  function Find(regs: seq<u16>, id: u16, cur: u16): Option<u16>
    decreases 0x1_0000 - cur
  {
    var end := End(regs);
    if Wrap16(cur + 1) < end then
      var modId := At(regs, cur);
      if modId == END_MODEL then None
      else if modId == id then Some(cur)
      else
        var next := Wrap16(cur + 2 + At(regs, Wrap16(cur + 1)));
        if next <= cur || next > end then None else Find(regs, id, next)
    else None
  }

  method FindModelInBank(regs: seq<u16>, id: u16) returns (addr: u16, ok: bool)
    ensures Find(regs, id, BASE + 2) == if ok then Some(addr) else None
    ensures ok ==> At(regs, addr) == id
  {
    var cur: u16 := BASE + 2;
    var end := End(regs);
    while Wrap16(cur + 1) < end
      invariant Find(regs, id, BASE + 2) == Find(regs, id, cur)
      decreases 0x1_0000 - cur
    {
      var modId := At(regs, cur);
      if modId == END_MODEL {
        return 0, false;
      }
      if modId == id {
        return cur, true;
      }
      var modL := At(regs, Wrap16(cur + 1));
      var next := Wrap16(cur + 2 + modL);
      if next <= cur || next > end {
        return 0, false;
      }
      cur := next;
    }
    return 0, false;
  }

  /** On arbitrary contents, a model that is found is a register of the bank holding
      the requested identifier. */
  lemma {:induction false} FindIsSafe(regs: seq<u16>, id: u16, cur: u16)
    requires Find(regs, id, cur).Some?
    ensures var a := Find(regs, id, cur).value;
            At(regs, a) == id && cur <= a && (id != 0 ==> BASE <= a < BASE + |regs|)
    decreases 0x1_0000 - cur
  {
    if At(regs, cur) != id {
      FindIsSafe(regs, id, Wrap16(cur + 2 + At(regs, Wrap16(cur + 1))));
    }
  }

  // ---- Printed banks -------------------------------------------------------------------

  /** Where block k starts, relative to the bank's base. */
  function HeaderAt(bs: seq<Block>, k: nat): nat
    requires k <= |bs|
  {
    2 + |RenderAll(bs[..k])|
  }

  ghost predicate AllSound(bs: seq<Block>) {
    forall b :: b in bs ==> Sound(b)
  }

  /** The bank ends inside the 16-bit address space. */
  predicate Fits(bs: seq<Block>) {
    BASE + |BankRegs(bs)| <= 0xFFFF
  }

  /** The first block at or after k with the given identifier. */
  function IndexFrom(bs: seq<Block>, id: u16, k: nat): (r: Option<nat>)
    requires k <= |bs|
    ensures r.Some? ==> k <= r.value < |bs| && bs[r.value].id == id && forall j :: k <= j < r.value ==> bs[j].id != id
    ensures r.None? ==> forall j :: k <= j < |bs| ==> bs[j].id != id
    decreases |bs| - k
  {
    if k == |bs| then None else if bs[k].id == id then Some(k) else IndexFrom(bs, id, k + 1)
  }

  lemma HeaderStep(bs: seq<Block>, k: nat)
    requires k < |bs|
    ensures HeaderAt(bs, k + 1) == HeaderAt(bs, k) + 2 + |bs[k].body|
  {
    assert bs[..k + 1] == bs[..k] + [bs[k]];
    RenderConcat(bs[..k], [bs[k]]);
    assert [bs[k]][1..] == [];
  }

  lemma HeaderRegs(bs: seq<Block>, k: nat)
    requires k < |bs|
    ensures HeaderAt(bs, k) + 2 + |bs[k].body| + 2 <= |BankRegs(bs)|
    ensures BankRegs(bs)[HeaderAt(bs, k)..][..2 + |bs[k].body|] == Render(bs[k])
  {
    assert bs == bs[..k] + bs[k..] && bs[k..][0] == bs[k];
    RenderConcat(bs[..k], bs[k..]);
    var tail := RenderAll(bs[k..][1..]);
    assert RenderAll(bs[k..]) == Render(bs[k]) + tail;
    SliceOfThree(MAGIC + RenderAll(bs[..k]), Render(bs[k]), tail + [END_MODEL, 0]);
    assert BankRegs(bs) == (MAGIC + RenderAll(bs[..k])) + Render(bs[k]) + (tail + [END_MODEL, 0]);
  }

  lemma SliceOfThree(a: seq<u16>, b: seq<u16>, c: seq<u16>)
    ensures (a + b + c)[|a|..][..|b|] == b
  {
  }

  /** The two header registers and the body of a printed block, by address. */
  lemma PrintedBlock(bs: seq<Block>, k: nat)
    requires k < |bs| && Fits(bs)
    ensures var a := BASE + HeaderAt(bs, k); var regs := BankRegs(bs);
            && a + 2 + |bs[k].body| + 2 <= BASE + |regs| && At(regs, a) == bs[k].id && At(regs, a + 1) == bs[k].len
            && forall j :: 0 <= j < |bs[k].body| ==> At(regs, a + 2 + j) == bs[k].body[j]
  {
    HeaderRegs(bs, k);
    var regs, h := BankRegs(bs), HeaderAt(bs, k);
    var r := Render(bs[k]);
    forall j | 0 <= j < |r|
      ensures regs[h + j] == r[j]
    {
      assert regs[h..][..2 + |bs[k].body|][j] == regs[h + j];
    }
    assert forall j :: 0 <= j < |bs[k].body| ==> r[2 + j] == bs[k].body[j];
  }

  lemma EndMarker(bs: seq<Block>)
    ensures HeaderAt(bs, |bs|) + 2 == |BankRegs(bs)|
    ensures BankRegs(bs)[HeaderAt(bs, |bs|)..] == [END_MODEL, 0]
  {
    assert bs[..|bs|] == bs;
  }

  /** One step of a walk over a printed bank: nothing wraps, and the next header is
      the next block's. */
  lemma Step(bs: seq<Block>, k: nat)
    requires k < |bs| && AllSound(bs) && Fits(bs)
    ensures HeaderAt(bs, k + 1) + 2 <= |BankRegs(bs)| && HeaderAt(bs, k) < HeaderAt(bs, k + 1)
    ensures var cur, regs := BASE + HeaderAt(bs, k), BankRegs(bs);
            && cur + 1 < End(regs) && At(regs, cur) == bs[k].id != END_MODEL
            && BASE + HeaderAt(bs, k + 1) == cur + 2 + At(regs, cur + 1) <= End(regs)
  {
    hide BankRegs, RenderAll;
    assert bs[k] in bs;
    HeaderStep(bs, k);
    PrintedBlock(bs, k);
  }

  lemma LastStep(bs: seq<Block>)
    requires Fits(bs)
    ensures var cur, regs := BASE + HeaderAt(bs, |bs|), BankRegs(bs);
            cur + 1 < End(regs) && At(regs, cur) == END_MODEL
  {
    EndMarker(bs);
    assert BankRegs(bs)[HeaderAt(bs, |bs|)] == BankRegs(bs)[HeaderAt(bs, |bs|)..][0];
  }

  lemma FindUnfolds(regs: seq<u16>, id: u16, cur: u16, next: u16)
    requires cur + 1 < End(regs) && At(regs, cur) != END_MODEL
    requires cur < next == cur + 2 + At(regs, cur + 1) <= End(regs)
    ensures Find(regs, id, cur) == if At(regs, cur) == id then Some(cur) else Find(regs, id, next)
  {
    hide At, End;
    assert Wrap16(cur + 1) == cur + 1 && Wrap16(cur + 2 + At(regs, cur + 1)) == next;
  }

  /** From any header, the search finds exactly the first block at or after it with the
      identifier, and nothing else: body registers are never mistaken for headers. */
  lemma {:induction false} FindFrom(bs: seq<Block>, id: u16, k: nat)
    requires k <= |bs| && AllSound(bs) && Fits(bs) && id != END_MODEL
    ensures HeaderAt(bs, k) + 2 <= |BankRegs(bs)|
    ensures Find(BankRegs(bs), id, BASE + HeaderAt(bs, k))
         == match IndexFrom(bs, id, k) case Some(i) => Some(BASE + HeaderAt(bs, i)) case None => None
    decreases |bs| - k
  {
    EndMarker(bs);
    hide BankRegs, HeaderAt;
    if k == |bs| {
      LastStep(bs);
    } else {
      Step(bs, k);
      FindUnfolds(BankRegs(bs), id, BASE + HeaderAt(bs, k), BASE + HeaderAt(bs, k + 1));
      FindFrom(bs, id, k + 1);
    }
  }

  /** The round trip: in a printed bank a model is found exactly when a block with that
      identifier was emitted, at the address of the first one's header. */
  lemma FindInPrinted(bs: seq<Block>, id: u16)
    requires AllSound(bs) && Fits(bs) && id != END_MODEL
    ensures Find(BankRegs(bs), id, BASE + 2)
         == match IndexFrom(bs, id, 0) case Some(i) => Some(BASE + HeaderAt(bs, i)) case None => None
  {
    assert bs[..0] == [];
    FindFrom(bs, id, 0);
  }

  // ---- The whole walk ---------------------------------------------------------------------

  /** Every header a client visits, ending with the end marker if it is reached. */
  function Walk(regs: seq<u16>, cur: u16): seq<u16>
    decreases 0x1_0000 - cur
  {
    var end := End(regs);
    if Wrap16(cur + 1) < end then
      var next := Wrap16(cur + 2 + At(regs, Wrap16(cur + 1)));
      if At(regs, cur) == END_MODEL || next <= cur || next > end then [cur] else [cur] + Walk(regs, next)
    else []
  }

  function Headers(bs: seq<Block>, k: nat): (r: seq<u16>)
    requires k <= |bs| && Fits(bs)
    decreases |bs| - k
  {
    EndMarker(bs);
    if k == |bs| then [BASE + HeaderAt(bs, k)]
    else
      HeaderRegs(bs, k);
      [BASE + HeaderAt(bs, k)] + Headers(bs, k + 1)
  }

  lemma {:induction false} HeadersInOrder(bs: seq<Block>, k: nat, i: nat)
    requires k <= i <= |bs| && Fits(bs)
    ensures |Headers(bs, k)| == |bs| - k + 1 && Headers(bs, k)[i - k] == BASE + HeaderAt(bs, i)
    decreases |bs| - k
  {
    if k < |bs| {
      HeadersInOrder(bs, k + 1, if i == k then k + 1 else i);
    }
  }

  lemma WalkUnfolds(regs: seq<u16>, cur: u16, next: u16)
    requires cur + 1 < End(regs) && At(regs, cur) != END_MODEL
    requires cur < next == cur + 2 + At(regs, cur + 1) <= End(regs)
    ensures Walk(regs, cur) == [cur] + Walk(regs, next)
  {
    hide At, End;
  }

  /** The walk visits exactly the emitted headers, in order, and stops on the end
      marker in the bank's last two registers. */
  lemma {:induction false} WalkFrom(bs: seq<Block>, k: nat)
    requires k <= |bs| && AllSound(bs) && Fits(bs)
    ensures HeaderAt(bs, k) + 2 <= |BankRegs(bs)|
    ensures Walk(BankRegs(bs), BASE + HeaderAt(bs, k)) == Headers(bs, k)
    decreases |bs| - k
  {
    EndMarker(bs);
    hide BankRegs, HeaderAt, At, End, AllSound;
    if k == |bs| {
      LastStep(bs);
    } else {
      Step(bs, k);
      WalkFrom(bs, k + 1);
      WalkUnfolds(BankRegs(bs), BASE + HeaderAt(bs, k), BASE + HeaderAt(bs, k + 1));
    }
  }

  lemma WalkVisitsEveryModel(bs: seq<Block>, i: nat)
    requires i <= |bs| && AllSound(bs) && Fits(bs)
    ensures var visited := Walk(BankRegs(bs), BASE + 2); var regs := BankRegs(bs);
            && |visited| == |bs| + 1
            && (i < |bs| ==> At(regs, visited[i]) == bs[i].id)
            && At(regs, visited[|bs|]) == END_MODEL && visited[|bs|] == BASE + |regs| - 2
            && regs[|regs| - 1] == 0
  {
    assert bs[..0] == [];
    WalkFrom(bs, 0);
    HeadersInOrder(bs, 0, i);
    HeadersInOrder(bs, 0, |bs|);
    EndMarker(bs);
    var regs := BankRegs(bs);
    assert regs[|regs| - 2] == regs[HeaderAt(bs, |bs|)..][0] && regs[|regs| - 1] == regs[HeaderAt(bs, |bs|)..][1];
    if i < |bs| {
      PrintedBlock(bs, i);
    }
  }
}
