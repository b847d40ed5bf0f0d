/** The asynchronous result of protection writes (internal/server/write_tracker.go). */
module Tracker {
  import opened Prelude
  import opened Snapshots
  import FreqDroop

  const IN_PROGRESS: u16 := FreqDroop.IN_PROGRESS
  const COMPLETED: u16 := FreqDroop.COMPLETED
  const FAILED: u16 := FreqDroop.FAILED

  /** Nanoseconds. */
  const SECOND: int := 1_000_000_000
  const WRITE_DEADLINE: int := 15 * 60 * SECOND

  datatype Key = Key(unit: u8, model: u16)

  datatype Entry = Entry(reqCounter: u16, rslt: u16, expected: map<string, real>, deadline: int)

  type Entries = map<Key, Entry>

  const NEW_ENTRY := Entry(0, 0, map[], 0)

  /** The reported value of a two-letter code; the freq-watt curve codes DH, DI and CB
      have no case, so they read as unreported. */
  function ProtGet(p: Protection, code: string): Option<real> {
    if code !in p.has then None
    else match code
      case "AB" => Some(p.avgOV)
      case "AC" => Some(p.uvStg2)
      case "AD" => Some(p.ovStg2)
      case "AE" => Some(p.ufSlow)
      case "AF" => Some(p.ofSlow)
      case "AG" => Some(p.reconnectS)
      case "AH" => Some(p.vWinLow)
      case "AI" => Some(p.vWinHi)
      case "AJ" => Some(p.ufFast)
      case "AK" => Some(p.ofFast)
      case "AQ" => Some(p.uvFast)
      case "AS" => Some(p.startS)
      case "AY" => Some(p.ovStg3)
      case "BB" => Some(p.uv2ClrS)
      case "BC" => Some(p.ov2ClrS)
      case "BD" => Some(p.uv3ClrS)
      case "BE" => Some(p.ov3ClrS)
      case "BH" => Some(p.uf1ClrS)
      case "BI" => Some(p.of1ClrS)
      case "BJ" => Some(p.uf2ClrS)
      case "BK" => Some(p.of2ClrS)
      case "BN" => Some(p.reconnVLow)
      case "BO" => Some(p.reconnVHi)
      case "BP" => Some(p.reconnFLow)
      case "BQ" => Some(p.reconnFHi)
      case "CC" => Some(p.ofDroopEnd)
      case "CV" => Some(p.ofDroopMode)
      case "DC" => Some(p.ofDroopStart)
      case "DD" => Some(p.ofDroopSlope)
      case _ => None
  }

  predicate MatchesOne(p: Protection, code: string, expected: real) {
    ProtGet(p, code).Some? && FreqDroop.Near(ProtGet(p, code).value, expected)
  }

  /** Every expected code is reported within tolerance; no expectation never matches. */
  predicate MatchesAll(p: Protection, want: map<string, real>) {
    want != map[] && forall code | code in want :: MatchesOne(p, code, want[code])
  }

  /** The program's comparison loop over the expectation, in any order. */
  method CheckMatchesAll(p: Protection, want: map<string, real>) returns (ok: bool)
    ensures ok <==> MatchesAll(p, want)
  {
    if |want| == 0 {
      assert want == map[];
      return false;
    }
    var codes := want.Keys;
    while codes != {}
      invariant codes <= want.Keys
      invariant forall code :: code in want && code !in codes ==> MatchesOne(p, code, want[code])
      decreases codes
    {
      var code :| code in codes;
      var actual := ProtGet(p, code);
      if actual.None? || actual.value - want[code] > FreqDroop.TOLERANCE || want[code] - actual.value > FreqDroop.TOLERANCE {
        assert !MatchesOne(p, code, want[code]);
        return false;
      }
      codes := codes - {code};
    }
    return true;
  }

  function InverterOf(s: Snapshot, unit: u8): Option<string> {
    if Mapped(s, unit) then Some(s.inverters[unit - 2].uid) else None
  }

  /** What one reconciliation makes of an entry. */
  function Settle(e: Entry, s: Snapshot, unit: u8, now: int): Entry {
    if e.rslt != IN_PROGRESS then e
    else if Matched(e, s, unit) then e.(rslt := COMPLETED)
    else if now > e.deadline then e.(rslt := FAILED)
    else e
  }

  /** The unit still names an inverter and it reports everything that was asked for. */
  predicate Matched(e: Entry, s: Snapshot, unit: u8) {
    Mapped(s, unit) && MatchesAll(ProtectionOf(s, s.inverters[unit - 2].uid), e.expected)
  }

  predicate Stale(e: Entry, grace: int, now: int) {
    e.rslt != IN_PROGRESS && now > e.deadline + grace
  }

  function Tracked(entries: Entries, key: Key, expected: map<string, real>, now: int): Entries {
    var e := if key in entries then entries[key] else NEW_ENTRY;
    entries[key := Entry(Wrap16(e.reqCounter + 1), IN_PROGRESS, expected, now + WRITE_DEADLINE)]
  }

  function Reconciled(entries: Entries, s: Snapshot, now: int): Entries {
    map key | key in entries :: Settle(entries[key], s, key.unit, now)
  }

  function Pruned(entries: Entries, grace: int, now: int): Entries {
    map key | key in entries && !Stale(entries[key], grace, now) :: entries[key]
  }

  function Lookup(entries: Entries, key: Key): (u16, u16) {
    if key in entries then (entries[key].rslt, entries[key].reqCounter) else (COMPLETED, 0)
  }

  class WriteTracker {
    var entries: Entries

    constructor ()
      ensures entries == map[]
    {
      entries := map[];
    }

    method Track(unit: u8, model: u16, expected: map<string, real>, now: int)
      modifies this
      ensures entries == Tracked(old(entries), Key(unit, model), expected, now)
    {
      var key := Key(unit, model);
      var e := NEW_ENTRY;
      if key in entries {
        e := entries[key];
      }
      e := e.(reqCounter := Wrap16(e.reqCounter + 1));
      e := e.(rslt := IN_PROGRESS);
      e := e.(expected := expected);
      e := e.(deadline := now + WRITE_DEADLINE);
      entries := entries[key := e];
    }

    method Get(unit: u8, model: u16) returns (rslt: u16, req: u16)
      ensures (rslt, req) == Lookup(entries, Key(unit, model))
    {
      if Key(unit, model) in entries {
        return entries[Key(unit, model)].rslt, entries[Key(unit, model)].reqCounter;
      }
      return COMPLETED, 0;
    }

    /** The walk over all entries, in any order. */
    method Reconcile(s: Snapshot, now: int)
      modifies this
      ensures entries == Reconciled(old(entries), s, now)
    {
      var keys := entries.Keys;
      while keys != {}
        invariant keys <= entries.Keys == old(entries).Keys
        invariant forall k :: k in entries && k in keys ==> entries[k] == old(entries)[k]
        invariant forall k :: k in entries && k !in keys ==> entries[k] == Settle(old(entries)[k], s, k.unit, now)
        decreases keys
      {
        var key :| key in keys;
        keys := keys - {key};
        var e := entries[key];
        if e.rslt == IN_PROGRESS {
          var uid := InverterOf(s, key.unit);
          if uid.None? {
            if now > e.deadline {
              e := e.(rslt := FAILED);
            }
          } else {
            var ok := CheckMatchesAll(ProtectionOf(s, uid.value), e.expected);
            if ok {
              e := e.(rslt := COMPLETED);
            } else if now > e.deadline {
              e := e.(rslt := FAILED);
            }
          }
          entries := entries[key := e];
        }
      }
    }

    method PruneSettled(grace: int, now: int)
      modifies this
      ensures entries == Pruned(old(entries), grace, now)
    {
      var keys := entries.Keys;
      while keys != {}
        invariant keys <= entries.Keys <= old(entries).Keys
        invariant forall k :: k in keys ==> entries[k] == old(entries)[k]
        invariant forall k :: k in old(entries) && k !in keys ==>
          (k in entries <==> !Stale(old(entries)[k], grace, now)) && (k in entries ==> entries[k] == old(entries)[k])
        decreases keys
      {
        var key :| key in keys;
        keys := keys - {key};
        var e := entries[key];
        if e.rslt != IN_PROGRESS && now > e.deadline + grace {
          entries := entries - {key};
        }
      }
    }
  }

  // ---- Single steps ----------------------------------------------------------------------------

  /** A reconciliation moves a request only from IN_PROGRESS: to COMPLETED exactly when
      the new snapshot matches it, to FAILED exactly when it does not and the deadline
      has strictly passed; nothing else about the request changes. */
  lemma ReconcileMoves(entries: Entries, s: Snapshot, now: int, key: Key)
    requires key in entries
    ensures var e := entries[key]; var after := Reconciled(entries, s, now);
            && after.Keys == entries.Keys
            && after[key].(rslt := e.rslt) == e
            && (after[key].rslt != e.rslt ==> e.rslt == IN_PROGRESS)
            && (e.rslt == IN_PROGRESS ==>
                 && (after[key].rslt == COMPLETED <==> Matched(e, s, key.unit))
                 && (after[key].rslt == FAILED <==> !Matched(e, s, key.unit) && now > e.deadline))
  {
    assert Reconciled(entries, s, now).Keys == entries.Keys;
  }

  /** The snapshot's record of the inverter at index unit-2 reports the value for a code,
      within 0.05.  Of the codes that requests expect, the program looks at these four. */
  predicate Reports(s: Snapshot, unit: u8, code: string, value: real) {
    && 2 <= unit && unit - 2 < |s.inverters|
    && var uid := s.inverters[unit - 2].uid;
       uid in s.protection && code in s.protection[uid].has
       && var p := s.protection[uid];
          || (code == "DC" && value - 0.05 <= p.ofDroopStart <= value + 0.05)
          || (code == "DD" && value - 0.05 <= p.ofDroopSlope <= value + 0.05)
          || (code == "CV" && value - 0.05 <= p.ofDroopMode <= value + 0.05)
          || (code == "CC" && value - 0.05 <= p.ofDroopEnd <= value + 0.05)
  }

  predicate Requestable(code: string) {
    code == "DC" || code == "DD" || code == "CV" || code == "CC" || code == "DH" || code == "DI" || code == "CB"
  }

  /** Settling, from the report: a reconciliation completes a request in progress exactly if
      the snapshot reports the requested value, whatever else it holds; otherwise it fails
      it exactly if the deadline has strictly passed.  Everything else stays. */
  lemma SettlesByReport(entries: Entries, s: Snapshot, now: int, key: Key, code: string, value: real)
    requires key in entries && entries[key].expected == map[code := value] && Requestable(code)
    ensures var e, after := entries[key], Reconciled(entries, s, now);
            && after.Keys == entries.Keys
            && after[key].(rslt := e.rslt) == e
            && after[key].rslt
               == if e.rslt != 0 then e.rslt else if Reports(s, key.unit, code, value) then 1 else if now > e.deadline then 2 else 0
  {
    assert Reconciled(entries, s, now).Keys == entries.Keys;
    MatchesByReport(entries[key], s, key.unit, code, value);
    hide Matched, Reports;
  }

  lemma MatchesByReport(e: Entry, s: Snapshot, unit: u8, code: string, value: real)
    requires e.expected == map[code := value] && Requestable(code)
    ensures Matched(e, s, unit) <==> Reports(s, unit, code, value)
  {
    assert code in e.expected && forall c :: c in e.expected ==> c == code;
    if Mapped(s, unit) {
      var p := ProtectionOf(s, s.inverters[unit - 2].uid);
      assert MatchesAll(p, e.expected) <==> MatchesOne(p, code, value);
    }
    hide MatchesAll;
  }

  /** A tracked request waits with the next counter for at most 900 seconds. */
  lemma TrackedStarts(entries: Entries, key: Key, expected: map<string, real>, now: int)
    ensures var after := Tracked(entries, key, expected, now);
            && after.Keys == entries.Keys + {key}
            && (forall other :: other in entries && other != key ==> after[other] == entries[other])
            && after[key].expected == expected && after[key].rslt == 0 && after[key].deadline == now + 900_000_000_000
            && after[key].reqCounter as int == ((if key in entries then entries[key].reqCounter as int else 0) + 1) % 65536
  {
  }

  /** Pruning removes settled requests only, and only past deadline and grace. */
  lemma PruneKeeps(entries: Entries, grace: int, now: int, key: Key)
    requires key in entries
    ensures var after := Pruned(entries, grace, now);
            && (key in after <==> !Stale(entries[key], grace, now))
            && (key in after ==> after[key] == entries[key])
  {
  }

  /** After a refresh (reconciliation at t, pruning no earlier) no entry is older than
      deadline plus grace. */
  lemma RefreshBoundsAge(entries: Entries, s: Snapshot, grace: nat, t: int, later: int, key: Key)
    requires t <= later && key in Pruned(Reconciled(entries, s, t), grace, later)
    ensures var e := Pruned(Reconciled(entries, s, t), grace, later)[key];
            && e.deadline + grace >= t
            && (e.rslt == IN_PROGRESS ==> e.deadline >= t)
            && (e.rslt != IN_PROGRESS ==> e.deadline + grace >= later)
  {
  }

  /** A request for a freq-watt curve code without a case can never complete. */
  lemma CurveCodesNeverMatch(p: Protection, want: map<string, real>)
    requires "DH" in want || "DI" in want || "CB" in want
    ensures !MatchesAll(p, want)
  {
    assert ProtGet(p, "DH").None? && ProtGet(p, "DI").None? && ProtGet(p, "CB").None?;
    assert forall code :: code in want && ProtGet(p, code).None? ==> !MatchesOne(p, code, want[code]);
  }
}
