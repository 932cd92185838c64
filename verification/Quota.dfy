/** Contention for one key. Each script runs alone in Redis, so whatever any number of instances do is one
    sequence of script calls. */
module Quota {
  import opened Inventory

  datatype Call = Take(key: Key, qty: int) | Give(key: Key, id: nat) | Keep(key: Key, id: nat) | Gone(id: nat)

  function Do(inv: Depot, c: Call): Depot {
    match c
    case Take(key, qty) => if CanReserve(inv, key, qty) then Reserve(inv, key, qty, "", 0) else inv
    case Give(key, id) => Resolve(inv, key, id, RELEASE)
    case Keep(key, id) => Resolve(inv, key, id, COMMIT)
    case Gone(id) => Lapse(inv, id)
  }

  function DoAll(inv: Depot, calls: seq<Call>): Depot {
    if calls == [] then inv else Do(DoAll(inv, calls[..|calls| - 1]), calls[|calls| - 1])
  }

  /** Units of `key` that were granted. */
  function Granted(inv: Depot, calls: seq<Call>, key: Key): int {
    if calls == [] then 0
    else
      var before, c := calls[..|calls| - 1], calls[|calls| - 1];
      Granted(inv, before, key)
        + (if c.Take? && c.key == key && CanReserve(DoAll(inv, before), key, c.qty) then c.qty else 0)
  }

  /** Reservations of `key` that were asked for. */
  function Asked(calls: seq<Call>, key: Key): nat {
    if calls == [] then 0
    else Asked(calls[..|calls| - 1], key) + (if calls[|calls| - 1].Take? && calls[|calls| - 1].key == key then 1 else 0)
  }

  /** While nobody gives units of `key` back, never more are granted than were there, and the rest remain. */
  lemma {:induction false} NeverOversold(inv: Depot, calls: seq<Call>, key: Key)
    requires key in inv.stock && inv.stock[key] >= 0
    requires forall i :: 0 <= i < |calls| ==> !(calls[i].Give? && calls[i].key == key)
    ensures var after := DoAll(inv, calls);
      && key in after.stock && after.stock[key] == inv.stock[key] - Granted(inv, calls, key)
      && 0 <= Granted(inv, calls, key) <= inv.stock[key]
  {
    if calls != [] { NeverOversold(inv, calls[..|calls| - 1], key); }
  }

  /** Of any number of one-unit reservations, in any order and amid any other calls, exactly as many are granted
      as there were units. */
  lemma {:induction false} ExactQuota(inv: Depot, calls: seq<Call>, key: Key)
    requires key in inv.stock && inv.stock[key] >= 0
    requires forall i :: 0 <= i < |calls| ==> !(calls[i].Give? && calls[i].key == key)
    requires forall i :: 0 <= i < |calls| && calls[i].Take? && calls[i].key == key ==> calls[i].qty == 1
    ensures var n := Asked(calls, key);
      Granted(inv, calls, key) == if n < inv.stock[key] then n else inv.stock[key]
  {
    if calls != [] {
      ExactQuota(inv, calls[..|calls| - 1], key);
      NeverOversold(inv, calls[..|calls| - 1], key);
    }
  }
}
