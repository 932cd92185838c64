/** `InMemoryRedisClient`: two maps, and keys that are deleted only when somebody looks. */
module InMemoryRedis {
  import opened Wrappers
  import opened Decimal
  import opened Redis

  /** The two maps read as cells, dead ones included. */
  ghost function Cells(store: map<string, string>, expiresAt: map<string, int>): Db {
    map k | k in store :: Cell(store[k], if k in expiresAt then Some(expiresAt[k]) else None)
  }

  lemma CellsPut(store: map<string, string>, expiresAt: map<string, int>, key: string, value: string, expires: int,
                 now: int)
    requires expires > now
    ensures Live(Cells(store[key := value], expiresAt[key := expires]), now)
      == SetEx(Live(Cells(store, expiresAt), now), key, value, expires)
  {
  }

  lemma CellsSet(store: map<string, string>, expiresAt: map<string, int>, key: string, value: string, now: int)
    ensures Live(Cells(store[key := value], expiresAt - {key}), now)
      == Redis.Set(Live(Cells(store, expiresAt), now), key, value)
  {
  }

  lemma CellsDrop(store: map<string, string>, expiresAt: map<string, int>, key: string, now: int)
    ensures Live(Cells(store - {key}, expiresAt - {key}), now) == Redis.Del(Live(Cells(store, expiresAt), now), key)
  {
  }

  /** After `i` calls the client has answered as an eager database would, and shows what that would hold. */
  ghost predicate Follows(db: Db, calls: seq<(int, Command)>, i: nat, view: Db, replies: seq<Reply>) {
    && Numeric(db) && i <= |calls| && AllSane(calls)
    && replies == Eager(db, calls, i).1
    && (if i == 0 then view == db else Live(view, calls[i - 1].0) == Eager(db, calls, i).0)
  }

  lemma FollowsNow(db: Db, calls: seq<(int, Command)>, i: nat, view: Db, replies: seq<Reply>)
    requires Follows(db, calls, i, view, replies) && i < |calls| && (i > 0 ==> calls[i - 1].0 <= calls[i].0)
    ensures Live(view, calls[i].0) == Live(Eager(db, calls, i).0, calls[i].0) && Numeric(Live(view, calls[i].0))
  {
    EagerNext(db, calls, i);
    if i > 0 { LiveTwice(view, calls[i - 1].0, calls[i].0); }
  }

  lemma FollowsNext(db: Db, calls: seq<(int, Command)>, i: nat, view: Db, replies: seq<Reply>, view': Db, r: Reply)
    requires Follows(db, calls, i, view, replies) && i < |calls| && (i > 0 ==> calls[i - 1].0 <= calls[i].0)
    requires Numeric(Live(view, calls[i].0))
    requires (Live(view', calls[i].0), r) == Serve(Live(view, calls[i].0), calls[i].0, calls[i].1)
    ensures Follows(db, calls, i + 1, view', replies + [r])
  {
    FollowsNow(db, calls, i, view, replies);
    EagerNext(db, calls, i);
  }

  class InMemoryRedisClient {
    var store: map<string, string>
    var expiresAt: map<string, int>

    ghost predicate Valid() reads this { expiresAt.Keys <= store.Keys }

    ghost function View(): Db reads this { Cells(store, expiresAt) }

    constructor ()
      ensures Valid() && View() == map[]
    {
      store, expiresAt := map[], map[];
    }

    /** Whether `key` is there; looking removes it if its time is up. */
    method IsLive(key: string, now: int) returns (live: bool)
      requires Valid()
      modifies this
      ensures Valid() && Live(View(), now) == Live(old(View()), now)
      ensures live <==> key in Live(View(), now)
      ensures live <==> key in old(store) && (key in old(expiresAt) ==> now < old(expiresAt)[key])
      ensures key in store <==> live
    {
      if key in expiresAt && expiresAt[key] <= now {
        store := store - {key};
        expiresAt := expiresAt - {key};
        return false;
      }
      return key in store;
    }

    method Get(key: string, now: int) returns (r: Option<string>)
      requires Valid()
      modifies this
      ensures Valid() && Live(View(), now) == Live(old(View()), now)
      ensures r == Redis.Get(Live(old(View()), now), key)
      ensures r == if key in old(store) && (key in old(expiresAt) ==> now < old(expiresAt)[key])
                   then Some(old(store)[key]) else None
    {
      var live := IsLive(key, now);
      r := if live then Some(store[key]) else None;
    }

    method Set(key: string, value: string, now: int)
      requires Valid()
      modifies this
      ensures Valid() && Live(View(), now) == Redis.Set(Live(old(View()), now), key, value)
      ensures key in store && store[key] == value && key !in expiresAt
    {
      CellsSet(store, expiresAt, key, value, now);
      store := store[key := value];
      expiresAt := expiresAt - {key};
    }

    method Del(keys: seq<string>, now: int) returns (count: nat)
      requires Valid()
      modifies this
      ensures Valid() && (Live(View(), now), count) == DelAll(Live(old(View()), now), keys)
    {
      count := 0;
      for i := 0 to |keys|
        invariant Valid() && (Live(View(), now), count) == DelAll(Live(old(View()), now), keys[..i])
      {
        assert keys[..i + 1][..i] == keys[..i];
        var live := IsLive(keys[i], now);
        if live { count := count + 1; }
        Drop(keys[i], now);
      }
      assert keys[..|keys|] == keys;
    }

    /** `store.set` on a key just looked at: its time to live, if any, stays. */
    method Put(key: string, value: string, now: int)
      requires Valid() && (key in store ==> key in Live(View(), now))
      modifies this
      ensures Valid() && (key in store ==> key in Live(View(), now))
      ensures var db := Live(old(View()), now);
        Live(View(), now) == db[key := Cell(value, if key in db then db[key].expires else None)]
      ensures expiresAt == old(expiresAt)
    {
      store := store[key := value];
    }

    method PutExpiring(key: string, value: string, expires: int, now: int)
      requires Valid() && expires > now
      modifies this
      ensures Valid() && Live(View(), now) == SetEx(Live(old(View()), now), key, value, expires)
    {
      CellsPut(store, expiresAt, key, value, expires, now);
      store := store[key := value];
      expiresAt := expiresAt[key := expires];
    }

    method Drop(key: string, now: int)
      requires Valid()
      modifies this
      ensures Valid() && Live(View(), now) == Redis.Del(Live(old(View()), now), key)
    {
      CellsDrop(store, expiresAt, key, now);
      store := store - {key};
      expiresAt := expiresAt - {key};
    }

    method EvalReserve(stockKey: string, resvKey: string, qty: int, ttl: int, now: int) returns (r: Reply)
      requires Valid() && ttl > 0 && Readable(Live(View(), now))
      modifies this
      ensures Valid() && (Live(View(), now), r) ==
        ReserveScript(Live(old(View()), now), now, stockKey, resvKey, qty, ttl)
    {
      if qty <= 0 { return Failure("INVALID_QTY"); }
      var live := IsLive(stockKey, now);
      if !live { return Pair("UNKNOWN_SKU", 0); }
      assert Live(View(), now)[stockKey].value == store[stockKey];
      var available := Number(store[stockKey]).value;
      if available < qty { return Pair("INSUFFICIENT_STOCK", available); }
      var remaining := available - qty;
      Take(stockKey, resvKey, remaining, qty, now + ttl * 1000, now);
      return Pair("OK", remaining);
    }

    /** The two writes of an accepted reservation. */
    method Take(stockKey: string, resvKey: string, remaining: int, qty: int, expires: int, now: int)
      requires Valid() && expires > now && stockKey in Live(View(), now)
      modifies this
      ensures var db := Live(old(View()), now);
        && Valid()
        && Live(View(), now)
          == SetEx(db[stockKey := Cell(Show(remaining), db[stockKey].expires)], resvKey, Show(qty), expires)
    {
      Put(stockKey, Show(remaining), now);
      PutExpiring(resvKey, Show(qty), expires, now);
    }

    method EvalRelease(stockKey: string, resvKey: string, mode: string, now: int) returns (r: Reply)
      requires Valid() && Readable(Live(View(), now))
      modifies this
      ensures Valid() && (Live(View(), now), r) == ReleaseScript(Live(old(View()), now), stockKey, resvKey, mode)
    {
      var live := IsLive(resvKey, now);
      if !live { return Pair("ALREADY_RESOLVED", 0); }
      assert Live(View(), now)[resvKey].value == store[resvKey];
      var qty := Number(store[resvKey]).value;
      Drop(resvKey, now);
      if mode == "RELEASE" {
        var stocked := IsLive(stockKey, now);
        assert stocked ==> Live(View(), now)[stockKey].value == store[stockKey];
        var current := if stocked then Number(store[stockKey]).value else 0;
        Put(stockKey, Show(current + qty), now);
        return Pair("RELEASED", qty);
      }
      if mode == "COMMIT" { return Pair("COMMITTED", qty); }
      return Failure("INVALID_MODE");
    }

    method Call(c: Command, now: int) returns (r: Reply)
      requires Valid() && Numeric(Live(View(), now)) && Sane(c)
      modifies this
      ensures Valid() && (Live(View(), now), r) == Serve(Live(old(View()), now), now, c)
    {
      NumericReadable(Live(View(), now));
      match c
      case GET(key) => var text := Get(key, now); r := Bulk(text);
      case SET(key, value) => Set(key, value, now); r := Ok;
      case DEL(keys) => var n := Del(keys, now); r := Count(n);
      case RESERVE(stockKey, resvKey, qty, ttl) => r := EvalReserve(stockKey, resvKey, qty, ttl, now);
      case RELEASE(stockKey, resvKey, mode) => r := EvalRelease(stockKey, resvKey, mode, now);
    }

    /** Lazy deletion cannot be observed: over any run of commands at non-decreasing times the client answers as
        Redis with eager expiry does. */
    method Replay(calls: seq<(int, Command)>) returns (replies: seq<Reply>)
      requires Valid() && Numeric(View()) && Redis.Run(calls)
      modifies this
      ensures Valid() && replies == Eager(old(View()), calls, |calls|).1
      ensures calls != [] ==> Live(View(), calls[|calls| - 1].0) == Eager(old(View()), calls, |calls|).0
    {
      replies := [];
      ghost var db := View();
      for i := 0 to |calls|
        invariant Valid() && Follows(db, calls, i, View(), replies)
      {
        var (now, c) := calls[i];
        ghost var view, before := View(), replies;
        FollowsNow(db, calls, i, view, before);
        var r := Call(c, now);
        replies := replies + [r];
        FollowsNext(db, calls, i, view, before, View(), r);
      }
    }
  }
}
