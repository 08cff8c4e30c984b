/** The daily usage ledger of wikipolicyd/db.py: how many GB of "turbo"
    data were bought on each calendar date, kept in a key-value store under
    the key `gb_used:YYYY-MM-DD`. */
module Storage {
  import opened Wrappers
  import opened Dates

  /** The amount `add_used_gb` adds when the caller gives none. */
  const DefaultGb: int := 1

  datatype LedgerError = CouldNotUpdateDb

  /** One call made on the key-value store, in the order it was made. */
  datatype StoreCall = Get(key: string) | Set(key: string, value: int)

  /** The store key a date's count lives under (`Db._gb_used_key`). */
  function GbUsedKey(d: CalendarDate): (k: string)
    ensures |k| == 18 && k[..8] == "gb_used:"
  {
    "gb_used:" + IsoFormat(d)
  }

  /** Different dates never share a key. */
  lemma GbUsedKeyInjective(d: CalendarDate, e: CalendarDate)
    ensures GbUsedKey(d) == GbUsedKey(e) <==> d == e
  {
    if GbUsedKey(d) == GbUsedKey(e) {
      assert IsoFormat(d) == GbUsedKey(d)[8..];
      assert IsoFormat(e) == GbUsedKey(e)[8..];
      IsoFormatInjective(d, e);
    }
  }

  // ---------------------------------------------------------------------
  // The ledger as a value: the store's contents, a map from key to count.

  /** What `used_gb(d)` reads from store contents `m`: the stored count, or 0. */
  function UsedIn(m: map<string, int>, d: CalendarDate): int {
    if GbUsedKey(d) in m then m[GbUsedKey(d)] else 0
  }

  /** The store contents after a successful `add_used_gb(d, gb)`. */
  function Added(m: map<string, int>, d: CalendarDate, gb: int): map<string, int> {
    m[GbUsedKey(d) := UsedIn(m, d) + gb]
  }

  /** One successful `add_used_gb` call. */
  datatype Addition = Addition(date: CalendarDate, gb: int)

  /** The store contents after a series of successful `add_used_gb` calls, in order. */
  function Replay(m: map<string, int>, adds: seq<Addition>): map<string, int>
    decreases |adds|
  {
    if adds == [] then m
    else Replay(Added(m, adds[0].date, adds[0].gb), adds[1..])
  }

  /** Total GB of the additions made on date `d`. */
  function SumOn(adds: seq<Addition>, d: CalendarDate): int
    decreases |adds|
  {
    if adds == [] then 0
    else (if adds[0].date == d then adds[0].gb else 0) + SumOn(adds[1..], d)
  }

  /** A date that has never been written reads as 0. */
  lemma UsedInAbsent(m: map<string, int>, d: CalendarDate)
    requires GbUsedKey(d) !in m
    ensures UsedIn(m, d) == 0
  {
  }

  /** A date that has an entry reads as exactly the stored value. */
  lemma UsedInPresent(m: map<string, int>, d: CalendarDate, v: int)
    requires GbUsedKey(d) in m && m[GbUsedKey(d)] == v
    ensures UsedIn(m, d) == v
  {
  }

  /** After adding `gb` on `d`, `d` reads as its old count plus `gb`,
      and every other date reads as before. */
  lemma AddedReads(m: map<string, int>, d: CalendarDate, gb: int, e: CalendarDate)
    ensures UsedIn(Added(m, d, gb), e) == if e == d then UsedIn(m, d) + gb else UsedIn(m, e)
  {
    GbUsedKeyInjective(d, e);
  }

  /** Adding on `d` changes the store at `d`'s key only. */
  lemma AddedFrame(m: map<string, int>, d: CalendarDate, gb: int)
    ensures Added(m, d, gb).Keys == m.Keys + {GbUsedKey(d)}
    ensures forall k :: k in m && k != GbUsedKey(d) ==> Added(m, d, gb)[k] == m[k]
  {
  }

  /** After any series of additions, a date reads as its starting count plus
      the sum of the amounts added on that date. */
  lemma {:induction false} ReplayReads(m: map<string, int>, adds: seq<Addition>, d: CalendarDate)
    ensures UsedIn(Replay(m, adds), d) == UsedIn(m, d) + SumOn(adds, d)
    decreases |adds|
  {
    if adds != [] {
      AddedReads(m, adds[0].date, adds[0].gb, d);
      ReplayReads(Added(m, adds[0].date, adds[0].gb), adds[1..], d);
    }
  }

  /** Starting from an empty store, a date's count is the sum of what was added on it;
      one never written reads as 0. */
  lemma FreshLedgerReads(adds: seq<Addition>, d: CalendarDate)
    ensures UsedIn(Replay(map[], adds), d) == SumOn(adds, d)
    ensures (forall i :: 0 <= i < |adds| ==> adds[i].date != d) ==> UsedIn(Replay(map[], adds), d) == 0
  {
    ReplayReads(map[], adds, d);
    if forall i :: 0 <= i < |adds| ==> adds[i].date != d {
      SumOnOtherDates(adds, d);
    }
  }

  lemma {:induction false} SumOnOtherDates(adds: seq<Addition>, d: CalendarDate)
    requires forall i :: 0 <= i < |adds| ==> adds[i].date != d
    ensures SumOn(adds, d) == 0
    decreases |adds|
  {
    if adds != [] {
      SumOnOtherDates(adds[1..], d);
    }
  }

  lemma {:induction false} SumOnAppend(a: seq<Addition>, b: seq<Addition>, d: CalendarDate)
    ensures SumOn(a + b, d) == SumOn(a, d) + SumOn(b, d)
    decreases |a|
  {
    if a == [] {
      assert a + b == b;
    } else {
      assert (a + b)[0] == a[0];
      assert (a + b)[1..] == a[1..] + b;
      SumOnAppend(a[1..], b, d);
    }
  }

  /** The order of two batches of additions does not change any date's count. */
  lemma ReplayOrderIndependent(m: map<string, int>, a: seq<Addition>, b: seq<Addition>, d: CalendarDate)
    ensures UsedIn(Replay(m, a + b), d) == UsedIn(Replay(m, b + a), d)
  {
    ReplayReads(m, a + b, d);
    ReplayReads(m, b + a, d);
    SumOnAppend(a, b, d);
    SumOnAppend(b, a, d);
  }

  /** Counts stay non-negative when only non-negative amounts are added. */
  lemma {:induction false} ReplayNonNegative(m: map<string, int>, adds: seq<Addition>, d: CalendarDate)
    requires UsedIn(m, d) >= 0
    requires forall i :: 0 <= i < |adds| ==> adds[i].gb >= 0
    ensures UsedIn(Replay(m, adds), d) >= 0
    decreases |adds|
  {
    if adds != [] {
      AddedReads(m, adds[0].date, adds[0].gb, d);
      ReplayNonNegative(Added(m, adds[0].date, adds[0].gb), adds[1..], d);
    }
  }

  // ---------------------------------------------------------------------
  // The store and the ledger as objects.

  /** The key-value store behind `Db` (a pickledb database), reduced to its
      contents and the calls made on it. Whether a `set` succeeds is decided
      by the environment and passed in as `accepted`. */
  class KeyValueStore {
    var contents: map<string, int>
    ghost var calls: seq<StoreCall>

    /** The store as loaded from disk. */
    constructor (loaded: map<string, int>)
      ensures contents == loaded && calls == []
    {
      contents := loaded;
      calls := [];
    }

    /** `get(key, default)`. */
    method Get(key: string, default: int) returns (v: int)
      modifies this`calls
      ensures v == if key in contents then contents[key] else default
      ensures calls == old(calls) + [StoreCall.Get(key)]
    {
      v := if key in contents then contents[key] else default;
      calls := calls + [StoreCall.Get(key)];
    }

    /** `set(key, value)`; reports whether the store took the write. */
    method Set(key: string, value: int, accepted: bool) returns (ok: bool)
      modifies this
      ensures ok == accepted
      ensures contents == if accepted then old(contents)[key := value] else old(contents)
      ensures calls == old(calls) + [StoreCall.Set(key, value)]
    {
      if accepted {
        contents := contents[key := value];
      }
      ok := accepted;
      calls := calls + [StoreCall.Set(key, value)];
    }
  }

  /** `Db`: the usage ledger over its own store. */
  class Db {
    const store: KeyValueStore

    constructor (loaded: map<string, int>)
      ensures fresh(store) && store.contents == loaded && store.calls == []
    {
      store := new KeyValueStore(loaded);
    }

    /** `used_gb(date)`: the GB bought on `d`, 0 if nothing was recorded. */
    method UsedGb(d: CalendarDate) returns (gb: int)
      modifies store`calls
      ensures gb == UsedIn(store.contents, d)
      ensures store.calls == old(store.calls) + [StoreCall.Get(GbUsedKey(d))]
    {
      gb := store.Get(GbUsedKey(d), 0);
    }

    /** `add_used_gb(date, gb)`: one read, then one write of the old count
        plus `gb`; fails when the store does not take the write. */
    method AddUsedGb(d: CalendarDate, gb: int, accepted: bool) returns (r: Outcome<LedgerError>)
      modifies store
      ensures r == if accepted then Pass else Fail(CouldNotUpdateDb)
      ensures store.contents == if accepted then Added(old(store.contents), d, gb) else old(store.contents)
      ensures store.calls == old(store.calls)
        + [StoreCall.Get(GbUsedKey(d)), StoreCall.Set(GbUsedKey(d), UsedIn(old(store.contents), d) + gb)]
    {
      var curValue := UsedGb(d);
      var ok := store.Set(GbUsedKey(d), curValue + gb, accepted);
      if !ok {
        return Fail(CouldNotUpdateDb);
      }
      return Pass;
    }

    /** `add_used_gb(date)` with the default amount. */
    method AddOneUsedGb(d: CalendarDate, accepted: bool) returns (r: Outcome<LedgerError>)
      modifies store
      ensures r == if accepted then Pass else Fail(CouldNotUpdateDb)
      ensures store.contents == if accepted then Added(old(store.contents), d, DefaultGb) else old(store.contents)
      ensures store.calls == old(store.calls)
        + [StoreCall.Get(GbUsedKey(d)), StoreCall.Set(GbUsedKey(d), UsedIn(old(store.contents), d) + DefaultGb)]
      ensures accepted ==> UsedIn(store.contents, d) == UsedIn(old(store.contents), d) + 1
    {
      r := AddUsedGb(d, DefaultGb, accepted);
      AddedReads(old(store.contents), d, DefaultGb, d);
    }
  }
}
