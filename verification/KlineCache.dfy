/** The K-line cache with its 18:00 cutoff, and which request a cache hit stands for. */
module KlineCache {
  import opened TimeUnits
  import opened Wrappers

  const WEEKLY_MAX_AGE := 72

  /** One and a half times the 1300 days of the configured range. */
  const LOOKBACK_DAYS := 1950

  /** The timestamp is written to the file without its fraction of a second. */
  function Truncate(t: int): int { t - t % SECOND }

  /** The last day a request made at `now` asks for: today from 18:00 on, yesterday before. */
  function EndDate(now: int): int {
    if TimeOfDay(now) / HOUR >= 18 then Day(now) else Day(now) - 1
  }

  /** The first day it asks for. */
  function StartDate(now: int): int { Day(now) - LOOKBACK_DAYS }

  /** Whether an entry saved at `ts` counts as expired at `now`, by age in hours when one is given and by the
      18:00 cutoff otherwise. */
  predicate IsExpired(ts: int, now: int, maxAgeHours: Option<int>) {
    if maxAgeHours.Some? then now - ts > maxAgeHours.value * HOUR
    else
      var today18 := Day(now) * DAY + 18 * HOUR;
      if now >= today18 then ts < today18
      else if Day(ts) == Day(now) then false
      else ts < today18 - DAY
  }

  /** For any two times, an entry is expired exactly when a request at `now` would ask for a later day than
      one at `ts` did. */
  lemma {:induction false} ExpiredIffLaterEndDate(ts: int, now: int)
    ensures IsExpired(ts, now, None) <==> EndDate(ts) < EndDate(now)
  {
  }

  lemma {:induction false} EndDateMonotone(s: int, t: int)
    requires s <= t
    ensures EndDate(s) <= EndDate(t)
  {
  }

  lemma {:induction false} TruncateKeepsEndDate(t: int)
    ensures t - SECOND < Truncate(t) <= t && Truncate(t) % SECOND == 0 && EndDate(Truncate(t)) == EndDate(t)
  {
    ModShift(t / SECOND, 0);
    var d, r := Day(t), TimeOfDay(t);
    assert DAY == 86400 * SECOND && HOUR == 3600 * SECOND;
    TruncateWithinDay(d, r);
  }

  lemma {:induction false} TruncateWithinDay(d: int, r: int)
    requires 0 <= r < DAY
    ensures var t := d * DAY + r;
            && Truncate(t) == d * DAY + (r - r % SECOND)
            && Day(Truncate(t)) == d
            && TimeOfDay(Truncate(t)) / HOUR == r / HOUR
            && Day(t) == d
            && TimeOfDay(t) == r
  {
    var t := d * DAY + r;
    assert t % SECOND == r % SECOND by { ModShift(d * 86400, r); }
    var r' := r - r % SECOND;
    assert 0 <= r' < DAY;
    DivShift(d, r);
    DivShift(d, r');
    SameHour(r);
  }

  lemma {:induction false} ModShift(k: int, r: int)
    ensures (k * SECOND + r) % SECOND == r % SECOND
  {
    var q, m := r / SECOND, r % SECOND;
    assert k * SECOND + r == (k + q) * SECOND + m;
  }

  lemma {:induction false} DivShift(d: int, r: int)
    requires 0 <= r < DAY
    ensures (d * DAY + r) / DAY == d && (d * DAY + r) % DAY == r
  {
  }

  lemma {:induction false} SameHour(r: int)
    requires 0 <= r
    ensures (r - r % SECOND) / HOUR == r / HOUR
  {
    var h, m := r / HOUR, r % HOUR;
    assert r == h * HOUR + m;
    ModShift(h * 3600, m);
    assert 0 <= m - m % SECOND < HOUR;
    assert r - r % SECOND == h * HOUR + (m - m % SECOND);
  }

  // ----- the cache -----

  datatype Key = Key(code: string, period: string)

  /** A cached reply: its rows, when it was saved, and when the start and the end date of the request that it
      answers were drawn up. */
  datatype Entry = Entry(rows: seq<string>, ts: int, startAt: int, endAt: int)

  /** One call of get_stock_history_data: the clock readings it may take, in order, and what the API would answer
      (nothing when every token fails). */
  datatype Call = Call(key: Key, useLocal: bool, load: int, startAt: int, endAt: int, save: int,
                       response: Option<seq<string>>)

  type Store = map<Key, Entry>

  function Policy(key: Key): Option<int> { if key.period == "w" then Some(WEEKLY_MAX_AGE) else None }

  /** The entry that answers the call, if the cache does. */
  function Hit(store: Store, c: Call): Option<Entry> {
    if c.useLocal && c.key in store && !IsExpired(store[c.key].ts, c.load, Policy(c.key)) && store[c.key].rows != []
    then Some(store[c.key])
    else None
  }

  /** A call that misses stores a non-empty reply. */
  function Serve(store: Store, c: Call): Store {
    if Hit(store, c).None? && c.response.Some? && c.response.value != []
    then store[c.key := Entry(c.response.value, Truncate(c.save), c.startAt, c.endAt)]
    else store
  }

  function Answer(store: Store, c: Call): seq<string> {
    match Hit(store, c)
    case Some(e) => e.rows
    case None => if c.response.Some? then c.response.value else []
  }

  class Cache {
    var store: Store

    constructor ()
      ensures store == map[]
    {
      store := map[];
    }

    method LoadStockData(key: Key, now: int, maxAgeHours: Option<int>) returns (rows: Option<seq<string>>)
      ensures rows == if key in store && !IsExpired(store[key].ts, now, maxAgeHours) then Some(store[key].rows)
                      else None
    {
      if key !in store { return None; }
      if IsExpired(store[key].ts, now, maxAgeHours) { return None; }
      rows := Some(store[key].rows);
    }

    /** Replaces this entry alone. From then on the rows are served until a request would ask for a later day. */
    method SaveStockData(key: Key, rows: seq<string>, now: int, startAt: int, endAt: int)
      modifies this
      ensures store.Keys == old(store).Keys + {key}
      ensures forall k :: k in old(store) && k != key ==> store[k] == old(store)[k]
      ensures store[key] == Entry(rows, Truncate(now), startAt, endAt)
      ensures forall later :: IsExpired(store[key].ts, later, None) <==> EndDate(now) < EndDate(later)
    {
      store := store[key := Entry(rows, Truncate(now), startAt, endAt)];
      TruncateKeepsEndDate(now);
      forall later ensures IsExpired(store[key].ts, later, None) <==> EndDate(now) < EndDate(later) {
        ExpiredIffLaterEndDate(store[key].ts, later);
      }
    }

    method GetStockHistoryData(c: Call) returns (rows: seq<string>)
      modifies this
      ensures rows == Answer(old(store), c)
      ensures store == Serve(old(store), c)
    {
      if c.useLocal {
        var local := LoadStockData(c.key, c.load, if c.key.period == "w" then Some(72) else None);
        if local.Some? && local.value != [] { return local.value; }
      }
      if c.response.None? { return []; }
      rows := c.response.value;
      if rows != [] {
        SaveStockData(c.key, rows, c.save, c.startAt, c.endAt);
        assert store == old(store)[c.key := store[c.key]];
      }
    }
  }

  // ----- runs -----

  /** The call starts after every call of the run has finished, under a clock that never goes back. */
  ghost predicate Follows(calls: seq<Call>, c: Call) {
    forall i :: 0 <= i < |calls| ==> calls[i].save <= c.load
  }

  function After(calls: seq<Call>): Store {
    if calls == [] then map[] else Serve(After(calls[..|calls| - 1]), calls[|calls| - 1])
  }

  /** The entry holds what the API answered to call `i`, drawn up and saved at that call's times. */
  ghost predicate From(e: Entry, key: Key, calls: seq<Call>, i: nat) {
    && i < |calls| && calls[i].key == key && calls[i].response == Some(e.rows)
    && e.startAt == calls[i].startAt && e.endAt == calls[i].endAt && e.ts == Truncate(calls[i].save)
  }

  lemma {:induction false} EntriesComeFromCalls(calls: seq<Call>, key: Key)
    requires key in After(calls)
    ensures exists i :: From(After(calls)[key], key, calls, i)
  {
    var k := |calls| - 1;
    var before := After(calls[..k]);
    if key in before && After(calls)[key] == before[key] {
      EntriesComeFromCalls(calls[..k], key);
      var i :| From(before[key], key, calls[..k], i);
      assert From(After(calls)[key], key, calls, i);
    } else {
      assert From(After(calls)[key], key, calls, k);
    }
  }

  /** A fetch whose end date is drawn up before 18:00 and whose reply is saved after it. */
  predicate Straddles(c: Call) { EndDate(c.endAt) != EndDate(c.save) }

  /** The entry answers the request, from start to end date, that would be drawn up at `now`. */
  predicate SameRequest(e: Entry, now: int) {
    StartDate(e.startAt) == StartDate(now) && EndDate(e.endAt) == EndDate(now)
  }

  /** When a daily call hits the cache after any run, the entry was saved in the same 18:00-to-18:00 window as the
      call. It stands for a request with the call's end date exactly when the fetch that stored it did not straddle
      18:00, and for the very same request exactly when that fetch moreover began on the day of the call. */
  lemma {:induction false} DailyHit(calls: seq<Call>, c: Call) returns (i: nat)
    requires Follows(calls, c) && c.key.period != "w" && Hit(After(calls), c).Some?
    ensures var e := Hit(After(calls), c).value;
            && From(e, c.key, calls, i)
            && EndDate(e.ts) == EndDate(c.load)
            && (EndDate(e.endAt) == EndDate(c.load) <==> !Straddles(calls[i]))
            && (SameRequest(e, c.load) <==> !Straddles(calls[i]) && Day(calls[i].startAt) == Day(c.load))
  {
    EntriesComeFromCalls(calls, c.key);
    var e := After(calls)[c.key];
    i :| From(e, c.key, calls, i);
    TruncateKeepsEndDate(calls[i].save);
    EndDateMonotone(calls[i].save, c.load);
    ExpiredIffLaterEndDate(e.ts, c.load);
  }

  /** If no fetch of the run straddles 18:00, every daily hit stands for a request with the same end date. */
  lemma {:induction false} DailyHitsAgree(calls: seq<Call>, c: Call)
    requires Follows(calls, c) && c.key.period != "w" && Hit(After(calls), c).Some?
    requires forall i :: 0 <= i < |calls| ==> !Straddles(calls[i])
    ensures EndDate(Hit(After(calls), c).value.endAt) == EndDate(c.load)
  {
    var _ := DailyHit(calls, c);
  }

  function CallAt(load: int, startAt: int, endAt: int, save: int): Call {
    Call(Key("600519.SH", "d"), true, load, startAt, endAt, save, Some(["bar"]))
  }

  /** A fetch drawn up one second before 18:00 and saved one second after it leaves yesterday's request in the
      cache under today's window; the next daily call takes it for today's. */
  lemma {:induction false} StraddlingFetchGoesStale()
    ensures var fetch := CallAt(18 * HOUR - 3 * SECOND, 18 * HOUR - 2 * SECOND, 18 * HOUR - SECOND, 18 * HOUR + SECOND);
            var later := CallAt(20 * HOUR, 20 * HOUR, 20 * HOUR, 20 * HOUR);
            && Follows([fetch], later)
            && Hit(After([fetch]), later).Some?
            && EndDate(Hit(After([fetch]), later).value.endAt) == EndDate(later.load) - 1
  {
  }

  /** A fetch at 20:00 does not straddle 18:00 and still answers a call at 10:00 the next morning: with the end
      date of that call, and a start date one day before it. */
  lemma {:induction false} EveningFetchStartsEarlier()
    ensures var fetch := CallAt(20 * HOUR, 20 * HOUR, 20 * HOUR, 20 * HOUR);
            var later := CallAt(DAY + 10 * HOUR, DAY + 10 * HOUR, DAY + 10 * HOUR, DAY + 10 * HOUR);
            && Follows([fetch], later) && !Straddles(fetch)
            && Hit(After([fetch]), later).Some?
            && var e := Hit(After([fetch]), later).value;
               EndDate(e.endAt) == EndDate(later.load) && StartDate(e.startAt) == StartDate(later.load) - 1
  {
  }

  // ----- what a call gets -----

  lemma {:induction false} EntriesHaveRows(calls: seq<Call>, key: Key)
    requires key in After(calls)
    ensures After(calls)[key].rows != []
  {
    var front := calls[..|calls| - 1];
    if key in After(front) && After(calls)[key] == After(front)[key] { EntriesHaveRows(front, key); }
  }

  /** For weekly bars an entry is good for 72 hours: a local call hits it exactly when it is no older, which is
      so for every call within 72 hours of the save but the last second, and for none after them. */
  lemma {:induction false} WeeklyHit(calls: seq<Call>, c: Call) returns (i: nat)
    requires c.key.period == "w" && c.useLocal && c.key in After(calls)
    ensures From(After(calls)[c.key], c.key, calls, i)
    ensures Hit(After(calls), c).Some? <==> c.load - After(calls)[c.key].ts <= 72 * HOUR
    ensures Hit(After(calls), c).Some? ==> c.load - calls[i].save <= 72 * HOUR
    ensures c.load - calls[i].save <= 72 * HOUR - SECOND ==> Hit(After(calls), c).Some?
  {
    EntriesComeFromCalls(calls, c.key);
    EntriesHaveRows(calls, c.key);
    i :| From(After(calls)[c.key], c.key, calls, i);
  }

  /** A call answers with the rows of an earlier reply for its key when it hits, and with its own reply otherwise. */
  lemma {:induction false} AnswersAreReplies(calls: seq<Call>, c: Call)
    ensures Hit(After(calls), c).None? ==>
              Answer(After(calls), c) == if c.response.Some? then c.response.value else []
    ensures Hit(After(calls), c).Some? ==>
              c.useLocal && exists i: nat :: From(Hit(After(calls), c).value, c.key, calls, i)
                                        && calls[i].response == Some(Answer(After(calls), c))
  {
    if Hit(After(calls), c).Some? {
      EntriesComeFromCalls(calls, c.key);
      var i: nat :| From(After(calls)[c.key], c.key, calls, i);
      assert calls[i].response == Some(Answer(After(calls), c));
    }
  }

  /** The rows fetched by a call that missed are what the next local call for the key gets, whatever was stored
      before: a daily one that asks for no later day than the save did, a weekly one within 72 hours but a
      second of it. */
  lemma {:induction false} FetchedRowsAreServed(calls: seq<Call>, c: Call, d: Call)
    requires Hit(After(calls), c).None? && c.response.Some? && c.response.value != []
    requires d.key == c.key && d.useLocal
    requires if d.key.period == "w" then d.load - c.save <= 72 * HOUR - SECOND else EndDate(d.load) <= EndDate(c.save)
    ensures Answer(After(calls + [c]), d) == c.response.value
  {
    assert (calls + [c])[..|calls|] == calls;
    TruncateKeepsEndDate(c.save);
    ExpiredIffLaterEndDate(Truncate(c.save), d.load);
  }

  /** A call touches no other key, and nothing at all when it hits or fetches no rows. */
  lemma {:induction false} OtherEntriesStay(calls: seq<Call>, c: Call, key: Key)
    requires key != c.key || Hit(After(calls), c).Some? || c.response.None? || c.response.value == []
    ensures key in After(calls + [c]) <==> key in After(calls)
    ensures key in After(calls) ==> After(calls + [c])[key] == After(calls)[key]
  {
    assert (calls + [c])[..|calls|] == calls;
  }
}
