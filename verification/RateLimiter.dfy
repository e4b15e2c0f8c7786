/** The sliding-window rate limiter. It forgets old hits when it can and sweeps idle keys now and
    then, and still answers as a limiter that remembered every admitted hit would. */
module RateLimiter {
  import opened Common

  datatype Hit = Hit(key: string, at: int)

  // ----- the limiter that remembers everything

  /** The hits that still count at `now`. */
  function Live(times: seq<int>, now: int, window: int): (live: seq<int>)
    ensures |live| <= |times|
  {
    if times == [] then []
    else
      var before := Live(times[..|times| - 1], now, window);
      if now - times[|times| - 1] < window then before + [times[|times| - 1]] else before
  }

  /** When the admitted hits of one key were. */
  function TimesOf(history: seq<Hit>, key: string): seq<int> {
    if history == [] then []
    else
      var before := TimesOf(history[..|history| - 1], key);
      if history[|history| - 1].key == key then before + [history[|history| - 1].at] else before
  }

  predicate NaiveAllow(history: seq<Hit>, key: string, now: int, limit: int, window: int) {
    |Live(TimesOf(history, key), now, window)| < limit
  }

  /** Every hit in the history was admitted by the naive limiter, on a clock that never goes back. */
  ghost predicate Admissible(history: seq<Hit>, limit: int, window: int) {
    && (forall i :: 0 <= i < |history| ==> NaiveAllow(history[..i], history[i].key, history[i].at, limit, window))
    && (forall i, j :: 0 <= i < j < |history| ==> history[i].at <= history[j].at)
  }

  lemma {:induction false} LiveAppend(times: seq<int>, t: int, now: int, window: int)
    ensures Live(times + [t], now, window) == Live(times, now, window) + if now - t < window then [t] else []
  {
    assert (times + [t])[..|times|] == times;
  }

  lemma {:induction false} LiveSince(times: seq<int>, now: int, window: int)
    ensures Live(times, now, window) != [] ==>
      Since(times, now - window) && Since(Live(times, now, window), now - window)
  {
    if times != [] {
      var init, t := times[..|times| - 1], times[|times| - 1];
      var live := Live(times, now, window);
      if now - t < window {
        assert times[|times| - 1] > now - window && live[|live| - 1] == t;
      } else if live != [] {
        LiveSince(init, now, window);
        var i :| 0 <= i < |init| && init[i] > now - window;
        assert times[i] > now - window;
      }
    }
  }

  /** Forgetting what no longer counts never matters later. */
  lemma {:induction false} LiveLater(times: seq<int>, now: int, later: int, window: int)
    requires now <= later
    ensures Live(Live(times, now, window), later, window) == Live(times, later, window)
  {
    if times != [] {
      var init, t := times[..|times| - 1], times[|times| - 1];
      LiveLater(init, now, later, window);
      LiveAppend(Live(init, now, window), t, later, window);
    }
  }

  /** The hits of a key inside the window that ends at `end`. */
  function InWindow(history: seq<Hit>, key: string, end: int, window: int): nat {
    if history == [] then 0
    else
      var h := history[|history| - 1];
      InWindow(history[..|history| - 1], key, end, window) + if h.key == key && end - window < h.at <= end then 1 else 0
  }

  lemma {:induction false} WindowIsLive(history: seq<Hit>, key: string, end: int, at: int, window: int)
    requires at <= end
    ensures InWindow(history, key, end, window) <= |Live(TimesOf(history, key), at, window)|
  {
    if history != [] {
      WindowIsLive(history[..|history| - 1], key, end, at, window);
      if history[|history| - 1].key == key {
        LiveAppend(TimesOf(history[..|history| - 1], key), history[|history| - 1].at, at, window);
      }
    }
  }

  /** No window, wherever it ends, holds more than `limit` admitted hits of one key. */
  lemma {:induction false} NoWindowOverLimit(history: seq<Hit>, key: string, end: int, limit: int, window: int)
    requires Admissible(history, limit, window) && limit >= 0
    ensures InWindow(history, key, end, window) <= limit
  {
    if history != [] {
      var init, h := history[..|history| - 1], history[|history| - 1];
      assert forall i :: 0 <= i < |init| ==> init[..i] == history[..i];
      NoWindowOverLimit(init, key, end, limit, window);
      if h.key == key && end - window < h.at <= end {
        assert NaiveAllow(init, key, h.at, limit, window);
        WindowIsLive(init, key, end, h.at, window);
      }
    }
  }

  // ----- the limiter as it is

  type Hits = map<string, seq<int>>

  function Stored(hits: Hits, key: string): seq<int> {
    if key in hits then hits[key] else []
  }

  /** At `now` and ever after, what is stored counts exactly as the whole history does. */
  ghost predicate Agrees(hits: Hits, history: seq<Hit>, now: int, window: int) {
    forall key :: Live(Stored(hits, key), now, window) == Live(TimesOf(history, key), now, window)
  }

  lemma AgreesLater(hits: Hits, history: seq<Hit>, now: int, later: int, window: int)
    requires Agrees(hits, history, now, window) && now <= later
    ensures Agrees(hits, history, later, window)
  {
    forall key ensures Live(Stored(hits, key), later, window) == Live(TimesOf(history, key), later, window) {
      LiveLater(TimesOf(history, key), now, later, window);
      LiveLater(Stored(hits, key), now, later, window);
    }
  }

  /** Writing the filtered list back changes no count. */
  lemma AgreesFiltered(hits: Hits, history: seq<Hit>, key: string, now: int, window: int)
    requires Agrees(hits, history, now, window)
    ensures Agrees(hits[key := Live(Stored(hits, key), now, window)], history, now, window)
  {
    LiveLater(Stored(hits, key), now, now, window);
  }

  /** Writing it back with the new hit is recording the hit. */
  lemma AgreesAdmitted(hits: Hits, history: seq<Hit>, key: string, now: int, window: int)
    requires Agrees(hits, history, now, window)
    ensures Agrees(hits[key := Live(Stored(hits, key), now, window) + [now]], history + [Hit(key, now)], now, window)
  {
    var kept, after := Live(Stored(hits, key), now, window), history + [Hit(key, now)];
    var next := hits[key := kept + [now]];
    assert after[..|after| - 1] == history;
    forall k ensures Live(Stored(next, k), now, window) == Live(TimesOf(after, k), now, window) {
      if k == key {
        LiveLater(Stored(hits, key), now, now, window);
        LiveAppend(kept, now, now, window);
        LiveAppend(TimesOf(history, key), now, now, window);
      }
    }
  }

  lemma Appended(history: seq<Hit>, key: string, now: int, limit: int, window: int)
    requires Admissible(history, limit, window) && NaiveAllow(history, key, now, limit, window)
    requires forall i :: 0 <= i < |history| ==> history[i].at <= now
    ensures Admissible(history + [Hit(key, now)], limit, window)
  {
    var all := history + [Hit(key, now)];
    forall i | 0 <= i < |all| ensures NaiveAllow(all[..i], all[i].key, all[i].at, limit, window) {
      assert i < |history| ==> all[..i] == history[..i];
      assert i == |history| ==> all[..i] == history;
    }
  }

  /** Every stored key has a hit that still counted at the last sweep. */
  ghost predicate AllRecent(hits: Hits, lastSweep: Option<int>, window: int) {
    forall key :: key in hits ==> lastSweep.Some? && Since(hits[key], lastSweep.value - window)
  }

  /** Some hit is newer than `t`. */
  ghost predicate Since(times: seq<int>, t: int) {
    exists i :: 0 <= i < |times| && times[i] > t
  }

  lemma SinceWeaker(times: seq<int>, t: int, earlier: int)
    requires Since(times, t) && earlier <= t
    ensures Since(times, earlier)
  {
  }

  /** Between two sweeps a stored key's newest hit is less than two windows old. */
  lemma TwoWindows(hits: Hits, lastSweep: int, now: int, window: int)
    requires AllRecent(hits, Some(lastSweep), window) && now - lastSweep < window
    ensures forall key :: key in hits ==> Since(hits[key], now - 2 * window)
  {
    forall key | key in hits ensures Since(hits[key], now - 2 * window) {
      SinceWeaker(hits[key], lastSweep - window, now - 2 * window);
    }
  }

  method CountLive(times: seq<int>, now: int, window: int) returns (alive: nat)
    ensures alive == |Live(times, now, window)|
  {
    alive := 0;
    for i := 0 to |times|
      invariant alive == |Live(times[..i], now, window)|
    {
      assert times[..i + 1] == times[..i] + [times[i]];
      LiveAppend(times[..i], times[i], now, window);
      if now - times[i] < window {
        alive := alive + 1;
      }
    }
    assert times[..|times|] == times;
  }

  method FilterLive(times: seq<int>, now: int, window: int) returns (kept: seq<int>)
    ensures kept == Live(times, now, window)
  {
    kept := [];
    for i := 0 to |times|
      invariant kept == Live(times[..i], now, window)
    {
      assert times[..i + 1] == times[..i] + [times[i]];
      LiveAppend(times[..i], times[i], now, window);
      if now - times[i] < window {
        kept := kept + [times[i]];
      }
    }
    assert times[..|times|] == times;
  }

  class Limiter {
    const limit: int
    const window: int
    var hits: Hits
    var lastSweep: Option<int>
    // Every admitted hit, and the clock of the last call.
    ghost var history: seq<Hit>
    ghost var last: int

    ghost predicate Valid()
      reads this
    {
      && window > 0
      && Admissible(history, limit, window)
      && (forall i :: 0 <= i < |history| ==> history[i].at <= last)
      && Agrees(hits, history, last, window)
      && (forall key :: key in hits ==> |hits[key]| <= if limit > 0 then limit else 0)
      && (lastSweep.Some? ==> lastSweep.value <= last)
      && (limit > 0 ==> AllRecent(hits, lastSweep, window))
    }

    constructor (limit: int, window: int, start: int)
      requires window > 0
      ensures Valid() && this.limit == limit && this.window == window
      ensures hits == map[] && history == [] && last == start
    {
      this.limit, this.window, hits, lastSweep, history, last := limit, window, map[], None, [], start;
    }

    /** Drops every key with nothing left to count, at most once per window, and changes no count. */
    method Sweep(now: int)
      requires Valid() && last <= now
      modifies this`hits, this`lastSweep
      ensures lastSweep.Some? && lastSweep.value <= now && now - lastSweep.value < window
      ensures forall key :: key in hits ==> key in old(hits) && hits[key] == old(hits)[key]
      ensures Agrees(hits, history, now, window)
      ensures limit > 0 ==> AllRecent(hits, lastSweep, window)
    {
      AgreesLater(hits, history, last, now, window);
      if lastSweep.Some? && now - lastSweep.value < window {
        return;
      }
      lastSweep := Some(now);
      var todo := hits.Keys;
      while todo != {}
        invariant todo <= hits.Keys && hits.Keys <= old(hits).Keys
        invariant forall key :: key in hits ==> hits[key] == old(hits)[key]
        invariant forall key :: key in old(hits) && key !in hits ==> Live(old(hits)[key], now, window) == []
        invariant forall key :: key in hits && key !in todo ==> Since(hits[key], now - window)
        invariant lastSweep == Some(now)
        decreases |todo|
      {
        var key :| key in todo;
        todo := todo - {key};
        var alive := CountLive(hits[key], now, window);
        if alive == 0 {
          hits := hits - {key};
        } else {
          LiveSince(hits[key], now, window);
        }
      }
    }

    /** Answers as the limiter that keeps every hit. It keeps at most `limit` hits a key, and, with
        a positive limit, no key whose newest hit is two windows old. */
    method Allow(key: string, now: int) returns (ok: bool)
      requires Valid() && last <= now
      modifies this
      ensures Valid() && last == now
      ensures ok <==> NaiveAllow(old(history), key, now, limit, window)
      ensures history == if ok then old(history) + [Hit(key, now)] else old(history)
      ensures (forall k :: k in hits ==> Since(hits[k], now - 2 * window)) <==> limit > 0
    {
      Sweep(now);
      var kept := FilterLive(if key in hits then hits[key] else [], now, window);
      last := now;
      if |kept| >= limit {
        Refuse(key, kept);
        return false;
      }
      Admit(key, kept, now);
      return true;
    }

    /** Between the sweep and the answer the clock has moved on and the counts still agree. */
    ghost predicate Swept()
      reads this
    {
      && window > 0 && Admissible(history, limit, window)
      && (forall i :: 0 <= i < |history| ==> history[i].at <= last)
      && Agrees(hits, history, last, window)
      && (forall key :: key in hits ==> |hits[key]| <= if limit > 0 then limit else 0)
      && lastSweep.Some? && lastSweep.value <= last && last - lastSweep.value < window
      && (limit > 0 ==> AllRecent(hits, lastSweep, window))
    }

    method Refuse(key: string, kept: seq<int>)
      requires Swept() && kept == Live(Stored(hits, key), last, window) && |kept| >= limit
      modifies this`hits
      ensures Valid()
      ensures (forall k :: k in hits ==> Since(hits[k], last - 2 * window)) <==> limit > 0
    {
      AgreesFiltered(hits, history, key, last, window);
      LiveSince(Stored(hits, key), last, window);
      hits := hits[key := kept];
      if limit > 0 {
        SinceWeaker(kept, last - window, lastSweep.value - window);
        TwoWindows(hits, lastSweep.value, last, window);
      } else {
        assert !Since(hits[key], last - 2 * window);
      }
    }

    method Admit(key: string, kept: seq<int>, now: int)
      requires Swept() && now == last && kept == Live(Stored(hits, key), last, window) && |kept| < limit
      modifies this`hits, this`history
      ensures Valid()
      ensures history == old(history) + [Hit(key, last)]
      ensures forall k :: k in hits ==> Since(hits[k], last - 2 * window)
    {
      AgreesAdmitted(hits, history, key, last, window);
      Appended(history, key, last, limit, window);
      hits := hits[key := kept + [now]];
      history := history + [Hit(key, last)];
      assert hits[key][|kept|] == last;
      TwoWindows(hits, lastSweep.value, last, window);
    }
  }
}
