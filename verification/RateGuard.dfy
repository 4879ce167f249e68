/** The trade rate guard: hourly and daily caps over persisted logs that keep only their last entries. */
module RateGuard {
  import opened Protocol
  import opened Windows

  const LOG_LIMIT := 2000
  const HOUR := 3600
  const GLOBAL := "trades_global"

  function LogName(symbol: string): string { "trades_" + symbol }

  lemma LogNamesDiffer(a: string, b: string)
    ensures LogName(a) == LogName(b) <==> a == b
    ensures LogName(a) == GLOBAL <==> a == "global"
  {
    assert LogName(a)[7..] == a && LogName(b)[7..] == b && GLOBAL[7..] == "global";
    assert GLOBAL == "trades_" + "global";
  }

  /** Fewer than `cap` times since the cutoff, or a cap beyond the log limit, which never refuses. */
  predicate Under(history: seq<int>, cutoff: int, cap: nat)
  {
    cap > LOG_LIMIT || |Since(history, cutoff)| < cap
  }

  /** Counting over the truncated log decides a cap as counting over the full history would: always when
      the cap is at most the log limit, and never to refuse when it is larger. */
  lemma TruncatedLogDecides(history: seq<int>, cutoff: int, cap: nat)
    requires Sorted(history)
    ensures |Since(Tail(history, LOG_LIMIT), cutoff)| < cap <==> Under(history, cutoff, cap)
  {
    TailCounts(history, LOG_LIMIT, cutoff);
  }

  /** Cutting after each append is cutting the whole history once. */
  lemma TailOfTail(h: seq<int>, t: int, n: nat)
    requires 0 < n
    ensures Tail(Tail(h, n) + [t], n) == Tail(h + [t], n)
  {
  }

  class PersistedCounters {
    var store: map<string, seq<int>>

    function Bucket(name: string): seq<int>
      reads this
    {
      if name in store then store[name] else []
    }

    constructor ()
      ensures store == map[]
    {
      store := map[];
    }

    method RecordEvent(name: string, time: int)
      modifies this
      ensures store == old(store)[name := Tail(old(Bucket(name)) + [time], LOG_LIMIT)]
    {
      var events := Bucket(name) + [time];
      store := store[name := if |events| > LOG_LIMIT then events[|events| - LOG_LIMIT..] else events];
    }

    method CountWithin(name: string, time: int, window: nat) returns (count: nat)
      ensures count == |Since(Bucket(name), time - window)|
    {
      var cutoff := time - window;
      var events := Bucket(name);
      count := 0;
      for i := 0 to |events|
        invariant count == |Since(events[..i], cutoff)|
      {
        assert events[..i + 1][..i] == events[..i];
        if events[i] >= cutoff {
          count := count + 1;
        }
      }
      assert events[..|events|] == events;
    }
  }

  datatype Caps = Caps(perHour: nat, perSymbolHour: nat, perDay: nat)

  datatype Verdict = Verdict(ok: bool, reason: string)

  class TradeRateGuard {
    const caps: Caps
    const counters: PersistedCounters
    ghost var history: map<string, seq<int>>   // every event ever recorded under a name

    ghost function Past(name: string): seq<int>
      reads this`history
    {
      if name in history then history[name] else []
    }

    /** Each persisted log is the end of its full, sorted history. */
    ghost predicate Valid()
      reads this, counters
    {
      forall name :: Sorted(Past(name)) && counters.Bucket(name) == Tail(Past(name), LOG_LIMIT)
    }

    /** No closed hour or day holds more trades than its cap, globally or on one symbol, for each cap that
        the log limit lets the guard enforce. */
    ghost predicate Capped()
      reads this
    {
      && (caps.perHour <= LOG_LIMIT ==> Bounded(Past(GLOBAL), HOUR, caps.perHour))
      && (caps.perDay <= LOG_LIMIT ==> Bounded(Past(GLOBAL), DAY, caps.perDay))
      && (caps.perSymbolHour <= LOG_LIMIT ==>
            forall symbol | symbol != "global" :: Bounded(Past(LogName(symbol)), HOUR, caps.perSymbolHour))
    }

    /** One more trade on this symbol now stays within every cap, counting over the full history. */
    ghost predicate Admits(symbol: string, now: int)
      reads this
    {
      && Under(Past(GLOBAL), now - HOUR, caps.perHour)
      && Under(Past(LogName(symbol)), now - HOUR, caps.perSymbolHour)
      && Under(Past(GLOBAL), now - DAY, caps.perDay)
    }

    /** A guard over counters that may come from an earlier session with this past. */
    constructor (caps: Caps, counters: PersistedCounters, ghost past: map<string, seq<int>>)
      requires forall name :: var h := if name in past then past[name] else [];
        Sorted(h) && counters.Bucket(name) == Tail(h, LOG_LIMIT)
      ensures Valid() && (past == map[] ==> Capped())
      ensures this.caps == caps && this.counters == counters && history == past
    {
      this.caps, this.counters, history := caps, counters, past;
    }

    /** The check over the truncated logs is the check over the full history. */
    method Check(symbol: string, now: int) returns (v: Verdict)
      requires Valid()
      ensures v.ok <==> Admits(symbol, now)
      ensures v.ok <==> v.reason == ""
      ensures v.reason == "HOURLY_CAP" <==>
              !(Under(Past(GLOBAL), now - HOUR, caps.perHour) && Under(Past(LogName(symbol)), now - HOUR, caps.perSymbolHour))
      ensures v.reason == "DAILY_CAP" <==>
              Under(Past(GLOBAL), now - HOUR, caps.perHour)
              && Under(Past(LogName(symbol)), now - HOUR, caps.perSymbolHour)
              && !Under(Past(GLOBAL), now - DAY, caps.perDay)
    {
      hide Since, Tail, Under;
      TruncatedLogDecides(Past(GLOBAL), now - HOUR, caps.perHour);
      TruncatedLogDecides(Past(LogName(symbol)), now - HOUR, caps.perSymbolHour);
      TruncatedLogDecides(Past(GLOBAL), now - DAY, caps.perDay);
      var hourly := counters.CountWithin(GLOBAL, now, HOUR);
      if hourly >= caps.perHour {
        return Verdict(false, "HOURLY_CAP");
      }
      var symbolHourly := counters.CountWithin(LogName(symbol), now, HOUR);
      if symbolHourly >= caps.perSymbolHour {
        return Verdict(false, "HOURLY_CAP");
      }
      var daily := counters.CountWithin(GLOBAL, now, DAY);
      if daily >= caps.perDay {
        return Verdict(false, "DAILY_CAP");
      }
      v := Verdict(true, "");
    }

    /** Records a trade. When each trade is recorded only right after a passing check, no window of an hour
        or a day ever exceeds its cap. A symbol called "global" would share the global log. */
    method RecordTrade(symbol: string, now: int)
      requires Valid() && symbol != "global"
      requires forall name, i | 0 <= i < |Past(name)| :: Past(name)[i] <= now
      modifies this, counters
      ensures Valid()
      ensures Past(GLOBAL) == old(Past(GLOBAL)) + [now] && Past(LogName(symbol)) == old(Past(LogName(symbol))) + [now]
      ensures forall name | name != GLOBAL && name != LogName(symbol) :: Past(name) == old(Past(name))
      ensures old(Capped()) && old(Admits(symbol, now)) ==> Capped()
    {
      hide Since, Tail, Bounded, Sorted;
      LogNamesDiffer(symbol, symbol);
      ghost var before := history;
      var name := LogName(symbol);
      counters.RecordEvent(GLOBAL, now);
      counters.RecordEvent(name, now);
      history := history[GLOBAL := Past(GLOBAL) + [now]][name := Past(name) + [now]];
      Grown(old(Past(GLOBAL)), now);
      Grown(old(Past(name)), now);
      assert Past(GLOBAL) == old(Past(GLOBAL)) + [now] && Past(name) == old(Past(name)) + [now];
      forall n ensures Sorted(Past(n)) && counters.Bucket(n) == Tail(Past(n), LOG_LIMIT) {
        if n != GLOBAL && n != name {
          assert Past(n) == old(Past(n)) && counters.Bucket(n) == old(counters.Bucket(n));
        }
      }
      if old(Capped()) && old(Admits(symbol, now)) {
        if caps.perHour <= LOG_LIMIT {
          StaysBounded(old(Past(GLOBAL)), now, HOUR, caps.perHour);
        }
        if caps.perDay <= LOG_LIMIT {
          StaysBounded(old(Past(GLOBAL)), now, DAY, caps.perDay);
        }
        if caps.perSymbolHour <= LOG_LIMIT {
          StaysBounded(old(Past(name)), now, HOUR, caps.perSymbolHour);
        }
        forall s | s != "global" && caps.perSymbolHour <= LOG_LIMIT
          ensures Bounded(Past(LogName(s)), HOUR, caps.perSymbolHour)
        {
          LogNamesDiffer(s, symbol);
        }
      }
    }
  }

  lemma Grown(h: seq<int>, t: int)
    requires Sorted(h) && forall i | 0 <= i < |h| :: h[i] <= t
    ensures Sorted(h + [t])
    ensures Tail(Tail(h, LOG_LIMIT) + [t], LOG_LIMIT) == Tail(h + [t], LOG_LIMIT)
  {
    TailOfTail(h, t, LOG_LIMIT);
  }

  lemma StaysBounded(h: seq<int>, t: int, width: nat, cap: nat)
    requires Bounded(h, width, cap) && |Since(h, t - width)| < cap
    ensures Bounded(h + [t], width, cap)
  {
    hide Since, Bounded;
    SinceSnoc(h, t, t - width);
    RecordBounded(h, t, width, cap, cap);
  }
}
