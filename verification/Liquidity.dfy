/** The liquidity window: spread samples per symbol and server hour, pruned in place, and the interpolated
    percentile of the recent ones. */
module Liquidity {
  import opened Protocol
  import opened Reals

  const MIN_SAMPLES := 30
  const MAX_BUCKET := 50000

  // -------------------------------------------------------------- percentile

  ghost predicate Ascending(o: seq<real>)
  {
    forall i, j | 0 <= i <= j < |o| :: o[i] <= o[j]
  }

  function Insert(o: seq<real>, x: real): seq<real>
  {
    if o == [] || o[|o| - 1] <= x then o + [x] else Insert(o[..|o| - 1], x) + [o[|o| - 1]]
  }

  function Sorted(values: seq<real>): seq<real>
  {
    if values == [] then [] else Insert(Sorted(values[..|values| - 1]), values[|values| - 1])
  }

  lemma {:induction false} InsertMembers(o: seq<real>, x: real)
    ensures multiset(Insert(o, x)) == multiset(o) + multiset{x}
  {
    if o == [] || o[|o| - 1] <= x {
    } else {
      InsertMembers(o[..|o| - 1], x);
      assert o == o[..|o| - 1] + [o[|o| - 1]];
    }
  }

  lemma {:induction false} InsertAscends(o: seq<real>, x: real, bound: real)
    requires Ascending(o) && x <= bound && forall i | 0 <= i < |o| :: o[i] <= bound
    ensures Ascending(Insert(o, x)) && forall i | 0 <= i < |Insert(o, x)| :: Insert(o, x)[i] <= bound
  {
    if o == [] || o[|o| - 1] <= x {
    } else {
      InsertAscends(o[..|o| - 1], x, o[|o| - 1]);
    }
  }

  lemma {:induction false} SortedMembers(values: seq<real>)
    ensures multiset(Sorted(values)) == multiset(values)
  {
    hide Insert;
    if values == [] {
    } else {
      var n := |values| - 1;
      SortedMembers(values[..n]);
      InsertMembers(Sorted(values[..n]), values[n]);
      assert values == values[..n] + [values[n]];
    }
  }

  lemma {:induction false} SortedAscends(values: seq<real>)
    ensures Ascending(Sorted(values))
  {
    hide Insert;
    if values == [] {
    } else {
      var x, before := values[|values| - 1], Sorted(values[..|values| - 1]);
      SortedAscends(values[..|values| - 1]);
      InsertAscends(before, x, if before == [] || before[|before| - 1] <= x then x else before[|before| - 1]);
    }
  }

  /** Sorting is an ascending rearrangement. */
  lemma SortedIs(values: seq<real>)
    ensures Ascending(Sorted(values)) && multiset(Sorted(values)) == multiset(values) && |Sorted(values)| == |values|
  {
    hide Sorted, Ascending;
    SortedMembers(values);
    SortedAscends(values);
    assert |Sorted(values)| == |multiset(Sorted(values))| == |multiset(values)| == |values|;
  }

  lemma LastIsGreatest(a: seq<real>)
    requires Ascending(a) && a != []
    ensures a[|a| - 1] in multiset(a) && forall x | x in multiset(a) :: x <= a[|a| - 1]
    ensures multiset(a[..|a| - 1]) == multiset(a) - multiset{a[|a| - 1]} && Ascending(a[..|a| - 1])
  {
    assert a == a[..|a| - 1] + [a[|a| - 1]];
    forall x | x in multiset(a) ensures x <= a[|a| - 1] {
      var i :| 0 <= i < |a| && a[i] == x;
    }
  }

  /** Two ascending lists of the same values are the same list. */
  lemma {:induction false} AscendingIsUnique(a: seq<real>, b: seq<real>)
    requires Ascending(a) && Ascending(b) && multiset(a) == multiset(b)
    ensures a == b
  {
    hide Ascending;
    assert |a| == |multiset(a)| == |multiset(b)| == |b|;
    if a == [] {
    } else {
      var n := |a| - 1;
      LastIsGreatest(a);
      LastIsGreatest(b);
      assert a[n] == b[n];
      AscendingIsUnique(a[..n], b[..n]);
      assert a == a[..n] + [a[n]] && b == b[..n] + [b[n]];
    }
  }

  /** The value at a real position of a list, interpolated linearly between its neighbours. */
  function At(o: seq<real>, x: real): real
    requires 0.0 <= x <= (|o| - 1) as real
  {
    var lo := x.Floor;
    var f := x - lo as real;
    if f == 0.0 then o[lo] else o[lo] * (1.0 - f) + o[lo + 1] * f
  }

  function Rank(n: nat, pct: real): real
    requires n > 0
  {
    pct / 100.0 * (n - 1) as real
  }

  lemma RankInRange(n: nat, pct: real)
    requires n > 0 && 0.0 <= pct <= 100.0
    ensures 0.0 <= Rank(n, pct) <= (n - 1) as real
  {
    var share, last := pct / 100.0, (n - 1) as real;
    assert 0.0 <= share <= 1.0;
    Scale(0.0, share, last);
    Scale(share, 1.0, last);
  }

  function Percentile(values: seq<real>, pct: real): real
    requires values != [] && 0.0 <= pct <= 100.0
  {
    SortedIs(values);
    RankInRange(|values|, pct);
    At(Sorted(values), Rank(|values|, pct))
  }

  lemma BlendIs(a: real, b: real, f: real)
    ensures a * (1.0 - f) + b * f == a + (b - a) * f == a + f * (b - a)
  {
  }

  lemma Blend(a: real, b: real, f: real)
    requires a <= b && 0.0 <= f <= 1.0
    ensures a <= a * (1.0 - f) + b * f <= b
  {
    var d := b - a;
    BlendIs(a, b, f);
    Scale(0.0, f, d);
    Scale(f, 1.0, d);
    assert 0.0 * d == 0.0 && 1.0 * d == d;
  }

  lemma BlendRises(a: real, b: real, f: real, g: real)
    requires a <= b && f <= g
    ensures a * (1.0 - f) + b * f <= a * (1.0 - g) + b * g
  {
    BlendIs(a, b, f);
    BlendIs(a, b, g);
    Scale(f, g, b - a);
  }

  lemma AtBetween(o: seq<real>, x: real)
    requires Ascending(o) && 0.0 <= x <= (|o| - 1) as real
    ensures o[x.Floor] <= At(o, x)
    ensures x.Floor + 1 < |o| ==> At(o, x) <= o[x.Floor + 1]
    ensures x.Floor + 1 == |o| ==> At(o, x) == o[x.Floor]
  {
    var lo := x.Floor;
    var f := x - lo as real;
    if f != 0.0 {
      Blend(o[lo], o[lo + 1], f);
    }
  }

  lemma AtRises(o: seq<real>, x: real, y: real)
    requires Ascending(o) && 0.0 <= x <= y <= (|o| - 1) as real
    ensures At(o, x) <= At(o, y)
  {
    AtBetween(o, x);
    AtBetween(o, y);
    var lo := x.Floor;
    if lo == y.Floor {
      if x - lo as real != 0.0 {
        BlendRises(o[lo], o[lo + 1], x - lo as real, y - lo as real);
      }
    } else {
      assert lo + 1 <= y.Floor;
    }
  }

  /** The percentile does not depend on the order of the samples, and only rises with the percentage. */
  lemma PercentileIs(values: seq<real>, values': seq<real>, pct: real, pct': real)
    requires values != [] && multiset(values) == multiset(values') && 0.0 <= pct <= pct' <= 100.0
    ensures values' != [] && Percentile(values, pct) <= Percentile(values', pct')
    ensures pct == pct' ==> Percentile(values, pct) == Percentile(values', pct')
  {
    hide At, Rank;
    SortedIs(values);
    SortedIs(values');
    assert |values| == |multiset(values)| == |multiset(values')| == |values'|;
    AscendingIsUnique(Sorted(values), Sorted(values'));
    RankInRange(|values|, pct);
    RankInRange(|values|, pct');
    RankRises(|values|, pct, pct');
    AtRises(Sorted(values), Rank(|values|, pct), Rank(|values|, pct'));
  }

  lemma RankRises(n: nat, pct: real, pct': real)
    requires n > 0 && pct <= pct'
    ensures Rank(n, pct) <= Rank(n, pct')
  {
    Scale(pct / 100.0, pct' / 100.0, (n - 1) as real);
  }

  /** The percentile lies between two neighbouring sorted values, and is one of them where the rank is whole. */
  lemma PercentileBetween(values: seq<real>, pct: real)
    requires values != [] && 0.0 <= pct <= 100.0
    ensures var o, rank := Sorted(values), Rank(|values|, pct);
      && |o| == |values| && 0 <= rank.Floor < |o|
      && o[rank.Floor] <= Percentile(values, pct)
      && (rank.Floor + 1 < |o| ==> Percentile(values, pct) <= o[rank.Floor + 1])
      && (rank == rank.Floor as real ==> Percentile(values, pct) == o[rank.Floor])
  {
    hide Rank, Sorted;
    SortedIs(values);
    RankInRange(|values|, pct);
    AtBetween(Sorted(values), Rank(|values|, pct));
  }

  /** Between two neighbouring sorted values the percentile covers the share of the step that the rank covers of the
      way from one place to the next; a percentage is that share of the way from the first place to the last. */
  lemma PercentileInterpolates(values: seq<real>, pct: real)
    requires values != [] && 0.0 <= pct <= 100.0
    ensures var o, rank := Sorted(values), Rank(|values|, pct);
      && |o| == |values| && rank * 100.0 == pct * (|o| - 1) as real && 0 <= rank.Floor < |o|
      && var lo := rank.Floor;
         if lo + 1 == |o| then Percentile(values, pct) == o[lo]
         else Percentile(values, pct) - o[lo] == (rank - lo as real) * (o[lo + 1] - o[lo])
  {
    hide Rank, Sorted, At;
    SortedIs(values);
    RankInRange(|values|, pct);
    RankIs(|values|, pct);
    AtInterpolates(Sorted(values), Rank(|values|, pct));
  }

  lemma RankIs(n: nat, pct: real)
    requires n > 0
    ensures Rank(n, pct) * 100.0 == pct * (n - 1) as real
  {
    var share := pct / 100.0;
    assert share * 100.0 == pct;
    Regroup(share, (n - 1) as real, 100.0);
  }

  lemma Regroup(a: real, b: real, c: real)
    ensures a * b * c == a * c * b
  {
  }

  lemma AtInterpolates(o: seq<real>, x: real)
    requires 0.0 <= x <= (|o| - 1) as real
    ensures var lo := x.Floor;
      if lo + 1 == |o| then At(o, x) == o[lo] else At(o, x) - o[lo] == (x - lo as real) * (o[lo + 1] - o[lo])
  {
    var lo := x.Floor;
    if lo + 1 < |o| {
      BlendIs(o[lo], o[lo + 1], x - lo as real);
    }
  }

  // ----------------------------------------------------------------- history

  datatype Sample = Sample(time: int, spread: real)

  /** A symbol and an hour of the server day. */
  datatype Slot = Slot(symbol: string, hour: int)

  function SlotOf(symbol: string, time: int): Slot { Slot(symbol, (time / 3600) % 24) }

  function Recent(samples: seq<Sample>, cutoff: int): seq<Sample>
  {
    if samples == [] then []
    else
      var n := |samples| - 1;
      Recent(samples[..n], cutoff) + (if samples[n].time >= cutoff then [samples[n]] else [])
  }

  function Spreads(samples: seq<Sample>): seq<real> { seq(|samples|, i requires 0 <= i < |samples| => samples[i].spread) }

  lemma RecentSnoc(samples: seq<Sample>, x: Sample, cutoff: int)
    ensures Recent(samples + [x], cutoff) == Recent(samples, cutoff) + (if x.time >= cutoff then [x] else [])
  {
    assert (samples + [x])[..|samples|] == samples;
  }

  lemma {:induction false} RecentIsRecent(samples: seq<Sample>, cutoff: int)
    ensures forall s | s in Recent(samples, cutoff) :: s in samples && s.time >= cutoff
  {
    if samples != [] {
      RecentIsRecent(samples[..|samples| - 1], cutoff);
    }
  }

  /** What a later cutoff keeps is kept by an earlier prune. */
  lemma {:induction false} RecentOfRecent(samples: seq<Sample>, early: int, late: int)
    requires early <= late
    ensures Recent(Recent(samples, early), late) == Recent(samples, late)
  {
    if samples == [] {
    } else {
      var before, x := samples[..|samples| - 1], samples[|samples| - 1];
      RecentOfRecent(before, early, late);
      RecentSnoc(Recent(before, early), x, late);
      if x.time < early {
        assert Recent(samples, early) == Recent(before, early);
      }
    }
  }

  /** The two sample lists answer every query with a cutoff at or after `horizon` alike. */
  ghost predicate Alike(kept: seq<Sample>, full: seq<Sample>, horizon: int)
  {
    forall cutoff | horizon <= cutoff :: Recent(kept, cutoff) == Recent(full, cutoff)
  }

  lemma AlikeAfter(kept: seq<Sample>, full: seq<Sample>, horizon: int, x: Sample, cutoff: int, horizon': int)
    requires Alike(kept, full, horizon) && horizon <= horizon' && cutoff <= horizon'
    ensures Alike(kept + [x], full + [x], horizon')
    ensures Alike(Recent(kept + [x], cutoff), full + [x], horizon')
  {
    hide Recent;
    forall c | horizon' <= c
      ensures Recent(kept + [x], c) == Recent(full + [x], c) == Recent(Recent(kept + [x], cutoff), c)
    {
      RecentSnoc(kept, x, c);
      RecentSnoc(full, x, c);
      RecentOfRecent(kept + [x], cutoff, c);
    }
  }

  /** The answer to a query over a list of samples: None when fewer than thirty are recent. */
  function Answer(samples: seq<Sample>, cutoff: int, pct: real): Option<real>
    requires 0.0 <= pct <= 100.0
  {
    var values := Spreads(Recent(samples, cutoff));
    if |values| < MIN_SAMPLES then None else Some(Percentile(values, pct))
  }

  class SpreadHistory {
    const days: nat
    var data: map<Slot, seq<Sample>>
    ghost var full: map<Slot, seq<Sample>>   // every sample ever recorded
    ghost var latest: int                    // no sample was recorded after this time

    function Bucket(slot: Slot): seq<Sample>
      reads this
    {
      if slot in data then data[slot] else []
    }

    ghost function Everything(slot: Slot): seq<Sample>
      reads this
    {
      if slot in full then full[slot] else []
    }

    ghost predicate Valid()
      reads this
    {
      forall slot :: Alike(Bucket(slot), Everything(slot), latest - days * DAY)
    }

    constructor (days: nat, ghost start: int)
      ensures Valid() && this.days == days && latest == start && data == map[] && full == map[]
    {
      this.days, data, full, latest := days, map[], map[], start;
    }

    /** Records a sample and prunes its bucket when the oldest entry has lapsed or the bucket is too big. */
    method Record(symbol: string, time: int, spread: real)
      requires Valid()
      modifies this
      ensures Valid() && latest == Max(old(latest), time)
      ensures full == old(full)[SlotOf(symbol, time) := old(Everything(SlotOf(symbol, time))) + [Sample(time, spread)]]
      ensures var kept, before := Bucket(SlotOf(symbol, time)), old(Bucket(SlotOf(symbol, time)));
        && kept != [] && kept[|kept| - 1] == Sample(time, spread) && kept[0].time >= time - days * DAY
        && (|kept| > MAX_BUCKET ==> forall s | s in kept :: s.time >= time - days * DAY)
        && (|before| < MAX_BUCKET && (before == [] || before[0].time >= time - days * DAY) ==>
              kept == before + [Sample(time, spread)])
    {
      hide Recent, Alike;
      var cutoff := time - days * DAY;
      var slot := SlotOf(symbol, time);
      var x := Sample(time, spread);
      ghost var horizon, horizon' := latest - days * DAY, Max(latest, time) - days * DAY;
      forall s ensures Alike(Bucket(s), Everything(s), horizon') {
        assert Alike(Bucket(s), Everything(s), horizon);
        AlikeLater(Bucket(s), Everything(s), horizon, horizon');
      }
      AlikeAfter(Bucket(slot), Everything(slot), horizon, x, cutoff, horizon');
      var bucket := Bucket(slot) + [x];
      if |bucket| > MAX_BUCKET || bucket[0].time < cutoff {
        RecentSnoc(Bucket(slot), x, cutoff);
        RecentIsRecent(bucket, cutoff);
        bucket := Prune(bucket, cutoff);
      }
      data, full := data[slot := bucket], full[slot := Everything(slot) + [x]];
      latest := Max(latest, time);
      forall s ensures Alike(Bucket(s), Everything(s), horizon') {
        assert s != slot ==> Bucket(s) == old(Bucket(s)) && Everything(s) == old(Everything(s));
        assert Alike(old(Bucket(s)), old(Everything(s)), horizon');
      }
    }

    method Prune(bucket: seq<Sample>, cutoff: int) returns (kept: seq<Sample>)
      ensures kept == Recent(bucket, cutoff)
    {
      kept := [];
      for i := 0 to |bucket|
        invariant kept == Recent(bucket[..i], cutoff)
      {
        assert bucket[..i + 1][..i] == bucket[..i];
        if bucket[i].time >= cutoff {
          kept := kept + [bucket[i]];
        }
      }
      assert bucket[..|bucket|] == bucket;
    }

    /** Pruning never shows: asked at or after every recorded time, the pruned history answers as the full
        one would. */
    method SpreadPercentile(symbol: string, time: int, pct: real) returns (answer: Option<real>)
      requires Valid() && 0.0 <= pct <= 100.0
      ensures answer == Answer(Bucket(SlotOf(symbol, time)), time - days * DAY, pct)
      ensures answer.None? <==> |Recent(Bucket(SlotOf(symbol, time)), time - days * DAY)| < 30
      ensures latest <= time ==> answer == Answer(Everything(SlotOf(symbol, time)), time - days * DAY, pct)
    {
      hide Recent, Percentile;
      var recent := Prune(Bucket(SlotOf(symbol, time)), time - days * DAY);
      var values := Spreads(recent);
      if |values| < MIN_SAMPLES {
        return None;
      }
      answer := Some(Percentile(values, pct));
    }
  }

  lemma AlikeLater(kept: seq<Sample>, full: seq<Sample>, horizon: int, horizon': int)
    requires Alike(kept, full, horizon) && horizon <= horizon'
    ensures Alike(kept, full, horizon')
  {
  }
}
