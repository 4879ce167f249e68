/** The order-storm fuse: a latching limit on entry sends per minute. */
module Fuse {
  import opened Protocol
  import opened Windows

  const MINUTE := 60

  /** The pruned list is the last minute of the full history, before and after one more send. */
  lemma SinceRecorded(h: seq<int>, sends: seq<int>, now: int)
    requires h == [] ==> sends == []
    requires h != [] ==> h[|h| - 1] <= now && sends == Since(h, h[|h| - 1] - MINUTE)
    ensures Since(sends + [now], now - MINUTE) == Since(h + [now], now - MINUTE)
    ensures |Since(sends + [now], now - MINUTE)| <= |sends| + 1
  {
    SinceSnoc(h, now, now - MINUTE);
    SinceSnoc(sends, now, now - MINUTE);
    if h != [] {
      SinceShrinks(h, h[|h| - 1] - MINUTE, now - MINUTE);
    }
  }

  // ------------------------------------------------------------ running calls

  /** One send that a running call may still make. */
  datatype Slot = Slot(key: string, n: nat)

  function SlotsOf(key: string, n: nat): set<Slot>
  {
    set i | 0 <= i < n :: Slot(key, i)
  }

  lemma {:induction false} SlotsOfSize(key: string, n: nat)
    ensures |SlotsOf(key, n)| == n
  {
    if n == 0 {
      assert SlotsOf(key, 0) == {};
    } else {
      SlotsOfSize(key, n - 1);
      assert SlotsOf(key, n) == SlotsOf(key, n - 1) + {Slot(key, n - 1)};
    }
  }

  /** Calls with at most `n` slots each have at most `n` slots per call together. */
  lemma {:induction false} SlotsBound(left: set<Slot>, keys: set<string>, n: nat)
    requires forall s | s in left :: s.key in keys && s.n < n
    ensures |left| <= n * |keys|
    decreases keys
  {
    if keys == {} {
      assert left == {};
    } else {
      var k :| k in keys;
      var mine := set s | s in left && s.key == k;
      SlotsBound(left - mine, keys - {k}, n);
      SlotsOfSize(k, n);
      SubsetSize(mine, SlotsOf(k, n));
      assert left == (left - mine) + mine;
      assert n * |keys| == n * (|keys| - 1) + n;
    }
  }

  class StormFuse {
    const cap: nat
    var sends: seq<int>
    var blown: bool
    ghost var history: seq<int>  // every send since the last reset
    ghost var over: nat          // sends recorded after the fuse had blown

    ghost predicate Valid()
      reads this
    {
      && 0 < cap && Sorted(history)
      && (history == [] ==> sends == [])
      && (history != [] ==> sends == Since(history, history[|history| - 1] - MINUTE))
      && |sends| <= cap + over
      && (!blown ==> over == 0 && |sends| < cap)
      && Bounded(history, MINUTE, cap + over)
    }

    constructor (cap: nat)
      requires 0 < cap
      ensures Valid() && !blown && history == [] && this.cap == cap && over == 0
    {
      this.cap := cap;
      sends, blown, history, over := [], false, [], 0;
    }

    method RecordSend(now: int)
      requires Valid() && (history == [] || history[|history| - 1] <= now)
      modifies this
      ensures Valid() && history == old(history) + [now]
      ensures blown <==> old(blown) || |Since(history, now - MINUTE)| >= cap
      ensures over == if old(blown) then old(over) + 1 else 0
    {
      hide CountIn, InWindow, Bounded, Since;
      ghost var before := history;
      SinceRecorded(before, sends, now);
      assert |sends| <= cap + over;
      sends := sends + [now];
      sends := Since(sends, now - MINUTE);
      over := if blown then over + 1 else 0;
      RecordBounded(before, now, MINUTE, cap + old(over), cap + over);
      history := history + [now];
      if |sends| >= cap {
        blown := true;
      }
    }

    /** A fuse that is not blown always admits: counting again at the check cannot find more sends than the
        last recorded send found. */
    method Check(now: int) returns (ok: bool)
      requires Valid()
      modifies this
      ensures Valid() && history == old(history) && sends == old(sends) && over == old(over)
      ensures ok <==> !old(blown)
      ensures blown == old(blown)
    {
      if blown {
        return false;
      }
      if |Since(sends, now - MINUTE)| >= cap {
        // The last recorded send would already have blown the fuse.
        assert false;
      }
      ok := true;
    }

    method Reset()
      requires Valid()
      modifies this
      ensures Valid() && !blown && sends == [] && history == []
    {
      sends, blown, history, over := [], false, [], 0;
    }
  }
}
