/** Times in a log, counted from a cutoff on and within sliding windows. */
module Windows {

  ghost predicate Sorted(h: seq<int>)
  {
    forall i, j | 0 <= i < j < |h| :: h[i] <= h[j]
  }

  /** The times at or after `cutoff`, in order. */
  function Since(h: seq<int>, cutoff: int): (r: seq<int>)
    ensures |r| <= |h|
  {
    if h == [] then []
    else
      var n := |h| - 1;
      Since(h[..n], cutoff) + (if h[n] >= cutoff then [h[n]] else [])
  }

  function CountIn(h: seq<int>, lo: int, hi: int): nat
  {
    if h == [] then 0
    else
      var n := |h| - 1;
      CountIn(h[..n], lo, hi) + (if lo <= h[n] <= hi then 1 else 0)
  }

  function InWindow(h: seq<int>, x: int, width: nat): nat { CountIn(h, x, x + width) }

  /** No closed window of this width holds more than `n` of the times. */
  ghost predicate Bounded(h: seq<int>, width: nat, n: int)
  {
    forall x :: InWindow(h, x, width) <= n
  }

  lemma {:induction false} CountInSince(h: seq<int>, lo: int, hi: int)
    ensures CountIn(h, lo, hi) <= |Since(h, lo)|
  {
    if h == [] {
    } else {
      CountInSince(h[..|h| - 1], lo, hi);
    }
  }

  lemma SinceSnoc(h: seq<int>, t: int, cutoff: int)
    ensures Since(h + [t], cutoff) == Since(h, cutoff) + (if t >= cutoff then [t] else [])
  {
    assert (h + [t])[..|h|] == h;
  }

  lemma {:induction false} SinceShrinks(h: seq<int>, lo: int, lo': int)
    requires lo <= lo'
    ensures Since(Since(h, lo), lo') == Since(h, lo')
    ensures |Since(h, lo')| <= |Since(h, lo)|
  {
    if h == [] {
    } else {
      var n := |h| - 1;
      SinceShrinks(h[..n], lo, lo');
      if h[n] >= lo {
        SinceSnoc(Since(h[..n], lo), h[n], lo');
      } else {
        assert Since(h, lo) == Since(h[..n], lo);
      }
    }
  }

  /** Recording one more time: a window that contains it lies within one width before it, any other is as
      before. */
  lemma RecordBounded(h: seq<int>, t: int, width: nat, n: int, n': int)
    requires Bounded(h, width, n) && n <= n' && |Since(h + [t], t - width)| <= n'
    ensures Bounded(h + [t], width, n')
  {
    assert (h + [t])[..|h|] == h;
    forall x ensures InWindow(h + [t], x, width) <= n' {
      if x <= t <= x + width {
        CountInSince(h + [t], x, x + width);
        SinceShrinks(h + [t], t - width, x);
      } else {
        assert InWindow(h, x, width) <= n;
      }
    }
  }

  lemma {:induction false} NoneSince(h: seq<int>, cutoff: int)
    requires forall i | 0 <= i < |h| :: h[i] < cutoff
    ensures Since(h, cutoff) == []
  {
    if h == [] {
    } else {
      NoneSince(h[..|h| - 1], cutoff);
    }
  }

  /** The last `n` entries of a log. */
  function Tail(h: seq<int>, n: nat): seq<int> { if |h| <= n then h else h[|h| - n..] }

  lemma TailSnoc(h: seq<int>, t: int, n: nat)
    requires 0 < n
    ensures Tail(h + [t], n) == Tail(h, n - 1) + [t]
  {
  }

  /** A sorted log cut to its last `n` entries still counts right up to `n`. */
  lemma {:induction false} TailCounts(h: seq<int>, n: nat, cutoff: int)
    requires Sorted(h)
    ensures |Since(Tail(h, n), cutoff)| == if |Since(h, cutoff)| <= n then |Since(h, cutoff)| else n
    decreases |h|
  {
    hide Tail, Since;
    if n == 0 || h == [] {
      EmptyTail(h, n, cutoff);
    } else {
      var before, t := h[..|h| - 1], h[|h| - 1];
      assert h == before + [t];
      TailSnoc(before, t, n);
      SinceSnoc(before, t, cutoff);
      SinceSnoc(Tail(before, n - 1), t, cutoff);
      TailCounts(before, n - 1, cutoff);
      if t < cutoff {
        NoneSince(h, cutoff);
      }
    }
  }

  lemma EmptyTail(h: seq<int>, n: nat, cutoff: int)
    requires n == 0 || h == []
    ensures Since(Tail(h, n), cutoff) == [] && (h == [] ==> Since(h, cutoff) == [])
  {
    assert Tail(h, n) == [];
  }
}
