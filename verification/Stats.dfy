/** Statistics over closed trades: the largest drawdown of a return path, and false-discovery control. */
module Stats {
  import opened Protocol
  import opened Reals

  // --------------------------------------------------------------- drawdown

  /** The return path after its first `n` returns. */
  function Path(rs: seq<real>, n: nat): real
    requires n <= |rs|
  {
    if n == 0 then 0.0 else Path(rs, n - 1) + rs[n - 1]
  }

  /** How far the path falls from step `i` to step `j`. */
  function Fall(rs: seq<real>, i: nat, j: nat): real
    requires i <= |rs| && j <= |rs|
  {
    Path(rs, i) - Path(rs, j)
  }

  function Total(rs: seq<real>): real
  {
    if rs == [] then 0.0 else rs[0] + Total(rs[1..])
  }

  lemma {:induction false} TotalSnoc(rs: seq<real>, x: real)
    ensures Total(rs + [x]) == Total(rs) + x
  {
    if rs == [] {
    } else {
      assert (rs + [x])[1..] == rs[1..] + [x];
      TotalSnoc(rs[1..], x);
    }
  }

  /** A fall is what the returns in between have lost in all. */
  lemma {:induction false} FallIsLost(rs: seq<real>, i: nat, j: nat)
    requires i <= j <= |rs|
    ensures Fall(rs, i, j) == -Total(rs[i..j])
  {
    if i == j {
      assert rs[i..j] == [];
    } else {
      FallIsLost(rs, i, j - 1);
      assert rs[i..j] == rs[i..j - 1] + [rs[j - 1]];
      TotalSnoc(rs[i..j - 1], rs[j - 1]);
    }
  }

  /** One pass finds the largest fall between any two steps, the later one not before the earlier. */
  method MaxDrawdown(rs: seq<real>) returns (worst: real)
    ensures forall i, j | 0 <= i <= j <= |rs| :: Fall(rs, i, j) <= worst
    ensures exists i, j :: 0 <= i <= j <= |rs| && Fall(rs, i, j) == worst
  {
    var peak, cumulative := 0.0, 0.0;
    worst := 0.0;
    ghost var high, from, to := 0, 0, 0;
    for n := 0 to |rs|
      invariant 0 <= high <= n && 0 <= from <= to <= n
      invariant cumulative == Path(rs, n) && peak == Path(rs, high)
      invariant forall i | 0 <= i <= n :: Path(rs, i) <= peak
      invariant worst == Fall(rs, from, to)
      invariant forall i, j | 0 <= i <= j <= n :: Fall(rs, i, j) <= worst
    {
      cumulative := cumulative + rs[n];
      if cumulative > peak {
        high := n + 1;
      }
      peak := Larger(peak, cumulative);
      if peak - cumulative > worst {
        from, to := high, n + 1;
      }
      worst := Larger(worst, peak - cumulative);
    }
  }

  // -------------------------------------------------------- false discoveries

  type PValues = map<string, real>

  function Threshold(q: real, n: nat, m: nat): real
    requires m > 0
  {
    q * n as real / m as real
  }

  /** A set of candidates each of which is significant at the level that the size of the set allows. */
  ghost predicate Supported(p: PValues, q: real, s: set<string>)
  {
    s <= p.Keys && (s != {} ==> |p| > 0 && forall x | x in s :: p[x] <= Threshold(q, |s|, |p|))
  }

  /** The largest supported set: supported, and containing every supported set. */
  ghost predicate Discoveries(p: PValues, q: real, r: set<string>)
  {
    Supported(p, q, r) && forall s :: Supported(p, q, s) ==> s <= r
  }

  /** Each candidate once, by nondecreasing p-value; ties in any order. */
  ghost predicate Ranked(p: PValues, ordered: seq<string>)
  {
    && (forall x :: x in ordered <==> x in p)
    && (forall i, j | 0 <= i < j < |ordered| :: ordered[i] != ordered[j])
    && (forall i, j | 0 <= i < j < |ordered| && ordered[i] in p && ordered[j] in p :: p[ordered[i]] <= p[ordered[j]])
  }

  function First(ordered: seq<string>, n: nat): set<string>
    requires n <= |ordered|
  {
    set i | 0 <= i < n :: ordered[i]
  }

  lemma FirstGrows(ordered: seq<string>, n: nat)
    requires 0 < n <= |ordered| && forall i, j | 0 <= i < j < |ordered| :: ordered[i] != ordered[j]
    ensures First(ordered, n) == First(ordered, n - 1) + {ordered[n - 1]} && ordered[n - 1] !in First(ordered, n - 1)
  {
    forall x ensures x in First(ordered, n) <==> x in First(ordered, n - 1) + {ordered[n - 1]} {
      if x in First(ordered, n) {
        var i :| 0 <= i < n && ordered[i] == x;
        assert i == n - 1 || x in First(ordered, n - 1);
      }
    }
  }

  lemma {:induction false} FirstSize(ordered: seq<string>, n: nat)
    requires n <= |ordered| && forall i, j | 0 <= i < j < |ordered| :: ordered[i] != ordered[j]
    ensures |First(ordered, n)| == n
  {
    if n == 0 {
    } else {
      FirstSize(ordered, n - 1);
      FirstGrows(ordered, n);
    }
  }

  lemma RankedSize(p: PValues, ordered: seq<string>)
    requires Ranked(p, ordered)
    ensures |ordered| == |p|
  {
    FirstSize(ordered, |ordered|);
    assert First(ordered, |ordered|) == p.Keys;
  }

  lemma Climbs(q: real, n: nat, n': nat, m: nat)
    requires 0.0 <= q && n <= n' && m > 0
    ensures Threshold(q, n, m) <= Threshold(q, n', m)
  {
    Scale(n as real, n' as real, q);
    Divide(q * n as real, q * n' as real, m as real);
  }

  lemma Negative(q: real, n: nat, m: nat)
    requires q < 0.0 && 0 < n && m > 0
    ensures Threshold(q, n, m) < 0.0
  {
    assert q * n as real < 0.0;
  }

  /** A set of `n` ranked candidates has one at rank `n` or later. */
  lemma LateMember(ordered: seq<string>, s: set<string>) returns (i: nat)
    requires s != {} && forall x | x in s :: x in ordered
    requires forall i, j | 0 <= i < j < |ordered| :: ordered[i] != ordered[j]
    ensures |s| - 1 <= i < |ordered| && ordered[i] in s
  {
    FirstSize(ordered, |ordered|);
    SubsetSize(s, First(ordered, |ordered|));
    if s <= First(ordered, |s| - 1) {
      FirstSize(ordered, |s| - 1);
      SubsetSize(s, First(ordered, |s| - 1));
      assert false;
    }
    var x :| x in s && x !in First(ordered, |s| - 1);
    i :| 0 <= i < |ordered| && ordered[i] == x;
  }

  /** The last rank whose p-value is within its threshold cuts off exactly the discoveries. */
  lemma CutoffDiscovers(p: PValues, q: real, ordered: seq<string>, k: nat)
    requires Ranked(p, ordered) && k <= |ordered| && (0.0 <= q || forall x | x in p :: 0.0 <= p[x])
    requires k > 0 ==> p[ordered[k - 1]] <= Threshold(q, k, |ordered|)
    requires forall n | k < n <= |ordered| :: !(p[ordered[n - 1]] <= Threshold(q, n, |ordered|))
    ensures Discoveries(p, q, First(ordered, k))
  {
    hide Threshold;
    RankedSize(p, ordered);
    FirstSize(ordered, k);
    forall x | x in First(ordered, k) ensures p[x] <= Threshold(q, k, |p|) {
      var i :| 0 <= i < k && ordered[i] == x;
      assert i < k - 1 ==> p[ordered[i]] <= p[ordered[k - 1]];
    }
    forall s | Supported(p, q, s) ensures s <= First(ordered, k) {
      if q < 0.0 {
        NothingBelowZero(p, q, s);
      } else if s != {} {
        SupportedIsCut(p, q, ordered, k, s);
      }
    }
  }

  lemma NothingBelowZero(p: PValues, q: real, s: set<string>)
    requires q < 0.0 && Supported(p, q, s) && forall x | x in p :: 0.0 <= p[x]
    ensures s == {}
  {
    hide Threshold;
    if s != {} {
      var x :| x in s;
      assert 0.0 <= p[x] <= Threshold(q, |s|, |p|);
      Negative(q, |s|, |p|);
      assert false;
    }
  }

  lemma SupportedIsCut(p: PValues, q: real, ordered: seq<string>, k: nat, s: set<string>)
    requires Ranked(p, ordered) && k <= |ordered| && 0.0 <= q
    requires forall n | k < n <= |ordered| :: !(p[ordered[n - 1]] <= Threshold(q, n, |ordered|))
    requires Supported(p, q, s) && s != {} && |p| == |ordered|
    ensures s <= First(ordered, k)
  {
    hide Threshold;
    var n := |s|;
    var i := LateMember(ordered, s);
    assert n - 1 < i ==> p[ordered[n - 1]] <= p[ordered[i]];
    assert n <= k;
    Climbs(q, n, k + 1, |p|);
    forall x | x in s ensures x in First(ordered, k) {
      var j :| 0 <= j < |ordered| && ordered[j] == x;
      if k <= j {
        BeyondCutoff(p, q, ordered, k, n, j);
        assert false;
      }
    }
  }

  /** Beyond the cutoff every p-value exceeds the threshold of the cutoff's next rank. */
  lemma BeyondCutoff(p: PValues, q: real, ordered: seq<string>, k: nat, n: nat, j: nat)
    requires Ranked(p, ordered) && k <= j < |ordered| && |p| == |ordered|
    requires forall n | k < n <= |ordered| :: !(p[ordered[n - 1]] <= Threshold(q, n, |ordered|))
    requires Threshold(q, n, |p|) <= Threshold(q, k + 1, |p|)
    ensures p[ordered[j]] > Threshold(q, n, |p|)
  {
    hide Threshold;
    assert k < j ==> p[ordered[k]] <= p[ordered[j]];
    assert !(p[ordered[k + 1 - 1]] <= Threshold(q, k + 1, |ordered|));
  }

  /** The candidates by nondecreasing p-value. */
  method Ranking(p: PValues) returns (ordered: seq<string>)
    ensures Ranked(p, ordered)
  {
    var todo := p.Keys;
    ordered := [];
    while todo != {}
      invariant todo <= p.Keys
      invariant forall x :: x in ordered <==> x in p && x !in todo
      invariant forall i, j | 0 <= i < j < |ordered| :: ordered[i] != ordered[j]
      invariant forall i, j | 0 <= i < j < |ordered| && ordered[i] in p && ordered[j] in p :: p[ordered[i]] <= p[ordered[j]]
      invariant forall i, y | 0 <= i < |ordered| && y in todo && ordered[i] in p :: p[ordered[i]] <= p[y]
      decreases todo
    {
      LeastExists(p, todo);
      var x :| x in todo && forall y | y in todo :: p[x] <= p[y];
      ordered := ordered + [x];
      todo := todo - {x};
    }
  }

  lemma {:induction false} LeastExists(p: PValues, s: set<string>)
    requires s != {} && s <= p.Keys
    ensures exists x :: x in s && forall y | y in s :: p[x] <= p[y]
    decreases s
  {
    var x :| x in s;
    var rest := s - {x};
    assert forall y | y in s :: y == x || y in rest;
    if rest == {} {
      assert x in s && forall y | y in s :: p[x] <= p[y];
    } else {
      LeastExists(p, rest);
      var z :| z in rest && forall y | y in rest :: p[z] <= p[y];
      var least := if p[x] <= p[z] then x else z;
      assert least in s && forall y | y in s :: p[least] <= p[y];
    }
  }

  /** Step-up control at level `q`: whatever order ties are ranked in, the result is the largest set of
      candidates that is significant at the level its own size allows. */
  method BenjaminiHochberg(p: PValues, q: real) returns (survivors: set<string>)
    requires 0.0 <= q || forall x | x in p :: 0.0 <= p[x]
    ensures Discoveries(p, q, survivors)
  {
    hide Threshold, Discoveries;
    if |p| == 0 {
      NoneDiscovered(p, q);
      return {};
    }
    var ordered := Ranking(p);
    var m := |ordered|;
    RankedSize(p, ordered);
    var cutoff := 0;
    for rank := 1 to m + 1
      invariant cutoff < rank && (cutoff > 0 ==> p[ordered[cutoff - 1]] <= Threshold(q, cutoff, m))
      invariant forall n | cutoff < n < rank :: !(p[ordered[n - 1]] <= Threshold(q, n, m))
    {
      if p[ordered[rank - 1]] <= Threshold(q, rank, m) {
        cutoff := rank;
      }
    }
    CutoffDiscovers(p, q, ordered, cutoff);
    survivors := First(ordered, cutoff);
  }

  lemma NoneDiscovered(p: PValues, q: real)
    requires |p| == 0
    ensures Discoveries(p, q, {})
  {
    assert p.Keys == {};
  }

  /** There is only one such set, and it only grows with the level. */
  lemma DiscoveriesGrow(p: PValues, q: real, q': real, r: set<string>, r': set<string>)
    requires Discoveries(p, q, r) && Discoveries(p, q', r') && q <= q'
    ensures r <= r' && (q == q' ==> r == r')
  {
    hide Threshold;
    if r != {} {
      forall x | x in r ensures p[x] <= Threshold(q', |r|, |p|) {
        Rises(q, q', |r|, |p|);
      }
      assert Supported(p, q', r);
    }
    if q == q' && r' != {} {
      assert Supported(p, q, r');
    }
  }

  lemma Rises(q: real, q': real, n: nat, m: nat)
    requires q <= q' && m > 0
    ensures Threshold(q, n, m) <= Threshold(q', n, m)
  {
    Scale(q, q', n as real);
    Divide(q * n as real, q' * n as real, m as real);
  }
}
