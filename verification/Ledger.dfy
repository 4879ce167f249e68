/** The hash-chained ledger. The row hash is an injective function of the previous hash and the row's facts
    that never yields the genesis hash. */
module Ledger {

  const GENESIS := "0000000000000000000000000000000000000000000000000000000000000000"

  datatype Facts = Facts(ts: string, kind: string, correlationId: string, payload: string)

  datatype Row = Row(facts: Facts, prevHash: string, hash: string)

  type Hasher = (string, Facts) -> string

  ghost predicate Sound(h: Hasher)
  {
    && (forall p, f, p', f' :: h(p, f) == h(p', f') ==> p == p' && f == f')
    && (forall p, f :: h(p, f) != GENESIS)
  }

  function Tip(rows: seq<Row>): string
  {
    if rows == [] then GENESIS else rows[|rows| - 1].hash
  }

  /** Row `i` continues the chain and carries its own hash. */
  predicate Linked(h: Hasher, rows: seq<Row>, i: nat)
    requires i < |rows|
  {
    rows[i].prevHash == Tip(rows[..i]) && rows[i].hash == h(rows[i].prevHash, rows[i].facts)
  }

  predicate Chained(h: Hasher, rows: seq<Row>)
  {
    forall i | 0 <= i < |rows| :: Linked(h, rows, i)
  }

  lemma PrefixChained(h: Hasher, rows: seq<Row>, n: nat)
    requires Chained(h, rows) && n <= |rows|
    ensures Chained(h, rows[..n])
  {
    forall i | 0 <= i < n ensures Linked(h, rows[..n], i) {
      assert Linked(h, rows, i) && rows[..n][..i] == rows[..i];
    }
  }

  /** TAMPER EVIDENCE. Two verifying chains with the same tip are the same, row by row: whoever remembers
      the tip sees every edit, insertion, reordering and deletion. */
  lemma {:induction false} EqualTips(h: Hasher, a: seq<Row>, b: seq<Row>)
    requires Sound(h) && Chained(h, a) && Chained(h, b)
    ensures Tip(a) == Tip(b) <==> a == b
    decreases |a|
  {
    if a != [] && b != [] && Tip(a) == Tip(b) {
      var m, n := |a| - 1, |b| - 1;
      assert Linked(h, a, m) && Linked(h, b, n);
      PrefixChained(h, a, m);
      PrefixChained(h, b, n);
      EqualTips(h, a[..m], b[..n]);
      assert a == a[..m] + [a[m]] && b == b[..n] + [b[n]];
    } else if a != [] {
      assert Linked(h, a, |a| - 1);
    } else if b != [] {
      assert Linked(h, b, |b| - 1);
    }
  }

  /** No hash occurs twice in a verifying chain, so the uniqueness constraint never refuses an append. */
  lemma HashesDiffer(h: Hasher, rows: seq<Row>, i: nat, j: nat)
    requires Sound(h) && Chained(h, rows) && i < j < |rows|
    ensures rows[i].hash != rows[j].hash
  {
    PrefixChained(h, rows, i + 1);
    PrefixChained(h, rows, j + 1);
    EqualTips(h, rows[..i + 1], rows[..j + 1]);
  }

  /** What verification alone cannot see: a chain cut short still verifies, under another tip. */
  lemma CutShort(h: Hasher, rows: seq<Row>, n: nat)
    requires Sound(h) && Chained(h, rows) && n < |rows|
    ensures Chained(h, rows[..n]) && Tip(rows[..n]) != Tip(rows)
  {
    PrefixChained(h, rows, n);
    EqualTips(h, rows[..n], rows);
  }

  /** Rewriting the facts of one row breaks the chain at that very row. */
  lemma EditIsLocated(h: Hasher, rows: seq<Row>, i: nat, facts: Facts)
    requires Sound(h) && Chained(h, rows) && i < |rows| && facts != rows[i].facts
    ensures var edited := rows[i := rows[i].(facts := facts)];
      !Linked(h, edited, i) && forall j | 0 <= j < i :: Linked(h, edited, j)
  {
    var edited := rows[i := rows[i].(facts := facts)];
    assert Linked(h, rows, i);
    forall j | 0 <= j < i ensures Linked(h, edited, j) {
      assert Linked(h, rows, j) && edited[..j] == rows[..j];
    }
  }

  class Ledger {
    const h: Hasher
    var rows: seq<Row>
    var tip: string

    ghost predicate Valid()
      reads this
    {
      tip == Tip(rows)
    }

    /** Opens a ledger over rows already on disk. */
    constructor (h: Hasher, rows: seq<Row>)
      ensures Valid() && this.h == h && this.rows == rows
    {
      this.h, this.rows := h, rows;
      tip := if rows == [] then GENESIS else rows[|rows| - 1].hash;
    }

    method Append(facts: Facts) returns (row: Row)
      requires Valid()
      modifies this
      ensures Valid() && rows == old(rows) + [row] && row.facts == facts
      ensures Chained(h, old(rows)) <==> Chained(h, rows)
      ensures Sound(h) && Chained(h, old(rows)) ==> forall r | r in old(rows) :: r.hash != row.hash
    {
      var digest := h(tip, facts);
      row := Row(facts, tip, digest);
      ghost var before := rows;
      rows := rows + [row];
      tip := digest;
      assert rows[..|before|] == before;
      forall i | 0 <= i < |before| ensures Linked(h, rows, i) <==> Linked(h, before, i) {
        assert rows[..i] == before[..i];
      }
      assert Linked(h, rows, |before|);
      if Chained(h, before) {
        assert Chained(h, rows);
        if Sound(h) {
          forall i | 0 <= i < |before| ensures before[i].hash != row.hash {
            HashesDiffer(h, rows, i, |before|);
          }
        }
      } else {
        var i :| 0 <= i < |before| && !Linked(h, before, i);
        assert !Linked(h, rows, i);
      }
    }

    /** Recomputes the chain: accepts exactly the chained ledgers, and otherwise counts the rows before the
        first one that does not link. */
    method Verify() returns (ok: bool, count: nat)
      ensures ok <==> Chained(h, rows)
      ensures ok ==> count == |rows|
      ensures !ok ==> count < |rows| && !Linked(h, rows, count)
      ensures forall i | 0 <= i < count :: Linked(h, rows, i)
    {
      var prev := GENESIS;
      count := 0;
      while count < |rows|
        invariant count <= |rows| && prev == Tip(rows[..count])
        invariant forall i | 0 <= i < count :: Linked(h, rows, i)
      {
        var row := rows[count];
        if row.prevHash != prev {
          assert !Linked(h, rows, count);
          return false, count;
        }
        if h(prev, row.facts) != row.hash {
          assert !Linked(h, rows, count);
          return false, count;
        }
        assert Linked(h, rows, count);
        prev := row.hash;
        count := count + 1;
      }
      ok := true;
    }
  }
}
