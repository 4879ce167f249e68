/** The intent registry: one row per idempotency key, and the order comment and magic that carry the
    key and the strategy to the broker and back. */
module Intents {
  import opened Protocol

  datatype OrderState =
    | PROPOSED | COST_OK | CONSENSUS_OK | RISK_OK | ARMED | CHECKED | SUBMITTED | PLACED
    | FILLED | PARTIAL | REJECTED | REQUOTED | EXPIRED | CANCELLED | UNKNOWN

  datatype Row = Row(symbol: string, strategy: string, direction: Side, state: OrderState,
                     ticket: int, volume: int, ocoGroup: string)

  type Rows = map<string, Row>

  predicate InFlight(state: OrderState)
  {
    state.ARMED? || state.CHECKED? || state.SUBMITTED? || state.PLACED? || state.UNKNOWN?
  }

  // ------------------------------------------------------------- key encoding

  const PREFIX := "AEG|"
  const MAGIC_PREFIX := 77

  function CommentFor(key: string): string { PREFIX + key }

  predicate OurComment(comment: string)
  {
    |comment| >= 4 && comment[..4] == PREFIX
  }

  function KeyFromComment(comment: string): Option<string>
  {
    if OurComment(comment) && |comment| >= 5 then Some(comment[4..Min(16, |comment|)]) else None
  }

  function MagicFor(ordinal: int, version: int): int
  {
    MAGIC_PREFIX * 100000 + ordinal * 100 + version
  }

  predicate MagicPrefixOk(magic: int) { magic / 100000 == MAGIC_PREFIX }

  lemma CommentsAreInjective(k: string, k': string)
    ensures CommentFor(k) == CommentFor(k') <==> k == k'
    ensures OurComment(CommentFor(k))
  {
    assert CommentFor(k)[4..] == k && CommentFor(k')[4..] == k';
    assert CommentFor(k)[..4] == PREFIX;
  }

  /** A key survives the trip through an order comment exactly when it has 1 to 12 characters. */
  lemma KeyRoundTrip(key: string)
    ensures KeyFromComment(CommentFor(key)) == Some(key) <==> 1 <= |key| <= 12
  {
    var c := CommentFor(key);
    assert c[..4] == PREFIX && c[4..] == key;
    if 1 <= |key| <= 12 {
      assert c[4..Min(16, |c|)] == key;
    }
  }

  /** A magic keeps its prefix exactly when strategy ordinal and version fit in five digits, and two-digit
      versions keep magics of different strategies and versions apart. */
  lemma MagicRoundTrip(o: int, v: int, o': int, v': int)
    ensures MagicPrefixOk(MagicFor(o, v)) <==> 0 <= o * 100 + v < 100000
    ensures 0 <= v < 100 && 0 <= v' < 100 ==> (MagicFor(o, v) == MagicFor(o', v') <==> o == o' && v == v')
  {
  }

  // ------------------------------------------------------------------- claims

  /** A row that keeps `symbol` locked against a claim with this OCO group. */
  predicate Blocks(row: Row, symbol: string, ocoGroup: string)
  {
    row.symbol == symbol && InFlight(row.state) && !(ocoGroup != "" && row.ocoGroup == ocoGroup)
  }

  predicate Claimable(rows: Rows, key: string, symbol: string, ocoGroup: string)
  {
    key !in rows && forall k | k in rows :: !Blocks(rows[k], symbol, ocoGroup)
  }

  function Claimed(rows: Rows, key: string, symbol: string, strategy: string, direction: Side, ocoGroup: string): Rows
  {
    rows[key := Row(symbol, strategy, direction, ARMED, 0, 0, ocoGroup)]
  }

  /** A state update; ticket and volume are written only when one of them is nonzero. */
  function Written(rows: Rows, key: string, state: OrderState, ticket: int, volume: int): Rows
  {
    if key !in rows then rows
    else if ticket != 0 || volume != 0 then rows[key := rows[key].(state := state, ticket := ticket, volume := volume)]
    else rows[key := rows[key].(state := state)]
  }

  /** Two rows do not compete for one symbol, unless they are legs of one non-empty OCO group. */
  ghost predicate Compatible(a: Row, b: Row)
  {
    a.symbol == b.symbol && InFlight(a.state) && InFlight(b.state) ==> a.ocoGroup == b.ocoGroup != ""
  }

  /** Any two distinct in-flight rows on one symbol are legs of one non-empty OCO group. */
  ghost predicate OneInFlight(rows: Rows)
  {
    forall k, k' | k in rows && k' in rows && k != k' :: Compatible(rows[k], rows[k'])
  }

  lemma ClaimKeepsLock(rows: Rows, key: string, symbol: string, strategy: string, direction: Side, ocoGroup: string)
    requires OneInFlight(rows) && Claimable(rows, key, symbol, ocoGroup)
    ensures OneInFlight(Claimed(rows, key, symbol, strategy, direction, ocoGroup))
  {
    var rows' := Claimed(rows, key, symbol, strategy, direction, ocoGroup);
    forall k, k' | k in rows' && k' in rows' && k != k' ensures Compatible(rows'[k], rows'[k']) {
      if k != key && k' != key {
        assert Compatible(rows[k], rows[k']);
      } else {
        assert !Blocks(rows[if k == key then k' else k], symbol, ocoGroup);
      }
    }
  }

  /** The symbol lock lets the row take this state: it was in flight before, or is not put in flight, or every
      other in-flight row on its symbol is a leg of its non-empty OCO group. */
  ghost predicate LockAllows(rows: Rows, key: string, state: OrderState)
    requires key in rows
  {
    InFlight(state) && !InFlight(rows[key].state) ==>
      forall k | k in rows && k != key && InFlight(rows[k].state) && rows[k].symbol == rows[key].symbol ::
        rows[k].ocoGroup == rows[key].ocoGroup != ""
  }

  lemma AllowedKeeps(rows: Rows, key: string, state: OrderState, ticket: int, volume: int)
    requires OneInFlight(rows) && key in rows && LockAllows(rows, key, state)
    ensures OneInFlight(Written(rows, key, state, ticket, volume))
  {
    hide InFlight;
    var rows' := Written(rows, key, state, ticket, volume);
    forall k, k' | k in rows' && k' in rows' && k != k' ensures Compatible(rows'[k], rows'[k']) {
      assert Compatible(rows[k], rows[k']);
    }
  }

  lemma RefusedBreaks(rows: Rows, key: string, state: OrderState, ticket: int, volume: int)
    requires key in rows && !LockAllows(rows, key, state)
    ensures !OneInFlight(Written(rows, key, state, ticket, volume))
  {
    hide InFlight;
    var rows' := Written(rows, key, state, ticket, volume);
    var k :| k in rows && k != key && InFlight(rows[k].state) && rows[k].symbol == rows[key].symbol
             && !(rows[k].ocoGroup == rows[key].ocoGroup != "");
    assert !Compatible(rows'[k], rows'[key]);
  }

  /** Exactly when a write keeps the lock. */
  lemma WriteKeepsLock(rows: Rows, key: string, state: OrderState, ticket: int, volume: int)
    requires OneInFlight(rows) && key in rows
    ensures OneInFlight(Written(rows, key, state, ticket, volume)) <==> LockAllows(rows, key, state)
  {
    hide InFlight, LockAllows, Written, OneInFlight;
    if LockAllows(rows, key, state) {
      AllowedKeeps(rows, key, state, ticket, volume);
    } else {
      RefusedBreaks(rows, key, state, ticket, volume);
    }
  }

  /** The lock is tight: reviving a finished row next to a foreign in-flight row breaks it. */
  lemma RevivalBreaksLock(rows: Rows, k: string, k': string)
    requires k in rows && k' in rows && k != k' && rows[k].symbol == rows[k'].symbol
    requires !InFlight(rows[k].state) && InFlight(rows[k'].state) && rows[k].ocoGroup != rows[k'].ocoGroup
    ensures !OneInFlight(Written(rows, k, PLACED, 0, 0))
  {
    var after := Written(rows, k, PLACED, 0, 0);
    assert !Compatible(after[k], after[k']);
  }

  class IntentStore {
    var rows: Rows

    constructor ()
      ensures rows == map[] && OneInFlight(rows)
    {
      rows := map[];
    }

    method TryClaim(key: string, symbol: string, strategy: string, direction: Side, ocoGroup: string) returns (ok: bool)
      modifies this
      ensures ok <==> Claimable(old(rows), key, symbol, ocoGroup)
      ensures rows == if ok then Claimed(old(rows), key, symbol, strategy, direction, ocoGroup) else old(rows)
    {
      var blocking := set k | k in rows && Blocks(rows[k], symbol, ocoGroup);
      if blocking != {} {
        return false;
      }
      assert forall k | k in rows :: k !in blocking;
      if key in rows {
        return false;
      }
      rows := rows[key := Row(symbol, strategy, direction, ARMED, 0, 0, ocoGroup)];
      ok := true;
    }

    method SetState(key: string, state: OrderState, ticket: int, volume: int)
      modifies this
      ensures rows == Written(old(rows), key, state, ticket, volume)
    {
      if key in rows {
        if ticket != 0 || volume != 0 {
          rows := rows[key := rows[key].(state := state, ticket := ticket, volume := volume)];
        } else {
          rows := rows[key := rows[key].(state := state)];
        }
      }
    }
  }
}
