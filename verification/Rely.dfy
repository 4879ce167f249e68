/** What a call may rely on while others interleave, that intent rows stay true of the broker, and that the
    symbol lock holds. */
module Rely {
  import opened Protocol
  import opened Retcodes
  import opened Market
  import opened Footprint
  import opened Dealing
  import opened Intents
  import opened World
  import opened Snapshots

  /** A move made on behalf of intent `k`. */
  predicate Touches(m: Move, k: string)
  {
    (m.Claim? || m.Send? || m.Retire? || m.Write?) && m.key == k
  }

  /** The one write that others make to the row of `k` while its call runs: the mark of a finished cancel. */
  predicate Cancels(m: Move, k: string)
  {
    m == Write(k, CANCELLED, 0, 0)
  }

  /** How the world may change for the owner of `k` while others move: at most its row is marked CANCELLED. */
  ghost predicate Undisturbed(w: World, w': World, k: string)
  {
    && Calm(w.book, w'.book, CommentFor(k))
    && (k in w.rows <==> k in w'.rows)
    && (k in w.rows ==> w'.rows[k] == w.rows[k] || w'.rows[k] == w.rows[k].(state := CANCELLED))
    && (k in w.entitled <==> k in w'.entitled)
  }

  /** The row of `k` is as it was. */
  predicate RowKept(w: World, w': World, k: string)
  {
    k in w.rows ==> k in w'.rows && w'.rows[k] == w.rows[k]
  }

  lemma ServedCalm(w: World, r: OrderRequest, c: string)
    requires Valid(w.book) && !(IsEntry(r) && r.comment == c)
    ensures Calm(w.book, Served(w, r).book, c)
  {
    hide DecideSend;
    var d := Answer(w, r);
    SendActs(w.book, w.terms, w.queue, r);
    if d.acts == [] {
      assert Run(w.book, d.acts) == Some(w.book);
    } else {
      assert d.acts[0] in d.acts;
      ActCalm(w.book, d.acts[0], c);
    }
  }

  lemma PeerServed(w: World, r: OrderRequest, k: string)
    requires Core(w) && !(IsEntry(r) && r.comment == CommentFor(k))
    ensures Undisturbed(w, Served(w, r), k) && RowKept(w, Served(w, r), k)
  {
    hide DecideSend, Served, Calm;
    ServedFrame(w, r);
    ServedCalm(w, r, CommentFor(k));
  }

  /** Others leave intent `k` undisturbed, and its row as it was unless they mark it CANCELLED. */
  lemma PeerMove(w: World, m: Move, k: string)
    requires Core(w) && Possible(w, m) && (!Touches(m, k) || Cancels(m, k))
    ensures Undisturbed(w, After(w, m), k)
    ensures !Touches(m, k) ==> RowKept(w, After(w, m), k)
  {
    hide DecideSend, Served, Calm, Apply;
    CalmReflexive(w.book, CommentFor(k));
    match m
    case Broker(a) => ActCalm(w.book, a, CommentFor(k));
    case Trader(r, _) =>
      CommentsAreInjective(k, k);
      PeerServed(w, r, k);
    case Send(key, r, _) =>
      CommentsAreInjective(k, key);
      PeerServed(w, r, k);
    case _ =>
  }

  lemma UndisturbedTransitive(w0: World, w1: World, w2: World, k: string)
    requires Undisturbed(w0, w1, k) && Undisturbed(w1, w2, k)
    ensures Undisturbed(w0, w2, k)
  {
    CalmTransitive(w0.book, w1.book, w2.book, CommentFor(k));
  }

  /** While a key may still send, nothing at the broker carries it; so whatever carries it after the send
      has the request's magic and symbol and is dated from the send on. */
  lemma SendTags(w: World, m: Move)
    requires Core(w) && m.Send? && Possible(w, m)
    ensures Tagged(After(w, m).book, CommentFor(m.key), m.request.magic, m.request.symbol, w.book.now)
    ensures After(w, m).book.now == w.book.now
  {
    hide DecideSend;
    var r, c := m.request, CommentFor(m.key);
    assert AtMostOnce(w, m.key);
    NoEffectsNothingShown(w.book, c);
    assert Tagged(w.book, c, r.magic, r.symbol, w.book.now);
    SendActs(w.book, w.terms, w.queue, r);
    var d := Answer(w, r);
    if d.acts == [] {
      assert Run(w.book, d.acts) == Some(w.book);
    } else {
      assert d.acts[0] in d.acts;
      ActTags(w.book, d.acts[0], c, r.magic, r.symbol, w.book.now);
    }
  }

  /** What a reply says about the effect of the send: a retriable reply means none, a pending placement
      that is neither confirmed nor unknown means none, and a market order leaves nothing resting. */
  lemma SendMeans(w: World, m: Move)
    requires Core(w) && m.Send? && Possible(w, m)
    ensures m.request.action.DEAL? ==> |Resting(After(w, m).book.orders, CommentFor(m.key))| == 0
    ensures !MayHaveExecuted(m.reply) || (m.request.action.PENDING? && ActionFor(CodeOf(m.reply)).ACCEPT_PARTIAL?) ==>
      Effects(After(w, m).book, CommentFor(m.key)) == 0
  {
    var r, c := m.request, CommentFor(m.key);
    assert AtMostOnce(w, m.key);
    SendActs(w.book, w.terms, w.queue, r);
    HonestReply(w.book, w.terms, w.queue, r);
    var d := Answer(w, r);
    if d.acts == [] {
      assert Run(w.book, d.acts) == Some(w.book);
    } else {
      assert d.acts[0] in d.acts;
      ActEffects(w.book, d.acts[0], c);
      if r.action.PENDING? {
        PlacedOrPartial(w, r);
      }
    }
  }

  /** A success claim: the engine will look for the order, or take it as partly filled. */
  predicate ClaimsSuccess(reply: Reply)
  {
    ActionFor(CodeOf(reply)).VERIFY_FILL? || ActionFor(CodeOf(reply)).ACCEPT_PARTIAL?
  }

  predicate DealShown(b: Book, t: int, volume: int, c: string)
  {
    exists i | 0 <= i < |b.deals| :: b.deals[i].positionId == t && b.deals[i].volume == volume && b.deals[i].comment == c
  }

  /** What the ticket of an answered entry order stands for: the order's own effect, of the replied volume,
      or no ticket at all, and then a claimed success did not happen. */
  ghost predicate Booked(b: Book, r: OrderRequest, reply: Reply, c: string)
  {
    reply.Got? && r.positionTicket == 0 ==>
      var t := reply.result.order;
      && Owned(b, t, c)
      && (t == 0 && ClaimsSuccess(reply) ==> Effects(b, c) == 0)
      && (t != 0 && r.action.DEAL? ==> DealShown(b, t, reply.result.volume, c))
  }

  lemma OpenOwned(b: Book, r: OrderRequest, volume: int, price: real)
    requires Valid(b) && Effects(b, r.comment) == 0 && Enabled(b, Open(r, volume, price))
    ensures Owned(Apply(b, Open(r, volume, price)), b.nextTicket + 1, r.comment)
    ensures DealShown(Apply(b, Open(r, volume, price)), b.nextTicket + 1, volume, r.comment)
  {
    hide CalcProfit, Commission, Effects;
    NoEffectsNothingShown(b, r.comment);
    var b' := Apply(b, Open(r, volume, price));
    assert b'.deals[|b.deals|].positionId == b.nextTicket + 1;
  }

  lemma PlaceOwned(b: Book, r: OrderRequest)
    requires Valid(b) && Effects(b, r.comment) == 0
    ensures Owned(Apply(b, Place(r)), b.nextTicket + 1, r.comment)
  {
    hide Effects;
    NoEffectsNothingShown(b, r.comment);
  }

  lemma SendBooked(w: World, m: Move)
    requires Core(w) && m.Send? && Possible(w, m)
    ensures Booked(After(w, m).book, m.request, m.reply, CommentFor(m.key))
  {
    hide Effects, Owned, DealShown, MarketPrice, FillVolume;
    var r := m.request;
    assert AtMostOnce(w, m.key) && Effects(w.book, r.comment) == 0;
    var d := Answer(w, r);
    if d.acts == [] {
      assert Run(w.book, d.acts) == Some(w.book);
      NoTicketOwned(w.book, r.comment);
    } else {
      SendActs(w.book, w.terms, w.queue, r);
      var a := d.acts[0];
      assert a in d.acts;
      if r.positionTicket == 0 && a.Open? {
        OpenOwned(w.book, r, a.volume, a.price);
      } else if a.Place? {
        PlaceOwned(w.book, r);
      }
      NoTicketOwned(After(w, m).book, r.comment);
      if w.queue != [] {
        InjectedClaims(w, r);
      }
    }
  }

  lemma NoTicketOwned(b: Book, c: string)
    ensures Owned(b, 0, c)
  {
  }

  /** An honest broker that acts behind an injected reply does not claim success in it. */
  lemma InjectedClaims(w: World, r: OrderRequest)
    requires Honest(w.queue) && Answer(w, r).acts != [] && w.queue != []
    ensures !ClaimsSuccess(Answer(w, r).reply)
  {
    assert w.queue[0].executeAnyway ==> ActionFor(w.queue[0].retcode).UNKNOWN_OUTCOME?;
  }

  lemma PlacedOrPartial(w: World, r: OrderRequest)
    requires Honest(w.queue) && r.action.PENDING? && Answer(w, r).acts != []
    ensures !ActionFor(CodeOf(Answer(w, r).reply)).ACCEPT_PARTIAL?
  {
    if w.queue != [] {
      assert w.queue[0].executeAnyway ==> ActionFor(w.queue[0].retcode).UNKNOWN_OUTCOME?;
    }
  }

  // ------------------------------------------------------------ truthful rows

  /** What a row's state says about the broker: a finished row leaves nothing resting, FILLED means a
      position was opened, REJECTED means nothing ever happened. */
  predicate RowTrue(state: OrderState, resting: nat, ins: nat)
  {
    && (!InFlight(state) ==> resting == 0)
    && (state.FILLED? ==> ins > 0)
    && (state.REJECTED? ==> ins == 0)
  }

  predicate TrueOf(b: Book, key: string, state: OrderState)
  {
    RowTrue(state, |Resting(b.orders, CommentFor(key))|, Ins(b.deals, CommentFor(key)))
  }

  /** The row of `k` is true of the broker, its ticket is the key's own, and it is fresh while its call may
      still send. */
  ghost predicate TruthOf(w: World, k: string)
  {
    k in w.rows ==>
      && TrueOf(w.book, k, w.rows[k].state) && Owned(w.book, w.rows[k].ticket, CommentFor(k))
      && (k in w.entitled ==> w.rows[k].state.ARMED? && w.rows[k].ticket == 0)
  }

  ghost predicate Truth(w: World)
  {
    forall k: string :: TruthOf(w, k)
  }

  /** A state write that is true of the broker, records only a ticket of the key's own, and is made by a call
      that will not send again. Moves that are not writes are faithful. */
  predicate Faithful(w: World, m: Move)
  {
    m.Write? && m.key in w.rows ==>
      && m.key !in w.entitled
      && TrueOf(w.book, m.key, m.state)
      && (m.ticket != 0 || m.volume != 0 ==> Owned(w.book, m.ticket, CommentFor(m.key)))
  }

  /** A state write that puts a finished row back in flight. */
  predicate Revives(w: World, m: Move)
  {
    m.Write? && m.key in w.rows && InFlight(m.state) && !InFlight(w.rows[m.key].state)
  }

  ghost predicate FaithfulAt(ws: seq<World>, ms: seq<Move>, k: string, i: int)
    requires 0 <= i < |ms| < |ws|
  {
    ms[i].Write? && ms[i].key == k ==> Faithful(ws[i], ms[i])
  }

  /** Every write of the row of `k` was faithful when made. */
  ghost predicate FaithfulRun(ws: seq<World>, ms: seq<Move>, k: string)
  {
    |ws| == |ms| + 1 && forall i | 0 <= i < |ms| :: FaithfulAt(ws, ms, k, i)
  }

  ghost predicate RevivesAt(ws: seq<World>, ms: seq<Move>, k: string, i: int)
    requires 0 <= i < |ms| < |ws|
  {
    ms[i].Write? && ms[i].key == k && Revives(ws[i], ms[i])
  }

  /** No write of the row of `k` put it back in flight. */
  ghost predicate NoRevivals(ws: seq<World>, ms: seq<Move>, k: string)
  {
    |ws| == |ms| + 1 && forall i | 0 <= i < |ms| :: !RevivesAt(ws, ms, k, i)
  }

  lemma FaithfulSteps(ws: seq<World>, ms: seq<Move>, m: Move, w': World, k: string)
    requires FaithfulRun(ws, ms, k) && (m.Write? && m.key == k ==> Faithful(ws[|ms|], m))
    ensures FaithfulRun(ws + [w'], ms + [m], k)
  {
    forall i | 0 <= i < |ms + [m]| ensures FaithfulAt(ws + [w'], ms + [m], k, i) {
      if i < |ms| {
        assert FaithfulAt(ws, ms, k, i);
      }
    }
  }

  lemma NoRevivalSteps(ws: seq<World>, ms: seq<Move>, m: Move, w': World, k: string)
    requires NoRevivals(ws, ms, k) && !(m.Write? && m.key == k && Revives(ws[|ms|], m))
    ensures NoRevivals(ws + [w'], ms + [m], k)
  {
    forall i | 0 <= i < |ms + [m]| ensures !RevivesAt(ws + [w'], ms + [m], k, i) {
      if i < |ms| {
        assert !RevivesAt(ws, ms, k, i);
      }
    }
  }

  /** Serving a request that does not enter under `c` leaves the truth about `c` alone. */
  lemma ServedTruth(w: World, r: OrderRequest, k: string, state: OrderState)
    requires Core(w) && TrueOf(w.book, k, state) && !(IsEntry(r) && r.comment == CommentFor(k))
    ensures TrueOf(Served(w, r).book, k, state)
  {
    hide DecideSend;
    var d := Answer(w, r);
    SendActs(w.book, w.terms, w.queue, r);
    if d.acts == [] {
      assert Run(w.book, d.acts) == Some(w.book);
    } else {
      assert d.acts[0] in d.acts;
      ActEffects(w.book, d.acts[0], CommentFor(k));
    }
  }

  lemma ActTruth(b: Book, a: Act, k: string, state: OrderState)
    requires TicketsOk(b) && Enabled(b, a) && TrueOf(b, k, state) && !a.Enters()
    ensures TrueOf(Apply(b, a), k, state)
  {
    hide Apply, Enabled, TicketsOk, Resting, Ins;
    ActEffects(b, a, CommentFor(k));
  }

  /** A move of anyone but the sender of `k` keeps what is true of `k`. */
  lemma BooksKeepTruth(w: World, m: Move, k: string, state: OrderState)
    requires Core(w) && Possible(w, m) && TrueOf(w.book, k, state) && !(m.Send? && m.key == k)
    ensures TrueOf(After(w, m).book, k, state)
  {
    hide DecideSend, Served, TrueOf, Apply;
    match m
    case Broker(a) => ActTruth(w.book, a, k, state);
    case Trader(r, _) =>
      CommentsAreInjective(k, k);
      ServedTruth(w, r, k, state);
    case Send(key, r, _) =>
      CommentsAreInjective(k, key);
      ServedTruth(w, r, k, state);
    case _ =>
  }

  lemma ArmedIsTrue(b: Book, k: string)
    ensures TrueOf(b, k, ARMED)
  {
  }

  lemma MoveKeepsTruth(w: World, m: Move, k: string)
    requires Core(w) && TruthOf(w, k) && Possible(w, m) && (m.Write? && m.key == k ==> Faithful(w, m))
    ensures TruthOf(After(w, m), k)
  {
    hide DecideSend, Served, TrueOf, Apply, Owned;
    var w' := After(w, m);
    if m.Trader? || m.Send? {
      ServedFrame(w, m.request);
    }
    ArmedIsTrue(w'.book, k);
    NoTicketOwned(w'.book, CommentFor(k));
    if !(m.Write? && m.key == k) && k in w.rows && !(m.Send? && m.key == k) {
      BooksKeepTruth(w, m, k, w.rows[k].state);
      BooksKeepTicket(w, m, k, w.rows[k].ticket);
    }
  }

  /** A move of anyone but the sender of `k` leaves its tickets its own. */
  lemma BooksKeepTicket(w: World, m: Move, k: string, t: int)
    requires Core(w) && Possible(w, m) && Owned(w.book, t, CommentFor(k)) && !(m.Send? && m.key == k)
    ensures Owned(After(w, m).book, t, CommentFor(k))
  {
    hide Owned, Apply, Served, Core;
    if !Touches(m, k) {
      PeerMove(w, m, k);
    }
  }

  /** The write fits the symbol lock: it puts no finished row back in flight beside another in-flight row on its
      symbol, other legs of its OCO group aside. */
  ghost predicate Fits(w: World, m: Move)
  {
    m.Write? && m.key in w.rows ==> LockAllows(w.rows, m.key, m.state)
  }

  lemma OnlyRevivalsMisfit(w: World, m: Move)
    ensures !Revives(w, m) ==> Fits(w, m)
  {
  }

  /** Exactly the writes that do not fit break the lock; no other move does. */
  lemma MoveKeepsLock(w: World, m: Move)
    requires OneInFlight(w.rows) && Possible(w, m)
    ensures OneInFlight(After(w, m).rows) <==> Fits(w, m)
    ensures !Revives(w, m) ==> Fits(w, m)
  {
    hide LockAllows, OneInFlight, InFlight;
    OnlyRevivalsMisfit(w, m);
    match m
    case Claim(key, symbol, strategy, direction, ocoGroup) =>
      ClaimKeepsLock(w.rows, key, symbol, strategy, direction, ocoGroup);
    case Write(key, state, ticket, volume) =>
      if key in w.rows {
        WriteKeepsLock(w.rows, key, state, ticket, volume);
      }
    case _ =>
  }

  /** THE SYMBOL LOCK. In every state of every run whose writes put no finished row back in flight, true or
      not, in-flight rows on one symbol are legs of one OCO group. */
  lemma {:induction false} LockStays(ws: seq<World>, ms: seq<Move>, i: nat)
    requires IsRun(ws, ms) && (forall k :: NoRevivals(ws, ms, k)) && OneInFlight(ws[0].rows) && i < |ws|
    ensures OneInFlight(ws[i].rows)
  {
    hide After, Possible, OneInFlight, Revives, Fits;
    if i == 0 {
    } else {
      LockStays(ws, ms, i - 1);
      assert StepAt(ws, ms, i - 1);
      var m := ms[i - 1];
      if m.Write? {
        assert NoRevivals(ws, ms, m.key) && !RevivesAt(ws, ms, m.key, i - 1);
      } else {
        OnlyWritesRevive(ws[i - 1], m);
      }
      MoveKeepsLock(ws[i - 1], m);
    }
  }

  lemma OnlyWritesRevive(w: World, m: Move)
    requires !m.Write?
    ensures !Revives(w, m)
  {
  }

  /** When no row is ever put back in flight: exactly when every row is written in order, in flight first and
      finished last, and rows finished at the start are not written in flight at all. */
  lemma NoRevivalsMeansInOrder(ws: seq<World>, ms: seq<Move>, k: string)
    requires IsRun(ws, ms)
    ensures NoRevivals(ws, ms, k) <==> WrittenInOrder(ws, ms, k)
  {
    hide After, Possible;
    if NoRevivals(ws, ms, k) {
      forall i | 0 <= i < |ms| && WritesInFlight(ms[i], k) && k in ws[i].rows
        ensures (k in ws[0].rows ==> InFlight(ws[0].rows[k].state)) && forall j | 0 <= j < i :: !Finishes(ws, ms, k, j)
      {
        assert !RevivesAt(ws, ms, k, i);
        InFlightBefore(ws, ms, k, i);
      }
    } else {
      var i :| 0 <= i < |ms| && RevivesAt(ws, ms, k, i);
      FinishedBefore(ws, ms, k, i);
    }
  }

  predicate WritesInFlight(m: Move, k: string) { m.Write? && m.key == k && InFlight(m.state) }

  ghost predicate Finishes(ws: seq<World>, ms: seq<Move>, k: string, i: int)
    requires 0 <= i < |ms| < |ws|
  {
    ms[i].Write? && ms[i].key == k && !InFlight(ms[i].state) && k in ws[i].rows
  }

  ghost predicate WrittenInOrder(ws: seq<World>, ms: seq<Move>, k: string)
    requires |ws| == |ms| + 1
  {
    forall i | 0 <= i < |ms| && WritesInFlight(ms[i], k) && k in ws[i].rows ::
      (k in ws[0].rows ==> InFlight(ws[0].rows[k].state)) && forall j | 0 <= j < i :: !Finishes(ws, ms, k, j)
  }

  lemma RowStep(ws: seq<World>, ms: seq<Move>, k: string, i: nat)
    requires IsRun(ws, ms) && i < |ms|
    ensures k in ws[i].rows ==> k in ws[i + 1].rows
    ensures k in ws[i + 1].rows && k !in ws[i].rows ==> InFlight(ws[i + 1].rows[k].state)
    ensures k in ws[i].rows && !(ms[i].Write? && ms[i].key == k) ==> ws[i + 1].rows[k] == ws[i].rows[k]
    ensures k in ws[i].rows && ms[i].Write? && ms[i].key == k ==> ws[i + 1].rows[k].state == ms[i].state
  {
    assert StepAt(ws, ms, i);
    if ms[i].Trader? || ms[i].Send? {
      ServedFrame(ws[i], ms[i].request);
    }
  }

  /** A row in flight before any of its revivals has been in flight all along. */
  lemma {:induction false} InFlightBefore(ws: seq<World>, ms: seq<Move>, k: string, i: nat)
    requires IsRun(ws, ms) && NoRevivals(ws, ms, k) && i <= |ms| && k in ws[i].rows && InFlight(ws[i].rows[k].state)
    ensures (k in ws[0].rows ==> InFlight(ws[0].rows[k].state)) && forall j | 0 <= j < i :: !Finishes(ws, ms, k, j)
  {
    if i == 0 {
    } else {
      RowStep(ws, ms, k, i - 1);
      assert !RevivesAt(ws, ms, k, i - 1);
      if k in ws[i - 1].rows {
        InFlightBefore(ws, ms, k, i - 1);
      } else {
        UnknownBefore(ws, ms, k, i - 1);
      }
    }
  }

  lemma {:induction false} UnknownBefore(ws: seq<World>, ms: seq<Move>, k: string, i: nat)
    requires IsRun(ws, ms) && i <= |ms| && k !in ws[i].rows
    ensures k !in ws[0].rows && forall j | 0 <= j < i :: !Finishes(ws, ms, k, j)
  {
    if i == 0 {
    } else {
      RowStep(ws, ms, k, i - 1);
      UnknownBefore(ws, ms, k, i - 1);
    }
  }

  /** A finished row was finished at the start or by a write. */
  lemma {:induction false} FinishedBefore(ws: seq<World>, ms: seq<Move>, k: string, i: nat)
    requires IsRun(ws, ms) && i <= |ms| && k in ws[i].rows && !InFlight(ws[i].rows[k].state)
    ensures (k in ws[0].rows && !InFlight(ws[0].rows[k].state)) || exists j :: 0 <= j < i && Finishes(ws, ms, k, j)
  {
    if i == 0 {
    } else {
      RowStep(ws, ms, k, i - 1);
      if Finishes(ws, ms, k, i - 1) {
      } else {
        FinishedBefore(ws, ms, k, i - 1);
      }
    }
  }

  /** TRUE ROWS. In every state of every run, the row of a key whose own writes were faithful is true of the
      broker, whatever is written into other rows. */
  lemma {:induction false} RowStaysTrue(ws: seq<World>, ms: seq<Move>, k: string, i: nat)
    requires IsRun(ws, ms) && FaithfulRun(ws, ms, k) && i < |ws|
    requires Core(ws[0]) && TruthOf(ws[0], k)
    ensures TruthOf(ws[i], k)
  {
    hide After, Possible, Faithful, TruthOf, Core;
    if i == 0 {
    } else {
      RowStaysTrue(ws, ms, k, i - 1);
      ExactlyOnce(ws, ms, i - 1);
      assert StepAt(ws, ms, i - 1) && FaithfulAt(ws, ms, k, i - 1);
      MoveKeepsTruth(ws[i - 1], ms[i - 1], k);
    }
  }

  // ------------------------------------------------------------ broker reads

  /** An opening deal under a key settles it: nothing rests, and FILLED is true. */
  lemma FillSeen(w: World, k: string)
    requires Core(w) && Ins(w.book.deals, CommentFor(k)) > 0
    ensures TrueOf(w.book, k, FILLED) && |Resting(w.book.orders, CommentFor(k))| == 0
  {
    assert AtMostOnce(w, k);
  }

  lemma PositionSeen(w: World, k: string, p: Position)
    requires Core(w) && p.ticket in w.book.positions && w.book.positions[p.ticket] == p && p.comment == CommentFor(k)
    ensures TrueOf(w.book, k, FILLED) && Ins(w.book.deals, CommentFor(k)) > 0
  {
    hide TrueOf;
    assert Sourced(w.book);
    FillSeen(w, k);
  }

  lemma DealSeen(w: World, k: string, d: Deal)
    requires Core(w) && d in w.book.deals && d.comment == CommentFor(k)
    ensures TrueOf(w.book, k, FILLED) && Ins(w.book.deals, CommentFor(k)) > 0
  {
    hide TrueOf;
    assert Sourced(w.book);
    FillSeen(w, k);
  }

  /** The tickets of what a listing shows under a key are the key's own. */
  lemma PositionOwned(w: World, k: string, p: Position)
    requires Core(w) && p.ticket in w.book.positions && w.book.positions[p.ticket] == p && p.comment == CommentFor(k)
    ensures Owned(w.book, p.ticket, CommentFor(k))
  {
    hide TrueOf;
    PositionSeen(w, k, p);
    FillSeen(w, k);
    assert Resting(w.book.orders, CommentFor(k)) == {};
    assert forall u | u in w.book.orders && w.book.orders[u].comment == CommentFor(k) :: u in Resting(w.book.orders, CommentFor(k));
  }

  lemma DealOwned(w: World, k: string, d: Deal)
    requires Core(w) && d in w.book.deals && d.comment == CommentFor(k)
    ensures Owned(w.book, d.positionId, CommentFor(k))
  {
    hide TrueOf;
    DealSeen(w, k, d);
    FillSeen(w, k);
    assert Resting(w.book.orders, CommentFor(k)) == {};
    assert forall u | u in w.book.orders && w.book.orders[u].comment == CommentFor(k) :: u in Resting(w.book.orders, CommentFor(k));
    var i :| 0 <= i < |w.book.deals| && w.book.deals[i] == d;
  }

  lemma OrderOwned(w: World, k: string, o: PendingOrder)
    requires Core(w) && o.ticket in w.book.orders && w.book.orders[o.ticket] == o && o.comment == CommentFor(k)
    ensures Owned(w.book, o.ticket, CommentFor(k))
  {
    AtMostOneRests(w, k);
    assert o.ticket in Resting(w.book.orders, CommentFor(k));
    assert forall u | u in w.book.orders && w.book.orders[u].comment == CommentFor(k) :: u in Resting(w.book.orders, CommentFor(k));
  }

  lemma AtMostOneRests(w: World, key: string)
    requires Core(w)
    ensures var resting := Resting(w.book.orders, CommentFor(key));
      |resting| <= 1 && forall t | t in resting :: resting == {t}
  {
    hide Valid;
    assert AtMostOnce(w, key);
    var resting := Resting(w.book.orders, CommentFor(key));
    forall t | t in resting ensures resting == {t} {
      assert |resting - {t}| == 0;
    }
  }

  /** If a listing of the symbol's orders shows none with the key's comment and magic, none rests. */
  lemma OrderUnseen(b: Book, k: string, magic: int, symbol: string, since: int, os: seq<PendingOrder>)
    requires Tagged(b, CommentFor(k), magic, symbol, since) && ListsOrders(b.orders, Some(symbol), os)
    requires forall o | o in os :: !(o.comment == CommentFor(k) && o.magic == magic)
    ensures |Resting(b.orders, CommentFor(k))| == 0
  {
    assert Resting(b.orders, CommentFor(k)) == {} by {
      forall t | t in b.orders ensures b.orders[t].comment != CommentFor(k) {
        assert OnSymbol(b.orders[t].symbol, Some(symbol)) ==> b.orders[t] in os;
      }
    }
  }

  /** If the deals of the window show none with the key's comment and magic, and the key's deals cannot
      be older than the window, there is none. */
  lemma DealUnseen(b: Book, k: string, magic: int, symbol: string, since: int, from: int, to: int)
    requires Tagged(b, CommentFor(k), magic, symbol, since) && from <= since && b.now <= to
    requires forall d | d in DealsWithin(b.deals, from, to) :: !(d.comment == CommentFor(k) && d.magic == magic)
    ensures Ins(b.deals, CommentFor(k)) == 0
  {
    if Ins(b.deals, CommentFor(k)) > 0 {
      var i := InsFindsDeal(b.deals, CommentFor(k));
      DealsWithinMembers(b.deals, from, to, b.deals[i]);
      assert false;
    }
  }
}
