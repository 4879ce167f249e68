/** The desk over several sessions: its moves, with startups in between that end every running call, recover
    the rows from what the broker shows and put missing stops in place. */
module Sessions {
  import opened Protocol
  import opened Market
  import opened Footprint
  import opened Dealing
  import opened Intents
  import opened World
  import opened Rely
  import opened Calls
  import opened Recovery
  import opened Stops
  import opened Reconcile
  import opened Simulator
  import opened Fuse
  import Engine

  datatype Step = Moved(move: Move) | Restarted(now: int, s: Snapshot, points: int)

  ghost predicate Takes(w: World, step: Step, w': World)
  {
    match step
    case Moved(m) => Makes(w, m, w')
    case Restarted(now, s, points) => Reads(w.book, now, s) && w' == Startup(w, s, points)
  }

  ghost predicate TakesAt(ws: seq<World>, steps: seq<Step>, i: int)
    requires 0 <= i < |steps| < |ws|
  {
    Takes(ws[i], steps[i], ws[i + 1])
  }

  /** Any number of sessions: states joined by moves and startups. */
  ghost predicate IsHistory(ws: seq<World>, steps: seq<Step>)
  {
    |ws| == |steps| + 1 && forall i | 0 <= i < |steps| :: TakesAt(ws, steps, i)
  }

  // ------------------------------------------------------------ exactly once

  lemma {:induction false} SecureKeepsCore(w: World, ps: seq<Position>, points: int)
    requires Core(w)
    ensures Core(Secure(w, ps, points))
  {
    hide Core, Served, DecideSend, FallbackStop;
    if ps == [] {
    } else {
      var p, before := ps[|ps| - 1], Secure(w, ps[..|ps| - 1], points);
      SecureKeepsCore(w, ps[..|ps| - 1], points);
      var r := StopRequest(p, FallbackStop(w.book, p, points));
      ServeKeepsCore(before, Trader(r, Answer(before, r).reply));
    }
  }

  lemma SameKeysKeepCore(w: World, rows: Rows)
    requires Core(w) && rows.Keys == w.rows.Keys
    ensures Core(w.(rows := rows))
  {
    hide Valid, Effects;
    forall k: string ensures AtMostOnce(w.(rows := rows), k) {
      assert AtMostOnce(w, k);
    }
  }

  lemma StoppedCallsKeepCore(w: World)
    requires Core(w)
    ensures Core(w.(entitled := {}))
  {
    hide Valid, Effects;
    forall k: string ensures AtMostOnce(w.(entitled := {}), k) {
      assert AtMostOnce(w, k);
    }
  }

  lemma SnapshotTickets(b: Book, now: int, s: Snapshot)
    requires TicketsOk(b) && Reads(b, now, s)
    ensures TicketsPositive(s) && Current(b, s.positions)
  {
  }

  lemma StartupKeepsCore(w: World, now: int, s: Snapshot, points: int)
    requires Core(w) && Reads(w.book, now, s)
    ensures Core(Startup(w, s, points)) && Startup(w, s, points).rows.Keys == w.rows.Keys
  {
    hide Reads, Secure, Recovered, TicketsPositive, Current, Effects, AtMostOnce;
    SnapshotTickets(w.book, now, s);
    StoppedCallsKeepCore(w);
    var stopped := w.(entitled := {});
    SecureKeepsCore(stopped, s.positions, points);
    SecureOnlyGuards(stopped, s.positions, points);
    RowByRow(w.rows, s);
    SameKeysKeepCore(Secure(stopped, s.positions, points), Recovered(w.rows, s));
  }

  /** Startup changes nothing in the books but stops of open positions. */
  lemma StartupBook(w: World, now: int, s: Snapshot, points: int)
    requires Core(w) && Reads(w.book, now, s)
    ensures var b := Startup(w, s, points).book;
      && b == w.book.(positions := b.positions) && b.positions.Keys == w.book.positions.Keys
      && forall t | t in b.positions :: b.positions[t] == w.book.positions[t].(sl := b.positions[t].sl)
  {
    hide Reads, Secure, Recovered, TicketsPositive, FallbackStop, Bare, Current, Effects;
    SnapshotTickets(w.book, now, s);
    var stopped := w.(entitled := {});
    var b := Secure(stopped, s.positions, points).book;
    SecureOnlyGuards(stopped, s.positions, points);
    forall t | t in b.positions ensures b.positions[t] == w.book.positions[t].(sl := b.positions[t].sl) {
      assert Touchable(stopped, s.positions, points, t, b.positions[t]);
    }
  }

  lemma StepKeepsCore(w: World, step: Step, w': World)
    requires Core(w) && Takes(w, step, w')
    ensures Core(w') && w.rows.Keys <= w'.rows.Keys
  {
    hide Core, Reads, Startup;
    match step
    case Moved(m) =>
      MoveKeepsCore(w, m);
      if m.Trader? || m.Send? {
        ServedFrame(w, m.request);
      }
    case Restarted(now, s, points) => StartupKeepsCore(w, now, s, points);
  }

  /** EXACTLY ONCE, over sessions: in every state of every history, whatever crashes, recoveries and further
      sessions it holds, the resting orders and opening deals under one key together never exceed one. */
  lemma {:induction false} ExactlyOnceAcross(ws: seq<World>, steps: seq<Step>, i: nat)
    requires IsHistory(ws, steps) && Core(ws[0]) && i < |ws|
    ensures Core(ws[i])
    ensures forall k: string :: Effects(ws[i].book, CommentFor(k)) <= 1
  {
    if i == 0 {
    } else {
      ExactlyOnceAcross(ws, steps, i - 1);
      assert TakesAt(ws, steps, i - 1);
      StepKeepsCore(ws[i - 1], steps[i - 1], ws[i]);
    }
    forall k: string ensures Effects(ws[i].book, CommentFor(k)) <= 1 {
      assert AtMostOnce(ws[i], k);
    }
  }

  lemma {:induction false} RowsStayAcross(ws: seq<World>, steps: seq<Step>, i: nat, j: nat)
    requires IsHistory(ws, steps) && Core(ws[0]) && i <= j < |ws|
    ensures ws[i].rows.Keys <= ws[j].rows.Keys
    decreases j
  {
    hide Core, Takes;
    if i == j {
    } else {
      RowsStayAcross(ws, steps, i, j - 1);
      ExactlyOnceAcross(ws, steps, j - 1);
      assert TakesAt(ws, steps, j - 1);
      StepKeepsCore(ws[j - 1], steps[j - 1], ws[j]);
    }
  }

  /** No key is accepted in two sessions. */
  lemma ClaimedOnceAcross(ws: seq<World>, steps: seq<Step>, i: nat, j: nat)
    requires IsHistory(ws, steps) && Core(ws[0]) && i < j < |steps|
    requires steps[i].Moved? && steps[i].move.Claim? && steps[j].Moved? && steps[j].move.Claim?
    ensures steps[i].move.key != steps[j].move.key
  {
    hide Core;
    assert TakesAt(ws, steps, i) && TakesAt(ws, steps, j);
    RowsStayAcross(ws, steps, i + 1, j);
  }

  /** A new session: startup, then an engine whose contracts hold from the recovered desk on. */
  method Resume(broker: SimClient, store: IntentStore, fuse: StormFuse, script: seq<Engine.Turn>, now: int, points: int)
      returns (engine: Engine.ExecutionEngine, report: Report, ghost s: Snapshot)
    requires Core(WorldOf(broker, store)) && fuse.Valid() && fuse.history == [] && !fuse.blown
    modifies broker, store
    ensures fresh(engine) && engine.broker == broker && engine.store == store && engine.fuse == fuse
    ensures engine.Legal() && (forall k :: engine.Sound(k) && engine.Locked(k)) && Reads(old(broker.State()), now, s)
    ensures engine.W() == Startup(old(WorldOf(broker, store)), s, points) && engine.worlds == [engine.W()]
  {
    hide Core, Reads, Startup;
    ghost var w := WorldOf(broker, store);
    BookableNow(w);
    report, s := StartupReconcile(broker, store, now, points);
    StartupKeepsCore(w, now, s, points);
    engine := new Engine.ExecutionEngine(broker, store, fuse, script);
  }

  lemma BookableNow(w: World)
    requires Core(w)
    ensures TicketsOk(w.book)
  {
  }

  // ------------------------------------------------------------- what marks

  /** A comment of ours names a claimed key. */
  predicate MarkOk(rows: Rows, comment: string)
  {
    OurComment(comment) ==> comment[4..] in rows
  }

  ghost predicate BookMarked(b: Book, rows: Rows)
  {
    && (forall t | t in b.orders ::
          MarkOk(rows, b.orders[t].comment) && (OurComment(b.orders[t].comment) ==> MagicPrefixOk(b.orders[t].magic)))
    && (forall t | t in b.positions :: MarkOk(rows, b.positions[t].comment))
    && (forall i | 0 <= i < |b.deals| :: MarkOk(rows, b.deals[i].comment))
  }

  /** Every mark at the broker is a claimed key of 1 to 12 characters, and orders under such a mark carry our
      magic prefix. */
  ghost predicate Marked(w: World)
  {
    (forall k | k in w.rows :: 1 <= |k| <= 12) && BookMarked(w.book, w.rows)
  }

  /** Claims draw keys of 1 to 12 characters, and entries carry our magic prefix. */
  predicate Proper(step: Step)
  {
    step.Moved? ==>
      && (step.move.Claim? ==> 1 <= |step.move.key| <= 12)
      && (step.move.Send? ==> MagicPrefixOk(step.move.request.magic))
  }

  lemma ActKeepsMarks(b: Book, a: Act, rows: Rows)
    requires TicketsOk(b) && Enabled(b, a) && BookMarked(b, rows)
    requires a.Enters() && OurComment(a.request.comment) ==> a.request.comment[4..] in rows && MagicPrefixOk(a.request.magic)
    ensures BookMarked(Apply(b, a), rows)
  {
    hide CalcProfit, Commission, OurComment, MagicPrefixOk;
  }

  lemma ServedKeepsMarks(w: World, r: OrderRequest)
    requires Valid(w.book) && BookMarked(w.book, w.rows)
    requires IsEntry(r) && OurComment(r.comment) ==> r.comment[4..] in w.rows && MagicPrefixOk(r.magic)
    ensures BookMarked(Served(w, r).book, w.rows)
  {
    hide DecideSend, BookMarked, OurComment, MagicPrefixOk;
    var d := Answer(w, r);
    SendActs(w.book, w.terms, w.queue, r);
    if d.acts == [] {
      assert Run(w.book, d.acts) == Some(w.book);
    } else {
      assert d.acts[0] in d.acts;
      ActKeepsMarks(w.book, d.acts[0], w.rows);
    }
  }

  lemma MoreRowsKeepMarks(b: Book, rows: Rows, rows': Rows)
    requires BookMarked(b, rows) && rows.Keys <= rows'.Keys
    ensures BookMarked(b, rows')
  {
  }

  lemma MoveKeepsMarks(w: World, m: Move)
    requires Core(w) && Marked(w) && Possible(w, m) && Proper(Moved(m))
    ensures Marked(After(w, m))
  {
    hide DecideSend, Served, BookMarked, Apply, Enabled, OurComment, MagicPrefixOk;
    match m
    case Broker(a) => ActKeepsMarks(w.book, a, w.rows);
    case Trader(r, _) =>
      ServedFrame(w, r);
      ServedKeepsMarks(w, r);
    case Send(key, r, _) =>
      assert r.comment[4..] == key;
      ServedFrame(w, r);
      ServedKeepsMarks(w, r);
    case _ => MoreRowsKeepMarks(w.book, w.rows, After(w, m).rows);
  }

  lemma StartupKeepsMarks(w: World, now: int, s: Snapshot, points: int)
    requires Core(w) && Marked(w) && Reads(w.book, now, s)
    ensures Marked(Startup(w, s, points))
  {
    hide Reads, Secure, Recovered, TicketsPositive, OurComment, FallbackStop, Bare, Current, Core, Startup;
    StartupKeepsCore(w, now, s, points);
    StartupBook(w, now, s, points);
  }

  /** In every state of every proper history the marks can be read back. */
  lemma {:induction false} MarksStay(ws: seq<World>, steps: seq<Step>, i: nat)
    requires IsHistory(ws, steps) && Core(ws[0]) && Marked(ws[0]) && i < |ws| && forall st | st in steps :: Proper(st)
    ensures Core(ws[i]) && Marked(ws[i])
  {
    hide Core, Marked, Proper, Reads, Startup;
    if i == 0 {
    } else {
      MarksStay(ws, steps, i - 1);
      assert TakesAt(ws, steps, i - 1) && Proper(steps[i - 1]);
      StepKeepsCore(ws[i - 1], steps[i - 1], ws[i]);
      match steps[i - 1]
      case Moved(m) => MoveKeepsMarks(ws[i - 1], m);
      case Restarted(now, s, points) => StartupKeepsMarks(ws[i - 1], now, s, points);
    }
  }

  lemma MarkReads(comment: string, key: string)
    requires KeyFromComment(comment) == Some(key) && 1 <= |comment[4..]| <= 12
    ensures comment == CommentFor(key)
  {
    assert comment == comment[..4] + comment[4..];
    assert comment[4..|comment|] == comment[4..];
  }

  /** So startup can tell the marks of every claimed key. */
  lemma MarkedIsTraceable(w: World, key: string)
    requires Marked(w) && 1 <= |key| <= 12
    ensures Traceable(w.book, key) && Legible(w.book, key)
  {
    hide MagicPrefixOk, CommentFor;
    CommentsAreInjective(key, key);
    forall t | t in w.book.orders && KeyFromComment(w.book.orders[t].comment) == Some(key)
      ensures w.book.orders[t].comment == CommentFor(key)
    {
      MarkReads(w.book.orders[t].comment, key);
    }
    forall t | t in w.book.positions && KeyFromComment(w.book.positions[t].comment) == Some(key)
      ensures w.book.positions[t].comment == CommentFor(key)
    {
      MarkReads(w.book.positions[t].comment, key);
    }
    forall d | d in w.book.deals && KeyFromComment(d.comment) == Some(key) ensures d.comment == CommentFor(key) {
      var i :| 0 <= i < |w.book.deals| && w.book.deals[i] == d;
      assert MarkOk(w.rows, w.book.deals[i].comment);
      MarkReads(d.comment, key);
    }
  }

  // ----------------------------------------------------------- two resolvers

  lemma TagsLater(b: Book, c: string, magic: int, symbol: string, since: int, since': int)
    requires Tagged(b, c, magic, symbol, since) && since' <= since
    ensures Tagged(b, c, magic, symbol, since')
  {
  }

  lemma MoveKeepsTags(w: World, m: Move, k: string, magic: int, symbol: string, since: int)
    requires Core(w) && Possible(w, m) && Tagged(w.book, CommentFor(k), magic, symbol, since) && since <= w.book.now
    requires m.Send? && m.key == k ==> m.request.magic == magic && m.request.symbol == symbol
    ensures Tagged(After(w, m).book, CommentFor(k), magic, symbol, since) && since <= After(w, m).book.now
  {
    hide Core, Served, Apply, Tagged;
    if m.Send? && m.key == k {
      SendTags(w, m);
      TagsLater(After(w, m).book, CommentFor(k), magic, symbol, w.book.now, since);
    } else if !Touches(m, k) {
      PeerMove(w, m, k);
    }
  }

  lemma StartupKeepsTags(w: World, now: int, s: Snapshot, points: int, c: string, magic: int, symbol: string, since: int)
    requires Core(w) && Reads(w.book, now, s) && Tagged(w.book, c, magic, symbol, since)
    ensures Tagged(Startup(w, s, points).book, c, magic, symbol, since)
    ensures Startup(w, s, points).book.now == w.book.now
  {
    hide Startup, Core, Reads;
    StartupBook(w, now, s, points);
  }

  lemma UnclaimedIsTagged(w: World, k: string, magic: int, symbol: string)
    requires Core(w) && k !in w.rows
    ensures Tagged(w.book, CommentFor(k), magic, symbol, w.book.now)
  {
    hide Effects;
    assert AtMostOnce(w, k);
    NoEffectsNothingShown(w.book, CommentFor(k));
  }

  /** Sends of the key from `j` on carry this magic and symbol. */
  predicate SendsAs(steps: seq<Step>, j: int, k: string, magic: int, symbol: string)
  {
    forall n | 0 <= j <= n < |steps| && steps[n].Moved? && steps[n].move.Send? && steps[n].move.key == k ::
      steps[n].move.request.magic == magic && steps[n].move.request.symbol == symbol
  }

  /** What carries a key carries the magic and symbol of its sends, and is no older than the time at which the
      key was not yet claimed. */
  lemma {:induction false} TagsStay(ws: seq<World>, steps: seq<Step>, k: string, magic: int, symbol: string, j: nat, i: nat)
    requires IsHistory(ws, steps) && Core(ws[0]) && j <= i < |ws| && k !in ws[j].rows
    requires SendsAs(steps, j, k, magic, symbol)
    ensures Tagged(ws[i].book, CommentFor(k), magic, symbol, ws[j].book.now) && ws[j].book.now <= ws[i].book.now
    decreases i
  {
    hide Core, Tagged, Reads, Startup;
    ExactlyOnceAcross(ws, steps, i);
    if i == j {
      UnclaimedIsTagged(ws[i], k, magic, symbol);
    } else {
      TagsStay(ws, steps, k, magic, symbol, j, i - 1);
      ExactlyOnceAcross(ws, steps, i - 1);
      assert TakesAt(ws, steps, i - 1);
      match steps[i - 1]
      case Moved(m) => MoveKeepsTags(ws[i - 1], m, k, magic, symbol, ws[j].book.now);
      case Restarted(now, s, points) =>
        StartupKeepsTags(ws[i - 1], now, s, points, CommentFor(k), magic, symbol, ws[j].book.now);
    }
  }

  /** THE RESOLVERS AGREE. In every state of every proper history, on one snapshot within a day of the key's
      claim, the engine and startup come to the same verdict, though they look in different orders and windows
      and by different marks. */
  lemma VerdictsAgree(ws: seq<World>, steps: seq<Step>, j: nat, i: nat, now: int, s: Snapshot, k: string, magic: int,
                      symbol: string)
    requires IsHistory(ws, steps) && Core(ws[0]) && Marked(ws[0]) && j <= i < |ws| && forall st | st in steps :: Proper(st)
    requires k !in ws[j].rows && SendsAs(steps, j, k, magic, symbol) && 1 <= |k| <= 12 && MagicPrefixOk(magic)
    requires Reads(ws[i].book, now, s) && now - DAY <= ws[j].book.now && ws[i].book.now <= now + FIVE_MINUTES
    ensures Verdict(s, k) == EngineVerdict(ws[i].book, k, magic, symbol, now)
  {
    hide Core, Marked, Proper, Reads, Tagged, Verdict, EngineVerdict, Legible, Takes, SendsAs;
    MarksStay(ws, steps, i);
    MarkedIsTraceable(ws[i], k);
    TagsStay(ws, steps, k, magic, symbol, j, i);
    AgreeWithin(ws[i], now, s, k, magic, symbol, ws[j].book.now);
  }

  // ------------------------------------------------------------------- truth

  lemma TruthAfterStop(w: World, ps: seq<Position>, points: int, k: string)
    requires Current(w.book, ps) && TruthOf(w, k)
    ensures TruthOf(Secure(w, ps, points), k)
  {
    hide Secure, FallbackStop, Bare, Current;
    SecureOnlyGuards(w, ps, points);
    assert forall t | t in w.book.positions :: Touchable(w, ps, points, t, Secure(w, ps, points).book.positions[t]);
  }

  /** Startup keeps the row of a key true of the broker. */
  lemma StartupKeepsRow(w: World, now: int, s: Snapshot, points: int, k: string)
    requires Core(w) && Marked(w) && TruthOf(w, k) && Reads(w.book, now, s)
    ensures TruthOf(Startup(w, s, points), k)
  {
    hide Reads, Secure, Recovered, RecoveredRow, TicketsPositive, Current, Traceable, TrueOf, Owned, Effects, AtMostOnce;
    SnapshotTickets(w.book, now, s);
    RowByRow(w.rows, s);
    if k in w.rows {
      MarkedIsTraceable(w, k);
      RowRecoversTrue(w, now, s, k);
    }
    var stopped := w.(rows := Recovered(w.rows, s), entitled := {});
    TruthAfterStop(stopped, s.positions, points, k);
    SecureIgnoresRows(w.(entitled := {}), stopped, s.positions, points);
  }

  ghost predicate WritesTruly(w: World, step: Step, k: string)
  {
    step.Moved? && step.move.Write? && step.move.key == k ==> Faithful(w, step.move)
  }

  ghost predicate TrulyAt(ws: seq<World>, steps: seq<Step>, k: string, i: int)
    requires 0 <= i < |steps| < |ws|
  {
    WritesTruly(ws[i], steps[i], k)
  }

  /** TRUE ROWS, over sessions: the row of a key whose own writes were faithful is true of the broker in every
      state of every proper history. */
  lemma {:induction false} TrueAcross(ws: seq<World>, steps: seq<Step>, k: string, i: nat)
    requires IsHistory(ws, steps) && Core(ws[0]) && Marked(ws[0]) && TruthOf(ws[0], k) && i < |ws|
    requires (forall st | st in steps :: Proper(st)) && forall n | 0 <= n < |steps| :: TrulyAt(ws, steps, k, n)
    ensures TruthOf(ws[i], k)
  {
    hide Core, Marked, Proper, Reads, Startup, TruthOf, Faithful;
    if i == 0 {
    } else {
      TrueAcross(ws, steps, k, i - 1);
      MarksStay(ws, steps, i - 1);
      assert TakesAt(ws, steps, i - 1) && TrulyAt(ws, steps, k, i - 1);
      match steps[i - 1]
      case Moved(m) => MoveKeepsTruth(ws[i - 1], m, k);
      case Restarted(now, s, points) => StartupKeepsRow(ws[i - 1], now, s, points, k);
    }
  }

  // -------------------------------------------------------------- symbol lock

  /** The step fits the symbol lock: a write or a recovery that puts no finished row back in flight beside a foreign
      in-flight row on its symbol. */
  ghost predicate StepFits(w: World, step: Step)
  {
    match step
    case Moved(m) => Fits(w, m)
    case Restarted(_, s, _) => RecoveryFits(w.rows, s)
  }

  ghost predicate FitsAt(ws: seq<World>, steps: seq<Step>, i: int)
    requires 0 <= i < |steps| < |ws|
  {
    StepFits(ws[i], steps[i])
  }

  /** Exactly when a step keeps the lock. */
  lemma StepKeepsLock(w: World, step: Step, w': World)
    requires Core(w) && OneInFlight(w.rows) && Takes(w, step, w')
    ensures OneInFlight(w'.rows) <==> StepFits(w, step)
  {
    hide Core, Reads, Recovered, RecoveryFits, Fits, OneInFlight, Secure;
    match step
    case Moved(m) => MoveKeepsLock(w, m);
    case Restarted(now, s, points) =>
      BookableNow(w);
      SnapshotTickets(w.book, now, s);
      RecoveryKeepsLock(w.rows, s);
  }

  lemma {:induction false} LockAcross(ws: seq<World>, steps: seq<Step>, i: nat)
    requires IsHistory(ws, steps) && Core(ws[0]) && OneInFlight(ws[0].rows) && i < |ws|
    requires forall n | 0 <= n < |steps| :: FitsAt(ws, steps, n)
    ensures OneInFlight(ws[i].rows)
  {
    hide Core, Takes, StepFits, OneInFlight;
    if i == 0 {
    } else {
      LockAcross(ws, steps, i - 1);
      ExactlyOnceAcross(ws, steps, i - 1);
      assert TakesAt(ws, steps, i - 1) && FitsAt(ws, steps, i - 1);
      StepKeepsLock(ws[i - 1], steps[i - 1], ws[i]);
    }
  }

  /** THE SYMBOL LOCK, over sessions, exactly: no symbol is ever claimed twice if and only if none is at the start,
      no write puts a finished row back in flight beside a foreign in-flight row on its symbol, and no startup
      does. True or not what was written. */
  lemma LockExactly(ws: seq<World>, steps: seq<Step>)
    requires IsHistory(ws, steps) && Core(ws[0])
    ensures (forall i | 0 <= i < |ws| :: OneInFlight(ws[i].rows)) <==>
            OneInFlight(ws[0].rows) && forall i | 0 <= i < |steps| :: FitsAt(ws, steps, i)
  {
    hide Core, Takes, StepFits, OneInFlight;
    if OneInFlight(ws[0].rows) && forall i | 0 <= i < |steps| :: FitsAt(ws, steps, i) {
      forall i | 0 <= i < |ws| ensures OneInFlight(ws[i].rows) {
        LockAcross(ws, steps, i);
      }
    }
    if forall i | 0 <= i < |ws| :: OneInFlight(ws[i].rows) {
      forall i | 0 <= i < |steps| ensures FitsAt(ws, steps, i) {
        ExactlyOnceAcross(ws, steps, i);
        assert TakesAt(ws, steps, i);
        StepKeepsLock(ws[i], steps[i], ws[i + 1]);
      }
    }
  }

  /** Recovery of true rows fits the lock: it revives no finished row. */
  lemma StartupKeepsLock(w: World, now: int, s: Snapshot, points: int)
    requires Core(w) && Marked(w) && Truth(w) && OneInFlight(w.rows) && Reads(w.book, now, s)
    ensures RecoveryFits(w.rows, s)
    ensures OneInFlight(Startup(w, s, points).rows) && Startup(w, s, points).rows.Keys == w.rows.Keys
    ensures forall k | k in w.rows :: !Startup(w, s, points).rows[k].state.UNKNOWN?
  {
    hide Reads, Secure, Recovered, TicketsPositive, Current, Traceable, TrueOf, Owned, Effects, AtMostOnce, LastSeen, StaysOpen;
    SnapshotTickets(w.book, now, s);
    NothingLeftUnknown(w.rows, s);
    forall k | k in w.rows ensures !Revived(w.rows, s, k) {
      assert TruthOf(w, k);
      MarkedIsTraceable(w, k);
      RowByRow(w.rows, s);
      RowRecoversTrue(w, now, s, k);
      LeftInFlight(w.rows, s, k);
      OnlyShownRevive(w.rows, s, k);
    }
    RecoveryKeepsLock(w.rows, s);
  }

  /** A startup leaves a desk from which the next session can start: at most one effect per key, marks that can
      be read back, rows true of the broker, no symbol claimed twice, and no outcome unknown. */
  lemma StartupKeepsTruth(w: World, now: int, s: Snapshot, points: int)
    requires Core(w) && Marked(w) && Truth(w) && OneInFlight(w.rows) && Reads(w.book, now, s)
    ensures var w' := Startup(w, s, points);
      && Core(w') && Marked(w') && Truth(w') && OneInFlight(w'.rows) && w'.entitled == {}
      && w'.rows.Keys == w.rows.Keys && forall k | k in w'.rows :: !w'.rows[k].state.UNKNOWN?
  {
    hide Core, Marked, Reads, Recovered, OneInFlight, TruthOf, Secure;
    StartupKeepsCore(w, now, s, points);
    StartupKeepsMarks(w, now, s, points);
    StartupKeepsLock(w, now, s, points);
    SecureIgnoresRows(w.(entitled := {}), w.(entitled := {}), s.positions, points);
    forall k: string ensures TruthOf(Startup(w, s, points), k) {
      assert TruthOf(w, k);
      StartupKeepsRow(w, now, s, points, k);
    }
  }

  ghost predicate KeepsFaith(w: World, step: Step)
  {
    step.Moved? ==> Faithful(w, step.move) && !Revives(w, step.move)
  }

  ghost predicate FaithAt(ws: seq<World>, steps: seq<Step>, i: int)
    requires 0 <= i < |steps| < |ws|
  {
    KeepsFaith(ws[i], steps[i])
  }

  /** TRUTH AND LOCK, over sessions: if every write is true of the broker and revives no finished row, then every
      startup fits the lock, and in every state of every proper history all rows are true and no symbol is claimed
      twice. */
  lemma {:induction false} TrueLockAcross(ws: seq<World>, steps: seq<Step>, i: nat)
    requires IsHistory(ws, steps) && Core(ws[0]) && Marked(ws[0]) && Truth(ws[0]) && OneInFlight(ws[0].rows) && i < |ws|
    requires (forall st | st in steps :: Proper(st)) && forall n | 0 <= n < |steps| :: FaithAt(ws, steps, n)
    ensures Truth(ws[i]) && OneInFlight(ws[i].rows)
  {
    hide Core, Marked, Proper, Reads, Startup, TruthOf, Faithful, OneInFlight, Revives;
    if i == 0 {
    } else {
      TrueLockAcross(ws, steps, i - 1);
      MarksStay(ws, steps, i - 1);
      assert TakesAt(ws, steps, i - 1) && FaithAt(ws, steps, i - 1);
      forall k: string ensures TruthOf(ws[i], k) {
        assert TruthOf(ws[i - 1], k);
        match steps[i - 1]
        case Moved(m) => MoveKeepsTruth(ws[i - 1], m, k);
        case Restarted(now, s, points) => StartupKeepsRow(ws[i - 1], now, s, points, k);
      }
      match steps[i - 1]
      case Moved(m) => MoveKeepsLock(ws[i - 1], m);
      case Restarted(now, s, points) => StartupKeepsLock(ws[i - 1], now, s, points);
    }
  }

  // --------------------------------------------------------------- beginnings

  /** A desk that has never traded: no rows, no running call, and nothing of ours at the broker. */
  ghost predicate Clean(w: World)
  {
    && Valid(w.book) && Honest(w.queue) && w.rows == map[] && w.entitled == {}
    && (forall t | t in w.book.orders :: !OurComment(w.book.orders[t].comment))
    && (forall t | t in w.book.positions :: !OurComment(w.book.positions[t].comment))
    && (forall i | 0 <= i < |w.book.deals| :: !OurComment(w.book.deals[i].comment))
  }

  lemma NothingUnder(b: Book, c: string)
    requires forall t | t in b.orders :: b.orders[t].comment != c
    requires forall i | 0 <= i < |b.deals| :: b.deals[i].comment != c
    ensures Effects(b, c) == 0
  {
    forall t ensures t !in Resting(b.orders, c) {
    }
    assert Resting(b.orders, c) == {};
    NoneOpened(b.deals, c);
  }

  lemma {:induction false} NoneOpened(deals: seq<Deal>, c: string)
    requires forall i | 0 <= i < |deals| :: deals[i].comment != c
    ensures Ins(deals, c) == 0
  {
    if deals == [] {
    } else {
      NoneOpened(deals[..|deals| - 1], c);
    }
  }

  /** All the theorems above start from here. */
  lemma CleanStart(w: World)
    requires Clean(w)
    ensures Core(w) && Marked(w) && Truth(w) && OneInFlight(w.rows)
  {
    hide Valid, Effects;
    forall k: string ensures AtMostOnce(w, k) {
      CommentsAreInjective(k, k);
      NothingUnder(w.book, CommentFor(k));
    }
  }
}
