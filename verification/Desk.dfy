/** A desk that makes its engine calls one after another, while the broker ticks, others trade and reads raise. */
module Desk {
  import opened Protocol
  import opened Fuse
  import opened Windows
  import opened Intents
  import opened Orders
  import opened World
  import opened Rely
  import opened Calls
  import opened Engine

  datatype Call =
    | Market(intent: ArmedIntent)
    | Pending(intent: ArmedIntent)
    | Cancel(key: string, ticket: int, symbol: string)
    | Filled(ticket: int, symbol: string)

  /** What a call came to. */
  datatype Report =
    | Entered(outcome: Outcome)
    | Removed(ok: bool, raised: bool)
    | Noticed(sibling: Option<int>, removed: bool, raised: bool)

  predicate Proper(c: Call)
  {
    match c
    case Market(i) => WellFormed(i) && i.request.action.DEAL?
    case Pending(i) => WellFormed(i) && i.request.action.PENDING?
    case _ => true
  }

  /** Nobody else writes a row, and no row has been put back in flight. */
  ghost predicate Orderly(e: ExecutionEngine)
    reads e, e.broker, e.store, e.fuse
  {
    e.Legal() && OneInFlight(e.worlds[0].rows) && forall k: string :: e.Locked(k) && e.Spared(k)
  }

  /** No call is running, none was beside another when the fuse blew, and nobody else starts one. */
  ghost predicate Alone(e: ExecutionEngine)
    reads e, e.fuse
  {
    e.entitled == {} && (e.fuse.blown ==> e.audit.crowd <= 1) && forall turn | turn in e.script :: Claimless(turn)
  }

  /** An entry call is refused exactly when its key cannot be claimed as the call begins, and otherwise claims it. */
  ghost predicate AdmittedAt(ws: seq<World>, i: ArmedIntent, o: Outcome, n: int, m: int)
    requires 0 <= n <= m < |ws|
  {
    && (o.Refused? <==> !Claimable(ws[n].rows, i.key, i.signal.symbol, i.signal.ocoGroup))
    && (!o.Refused? ==> i.key in ws[m].rows)
  }

  ghost predicate Admitted(ws: seq<World>, i: ArmedIntent, o: Outcome)
  {
    exists n, m :: 0 <= n <= m < |ws| && AdmittedAt(ws, i, o, n, m)
  }

  /** The report answers the call. */
  ghost predicate Answers(ws: seq<World>, c: Call, report: Report)
  {
    match c
    case Market(i) => report.Entered? && Admitted(ws, i, report.outcome)
    case Pending(i) => report.Entered? && Admitted(ws, i, report.outcome)
    case Cancel(_, _, _) => report.Removed?
    case Filled(_, _) => report.Noticed?
  }

  lemma AnswersStill(ws: seq<World>, ws': seq<World>, c: Call, report: Report)
    requires ws <= ws' && Answers(ws, c, report)
    ensures Answers(ws', c, report)
  {
    if c.Market? || c.Pending? {
      var i, o := c.intent, report.outcome;
      var n, m :| 0 <= n <= m < |ws| && AdmittedAt(ws, i, o, n, m);
      assert AdmittedAt(ws', i, o, n, m);
    }
  }

  lemma AdmittedNow(ws: seq<World>, ws': seq<World>, i: ArmedIntent, o: Outcome)
    requires ws <= ws' && ws != []
    requires o.Refused? <==> !Claimable(ws[|ws| - 1].rows, i.key, i.signal.symbol, i.signal.ocoGroup)
    requires !o.Refused? ==> i.key in ws'[|ws'| - 1].rows
    ensures Admitted(ws', i, o)
  {
    assert AdmittedAt(ws', i, o, |ws| - 1, |ws'| - 1);
  }

  lemma LegalIsNow(e: ExecutionEngine)
    requires e.Legal()
    ensures |e.worlds| > 0 && e.worlds[|e.worlds| - 1].rows == e.store.rows
  {
  }

  lemma ReportedHasRow(o: Outcome, w: World, k: string)
    ensures forall since :: Reported(o, w, k, since) && !o.Refused? ==> k in w.rows
  {
  }

  lemma AloneIsSolo(e: ExecutionEngine, k: string)
    ensures Alone(e) ==> e.Solo(k) && k !in e.entitled
    ensures e.Solo(k) && k !in e.entitled ==> Alone(e)
  {
  }

  /** One call: it keeps the desk orderly, keeps every row true but one that it cancels, and ends alone if it
      began alone. */
  method Make(e: ExecutionEngine, c: Call) returns (report: Report)
    requires Orderly(e) && Proper(c)
    modifies e, e.broker, e.store, e.fuse
    ensures Orderly(e) && old(e.worlds) <= e.worlds && (old(Alone(e)) ==> Alone(e))
    ensures forall k: string | old(e.Sound(k)) && !(c.Cancel? && c.key == k) :: e.Sound(k)
    ensures Answers(e.worlds, c, report)
    ensures c.Cancel? ==> report.raised == Raising(old(e.script)) && (report.ok ==> !report.raised)
    ensures c.Cancel? && report.ok && c.key in e.store.rows ==> e.store.rows[c.key].state.CANCELLED?
    ensures c.Filled? && c.ticket in old(e.ocoMap) && old(e.ocoMap)[c.ticket] !in old(e.ocoCancelled) ==>
              report.sibling == Some(old(e.ocoMap)[c.ticket]) && old(e.ocoMap)[c.ticket] in e.ocoCancelled
  {
    hide Admitted, Claimable, Raising, Reported, ExecutionEngine.Legal, ExecutionEngine.Sound, ExecutionEngine.Locked, ExecutionEngine.Spared,
         ExecutionEngine.Solo, Alone;
    LegalHasWorlds(e);
    match c {
      case Market(i) =>
        AloneIsSolo(e, i.key);
        LegalIsNow(e);
        var o, _, _, _ := e.ExecuteMarket(i);
        Entry(old(e.worlds), e, i, o);
        report := Entered(o);
      case Pending(i) =>
        AloneIsSolo(e, i.key);
        LegalIsNow(e);
        var o, _, _ := e.PlacePending(i);
        Entry(old(e.worlds), e, i, o);
        report := Entered(o);
      case Cancel(key, ticket, symbol) =>
        AloneIsSolo(e, key);
        var ok, raised, _, _ := e.CancelPending(key, ticket, symbol);
        AloneIsSolo(e, key);
        report := Removed(ok, raised);
      case Filled(ticket, symbol) =>
        AloneIsSolo(e, "");
        var sibling, removed, raised, _, _, _ := e.OnFillDetected(ticket, symbol);
        AloneIsSolo(e, "");
        report := Noticed(sibling, removed, raised);
    }
  }

  /** What a finished entry call leaves for the desk. */
  lemma Entry(ws: seq<World>, e: ExecutionEngine, i: ArmedIntent, o: Outcome)
    requires e.Legal() && ws <= e.worlds && ws != []
    requires o.Refused? <==> !Claimable(ws[|ws| - 1].rows, i.key, i.signal.symbol, i.signal.ocoGroup)
    requires exists since :: Reported(o, e.W(), i.key, since)
    ensures Admitted(e.worlds, i, o)
    ensures o.Refused? || i.key !in e.entitled
    ensures Alone(e) ==> e.Solo(i.key)
    ensures e.Solo(i.key) && i.key !in e.entitled ==> Alone(e)
  {
    hide Reported, ExecutionEngine.Legal, ExecutionEngine.Solo, Alone, Claimable;
    AloneIsSolo(e, i.key);
    LegalIsNow(e);
    ReportedRetires(o, e.W(), i.key);
    ReportedHasRow(o, e.W(), i.key);
    AdmittedNow(ws, e.worlds, i, o);
  }

  predicate Cancelled(calls: seq<Call>, k: string)
  {
    exists c | c in calls :: c.Cancel? && c.key == k
  }

  /** Any number of calls, one after another, market and pending entries, cancels and fill notices in any order. If
      nobody else writes rows, then no symbol is ever claimed by two intents outside one OCO group, and every row
      that began true and is not cancelled here is true of the broker. If nobody else claims either, then any
      closed minute holds at most the fuse's cap and five more entry sends. */
  method MakeAll(e: ExecutionEngine, calls: seq<Call>) returns (reports: seq<Report>)
    requires Orderly(e) && forall c | c in calls :: Proper(c)
    modifies e, e.broker, e.store, e.fuse
    ensures Orderly(e) && OneInFlight(e.store.rows)
    ensures |reports| == |calls| && forall i | 0 <= i < |calls| :: Answers(e.worlds, calls[i], reports[i])
    ensures forall k: string | old(e.Sound(k)) && TruthOf(old(e.worlds)[0], k) && !Cancelled(calls, k) :: TruthOf(e.W(), k)
    ensures SendMoves(e.moves) <= |e.fuse.history|
    ensures old(Alone(e)) ==> Alone(e) && forall x: int :: InWindow(e.fuse.history, x, MINUTE) <= e.fuse.cap + 5
  {
    hide ExecutionEngine.Legal, ExecutionEngine.Sound, ExecutionEngine.Locked, ExecutionEngine.Spared, Alone, TruthOf,
         OneInFlight, Proper, InWindow, SendMoves, Answers;
    LegalHasWorlds(e);
    reports := [];
    for i := 0 to |calls|
      invariant Orderly(e) && old(e.worlds) <= e.worlds && (old(Alone(e)) ==> Alone(e))
      invariant |reports| == i && forall j | 0 <= j < i :: Answers(e.worlds, calls[j], reports[j])
      invariant forall k: string | old(e.Sound(k)) && !Cancelled(calls, k) :: e.Sound(k)
    {
      assert calls[i] in calls;
      ghost var before := e.worlds;
      var report := Make(e, calls[i]);
      forall j | 0 <= j < i ensures Answers(e.worlds, calls[j], reports[j]) {
        AnswersStill(before, e.worlds, calls[j], reports[j]);
      }
      reports := reports + [report];
    }
    e.LockNow();
    e.SendsPerMinute(0);
    forall k: string | old(e.Sound(k)) && TruthOf(old(e.worlds)[0], k) && !Cancelled(calls, k) ensures TruthOf(e.W(), k) {
      e.TruthNow(k);
    }
    if Alone(e) {
      AloneIsSingle(e);
      forall x: int ensures InWindow(e.fuse.history, x, MINUTE) <= e.fuse.cap + 5 {
        e.SendsPerMinuteAlone(x, "");
      }
    }
  }

  lemma AloneIsSingle(e: ExecutionEngine)
    requires Alone(e)
    ensures e.Single("")
  {
  }

  lemma ReportedRetires(o: Outcome, w: World, k: string)
    ensures forall since :: Reported(o, w, k, since) && !o.Refused? ==> k !in w.entitled
  {
  }

  lemma LegalHasWorlds(e: ExecutionEngine)
    requires e.Legal()
    ensures |e.worlds| > 0
  {
  }
}
