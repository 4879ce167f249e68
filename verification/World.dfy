/** The whole desk as one state machine: broker books, reply queue, intent rows, and the keys whose
    execution call may still send. Threads, broker and other traders interleave freely: a run is any
    sequence of possible moves. */
module World {
  import opened Protocol
  import opened Retcodes
  import opened Market
  import opened Footprint
  import opened Dealing
  import opened Intents

  datatype World = World(
    book: Book,
    queue: seq<Injection>,
    terms: Terms,
    rows: Rows,
    entitled: set<string>)  // keys whose last reply still permits another send

  datatype Move =
    | Broker(act: Act)
    | Condition(terms: Terms)
    | Script(injection: Injection)
    | Trader(request: OrderRequest, reply: Reply)
    | Claim(key: string, symbol: string, strategy: string, direction: Side, ocoGroup: string)
    | Send(key: string, request: OrderRequest, reply: Reply)
    | Retire(key: string)
    | Write(key: string, state: OrderState, ticket: int, volume: int)

  /** A request that lets something enter the books. */
  predicate IsEntry(r: OrderRequest) { r.action.DEAL? || r.action.PENDING? }

  predicate HonestInjection(i: Injection)
  {
    i.executeAnyway ==> ActionFor(i.retcode).UNKNOWN_OUTCOME?
  }

  function Answer(w: World, r: OrderRequest): Decision
  {
    DecideSend(w.book, w.terms, w.queue, r)
  }

  predicate Possible(w: World, m: Move)
  {
    match m
    case Broker(a) =>
      && Enabled(w.book, a)
      && (a.Quote? || a.Trigger? || a.Close? || a.Expire?)
      && (a.Quote? ==> w.book.now <= a.tick.time)
    case Condition(_) => true
    case Script(injection) => HonestInjection(injection)
    case Trader(r, reply) => reply == Answer(w, r).reply && (IsEntry(r) ==> !OurComment(r.comment))
    case Claim(key, symbol, _, _, ocoGroup) => Claimable(w.rows, key, symbol, ocoGroup)
    case Send(key, r, reply) =>
      reply == Answer(w, r).reply && key in w.entitled && IsEntry(r) && r.comment == CommentFor(key)
    case Retire(_) => true
    case Write(_, state, _, _) => !state.ARMED?
  }

  function BookAfter(b: Book, acts: seq<Act>): Book
  {
    if Run(b, acts).Some? then Run(b, acts).value else b
  }

  function Served(w: World, r: OrderRequest): World
  {
    var d := Answer(w, r);
    w.(book := BookAfter(w.book, d.acts), queue := if w.queue == [] then [] else w.queue[1..],
       terms := TermsAfter(w.terms, d.acts))
  }

  function After(w: World, m: Move): World
    requires Possible(w, m)
  {
    match m
    case Broker(a) => w.(book := Apply(w.book, a))
    case Condition(terms) => w.(terms := terms)
    case Script(injection) => w.(queue := w.queue + [injection])
    case Trader(r, _) => Served(w, r)
    case Claim(key, symbol, strategy, direction, ocoGroup) =>
      w.(rows := Claimed(w.rows, key, symbol, strategy, direction, ocoGroup), entitled := w.entitled + {key})
    case Send(key, r, reply) =>
      Served(w, r).(entitled := if MayHaveExecuted(reply) then w.entitled - {key} else w.entitled)
    case Retire(key) => w.(entitled := w.entitled - {key})
    case Write(key, state, ticket, volume) => w.(rows := Written(w.rows, key, state, ticket, volume))
  }

  /** `m` is possible in `w` and leads to `w'`. */
  ghost predicate Makes(w: World, m: Move, w': World)
  {
    Possible(w, m) && w' == After(w, m)
  }

  /** A run: states joined by possible moves. */
  ghost predicate IsRun(ws: seq<World>, ms: seq<Move>)
  {
    |ws| == |ms| + 1 && forall i | 0 <= i < |ms| :: StepAt(ws, ms, i)
  }

  ghost predicate StepAt(ws: seq<World>, ms: seq<Move>, i: int)
    requires 0 <= i < |ms| < |ws|
  {
    Makes(ws[i], ms[i], ws[i + 1])
  }

  lemma RunSteps(ws: seq<World>, ms: seq<Move>, m: Move)
    requires IsRun(ws, ms) && Possible(ws[|ms|], m)
    ensures IsRun(ws + [After(ws[|ms|], m)], ms + [m])
  {
    var ws', ms' := ws + [After(ws[|ms|], m)], ms + [m];
    forall i | 0 <= i < |ms'| ensures StepAt(ws', ms', i) {
      if i < |ms| {
        assert StepAt(ws, ms, i);
      }
    }
  }

  // ------------------------------------------------------------ exactly once

  /** No key ever has more than one effect at the broker, none before it is claimed, and none while its
      call may still send. */
  ghost predicate Core(w: World)
  {
    && Valid(w.book)
    && Honest(w.queue)
    && w.entitled <= w.rows.Keys
    && (forall k: string :: AtMostOnce(w, k))
  }

  ghost predicate AtMostOnce(w: World, k: string)
  {
    Effects(w.book, CommentFor(k)) <= if k in w.rows && k !in w.entitled then 1 else 0
  }

  lemma NoNewEffect(b: Book, a: Act, k: string)
    requires Valid(b) && Enabled(b, a) && !a.Enters()
    ensures Effects(Apply(b, a), CommentFor(k)) <= Effects(b, CommentFor(k))
  {
    hide Apply, Effects;
    ActEffects(b, a, CommentFor(k));
  }

  lemma ActKeepsValid(b: Book, a: Act)
    requires Valid(b) && Enabled(b, a)
    ensures Valid(Apply(b, a))
  {
    ActKeepsTickets(b, a);
    ActKeepsDeals(b, a);
    ActKeepsSourced(b, a);
    ActKeepsLabels(b, a);
    ActKeepsVolumes(b, a);
  }

  lemma ServedFrame(w: World, r: OrderRequest)
    ensures Served(w, r).rows == w.rows && Served(w, r).entitled == w.entitled
  {
  }

  lemma ServedQueue(w: World, r: OrderRequest)
    requires Honest(w.queue)
    ensures Honest(Served(w, r).queue)
  {
    hide DecideSend;
  }

  /** What serving one request does to the footprint of one key. */
  lemma ServedReach(w: World, r: OrderRequest, k: string)
    requires Valid(w.book)
    ensures Valid(Served(w, r).book)
    ensures Effects(Served(w, r).book, CommentFor(k)) <=
            Effects(w.book, CommentFor(k)) +
            (if IsEntry(r) && r.comment == CommentFor(k) && Answer(w, r).acts != [] then 1 else 0)
  {
    hide DecideSend;
    var d := Answer(w, r);
    SendActs(w.book, w.terms, w.queue, r);
    if d.acts == [] {
      assert Run(w.book, d.acts) == Some(w.book);
    } else {
      var a := d.acts[0];
      assert a in d.acts;
      ActKeepsValid(w.book, a);
      ActEffects(w.book, a, CommentFor(k));
    }
  }

  lemma ServeKeepsCore(w: World, m: Move)
    requires Core(w) && Possible(w, m) && (m.Trader? || m.Send?)
    ensures Core(After(w, m))
  {
    hide DecideSend, Served, Effects, Valid;
    var w', r := After(w, m), m.request;
    ServedFrame(w, r);
    ServedReach(w, r, "");
    ServedQueue(w, r);
    if IsEntry(r) {
      HonestReply(w.book, w.terms, w.queue, r);
    }
    forall k: string ensures AtMostOnce(w', k) {
      ServedReach(w, r, k);
      CommentsAreInjective(k, if m.Send? then m.key else k);
      assert AtMostOnce(w, k);
    }
  }

  lemma BrokerKeepsCore(w: World, a: Act)
    requires Core(w) && Possible(w, Broker(a))
    ensures Core(After(w, Broker(a)))
  {
    hide Apply, Effects, Valid, Enabled;
    var w' := After(w, Broker(a));
    ActKeepsValid(w.book, a);
    forall k: string ensures AtMostOnce(w', k) {
      assert AtMostOnce(w, k);
      NoNewEffect(w.book, a, k);
    }
  }

  lemma RegistryKeepsCore(w: World, m: Move)
    requires Core(w) && Possible(w, m) && !m.Broker? && !m.Trader? && !m.Send?
    ensures Core(After(w, m))
  {
    hide DecideSend, Served, Apply, Effects, Valid, Enabled;
    var w' := After(w, m);
    assert w'.book == w.book && Honest(w'.queue) && w'.entitled <= w'.rows.Keys;
    forall k: string ensures AtMostOnce(w', k) {
      assert AtMostOnce(w, k);
    }
  }

  lemma MoveKeepsCore(w: World, m: Move)
    requires Core(w) && Possible(w, m)
    ensures Core(After(w, m))
  {
    hide Possible, After, Core;
    if m.Broker? {
      BrokerKeepsCore(w, m.act);
    } else if m.Trader? || m.Send? {
      ServeKeepsCore(w, m);
    } else {
      RegistryKeepsCore(w, m);
    }
  }

  /** EXACTLY ONCE. In every state of every interleaving of claims, sends, retries, lost replies, state
      writes, other traders and broker activity, the resting orders and opening deals under one key
      together never exceed one. */
  lemma {:induction false} ExactlyOnce(ws: seq<World>, ms: seq<Move>, i: nat)
    requires IsRun(ws, ms) && Core(ws[0]) && i < |ws|
    ensures Core(ws[i])
    ensures forall k: string :: Effects(ws[i].book, CommentFor(k)) <= 1
  {
    if i == 0 {
    } else {
      ExactlyOnce(ws, ms, i - 1);
      assert StepAt(ws, ms, i - 1);
      MoveKeepsCore(ws[i - 1], ms[i - 1]);
    }
    forall k: string ensures Effects(ws[i].book, CommentFor(k)) <= 1 {
      assert AtMostOnce(ws[i], k);
    }
  }

  /** A key, once claimed, stays in the registry. */
  lemma {:induction false} RowsStay(ws: seq<World>, ms: seq<Move>, i: nat, j: nat)
    requires IsRun(ws, ms) && i <= j < |ws|
    ensures ws[i].rows.Keys <= ws[j].rows.Keys
    decreases j
  {
    if i == j {
    } else {
      RowsStay(ws, ms, i, j - 1);
      assert StepAt(ws, ms, j - 1);
    }
  }

  /** Each key is accepted at most once in a run. */
  lemma ClaimedOnce(ws: seq<World>, ms: seq<Move>, i: nat, j: nat)
    requires IsRun(ws, ms) && i < j < |ms| && ms[i].Claim? && ms[j].Claim?
    ensures ms[i].key != ms[j].key
  {
    assert StepAt(ws, ms, i) && StepAt(ws, ms, j);
    RowsStay(ws, ms, i + 1, j);
  }
}
