/** The gateway: one worker serves every client call from a priority queue. Callers draw a number, push,
    and may give up waiting at any time; a job they gave up on is still served. */
module Gateway {
  import opened Protocol

  const P0_EMERGENCY := 0

  /** Jobs are served by priority, then by the number their call drew. */
  datatype Job = Job(priority: nat, number: nat) {
    predicate Before(other: Job)
    {
      priority < other.priority || (priority == other.priority && number < other.number)
    }
  }

  datatype State = State(
    next: nat,                // the next number
    calling: set<Job>,        // calls that have drawn a number and not pushed yet
    pushed: seq<Job>,         // in the order of their first push
    heap: set<Job>,
    hand: Option<Job>,        // the job the worker has taken
    executed: seq<Job>,
    dropped: set<Job>,        // failed by the drain
    finished: bool)           // the worker has drained and ended

  datatype Event =
    | Allocate(priority: nat)
    | Push(job: Job)
    | Pop
    | Defer                   // the worker puts its job back, under backoff
    | Execute
    | Drain

  predicate Least(j: Job, heap: set<Job>)
  {
    j in heap && forall k | k in heap :: k == j || j.Before(k)
  }

  ghost predicate Possible(s: State, e: Event)
  {
    match e
    case Allocate(_) => true
    case Push(j) => j in s.calling
    case Pop => s.hand.None? && !s.finished && exists j :: Least(j, s.heap)
    case Defer => s.hand.Some? && s.hand.value.priority > P0_EMERGENCY
    case Execute => s.hand.Some?
    case Drain => s.hand.None? && !s.finished
  }

  ghost function After(s: State, e: Event): State
    requires Possible(s, e)
  {
    match e
    case Allocate(p) => s.(next := s.next + 1, calling := s.calling + {Job(p, s.next)})
    case Push(j) => s.(calling := s.calling - {j}, pushed := s.pushed + [j], heap := s.heap + {j})
    case Pop => var j :| Least(j, s.heap); s.(heap := s.heap - {j}, hand := Some(j))
    case Defer => s.(heap := s.heap + {s.hand.value}, hand := None)
    case Execute => s.(executed := s.executed + [s.hand.value], hand := None)
    case Drain => s.(dropped := s.heap, heap := {}, finished := true)
  }

  const START := State(0, {}, [], {}, None, [], {}, false)

  ghost predicate IsRun(ss: seq<State>, es: seq<Event>)
  {
    |ss| == |es| + 1 && ss[0] == START && forall i | 0 <= i < |es| :: StepAt(ss, es, i)
  }

  ghost predicate StepAt(ss: seq<State>, es: seq<Event>, i: int)
    requires 0 <= i < |es| < |ss|
  {
    Possible(ss[i], es[i]) && ss[i + 1] == After(ss[i], es[i])
  }

  // -------------------------------------------------------------- invariant

  /** A number is drawn once, and a pushed job is not pushed again. */
  ghost predicate NumbersOk(s: State)
  {
    && (forall j | j in s.calling :: j.number < s.next && j !in s.pushed)
    && (forall j | j in s.pushed :: j.number < s.next)
    && (forall j, k | j in s.calling + Members(s.pushed) && k in s.calling + Members(s.pushed) :: j.number == k.number ==> j == k)
  }

  function Members(js: seq<Job>): set<Job> { set j | j in js }

  function Held(s: State): set<Job> { if s.hand.Some? then {s.hand.value} else {} }

  /** Every pushed job is in exactly one place: waiting, taken, executed once, or dropped by the drain. */
  ghost predicate Placed(s: State)
  {
    && Members(s.pushed) == s.heap + Held(s) + Members(s.executed) + s.dropped
    && s.heap !! Held(s)
    && s.heap + Held(s) !! Members(s.executed)
    && s.heap + Held(s) + Members(s.executed) !! s.dropped
    && (forall i, j | 0 <= i < j < |s.executed| :: s.executed[i] != s.executed[j])
    && (s.dropped != {} ==> s.finished) && (s.finished ==> s.hand.None?)
  }

  /** `y` is never taken or executed ahead of `x`. */
  ghost predicate Ordered(s: State, x: Job, y: Job)
  {
    && (forall i | 0 <= i < |s.executed| && s.executed[i] == y :: x in s.executed[..i])
    && (s.hand == Some(y) ==> x in s.executed)
  }

  ghost predicate InOrder(s: State)
  {
    forall a, b | 0 <= a < b < |s.pushed| && s.pushed[a].Before(s.pushed[b]) :: Ordered(s, s.pushed[a], s.pushed[b])
  }

  lemma StepKeepsNumbers(s: State, e: Event)
    requires NumbersOk(s) && Possible(s, e)
    ensures NumbersOk(After(s, e))
  {
    if e.Push? {
      assert Members(s.pushed + [e.job]) == Members(s.pushed) + {e.job};
    }
  }

  lemma StepKeepsPlaces(s: State, e: Event)
    requires NumbersOk(s) && Placed(s) && Possible(s, e)
    ensures Placed(After(s, e))
  {
    var s' := After(s, e);
    if e.Push? {
      assert Members(s'.pushed) == Members(s.pushed) + {e.job};
      assert e.job !in Members(s.pushed) && s.dropped <= Members(s.pushed);
    } else if e.Execute? {
      assert Members(s'.executed) == Members(s.executed) + Held(s);
      forall i | 0 <= i < |s.executed| ensures s.executed[i] != s.hand.value {
        assert s.executed[i] in Members(s.executed) && s.hand.value in Held(s);
      }
    } else if e.Pop? {
      assert s'.heap + Held(s') == s.heap + Held(s);
    } else if e.Drain? {
      assert s.heap + Held(s) == s.heap && s.dropped == {};
    }
  }

  lemma StepKeepsOrder(s: State, e: Event)
    requires NumbersOk(s) && Placed(s) && InOrder(s) && Possible(s, e)
    ensures InOrder(After(s, e))
  {
    var s' := After(s, e);
    forall a, b | 0 <= a < b < |s'.pushed| && s'.pushed[a].Before(s'.pushed[b])
      ensures Ordered(s', s'.pushed[a], s'.pushed[b])
    {
      PairStaysOrdered(s, e, a, b);
    }
  }

  lemma PairStaysOrdered(s: State, e: Event, a: nat, b: nat)
    requires NumbersOk(s) && Placed(s) && InOrder(s) && Possible(s, e)
    requires a < b < |After(s, e).pushed| && After(s, e).pushed[a].Before(After(s, e).pushed[b])
    ensures Ordered(After(s, e), After(s, e).pushed[a], After(s, e).pushed[b])
  {
    var s' := After(s, e);
    var x, y := s'.pushed[a], s'.pushed[b];
    if b == |s.pushed| {
      // y has just been pushed: it cannot have been taken or executed.
      assert y !in s.pushed && y in s.calling;
      assert y !in Members(s.pushed) && y !in Members(s.executed) && y !in Held(s);
    } else {
      assert s.pushed[a] == x && s.pushed[b] == y && Ordered(s, x, y);
      assert x in Members(s.pushed) && y in Members(s.pushed);
      if e.Pop? && s'.hand == Some(y) {
        // y is the least waiting job, so x no longer waits; nothing is taken, nothing dropped.
        assert x !in s.heap && s.dropped == {};
        assert x in Members(s.executed);
      }
      forall i | 0 <= i < |s'.executed| && s'.executed[i] == y ensures x in s'.executed[..i] {
        if i < |s.executed| {
          assert s'.executed[..i] == s.executed[..i];
        } else {
          assert s'.executed[..i] == s.executed;
        }
      }
    }
  }

  lemma {:induction false} RunKeepsOrder(ss: seq<State>, es: seq<Event>, n: nat)
    requires IsRun(ss, es) && n < |ss|
    ensures NumbersOk(ss[n]) && Placed(ss[n]) && InOrder(ss[n])
  {
    hide After, Possible, NumbersOk, Placed, InOrder;
    if n == 0 {
      StartsInOrder();
    } else {
      RunKeepsOrder(ss, es, n - 1);
      assert StepAt(ss, es, n - 1);
      StepKeepsNumbers(ss[n - 1], es[n - 1]);
      StepKeepsPlaces(ss[n - 1], es[n - 1]);
      StepKeepsOrder(ss[n - 1], es[n - 1]);
    }
  }

  lemma StartsInOrder()
    ensures NumbersOk(START) && Placed(START) && InOrder(START)
  {
  }

  // --------------------------------------------------------------- theorems

  lemma {:induction false} PushesGrow(ss: seq<State>, es: seq<Event>, i: nat, n: nat)
    requires IsRun(ss, es) && i <= n < |ss|
    ensures ss[i].pushed <= ss[n].pushed && ss[i].executed <= ss[n].executed && ss[i].next <= ss[n].next
    decreases n
  {
    if i == n {
    } else {
      PushesGrow(ss, es, i, n - 1);
      assert StepAt(ss, es, n - 1);
    }
  }

  /** A call made after a push ranks behind the pushed job unless its priority is higher. */
  lemma LaterCallRanksBehind(ss: seq<State>, es: seq<Event>, i: nat, a: nat)
    requires IsRun(ss, es) && i < a < |es| && es[i].Push? && es[a].Allocate? && es[i].job.priority <= es[a].priority
    ensures es[i].job.Before(Job(es[a].priority, ss[a].next))
  {
    RunKeepsOrder(ss, es, i);
    assert StepAt(ss, es, i);
    PushesGrow(ss, es, i, a);
  }

  lemma NotExecutedYet(ss: seq<State>, es: seq<Event>, j: nat, n: nat)
    requires IsRun(ss, es) && n <= j < |es| && es[j].Push?
    ensures es[j].job !in ss[n].executed
  {
    PushesGrow(ss, es, n, j);
    RunKeepsOrder(ss, es, j);
    RunKeepsOrder(ss, es, n);
    assert StepAt(ss, es, j);
    assert forall y | y in ss[n].executed :: y in Members(ss[n].executed) && y in Members(ss[n].pushed);
  }

  /** SEND BEFORE READ. A job pushed before another and ranking before it is executed before it, across
      timeouts of its caller and any number of backoffs: when a later, lower-ranked read has been executed,
      the earlier send has been executed already, once, and never will be again. */
  lemma SendBeforeRead(ss: seq<State>, es: seq<Event>, i: nat, j: nat, n: nat, k: nat)
    requires IsRun(ss, es) && i < j < |es| && es[i].Push? && es[j].Push?
    requires es[i].job.Before(es[j].job)
    requires n < |ss| && k < |ss[n].executed| && ss[n].executed[k] == es[j].job
    ensures exists h :: 0 <= h < k && ss[n].executed[h] == es[i].job
    ensures forall h | 0 <= h < |ss[n].executed| && ss[n].executed[h] == es[i].job :: h < k
  {
    var x, y := es[i].job, es[j].job;
    RunKeepsOrder(ss, es, n);
    assert StepAt(ss, es, i) && StepAt(ss, es, j);
    if n <= j {
      NotExecutedYet(ss, es, j, n);
      assert false;
    } else {
      PushesGrow(ss, es, i + 1, j);
      PushesGrow(ss, es, j + 1, n);
      var a, b := |ss[i].pushed|, |ss[j].pushed|;
      assert ss[n].pushed[a] == x && ss[n].pushed[b] == y;
      assert Ordered(ss[n], x, y);
      assert x in ss[n].executed[..k];
    }
  }

  /** A TIMED-OUT SEND. Its caller stopped waiting, and later made another call at the same or a lower priority.
      When that call has been executed, the send has been executed before it; and in no later state is the send
      executed after it, or still waiting to be. */
  lemma TimedOutSend(ss: seq<State>, es: seq<Event>, i: nat, a: nat, j: nat, n: nat, k: nat, m: nat)
    requires IsRun(ss, es) && i < a < j < |es| && es[i].Push? && es[a].Allocate? && es[j].Push?
    requires es[i].job.priority <= es[a].priority && es[j].job == Job(es[a].priority, ss[a].next)
    requires n <= m < |ss| && k < |ss[n].executed| && ss[n].executed[k] == es[j].job
    ensures exists h :: 0 <= h < k && ss[n].executed[h] == es[i].job
    ensures forall h | 0 <= h < |ss[m].executed| && ss[m].executed[h] == es[i].job :: h < k
    ensures es[i].job !in ss[m].heap && ss[m].hand != Some(es[i].job)
  {
    LaterCallRanksBehind(ss, es, i, a);
    SendBeforeRead(ss, es, i, j, n, k);
    PushesGrow(ss, es, n, m);
    assert ss[m].executed[k] == ss[n].executed[k];
    SendBeforeRead(ss, es, i, j, m, k);
    RunKeepsOrder(ss, es, m);
    var h :| 0 <= h < k && ss[m].executed[h] == es[i].job;
    assert es[i].job in Members(ss[m].executed);
  }

  /** A job pushed before the drain ends up executed once or dropped, and which of the two no longer
      changes: nothing is executed after the drain. */
  lemma {:induction false} ServedOrDropped(ss: seq<State>, es: seq<Event>, d: nat, m: nat, j: Job)
    requires IsRun(ss, es) && d < m < |ss| && es[d].Drain? && j in ss[d].pushed
    ensures (j in ss[m].executed) != (j in ss[m].dropped)
    ensures ss[m].executed == ss[d].executed && ss[m].finished && ss[m].dropped == ss[d].heap
    decreases m
  {
    RunKeepsOrder(ss, es, d);
    assert StepAt(ss, es, d);
    assert j in Members(ss[d].pushed);
    assert j in Members(ss[d].executed) <==> j in ss[d].executed;
    if d + 1 == m {
    } else {
      ServedOrDropped(ss, es, d, m - 1, j);
      RunKeepsOrder(ss, es, m - 1);
      assert StepAt(ss, es, m - 1);
    }
  }

  // ----------------------------------------------------------------- worker

  lemma {:induction false} LeastExists(heap: set<Job>)
    requires heap != {} && forall j, k | j in heap && k in heap :: j.number == k.number ==> j == k
    ensures exists j :: Least(j, heap)
  {
    var j :| j in heap;
    var rest := heap - {j};
    if rest == {} {
      assert heap == {j};
      assert Least(j, heap);
    } else {
      LeastExists(rest);
      var k :| Least(k, rest);
      assert heap == rest + {j};
      assert Least(if j.Before(k) then j else k, heap);
    }
  }

  /** What callers do between two steps of the worker. */
  datatype CallerAct = Call(priority: nat) | Submit(job: Job) | Halt | Backoff(until: int)

  /** One round of the worker: callers act, the worker may take a job, callers act again, and the worker
      reads the clock. */
  datatype Turn = Turn(first: seq<CallerAct>, second: seq<CallerAct>, now: int)

  predicate Submits(acts: seq<CallerAct>) { exists a | a in acts :: a.Submit? }

  /** The end of the backoff after what callers did. */
  function BackoffAfter(acts: seq<CallerAct>, until: int): int
  {
    if acts == [] then until
    else
      var a := acts[|acts| - 1];
      if a.Backoff? then a.until else BackoffAfter(acts[..|acts| - 1], until)
  }

  lemma {:induction false} BackoffJoins(a: seq<CallerAct>, b: seq<CallerAct>, until: int)
    ensures BackoffAfter(a + b, until) == BackoffAfter(b, BackoffAfter(a, until))
  {
    if b == [] {
      assert a + b == a;
    } else {
      BackoffJoins(a, b[..|b| - 1], until);
      assert (a + b)[..|a + b| - 1] == a + b[..|b| - 1];
    }
  }

  /** Nobody stops the gateway or pushes a job in this turn. */
  predicate Closed(turn: Turn)
  {
    Halt !in turn.first && Halt !in turn.second && !Submits(turn.first) && !Submits(turn.second)
  }

  /** Nor is a backoff asked for, and none lasts. */
  predicate Free(turn: Turn, until: int)
  {
    Closed(turn) && (forall a | a in turn.first + turn.second :: !a.Backoff?) && until <= turn.now
  }

  lemma {:induction false} NoBackoff(acts: seq<CallerAct>, until: int)
    requires forall a | a in acts :: !a.Backoff?
    ensures BackoffAfter(acts, until) == until
  {
    if acts != [] {
      NoBackoff(acts[..|acts| - 1], until);
    }
  }

  /** The worker's own steps among the events. */
  function Work(es: seq<Event>): seq<Event>
  {
    if es == [] then []
    else
      var e := es[|es| - 1];
      Work(es[..|es| - 1]) + (if e.Allocate? || e.Push? then [] else [e])
  }

  lemma {:induction false} WorkAppend(a: seq<Event>, b: seq<Event>)
    ensures Work(a + b) == Work(a) + Work(b)
  {
    if b == [] {
      assert a + b == a;
    } else {
      WorkAppend(a, b[..|b| - 1]);
      assert (a + b)[..|a + b| - 1] == a + b[..|b| - 1];
    }
  }

  lemma WorkSnoc(es: seq<Event>, e: Event)
    ensures Work(es + [e]) == Work(es) + (if e.Allocate? || e.Push? then [] else [e])
  {
    assert (es + [e])[..|es|] == es;
  }

  lemma WorkSince(before: seq<Event>, es: seq<Event>, work: seq<Event>)
    requires before <= es && Work(es) == Work(before) + work
    ensures Work(es[|before|..]) == work
  {
    hide Work;
    assert es == before + es[|before|..];
    WorkAppend(before, es[|before|..]);
    assert Work(es)[|Work(before)|..] == work;
  }

  lemma LeastIsIn(heap: set<Job>, job: Job)
    requires Least(job, heap)
    ensures job in heap && (heap - {job}) + {job} == heap
  {
  }

  /** One round took a job and either served it or put it back. */
  predicate OneServed(work: seq<Event>) { work == [Pop, Execute] || work == [Pop, Defer] }

  function Emergencies(heap: set<Job>): set<Job> { set j | j in heap && j.priority == P0_EMERGENCY }

  /** What is left of a set of waiting jobs after `n` turns that each serve the least one of them. */
  ghost predicate Dwindled(before: set<Job>, after: set<Job>, done: map<Job, bool>, n: nat)
  {
    && after <= before && |after| == Max(0, |before| - n)
    && (forall j | j in before && j !in after :: j in done && done[j])
    && (forall j, k | j in before && j !in after && k in after :: j.Before(k))
  }

  lemma NoneServed(before: set<Job>, done: map<Job, bool>)
    ensures Dwindled(before, before, done, 0)
  {
  }

  lemma OneMoreServed(before: set<Job>, after: set<Job>, done: map<Job, bool>, n: nat, job: Job)
    requires Dwindled(before, after, done, n) && Least(job, after)
    ensures Dwindled(before, after - {job}, done[job := true], n + 1)
  {
  }

  lemma NoneLeft(before: set<Job>, after: set<Job>, done: map<Job, bool>, n: nat)
    requires Dwindled(before, after, done, n) && after == {}
    ensures Dwindled(before, after, done, n + 1)
  {
  }

  /** The least waiting job has been taken, and put back or served. */
  ghost predicate Took(heap: set<Job>, done: map<Job, bool>, job: Job, putBack: bool, heap': set<Job>, done': map<Job, bool>)
  {
    && Least(job, heap)
    && if putBack then heap' == heap && done' == done else heap' == heap - {job} && done' == done[job := true]
  }

  /** What the round of a turn did between two places in the events: it took a job exactly once or not at all, and
      did take one if one waited when it began and nobody stopped the gateway. */
  ghost predicate RoundIn(ss: seq<State>, es: seq<Event>, turn: Turn, from: nat, to: nat)
  {
    && from <= to <= |es| && from < |ss|
    && var work := Work(es[from..to]);
       && (work == [] || OneServed(work))
       && (ss[from].heap != {} && Halt !in turn.first ==> OneServed(work))
  }

  lemma RoundsStay(ss: seq<State>, es: seq<Event>, ss': seq<State>, es': seq<Event>, turns: seq<Turn>, marks: seq<nat>)
    requires ss <= ss' && es <= es' && |marks| <= |turns| + 1
    requires forall i | 0 <= i < |marks| - 1 :: RoundIn(ss, es, turns[i], marks[i], marks[i + 1])
    ensures forall i | 0 <= i < |marks| - 1 :: RoundIn(ss', es', turns[i], marks[i], marks[i + 1])
  {
    hide Work;
    forall i | 0 <= i < |marks| - 1 ensures RoundIn(ss', es', turns[i], marks[i], marks[i + 1]) {
      assert RoundIn(ss, es, turns[i], marks[i], marks[i + 1]);
      assert es'[marks[i]..marks[i + 1]] == es[marks[i]..marks[i + 1]];
    }
  }

  /** Emergencies rank before everything else. */
  lemma EmergencyFirst(heap: set<Job>, job: Job)
    requires Least(job, heap)
    ensures Emergencies(heap) != {} ==> Least(job, Emergencies(heap))
    ensures job.priority > P0_EMERGENCY ==> Emergencies(heap) == {}
  {
  }

  lemma FreeMeans(turn: Turn, until: int)
    ensures Free(turn, until) ==>
              Closed(turn) && until <= turn.now && forall a | a in turn.first + turn.second :: !a.Backoff?
    ensures Closed(turn) ==> Halt !in turn.first + turn.second
  {
  }

  lemma RoundDone(ss: seq<State>, es: seq<Event>, ss': seq<State>, es': seq<Event>, turn: Turn, took: bool)
    requires |ss| == |es| + 1 && ss <= ss' && es <= es'
    requires var work := Work(es'[|es|..]); if took then OneServed(work) else work == []
    requires ss[|es|].heap != {} && Halt !in turn.first ==> took
    ensures RoundIn(ss', es', turn, |es|, |es'|)
  {
    assert es'[|es|..|es'|] == es'[|es|..];
  }

  lemma EmergencyServed(before: set<Job>, heap: set<Job>, done: map<Job, bool>, n: nat, job: Option<Job>, putBack: bool,
                        heap': set<Job>, done': map<Job, bool>)
    requires Dwindled(before, Emergencies(heap), done, n)
    requires if job.None? then heap == heap' == {} && done' == done else Took(heap, done, job.value, putBack, heap', done')
    requires putBack && job.Some? ==> job.value.priority > P0_EMERGENCY
    ensures Dwindled(before, Emergencies(heap'), done', n + 1)
  {
    hide Dwindled;
    if job.None? || Emergencies(heap) == {} {
      NoneLeft(before, Emergencies(heap), done, n);
      if job.Some? {
        MoreDone(before, done, n + 1, job.value, done', heap);
      }
      assert Emergencies(heap') == {};
    } else {
      EmergencyFirst(heap, job.value);
      OneMoreServed(before, Emergencies(heap), done, n, job.value);
      assert Emergencies(heap - {job.value}) == Emergencies(heap) - {job.value};
    }
  }

  lemma MoreDone(before: set<Job>, done: map<Job, bool>, n: nat, job: Job, done': map<Job, bool>, heap: set<Job>)
    requires Dwindled(before, {}, done, n) && Emergencies(heap) == {}
    requires done' == done || done' == done[job := true]
    ensures Dwindled(before, {}, done', n)
  {
  }

  lemma AllServed(before: set<Job>, heap: set<Job>, done: map<Job, bool>, n: nat, job: Option<Job>,
                  heap': set<Job>, done': map<Job, bool>)
    requires Dwindled(before, heap, done, n)
    requires if job.None? then heap == heap' == {} && done' == done else Took(heap, done, job.value, false, heap', done')
    ensures Dwindled(before, heap', done', n + 1)
  {
    hide Dwindled;
    if job.None? {
      NoneLeft(before, heap, done, n);
    } else {
      OneMoreServed(before, heap, done, n, job.value);
    }
  }

  /** How far the worker has come after `n` turns: see `Mt5Gateway.Run`. */
  ghost predicate Progressed(turns: seq<Turn>, until0: int, heap0: set<Job>, heap: set<Job>, done: map<Job, bool>, stopping: bool,
                             until: int, n: nat)
  {
    && ((forall turn | turn in turns :: Closed(turn)) ==>
          !stopping && Dwindled(Emergencies(heap0), Emergencies(heap), done, n))
    && ((forall turn | turn in turns :: Free(turn, until0)) ==> !stopping && until == until0 && Dwindled(heap0, heap, done, n))
  }

  lemma ProgressStarts(turns: seq<Turn>, until: int, heap: set<Job>, done: map<Job, bool>)
    ensures Progressed(turns, until, heap, heap, done, false, until, 0)
  {
  }

  lemma ProgressMeans(turns: seq<Turn>, until0: int, heap0: set<Job>, heap: set<Job>, done: map<Job, bool>, stopping: bool,
                      until: int, n: nat)
    requires Progressed(turns, until0, heap0, heap, done, stopping, until, n)
    ensures (forall turn | turn in turns :: Closed(turn)) ==>
              !stopping && Dwindled(Emergencies(heap0), Emergencies(heap), done, n)
    ensures (forall turn | turn in turns :: Free(turn, until0)) ==> !stopping && Dwindled(heap0, heap, done, n)
  {
  }

  lemma Progresses(turns: seq<Turn>, until0: int, heap0: set<Job>, heap: set<Job>, done: map<Job, bool>, until: int, n: nat,
                   job: Option<Job>, heap': set<Job>, done': map<Job, bool>, stopping': bool, until': int)
    requires n < |turns| && Progressed(turns, until0, heap0, heap, done, false, until, n)
    requires Closed(turns[n]) ==> !stopping'
    requires Closed(turns[n]) && job.None? ==> heap == heap' == {} && done' == done
    requires Closed(turns[n]) && job.Some? ==>
               Took(heap, done, job.value, job.value.priority > P0_EMERGENCY && turns[n].now < until', heap', done')
    requires (forall a | a in turns[n].first + turns[n].second :: !a.Backoff?) ==> until' == until
    ensures Progressed(turns, until0, heap0, heap', done', stopping', until', n + 1)
  {
    hide Dwindled, Took, Closed, Emergencies, Free;
    assert turns[n] in turns;
    FreeMeans(turns[n], until0);
    if Closed(turns[n]) && forall turn | turn in turns :: Closed(turn) {
      EmergencyServed(Emergencies(heap0), heap, done, n, job,
                      job.Some? && job.value.priority > P0_EMERGENCY && turns[n].now < until', heap', done');
    }
    if forall turn | turn in turns :: Free(turn, until0) {
      assert Free(turns[n], until0);
      AllServed(heap0, heap, done, n, job, heap', done');
    }
  }

  class Mt5Gateway {
    var next: nat
    var calling: set<Job>
    var heap: set<Job>
    var hand: Option<Job>
    var stopping: bool
    var finished: bool
    var backoffUntil: int
    var callsTotal: nat
    var done: map<Job, bool>   // true: executed, false: failed by the drain
    ghost var states: seq<State>
    ghost var events: seq<Event>

    /** The gateway is in the last state of a run of the queue machine. */
    ghost predicate Legal()
      reads this`next, this`calling, this`heap, this`hand, this`finished, this`callsTotal, this`done, this`states, this`events
    {
      && IsRun(states, events)
      && var s := states[|events|];
         && s.next == next && s.calling == calling && s.heap == heap && s.hand == hand && s.finished == finished
         && callsTotal == |s.executed|
         && (forall j :: j in done && done[j] <==> j in s.executed)
         && (forall j :: j in done && !done[j] <==> j in s.dropped)
    }

    constructor ()
      ensures Legal() && events == [] && !stopping && hand.None?
    {
      next, calling, heap, hand := 0, {}, {}, None;
      stopping, finished, backoffUntil, callsTotal, done := false, false, 0, 0, map[];
      states, events := [START], [];
    }

    ghost method Record(e: Event)
      requires IsRun(states, events) && Possible(states[|events|], e)
      modifies this`states, this`events
      ensures IsRun(states, events) && events == old(events) + [e]
      ensures states == old(states) + [After(old(states)[|old(events)|], e)]
    {
      hide After, Possible;
      ghost var ss, es := states + [After(states[|events|], e)], events + [e];
      forall i | 0 <= i < |es| ensures StepAt(ss, es, i) {
        if i < |events| {
          assert StepAt(states, events, i);
        }
      }
      states, events := ss, es;
    }

    method Allocate(priority: nat) returns (job: Option<Job>)
      requires Legal()
      modifies this`next, this`calling, this`states, this`events
      ensures Legal() && old(events) <= events && old(states) <= states
      ensures Work(events) == Work(old(events))
      ensures job == if stopping then None else Some(Job(priority, old(next)))
      ensures calling == if stopping then old(calling) else old(calling) + {job.value}
    {
      hide StepAt;
      if stopping {
        return None;
      }
      job := Some(Job(priority, next));
      calling, next := calling + {job.value}, next + 1;
      WorkSnoc(events, Event.Allocate(priority));
      Record(Event.Allocate(priority));
    }

    method Push(job: Job)
      requires Legal() && job in calling
      modifies this`calling, this`heap, this`states, this`events
      ensures Legal() && events == old(events) + [Event.Push(job)] && old(states) <= states
      ensures heap == old(heap) + {job} && calling == old(calling) - {job}
    {
      hide StepAt;
      calling, heap := calling - {job}, heap + {job};
      Record(Event.Push(job));
    }

    method Callers(acts: seq<CallerAct>)
      requires Legal()
      modifies this`next, this`calling, this`heap, this`stopping, this`backoffUntil, this`states, this`events
      ensures Legal() && old(events) <= events && old(states) <= states && Work(events) == Work(old(events))
      ensures stopping <==> old(stopping) || Halt in acts
      ensures backoffUntil == BackoffAfter(acts, old(backoffUntil))
      ensures old(heap) <= heap && forall j | j in heap && j !in old(heap) :: Submit(j) in acts
      ensures forall j | j in old(calling) && (j !in calling || Submit(j) in acts) :: j in heap && Event.Push(j) in events
      ensures !Submits(acts) ==> heap == old(heap)
    {
      hide Legal, Work;
      for i := 0 to |acts|
        invariant Legal() && old(events) <= events && old(states) <= states && Work(events) == Work(old(events))
        invariant stopping <==> old(stopping) || Halt in acts[..i]
        invariant backoffUntil == BackoffAfter(acts[..i], old(backoffUntil))
        invariant old(heap) <= heap && forall j | j in heap && j !in old(heap) :: Submit(j) in acts[..i]
        invariant forall j | j in old(calling) && (j !in calling || Submit(j) in acts[..i]) ::
                    j in heap && Event.Push(j) in events
      {
        assert acts[..i + 1] == acts[..i] + [acts[i]];
        assert forall j :: Submit(j) in acts[..i + 1] <==> Submit(j) in acts[..i] || acts[i] == Submit(j);
        match acts[i] {
          case Call(priority) => var _ := Allocate(priority);
          case Submit(job) =>
            if job in calling {
              WorkSnoc(events, Event.Push(job));
              Push(job);
            }
          case Halt => stopping := true;
          case Backoff(until) => backoffUntil := until;
        }
      }
      assert acts[..|acts|] == acts;
    }

    /** The worker takes the least waiting job. */
    method PopLeast() returns (job: Job)
      requires Legal() && hand.None? && !finished && heap != {}
      modifies this`heap, this`hand, this`states, this`events
      ensures Legal() && events == old(events) + [Event.Pop] && old(states) <= states
      ensures Least(job, old(heap)) && heap == old(heap) - {job} && hand == Some(job)
    {
      hide StepAt;
      RunKeepsOrder(states, events, |events|);
      assert forall j | j in heap :: j in Members(states[|events|].pushed);
      LeastExists(heap);
      job :| Least(job, heap);
      heap, hand := heap - {job}, Some(job);
      Record(Event.Pop);
    }

    /** The worker serves the job in its hand, or puts it back while a backoff lasts; emergencies are never
        put back. */
    method Finish(now: int)
      requires Legal() && hand.Some?
      modifies this`heap, this`hand, this`callsTotal, this`done, this`states, this`events
      ensures Legal() && hand.None? && old(states) <= states
      ensures events == old(events) + [Defer] || events == old(events) + [Execute]
      ensures var job := old(hand).value;
        if job.priority > P0_EMERGENCY && now < backoffUntil then heap == old(heap) + {job} && done == old(done)
        else heap == old(heap) && done == old(done)[job := true] && callsTotal == old(callsTotal) + 1
    {
      hide StepAt;
      var job := hand.value;
      RunKeepsOrder(states, events, |events|);
      ghost var s := states[|events|];
      assert job in Held(s);
      assert forall j :: j in s.executed <==> j in Members(s.executed);
      hand := None;
      if job.priority > P0_EMERGENCY && now < backoffUntil {
        heap := heap + {job};
        Record(Defer);
      } else {
        done, callsTotal := done[job := true], callsTotal + 1;
        Record(Execute);
      }
    }

    /** Fails every waiting job. */
    method DrainAll()
      requires Legal() && hand.None? && !finished
      modifies this`heap, this`done, this`finished, this`states, this`events
      ensures Legal() && events == old(events) + [Event.Drain] && old(states) <= states && finished && heap == {}
      ensures forall j | j in old(heap) :: j in done && !done[j]
    {
      hide StepAt;
      DrainFacts();
      ghost var s := states[|events|];
      var todo := heap;
      while todo != {}
        modifies this`done
        invariant todo <= heap
        invariant forall j :: j in done && done[j] <==> j in s.executed
        invariant forall j :: j in done && !done[j] <==> j in heap - todo
      {
        var j :| j in todo;
        done, todo := done[j := false], todo - {j};
      }
      heap, finished := {}, true;
      Record(Event.Drain);
    }

    lemma DrainFacts()
      requires Legal() && hand.None? && !finished
      ensures states[|events|].dropped == {} && forall j | j in heap :: j !in states[|events|].executed
    {
      hide StepAt;
      RunKeepsOrder(states, events, |events|);
      assert forall j :: j in states[|events|].executed <==> j in Members(states[|events|].executed);
    }

    /** The worker takes a job, callers act, and it serves the job or puts it back. */
    method TakeOne(turn: Turn) returns (job: Job)
      requires Legal() && hand.None? && !finished && !stopping && heap != {}
      modifies this
      ensures Legal() && hand.None? && !finished && old(events) < events && old(states) <= states
      ensures stopping <==> Halt in turn.second
      ensures backoffUntil == BackoffAfter(turn.second, old(backoffUntil))
      ensures forall j | j in old(calling) && (j !in calling || Submit(j) in turn.second) :: Event.Push(j) in events
      ensures Work(events) == Work(old(events)) + [Pop, events[|events| - 1]] && OneServed([Pop, events[|events| - 1]])
      ensures !Submits(turn.second) ==>
                Took(old(heap), old(done), job, job.priority > P0_EMERGENCY && turn.now < backoffUntil, heap, done)
    {
      hide Legal, Work, BackoffAfter, Least, Submits;
      WorkSnoc(events, Pop);
      ghost var before := heap;
      job := PopLeast();
      LeastIsIn(before, job);
      Callers(turn.second);
      WorkSnoc(events, Execute);
      WorkSnoc(events, Defer);
      Finish(turn.now);
    }

    /** One round of the worker. It takes a job whenever one waits, and serves it or puts it back. */
    method Round(turn: Turn) returns (ghost job: Option<Job>)
      requires Legal() && hand.None? && !finished && !stopping
      modifies this
      ensures Legal() && hand.None? && !finished && old(events) <= events && old(states) <= states
      ensures var acts := if job.Some? then turn.first + turn.second else turn.first;
        && (stopping <==> Halt in acts) && backoffUntil == BackoffAfter(acts, old(backoffUntil))
        && forall j | j in old(calling) && (j !in calling || Submit(j) in acts) :: Event.Push(j) in events
      ensures var work := Work(events[|old(events)|..]); if job.None? then work == [] else OneServed(work)
      ensures old(heap) != {} && Halt !in turn.first ==> job.Some?
      ensures (forall a | a in turn.first + turn.second :: !a.Backoff?) ==> backoffUntil == old(backoffUntil)
      ensures Closed(turn) ==> !stopping
      ensures Closed(turn) && job.None? ==> old(heap) == {} && heap == {} && done == old(done)
      ensures Closed(turn) && job.Some? ==>
                Took(old(heap), old(done), job.value, job.value.priority > P0_EMERGENCY && turn.now < backoffUntil, heap, done)
    {
      hide Legal, Work, BackoffAfter, Least, Submits, Took, OneServed;
      ghost var before := events;
      if forall a | a in turn.first + turn.second :: !a.Backoff? {
        NoBackoff(turn.first, backoffUntil);
        NoBackoff(turn.second, backoffUntil);
      }
      BackoffJoins(turn.first, turn.second, backoffUntil);
      Callers(turn.first);
      if heap == {} || stopping {
        WorkSince(before, events, []);
        return None;
      }
      var taken := TakeOne(turn);
      job := Some(taken);
      WorkSince(before, events, [Pop, events[|events| - 1]]);
    }

    /** The worker thread, for as many rounds as the schedule has, or until it is stopped and drains. Every round
        that begins with a waiting job takes one. With nobody pushing or stopping, the waiting jobs are served one
        a round, least first, if no backoff lasts, and the emergencies among them whatever backoff lasts. */
    method Run(turns: seq<Turn>) returns (ghost marks: seq<nat>)
      requires Legal() && hand.None? && !finished
      modifies this
      ensures Legal() && hand.None? && old(events) <= events && old(states) <= states
      ensures finished <==> stopping
      ensures finished ==> heap == {} && forall j | j in states[|events|].pushed :: j in done
      ensures 0 < |marks| <= |turns| + 1 && marks[0] == |old(events)| && (!stopping ==> |marks| == |turns| + 1)
      ensures stopping ==> old(stopping) || exists i :: 0 <= i < |turns| && Halt in turns[i].first + turns[i].second
      ensures forall i | 0 <= i < |marks| - 1 :: RoundIn(states, events, turns[i], marks[i], marks[i + 1])
      ensures forall i | 0 <= i < |marks| - 1 && Halt in turns[i].first :: stopping
      ensures forall i, j | 0 <= i < |marks| - 1 && Submit(j) in turns[i].first && j in old(calling) :: Event.Push(j) in events
      ensures !old(stopping) && (forall turn | turn in turns :: Closed(turn)) ==>
                !stopping && Dwindled(Emergencies(old(heap)), Emergencies(heap), done, |turns|)
      ensures !old(stopping) && (forall turn | turn in turns :: Free(turn, old(backoffUntil))) ==>
                !stopping && Dwindled(old(heap), heap, done, |turns|)
    {
      hide Legal, Dwindled, Work, RoundIn, Closed, Free, Took, Emergencies, Progressed, BackoffAfter, OneServed, Submits, Least,
           NumbersOk, Placed, InOrder;
      var i := 0;
      marks := [|events|];
      if !stopping {
        ProgressStarts(turns, backoffUntil, heap, done);
      }
      while i < |turns| && !stopping
        invariant Legal() && hand.None? && !finished && old(events) <= events && old(states) <= states
        invariant 0 <= i <= |turns| && |marks| == i + 1 && marks[0] == |old(events)| && marks[i] == |events|
        invariant stopping ==> old(stopping) || exists k :: 0 <= k < |turns| && Halt in turns[k].first + turns[k].second
        invariant forall k | 0 <= k < i :: RoundIn(states, events, turns[k], marks[k], marks[k + 1])
        invariant forall k | 0 <= k < i && Halt in turns[k].first :: stopping
        invariant forall j | j in old(calling) && j !in calling :: Event.Push(j) in events
        invariant forall k, j | 0 <= k < i && Submit(j) in turns[k].first && j in old(calling) :: Event.Push(j) in events
        invariant !old(stopping) ==> Progressed(turns, old(backoffUntil), old(heap), heap, done, stopping, backoffUntil, i)
      {
        assert turns[i] in turns;
        FreeMeans(turns[i], old(backoffUntil));
        HeapNow();
        ghost var heap0, done0, until, ss, es := heap, done, backoffUntil, states, events;
        ghost var job := Round(turns[i]);
        RoundsStay(ss, es, states, events, turns, marks);
        RoundDone(ss, es, states, events, turns[i], job.Some?);
        if !old(stopping) {
          Progresses(turns, old(backoffUntil), old(heap), heap0, done0, until, i, job, heap, done, stopping, backoffUntil);
        }
        marks := marks + [|events|];
        i := i + 1;
      }
      if !old(stopping) {
        ProgressMeans(turns, old(backoffUntil), old(heap), heap, done, stopping, backoffUntil, i);
      }
      if stopping {
        ghost var ss, es := states, events;
        DrainAll();
        RoundsStay(ss, es, states, events, turns, marks);
        AllDone();
      }
    }

    lemma HeapNow()
      requires Legal()
      ensures |states| == |events| + 1 && states[|events|].heap == heap
    {
    }

    lemma AllDone()
      requires Legal() && hand.None? && heap == {}
      ensures forall j | j in states[|events|].pushed :: j in done
    {
      RunKeepsOrder(states, events, |events|);
      var s := states[|events|];
      assert forall j | j in s.pushed :: j in Members(s.pushed);
      assert forall j :: j in s.executed <==> j in Members(s.executed);
    }
  }
}
