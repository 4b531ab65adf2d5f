/** Runs of the load planner in which the obvious claim about it fails. */
module LoadPlannerExamples {
  import opened Planning
  import opened LoadPlannerRuns
  import CM = CostModel

  /** One second of reading and nine of recomputing per block, copies for free, a budget of two blocks and
      a deadline one second after the first defer. */
  const CFG := Config(CM.CostTables(1, [0.0, 9.0, 9.0], [0.0, 1.0, 2.0], [0.0, 0.0, 0.0], [0.0, 1.0, 2.0], 2), 2, 0.0, 1.0, 1.0)

  /** A request for block 1, and one for blocks 1 and 2. */
  const SHORT := Candidate(7, 1, 1, [1], false, false)
  const LONG := Candidate(8, 2, 2, [1, 2], false, false)

  lemma CountsOne(stagedAt: map<BlockHash, real>)
    ensures DistinctCount([1], stagedAt) == if 1 in stagedAt then 0 else 1
    ensures CoveredReady([1], stagedAt) == if 1 in stagedAt then stagedAt[1] else 0.0
    ensures Take([1], 1) == [1]
  {
    assert [1][..0] == [];
  }

  lemma CountsTwo(stagedAt: map<BlockHash, real>)
    requires stagedAt == map[]
    ensures DistinctCount([1, 2], stagedAt) == 2 && CoveredReady([1, 2], stagedAt) == 0.0
  {
    assert [1, 2][..1] == [1];
    CountsOne(stagedAt);
  }

  lemma DeliversOne(stagedAt: map<BlockHash, real>, start: real, end: real)
    requires start <= end
    ensures Deliveries([1], start, end) == [(1, end)]
    ensures Earliest(stagedAt, [(1, end)]) == if 1 !in stagedAt || end < stagedAt[1] then stagedAt[1 := end] else stagedAt
  {
    assert [(1, end)][..0] == [];
    assert Deliveries([1], start, end)[0] == (1, end);
  }

  lemma DeliversTwo()
    ensures Deliveries([1, 2], 0.0, 2.0) == [(1, 1.0), (2, 2.0)]
    ensures Earliest(map[], [(1, 1.0), (2, 2.0)]) == map[1 := 1.0, 2 := 2.0]
  {
    var ds := Deliveries([1, 2], 0.0, 2.0);
    assert ds[0] == (1, 1.0) && ds[1] == (2, 2.0);
    assert [(1, 1.0), (2, 2.0)][..1] == [(1, 1.0)];
    DeliversOne(map[], 0.0, 1.0);
  }

  lemma CallStarts(qs: seq<Request>, a: nat)
    requires CFG.tables.Valid() && a < |qs|
    ensures Before(CFG, qs, a, 0)
         == StartCall(CFG, Run(CFG, EMPTY_PLANNER, qs[..a]), qs[a].now, Ids(qs[a].candidates), qs[a].outstanding)
  {
    hide StartCall, Run, Ids;
  }

  // ---------- The storage wait goes down ----------

  /** Block 1 is staged for a request, which is admitted when it has arrived; long after its deadline the
      request comes back, behind one that stages blocks 1 and 2. */
  const RETURNS := [Request(0.0, [SHORT], []), Request(2.0, [SHORT], []), Request(3.0, [LONG, SHORT], [])]

  const READ := Staging(7, 1.0, 0.0, 1.0, 1)

  const ARMED := Planner([READ], map[7 := READ], map[], map[7 := 1.0], map[])
  const WAITED := Planner([], map[], map[], map[7 := 1.0], map[])

  /** The only candidate's step makes the whole call. */
  lemma OneCandidate(p: Planner, now: real, c: Candidate)
    requires CFG.tables.Valid()
    ensures PlanCall(CFG, p, Request(now, [c], [])) == PlanOne(CFG, now, StartCall(CFG, p, now, {c.reqId}, []), c)
  {
    hide StartCall, PlanOne;
    assert Ids([c]) == {c.reqId} by { assert [c][0] == c; }
    var start := StartCall(CFG, p, now, {c.reqId}, []);
    assert PlanPrefix(CFG, now, start, [c], 0) == start;
    assert PlanPrefix(CFG, now, start, [c], 1) == PlanOne(CFG, now, start, c);
  }

  /** Its read has ended. */
  lemma ReadRetired()
    ensures Retire(ARMED, 2.0) == WAITED.(staged := map[7 := 0])
  {
    RetireNext(ARMED, 2.0);
    RetireNext(Popped(ARMED), 2.0);
  }

  /** Requests that are all present do not age. */
  lemma StagedKept(p: Planner, ids: set<ReqId>)
    requires forall r :: r in p.staged ==> r in ids && p.staged[r] == 0
    ensures GcStaged(p, ids) == p
  {
  }

  lemma DeadlinesStay(p: Planner, ids: set<ReqId>)
    requires p.deadlineAbsent == map[] && forall r :: r in p.deadlineAt ==> r in ids
    ensures GcDeadlines(p, ids) == p
  {
  }

  lemma NothingAged(p: Planner, now: real, ids: set<ReqId>)
    requires var q := Retire(p, now);
      && q.deadlineAbsent == map[] && (forall r :: r in q.deadlineAt ==> r in ids)
      && (forall r :: r in q.staged ==> r in ids && q.staged[r] == 0)
    ensures Prepare(p, now, ids) == Retire(p, now)
  {
    hide Retire, GcStaged, GcDeadlines;
    StagedKept(Retire(p, now), ids);
    DeadlinesStay(Retire(p, now), ids);
  }

  lemma FirstStarts()
    ensures CFG.tables.Valid()
    ensures StartCall(CFG, EMPTY_PLANNER, 0.0, {7}, []) == Call(EMPTY_PLANNER, 0.0, 0.0, 2, map[], [], [])
  {
    hide Prepare;
    NothingAged(EMPTY_PLANNER, 0.0, {7});
  }

  lemma FirstDeferred()
    ensures CFG.tables.Valid() && PlanCall(CFG, EMPTY_PLANNER, RETURNS[0]).p == ARMED
  {
    hide StartCall;
    FirstStarts();
    OneCandidate(EMPTY_PLANNER, 0.0, SHORT);
    CountsOne(map[]);
  }

  lemma ThenAdmitted()
    ensures CFG.tables.Valid() && PlanCall(CFG, ARMED, RETURNS[1]).p == WAITED
  {
    hide Prepare;
    OneCandidate(ARMED, 2.0, SHORT);
    ReadRetired();
    NothingAged(ARMED, 2.0, {7});
  }

  /** The third call, before and after the longer request. */
  const THIRD := Call(WAITED, 0.0, 0.0, 2, map[], [], [])
  const SECOND_READ := Staging(8, 2.0, 3.0, 5.0, 2)
  const BEHIND := Call(Planner([SECOND_READ], map[8 := SECOND_READ], map[], map[7 := 1.0, 8 := 4.0], map[]), 2.0, 0.0, 0,
                       map[1 := 1.0, 2 := 2.0], [(1, 1.0), (2, 2.0)], [PlanResult(Defer, 2)])

  lemma ThirdStarts()
    ensures CFG.tables.Valid() && StartCall(CFG, WAITED, 3.0, Ids(RETURNS[2].candidates), []) == THIRD
  {
    hide Prepare;
    assert Ids([LONG, SHORT]) == {7, 8} by { assert LONG == [LONG, SHORT][0] && SHORT == [LONG, SHORT][1]; }
    NothingAged(WAITED, 3.0, {7, 8});
  }

  lemma LongDeferred()
    ensures CFG.tables.Valid() && PlanOne(CFG, 3.0, THIRD, LONG) == BEHIND
  {
    hide StartCall;
    CountsTwo(map[]);
    DeliversTwo();
  }

  /** The run reaches it. */
  lemma ReachesBehind()
    ensures CFG.tables.Valid() && Before(CFG, RETURNS, 2, 1) == BEHIND
  {
    hide PlanOne, StartCall;
    FirstStarts();
    var one, two := RETURNS[..1], RETURNS[..2];
    assert one[..0] == [] && two[..1] == one;
    FirstDeferred();
    ThenAdmitted();
    assert Run(CFG, EMPTY_PLANNER, one) == ARMED;
    assert Run(CFG, EMPTY_PLANNER, two) == WAITED;
    ThirdStarts();
    LongDeferred();
    CallStarts(RETURNS, 2);
    BeforeNext(CFG, RETURNS, 2, 0);
  }

  /** The storage wait can fall: in the third call the overdue request's block arrives after one second of a
      two-second queue, and everyone behind it is priced as if the queue had shrunk. */
  lemma WaitDropsExample()
    ensures CFG.tables.Valid() && Monotone(RETURNS)
    ensures var s := Before(CFG, RETURNS, 2, 1);
      && OverdueFreeRider(CFG, 3.0, s, SHORT)
      && s.storageWait == 2.0 && Before(CFG, RETURNS, 2, 2).storageWait == 1.0
  {
    hide StartCall, Run, PlanPrefix, Before;
    ReachesBehind();
    CountsOne(BEHIND.stagedAt);
    BeforeNext(CFG, RETURNS, 2, 1);
  }

  // ---------- A repeated defer moves a delivery ----------

  const OTHER := Candidate(9, 1, 1, [1], false, false)

  /** A request is deferred for block 1. In the next call, at once, a new request for the same block comes
      first and queues behind that read. */
  const REPEATS := [Request(0.0, [SHORT], []), Request(0.0, [OTHER, SHORT], [])]

  const OTHER_READ := Staging(9, 1.0, 1.0, 2.0, 1)
  const BOTH := Planner([READ, OTHER_READ], map[7 := READ, 9 := OTHER_READ], map[], map[7 := 1.0, 9 := 1.0], map[])

  lemma SecondStarts()
    ensures CFG.tables.Valid()
    ensures StartCall(CFG, ARMED, 0.0, Ids(REPEATS[1].candidates), []) == Call(ARMED, 1.0, 0.0, 2, map[], [], [])
  {
    hide Prepare;
    assert Ids([OTHER, SHORT]) == {7, 9} by { assert OTHER == [OTHER, SHORT][0] && SHORT == [OTHER, SHORT][1]; }
    NothingAged(ARMED, 0.0, {7, 9});
  }

  lemma OtherDeferred()
    ensures CFG.tables.Valid()
    ensures PlanOne(CFG, 0.0, Call(ARMED, 1.0, 0.0, 2, map[], [], []), OTHER)
         == Call(BOTH, 2.0, 0.0, 1, map[1 := 2.0], [(1, 2.0)], [PlanResult(Defer, 1)])
  {
    hide StartCall;
    CountsOne(map[]);
    DeliversOne(map[], 1.0, 2.0);
  }

  lemma ReachesBoth()
    ensures CFG.tables.Valid()
    ensures Before(CFG, REPEATS, 1, 1) == Call(BOTH, 2.0, 0.0, 1, map[1 := 2.0], [(1, 2.0)], [PlanResult(Defer, 1)])
  {
    hide PlanOne, StartCall;
    FirstStarts();
    var one := REPEATS[..1];
    assert one[..0] == [];
    FirstDeferred();
    assert Run(CFG, EMPTY_PLANNER, one) == ARMED;
    SecondStarts();
    OtherDeferred();
    CallStarts(REPEATS, 1);
    BeforeNext(CFG, REPEATS, 1, 0);
  }

  /** Repeating a defer can change a delivery: the block was expected after two seconds, and the request's own
      read, which is ahead in the queue, delivers it after one. */
  lemma RepeatedDeferMoves()
    ensures CFG.tables.Valid() && Monotone(REPEATS)
    ensures var s, s' := Before(CFG, REPEATS, 1, 1), Before(CFG, REPEATS, 1, 2);
      && SHORT.reqId in s.p.byReq && Verdict(CFG, REPEATS, 1, 1).decision == Defer
      && s.stagedAt == map[1 := 2.0] && s'.stagedAt == map[1 := 1.0]
  {
    hide StartCall, Run, PlanPrefix, Before;
    ReachesBoth();
    CountsOne(map[1 := 2.0]);
    DeliversOne(map[1 := 2.0], 0.0, 1.0);
    BeforeNext(CFG, REPEATS, 1, 1);
    assert map[1 := 2.0][1 := 1.0] == map[1 := 1.0];
  }
}
