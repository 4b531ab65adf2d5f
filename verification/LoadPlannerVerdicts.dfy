/** What the load planner decides, in terms of the tables, the waits and the requests it knows about, and what each
    decision changes. */
module LoadPlannerVerdicts {
  import opened Planning
  import opened LoadPlannerRuns
  import CM = CostModel

  // ---------- Finish times ----------

  /** `n` blocks hold `tokens` tokens, and one block less would not. */
  predicate BlocksFor(n: int, tokens: int, blockTokens: int) {
    (n - 1) * blockTokens < tokens <= n * blockTokens
  }

  /** The time to recompute a prefix is the table's price of the blocks it fills. */
  lemma RecomputePrice(cfg: Config, tokens: int, n: int)
    requires cfg.tables.Valid() && BlocksFor(n, tokens, cfg.tables.blockTokens)
    ensures RecomputeS(cfg, tokens) == cfg.tables.fS[cfg.tables.Clamp(n)]
  {
    var b := cfg.tables.blockTokens;
    var q := (-tokens) / b;
    Quotient(-tokens, b, -n);
  }

  lemma Quotient(x: int, b: int, q: int)
    requires b > 0 && q * b <= x < (q + 1) * b
    ensures x / b == q
  {
    var k := x / b;
    assert k * b <= x < (k + 1) * b;
    if k < q {
      Multiples(k + 1, q, b);
    } else if k > q {
      Multiples(q + 1, k, b);
    }
  }

  lemma Multiples(x: int, y: int, b: int)
    requires x <= y && b > 0
    ensures x * b <= y * b
  {
  }

  function Later(a: real, b: real): real { if a >= b then a else b }

  /** The latest time at which a hash that is covered already arrives; zero if none is covered. */
  ghost predicate LatestCovered(s: Call, hashes: seq<BlockHash>, t: real) {
    && (forall h :: h in hashes && h in s.stagedAt ==> s.stagedAt[h] <= t)
    && ((exists h :: h in hashes && h in s.stagedAt && s.stagedAt[h] == t) || (t == 0.0 && forall h :: h in hashes ==> h !in s.stagedAt))
  }

  lemma LatestCoveredIs(s: Call, hashes: seq<BlockHash>)
    ensures LatestCovered(s, hashes, CoveredReady(hashes, s.stagedAt))
  {
    CoveredReadyIsLatest(hashes, s.stagedAt);
    UncoveredAtMost(hashes, s.stagedAt);
  }

  lemma {:induction false} UncoveredAtMost(hashes: seq<BlockHash>, stagedAt: map<BlockHash, real>)
    ensures DistinctCount(hashes, stagedAt) <= |hashes|
  {
  }

  lemma LatestCoveredUnique(s: Call, hashes: seq<BlockHash>, t: real, u: real)
    requires LatestCovered(s, hashes, t) && LatestCovered(s, hashes, u)
    ensures t == u
  {
  }

  /** How many of the hashes no recorded read delivers. */
  function Missing(s: Call, c: Candidate): nat { DistinctCount(c.hashes, s.stagedAt) }

  /** Service time of reading the missing hashes; nothing if none is missing. */
  function ReadTime(cfg: Config, s: Call, c: Candidate): real
    requires cfg.tables.Valid()
  {
    if Missing(s, c) == 0 then 0.0 else cfg.tables.serviceS[cfg.tables.Clamp(Missing(s, c))]
  }

  /** When all blocks would be in memory, given when the covered ones are: the missing ones queue behind all reads. */
  function ArrivesAt(cfg: Config, s: Call, c: Candidate, covered: real): real
    requires cfg.tables.Valid()
  {
    if Missing(s, c) == 0 then covered else Later(covered, s.storageWait + ReadTime(cfg, s, c))
  }

  /** When a load would be finished: its blocks have arrived, the GPU is free, and they are copied. */
  function LoadedAt(cfg: Config, s: Call, c: Candidate, covered: real): real
    requires cfg.tables.Valid()
  {
    Later(ArrivesAt(cfg, s, c, covered), s.gpuWait) + cfg.tables.gMemS[cfg.tables.Clamp(c.loadBlocks)]
  }

  /** When recomputing `n` blocks would be finished. */
  function RecomputedAt(cfg: Config, s: Call, n: int): real
    requires cfg.tables.Valid()
  {
    s.gpuWait + cfg.tables.fS[cfg.tables.Clamp(n)]
  }

  predicate Overdue(s: Call, c: Candidate, now: real) { c.reqId in s.p.deadlineAt && now >= s.p.deadlineAt[c.reqId] }

  // ---------- Verdicts ----------

  /** A request with blocks to load, none being written, none predicted in memory, no hint and no modelled read. */
  predicate Fresh(s: Call, c: Candidate) {
    !c.blockedOnStore && c.loadBlocks > 0 && !c.dramResident && c.reqId !in s.p.staged && c.reqId !in s.p.byReq
  }

  lemma FreshStep(cfg: Config, now: real, s: Call, c: Candidate, n: int, covered: real)
    requires cfg.tables.Valid() && Fresh(s, c)
    requires BlocksFor(n, c.recomputeTokens, cfg.tables.blockTokens) && LatestCovered(s, c.hashes, covered)
    ensures var v := Latest(PlanOne(cfg, now, s, c).results);
      && (v.decision == Decline <==> RecomputedAt(cfg, s, n) <= LoadedAt(cfg, s, c, covered))
      && (v.decision == Admit <==> RecomputedAt(cfg, s, n) > LoadedAt(cfg, s, c, covered) && (Overdue(s, c, now) || Missing(s, c) > s.budget))
      && v.preloadBlocks == if v.decision == Defer then c.loadBlocks else 0
  {
    LatestCoveredIs(s, c.hashes);
    LatestCoveredUnique(s, c.hashes, covered, CoveredReady(c.hashes, s.stagedAt));
    RecomputePrice(cfg, c.recomputeTokens, n);
    hide LatestCovered, BlocksFor, DistinctCount, CoveredReady, RecomputeS, Deliveries, Earliest, NewEntry, Grace;
  }

  /** A fresh request, whose missing prefix fills `n` blocks, is declined if and only if recomputing finishes no later
      than loading; otherwise it is admitted if and only if its deadline has passed or the hashes it still misses
      exceed the remaining budget; otherwise it is deferred, and all its blocks are prefetched. */
  lemma FreshVerdict(cfg: Config, qs: seq<Request>, a: nat, i: nat, n: int, covered: real)
    requires cfg.tables.Valid() && a < |qs| && i < |qs[a].candidates| && Fresh(Before(cfg, qs, a, i), qs[a].candidates[i])
    requires BlocksFor(n, qs[a].candidates[i].recomputeTokens, cfg.tables.blockTokens)
    requires LatestCovered(Before(cfg, qs, a, i), qs[a].candidates[i].hashes, covered)
    ensures var s, c, v := Before(cfg, qs, a, i), qs[a].candidates[i], Verdict(cfg, qs, a, i);
      && (v.decision == Decline <==> RecomputedAt(cfg, s, n) <= LoadedAt(cfg, s, c, covered))
      && (v.decision == Admit <==>
            RecomputedAt(cfg, s, n) > LoadedAt(cfg, s, c, covered) && (Overdue(s, c, qs[a].now) || Missing(s, c) > s.budget))
      && (v.decision == Defer <==>
            RecomputedAt(cfg, s, n) > LoadedAt(cfg, s, c, covered) && !Overdue(s, c, qs[a].now) && Missing(s, c) <= s.budget)
      && v.preloadBlocks == if v.decision == Defer then c.loadBlocks else 0
  {
    hide Before, PlanOne, Fresh, BlocksFor, LatestCovered, RecomputedAt, LoadedAt, Overdue, Missing;
    FreshStep(cfg, qs[a].now, Before(cfg, qs, a, i), qs[a].candidates[i], n, covered);
  }

  /** The other candidates. One whose blocks are being written is always deferred, prefetching what its modelled read
      was to fetch, or everything if the budget allows, or nothing. One with nothing to load is declined. One that is
      predicted in memory, or whose read has retired, is admitted. One with a modelled read is admitted once overdue,
      and otherwise deferred again with the same prefetch. */
  lemma OtherVerdicts(cfg: Config, qs: seq<Request>, a: nat, i: nat)
    requires cfg.tables.Valid() && a < |qs| && i < |qs[a].candidates| && !Fresh(Before(cfg, qs, a, i), qs[a].candidates[i])
    ensures var s, c := Before(cfg, qs, a, i), qs[a].candidates[i];
      Verdict(cfg, qs, a, i) ==
        if c.blockedOnStore then
          PlanResult(Defer, if c.reqId in s.p.byReq then s.p.byReq[c.reqId].emitted
                            else if Missing(s, c) <= s.budget then c.loadBlocks else 0)
        else if c.loadBlocks == 0 then PlanResult(Decline, 0)
        else if c.dramResident || c.reqId in s.p.staged || Overdue(s, c, qs[a].now) then PlanResult(Admit, 0)
        else PlanResult(Defer, s.p.byReq[c.reqId].emitted)
  {
    hide Before, DistinctCount, CoveredReady, Deliveries, Earliest, NewEntry, Grace, Take, RecomputeS;
  }

  // ---------- The GPU wait ----------

  /** Recompute time of the candidates declined so far. */
  ghost function DeclinedTime(cfg: Config, qs: seq<Request>, a: nat, n: nat): real
    requires cfg.tables.Valid() && a < |qs| && n <= |qs[a].candidates|
  {
    if n == 0 then 0.0
    else
      DeclinedTime(cfg, qs, a, n - 1)
      + if Verdict(cfg, qs, a, n - 1).decision == Decline then RecomputeS(cfg, qs[a].candidates[n - 1].recomputeTokens) else 0.0
  }

  lemma StepGpuWait(cfg: Config, now: real, s: Call, c: Candidate)
    requires cfg.tables.Valid()
    ensures var s' := PlanOne(cfg, now, s, c);
      s'.gpuWait == s.gpuWait + if Latest(s'.results).decision == Decline then RecomputeS(cfg, c.recomputeTokens) else 0.0
  {
    hide DistinctCount, CoveredReady, RecomputeS, RecomputeWins, StorageDone, Deliveries, Earliest, NewEntry, Grace, Take, Service;
  }

  /** The GPU is busy for as long as it takes to recompute what was declined so far. */
  lemma {:induction false} GpuWaitIsDeclined(cfg: Config, qs: seq<Request>, a: nat, n: nat)
    requires cfg.tables.Valid() && a < |qs| && n <= |qs[a].candidates|
    ensures Before(cfg, qs, a, n).gpuWait == DeclinedTime(cfg, qs, a, n)
  {
    hide Before, PlanOne, RecomputeS;
    if n == 0 {
      NewCall(cfg, qs, a);
    } else {
      GpuWaitIsDeclined(cfg, qs, a, n - 1);
      BeforeNext(cfg, qs, a, n - 1);
      StepGpuWait(cfg, qs[a].now, Before(cfg, qs, a, n - 1), qs[a].candidates[n - 1]);
    }
  }

  /** Service time of the loads already running. */
  function RunningTime(cfg: Config, outstanding: seq<int>): real
    requires cfg.tables.Valid()
  {
    if outstanding == [] then 0.0
    else RunningTime(cfg, outstanding[1..]) + cfg.tables.serviceS[cfg.tables.Clamp(outstanding[0])]
  }

  lemma {:induction false} RunningAppend(cfg: Config, xs: seq<int>, y: int)
    requires cfg.tables.Valid()
    ensures RunningTime(cfg, xs + [y]) == RunningTime(cfg, xs) + cfg.tables.serviceS[cfg.tables.Clamp(y)]
  {
    if xs == [] {
      assert [y][1..] == [] && [] + [y] == [y];
    } else {
      assert (xs + [y])[1..] == xs[1..] + [y];
      RunningAppend(cfg, xs[1..], y);
    }
  }

  lemma {:induction false} FloorIsRunning(cfg: Config, outstanding: seq<int>)
    requires cfg.tables.Valid()
    ensures JobsFloor(cfg, outstanding) == RunningTime(cfg, outstanding)
  {
    if outstanding != [] {
      var n := |outstanding| - 1;
      FloorIsRunning(cfg, outstanding[..n]);
      RunningAppend(cfg, outstanding[..n], outstanding[n]);
      assert outstanding[..n] + [outstanding[n]] == outstanding;
    }
  }

  lemma NewCall(cfg: Config, qs: seq<Request>, a: nat)
    requires cfg.tables.Valid() && a < |qs|
    ensures var s := Before(cfg, qs, a, 0);
      && s.gpuWait == 0.0 && s.budget == cfg.maxPreloadSlots && s.stagedAt == map[] && s.deliveries == [] && s.results == []
      && s.storageWait == Max(Residual(s.p, qs[a].now), JobsFloor(cfg, qs[a].outstanding))
  {
    hide Run, Ids, Prepare, Residual, JobsFloor;
  }

  /** A call starts with a free GPU, the whole budget, nothing covered, and a storage wait that is the longer of what
      the modelled reads still need and what the running loads need. */
  lemma CallStartsWith(cfg: Config, qs: seq<Request>, a: nat)
    requires cfg.tables.Valid() && Monotone(qs) && a < |qs|
    ensures var s := Before(cfg, qs, a, 0);
      && s.gpuWait == 0.0 && s.budget == cfg.maxPreloadSlots && s.stagedAt == map[] && s.deliveries == []
      && s.storageWait == Later(TotalRemaining(s.p.entries, qs[a].now), RunningTime(cfg, qs[a].outstanding))
  {
    hide Before, Residual, JobsFloor, TotalRemaining, RunningTime;
    NewCall(cfg, qs, a);
    ResidualExact(cfg, qs, a, 0);
    FloorIsRunning(cfg, qs[a].outstanding);
  }

  // ---------- What a decision changes ----------

  /** A read of the request joins the modelled queue: it starts when the last one ends, or now. */
  predicate Queued(p: Planner, p': Planner, r: ReqId, service: real, now: real, blocks: nat) {
    && |p'.entries| == |p.entries| + 1 && p'.entries[..|p.entries|] == p.entries
    && var e := p'.entries[|p.entries|];
    && e.reqId == r && e.serviceS == service && e.emitted == blocks
    && e.startsAt == (if p.entries == [] then now else Later(now, p.entries[|p.entries| - 1].endsAt))
    && e.endsAt == e.startsAt + service
    && p'.byReq == p.byReq[r := e]
  }

  /** The request has its old deadline, or one as far ahead as the tolerated share of its wait, but no nearer than the
      least and no further than the greatest grace. */
  predicate Armed(cfg: Config, p: Planner, p': Planner, r: ReqId, now: real, wait: real) {
    var share := cfg.tolerance * wait;
    var grace := if share < cfg.deadlineMinS then cfg.deadlineMinS else share;
    if r in p.deadlineAt then p'.deadlineAt == p.deadlineAt
    else p'.deadlineAt == p.deadlineAt[r := now + if grace > cfg.deadlineMaxS then cfg.deadlineMaxS else grace]
  }

  /** A read of the hashes has been recorded, its blocks arriving evenly from `start` to `end`. */
  ghost predicate Recorded(s: Call, s': Call, hashes: seq<BlockHash>, start: real, end: real) {
    && |s.deliveries| <= |s'.deliveries| && s'.deliveries[..|s.deliveries|] == s.deliveries
    && var ds := s'.deliveries[|s.deliveries|..];
    && |ds| == |hashes| && (forall k :: 0 <= k < |ds| ==> Arrives(ds[k], hashes, k, start, end))
    && s'.stagedAt == Earliest(s.stagedAt, ds)
  }

  predicate Arrives(d: (BlockHash, real), hashes: seq<BlockHash>, k: nat, start: real, end: real)
    requires k < |hashes|
  {
    d.0 == hashes[k] && (d.1 - start) * (|hashes| as real) == ((k + 1) as real) * Later(0.0, end - start)
  }

  lemma DeliveryArrives(hashes: seq<BlockHash>, start: real, end: real, k: nat)
    requires k < |hashes|
    ensures Arrives(Deliveries(hashes, start, end)[k], hashes, k, start, end)
  {
    var n, span := |hashes| as real, Max(0.0, end - start);
    var t := ReadyAt(start, span, k, |hashes|);
    assert (t - start) * n == span * ((k + 1) as real);
  }

  lemma RecordRecords(s: Call, hashes: seq<BlockHash>, start: real, end: real, s': Call)
    requires s'.deliveries == s.deliveries + Deliveries(hashes, start, end)
    requires s'.stagedAt == Earliest(s.stagedAt, Deliveries(hashes, start, end))
    ensures Recorded(s, s', hashes, start, end)
  {
    hide Deliveries, Earliest, Arrives;
    DeliveriesCount(hashes, start, end);
    var ds := Deliveries(hashes, start, end);
    assert s'.deliveries[|s.deliveries|..] == ds;
    forall k | 0 <= k < |ds| ensures Arrives(ds[k], hashes, k, start, end) {
      DeliveryArrives(hashes, start, end, k);
    }
  }

  lemma DeliveriesCount(hashes: seq<BlockHash>, start: real, end: real)
    ensures |Deliveries(hashes, start, end)| == |hashes|
  {
  }

  lemma EnqueueQueues(p: Planner, r: ReqId, service: real, now: real, blocks: nat)
    ensures var p' := Enqueue(p, r, service, now, blocks);
      && Queued(p, p', r, service, now, blocks)
      && p'.staged == p.staged && p'.deadlineAt == p.deadlineAt && p'.deadlineAbsent == p.deadlineAbsent
  {
  }

  lemma ArmArms(cfg: Config, p: Planner, r: ReqId, now: real, wait: real)
    ensures var p' := Arm(cfg, p, r, now, wait); Armed(cfg, p, p', r, now, wait) && p' == p.(deadlineAt := p'.deadlineAt)
  {
  }

  lemma SameQueued(p: Planner, q: Planner, p': Planner, r: ReqId, service: real, now: real, blocks: nat)
    requires Queued(q, p', r, service, now, blocks) && SameQueue(p, q)
    ensures Queued(p, p', r, service, now, blocks)
  {
  }

  lemma SameArmed(cfg: Config, p: Planner, q: Planner, p': Planner, r: ReqId, now: real, wait: real)
    requires Armed(cfg, p, q, r, now, wait) && p'.deadlineAt == q.deadlineAt
    ensures Armed(cfg, p, p', r, now, wait)
  {
  }

  /** The three ways of a fresh request. */
  lemma FreshIs(cfg: Config, now: real, s: Call, c: Candidate)
    requires cfg.tables.Valid() && Fresh(s, c)
    ensures var covered := CoveredReady(c.hashes, s.stagedAt);
      var s', q := PlanOne(cfg, now, s, c), Arm(cfg, s.p, c.reqId, now, ArrivesAt(cfg, s, c, covered));
      match Latest(s'.results).decision
      case Decline => s' == s.(gpuWait := s'.gpuWait, results := s'.results)
      case Admit => s' == s.(storageWait := ArrivesAt(cfg, s, c, covered), results := s'.results)
      case Defer =>
        && s'.budget == s.budget - Missing(s, c) && s'.storageWait == s.storageWait + ReadTime(cfg, s, c) && s'.gpuWait == s.gpuWait
        && s'.p == Enqueue(q, c.reqId, ReadTime(cfg, s, c), now, c.loadBlocks)
        && var ds := Deliveries(c.hashes, Later(s.storageWait, if Missing(s, c) == 0 then covered else 0.0), Later(s'.storageWait, covered));
        && s'.deliveries == s.deliveries + ds && s'.stagedAt == Earliest(s.stagedAt, ds)
  {
    hide DistinctCount, CoveredReady, RecomputeS, RecomputeWins, Deliveries, Earliest, Arm, Enqueue;
  }

  /** A fresh request: declining only keeps the GPU busy; admitting only moves the storage wait to when its blocks
      arrive; deferring spends one unit of budget per missing hash, queues the read, arms the deadline by the wait until
      the blocks arrive, and records the read from the end of the queue on, or, if nothing is missing, from when the
      last covered block arrives. */
  lemma FreshEffects(cfg: Config, now: real, s: Call, c: Candidate, covered: real)
    requires cfg.tables.Valid() && Fresh(s, c) && LatestCovered(s, c.hashes, covered)
    ensures var s' := PlanOne(cfg, now, s, c);
      match Latest(s'.results).decision
      case Decline => s' == s.(gpuWait := s'.gpuWait, results := s'.results)
      case Admit => s' == s.(storageWait := ArrivesAt(cfg, s, c, covered), results := s'.results)
      case Defer =>
        && s'.gpuWait == s.gpuWait && s'.budget == s.budget - Missing(s, c) && s'.storageWait == s.storageWait + ReadTime(cfg, s, c)
        && Queued(s.p, s'.p, c.reqId, ReadTime(cfg, s, c), now, c.loadBlocks)
        && s'.p.staged == s.p.staged && s'.p.deadlineAbsent == s.p.deadlineAbsent
        && Armed(cfg, s.p, s'.p, c.reqId, now, ArrivesAt(cfg, s, c, covered))
        && Recorded(s, s', c.hashes, Later(s.storageWait, if Missing(s, c) == 0 then covered else 0.0), Later(s'.storageWait, covered))
  {
    LatestCoveredIs(s, c.hashes);
    LatestCoveredUnique(s, c.hashes, covered, CoveredReady(c.hashes, s.stagedAt));
    FreshIs(cfg, now, s, c);
    hide *;
    var s' := PlanOne(cfg, now, s, c);
    if Latest(s'.results).decision == Defer {
      var wait, service := ArrivesAt(cfg, s, c, covered), ReadTime(cfg, s, c);
      var q := Arm(cfg, s.p, c.reqId, now, wait);
      ArmArms(cfg, s.p, c.reqId, now, wait);
      EnqueueQueues(q, c.reqId, service, now, c.loadBlocks);
      ArmKeepsQueue(cfg, s.p, c.reqId, now, wait);
      SameQueued(s.p, q, s'.p, c.reqId, service, now, c.loadBlocks);
      SameArmed(cfg, s.p, q, s'.p, c.reqId, now, wait);
      RecordRecords(s, c.hashes, Later(s.storageWait, if Missing(s, c) == 0 then covered else 0.0), Later(s'.storageWait, covered), s');
    }
  }

  lemma ArmKeepsQueue(cfg: Config, p: Planner, r: ReqId, now: real, wait: real)
    ensures SameQueue(p, Arm(cfg, p, r, now, wait))
  {
  }

  /** A request whose blocks are being written: a new read is queued and recorded if the budget allows, an old one is
      recorded again, and no deadline is armed. */
  lemma BlockedEffects(cfg: Config, now: real, s: Call, c: Candidate)
    requires cfg.tables.Valid() && c.blockedOnStore
    ensures var s' := PlanOne(cfg, now, s, c);
      && s'.gpuWait == s.gpuWait && s'.p.staged == s.p.staged
      && s'.p.deadlineAt == s.p.deadlineAt && s'.p.deadlineAbsent == s.p.deadlineAbsent
      && if c.reqId in s.p.byReq then
           var e := s.p.byReq[c.reqId];
           && s'.p == s.p && s'.budget == s.budget && s'.storageWait == s.storageWait
           && Recorded(s, s', Take(c.hashes, e.emitted), Later(0.0, e.startsAt - now), Later(0.0, e.endsAt - now))
         else if Missing(s, c) <= s.budget then
           && s'.budget == s.budget - Missing(s, c) && s'.storageWait == s.storageWait + ReadTime(cfg, s, c)
           && Queued(s.p, s'.p, c.reqId, ReadTime(cfg, s, c), now, c.loadBlocks)
           && Recorded(s, s', c.hashes, s.storageWait, s'.storageWait)
         else s' == s.(results := s'.results)
  {
    hide DistinctCount, Deliveries, Earliest, Recorded, Take;
    var s' := PlanOne(cfg, now, s, c);
    if c.reqId in s.p.byReq {
      var e := s.p.byReq[c.reqId];
      RecordRecords(s, Take(c.hashes, e.emitted), Later(0.0, e.startsAt - now), Later(0.0, e.endsAt - now), s');
    } else if Missing(s, c) <= s.budget {
      RecordRecords(s, c.hashes, s.storageWait, s'.storageWait, s');
    }
  }

  /** Every other request: nothing to load keeps the GPU busy; a hint is used up by the admission; a repeated defer
      arms the deadline by what its read still needs and records that read again. */
  lemma OtherEffects(cfg: Config, now: real, s: Call, c: Candidate)
    requires cfg.tables.Valid() && !c.blockedOnStore && !Fresh(s, c)
    ensures var s' := PlanOne(cfg, now, s, c);
      match Latest(s'.results).decision
      case Decline => s' == s.(gpuWait := s'.gpuWait, results := s'.results)
      case Admit => s' == s.(p := s.p.(staged := s.p.staged - {c.reqId}), results := s'.results)
      case Defer =>
        c.reqId in s.p.byReq
        && var e := s.p.byReq[c.reqId];
        && s'.p == s.p.(deadlineAt := s'.p.deadlineAt) && Armed(cfg, s.p, s'.p, c.reqId, now, Later(0.0, e.endsAt - now))
        && s'.gpuWait == s.gpuWait && s'.budget == s.budget && s'.storageWait == s.storageWait
        && Recorded(s, s', Take(c.hashes, e.emitted), Later(0.0, e.startsAt - now), Later(0.0, e.endsAt - now))
  {
    hide DistinctCount, CoveredReady, RecomputeS, Deliveries, Earliest, Recorded, Take;
    var s' := PlanOne(cfg, now, s, c);
    if Latest(s'.results).decision == Defer {
      var e := s.p.byReq[c.reqId];
      RecordRecords(s, Take(c.hashes, e.emitted), Later(0.0, e.startsAt - now), Later(0.0, e.endsAt - now), s');
    }
  }

  // ---------- Hints ----------

  lemma {:induction false} RetiredHints(p: Planner, now: real, r: ReqId)
    ensures r in Retire(p, now).staged <==> r in p.staged || exists k :: 0 <= k < |p.entries| - |Retire(p, now).entries| && p.entries[k].reqId == r
    ensures |Retire(p, now).entries| <= |p.entries|
    ensures r in Retire(p, now).staged ==>
      Retire(p, now).staged[r] == if (exists k :: 0 <= k < |p.entries| - |Retire(p, now).entries| && p.entries[k].reqId == r) then 0 else p.staged[r]
    decreases |p.entries|
  {
    RetireNext(p, now);
    if p.entries != [] && p.entries[0].endsAt <= now {
      var q := Popped(p);
      hide Retire;
      RetiredHints(q, now, r);
      var n := |p.entries| - |Retire(p, now).entries|;
      assert forall k :: 0 < k < |p.entries| ==> p.entries[k] == q.entries[k - 1];
      if k :| 0 <= k < n && p.entries[k].reqId == r {
        if k > 0 { assert q.entries[k - 1].reqId == r; }
      }
      if k :| 0 <= k < n - 1 && q.entries[k].reqId == r {
        assert p.entries[k + 1].reqId == r;
      }
    }
  }

  /** Call `a` retires the modelled read of request `r`. */
  ghost predicate RetiredAt(cfg: Config, qs: seq<Request>, a: nat, r: ReqId)
    requires cfg.tables.Valid() && a < |qs|
  {
    var p := Run(cfg, EMPTY_PLANNER, qs[..a]);
    exists k :: 0 <= k < |p.entries| && p.entries[k].reqId == r && p.entries[k].endsAt <= qs[a].now
  }

  /** Calls the hint of `r` has gone unused, at the start of call `a`. */
  ghost function HintAge(cfg: Config, qs: seq<Request>, a: nat, r: ReqId): int
    requires cfg.tables.Valid() && a < |qs|
  {
    var p := Run(cfg, EMPTY_PLANNER, qs[..a]);
    if RetiredAt(cfg, qs, a, r) || r !in p.staged then 0 else p.staged[r]
  }

  /** A hint that a request's blocks were fetched exists at the start of a call exactly if it existed before, or the read
      has just retired, and the request is present or was not absent too often in a row. */
  lemma HintKept(cfg: Config, qs: seq<Request>, a: nat, r: ReqId)
    requires cfg.tables.Valid() && a < |qs|
    ensures var s := Before(cfg, qs, a, 0);
      && (r in s.p.staged <==>
            (r in Run(cfg, EMPTY_PLANNER, qs[..a]).staged || RetiredAt(cfg, qs, a, r))
            && (r in Ids(qs[a].candidates) || HintAge(cfg, qs, a, r) < STAGED_ABSENCE_LIMIT))
      && (r in s.p.staged ==> s.p.staged[r] == if r in Ids(qs[a].candidates) then 0 else HintAge(cfg, qs, a, r) + 1)
  {
    hide Run, Before, Retire, QueueOk, Ids;
    var p, now := Run(cfg, EMPTY_PLANNER, qs[..a]), qs[a].now;
    FirstPlanner(cfg, qs, a);
    QueueAlwaysOk(cfg, qs[..a]);
    var n := RetireExact(p, now);
    RetiredHints(p, now, r);
    assert |p.entries| - |Retire(p, now).entries| == n;
  }
}
