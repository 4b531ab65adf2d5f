/** The planner object: its loops and field updates, proved to do what the Planning functions say. */
module LoadPlannerObject {
  import opened Outcomes
  import opened Planning
  import Runs = LoadPlannerRuns

  method CountDistinct(hashes: seq<BlockHash>, stagedAt: map<BlockHash, real>) returns (n: nat)
    ensures n == DistinctCount(hashes, stagedAt)
  {
    n := 0;
    for i := 0 to |hashes|
      invariant n == DistinctCount(hashes[..i], stagedAt)
    {
      assert hashes[..i + 1][..i] == hashes[..i];
      if hashes[i] !in stagedAt { n := n + 1; }
    }
    assert hashes[..|hashes|] == hashes;
  }

  method CoveredReadyIn(hashes: seq<BlockHash>, stagedAt: map<BlockHash, real>) returns (ready: real)
    ensures ready == CoveredReady(hashes, stagedAt)
  {
    ready := 0.0;
    var found := false;
    for i := 0 to |hashes|
      invariant ready == CoveredReady(hashes[..i], stagedAt)
      invariant found <==> DistinctCount(hashes[..i], stagedAt) < i
    {
      assert hashes[..i + 1][..i] == hashes[..i];
      if hashes[i] in stagedAt {
        ready := if found then Max(ready, stagedAt[hashes[i]]) else stagedAt[hashes[i]];
        found := true;
      }
    }
    assert hashes[..|hashes|] == hashes;
  }

  method RecordStaged(stagedAt: map<BlockHash, real>, hashes: seq<BlockHash>, startInS: real, endInS: real)
      returns (m: map<BlockHash, real>)
    ensures m == Earliest(stagedAt, Deliveries(hashes, startInS, endInS))
  {
    m := stagedAt;
    var total := |hashes|;
    var span := Max(0.0, endInS - startInS);
    ghost var ds := Deliveries(hashes, startInS, endInS);
    for i := 0 to total
      invariant m == Earliest(stagedAt, ds[..i])
    {
      var readyInS := ReadyAt(startInS, span, i, total);
      assert ds[..i + 1][..i] == ds[..i] && ds[i] == (hashes[i], readyInS);
      if hashes[i] !in m || readyInS < m[hashes[i]] { m := m[hashes[i] := readyInS]; }
    }
    assert ds[..total] == ds;
  }

  /** The maps agree at `r`. */
  predicate SameAt<V(==)>(m: map<ReqId, V>, n: map<ReqId, V>, r: ReqId) {
    if r in m then r in n && m[r] == n[r] else r !in n
  }

  lemma SameValue<V>(m: map<ReqId, V>, n: map<ReqId, V>, r: ReqId)
    ensures SameAt(m, n, r) <==> if r in m then r in n && m[r] == n[r] else r !in n
  {
  }

  lemma SameEverywhere<V>(m: map<ReqId, V>, before: map<ReqId, V>, n: map<ReqId, V>, todo: set<ReqId>)
    requires todo == {} && forall r :: SameAt(m, if r in todo then before else n, r)
    ensures m == n
  {
    forall r ensures SameAt(m, n, r) { assert SameAt(m, if r in todo then before else n, r); }
    assert forall r :: SameAt(m, n, r) ==> (r in m <==> r in n);
    assert forall r :: SameAt(m, n, r) && r in m ==> m[r] == n[r];
  }

  lemma Elsewhere<V>(m: map<ReqId, V>, n: map<ReqId, V>, r: ReqId)
    requires forall x :: x != r ==> (x in m <==> x in n) && (x in m ==> m[x] == n[x])
    ensures forall o, x :: x != r && SameAt(m, o, x) ==> SameAt(n, o, x)
  {
  }

  /** What the cleanup does at one id with a deadline. */
  lemma GcOne(p: Planner, ids: set<ReqId>, r: ReqId)
    requires r in p.deadlineAt
    ensures var q := GcDeadlines(p, ids);
      var absent := (if r in p.deadlineAbsent then p.deadlineAbsent[r] else 0) + 1;
      && (r in q.deadlineAt <==> r in ids || absent <= STAGED_ABSENCE_LIMIT)
      && (r in q.deadlineAt ==> q.deadlineAt[r] == p.deadlineAt[r])
      && (r in q.deadlineAbsent <==> r !in ids && absent <= STAGED_ABSENCE_LIMIT)
      && (r in q.deadlineAbsent ==> q.deadlineAbsent[r] == absent)
  {
  }

  /** The cleanup touches only ids with a deadline. */
  lemma GcOutside(p: Planner, ids: set<ReqId>)
    ensures var q := GcDeadlines(p, ids);
      && (forall r :: SameAt(p.deadlineAt, if r in p.deadlineAt then p.deadlineAt else q.deadlineAt, r))
      && (forall r :: SameAt(p.deadlineAbsent, if r in p.deadlineAt then p.deadlineAbsent else q.deadlineAbsent, r))
  {
  }

  lemma GcOnlyDeadlines(p: Planner, ids: set<ReqId>)
    ensures var q := GcDeadlines(p, ids);
      q == Planner(p.entries, p.byReq, p.staged, q.deadlineAt, q.deadlineAbsent)
  {
  }

  class LoadPlanner {
    const cfg: Config
    var entries: seq<Staging>
    var stagingByReq: map<ReqId, Staging>
    var staged: map<ReqId, nat>
    var deadlineAt: map<ReqId, real>
    var deadlineAbsent: map<ReqId, nat>
    var decisions: map<ReqId, PlanResult>

    ghost function Value(): Planner
      reads this
    {
      Planner(entries, stagingByReq, staged, deadlineAt, deadlineAbsent)
    }

    constructor (cfg: Config)
      ensures this.cfg == cfg && Value() == EMPTY_PLANNER && decisions == map[]
    {
      this.cfg := cfg;
      entries, stagingByReq, staged, deadlineAt, deadlineAbsent, decisions := [], map[], map[], map[], map[], map[];
    }

    method Reset()
      modifies this
      ensures Value() == EMPTY_PLANNER && decisions == map[]
    {
      entries, stagingByReq, staged, deadlineAt, deadlineAbsent, decisions := [], map[], map[], map[], map[], map[];
    }

    method DecisionFor(reqId: ReqId) returns (d: Option<Decision>)
      ensures d == if reqId in decisions then Some(decisions[reqId].decision) else None
    {
      d := if reqId in decisions then Some(decisions[reqId].decision) else None;
    }

    method RetireShadowEntries(now: real)
      modifies this`entries, this`stagingByReq, this`staged
      ensures Value() == Retire(old(Value()), now)
    {
      while entries != [] && entries[0].endsAt <= now
        invariant Retire(Value(), now) == Retire(old(Value()), now)
        invariant deadlineAt == old(deadlineAt) && deadlineAbsent == old(deadlineAbsent)
        decreases |entries|
      {
        var e := entries[0];
        entries := entries[1..];
        stagingByReq := stagingByReq - {e.reqId};
        staged := staged[e.reqId := 0];
      }
    }

    method GcStagedEntries(ids: set<ReqId>)
      modifies this`staged
      ensures Value() == GcStaged(old(Value()), ids)
    {
      var todo := staged.Keys;
      ghost var target := GcStaged(Value(), ids).staged;
      while todo != {}
        invariant todo <= old(staged).Keys
        invariant forall r :: r in todo ==> r in staged && staged[r] == old(staged)[r]
        invariant forall r :: r !in todo ==> (r in staged <==> r in target)
        invariant forall r :: r !in todo && r in staged ==> staged[r] == target[r]
        decreases todo
      {
        var r :| r in todo;
        todo := todo - {r};
        var absent := staged[r] + 1;
        if r in ids {
          staged := staged[r := 0];
        } else if absent > STAGED_ABSENCE_LIMIT {
          staged := staged - {r};
        } else {
          staged := staged[r := absent];
        }
      }
      assert staged == target;
    }

    method GcDeadlineEntries(ids: set<ReqId>)
      modifies this`deadlineAt, this`deadlineAbsent
      ensures Value() == GcDeadlines(old(Value()), ids)
    {
      hide GcDeadlines, SameAt, KeepsDeadline, AbsentCount;
      var todo := deadlineAt.Keys;
      ghost var before, target := Value(), GcDeadlines(Value(), ids);
      GcOutside(before, ids);
      while todo != {}
        invariant todo <= before.deadlineAt.Keys
        invariant forall r :: SameAt(deadlineAt, if r in todo then before.deadlineAt else target.deadlineAt, r)
        invariant forall r :: SameAt(deadlineAbsent, if r in todo then before.deadlineAbsent else target.deadlineAbsent, r)
        decreases todo
      {
        var r :| r in todo;
        GcOne(before, ids, r);
        SameValue(deadlineAt, before.deadlineAt, r);
        SameValue(deadlineAbsent, before.deadlineAbsent, r);
        ghost var at, absents := deadlineAt, deadlineAbsent;
        todo := todo - {r};
        var absent := (if r in deadlineAbsent then deadlineAbsent[r] else 0) + 1;
        if r in ids {
          deadlineAbsent := deadlineAbsent - {r};
        } else if absent > STAGED_ABSENCE_LIMIT {
          deadlineAt := deadlineAt - {r};
          deadlineAbsent := deadlineAbsent - {r};
        } else {
          deadlineAbsent := deadlineAbsent[r := absent];
        }
        Elsewhere(at, deadlineAt, r);
        Elsewhere(absents, deadlineAbsent, r);
        SameValue(deadlineAt, target.deadlineAt, r);
        SameValue(deadlineAbsent, target.deadlineAbsent, r);
      }
      SameEverywhere(deadlineAt, before.deadlineAt, target.deadlineAt, todo);
      SameEverywhere(deadlineAbsent, before.deadlineAbsent, target.deadlineAbsent, todo);
      GcOnlyDeadlines(before, ids);
    }

    method ShadowResidual(now: real) returns (s: real)
      ensures s == Residual(Value(), now)
      ensures Runs.Contiguous(entries) && Runs.Begun(entries, now) ==> s == Runs.TotalRemaining(entries, now)
    {
      if Runs.Contiguous(entries) && Runs.Begun(entries, now) { Runs.ResidualIsTotal(entries, now); }
      s := if entries == [] then 0.0 else Max(0.0, entries[|entries| - 1].endsAt - now);
    }

    method JobsFloorOf(outstanding: seq<int>) returns (s: real)
      requires cfg.tables.Valid()
      ensures s == JobsFloor(cfg, outstanding)
    {
      s := 0.0;
      for i := 0 to |outstanding|
        invariant s == JobsFloor(cfg, outstanding[..i])
      {
        assert outstanding[..i + 1][..i] == outstanding[..i];
        s := s + cfg.tables.ServiceSOf(outstanding[i]);
      }
      assert outstanding[..|outstanding|] == outstanding;
    }

    method AppendShadowEntry(r: ReqId, serviceS: real, now: real, emitted: nat)
      modifies this`entries, this`stagingByReq
      ensures Value() == Enqueue(old(Value()), r, serviceS, now, emitted)
    {
      var startsAt := if entries != [] then Max(now, entries[|entries| - 1].endsAt) else now;
      var e := Staging(r, serviceS, startsAt, startsAt + serviceS, emitted);
      entries := entries + [e];
      stagingByReq := stagingByReq[r := e];
    }

    method ArmDeadline(r: ReqId, now: real, predictedWaitS: real) returns (at: real)
      modifies this`deadlineAt
      ensures Value() == Arm(cfg, old(Value()), r, now, predictedWaitS)
      ensures r in deadlineAt && at == deadlineAt[r]
    {
      if r in deadlineAt { return deadlineAt[r]; }
      at := now + Min(cfg.deadlineMaxS, Max(cfg.deadlineMinS, cfg.tolerance * predictedWaitS));
      deadlineAt := deadlineAt[r := at];
    }

    /** The state of a call, with its bookkeeping, as the locals of the loop hold it. */
    ghost predicate Holds(s: Call, storageWait: real, gpuWait: real, budget: int, stagedAt: map<BlockHash, real>)
      reads this
    {
      Value() == s.p && storageWait == s.storageWait && gpuWait == s.gpuWait && budget == s.budget && stagedAt == s.stagedAt
    }

    method PlanBlockedCandidate(ghost s: Call, now: real, c: Candidate, storageWait: real, gpuWait: real, budget: int,
                                stagedAt: map<BlockHash, real>)
        returns (storageWait': real, budget': int, stagedAt': map<BlockHash, real>, result: PlanResult)
      requires cfg.tables.Valid() && Holds(s, storageWait, gpuWait, budget, stagedAt) && c.blockedOnStore
      modifies this`entries, this`stagingByReq
      ensures Holds(PlanOne(cfg, now, s, c), storageWait', gpuWait, budget', stagedAt')
      ensures PlanOne(cfg, now, s, c).results == s.results + [result]
    {
      storageWait', budget', stagedAt' := storageWait, budget, stagedAt;
      if c.reqId in stagingByReq {
        var e := stagingByReq[c.reqId];
        stagedAt' := RecordStaged(stagedAt, Take(c.hashes, e.emitted), Max(0.0, e.startsAt - now), Max(0.0, e.endsAt - now));
        result := PlanResult(Defer, e.emitted);
      } else {
        var distinct := CountDistinct(c.hashes, stagedAt);
        if distinct <= budget {
          budget' := budget - distinct;
          var serviceS := if distinct == 0 then 0.0 else cfg.tables.ServiceSOf(distinct);
          storageWait' := storageWait + serviceS;
          AppendShadowEntry(c.reqId, serviceS, now, c.loadBlocks);
          stagedAt' := RecordStaged(stagedAt, c.hashes, storageWait, storageWait');
          result := PlanResult(Defer, c.loadBlocks);
        } else {
          result := PlanResult(Defer, 0);
        }
      }
    }

    method PlanOutstandingCandidate(ghost s: Call, now: real, c: Candidate, storageWait: real, gpuWait: real, budget: int,
                                    stagedAt: map<BlockHash, real>)
        returns (stagedAt': map<BlockHash, real>, result: PlanResult)
      requires cfg.tables.Valid() && Holds(s, storageWait, gpuWait, budget, stagedAt) && c.reqId in stagingByReq
      modifies this`staged, this`deadlineAt
      ensures Holds(PlanOutstanding(cfg, now, s, c), storageWait, gpuWait, budget, stagedAt')
      ensures PlanOutstanding(cfg, now, s, c).results == s.results + [result]
    {
      stagedAt' := stagedAt;
      var e := stagingByReq[c.reqId];
      if c.reqId in deadlineAt && now >= deadlineAt[c.reqId] {
        staged := staged - {c.reqId};
        result := PlanResult(Admit, 0);
      } else {
        result := PlanResult(Defer, e.emitted);
        var _ := ArmDeadline(c.reqId, now, Max(0.0, e.endsAt - now));
        stagedAt' := RecordStaged(stagedAt, Take(c.hashes, e.emitted), Max(0.0, e.startsAt - now), Max(0.0, e.endsAt - now));
      }
    }

    method PlanFreshCandidate(ghost s: Call, now: real, c: Candidate, storageWait: real, gpuWait: real, budget: int,
                              stagedAt: map<BlockHash, real>)
        returns (storageWait': real, gpuWait': real, budget': int, stagedAt': map<BlockHash, real>, result: PlanResult)
      requires cfg.tables.Valid() && Holds(s, storageWait, gpuWait, budget, stagedAt)
      modifies this`entries, this`stagingByReq, this`deadlineAt
      ensures Holds(PlanFresh(cfg, now, s, c), storageWait', gpuWait', budget', stagedAt')
      ensures PlanFresh(cfg, now, s, c).results == s.results + [result]
    {
      storageWait', gpuWait', budget', stagedAt' := storageWait, gpuWait, budget, stagedAt;
      var distinct := CountDistinct(c.hashes, stagedAt);
      var coveredReady := CoveredReadyIn(c.hashes, stagedAt);
      var storageDone := if distinct == 0 then coveredReady
                         else Max(coveredReady, storageWait + cfg.tables.ServiceSOf(distinct));
      var tLoad := Max(storageDone, gpuWait) + cfg.tables.LoadMemS(c.loadBlocks);
      var tRecompute := gpuWait + RecomputeS(cfg, c.recomputeTokens);
      if tRecompute <= tLoad {
        gpuWait' := gpuWait + RecomputeS(cfg, c.recomputeTokens);
        result := PlanResult(Decline, 0);
      } else if c.reqId in deadlineAt && now >= deadlineAt[c.reqId] {
        storageWait' := storageDone;
        result := PlanResult(Admit, 0);
      } else if distinct <= budget {
        budget' := budget - distinct;
        result := PlanResult(Defer, c.loadBlocks);
        var _ := ArmDeadline(c.reqId, now, storageDone);
        var serviceS := if distinct == 0 then 0.0 else cfg.tables.ServiceSOf(distinct);
        storageWait' := storageWait + serviceS;
        AppendShadowEntry(c.reqId, serviceS, now, c.loadBlocks);
        stagedAt' := RecordStaged(stagedAt, c.hashes, Max(storageWait, if distinct == 0 then coveredReady else 0.0),
                                  Max(storageWait', coveredReady));
      } else {
        storageWait' := storageDone;
        result := PlanResult(Admit, 0);
      }
    }

    method PlanCandidate(ghost s: Call, now: real, c: Candidate, storageWait: real, gpuWait: real, budget: int,
                         stagedAt: map<BlockHash, real>)
        returns (storageWait': real, gpuWait': real, budget': int, stagedAt': map<BlockHash, real>, result: PlanResult)
      requires cfg.tables.Valid() && Holds(s, storageWait, gpuWait, budget, stagedAt)
      modifies this`entries, this`stagingByReq, this`staged, this`deadlineAt
      ensures Holds(PlanOne(cfg, now, s, c), storageWait', gpuWait', budget', stagedAt')
      ensures PlanOne(cfg, now, s, c).results == s.results + [result]
    {
      hide PlanFresh, PlanOutstanding, PlanBlocked;
      storageWait', gpuWait', budget', stagedAt' := storageWait, gpuWait, budget, stagedAt;
      if c.blockedOnStore {
        storageWait', budget', stagedAt', result := PlanBlockedCandidate(s, now, c, storageWait, gpuWait, budget, stagedAt);
      } else if c.loadBlocks == 0 {
        result := PlanResult(Decline, 0);
        gpuWait' := gpuWait + RecomputeS(cfg, c.recomputeTokens);
      } else if c.dramResident || c.reqId in staged {
        result := PlanResult(Admit, 0);
        staged := staged - {c.reqId};
      } else if c.reqId in stagingByReq {
        stagedAt', result := PlanOutstandingCandidate(s, now, c, storageWait, gpuWait, budget, stagedAt);
      } else {
        storageWait', gpuWait', budget', stagedAt', result :=
          PlanFreshCandidate(s, now, c, storageWait, gpuWait, budget, stagedAt);
      }
    }

    /** One planning call; `now` is the time read from the clock. */
    method Plan(now: real, candidates: seq<Candidate>, outstanding: seq<int>) returns (r: map<ReqId, PlanResult>)
      requires cfg.tables.Valid()
      modifies this
      ensures Value() == PlanCall(cfg, old(Value()), Request(now, candidates, outstanding)).p
      ensures |PlanCall(cfg, old(Value()), Request(now, candidates, outstanding)).results| == |candidates|
      ensures r == Decisions(candidates, PlanCall(cfg, old(Value()), Request(now, candidates, outstanding)).results)
      ensures decisions == r
    {
      hide PlanOne, Retire, GcStaged, GcDeadlines, Residual, JobsFloor;
      var ids := Ids(candidates);
      RetireShadowEntries(now);
      GcStagedEntries(ids);
      GcDeadlineEntries(ids);
      var residual := ShadowResidual(now);
      var floor := JobsFloorOf(outstanding);
      var storageWait, gpuWait, budget: int, stagedAt := Max(residual, floor), 0.0, cfg.maxPreloadSlots, map[];
      r := map[];
      ghost var start := StartCall(cfg, old(Value()), now, ids, outstanding);
      ghost var s := start;
      assert candidates[..0] == [];
      for i := 0 to |candidates|
        invariant s == PlanPrefix(cfg, now, start, candidates, i) && |s.results| == i
        invariant Holds(s, storageWait, gpuWait, budget, stagedAt)
        invariant r == Decisions(candidates[..i], s.results)
      {
        var result;
        storageWait, gpuWait, budget, stagedAt, result :=
          PlanCandidate(s, now, candidates[i], storageWait, gpuWait, budget, stagedAt);
        ghost var before := s.results;
        s := PlanOne(cfg, now, s, candidates[i]);
        assert s.results[..i] == before && s.results[i] == result;
        assert candidates[..i + 1][..i] == candidates[..i];
        r := r[candidates[i].reqId := result];
      }
      assert candidates[..|candidates|] == candidates;
      decisions := r;
    }
  }
}
