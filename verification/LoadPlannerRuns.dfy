/** What the load planner guarantees over whole calls and over every sequence of calls. */
module LoadPlannerRuns {
  import opened Planning
  import CM = CostModel
  import Keys = OrderedKeys

  // ---------- Occurrences ----------

  predicate Monotone(qs: seq<Request>) {
    forall a, b :: 0 <= a <= b < |qs| ==> qs[a].now <= qs[b].now
  }

  /** The state just before candidate `i` of call `a`. */
  function Before(cfg: Config, qs: seq<Request>, a: nat, i: nat): Call
    requires cfg.tables.Valid() && a < |qs| && i <= |qs[a].candidates|
  {
    PlanPrefix(cfg, qs[a].now,
               StartCall(cfg, Run(cfg, EMPTY_PLANNER, qs[..a]), qs[a].now, Ids(qs[a].candidates), qs[a].outstanding),
               qs[a].candidates, i)
  }

  function Latest(results: seq<PlanResult>): PlanResult {
    if results == [] then PlanResult(Decline, 0) else results[|results| - 1]
  }

  /** What call `a` decided for its candidate `i`. */
  function Verdict(cfg: Config, qs: seq<Request>, a: nat, i: nat): PlanResult
    requires cfg.tables.Valid() && a < |qs| && i < |qs[a].candidates|
  {
    Latest(PlanOne(cfg, qs[a].now, Before(cfg, qs, a, i), qs[a].candidates[i]).results)
  }

  /** Call `a` defers candidate `i`, and not because its blocks are still being written. */
  predicate Deferred(cfg: Config, qs: seq<Request>, a: nat, i: nat)
    requires cfg.tables.Valid() && a < |qs| && i < |qs[a].candidates|
  {
    !qs[a].candidates[i].blockedOnStore && Verdict(cfg, qs, a, i).decision == Defer
  }

  /** How many of the last calls in a row did not mention `r`. */
  function AbsenceStreak(qs: seq<Request>, r: ReqId): nat {
    if qs == [] || r in Ids(qs[|qs| - 1].candidates) then 0 else AbsenceStreak(qs[..|qs| - 1], r) + 1
  }

  /** At call `k`, request `r` has not been missing from more than STAGED_ABSENCE_LIMIT calls in a row. */
  predicate StillRemembered(qs: seq<Request>, k: nat, r: ReqId)
    requires k < |qs|
  {
    AbsenceStreak(qs[..k + 1], r) <= STAGED_ABSENCE_LIMIT
  }

  /** The order in which candidates are handled. */
  predicate Precedes(a: nat, i: nat, b: nat, j: nat) {
    a < b || (a == b && i < j)
  }

  /** One more candidate of the call. */
  lemma BeforeNext(cfg: Config, qs: seq<Request>, a: nat, n: nat)
    requires cfg.tables.Valid() && a < |qs| && n < |qs[a].candidates|
    ensures Before(cfg, qs, a, n + 1) == PlanOne(cfg, qs[a].now, Before(cfg, qs, a, n), qs[a].candidates[n])
  {
    hide PlanOne, StartCall, Run, Ids;
  }

  /** Verdicts are the results of the call, one per candidate, in order. */
  lemma {:induction false} ResultsAreVerdicts(cfg: Config, qs: seq<Request>, a: nat, n: nat)
    requires cfg.tables.Valid() && a < |qs| && n <= |qs[a].candidates|
    ensures |Before(cfg, qs, a, n).results| == n
    ensures forall i :: 0 <= i < n ==> Before(cfg, qs, a, n).results[i] == Verdict(cfg, qs, a, i)
  {
    hide PlanOne, StartCall, Run, Ids, PlanPrefix;
    if n == 0 {
      assert Before(cfg, qs, a, 0).results == [] by { NothingDecided(cfg, qs, a); }
    } else {
      ResultsAreVerdicts(cfg, qs, a, n - 1);
      BeforeNext(cfg, qs, a, n - 1);
      StepAddsResult(cfg, qs[a].now, Before(cfg, qs, a, n - 1), qs[a].candidates[n - 1]);
    }
  }

  lemma NothingDecided(cfg: Config, qs: seq<Request>, a: nat)
    requires cfg.tables.Valid() && a < |qs|
    ensures Before(cfg, qs, a, 0).results == []
  {
    hide Run, Ids, Prepare, Residual, JobsFloor;
  }

  lemma StepAddsResult(cfg: Config, now: real, s: Call, c: Candidate)
    requires cfg.tables.Valid()
    ensures var s' := PlanOne(cfg, now, s, c);
      |s'.results| == |s.results| + 1 && s'.results[..|s.results|] == s.results
  {
  }

  /** Candidate `i` is the last of the call's candidates with its request id. */
  predicate LastOf(cs: seq<Candidate>, i: nat) {
    i < |cs| && forall k :: i < k < |cs| ==> cs[k].reqId != cs[i].reqId
  }

  lemma {:induction false} DecidedAt(cs: seq<Candidate>, results: seq<PlanResult>, i: nat)
    requires |cs| == |results| && LastOf(cs, i)
    ensures cs[i].reqId in Decisions(cs, results) && Decisions(cs, results)[cs[i].reqId] == results[i]
  {
    var n := |cs| - 1;
    if i < n {
      assert forall k :: i <= k < n ==> cs[..n][k] == cs[k];
      DecidedAt(cs[..n], results[..n], i);
    }
  }

  lemma {:induction false} DecidedFor(cs: seq<Candidate>, results: seq<PlanResult>, r: ReqId)
    requires |cs| == |results|
    ensures r in Decisions(cs, results) <==> exists i :: 0 <= i < |cs| && cs[i].reqId == r
  {
    if cs != [] {
      var n := |cs| - 1;
      DecidedFor(cs[..n], results[..n], r);
      assert forall i :: 0 <= i < n ==> cs[..n][i] == cs[i];
    }
  }

  /** A call's table has a decision for exactly the requests it was asked about. When a request is listed
      more than once, the decision is the verdict on the last of its candidates. */
  lemma DecisionIsLastVerdict(cfg: Config, qs: seq<Request>, a: nat, r: ReqId)
    requires cfg.tables.Valid() && a < |qs|
    ensures var cs, n := qs[a].candidates, |qs[a].candidates|;
      && |Before(cfg, qs, a, n).results| == n
      && (r in Decisions(cs, Before(cfg, qs, a, n).results) <==> r in Ids(cs))
      && (forall i: nat :: LastOf(cs, i) && cs[i].reqId == r ==>
            Decisions(cs, Before(cfg, qs, a, n).results)[r] == Verdict(cfg, qs, a, i))
  {
    hide Before, Verdict, Decisions;
    var cs, n := qs[a].candidates, |qs[a].candidates|;
    ResultsAreVerdicts(cfg, qs, a, n);
    var results := Before(cfg, qs, a, n).results;
    DecidedFor(cs, results, r);
    forall i: nat | LastOf(cs, i) && cs[i].reqId == r ensures Decisions(cs, results)[r] == Verdict(cfg, qs, a, i) {
      DecidedAt(cs, results, i);
    }
  }

  // ---------- Bounded deferral ----------

  /** Deadlines of `p` are deadlines of `q`. */
  predicate DeadlinesKept(p: Planner, q: Planner) {
    forall r :: r in p.deadlineAt ==> r in q.deadlineAt && q.deadlineAt[r] == p.deadlineAt[r]
  }

  /** One candidate: armed deadlines stay, and an unblocked DEFER leaves one behind that had not passed. */
  lemma StepDeadlines(cfg: Config, now: real, s: Call, c: Candidate)
    requires cfg.tables.Valid()
    ensures var s' := PlanOne(cfg, now, s, c);
      && DeadlinesKept(s.p, s'.p)
      && (forall r :: r in s'.p.deadlineAt && r !in s.p.deadlineAt ==> r == c.reqId && s'.p.deadlineAt[r] <= now + cfg.deadlineMaxS)
      && s'.p.deadlineAbsent == s.p.deadlineAbsent
      && (!c.blockedOnStore && Latest(s'.results).decision == Defer ==>
            c.reqId in s'.p.deadlineAt && !PastDeadline(s.p, c.reqId, now))
  {
  }

  lemma {:induction false} PrefixDeadlines(cfg: Config, qs: seq<Request>, a: nat, i: nat, n: nat)
    requires cfg.tables.Valid() && a < |qs| && i <= n <= |qs[a].candidates|
    ensures DeadlinesKept(Before(cfg, qs, a, i).p, Before(cfg, qs, a, n).p)
    ensures Before(cfg, qs, a, n).p.deadlineAbsent == Before(cfg, qs, a, i).p.deadlineAbsent
    ensures forall r :: r in Before(cfg, qs, a, n).p.deadlineAt && r !in Before(cfg, qs, a, i).p.deadlineAt ==>
      r in Ids(qs[a].candidates) && Before(cfg, qs, a, n).p.deadlineAt[r] <= qs[a].now + cfg.deadlineMaxS
    decreases n - i
  {
    hide PlanOne, StartCall, Run, PlanPrefix, Before;
    if i < n {
      PrefixDeadlines(cfg, qs, a, i, n - 1);
      BeforeNext(cfg, qs, a, n - 1);
      StepDeadlines(cfg, qs[a].now, Before(cfg, qs, a, n - 1), qs[a].candidates[n - 1]);
    }
  }

  lemma {:induction false} RetireKeepsDeadlines(p: Planner, now: real)
    ensures Retire(p, now).deadlineAt == p.deadlineAt && Retire(p, now).deadlineAbsent == p.deadlineAbsent
    decreases |p.entries|
  {
    if p.entries != [] && p.entries[0].endsAt <= now {
      var e := p.entries[0];
      RetireKeepsDeadlines(p.(entries := p.entries[1..], byReq := p.byReq - {e.reqId}, staged := p.staged[e.reqId := 0]), now);
    }
  }

  /** After some calls: the absence counters are the absence streaks, streaks past the limit have
      dropped their deadline, and no deadline lies further ahead than the latest call allows. */
  ghost predicate DeadlinesOk(cfg: Config, qs: seq<Request>, p: Planner) {
    && p.deadlineAbsent.Keys <= p.deadlineAt.Keys
    && (forall r :: r in p.deadlineAt ==> AbsentCount(p, r) == AbsenceStreak(qs, r) <= STAGED_ABSENCE_LIMIT)
    && (forall r :: r in p.deadlineAt ==> qs != [] && p.deadlineAt[r] <= qs[|qs| - 1].now + cfg.deadlineMaxS)
  }

  lemma {:induction false} DeadlinesAlwaysOk(cfg: Config, qs: seq<Request>)
    requires cfg.tables.Valid() && Monotone(qs)
    ensures DeadlinesOk(cfg, qs, Run(cfg, EMPTY_PLANNER, qs))
  {
    if qs != [] {
      var a := |qs| - 1;
      assert Monotone(qs[..a]);
      DeadlinesAlwaysOk(cfg, qs[..a]);
      var p := Run(cfg, EMPTY_PLANNER, qs[..a]);
      RetireKeepsDeadlines(p, qs[a].now);
      PrefixDeadlines(cfg, qs, a, 0, |qs[a].candidates|);
      var p0 := Before(cfg, qs, a, 0).p;
      var p1 := Run(cfg, EMPTY_PLANNER, qs);
      assert p1 == Before(cfg, qs, a, |qs[a].candidates|).p;
      forall r | r in p1.deadlineAt
        ensures AbsentCount(p1, r) == AbsenceStreak(qs, r) <= STAGED_ABSENCE_LIMIT
        ensures p1.deadlineAt[r] <= qs[a].now + cfg.deadlineMaxS
      {
        if r in p0.deadlineAt {
          assert r in p.deadlineAt && KeepsDeadline(GcStaged(Retire(p, qs[a].now), Ids(qs[a].candidates)), Ids(qs[a].candidates), r);
        }
      }
    }
  }

  lemma GcStagedKeepsDeadlines(p: Planner, ids: set<ReqId>)
    ensures GcStaged(p, ids).deadlineAt == p.deadlineAt && GcStaged(p, ids).deadlineAbsent == p.deadlineAbsent
  {
  }

  /** A deadline survives every call that does not complete an absence of more than the limit. */
  lemma CallKeepsDeadline(cfg: Config, qs: seq<Request>, a: nat, r: ReqId)
    requires cfg.tables.Valid() && Monotone(qs) && a < |qs|
    requires r in Run(cfg, EMPTY_PLANNER, qs[..a]).deadlineAt
    ensures r in Before(cfg, qs, a, 0).p.deadlineAt <==> StillRemembered(qs, a, r)
    ensures r in Before(cfg, qs, a, 0).p.deadlineAt ==>
      Before(cfg, qs, a, 0).p.deadlineAt[r] == Run(cfg, EMPTY_PLANNER, qs[..a]).deadlineAt[r]
  {
    hide PlanOne, StartCall, Run, PlanPrefix, Before, Retire, GcStaged, Ids;
    assert Monotone(qs[..a]);
    DeadlinesAlwaysOk(cfg, qs[..a]);
    var p := Run(cfg, EMPTY_PLANNER, qs[..a]);
    FirstPlanner(cfg, qs, a);
    RetireKeepsDeadlines(p, qs[a].now);
    GcStagedKeepsDeadlines(Retire(p, qs[a].now), Ids(qs[a].candidates));
    assert qs[..a + 1][..a] == qs[..a];
    assert qs[..a + 1][a] == qs[a];
  }

  lemma RunIsLastPrefix(cfg: Config, qs: seq<Request>, a: nat)
    requires cfg.tables.Valid() && a < |qs|
    ensures Run(cfg, EMPTY_PLANNER, qs[..a + 1]) == Before(cfg, qs, a, |qs[a].candidates|).p
  {
    assert qs[..a + 1][..a] == qs[..a];
    assert qs[..a + 1][a] == qs[a];
  }

  /** A deadline armed before candidate `i` of call `a` is still the same at candidate `j` of call `b`. */
  lemma {:induction false} DeadlinePersists(cfg: Config, qs: seq<Request>, a: nat, i: nat, b: nat, j: nat, r: ReqId)
    requires cfg.tables.Valid() && Monotone(qs) && a <= b < |qs| && i <= |qs[a].candidates| && j <= |qs[b].candidates|
    requires a == b ==> i <= j
    requires r in Before(cfg, qs, a, i).p.deadlineAt
    requires forall k :: a < k <= b ==> StillRemembered(qs, k, r)
    ensures r in Before(cfg, qs, b, j).p.deadlineAt
    ensures Before(cfg, qs, b, j).p.deadlineAt[r] == Before(cfg, qs, a, i).p.deadlineAt[r]
    decreases b
  {
    hide PlanOne, StartCall, Run, PlanPrefix, Before, AbsenceStreak;
    if a == b {
      PrefixDeadlines(cfg, qs, a, i, j);
    } else {
      DeadlinePersists(cfg, qs, a, i, b - 1, |qs[b - 1].candidates|, r);
      RunIsLastPrefix(cfg, qs, b - 1);
      CallKeepsDeadline(cfg, qs, b, r);
      PrefixDeadlines(cfg, qs, b, 0, j);
    }
  }

  /** Bounded deferral: an unblocked DEFER of a request has a deadline, at most `deadlineMaxS` ahead, and
      once that has passed the request gets no such DEFER again, unless more than STAGED_ABSENCE_LIMIT
      calls in a row did not mention it. */
  lemma BoundedDeferral(cfg: Config, qs: seq<Request>, a: nat, i: nat, b: nat, j: nat) returns (deadline: real)
    requires cfg.tables.Valid() && Monotone(qs) && a < |qs| && b < |qs|
    requires i < |qs[a].candidates| && j < |qs[b].candidates| && Precedes(a, i, b, j)
    requires Deferred(cfg, qs, a, i) && qs[b].candidates[j].reqId == qs[a].candidates[i].reqId
    requires forall k :: a < k <= b ==> StillRemembered(qs, k, qs[a].candidates[i].reqId)
    ensures qs[a].candidates[i].reqId in Before(cfg, qs, a, i + 1).p.deadlineAt
    ensures deadline == Before(cfg, qs, a, i + 1).p.deadlineAt[qs[a].candidates[i].reqId]
    ensures deadline <= qs[a].now + cfg.deadlineMaxS
    ensures qs[b].now >= deadline ==> !Deferred(cfg, qs, b, j)
  {
    hide PlanOne, StartCall, Run, PlanPrefix, Before, AbsenceStreak;
    var r := qs[a].candidates[i].reqId;
    BeforeNext(cfg, qs, a, i);
    StepDeadlines(cfg, qs[a].now, Before(cfg, qs, a, i), qs[a].candidates[i]);
    deadline := Before(cfg, qs, a, i + 1).p.deadlineAt[r];
    DeadlineNotFar(cfg, qs, a, i + 1, r);
    DeadlinePersists(cfg, qs, a, i + 1, b, j, r);
    StepDeadlines(cfg, qs[b].now, Before(cfg, qs, b, j), qs[b].candidates[j]);
  }

  lemma DeadlineNotFar(cfg: Config, qs: seq<Request>, a: nat, i: nat, r: ReqId)
    requires cfg.tables.Valid() && Monotone(qs) && a < |qs| && i <= |qs[a].candidates|
    requires r in Before(cfg, qs, a, i).p.deadlineAt
    ensures Before(cfg, qs, a, i).p.deadlineAt[r] <= qs[a].now + cfg.deadlineMaxS
  {
    PrefixDeadlines(cfg, qs, a, i, |qs[a].candidates|);
    RunIsLastPrefix(cfg, qs, a);
    assert Monotone(qs[..a + 1]);
    DeadlinesAlwaysOk(cfg, qs[..a + 1]);
  }

  // ---------- The modelled queue is work-conserving ----------

  predicate WellTimed(e: Staging) {
    e.serviceS >= 0.0 && e.endsAt == e.startsAt + e.serviceS
  }

  /** Each read begins exactly when the one before it ends. */
  predicate Contiguous(es: seq<Staging>) {
    && (forall k :: 0 <= k < |es| ==> WellTimed(es[k]))
    && (forall k :: 0 < k < |es| ==> es[k].startsAt == es[k - 1].endsAt)
  }

  /** At most one read per request, and the index holds exactly the reads of the queue. */
  predicate Indexed(es: seq<Staging>, byReq: map<ReqId, Staging>) {
    && (forall k, l :: 0 <= k < l < |es| ==> es[k].reqId != es[l].reqId)
    && (forall k :: 0 <= k < |es| ==> es[k].reqId in byReq && byReq[es[k].reqId] == es[k])
    && (forall r :: r in byReq ==> exists k :: 0 <= k < |es| && es[k].reqId == r)
  }

  predicate QueueOk(p: Planner) {
    Contiguous(p.entries) && Indexed(p.entries, p.byReq)
  }

  /** Nothing in the queue ended before `now`. */
  predicate Current(es: seq<Staging>, now: real) {
    es != [] ==> es[|es| - 1].endsAt >= now
  }

  /** The queue had already begun at `now`. */
  predicate Begun(es: seq<Staging>, now: real) {
    es != [] ==> es[0].startsAt <= now
  }

  lemma {:induction false} EndsInOrder(es: seq<Staging>, k: nat, l: nat)
    requires Contiguous(es) && k <= l < |es|
    ensures es[k].endsAt <= es[l].endsAt
    decreases l - k
  {
    if k < l {
      EndsInOrder(es, k, l - 1);
      assert WellTimed(es[l]);
    }
  }

  lemma AppendContiguous(es: seq<Staging>, e: Staging)
    requires Contiguous(es) && WellTimed(e) && (es != [] ==> e.startsAt == es[|es| - 1].endsAt)
    ensures Contiguous(es + [e])
  {
  }

  lemma AppendIndexed(es: seq<Staging>, byReq: map<ReqId, Staging>, e: Staging)
    requires Indexed(es, byReq) && e.reqId !in byReq
    ensures Indexed(es + [e], byReq[e.reqId := e])
  {
    var all, n := es + [e], |es|;
    assert all[n] == e;
    assert forall k :: 0 <= k < n ==> all[k] == es[k];
    forall r | r in byReq || r == e.reqId ensures exists k :: 0 <= k < |all| && all[k].reqId == r {
      if r == e.reqId {
        assert all[n].reqId == r;
      } else {
        var k :| 0 <= k < n && es[k].reqId == r;
        assert all[k].reqId == r;
      }
    }
  }

  lemma AppendQueue(p: Planner, r: ReqId, serviceS: real, now: real, emitted: nat)
    requires QueueOk(p) && Current(p.entries, now) && r !in p.byReq && serviceS >= 0.0
    ensures var q := Enqueue(p, r, serviceS, now, emitted);
      && QueueOk(q) && Current(q.entries, now)
      && (Begun(p.entries, now) ==> Begun(q.entries, now))
  {
    hide Contiguous, Indexed;
    var e := NewEntry(p, r, serviceS, now, emitted);
    AppendContiguous(p.entries, e);
    AppendIndexed(p.entries, p.byReq, e);
  }

  function Popped(p: Planner): Planner
    requires p.entries != []
  {
    p.(entries := p.entries[1..], byReq := p.byReq - {p.entries[0].reqId}, staged := p.staged[p.entries[0].reqId := 0])
  }

  lemma RetireNext(p: Planner, now: real)
    ensures Retire(p, now) == if p.entries != [] && p.entries[0].endsAt <= now then Retire(Popped(p), now) else p
  {
  }

  /** Retirement pops exactly the reads that have ended, wherever they stand, and marks their requests. */
  lemma {:induction false} RetireExact(p: Planner, now: real) returns (n: nat)
    requires QueueOk(p)
    ensures n <= |p.entries| && Retire(p, now).entries == p.entries[n..]
    ensures forall k :: 0 <= k < |p.entries| ==> (p.entries[k].endsAt <= now <==> k < n)
    ensures QueueOk(Retire(p, now))
    ensures forall k :: 0 <= k < n ==> p.entries[k].reqId in Retire(p, now).staged && p.entries[k].reqId !in Retire(p, now).byReq
    decreases |p.entries|
  {
    hide Retire, QueueOk;
    var es := p.entries;
    RetireNext(p, now);
    if es != [] && es[0].endsAt <= now {
      var q := Popped(p);
      PopQueue(p);
      n := RetireExact(q, now);
      RetireKeepsStaged(q, now, es[0].reqId);
      assert q.entries[n..] == es[n + 1..];
      assert forall k :: 0 < k < |es| ==> es[k] == q.entries[k - 1];
      n := n + 1;
    } else {
      n := 0;
      AllLater(p, now);
    }
  }

  lemma AllLater(p: Planner, now: real)
    requires QueueOk(p) && (p.entries != [] ==> p.entries[0].endsAt > now)
    ensures forall k :: 0 <= k < |p.entries| ==> p.entries[k].endsAt > now
  {
    forall k | 0 <= k < |p.entries| ensures p.entries[k].endsAt > now { EndsInOrder(p.entries, 0, k); }
  }

  lemma PopContiguous(es: seq<Staging>)
    requires Contiguous(es) && es != []
    ensures Contiguous(es[1..])
  {
  }

  lemma PopIndexed(es: seq<Staging>, byReq: map<ReqId, Staging>)
    requires Indexed(es, byReq) && es != []
    ensures Indexed(es[1..], byReq - {es[0].reqId})
  {
    var rest := es[1..];
    assert forall k :: 0 <= k < |rest| ==> rest[k] == es[k + 1];
    forall r | r in byReq && r != es[0].reqId ensures exists k :: 0 <= k < |rest| && rest[k].reqId == r {
      var k :| 0 <= k < |es| && es[k].reqId == r;
      assert rest[k - 1].reqId == r;
    }
  }

  lemma PopQueue(p: Planner)
    requires QueueOk(p) && p.entries != []
    ensures QueueOk(Popped(p)) && p.entries[0].reqId !in Popped(p).byReq
  {
    hide Contiguous, Indexed;
    PopContiguous(p.entries);
    PopIndexed(p.entries, p.byReq);
  }

  lemma {:induction false} RetireKeepsStaged(p: Planner, now: real, r: ReqId)
    ensures r in p.staged ==> r in Retire(p, now).staged
    ensures r !in p.byReq ==> r !in Retire(p, now).byReq
    decreases |p.entries|
  {
    if p.entries != [] && p.entries[0].endsAt <= now {
      var e := p.entries[0];
      RetireKeepsStaged(p.(entries := p.entries[1..], byReq := p.byReq - {e.reqId}, staged := p.staged[e.reqId := 0]), now, r);
    }
  }

  /** Retired and cleaned up: the queue is in order, current, and had begun if the clock did not run back. */
  lemma PrepareQueue(p: Planner, now: real, ids: set<ReqId>)
    requires QueueOk(p)
    ensures QueueOk(Prepare(p, now, ids)) && Current(Prepare(p, now, ids).entries, now)
    ensures Begun(p.entries, now) ==> Begun(Prepare(p, now, ids).entries, now)
  {
    hide Retire, QueueOk;
    var n := RetireExact(p, now);
    var es := Retire(p, now).entries;
    OtherFieldsIrrelevant(Retire(p, now));
    if es != [] {
      assert es[|es| - 1] == p.entries[|p.entries| - 1];
      if Begun(p.entries, now) && n > 0 {
        PreviousEnd(p, n);
      }
    }
  }

  lemma PreviousEnd(p: Planner, n: nat)
    requires QueueOk(p) && 0 < n < |p.entries|
    ensures p.entries[n].startsAt == p.entries[n - 1].endsAt
  {
  }

  lemma ServiceNonnegative(cfg: Config, n: int)
    requires cfg.tables.Valid()
    ensures cfg.tables.ServiceSOf(n) >= 0.0
  {
  }

  predicate SameQueue(p: Planner, q: Planner) {
    p.entries == q.entries && p.byReq == q.byReq
  }

  /** A step leaves the queue alone or puts one read behind it, for a request that had none. */
  lemma StepQueueShape(cfg: Config, now: real, s: Call, c: Candidate)
    requires cfg.tables.Valid()
    ensures var q := PlanOne(cfg, now, s, c).p;
      || SameQueue(q, s.p)
      || (c.reqId !in s.p.byReq
          && SameQueue(q, Enqueue(s.p, c.reqId, Service(cfg, DistinctCount(c.hashes, s.stagedAt)), now, c.loadBlocks)))
  {
    hide Take, DistinctCount, CoveredReady, Record, RecomputeWins, StorageDone, Service, Grace;
    RecordKeepsPlanner();
  }

  lemma StepQueue(cfg: Config, now: real, s: Call, c: Candidate)
    requires cfg.tables.Valid() && QueueOk(s.p) && Current(s.p.entries, now)
    ensures var q := PlanOne(cfg, now, s, c).p;
      && QueueOk(q) && Current(q.entries, now)
      && (Begun(s.p.entries, now) ==> Begun(q.entries, now))
  {
    hide PlanOne, QueueOk, Current, Begun, Enqueue;
    StepQueueShape(cfg, now, s, c);
    var d := DistinctCount(c.hashes, s.stagedAt);
    ServiceNonnegative(cfg, d);
    OtherFieldsIrrelevant(s.p);
    if c.reqId !in s.p.byReq {
      var q := Enqueue(s.p, c.reqId, Service(cfg, d), now, c.loadBlocks);
      AppendQueue(s.p, c.reqId, Service(cfg, d), now, c.loadBlocks);
      OtherFieldsIrrelevant(q);
    }
  }

  lemma RecordKeepsPlanner()
    ensures forall s: Call, hs, a, b :: Record(s, hs, a, b).p == s.p
  {
  }

  /** Only the queue and its index matter. */
  lemma OtherFieldsIrrelevant(p: Planner)
    ensures forall q: Planner :: SameQueue(q, p) ==> (QueueOk(q) <==> QueueOk(p))
  {
  }

  lemma {:induction false} PrefixQueue(cfg: Config, qs: seq<Request>, a: nat, n: nat)
    requires cfg.tables.Valid() && a < |qs| && n <= |qs[a].candidates|
    requires QueueOk(Run(cfg, EMPTY_PLANNER, qs[..a]))
    ensures var p, now := Before(cfg, qs, a, n).p, qs[a].now;
      && QueueOk(p) && Current(p.entries, now)
      && (Begun(Run(cfg, EMPTY_PLANNER, qs[..a]).entries, now) ==> Begun(p.entries, now))
  {
    hide PlanOne, StartCall, Run, PlanPrefix, Before, QueueOk, Current, Begun, Prepare, Ids;
    if n == 0 {
      FirstPlanner(cfg, qs, a);
      PrepareQueue(Run(cfg, EMPTY_PLANNER, qs[..a]), qs[a].now, Ids(qs[a].candidates));
    } else {
      PrefixQueue(cfg, qs, a, n - 1);
      BeforeNext(cfg, qs, a, n - 1);
      StepQueue(cfg, qs[a].now, Before(cfg, qs, a, n - 1), qs[a].candidates[n - 1]);
    }
  }

  lemma FirstPlanner(cfg: Config, qs: seq<Request>, a: nat)
    requires cfg.tables.Valid() && a < |qs|
    ensures Before(cfg, qs, a, 0).p == Prepare(Run(cfg, EMPTY_PLANNER, qs[..a]), qs[a].now, Ids(qs[a].candidates))
  {
    hide Run, Ids, Prepare, Residual, JobsFloor;
  }

  /** After any calls, whatever the clock did: consecutive reads are contiguous, there is one read per
      request, and the index agrees with the queue. With a clock that never runs back, the front read
      began no later than the last call. */
  lemma {:induction false} QueueAlwaysOk(cfg: Config, qs: seq<Request>)
    requires cfg.tables.Valid()
    ensures QueueOk(Run(cfg, EMPTY_PLANNER, qs))
    ensures qs != [] && Monotone(qs) ==> Begun(Run(cfg, EMPTY_PLANNER, qs).entries, qs[|qs| - 1].now)
  {
    hide Before, PlanCall, QueueOk, Contiguous;
    if qs == [] {
      EmptyQueue();
    } else {
      var a := |qs| - 1;
      QueueAlwaysOk(cfg, qs[..a]);
      PrefixQueue(cfg, qs, a, |qs[a].candidates|);
      assert qs[..a + 1] == qs;
      RunIsLastPrefix(cfg, qs, a);
    }
  }

  lemma EmptyQueue()
    ensures QueueOk(EMPTY_PLANNER)
  {
  }

  /** Seconds of reading `e` still to be done at `now`. */
  function Remaining(e: Staging, now: real): real {
    Max(0.0, e.endsAt - Max(e.startsAt, now))
  }

  function TotalRemaining(es: seq<Staging>, now: real): real {
    if es == [] then 0.0 else TotalRemaining(es[..|es| - 1], now) + Remaining(es[|es| - 1], now)
  }

  lemma {:induction false} ResidualIsTotal(es: seq<Staging>, now: real)
    requires Contiguous(es) && Begun(es, now)
    ensures TotalRemaining(es, now) == if es == [] then 0.0 else Max(0.0, es[|es| - 1].endsAt - now)
  {
    if es != [] {
      var front := es[..|es| - 1];
      ResidualIsTotal(front, now);
      assert WellTimed(es[|es| - 1]);
    }
  }

  /** The residual a call prices with, taken from the last read alone, is the reading left in the whole queue. */
  lemma ResidualExact(cfg: Config, qs: seq<Request>, a: nat, i: nat)
    requires cfg.tables.Valid() && Monotone(qs) && a < |qs| && i <= |qs[a].candidates|
    ensures var p := Before(cfg, qs, a, i).p;
      Residual(p, qs[a].now) == TotalRemaining(p.entries, qs[a].now)
  {
    hide Before, Run, QueueOk;
    var past := qs[..a];
    assert Monotone(past);
    QueueAlwaysOk(cfg, past);
    RunOfNothing(cfg);
    if a > 0 { assert past[|past| - 1].now <= qs[a].now; }
    PrefixQueue(cfg, qs, a, i);
    QueueContiguous(Before(cfg, qs, a, i).p);
    ResidualIsTotal(Before(cfg, qs, a, i).p.entries, qs[a].now);
  }

  lemma RunOfNothing(cfg: Config)
    requires cfg.tables.Valid()
    ensures Run(cfg, EMPTY_PLANNER, []) == EMPTY_PLANNER
  {
  }

  lemma QueueContiguous(p: Planner)
    requires QueueOk(p)
    ensures Contiguous(p.entries)
  {
  }

  // ---------- Budget, deliveries and free riding ----------

  predicate DistinctHashes(cs: seq<Candidate>) {
    forall i :: 0 <= i < |cs| ==> Keys.Distinct(cs[i].hashes)
  }

  /** Candidate handled by this step gets a new read in the queue. */
  predicate Schedules(s: Call, s': Call, c: Candidate) {
    c.reqId !in s.p.byReq && c.reqId in s'.p.byReq
  }

  /** Hashes of `hashes` that no recorded read delivers yet. */
  function Uncovered(hashes: seq<BlockHash>, stagedAt: map<BlockHash, real>): set<BlockHash> {
    set h | h in hashes && h !in stagedAt
  }

  lemma {:induction false} DistinctCountIsUncovered(hashes: seq<BlockHash>, stagedAt: map<BlockHash, real>)
    requires Keys.Distinct(hashes)
    ensures DistinctCount(hashes, stagedAt) == |Uncovered(hashes, stagedAt)|
  {
    hide Keys.Distinct, Uncovered;
    if hashes == [] {
      assert Uncovered([], stagedAt) == {} by { NothingUncovered(stagedAt); }
    } else {
      var front, last := hashes[..|hashes| - 1], hashes[|hashes| - 1];
      UncoveredLast(hashes, stagedAt);
      DistinctCountIsUncovered(front, stagedAt);
    }
  }

  lemma NothingUncovered(stagedAt: map<BlockHash, real>)
    ensures Uncovered([], stagedAt) == {}
  {
  }

  lemma UncoveredLast(hashes: seq<BlockHash>, stagedAt: map<BlockHash, real>)
    requires hashes != [] && Keys.Distinct(hashes)
    ensures var front, last := hashes[..|hashes| - 1], hashes[|hashes| - 1];
      && Keys.Distinct(front)
      && last !in Uncovered(front, stagedAt)
      && Uncovered(hashes, stagedAt) == Uncovered(front, stagedAt) + if last in stagedAt then {} else {last}
  {
  }

  /** Hashes that the reads newly scheduled by the first `n` candidates fetch, and that nothing covered before. */
  function FreshHashes(cfg: Config, now: real, start: Call, cs: seq<Candidate>, n: nat): set<BlockHash>
    requires cfg.tables.Valid() && n <= |cs|
  {
    if n == 0 then {}
    else
      var s := PlanPrefix(cfg, now, start, cs, n - 1);
      FreshHashes(cfg, now, start, cs, n - 1)
      + if Schedules(s, PlanOne(cfg, now, s, cs[n - 1]), cs[n - 1]) then Uncovered(cs[n - 1].hashes, s.stagedAt) else {}
  }

  /** Keeping the earliest delivery only adds hashes and only moves deliveries forward. */
  lemma {:induction false} EarliestGrows(m: map<BlockHash, real>, ds: seq<(BlockHash, real)>)
    ensures forall h :: h in m ==> h in Earliest(m, ds) && Earliest(m, ds)[h] <= m[h]
    ensures forall i :: 0 <= i < |ds| ==> ds[i].0 in Earliest(m, ds) && Earliest(m, ds)[ds[i].0] <= ds[i].1
  {
    if ds != [] { EarliestGrows(m, ds[..|ds| - 1]); }
  }

  /** Each remembered time is the old one or that of some delivery. */
  lemma {:induction false} EarliestAttained(m: map<BlockHash, real>, ds: seq<(BlockHash, real)>, h: BlockHash)
    requires h in Earliest(m, ds)
    ensures (h in m && Earliest(m, ds)[h] == m[h]) || (h, Earliest(m, ds)[h]) in ds
  {
    if ds != [] {
      var front := ds[..|ds| - 1];
      if h in Earliest(m, front) { EarliestAttained(m, front, h); }
      if Earliest(m, ds) != Earliest(m, front) && h == ds[|ds| - 1].0 {
        assert ds[|ds| - 1] == (h, Earliest(m, ds)[h]);
      }
    }
  }

  lemma {:induction false} EarliestConcat(m: map<BlockHash, real>, a: seq<(BlockHash, real)>, b: seq<(BlockHash, real)>)
    ensures Earliest(m, a + b) == Earliest(Earliest(m, a), b)
  {
    if b == [] {
      assert a + b == a;
    } else {
      assert (a + b)[..|a + b| - 1] == a + b[..|b| - 1];
      EarliestConcat(m, a, b[..|b| - 1]);
    }
  }

  /** The remembered deliveries are unchanged exactly when every new one is for a known hash and no earlier. */
  lemma UnchangedIffLate(m: map<BlockHash, real>, ds: seq<(BlockHash, real)>)
    ensures Earliest(m, ds) == m <==> forall i :: 0 <= i < |ds| ==> ds[i].0 in m && m[ds[i].0] <= ds[i].1
  {
    EarliestGrows(m, ds);
    if forall i :: 0 <= i < |ds| ==> ds[i].0 in m && m[ds[i].0] <= ds[i].1 {
      var e := Earliest(m, ds);
      forall h | h in e ensures h in m && e[h] == m[h] {
        EarliestAttained(m, ds, h);
      }
      assert e == m;
    }
  }

  /** Blocks of a read are delivered in order, none before its start, the last one at its end. */
  lemma DeliveriesSpread(hashes: seq<BlockHash>, start: real, end: real)
    ensures var ds := Deliveries(hashes, start, end);
      && |ds| == |hashes|
      && (forall i :: 0 <= i < |ds| ==> ds[i].0 == hashes[i] && start <= ds[i].1 <= Max(start, end))
      && (forall i, j :: 0 <= i <= j < |ds| ==> ds[i].1 <= ds[j].1)
      && (ds != [] ==> ds[|ds| - 1].1 == Max(start, end))
  {
    hide ReadyAt;
    var span, n := Max(0.0, end - start), |hashes|;
    forall i, j | 0 <= i <= j < n
      ensures start <= ReadyAt(start, span, i, n) <= ReadyAt(start, span, j, n) <= Max(start, end)
    {
      ReadyInOrder(start, span, i, j, n);
    }
    if n > 0 { ReadyInOrder(start, span, n - 1, n - 1, n); }
  }

  lemma ReadyInOrder(start: real, span: real, i: nat, j: nat, total: nat)
    requires span >= 0.0 && i <= j < total
    ensures start <= ReadyAt(start, span, i, total) <= ReadyAt(start, span, j, total) <= start + span
    ensures j == total - 1 ==> ReadyAt(start, span, j, total) == start + span
  {
    hide ReadyAt, Share;
    ReadyIsShare(start, span, i, total);
    ReadyIsShare(start, span, j, total);
    ShareInOrder(span, 0, i + 1, total);
    ShareInOrder(span, i + 1, j + 1, total);
    ShareInOrder(span, j + 1, total, total);
  }

  function Share(span: real, i: nat, total: nat): real
    requires total > 0
  {
    span * (i as real) / (total as real)
  }

  lemma ReadyIsShare(start: real, span: real, i: nat, total: nat)
    requires i < total
    ensures ReadyAt(start, span, i, total) == start + Share(span, i + 1, total)
  {
  }

  lemma ShareInOrder(span: real, i: nat, j: nat, total: nat)
    requires span >= 0.0 && i <= j && total > 0
    ensures Share(span, i, total) <= Share(span, j, total)
    ensures Share(span, 0, total) == 0.0 && Share(span, total, total) == span
  {
    var low, high, n := span * (i as real), span * (j as real), total as real;
    assert low <= high by { assert span * ((j - i) as real) >= 0.0; }
    assert low / n <= high / n;
  }

  /** What a step does to the budget, the covered hashes and the recorded deliveries. */
  lemma StepBudget(cfg: Config, now: real, s: Call, c: Candidate)
    requires cfg.tables.Valid()
    ensures var s' := PlanOne(cfg, now, s, c);
      var d := DistinctCount(c.hashes, s.stagedAt);
      s'.budget == s.budget - if Schedules(s, s', c) then d else 0
    ensures var s' := PlanOne(cfg, now, s, c); s.budget >= 0 ==> s'.budget >= 0
  {
    hide Take, DistinctCount, CoveredReady, RecomputeWins, StorageDone, Service, Grace, NewEntry, Deliveries, Earliest;
  }

  /** `ds` is one read of the first blocks of `hashes`. */
  predicate IsRead(ds: seq<(BlockHash, real)>, hashes: seq<BlockHash>) {
    |ds| <= |hashes| && forall i :: 0 <= i < |ds| ==> ds[i].0 == hashes[i]
  }

  /** `s'` has recorded exactly the deliveries `ds` more than `s`. */
  predicate Records(s: Call, s': Call, ds: seq<(BlockHash, real)>) {
    s'.deliveries == s.deliveries + ds && s'.stagedAt == Earliest(s.stagedAt, ds)
  }

  /** Every step records one read, perhaps empty, of the candidate's blocks; a newly scheduled one reads all. */
  lemma StepDeliveries(cfg: Config, now: real, s: Call, c: Candidate) returns (ds: seq<(BlockHash, real)>)
    requires cfg.tables.Valid()
    ensures Records(s, PlanOne(cfg, now, s, c), ds) && IsRead(ds, c.hashes)
    ensures Schedules(s, PlanOne(cfg, now, s, c), c) ==> |ds| == |c.hashes|
  {
    hide DistinctCount, CoveredReady, RecomputeWins, StorageDone, Service, Grace, NewEntry, ReadyAt, Earliest;
    var s' := PlanOne(cfg, now, s, c);
    ds := s'.deliveries[|s.deliveries|..];
    NothingRecorded(s);
    if c.blockedOnStore || c.loadBlocks > 0 {
      assert s'.deliveries == s.deliveries + ds;
    }
  }

  lemma NothingRecorded(s: Call)
    ensures Earliest(s.stagedAt, []) == s.stagedAt && s.deliveries + [] == s.deliveries
  {
  }

  /** Covered hashes stay covered, and a newly scheduled read covers all of its own. */
  lemma StepCovers(cfg: Config, now: real, s: Call, c: Candidate)
    requires cfg.tables.Valid()
    ensures var s' := PlanOne(cfg, now, s, c);
      && s.stagedAt.Keys <= s'.stagedAt.Keys
      && (Schedules(s, s', c) ==> Uncovered(c.hashes, s.stagedAt) <= s'.stagedAt.Keys)
  {
    hide PlanOne, Schedules;
    var ds := StepDeliveries(cfg, now, s, c);
    EarliestGrows(s.stagedAt, ds);
    if Schedules(s, PlanOne(cfg, now, s, c), c) {
      forall h | h in c.hashes ensures h in Earliest(s.stagedAt, ds) {
        var i :| 0 <= i < |c.hashes| && c.hashes[i] == h;
        assert ds[i].0 == h;
      }
    }
  }

  /** The budget pays for exactly the hashes that newly scheduled reads are the first to cover, and it
      never runs out: at most `maxPreloadSlots` of them in one call. */
  lemma {:induction false} BudgetPaysForFreshHashes(cfg: Config, now: real, start: Call, cs: seq<Candidate>, n: nat)
    requires cfg.tables.Valid() && n <= |cs| && DistinctHashes(cs)
    requires start.budget == cfg.maxPreloadSlots
    ensures var s := PlanPrefix(cfg, now, start, cs, n);
      && |FreshHashes(cfg, now, start, cs, n)| == cfg.maxPreloadSlots - s.budget <= cfg.maxPreloadSlots
      && FreshHashes(cfg, now, start, cs, n) <= s.stagedAt.Keys
  {
    hide PlanOne, Schedules, DistinctCount, Uncovered;
    if n > 0 {
      BudgetPaysForFreshHashes(cfg, now, start, cs, n - 1);
      var s, c := PlanPrefix(cfg, now, start, cs, n - 1), cs[n - 1];
      StepBudget(cfg, now, s, c);
      StepCovers(cfg, now, s, c);
      DistinctCountIsUncovered(c.hashes, s.stagedAt);
      UncoveredIsNew(c.hashes, s.stagedAt);
    }
  }

  lemma UncoveredIsNew(hashes: seq<BlockHash>, stagedAt: map<BlockHash, real>)
    ensures Uncovered(hashes, stagedAt) !! stagedAt.Keys
  {
  }

  /** `stagedAt` is, for every hash of any recorded read, the earliest of its recorded deliveries. */
  predicate EarliestOf(stagedAt: map<BlockHash, real>, ds: seq<(BlockHash, real)>) {
    && (forall i :: 0 <= i < |ds| ==> ds[i].0 in stagedAt && stagedAt[ds[i].0] <= ds[i].1)
    && (forall h :: h in stagedAt ==> (h, stagedAt[h]) in ds)
  }

  lemma {:induction false} StagedAtIsEarliest(cfg: Config, now: real, start: Call, cs: seq<Candidate>, n: nat)
    requires cfg.tables.Valid() && n <= |cs|
    requires start.stagedAt == map[] && start.deliveries == []
    ensures var s := PlanPrefix(cfg, now, start, cs, n);
      s.stagedAt == Earliest(map[], s.deliveries) && EarliestOf(s.stagedAt, s.deliveries)
  {
    hide PlanOne;
    if n > 0 {
      StagedAtIsEarliest(cfg, now, start, cs, n - 1);
      var s := PlanPrefix(cfg, now, start, cs, n - 1);
      var ds := StepDeliveries(cfg, now, s, cs[n - 1]);
      EarliestConcat(map[], s.deliveries, ds);
    }
    IsEarliest(PlanPrefix(cfg, now, start, cs, n).deliveries);
  }

  lemma IsEarliest(ds: seq<(BlockHash, real)>)
    ensures EarliestOf(Earliest(map[], ds), ds)
  {
    EarliestGrows(map[], ds);
    forall h | h in Earliest(map[], ds) ensures (h, Earliest(map[], ds)[h]) in ds { EarliestAttained(map[], ds, h); }
  }

  /** One whole planning call: the budget, and the delivery times it priced with. */
  lemma CallBudget(cfg: Config, p: Planner, q: Request)
    requires cfg.tables.Valid() && DistinctHashes(q.candidates)
    ensures var start := StartCall(cfg, p, q.now, Ids(q.candidates), q.outstanding);
      |FreshHashes(cfg, q.now, start, q.candidates, |q.candidates|)| <= cfg.maxPreloadSlots
    ensures EarliestOf(PlanCall(cfg, p, q).stagedAt, PlanCall(cfg, p, q).deliveries)
    ensures PlanCall(cfg, p, q).budget >= 0
  {
    hide PlanOne, Prepare, Residual, JobsFloor, FreshHashes, PlanPrefix, EarliestOf, Ids;
    var start := StartCall(cfg, p, q.now, Ids(q.candidates), q.outstanding);
    BudgetPaysForFreshHashes(cfg, q.now, start, q.candidates, |q.candidates|);
    StagedAtIsEarliest(cfg, q.now, start, q.candidates, |q.candidates|);
    BudgetNonnegative(cfg, q.now, start, q.candidates, |q.candidates|);
  }

  lemma {:induction false} BudgetNonnegative(cfg: Config, now: real, start: Call, cs: seq<Candidate>, n: nat)
    requires cfg.tables.Valid() && n <= |cs| && start.budget >= 0
    ensures PlanPrefix(cfg, now, start, cs, n).budget >= 0
  {
    hide PlanOne;
    if n > 0 {
      BudgetNonnegative(cfg, now, start, cs, n - 1);
      StepBudget(cfg, now, PlanPrefix(cfg, now, start, cs, n - 1), cs[n - 1]);
    }
  }

  /** The covered-ready time is no earlier than the delivery of any covered hash, and is one of them. */
  lemma {:induction false} CoveredReadyIsLatest(hashes: seq<BlockHash>, stagedAt: map<BlockHash, real>)
    ensures forall h :: h in hashes && h in stagedAt ==> stagedAt[h] <= CoveredReady(hashes, stagedAt)
    ensures DistinctCount(hashes, stagedAt) < |hashes| ==>
      exists h :: h in hashes && h in stagedAt && stagedAt[h] == CoveredReady(hashes, stagedAt)
    ensures DistinctCount(hashes, stagedAt) == |hashes| ==>
      CoveredReady(hashes, stagedAt) == 0.0 && forall h :: h in hashes ==> h !in stagedAt
  {
    if hashes != [] {
      var front, last := hashes[..|hashes| - 1], hashes[|hashes| - 1];
      CoveredReadyIsLatest(front, stagedAt);
      assert forall h :: h in hashes <==> h in front || h == last;
    }
  }

  lemma {:induction false} AllCovered(hashes: seq<BlockHash>, stagedAt: map<BlockHash, real>)
    ensures DistinctCount(hashes, stagedAt) == 0 <==> forall h :: h in hashes ==> h in stagedAt
  {
    if hashes != [] {
      var front, last := hashes[..|hashes| - 1], hashes[|hashes| - 1];
      AllCovered(front, stagedAt);
      assert forall h :: h in hashes <==> h in front || h == last;
    }
  }

  /** Free riding: a request without a modelled read whose blocks are all on their way is deferred
      without spending budget, lengthening the queue or changing any delivery. */
  lemma FreeRiding(cfg: Config, now: real, s: Call, c: Candidate)
    requires cfg.tables.Valid() && !c.blockedOnStore && c.reqId !in s.p.byReq
    requires forall h :: h in c.hashes ==> h in s.stagedAt
    requires Latest(PlanOne(cfg, now, s, c).results).decision == Defer
    ensures var s' := PlanOne(cfg, now, s, c);
      s'.budget == s.budget && s'.storageWait == s.storageWait && s'.stagedAt == s.stagedAt
  {
    AllCovered(c.hashes, s.stagedAt);
    CoveredReadyIsLatest(c.hashes, s.stagedAt);
    var ready := CoveredReady(c.hashes, s.stagedAt);
    var at := Max(s.storageWait, ready);
    DeliveriesSpread(c.hashes, at, at);
    UnchangedIffLate(s.stagedAt, Deliveries(c.hashes, at, at));
    assert s.storageWait + 0.0 == s.storageWait;
    hide DistinctCount, CoveredReady, RecomputeWins, StorageDone, Grace, NewEntry, Deliveries, Earliest;
  }

  /** Repeating the DEFER of a request whose read is in the queue charges nothing either, and changes
      no delivery exactly when its own modelled read delivers nothing new and nothing earlier. */
  lemma OutstandingRiding(cfg: Config, now: real, s: Call, c: Candidate)
    requires cfg.tables.Valid() && c.reqId in s.p.byReq
    requires Latest(PlanOne(cfg, now, s, c).results).decision == Defer
    ensures var s', e := PlanOne(cfg, now, s, c), s.p.byReq[c.reqId];
      var ds := Deliveries(Take(c.hashes, e.emitted), Max(0.0, e.startsAt - now), Max(0.0, e.endsAt - now));
      && s'.budget == s.budget && s'.storageWait == s.storageWait
      && (s'.stagedAt == s.stagedAt <==> forall i :: 0 <= i < |ds| ==> ds[i].0 in s.stagedAt && s.stagedAt[ds[i].0] <= ds[i].1)
  {
    var e := s.p.byReq[c.reqId];
    var ds := Deliveries(Take(c.hashes, e.emitted), Max(0.0, e.startsAt - now), Max(0.0, e.endsAt - now));
    UnchangedIffLate(s.stagedAt, ds);
    hide DistinctCount, CoveredReady, RecomputeWins, StorageDone, Grace, NewEntry, Deliveries, Earliest;
  }

  /** The request's own modelled read, if it has one, delivers nothing earlier than is expected already. */
  predicate OwnReadNoEarlier(now: real, s: Call, c: Candidate) {
    c.reqId in s.p.byReq ==>
      var e := s.p.byReq[c.reqId];
      var ds := Deliveries(Take(c.hashes, e.emitted), Max(0.0, e.startsAt - now), Max(0.0, e.endsAt - now));
      forall i :: 0 <= i < |ds| ==> ds[i].0 in s.stagedAt && s.stagedAt[ds[i].0] <= ds[i].1
  }

  /** Free riding, exactly: an unblocked DEFER whose hashes are all covered never spends budget or lengthens the
      queue, and changes no expected delivery if and only if the request's own read is not the earlier one. */
  lemma CoveredDefer(cfg: Config, now: real, s: Call, c: Candidate)
    requires cfg.tables.Valid() && !c.blockedOnStore && forall h :: h in c.hashes ==> h in s.stagedAt
    requires Latest(PlanOne(cfg, now, s, c).results).decision == Defer
    ensures var s' := PlanOne(cfg, now, s, c);
      && s'.budget == s.budget && s'.storageWait == s.storageWait
      && (s'.stagedAt == s.stagedAt <==> OwnReadNoEarlier(now, s, c))
  {
    hide PlanOne, Take, Deliveries;
    if c.reqId in s.p.byReq { OutstandingRiding(cfg, now, s, c); } else { FreeRiding(cfg, now, s, c); }
  }

  // ---------- When the storage wait goes down ----------

  /** The guard of the one branch that can lower `storageWait`: an overdue request whose blocks all
      arrive with other reads, before the queue has drained. */
  predicate OverdueFreeRider(cfg: Config, now: real, s: Call, c: Candidate)
    requires cfg.tables.Valid()
  {
    && !c.blockedOnStore && c.loadBlocks > 0 && !c.dramResident && c.reqId !in s.p.staged && c.reqId !in s.p.byReq
    && !RecomputeWins(cfg, s, c) && PastDeadline(s.p, c.reqId, now)
    && (forall h :: h in c.hashes ==> h in s.stagedAt)
    && CoveredReady(c.hashes, s.stagedAt) < s.storageWait
  }

  /** The modelled storage wait decreases over a candidate exactly for an overdue free rider. */
  lemma WaitDropsIff(cfg: Config, now: real, s: Call, c: Candidate)
    requires cfg.tables.Valid() && s.budget >= 0
    ensures PlanOne(cfg, now, s, c).storageWait < s.storageWait <==> OverdueFreeRider(cfg, now, s, c)
  {
    AllCovered(c.hashes, s.stagedAt);
    ServiceNonnegative(cfg, DistinctCount(c.hashes, s.stagedAt));
    hide DistinctCount, CoveredReady, RecomputeWins, Grace, NewEntry, Deliveries, Earliest;
  }
}
