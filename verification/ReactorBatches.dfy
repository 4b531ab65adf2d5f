/** What happens to copies as a batch, and when jobs are dropped. */
module ReactorBatches {
  import opened Outcomes
  import opened OrderedKeys
  import opened ReactorState
  import opened ReactorSlots
  import opened Reactor
  import opened ReactorTokens
  import opened ReactorRuns
  import opened ReactorTheorems
  import opened ReactorGuarantees
  import opened ReactorOutcomes
  import opened ReactorCompletions
  import opened ReactorRetention
  import SC = StagingCache

  // ---------- What a copy gives back ----------

  /** A copy out of slot `x` is over. A cache entry has one reader less. A slot of its own is given back. A shared slot has
      one reader less, and is given back with the last one if nobody can claim it. */
  ghost predicate Settles(z: Slots, z': Slots, c: LoadCopy) {
    var h, x := c.file.hash, c.slot;
    match c.source
    case Cached =>
      z' == z.(cache := z.cache.(slots := if h in z.cache.slots then z.cache.slots[h := z.cache.slots[h].(copies := z.cache.slots[h].copies - 1)]
                                          else z.cache.slots))
    case Owned => GivenBack(z, z', h, x)
    case Shared =>
      if x !in z.shared then z' == z
      else
        var sh := z.shared[x].(copies := z.shared[x].copies - 1);
        if sh.cached || sh.copies > 0 then z' == z.(shared := z.shared[x := sh])
        else GivenBack(z.(shared := z.shared - {x}), z', sh.hash, x)
  }

  lemma SettlesOne(z: Slots, c: LoadCopy)
    requires SC.Agree(z.cache)
    ensures Settles(z, SettleLoadSlot(z, c), c) && SC.Agree(SettleLoadSlot(z, c).cache)
  {
    hide ReleaseOrCache, GivenBack, SC.Agree;
    var h, x := c.file.hash, c.slot;
    GoesBack(z, h, x);
    BackAgrees(z, h, x);
    SC.PinAgrees(z.cache, h, -1);
    if c.source == Shared && x in z.shared {
      var sh := z.shared[x].(copies := z.shared[x].copies - 1);
      assert AddCopies(z, x, -1) == z.(shared := z.shared[x := sh]);
      assert z.shared[x := sh] - {x} == z.shared - {x};
      GoesBack(z.(shared := z.shared - {x}), sh.hash, x);
      BackAgrees(z.(shared := z.shared - {x}), sh.hash, x);
    }
  }

  lemma BackAgrees(z: Slots, h: Hash, x: Slot)
    requires SC.Agree(z.cache)
    ensures SC.Agree(ReleaseOrCache(z, h, x).cache)
  {
    hide SC.Agree, SC.Put;
    SC.PutAgrees(z.cache, h, x);
  }

  /** The copies give back what they hold, one after the other. */
  ghost predicate SettlesAll(z: Slots, z': Slots, cs: seq<LoadCopy>)
    decreases |cs|, 0
  {
    if cs == [] then z' == z else SettlesLast(z, z', cs[..|cs| - 1], cs[|cs| - 1])
  }

  ghost predicate SettlesLast(z: Slots, z': Slots, front: seq<LoadCopy>, c: LoadCopy)
    decreases |front|, 1
  {
    exists m :: SettlesAll(z, m, front) && Settles(m, z', c)
  }

  function Ends(cs: seq<LoadCopy>, ok: bool): seq<FileEnd> { seq(|cs|, i requires 0 <= i < |cs| => FileEnd(cs[i].file, ok)) }

  lemma EndsNext(cs: seq<LoadCopy>, ok: bool)
    requires cs != []
    ensures Ends(cs, ok) == Ends(cs[..|cs| - 1], ok) + [FileEnd(cs[|cs| - 1].file, ok)]
  {
  }

  lemma NoEnds(log: seq<FileEnd>, ok: bool)
    ensures log + Ends([], ok) == log
  {
  }

  lemma {:induction false} Settled(s: State, cs: seq<LoadCopy>, ok: bool)
    requires SC.Agree(s.slots.cache) && forall i :: 0 <= i < |cs| ==> cs[i].file.job < |s.work.jobs|
    ensures var s' := SettleAll(s, cs, ok);
      && s' == s.(work := s'.work, slots := s'.slots)
      && SettlesAll(s.slots, s'.slots, cs) && s'.work.log == s.work.log + Ends(cs, ok) && |s'.work.jobs| == |s.work.jobs|
      && SC.Agree(s'.slots.cache)
    decreases |cs|
  {
    hide SettleAll, SettleLoadSlot, FileTerminal, Settles, Ends, SC.Agree;
    SettleNone(s, ok);
    NoEnds(s.work.log, ok);
    if cs != [] {
      var n := |cs| - 1;
      var s1, c := SettleAll(s, cs[..n], ok), cs[n];
      Settled(s, cs[..n], ok);
      SettleNext(s, cs, n, ok);
      assert cs[..n + 1] == cs;
      SettlesOne(s1.slots, c);
      LoggedFile(s1.work, c.file, ok);
      JobsStay(s1.work, c.file, ok);
      EndsNext(cs, ok);
      assert s.work.log + Ends(cs[..n], ok) + [FileEnd(c.file, ok)] == s.work.log + Ends(cs, ok);
    }
  }

  lemma JobsStay(w: Work, f: FileRef, ok: bool)
    ensures |FileTerminal(w, f, ok).jobs| == |w.jobs|
  {
    hide JobAfter;
  }

  // ---------- Launching ----------

  lemma CopyIsLive(s: State, k: nat)
    requires Reached(s) && k < |s.ring.copyReady|
    ensures s.ring.copyReady[k].file.job < |s.work.jobs|
  {
    hide Reached, CountIf, BatchCount, OpsIf;
    var f := s.ring.copyReady[k].file;
    assert CopyOf(f)(s.ring.copyReady[k]);
    CountIfHas(s.ring.copyReady, CopyOf(f));
    PlacedIsLive(s, f);
  }

  lemma {:induction false} BatchHas(ps: seq<Copy>, k: nat, m: nat, p: LoadCopy -> bool)
    requires k < |ps| && ps[k].LoadBatch? && m < |ps[k].members| && p(ps[k].members[m])
    ensures BatchCount(ps, p) > 0
  {
    if k == |ps| - 1 { CountIfHas(ps[k].members, p); } else { BatchHas(ps[..|ps| - 1], k, m, p); }
  }

  lemma MemberIsLive(s: State, k: nat, m: nat)
    requires Reached(s) && k < |s.ring.pendingCopies| && s.ring.pendingCopies[k].LoadBatch? && m < |s.ring.pendingCopies[k].members|
    ensures s.ring.pendingCopies[k].members[m].file.job < |s.work.jobs|
  {
    hide Reached, CountIf, BatchCount, OpsIf;
    var f := s.ring.pendingCopies[k].members[m].file;
    assert CopyOf(f)(s.ring.pendingCopies[k].members[m]);
    BatchHas(s.ring.pendingCopies, k, m, CopyOf(f));
    PlacedIsLive(s, f);
  }

  /** The queued copies are launched together, in order; if that fails, all of their files have failed, and each gives
      back what it holds. */
  lemma FlushDoes(s: State, launched: bool)
    requires Reached(s) && Enabled(s, Flush(launched))
    ensures var s', cs := Step(s, Flush(launched)), s.ring.copyReady;
      if launched then s' == s.(ring := s.ring.(copyReady := [], pendingCopies := s.ring.pendingCopies + [LoadBatch(cs)]))
      else
        && s' == s.(work := s'.work, slots := s'.slots, ring := s.ring.(copyReady := []))
        && SettlesAll(s.slots, s'.slots, cs) && s'.work.log == s.work.log + Ends(cs, false)
  {
    hide Reached, SettleAll, SettlesAll, Ends, SC.Agree;
    if !launched {
      CacheNow(s);
      forall k | 0 <= k < |s.ring.copyReady| ensures s.ring.copyReady[k].file.job < |s.work.jobs| { CopyIsLive(s, k); }
      Settled(s.(ring := s.ring.(copyReady := [])), s.ring.copyReady, false);
    }
  }

  /** A batch of load copies has ended: all of its files are done, in order, and each copy gives back what it holds. */
  lemma BatchCompletes(s: State, k: nat, tempOk: bool, queued: bool)
    requires Reached(s) && k < |s.ring.pendingCopies| && s.ring.pendingCopies[k].LoadBatch?
    ensures var s', cs := Step(s, CopyCompletion(k, tempOk, queued)), s.ring.pendingCopies[k].members;
      && s' == s.(work := s'.work, slots := s'.slots, ring := s.ring.(pendingCopies := RemoveAt(s.ring.pendingCopies, k)))
      && SettlesAll(s.slots, s'.slots, cs) && s'.work.log == s.work.log + Ends(cs, true)
  {
    hide Reached, SettleAll, SettlesAll, Ends, SC.Agree;
    CacheNow(s);
    var cs := s.ring.pendingCopies[k].members;
    forall m | 0 <= m < |cs| ensures cs[m].file.job < |s.work.jobs| { MemberIsLive(s, k, m); }
    Settled(s.(ring := s.ring.(pendingCopies := RemoveAt(s.ring.pendingCopies, k))), cs, true);
  }

  // ---------- Dropping jobs ----------

  /** The job's future is resolved and none of its files is under way. */
  predicate Over(s: State, j: JobId) { j < |s.work.jobs| && s.work.jobs[j].outcomes != [] && PlacesOfJob(s, j) == 0 }

  /** The jobs that are not over, in order. */
  function Going(s: State, active: seq<JobId>): seq<JobId> {
    if active == [] then [] else (if Over(s, active[0]) then [] else [active[0]]) + Going(s, active[1..])
  }

  lemma {:induction false} GoingLast(s: State, active: seq<JobId>, j: JobId)
    ensures Going(s, active + [j]) == Going(s, active) + if Over(s, j) then [] else [j]
  {
    hide Over;
    if active == [] {
      assert [j][1..] == [];
    } else {
      assert (active + [j])[1..] == active[1..] + [j];
      GoingLast(s, active[1..], j);
    }
  }

  lemma OverIs(s: State, j: JobId)
    requires Reached(s) && j in s.work.active
    ensures Over(s, j) <==> Finished(s.work, j)
  {
    hide Reached, Inv, PlacesOfJob, CountIf, Total;
    ReachedInv(s);
    ActiveNow(s, j);
    JobAccounts(s, j);
    JobCount(s, j);
    var outcomes := s.work.jobs[j].outcomes;
    if outcomes != [] { OneOutcome(outcomes); }
  }

  lemma OneOutcome(outcomes: seq<Outcome>)
    requires |outcomes| == 1
    ensures outcomes == [Succeeded] || outcomes == [Failed] || outcomes == [Declined]
  {
    assert outcomes == [outcomes[0]];
    var o := outcomes[0];
    assert o.Succeeded? || o.Failed? || o.Declined?;
  }

  lemma ActiveNow(s: State, j: JobId)
    requires Inv(s) && j in s.work.active
    ensures j < |s.work.jobs| && s.work.jobs[j].outcomes != [Declined]
  {
    hide Total, SlotPart, BudgetsOk, DemandPart, FilesOnce, JobsOk, Distinct;
  }

  lemma {:induction false} RemainingIs(s: State, active: seq<JobId>)
    requires Reached(s) && forall j :: j in active ==> j in s.work.active
    ensures Remaining(s.work, active) == Going(s, active)
  {
    hide Reached, Over, Finished;
    if active != [] {
      var front, j := active[..|active| - 1], active[|active| - 1];
      RemainingIs(s, front);
      OverIs(s, j);
      assert active == front + [j];
      GoingLast(s, front, j);
    }
  }

  /** Exactly the jobs that are over are dropped from the active ones; the others keep their order. */
  lemma FinishDoes(s: State)
    requires Reached(s)
    ensures Step(s, Finish) == s.(work := s.work.(active := Going(s, s.work.active)))
  {
    hide Reached, Going, Remaining;
    RemainingIs(s, s.work.active);
  }
}
