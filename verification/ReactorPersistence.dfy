/** What a failed store leaves behind stays for good. */
module ReactorPersistence {
  import opened Outcomes
  import opened OrderedKeys
  import opened ReactorState
  import opened ReactorSlots
  import opened Reactor
  import opened ReactorFrames
  import opened ReactorTokens
  import opened ReactorRuns
  import opened ReactorTheorems
  import opened ReactorGuarantees
  import opened ReactorOutcomes

  // ---------- One step ----------

  /** The event may end a store of the hash. */
  predicate MayEnd(s: State, e: Event, h: Hash)
    requires Enabled(s, e)
  {
    match e
    case CopyCompletion(k, _, _) => s.ring.pendingCopies[k].StoreCopy? && s.ring.pendingCopies[k].file.hash == h
    case OpCompletion(ud, _, _) => s.ring.inflight[ud].Write? && s.ring.inflight[ud].file.hash == h
    case StoreNext(j, _) => NextFile(s.work, j).hash == h
    case _ => false
  }

  lemma CalmStep(s: State, s': State, h: Hash)
    requires Calm(s, s')
    ensures JobsKept(s.work, s'.work) && StaysParked(s.demand, s'.demand, h)
  {
    hide JobsKept, NoNewStores;
  }

  lemma CopyStep(s: State, k: nat, tempOk: bool, queued: bool)
    requires k < |s.ring.pendingCopies|
    ensures JobsKept(s.work, CopyDone(s, k, tempOk, queued).work)
    ensures s.ring.pendingCopies[k].LoadBatch? ==> CopyDone(s, k, tempOk, queued).demand == s.demand
    ensures s.ring.pendingCopies[k].StoreCopy? ==> StoreStep(s, CopyDone(s, k, tempOk, queued), s.ring.pendingCopies[k].file.hash)
  {
    hide StoreCopyDone, SettleAll, JobsKept, StaysParked;
    var s1 := s.(ring := s.ring.(pendingCopies := RemoveAt(s.ring.pendingCopies, k)));
    match s.ring.pendingCopies[k]
    case StoreCopy(f, x) => StoreCopyDoneStep(s1.(memory := s1.memory[x := f.hash]), f, x, tempOk, queued);
    case LoadBatch(members) => SettledKeeps(s1, members, true);
  }

  lemma WriteStep(s: State, ud: nat, ok: bool, closed: bool)
    requires ud in s.ring.inflight && s.ring.inflight[ud].Write?
    ensures StoreStep(s, OpCompletes(s, ud, ok, closed), s.ring.inflight[ud].file.hash)
  {
    hide WriteDone, JobsKept, StaysParked;
    var s1 := s.(ring := AddData(s.ring.(inflight := s.ring.inflight - {ud}), -1));
    WriteDoneStep(s1, s.ring.inflight[ud].file, s.ring.inflight[ud].slot, ok);
  }

  lemma SameStep(s: State, s': State, h: Hash)
    requires s'.work.jobs == s.work.jobs && s'.demand.blocked == s.demand.blocked
    ensures JobsKept(s.work, s'.work) && StaysParked(s.demand, s'.demand, h)
  {
  }

  /** Jobs keep what they are, failed ones start nothing more, and demand parked on a hash stays parked unless
      the event ends the last store of the hash. */
  lemma StepParks(s: State, e: Event, h: Hash)
    requires Enabled(s, e)
    ensures JobsKept(s.work, Step(s, e).work)
    ensures StaysParked(s.demand, Step(s, e).demand, h) || (MayEnd(s, e, h) && Count(s.demand.storeInflight, h) <= 1)
  {
    hide Calm, JobsKept, StaysParked, IntakePreload, IntakeLoad, IntakeStore, CopyDone, OpCompletes, ScheduleLoad, ScheduleStore, DrainLoadFd,
      DrainPreloadFd, DropCancelled, Speculate, FlushCopies, Promotes, HasDataBudget, RealLoadPressure, CanOpen, PreloadSlotsAvailable, Remaining;
    match e
    case PreloadRequest(r, hs) => IntakePreloadCalm(s, r, hs); SameStep(s, Step(s, e), h);
    case LoadRequest(r, hs, declined) => LoadRequestCalm(s, r, hs, declined); CalmStep(s, Step(s, e), h);
    case StoreRequest(r, hs) => StoreRequestCalm(s, r, hs); CalmStep(s, Step(s, e), h);
    case CopyCompletion(k, tempOk, queued) =>
      CopyStep(s, k, tempOk, queued);
      SameParked(s.demand);
    case OpCompletion(ud, ok, closed) =>
      if s.ring.inflight[ud].Write? {
        WriteStep(s, ud, ok, closed);
      } else {
        OpCompletesCalm(s, ud, ok, closed);
        CalmStep(s, Step(s, e), h);
      }
    case LoadNext(j, queued) => ScheduleLoadCalm(s, j, queued); CalmStep(s, Step(s, e), h);
    case StoreNext(j, launched) => ScheduleStoreStep(s, j, launched);
    case ReadLoadFd(queued, closed) => DrainLoadCalm(s, queued, closed); CalmStep(s, Step(s, e), h);
    case PreloadFd(queued, closed) => DrainPreloadCalm(s, queued, closed); CalmStep(s, Step(s, e), h);
    case CancelledPending => PoppedDemand(s.demand, Info(0, 0)); SameStep(s, Step(s, e), h);
    case SpeculativeOpen(queued) => SpeculateCalm(s, queued); CalmStep(s, Step(s, e), h);
    case Flush(launched) => FlushCalm(s, launched); CalmStep(s, Step(s, e), h);
    case Finish => SameStep(s, Step(s, e), h);
  }

  // ---------- What a failed store has not started ----------

  /** Job `j` is a failed store that has not started one of its files with the hash. */
  predicate LeftBehind(w: Work, j: JobId, h: Hash) {
    && j < |w.jobs| && w.jobs[j].isStore && w.jobs[j].failed
    && exists i :: w.jobs[j].next <= i < |w.jobs[j].hashes| && w.jobs[j].hashes[i] == h
  }

  lemma LeftStays(w: Work, w': Work, j: JobId, h: Hash)
    requires LeftBehind(w, j, h) && JobsKept(w, w')
    ensures LeftBehind(w', j, h)
  {
    assert JobKept(w.jobs[j], w'.jobs[j]);
  }

  lemma LeftUnscheduled(job: Job, h: Hash, i: nat)
    requires job.isStore && job.next <= i < |job.hashes| && job.hashes[i] == h
    ensures UnscheduledIn(job, h) > 0
  {
    hide CountIf;
    var rest := job.hashes[job.next..];
    assert rest[i - job.next] == h;
    CountIfHas(rest, IsHash(h));
  }

  lemma {:induction false} UnscheduledOne(jobs: seq<Job>, h: Hash, j: nat)
    requires j < |jobs| && UnscheduledIn(jobs[j], h) > 0
    ensures Unscheduled(jobs, h) > 0
  {
    hide UnscheduledIn;
    if j < |jobs| - 1 { UnscheduledOne(jobs[..|jobs| - 1], h, j); }
  }

  lemma {:induction false} UnscheduledTwo(jobs: seq<Job>, h: Hash, i: nat, j: nat)
    requires i < j < |jobs| && UnscheduledIn(jobs[i], h) > 0 && UnscheduledIn(jobs[j], h) > 0
    ensures Unscheduled(jobs, h) >= 2
  {
    hide UnscheduledIn;
    if j < |jobs| - 1 { UnscheduledTwo(jobs[..|jobs| - 1], h, i, j); } else { UnscheduledOne(jobs[..j], h, i); }
  }

  lemma UnderWay(s: State, e: Event, h: Hash)
    requires Enabled(s, e) && MayEnd(s, e, h) && !e.StoreNext?
    ensures StoresUnderWay(s.ring, h) > 0
  {
    hide CountIf;
    match e
    case CopyCompletion(k, _, _) => CountIfHas(s.ring.pendingCopies, StoreCopyOf(h));
      assert StoreCopyOf(h)(s.ring.pendingCopies[k]);
    case OpCompletion(ud, _, _) => assert ud in OpsIf(s.ring.inflight, WriteOf(h));
    case _ =>
  }

  /** A store of the hash that ends is not the last one announced. */
  lemma NotTheLast(s: State, e: Event, j: JobId, h: Hash)
    requires Inv(s) && Enabled(s, e) && MayEnd(s, e, h) && LeftBehind(s.work, j, h)
    ensures Count(s.demand.storeInflight, h) >= 2
  {
    hide Inv, Unscheduled, UnscheduledIn, StoresUnderWay, CountIf;
    AnnouncedNow(s, h);
    var i :| s.work.jobs[j].next <= i < |s.work.jobs[j].hashes| && s.work.jobs[j].hashes[i] == h;
    LeftUnscheduled(s.work.jobs[j], h, i);
    if e.StoreNext? {
      LeftUnscheduled(s.work.jobs[e.j], h, s.work.jobs[e.j].next);
      if e.j < j { UnscheduledTwo(s.work.jobs, h, e.j, j); } else { UnscheduledTwo(s.work.jobs, h, j, e.j); }
    } else {
      UnscheduledOne(s.work.jobs, h, j);
      UnderWay(s, e, h);
    }
  }

  lemma LeftMark(s: State, j: JobId, h: Hash)
    requires Inv(s) && LeftBehind(s.work, j, h)
    ensures h in s.demand.storeInflight
  {
    hide Inv, Unscheduled, UnscheduledIn, StoresUnderWay;
    AnnouncedNow(s, h);
    var i :| s.work.jobs[j].next <= i < |s.work.jobs[j].hashes| && s.work.jobs[j].hashes[i] == h;
    LeftUnscheduled(s.work.jobs[j], h, i);
    UnscheduledOne(s.work.jobs, h, j);
  }

  lemma {:induction false} LeftInRun(s: State, es: seq<Event>, j: JobId, h: Hash)
    requires Inv(s) && LeftBehind(s.work, j, h) && IsRun(s, es)
    ensures Inv(After(s, es)) && LeftBehind(After(s, es).work, j, h) && StaysParked(s.demand, After(s, es).demand, h)
    decreases |es|
  {
    hide Inv, Step, Enabled, LeftBehind, JobsKept, StaysParked, MayEnd, IsRun, After;
    RunNothing(s);
    SameParked(s.demand);
    if es != [] {
      var front, e := es[..|es| - 1], es[|es| - 1];
      RunLast(s, es);
      LeftInRun(s, front, j, h);
      var s1 := After(s, front);
      StepKeeps(s1, e);
      StepParks(s1, e, h);
      LeftStays(s1.work, Step(s1, e).work, j, h);
      if MayEnd(s1, e, h) { NotTheLast(s1, e, j, h); }
      ParkedOn(s.demand, s1.demand, Step(s1, e).demand, h);
    }
  }

  lemma ParkedOn(a: Demand, b: Demand, c: Demand, h: Hash)
    requires StaysParked(a, b, h) && StaysParked(b, c, h)
    ensures StaysParked(a, c, h)
  {
  }

  /** Once a store has failed, the files it had not started stay announced for ever: however the run goes on,
      their hashes are marked as being stored, and the demand parked on them stays parked. */
  lemma LeftForEver(s: State, es: seq<Event>, j: JobId, h: Hash)
    requires Reached(s) && LeftBehind(s.work, j, h) && IsRun(s, es)
    ensures var s' := After(s, es);
      && h in s'.demand.storeInflight
      && LeftBehind(s'.work, j, h)
      && (h in s.demand.blocked ==> h in s'.demand.blocked && s.demand.blocked[h] <= s'.demand.blocked[h])
  {
    hide Reached, Inv, IsRun, After, LeftBehind;
    ReachedInv(s);
    LeftInRun(s, es, j, h);
    LeftMark(After(s, es), j, h);
  }
}
