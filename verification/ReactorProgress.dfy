/** A reactor with nothing outstanding moves on: each unfinished job can start a file. */
module ReactorProgress {
  import opened Outcomes
  import opened OrderedKeys
  import opened ReactorState
  import opened ReactorSlots
  import opened Reactor
  import opened ReactorTokens
  import opened ReactorTheorems
  import opened ReactorGuarantees
  import opened ReactorOutcomes

  // ---------- Events that get somewhere ----------

  /** The event starts a file of some job. */
  predicate Starts(s: State, e: Event) {
    && Enabled(s, e)
    && match e {
         case LoadNext(j, _) => OneMoreFile(s.work, Step(s, e).work, j)
         case StoreNext(j, _) => OneMoreFile(s.work, Step(s, e).work, j)
         case _ => false
       }
  }

  /** The event drops some finished job. */
  predicate Drops(s: State, e: Event) {
    e.Finish? && exists j :: j in s.work.active && Finished(s.work, j)
  }

  /** Some event of the run starts a file or drops a job. */
  ghost predicate Progress(s: State, es: seq<Event>) {
    exists n :: 0 <= n < |es| && IsRun(s, es[..n]) && (Starts(After(s, es[..n]), es[n]) || Drops(After(s, es[..n]), es[n]))
  }

  lemma ProgressNow(s: State, es: seq<Event>, e: Event)
    requires IsRun(s, es) && (Starts(After(s, es), e) || Drops(After(s, es), e))
    ensures Progress(s, es + [e])
  {
    hide IsRun, After, Starts, Drops;
    assert (es + [e])[..|es|] == es && (es + [e])[|es|] == e;
  }

  lemma ProgressStays(s: State, a: seq<Event>, b: seq<Event>)
    requires Progress(s, a)
    ensures Progress(s, a + b)
  {
    hide IsRun, After, Starts, Drops;
    var n :| 0 <= n < |a| && IsRun(s, a[..n]) && (Starts(After(s, a[..n]), a[n]) || Drops(After(s, a[..n]), a[n]));
    assert (a + b)[..n] == a[..n] && (a + b)[n] == a[n];
  }

  lemma ProgressLater(s: State, a: seq<Event>, b: seq<Event>)
    requires IsRun(s, a) && Progress(After(s, a), b)
    ensures Progress(s, a + b)
  {
    hide IsRun, After, Starts, Drops;
    var s1 := After(s, a);
    var n :| 0 <= n < |b| && IsRun(s1, b[..n]) && (Starts(After(s1, b[..n]), b[n]) || Drops(After(s1, b[..n]), b[n]));
    RunConcat(s, a, b[..n]);
    assert (a + b)[..|a| + n] == a + b[..n] && (a + b)[|a| + n] == b[n];
  }

  // ---------- Nothing outstanding ----------

  /** No operation in flight, no open file, no copy queued or under way. */
  predicate Rests(s: State) {
    s.ring.inflight == map[] && s.ring.readyLoad == [] && s.ring.readyPreload == [] && s.ring.copyReady == [] && s.ring.pendingCopies == []
  }

  /** The reactor rounds its settings up to at least this. */
  predicate Positive(cfg: Config) { cfg.slotCount > 0 && cfg.iodepth > 0 && cfg.openLookahead > 0 }

  /** Files may be opened and read, and a slot can be had. */
  predicate Ready(s: State) { CanOpen(s) && HasDataBudget(s) && ReserveForeground(s.slots).1.Some? }

  lemma NoOps(p: Op -> bool)
    ensures OpsIf(map[], p) == {}
  {
  }

  lemma NoneOutstanding(s: State)
    requires Rests(s)
    ensures !Outstanding(s)
  {
  }

  /** With nothing outstanding there is room for everything. */
  lemma RestIsReady(s: State)
    requires Reached(s) && Rests(s) && Positive(s.Cfg())
    ensures Ready(s)
  {
    hide Reached, ReserveForeground, OpsIf, DataOp, OpenOp, IsStoreCopy, Outstanding;
    BudgetsHold(s);
    NoOps(DataOp());
    NoOps(OpenOp());
    NoneOutstanding(s);
    if ReserveForeground(s.slots).1.None? { NoSlotDeadlock(s); }
  }

  lemma FirstWaiter(s: State)
    requires s.waiters != []
    ensures HasWaiter(s, s.waiters[0].hash)
  {
  }

  /** Nobody waits: a waiting file has a preload under way. */
  lemma NobodyWaits(s: State)
    requires Reached(s) && Rests(s)
    ensures s.waiters == []
  {
    hide Reached, HasWaiter, OpsIf, PreloadOp, WaiterCount;
    if s.waiters != [] {
      var h := s.waiters[0].hash;
      FirstWaiter(s);
      NobodyStranded(s, h);
      NoOps(PreloadOp(h));
      WaiterCounts(s.waiters, 0);
    }
  }

  lemma {:induction false} WaiterCounts(ws: seq<FileRef>, i: nat)
    requires i < |ws|
    ensures WaiterCount(ws, ws[i].hash) > 0
  {
    if i < |ws| - 1 { WaiterCounts(ws[..|ws| - 1], i); }
  }

  lemma NoPlaces(s: State, j: JobId)
    requires Rests(s) && s.waiters == []
    ensures PlacesOfJob(s, j) == 0
  {
    hide OpsIf;
    NoOps(OpOfJob(j));
  }

  /** With nothing outstanding each active job is finished or has a file to start. */
  lemma RestingJob(s: State, j: JobId)
    requires Reached(s) && Rests(s) && j in s.work.active
    ensures Finished(s.work, j) || Schedulable(s.work, j)
  {
    hide Reached, PlacesOfJob, CountIf, EndOfJob;
    NobodyWaits(s);
    NoPlaces(s, j);
    ReachedActive(s, j);
    FutureOnce(s, j);
    JobAccounts(s, j);
  }

  lemma ReachedActive(s: State, j: JobId)
    requires Reached(s) && j in s.work.active
    ensures j < |s.work.jobs|
  {
    hide Reached, Total, SlotPart, BudgetsOk, DemandPart, FilesOnce, JobsOk, Distinct;
    ReachedInv(s);
  }

  lemma LoadStarts(s: State, j: JobId, queued: bool)
    requires Schedulable(s.work, j) && !s.work.jobs[j].isStore && (Promotes(s, j) ==> queued) && !LoadStalls(s, j)
    ensures Starts(s, LoadNext(j, queued))
  {
    hide LoadStalls, ScheduleLoad, Promotes, OneMoreFile;
    LoadProgress(s, j, queued);
  }

  lemma StoreStarts(s: State, j: JobId, launched: bool)
    requires Schedulable(s.work, j) && s.work.jobs[j].isStore && HasDataBudget(s) && ReserveForeground(s.slots).1.Some?
    ensures Starts(s, StoreNext(j, launched))
  {
    hide ReserveForeground, ScheduleStore, OneMoreFile;
    StoreProgress(s, j, launched);
  }

  lemma OpenMeansNoStall(s: State, j: JobId)
    requires Unfinished(s.work, j) && CanOpen(s)
    ensures !LoadStalls(s, j)
  {
  }

  /** Whatever the ring or the GPU answers, handling the job starts its next file. */
  ghost predicate MovesOn(s: State, j: JobId) {
    && Schedulable(s.work, j)
    && if s.work.jobs[j].isStore then forall launched :: Starts(s, StoreNext(j, launched))
       else forall queued :: (Promotes(s, j) ==> queued) ==> Starts(s, LoadNext(j, queued))
  }

  /** No stall: with nothing outstanding, every active job is finished or moves on. */
  lemma JobMovesOn(s: State, j: JobId)
    requires Reached(s) && Rests(s) && Positive(s.Cfg()) && j in s.work.active
    ensures Finished(s.work, j) || MovesOn(s, j)
  {
    hide Reached, Rests, ReserveForeground, CanOpen, HasDataBudget, LoadStalls, Promotes, Starts;
    RestIsReady(s);
    RestingJob(s, j);
    if Schedulable(s.work, j) {
      if s.work.jobs[j].isStore {
        forall launched ensures Starts(s, StoreNext(j, launched)) { StoreStarts(s, j, launched); }
      } else {
        OpenMeansNoStall(s, j);
        forall queued | Promotes(s, j) ==> queued ensures Starts(s, LoadNext(j, queued)) { LoadStarts(s, j, queued); }
      }
    }
  }

  // ---------- A turn of the thread ----------

  /** One of the first `k` active jobs, a store or a load, has a file to start. */
  predicate AnyToStart(w: Work, k: nat, stores: bool)
    requires k <= |w.active|
  {
    exists i :: 0 <= i < k && Schedulable(w, w.active[i]) && w.jobs[w.active[i]].isStore == stores
  }

  lemma LoadMove(s0: State, es: seq<Event>, s: State, j: JobId, queued: bool)
    requires IsRun(s0, es) && s == After(s0, es) && Schedulable(s.work, j) && !s.work.jobs[j].isStore && (Promotes(s, j) ==> queued)
    requires es == [] || Progress(s0, es) || !CanOpen(s0)
    ensures CanOpen(s0) ==> Progress(s0, es + [LoadNext(j, queued)])
  {
    hide IsRun, After, Starts, Progress, CanOpen, Promotes, LoadStalls;
    RunNothing(s0);
    if CanOpen(s0) {
      if es == [] {
        OpenMeansNoStall(s, j);
        LoadStarts(s, j, queued);
        ProgressNow(s0, es, LoadNext(j, queued));
      } else {
        ProgressStays(s0, es, [LoadNext(j, queued)]);
      }
    }
  }

  lemma StoreMove(s0: State, es: seq<Event>, s: State, j: JobId, launched: bool)
    requires IsRun(s0, es) && s == After(s0, es) && Schedulable(s.work, j) && s.work.jobs[j].isStore && HasDataBudget(s)
    requires es == [] || Progress(s0, es) || ReserveForeground(s0.slots).1.None?
    ensures ReserveForeground(s0.slots).1.Some? ==> Progress(s0, es + [StoreNext(j, launched)])
  {
    hide IsRun, After, Starts, Progress, HasDataBudget, ReserveForeground;
    RunNothing(s0);
    if ReserveForeground(s0.slots).1.Some? {
      if es == [] {
        StoreStarts(s, j, launched);
        ProgressNow(s0, es, StoreNext(j, launched));
      } else {
        ProgressStays(s0, es, [StoreNext(j, launched)]);
      }
    }
  }

  lemma DropMove(s: State)
    requires exists j :: j in s.work.active && Finished(s.work, j)
    ensures Progress(s, [Finish])
  {
    hide IsRun, After;
    RunNothing(s);
    ProgressNow(s, [], Finish);
    assert [] + [Finish] == [Finish];
  }

  /** A job that is not the one to start has changed nothing yet, or some earlier one has made progress. */
  lemma AnyNext(w: Work, k: nat, stores: bool)
    requires k < |w.active|
    ensures AnyToStart(w, k + 1, stores)
       <==> AnyToStart(w, k, stores) || (Schedulable(w, w.active[k]) && w.jobs[w.active[k]].isStore == stores)
  {
  }

  lemma AnyNone(w: Work, stores: bool)
    ensures !AnyToStart(w, 0, stores)
  {
  }

  /** The turn of the `k`-th active job in a pass. */
  lemma TurnOf(s0: State, es: seq<Event>, more: seq<Event>, k: nat, stores: bool)
    requires IsRun(s0, es) && k < |s0.work.active|
    requires !AnyToStart(s0.work, k, stores) ==> es == [] && After(s0, es) == s0
    requires AnyToStart(s0.work, k, stores) && Ready(s0) ==> Progress(s0, es)
    requires !AnyToStart(s0.work, k, stores) ==>
      var j := s0.work.active[k];
      var toStart := Schedulable(s0.work, j) && s0.work.jobs[j].isStore == stores;
      (!toStart ==> more == []) && (toStart && Ready(s0) ==> Progress(s0, more))
    ensures !AnyToStart(s0.work, k + 1, stores) ==> es + more == []
    ensures AnyToStart(s0.work, k + 1, stores) && Ready(s0) ==> Progress(s0, es + more)
  {
    hide IsRun, After, AnyToStart, Progress, Ready, Schedulable;
    AnyNext(s0.work, k, stores);
    if Ready(s0) {
      if AnyToStart(s0.work, k, stores) {
        ProgressStays(s0, es, more);
      } else if AnyToStart(s0.work, k + 1, stores) {
        ProgressLater(s0, es, more);
      }
    }
  }

  predicate AnyJob(w: Work) {
    AnyToStart(w, |w.active|, false) || AnyToStart(w, |w.active|, true)
  }

  /** One phase after another: progress in the first one stays, and if it did nothing, progress in the second
      one counts from the start. */
  lemma PhasesIf(s0: State, a: seq<Event>, b: seq<Event>)
    requires IsRun(s0, a)
    ensures Progress(s0, a) ==> Progress(s0, a + b)
    ensures After(s0, a) == s0 && Progress(s0, b) ==> Progress(s0, a + b)
  {
    hide IsRun, After, Progress;
    if Progress(s0, a) {
      ProgressStays(s0, a, b);
    } else if After(s0, a) == s0 && Progress(s0, b) {
      ProgressLater(s0, a, b);
    }
  }

  /** With nothing outstanding, an active job lets some job start a file or be dropped. */
  lemma SomeoneMoves(s: State)
    requires Reached(s) && Rests(s) && s.work.active != []
    ensures AnyJob(s.work) || exists j :: j in s.work.active && Finished(s.work, j)
  {
    hide Reached, Rests, Finished, Schedulable;
    var j := s.work.active[0];
    RestingJob(s, j);
    if Schedulable(s.work, j) {
      SchedulableJob(s.work, j);
      assert AnyToStart(s.work, |s.work.active|, s.work.jobs[j].isStore);
    }
  }

  lemma SchedulableJob(w: Work, j: JobId)
    requires Schedulable(w, j)
    ensures j < |w.jobs|
  {
  }

  lemma ProgressMore(s0: State, a: seq<Event>, b: seq<Event>)
    ensures Progress(s0, a) ==> Progress(s0, a + b)
  {
    hide Progress;
    if Progress(s0, a) { ProgressStays(s0, a, b); }
  }

  /** The last phase of a turn: if nothing was started before, it drops a job. */
  lemma LastPhase(s0: State, a: seq<Event>, b: seq<Event>)
    requires IsRun(s0, a) && (Progress(s0, a) || Progress(After(s0, a), b))
    ensures Progress(s0, a + b)
  {
    hide IsRun, After, Progress;
    if Progress(s0, a) { ProgressStays(s0, a, b); } else { ProgressLater(s0, a, b); }
  }
}
