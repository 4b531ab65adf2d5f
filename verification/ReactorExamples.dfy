/** Short runs of the reactor that reach the situations its exceptions are about. */
module ReactorExamples {
  import opened Outcomes
  import opened OrderedKeys
  import opened ReactorState
  import opened ReactorSlots
  import opened Reactor
  import opened ReactorRuns
  import opened ReactorTheorems
  import opened ReactorGuarantees
  import opened ReactorOutcomes
  import SC = StagingCache

  lemma TwoEvents(s: State, a: Event, b: Event)
    requires Enabled(s, a) && Enabled(Step(s, a), b)
    ensures IsRun(s, [a, b]) && After(s, [a, b]) == Step(Step(s, a), b)
  {
    hide Enabled, Step, IsRun, After;
    RunNothing(s);
    RunAppend(s, [], a);
    assert [] + [a] == [a];
    RunAppend(s, [a], b);
    assert [a] + [b] == [a, b];
  }

  // ---------- A promotion ----------

  /** One request prefetches a block, and a load by another request comes before its file is opened. */
  function Overtaken(r: ReqId, r2: ReqId, h: Hash): seq<Event> {
    [PreloadRequest(r, [h]), LoadRequest(r2, [h], false)]
  }

  lemma Demanded(cfg: Config, cache: SC.Cache, r: ReqId, h: Hash)
    requires EmptyCache(cache) && cfg.sharePreload
    ensures var s0 := Initial(cfg, cache);
      Step(s0, PreloadRequest(r, [h])) == s0.(slots := s0.slots.(owned := [(r, h)], refcount := map[h := 1]),
                                             demand := s0.demand.(pending := [Info(h, r)], pendingCount := map[h := 1]))
  {
    hide SC.Agree;
    var s0 := Initial(cfg, cache);
    assert [h][..0] == [];
    assert [] + [(r, h)] == [(r, h)] && [] + [Info(h, r)] == [Info(h, r)];
    var z := s0.slots.(owned := [(r, h)], refcount := map[h := 1]);
    assert Claimable(z, h).None?;
    assert !HasAnySharedState(z, s0.demand, h);
    assert Raise(map[], h) == map[h := 1];
    assert IntakeDemand(s0, r, h) == s0.(slots := z, demand := PendingPush(s0.demand, Info(h, r)));
    assert IntakePreload(s0, r, []) == s0;
  }

  lemma NothingForgotten(d: Demand, h: Hash)
    requires d.missing == map[] && d.missingOrder == []
    ensures ForgetAllMissing(d, [h]) == d
  {
    assert [h][..0] == [];
  }

  lemma PromotionReached(cfg: Config, cache: SC.Cache, r: ReqId, r2: ReqId, h: Hash)
    requires EmptyCache(cache) && cfg.sharePreload && cfg.openLookahead > 0
    ensures IsRun(Initial(cfg, cache), Overtaken(r, r2, h))
    ensures var s := After(Initial(cfg, cache), Overtaken(r, r2, h));
      Schedulable(s.work, 0) && !s.work.jobs[0].isStore && Promotes(s, 0)
  {
    hide SC.Agree, IsRun, After, ForgetAllMissing, IntakePreload;
    var s0 := Initial(cfg, cache);
    Demanded(cfg, cache, r, h);
    var s1 := Step(s0, PreloadRequest(r, [h]));
    NothingForgotten(s1.demand, h);
    TwoEvents(s0, PreloadRequest(r, [h]), LoadRequest(r2, [h], false));
    var s2 := Step(s1, LoadRequest(r2, [h], false));
    assert s2 == s1.(work := Work([NewJob(false, r2, [h])], [0], []));
  }

  // ---------- A mark that stays ----------

  /** A store of two files: the first cannot be copied, which ends the job. */
  function CutShort(r: ReqId, h1: Hash, h2: Hash): seq<Event> {
    [StoreRequest(r, [h1, h2]), StoreNext(0, false), Finish]
  }

  /** The announced second file is never started, and its mark outlives the job. */
  lemma LeftoverReached(cfg: Config, cache: SC.Cache, r: ReqId, h1: Hash, h2: Hash)
    requires EmptyCache(cache) && cfg.slotCount > 0 && cfg.iodepth > 0 && h1 != h2
    ensures IsRun(Initial(cfg, cache), CutShort(r, h1, h2))
    ensures var s := After(Initial(cfg, cache), CutShort(r, h1, h2));
      && s.work.active == [] && s.ring.inflight == map[] && s.ring.pendingCopies == [] && s.ring.copyReady == []
      && h1 !in s.demand.storeInflight && h2 in s.demand.storeInflight
  {
    hide SC.Agree, IsRun, After, IntakeStore, ScheduleStore;
    var s0 := Initial(cfg, cache);
    RunNothing(s0);
    var a, b := StoreRequest(r, [h1, h2]), StoreNext(0, false);
    Announces(cfg, cache, r, h1, h2);
    TwoEvents(s0, a, b);
    CannotCopy(s0, r, h1, h2);
    RunAppend(s0, [a, b], Finish);
    assert [a, b] + [Finish] == CutShort(r, h1, h2);
    var s2 := Step(Step(s0, a), b);
    assert s2.work.active == [0] && s2.work.active[..0] == [];
    assert Finished(s2.work, 0);
    assert Remaining(s2.work, []) == [];
    assert Remaining(s2.work, [0]) == [];
  }

  lemma Announces(cfg: Config, cache: SC.Cache, r: ReqId, h1: Hash, h2: Hash)
    requires h1 != h2
    ensures var s0 := Initial(cfg, cache);
      IntakeStore(s0, r, [h1, h2])
        == s0.(work := Work([NewJob(true, r, [h1, h2])], [0], []), demand := s0.demand.(storeInflight := map[h1 := 1, h2 := 1]))
  {
    var s0 := Initial(cfg, cache);
    assert [h1, h2][..1] == [h1] && [h1][..0] == [];
    assert AnnounceStores(s0, r, []) == s0;
    AnnounceOne(s0, r, h1);
    var s1 := s0.(demand := s0.demand.(storeInflight := Raise(map[], h1)));
    assert AnnounceStores(s0, r, [h1]) == s1;
    AnnounceOne(s1, r, h2);
    assert Raise(Raise(map[], h1), h2) == map[h1 := 1, h2 := 1];
  }

  lemma AnnounceOne(s: State, r: ReqId, h: Hash)
    requires s.demand.missing == map[] && s.demand.missingOrder == [] && s.slots.owned == []
    ensures AnnounceStore(s, r, h) == s.(demand := s.demand.(storeInflight := Raise(s.demand.storeInflight, h)))
  {
    hide Claimable;
    assert ForgetMissing(s.demand, h) == s.demand;
  }

  lemma CannotCopy(s0: State, r: ReqId, h1: Hash, h2: Hash)
    requires h1 != h2 && s0.slots.free != [] && s0.demand.blocked == map[] && s0.ring.inflight == map[]
    requires forall x :: x in s0.slots.free ==> 0 <= x < s0.Cfg().slotCount
    ensures var s := s0.(work := Work([NewJob(true, r, [h1, h2])], [0], []),
                         demand := s0.demand.(storeInflight := map[h1 := 1, h2 := 1]));
      var job := NewJob(true, r, [h1, h2]).(next := 1, failed := true, futureSet := true, outcomes := [Failed]);
      var s' := ScheduleStore(s, 0, false);
      && s'.work == Work([job], [0], [FileEnd(FileRef(0, 0, h1), false)])
      && s'.ring == s.ring && s'.demand.storeInflight == map[h2 := 1]
  {
    var job := NewJob(true, r, [h1, h2]);
    var s := s0.(work := Work([job], [0], []), demand := s0.demand.(storeInflight := map[h1 := 1, h2 := 1]));
    var f, x := FileRef(0, 0, h1), s.slots.free[|s.slots.free| - 1];
    assert NextFile(s.work, 0) == f;
    var w := Work([job.(next := 1, inflight := 1)], [0], []);
    assert StartFile(s.work, 0) == w;
    var ended := job.(next := 1, failed := true, futureSet := true, outcomes := [Failed]);
    assert job.outcomes + [Failed] == [Failed];
    assert JobAfter(w.jobs[0], false) == ended;
    assert FileTerminal(w, f, false) == Work([ended], [0], [FileEnd(f, false)]);
    assert map[h1 := 1, h2 := 1] - {h1} == map[h2 := 1];
    assert Lower(s.demand.storeInflight, h1) == map[h2 := 1];
    var s1 := s.(slots := s.slots.(free := s.slots.free[..|s.slots.free| - 1]));
    assert ScheduleStore(s, 0, false) == StoreFailed(s1.(work := w), f, x);
  }
}
