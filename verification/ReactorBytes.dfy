/** When the bytes of a staging slot change: only when a read into it, or a store's copy into it, begins or ends. */
module ReactorBytes {
  import opened Outcomes
  import opened OrderedKeys
  import opened ReactorState
  import opened ReactorSlots
  import opened Reactor
  import opened ReactorFrames
  import opened ReactorTokens
  import opened ReactorRuns
  import opened ReactorTheorems
  import opened ReactorPersistence
  import SC = StagingCache

  // ---------- What fills a slot ----------

  predicate IsRead(op: Op) { op.ReadLoad? || op.ReadPreload? }

  function HashRead(op: Op): Hash
    requires IsRead(op)
  {
    match op
    case ReadLoad(f, _) => f.hash
    case ReadPreload(info, _) => info.hash
  }

  /** The event completes the filling of slot `x` with the bytes of `h`: a read that did what it should, or a store's
      copy from the GPU. */
  predicate Fills(s: State, e: Event, x: Slot, h: Hash) {
    match e
    case OpCompletion(ud, ok, _) => ok && ud in s.ring.inflight && IsRead(s.ring.inflight[ud]) && s.ring.inflight[ud].slot == x && HashRead(s.ring.inflight[ud]) == h
    case CopyCompletion(k, _, _) => k < |s.ring.pendingCopies| && s.ring.pendingCopies[k].StoreCopy? && s.ring.pendingCopies[k].slot == x && s.ring.pendingCopies[k].file.hash == h
    case _ => false
  }

  /** Slot `x` is being filled. */
  predicate BeingFilled(g: Ring, x: Slot) {
    || (exists ud | ud in g.inflight.Keys :: IsRead(g.inflight[ud]) && g.inflight[ud].slot == x)
    || (exists k :: 0 <= k < |g.pendingCopies| && g.pendingCopies[k].StoreCopy? && g.pendingCopies[k].slot == x)
  }

  // ---------- Steps that leave all bytes alone ----------

  predicate NoNewFills(g: Ring, g': Ring) {
    && (forall ud :: ud in g'.inflight && IsRead(g'.inflight[ud]) ==> ud in g.inflight && g.inflight[ud] == g'.inflight[ud])
    && (forall c :: c in g'.pendingCopies && c.StoreCopy? ==> c in g.pendingCopies)
  }

  predicate BytesKept(s: State, s': State) { s'.memory == s.memory && NoNewFills(s.ring, s'.ring) }

  lemma FillsTrans(a: Ring, b: Ring, c: Ring)
    requires NoNewFills(a, b) && NoNewFills(b, c)
    ensures NoNewFills(a, c)
  {
  }

  lemma FillsSame(g: Ring, g': Ring)
    requires SameStores(g, g')
    ensures NoNewFills(g, g')
  {
  }

  lemma SubmittedFills(g: Ring, op: Op)
    requires !IsRead(op)
    ensures NoNewFills(g, Submit(g, op)) && NoNewFills(g, Refused(g)) && NoNewFills(g, Submit(AddOpen(g, 1), op))
  {
  }

  lemma ClosedFills(g: Ring, queued: bool)
    ensures NoNewFills(g, AsyncClose(g, queued)) && NoNewFills(g, AsyncClose(Refused(g), queued))
  {
  }

  lemma TakenFills(g: Ring, ud: nat, k: nat)
    ensures NoNewFills(g, g.(inflight := g.inflight - {ud})) && NoNewFills(g, AddOpen(g, -1)) && NoNewFills(g, AddData(g, -1))
    ensures k < |g.pendingCopies| ==> NoNewFills(g, g.(pendingCopies := RemoveAt(g.pendingCopies, k)))
  {
  }

  lemma BytesSame(s: State)
    ensures BytesKept(s, s)
  {
  }

  lemma IntakeBytes(s: State, r: ReqId, hs: seq<Hash>, declined: bool)
    ensures BytesKept(s, IntakePreload(s, r, hs)) && BytesKept(s, IntakeLoad(s, r, hs, declined)) && BytesKept(s, IntakeStore(s, r, hs))
  {
    hide IntakePreload, AnnounceStores, ForgetAllMissing, NoNewFills;
    IntakePreloadCalm(s, r, hs);
    AnnounceStoresCalm(s, r, hs);
    BytesSame(s);
  }

  lemma LoadBytes(s: State, j: JobId, queued: bool)
    requires Unfinished(s.work, j)
    ensures BytesKept(s, ScheduleLoad(s, j, queued))
  {
    hide NoNewFills, Submit, Refused, StartFile, FileTerminal, Decref, AddCopies, SC.Get, SC.Pin, CanOpen, HasInflight, Claimable,
      PreloadPop, HasPrivateCopy, WaiterCount, CancelOnePending, InflightAdd;
    var f := NextFile(s.work, j);
    BytesSame(s);
    var g := AddOpen(s.ring, 1);
    SubmittedFills(s.ring, OpenLoad(f));
    SubmittedFills(s.ring, OpenPreload(Info(f.hash, s.work.jobs[j].reqId)));
    forall x: Slot, source: Source ensures NoNewFills(s.ring, QueueLoadCopy(s.ring, f, x, source)) {
      FillsSame(s.ring, QueueLoadCopy(s.ring, f, x, source));
    }
  }

  lemma YieldBytes(s: State, closed: bool)
    requires s.ring.readyPreload != []
    ensures BytesKept(s, YieldOpenFd(s, closed))
  {
    hide NoNewFills, AsyncClose, InflightRemove, PendingPush;
    var g := PopReadyPreload(s.ring);
    FillsSame(s.ring, g);
    ClosedFills(g, closed);
    FillsTrans(s.ring, g, AsyncClose(g, closed));
  }

  lemma SpeculateBytes(s: State, queued: bool)
    requires s.demand.pending != []
    ensures BytesKept(s, Speculate(s, queued))
  {
    hide NoNewFills, BlockOnWrite, PendingPop, DropCancelled, InflightAdd, Submit, Refused;
    BytesSame(s);
    SubmittedFills(s.ring, OpenPreload(s.demand.pending[0]));
  }

  lemma FlushBytes(s: State, launched: bool)
    ensures BytesKept(s, FlushCopies(s, launched))
  {
    hide SettleAll;
    SettledKeeps(s.(ring := s.ring.(copyReady := [])), s.ring.copyReady, false);
  }

  // ---------- Steps that begin a read or a store's copy ----------

  /** The step gives slot `x` to a read or to a store's copy. */
  predicate Begins(s: State, s': State, x: Slot) {
    && s'.memory == s.memory - {x}
    && BeingFilled(s'.ring, x)
    && (forall ud :: ud in s'.ring.inflight && IsRead(s'.ring.inflight[ud]) ==>
          (ud in s.ring.inflight && s.ring.inflight[ud] == s'.ring.inflight[ud]) || s'.ring.inflight[ud].slot == x)
    && (forall c :: c in s'.ring.pendingCopies && c.StoreCopy? ==> c in s.ring.pendingCopies || c.slot == x)
  }

  ghost predicate KeepsOrBegins(s: State, s': State) { BytesKept(s, s') || exists x :: Begins(s, s', x) }

  lemma ReadBegins(g: Ring, op: Op)
    requires IsRead(op)
    ensures BeingFilled(Submit(AddData(g, 1), op), op.slot)
  {
    assert Submit(AddData(g, 1), op).inflight[g.nextUd] == op;
    assert g.nextUd in Submit(AddData(g, 1), op).inflight.Keys;
  }

  lemma LoadFdBytes(s: State, queued: bool, closed: bool)
    requires s.ring.readyLoad != []
    ensures KeepsOrBegins(s, DrainLoadFd(s, queued, closed))
  {
    hide ReserveForeground, FileTerminal, Release, BeingFilled;
    var (z, x) := ReserveForeground(s.slots);
    var g := s.ring.(readyLoad := s.ring.readyLoad[1..]);
    if x.Some? && queued {
      ReadBegins(g, ReadLoad(s.ring.readyLoad[0], x.value));
      assert Begins(s, DrainLoadFd(s, queued, closed), x.value);
    } else if x.Some? {
      ClosedFills(g, closed);
    }
  }

  lemma ReadPreloadBytes(s: State, r: (Slots, Option<Slot>), queued: bool, closed: bool)
    requires s.ring.readyPreload != []
    ensures KeepsOrBegins(s, ReadPreloadFd(s, r, queued, closed))
  {
    hide FailWaiters, FailOneWaiter, InflightRemove, Release, BeingFilled;
    if r.1.Some? {
      var info, x, g := s.ring.readyPreload[0], r.1.value, PopReadyPreload(s.ring);
      if queued {
        ReadBegins(g, ReadPreload(info, x));
        assert Begins(s, ReadPreloadFd(s, r, queued, closed), x);
      } else {
        var s1 := s.(slots := r.0, ring := g);
        ClosedFills(g, closed);
        var s2 := s1.(ring := AsyncClose(Refused(g), closed), slots := Release(r.0, x), demand := InflightRemove(s.demand, info.hash));
        FailWaitersCalm(s2, info.hash);
        FailOneCalm(s2, info.hash);
      }
    }
  }

  lemma PreloadFdBytes(s: State, queued: bool, closed: bool)
    requires s.ring.readyPreload != []
    ensures KeepsOrBegins(s, DrainPreloadFd(s, queued, closed))
  {
    hide BytesKept, Begins, ReadPreloadFd, YieldOpenFd, HasWaiter, HasDataBudget, RealLoadPressure, ReserveForeground, ReservePreload;
    BytesSame(s);
    YieldBytes(s, closed);
    ReadPreloadBytes(s, ReserveForeground(s.slots), queued, closed);
    ReadPreloadBytes(s, ReservePreload(s.slots), queued, closed);
  }

  lemma StoreBytes(s: State, j: JobId, launched: bool)
    requires Unfinished(s.work, j)
    ensures KeepsOrBegins(s, ScheduleStore(s, j, launched))
  {
    hide ReserveForeground, StoreFailed, StartFile, BeingFilled;
    var (z, x) := ReserveForeground(s.slots);
    if x.Some? {
      var f := NextFile(s.work, j);
      StoreFailedStep(s.(slots := z, work := StartFile(s.work, j)), f, x.value);
      if launched {
        var s' := ScheduleStore(s, j, launched);
        CopyBegins(s.ring, s'.ring, f, x.value);
        assert Begins(s, s', x.value);
      }
    }
  }

  lemma CopyBegins(g: Ring, g': Ring, f: FileRef, x: Slot)
    requires g'.pendingCopies == g.pendingCopies + [StoreCopy(f, x)]
    ensures BeingFilled(g', x)
  {
    assert g'.pendingCopies[|g.pendingCopies|] == StoreCopy(f, x);
  }

  // ---------- Steps that complete one ----------

  /** All bytes stay, except that slot `x` now has those of `h`; nothing is being filled that was not in `g`. */
  predicate Filled(s: State, g: Ring, s': State, x: Slot, h: Hash) { s'.memory == s.memory[x := h] && NoNewFills(g, s'.ring) }

  /** The ring without the operation or copy that the event completes. */
  function Rest(g: Ring, e: Event): Ring {
    match e
    case OpCompletion(ud, _, _) => g.(inflight := g.inflight - {ud})
    case CopyCompletion(k, _, _) => if k < |g.pendingCopies| then g.(pendingCopies := RemoveAt(g.pendingCopies, k)) else g
    case _ => g
  }

  lemma CopyDoneBytes(s: State, k: nat, tempOk: bool, queued: bool)
    requires k < |s.ring.pendingCopies|
    ensures s.ring.pendingCopies[k].LoadBatch? ==> BytesKept(s, CopyDone(s, k, tempOk, queued))
    ensures s.ring.pendingCopies[k].StoreCopy? ==>
      Filled(s, s.ring.(pendingCopies := RemoveAt(s.ring.pendingCopies, k)), CopyDone(s, k, tempOk, queued),
             s.ring.pendingCopies[k].slot, s.ring.pendingCopies[k].file.hash)
  {
    hide SettleAll, StoreFailed, NoNewFills, Submit;
    var g := s.ring.(pendingCopies := RemoveAt(s.ring.pendingCopies, k));
    TakenFills(s.ring, 0, k);
    match s.ring.pendingCopies[k]
    case LoadBatch(members) => SettledKeeps(s.(ring := g), members, true);
    case StoreCopy(f, x) =>
      var s2 := s.(ring := g, memory := s.memory[x := f.hash]);
      SubmittedFills(g, Write(f, x));
      var g3 := AddData(if tempOk then Refused(g) else g, -1);
      FillsSame(g, g3);
      StoreFailedStep(s2.(ring := g3), f, x);
  }

  lemma OpenDoneBytes(s: State, f: FileRef, info: Info, ok: bool)
    ensures BytesKept(s, OpenLoadDone(s, f, ok)) && BytesKept(s, OpenPreloadDone(s, info, ok))
  {
    hide FailWaiters, FailOneWaiter, FileTerminal, InflightRemove, PreloadMissed, HasWaiter;
    var s1 := s.(demand := InflightRemove(s.demand, info.hash));
    FailWaitersCalm(s1, info.hash);
    FailOneCalm(s1, info.hash);
  }

  lemma ReadLoadBytes(s: State, f: FileRef, x: Slot, ok: bool)
    ensures ok ==> Filled(s, s.ring, ReadLoadDone(s, f, x, ok), x, f.hash)
    ensures !ok ==> BytesKept(s, ReadLoadDone(s, f, x, ok))
  {
    hide FileTerminal, Release;
  }

  lemma PrivateReadBytes(s: State, info: Info, x: Slot, ok: bool)
    ensures ok ==> Filled(s, s.ring, PrivateReadDone(s, info, x, ok), x, info.hash)
    ensures !ok ==> BytesKept(s, PrivateReadDone(s, info, x, ok))
  {
    hide FailOneWaiter, InflightRemove, PopWaiter, Release, PreloadPush, NoNewFills, HasWaiter;
    var s1 := s.(demand := InflightRemove(s.demand, info.hash));
    FailOneCalm(s1.(slots := Release(s1.slots, x)), info.hash);
    FillsSame(s.ring, s.ring);
    var s3 := s1.(memory := s1.memory[x := info.hash]);
    PopWaiterIs(s3, info.hash);
    var (s4, f) := PopWaiter(s3, info.hash);
    if f.Some? { FillsSame(s.ring, QueueLoadCopy(s.ring, f.value, x, Owned)); }
  }

  lemma SharedReadBytes(s: State, info: Info, x: Slot, ok: bool)
    ensures ok ==> Filled(s, s.ring, SharedReadDone(s, info, x, ok), x, info.hash)
    ensures !ok ==> BytesKept(s, SharedReadDone(s, info, x, ok))
  {
    hide FailWaiters, InflightRemove, ServeWaiters, KeepOrRelease, Release, NoNewFills;
    var s1 := s.(demand := InflightRemove(s.demand, info.hash));
    FailWaitersCalm(s1, info.hash);
    FillsSame(s.ring, s.ring);
    var s2 := Arrived(s1, info.hash, x);
    ServeKeeps(s2, info.hash, x);
    FillsSame(s.ring, ServeWaiters(s2, info.hash, x).ring);
  }

  lemma ReadPreloadDoneBytes(s: State, info: Info, x: Slot, ok: bool)
    ensures ok ==> Filled(s, s.ring, ReadPreloadDone(s, info, x, ok), x, info.hash)
    ensures !ok ==> BytesKept(s, ReadPreloadDone(s, info, x, ok))
  {
    hide Filled, BytesKept, PrivateReadDone, SharedReadDone;
    PrivateReadBytes(s, info, x, ok);
    SharedReadBytes(s, info, x, ok);
  }

  lemma KeptOn(s: State, g: Ring, s1: State, s': State)
    requires NoNewFills(s.ring, g) && BytesKept(s.(ring := g), s1)
    requires s'.memory == s1.memory && NoNewFills(s1.ring, s'.ring)
    ensures BytesKept(s, s')
  {
    hide NoNewFills;
    FillsTrans(s.ring, g, s1.ring);
    FillsTrans(s.ring, s1.ring, s'.ring);
  }

  lemma FilledOn(s: State, g0: Ring, g: Ring, s1: State, s': State, x: Slot, h: Hash)
    requires NoNewFills(g0, g) && Filled(s.(ring := g), g, s1, x, h)
    requires s'.memory == s1.memory && NoNewFills(s1.ring, s'.ring)
    ensures Filled(s, g0, s', x, h)
  {
    hide NoNewFills;
    FillsTrans(g0, g, s1.ring);
    FillsTrans(g0, s1.ring, s'.ring);
  }

  lemma OpBytes(s: State, ud: nat, ok: bool, closed: bool)
    requires ud in s.ring.inflight
    ensures var op, s' := s.ring.inflight[ud], OpCompletes(s, ud, ok, closed);
      if IsRead(op) && ok then Filled(s, s.ring.(inflight := s.ring.inflight - {ud}), s', op.slot, HashRead(op)) else BytesKept(s, s')
  {
    hide NoNewFills, OpenLoadDone, OpenPreloadDone, ReadLoadDone, ReadPreloadDone, WriteDone, AsyncClose;
    var g := s.ring.(inflight := s.ring.inflight - {ud});
    var go, gd := AddOpen(g, -1), AddData(g, -1);
    var open, data, s' := s.(ring := go), s.(ring := gd), OpCompletes(s, ud, ok, closed);
    TakenFills(s.ring, ud, 0);
    TakenFills(g, ud, 0);
    FillsTrans(s.ring, g, go);
    FillsTrans(s.ring, g, gd);
    FillsSame(s'.ring, s'.ring);
    match s.ring.inflight[ud]
    case OpenLoad(f) => OpenDoneBytes(open, f, Info(0, 0), ok); KeptOn(s, go, s', s');
    case OpenPreload(info) => OpenDoneBytes(open, FileRef(0, 0, 0), info, ok); KeptOn(s, go, s', s');
    case ReadLoad(f, x) =>
      ReadLoadBytes(data, f, x, ok);
      var s1 := ReadLoadDone(data, f, x, ok);
      ClosedFills(s1.ring, closed);
      if ok { FilledOn(s, g, gd, s1, s', x, f.hash); } else { KeptOn(s, gd, s1, s'); }
    case ReadPreload(info, x) =>
      ReadPreloadDoneBytes(data, info, x, ok);
      var s1 := ReadPreloadDone(data, info, x, ok);
      ClosedFills(s1.ring, closed);
      if ok { FilledOn(s, g, gd, s1, s', x, info.hash); } else { KeptOn(s, gd, s1, s'); }
    case Write(f, x) =>
      WriteDoneStep(data, f, x, ok);
      FillsSame(gd, s'.ring);
      KeptOn(s, gd, s', s');
    case Close =>
  }

  // ---------- Every step ----------

  /** Either the event completes a filling, and the slot has those bytes; or all bytes stay; or one slot is given to a
      read or a store's copy, and only its bytes are lost. */
  lemma StepBytes(s: State, e: Event)
    requires Enabled(s, e)
    ensures forall x, h :: Fills(s, e, x, h) ==> Filled(s, Rest(s.ring, e), Step(s, e), x, h)
    ensures (forall x, h :: !Fills(s, e, x, h)) ==> KeepsOrBegins(s, Step(s, e))
  {
    hide BytesKept, Filled, Begins, IntakePreload, IntakeLoad, IntakeStore, CopyDone, OpCompletes, ScheduleLoad, ScheduleStore, DrainLoadFd,
      DrainPreloadFd, DropCancelled, Speculate, FlushCopies, Promotes, HasDataBudget, RealLoadPressure, CanOpen, PreloadSlotsAvailable, Remaining;
    var s' := Step(s, e);
    match e
    case PreloadRequest(r, hs) => IntakeBytes(s, r, hs, false);
    case LoadRequest(r, hs, declined) => IntakeBytes(s, r, hs, declined);
    case StoreRequest(r, hs) => IntakeBytes(s, r, hs, false);
    case CopyCompletion(k, tempOk, queued) =>
      CopyDoneBytes(s, k, tempOk, queued);
      var c := s.ring.pendingCopies[k];
      if c.StoreCopy? { assert Fills(s, e, c.slot, c.file.hash); }
    case OpCompletion(ud, ok, closed) =>
      OpBytes(s, ud, ok, closed);
      var op := s.ring.inflight[ud];
      if IsRead(op) && ok { assert Fills(s, e, op.slot, HashRead(op)); }
    case LoadNext(j, queued) => LoadBytes(s, j, queued);
    case StoreNext(j, launched) => StoreBytes(s, j, launched);
    case ReadLoadFd(queued, closed) => LoadFdBytes(s, queued, closed);
    case PreloadFd(queued, closed) => PreloadFdBytes(s, queued, closed);
    case CancelledPending => SameRingBytes(s, s');
    case SpeculativeOpen(queued) => SpeculateBytes(s, queued);
    case Flush(launched) => FlushBytes(s, launched);
    case Finish => SameRingBytes(s, s');
  }

  lemma SameRingBytes(s: State, s': State)
    requires s'.memory == s.memory && s'.ring == s.ring
    ensures BytesKept(s, s')
  {
  }

  /** A slot comes to hold the bytes of a hash exactly when a read of that hash into it, or a store's copy of it, has
      done what it should; whatever a failed read left there is never taken for them. */
  lemma BytesArriveIff(s: State, e: Event, x: Slot, h: Hash)
    requires Enabled(s, e)
    ensures var s' := Step(s, e);
      && (Fills(s, e, x, h) ==> x in s'.memory && s'.memory[x] == h)
      && (x in s'.memory && s'.memory[x] == h && !(x in s.memory && s.memory[x] == h) ==> Fills(s, e, x, h))
  {
    hide Step, Enabled, Fills;
    StepBytes(s, e);
    OneFilling(s, e);
    if y, g :| Fills(s, e, y, g) {
      assert Filled(s, Rest(s.ring, e), Step(s, e), y, g);
    }
  }

  lemma OneFilling(s: State, e: Event)
    ensures forall x, h, y, g :: Fills(s, e, x, h) && Fills(s, e, y, g) ==> x == y && h == g
  {
  }

  /** A slot loses its bytes only when it is given to a read or to a store's copy. */
  lemma BytesLostOnlyToFilling(s: State, e: Event, x: Slot)
    requires Enabled(s, e) && x in s.memory && x !in Step(s, e).memory
    ensures BeingFilled(Step(s, e).ring, x)
  {
    hide Step, Enabled, Fills, BeingFilled, NoNewFills;
    StepBytes(s, e);
    if y, g :| Fills(s, e, y, g) { FillingKeepsOthers(s, e, y, g); }
  }

  lemma FillingKeepsOthers(s: State, e: Event, y: Slot, g: Hash)
    requires Enabled(s, e) && Fills(s, e, y, g)
    ensures s.memory.Keys <= Step(s, e).memory.Keys
  {
    hide Step, Enabled, Fills, NoNewFills;
    StepBytes(s, e);
    assert Filled(s, Rest(s.ring, e), Step(s, e), y, g);
  }

  // ---------- A slot that is being filled has no bytes ----------

  ghost predicate FillsBlank(s: State) { forall x :: BeingFilled(s.ring, x) ==> x !in s.memory }

  /** Once a filling is over, nothing else is filling its slot. */
  lemma FillingIsAlone(s: State, e: Event, x: Slot, h: Hash)
    requires Reached(s) && Enabled(s, e) && Fills(s, e, x, h)
    ensures !BeingFilled(Step(s, e).ring, x)
  {
    hide Reached, Step, Holds;
    StepBytes(s, e);
    assert Filled(s, Rest(s.ring, e), Step(s, e), x, h);
    var g := Step(s, e).ring;
    var done := if e.OpCompletion? then OpAt(e.ud) else StoreAt(e.k);
    FillingHolds(s, e, x, h);
    NoStraySlots(s, x, done);
    var o := OneOwner(s, x);
    if BeingFilled(g, x) {
      var p := OtherFilling(s, e, x, h, g);
      assert false;
    }
  }

  lemma FillingHolds(s: State, e: Event, x: Slot, h: Hash)
    requires Enabled(s, e) && Fills(s, e, x, h)
    ensures Holds(s, x, if e.OpCompletion? then OpAt(e.ud) else StoreAt(e.k))
  {
  }

  lemma OtherFilling(s: State, e: Event, x: Slot, h: Hash, g: Ring) returns (p: Holder)
    requires Enabled(s, e) && Fills(s, e, x, h) && NoNewFills(Rest(s.ring, e), g) && BeingFilled(g, x)
    ensures Holds(s, x, p) && p != if e.OpCompletion? then OpAt(e.ud) else StoreAt(e.k)
  {
    var r := Rest(s.ring, e);
    if ud :| ud in g.inflight.Keys && IsRead(g.inflight[ud]) && g.inflight[ud].slot == x {
      p := OpAt(ud);
    } else {
      var k :| 0 <= k < |g.pendingCopies| && g.pendingCopies[k].StoreCopy? && g.pendingCopies[k].slot == x;
      assert g.pendingCopies[k] in r.pendingCopies;
      var i :| 0 <= i < |r.pendingCopies| && r.pendingCopies[i] == g.pendingCopies[k];
      var at := if e.CopyCompletion? && i >= e.k then i + 1 else i;
      assert s.ring.pendingCopies[at] == g.pendingCopies[k];
      p := StoreAt(at);
    }
  }

  lemma BeginsBlank(s: State, s': State, x: Slot)
    requires FillsBlank(s) && Begins(s, s', x)
    ensures FillsBlank(s')
  {
    forall y | BeingFilled(s'.ring, y) && y != x ensures BeingFilled(s.ring, y) { OldFilling(s, s', x, y); }
  }

  lemma OldFilling(s: State, s': State, x: Slot, y: Slot)
    requires Begins(s, s', x) && BeingFilled(s'.ring, y) && y != x
    ensures BeingFilled(s.ring, y)
  {
    if ud :| ud in s'.ring.inflight.Keys && IsRead(s'.ring.inflight[ud]) && s'.ring.inflight[ud].slot == y {
      assert ud in s.ring.inflight.Keys;
    } else {
      var k :| 0 <= k < |s'.ring.pendingCopies| && s'.ring.pendingCopies[k].StoreCopy? && s'.ring.pendingCopies[k].slot == y;
      assert s'.ring.pendingCopies[k] in s.ring.pendingCopies;
    }
  }

  lemma FewerFillings(g: Ring, g': Ring, y: Slot)
    requires NoNewFills(g, g') && BeingFilled(g', y)
    ensures BeingFilled(g, y)
  {
    if ud :| ud in g'.inflight.Keys && IsRead(g'.inflight[ud]) && g'.inflight[ud].slot == y {
      assert ud in g.inflight.Keys;
    } else {
      var k :| 0 <= k < |g'.pendingCopies| && g'.pendingCopies[k].StoreCopy? && g'.pendingCopies[k].slot == y;
      assert g'.pendingCopies[k] in g.pendingCopies;
    }
  }

  lemma RestFewer(g: Ring, e: Event)
    ensures NoNewFills(g, Rest(g, e))
  {
  }

  lemma StepBlank(s: State, e: Event)
    requires Reached(s) && Enabled(s, e) && FillsBlank(s)
    ensures FillsBlank(Step(s, e))
  {
    hide Reached, Step, Enabled, Fills, BeingFilled, NoNewFills;
    StepBytes(s, e);
    var s' := Step(s, e);
    if x, h :| Fills(s, e, x, h) {
      assert Filled(s, Rest(s.ring, e), s', x, h);
      RestFewer(s.ring, e);
      FillsTrans(s.ring, Rest(s.ring, e), s'.ring);
      FillingIsAlone(s, e, x, h);
      forall y | BeingFilled(s'.ring, y) ensures y !in s'.memory { FewerFillings(s.ring, s'.ring, y); }
    } else if BytesKept(s, s') {
      forall y | BeingFilled(s'.ring, y) ensures y !in s'.memory { FewerFillings(s.ring, s'.ring, y); }
    } else {
      var x :| Begins(s, s', x);
      BeginsBlank(s, s', x);
    }
  }

  lemma {:induction false} RunBlank(cfg: Config, cache: SC.Cache, es: seq<Event>)
    requires EmptyCache(cache) && IsRun(Initial(cfg, cache), es)
    ensures FillsBlank(After(Initial(cfg, cache), es))
    decreases |es|
  {
    hide EmptyCache, IsRun, After, Initial, Step, Enabled, FillsBlank, Reached;
    RunNothing(Initial(cfg, cache));
    if es == [] {
      InitialBlank(cfg, cache);
    } else {
      var front := es[..|es| - 1];
      RunLast(Initial(cfg, cache), es);
      RunBlank(cfg, cache, front);
      ReachedBy(cfg, cache, front);
      StepBlank(After(Initial(cfg, cache), front), es[|es| - 1]);
    }
  }

  lemma InitialBlank(cfg: Config, cache: SC.Cache)
    ensures FillsBlank(Initial(cfg, cache))
  {
  }

  lemma ReachedBy(cfg: Config, cache: SC.Cache, es: seq<Event>)
    requires EmptyCache(cache) && IsRun(Initial(cfg, cache), es)
    ensures Reached(After(Initial(cfg, cache), es))
  {
    hide EmptyCache, IsRun, After, Initial;
  }

  /** A slot that is being filled has nobody's bytes. */
  lemma BeingFilledIsBlank(s: State, x: Slot)
    requires Reached(s) && BeingFilled(s.ring, x)
    ensures x !in s.memory
  {
    hide EmptyCache, IsRun, After, Initial, BeingFilled;
    var cfg, cache, es :| EmptyCache(cache) && IsRun(Initial(cfg, cache), es) && s == After(Initial(cfg, cache), es);
    RunBlank(cfg, cache, es);
  }
}
