/** What the completion of an operation or a copy means, for every result it can have. */
module ReactorCompletions {
  import opened Outcomes
  import opened OrderedKeys
  import opened ReactorState
  import opened ReactorSlots
  import opened Reactor
  import opened ReactorFrames
  import opened ReactorTokens
  import opened ReactorDemandSafety
  import opened ReactorDemandMoves
  import opened ReactorSafety
  import opened ReactorRuns
  import opened ReactorTheorems
  import opened ReactorGuarantees
  import opened ReactorOutcomes
  import opened ReactorQueues
  import opened ReactorBytes
  import SC = StagingCache

  // ---------- Files and their jobs ----------

  lemma PlacedIsLive(s: State, f: FileRef)
    requires Reached(s) && PlacesOf(s, f) > 0
    ensures f.job < |s.work.jobs|
  {
    hide Reached, PlacesOf, CountIf;
    FileOnce(s, f);
  }

  lemma OpIsLive(s: State, ud: nat, f: FileRef)
    requires Reached(s) && ud in s.ring.inflight && FileOf(s.ring.inflight[ud]) == Some(f)
    ensures f.job < |s.work.jobs|
  {
    hide Reached, CountIf, BatchCount;
    assert ud in OpsIf(s.ring.inflight, OpOf(f));
    PlacedIsLive(s, f);
  }

  lemma WaiterIsLive(s: State, i: nat)
    requires Reached(s) && i < |s.waiters|
    ensures s.waiters[i].job < |s.work.jobs|
  {
    hide Reached, CountIf, BatchCount, OpsIf;
    var f := s.waiters[i];
    assert IsFile(f)(s.waiters[i]);
    CountIfHas(s.waiters, IsFile(f));
    PlacedIsLive(s, f);
  }

  lemma PendingIsLive(s: State, k: nat)
    requires Reached(s) && k < |s.ring.pendingCopies| && s.ring.pendingCopies[k].StoreCopy?
    ensures s.ring.pendingCopies[k].file.job < |s.work.jobs|
  {
    hide Reached, CountIf, BatchCount, OpsIf;
    var f := s.ring.pendingCopies[k].file;
    assert StoreOf(f)(s.ring.pendingCopies[k]);
    CountIfHas(s.ring.pendingCopies, StoreOf(f));
    PlacedIsLive(s, f);
  }

  lemma LoggedFile(w: Work, f: FileRef, ok: bool)
    requires f.job < |w.jobs|
    ensures FileTerminal(w, f, ok).log == w.log + [FileEnd(f, ok)] && FileTerminal(w, f, ok).active == w.active
  {
    hide JobAfter;
  }

  // ---------- The files that wait for a hash ----------

  function Waiting(ws: seq<FileRef>, h: Hash): seq<FileRef> { Of(ws, WaitKey(), h) }

  function StillWaiting(ws: seq<FileRef>, h: Hash): seq<FileRef> {
    if ws == [] then [] else StillWaiting(ws[..|ws| - 1], h) + if ws[|ws| - 1].hash == h then [] else [ws[|ws| - 1]]
  }

  function Failures(fs: seq<FileRef>): seq<FileEnd> { seq(|fs|, i requires 0 <= i < |fs| => FileEnd(fs[i], false)) }

  function SharedCopies(fs: seq<FileRef>, x: Slot): seq<LoadCopy> { seq(|fs|, i requires 0 <= i < |fs| => LoadCopy(fs[i], x, Shared)) }

  lemma {:induction false} StillWaitingConcat(a: seq<FileRef>, b: seq<FileRef>, h: Hash)
    ensures StillWaiting(a + b, h) == StillWaiting(a, h) + StillWaiting(b, h)
  {
    if b == [] {
      assert a + b == a;
    } else {
      assert (a + b)[..|a + b| - 1] == a + b[..|b| - 1];
      StillWaitingConcat(a, b[..|b| - 1], h);
    }
  }

  lemma StillWaitingRemoved(ws: seq<FileRef>, k: nat, h: Hash)
    requires k < |ws| && ws[k].hash == h
    ensures StillWaiting(RemoveAt(ws, k), h) == StillWaiting(ws, h)
  {
    hide StillWaiting;
    assert ws == ws[..k] + ([ws[k]] + ws[k + 1..]);
    StillWaitingConcat(ws[..k], [ws[k]] + ws[k + 1..], h);
    StillWaitingConcat([ws[k]], ws[k + 1..], h);
    StillWaitingConcat(ws[..k], ws[k + 1..], h);
    OneStillWaiting(ws[k], h);
  }

  lemma OneStillWaiting(f: FileRef, h: Hash)
    ensures StillWaiting([f], h) == if f.hash == h then [] else [f]
  {
    assert [f][..0] == [];
  }

  lemma {:induction false} NobodyWaiting(ws: seq<FileRef>, h: Hash)
    requires forall i :: 0 <= i < |ws| ==> ws[i].hash != h
    ensures StillWaiting(ws, h) == ws && Waiting(ws, h) == []
  {
    if ws != [] { NobodyWaiting(ws[..|ws| - 1], h); }
  }

  /** Who is taken out first, and who stays. */
  lemma Popped(s: State, h: Hash)
    ensures var (s', f) := PopWaiter(s, h);
      && s' == s.(waiters := s'.waiters)
      && StillWaiting(s'.waiters, h) == StillWaiting(s.waiters, h)
      && (if Waiting(s.waiters, h) == [] then f.None? && s' == s && StillWaiting(s.waiters, h) == s.waiters
          else f == Some(Waiting(s.waiters, h)[0]) && Waiting(s'.waiters, h) == Waiting(s.waiters, h)[1..])
      && (f.Some? ==> f.value in s.waiters && |s'.waiters| < |s.waiters| && forall g :: g in s'.waiters ==> g in s.waiters)
  {
    hide Of, StillWaiting;
    var k := WaiterIndex(s.waiters, h);
    if k == |s.waiters| {
      NobodyWaiting(s.waiters, h);
    } else {
      TakesHead(s.waiters, WaitKey(), k, h);
      StillWaitingRemoved(s.waiters, k, h);
    }
  }

  lemma FailuresNext(fs: seq<FileRef>)
    requires fs != []
    ensures Failures(fs) == [FileEnd(fs[0], false)] + Failures(fs[1..])
  {
  }

  lemma CopiesNext(fs: seq<FileRef>, x: Slot)
    requires fs != []
    ensures SharedCopies(fs, x) == [LoadCopy(fs[0], x, Shared)] + SharedCopies(fs[1..], x)
  {
  }

  /** Every waiting file fails, the one that waited longest first. */
  lemma {:induction false} AllFail(s: State, h: Hash)
    requires forall f :: f in s.waiters ==> f.job < |s.work.jobs|
    ensures var s' := FailWaiters(s, h);
      && s' == s.(waiters := StillWaiting(s.waiters, h), work := s'.work)
      && s'.work.log == s.work.log + Failures(Waiting(s.waiters, h)) && s'.work.active == s.work.active
    decreases |s.waiters|
  {
    hide FailWaiters, FileTerminal, PopWaiter, Of, StillWaiting, Failures;
    FailAllIs(s, h);
    Popped(s, h);
    NoFailures();
    var (s', f) := PopWaiter(s, h);
    if f.Some? {
      LoggedFile(s.work, f.value, false);
      JobCountKept(s.work, f.value);
      FailuresNext(Waiting(s.waiters, h));
      AllFail(s.(waiters := s'.waiters, work := FileTerminal(s.work, f.value, false)), h);
    }
  }

  lemma NoFailures()
    ensures Failures([]) == []
  {
  }

  lemma JobCountKept(w: Work, f: FileRef)
    ensures |FileTerminal(w, f, false).jobs| == |w.jobs|
  {
    hide JobAfter;
  }

  /** The file that waited longest fails, if there is one. */
  lemma FirstFails(s: State, h: Hash)
    requires forall f :: f in s.waiters ==> f.job < |s.work.jobs|
    ensures var s', waiting := FailOneWaiter(s, h), Waiting(s.waiters, h);
      && s' == s.(waiters := s'.waiters, work := s'.work) && StillWaiting(s'.waiters, h) == StillWaiting(s.waiters, h)
      && (waiting == [] ==> s' == s)
      && (waiting != [] ==> s'.work.log == s.work.log + [FileEnd(waiting[0], false)] && Waiting(s'.waiters, h) == waiting[1..])
  {
    hide FailOneWaiter, FileTerminal, PopWaiter, Of, StillWaiting;
    FailOneIs(s, h);
    Popped(s, h);
    var (s', f) := PopWaiter(s, h);
    if f.Some? { LoggedFile(s.work, f.value, false); }
  }

  /** Every waiting file gets a copy of the shared slot, the one that waited longest first. */
  lemma {:induction false} AllServed(s: State, h: Hash, x: Slot)
    ensures var s' := ServeWaiters(s, h, x);
      && s' == s.(waiters := StillWaiting(s.waiters, h), slots := s'.slots,
                  ring := s.ring.(copyReady := s.ring.copyReady + SharedCopies(Waiting(s.waiters, h), x)))
    decreases |s.waiters|
  {
    hide ServeWaiters, Served, Decref, AddCopies, PopWaiter, HasWaiter, Of, StillWaiting, SharedCopies, RequestOf;
    ServeIs(s, h, x);
    ServedIs(s, h, x);
    Popped(s, h);
    PopWaiterIs(s, h);
    NoCopies(x);
    if HasWaiter(s, h) {
      CopiesNext(Waiting(s.waiters, h), x);
      AllServed(Served(s, h, x), h, x);
      var (s1, f) := PopWaiter(s, h);
      assert s.ring.copyReady + [LoadCopy(f.value, x, Shared)] + SharedCopies(Waiting(s1.waiters, h), x)
          == s.ring.copyReady + SharedCopies(Waiting(s.waiters, h), x);
    }
  }

  lemma NoCopies(x: Slot)
    ensures SharedCopies([], x) == []
  {
  }

  lemma AllWaitersLive(s: State)
    requires Reached(s)
    ensures forall f :: f in s.waiters ==> f.job < |s.work.jobs|
  {
    hide Reached;
    forall f | f in s.waiters ensures f.job < |s.work.jobs| {
      var i :| 0 <= i < |s.waiters| && s.waiters[i] == f;
      WaiterIsLive(s, i);
    }
  }

  // ---------- Reads of loads ----------

  /** Operation `ud` has left the ring, and the file it read is being closed if that could be queued. */
  function Reaped(g: Ring, ud: nat, closed: bool): map<nat, Op> {
    if closed then (g.inflight - {ud})[g.nextUd := Close] else g.inflight - {ud}
  }

  lemma SlotOfRead(s: State, ud: nat)
    requires Reached(s) && ud in s.ring.inflight && IsRead(s.ring.inflight[ud])
    ensures 0 <= s.ring.inflight[ud].slot < s.Cfg().slotCount && s.ring.inflight[ud].slot !in s.memory
  {
    hide Reached;
    var x := s.ring.inflight[ud].slot;
    assert Holds(s, x, OpAt(ud));
    NoStraySlots(s, x, OpAt(ud));
    assert ud in s.ring.inflight.Keys;
    BeingFilledIsBlank(s, x);
  }

  /** A load's read that did what it should: the slot has the bytes, and a copy that owns it is queued. One that did
      not: the slot is free, holds nobody's bytes, and the file has failed. */
  lemma LoadReadCompletes(s: State, ud: nat, ok: bool, closed: bool)
    requires Reached(s) && ud in s.ring.inflight && s.ring.inflight[ud].ReadLoad?
    ensures var f, x, s' := s.ring.inflight[ud].file, s.ring.inflight[ud].slot, Step(s, OpCompletion(ud, ok, closed));
      && s'.demand == s.demand && s'.waiters == s.waiters
      && s'.ring == s.ring.(inflight := Reaped(s.ring, ud, closed), nextUd := s.ring.nextUd + 1, dataInflight := s.ring.dataInflight - 1,
                            copyReady := s.ring.copyReady + if ok then [LoadCopy(f, x, Owned)] else [])
      && (ok ==> s'.work == s.work && s'.slots == s.slots && s'.memory == s.memory[x := f.hash])
      && (!ok ==> s'.work.log == s.work.log + [FileEnd(f, false)] && s'.slots == s.slots.(free := s.slots.free + [x])
                  && s'.memory == s.memory && x !in s'.memory)
  {
    hide Reached, FileTerminal;
    OpIsLive(s, ud, s.ring.inflight[ud].file);
    SlotOfRead(s, ud);
    LoggedFile(s.work, s.ring.inflight[ud].file, false);
    assert s.ring.copyReady + [] == s.ring.copyReady;
  }

  // ---------- Reads of preloads ----------

  /** A private preload's read that did what it should goes to the file that has waited longest for its hash, and if
      there is none it is staged behind the other copies of the hash. After one that did not, the slot is free and that
      file has failed. */
  lemma PrivateReadCompletes(s: State, ud: nat, ok: bool, closed: bool)
    requires Reached(s) && !s.Cfg().sharePreload && ud in s.ring.inflight && s.ring.inflight[ud].ReadPreload?
    ensures var info, x, s' := s.ring.inflight[ud].info, s.ring.inflight[ud].slot, Step(s, OpCompletion(ud, ok, closed));
      var h, waiting := info.hash, Waiting(s.waiters, info.hash);
      && s'.ring == s.ring.(inflight := Reaped(s.ring, ud, closed), nextUd := s.ring.nextUd + 1, dataInflight := s.ring.dataInflight - 1,
                            copyReady := s.ring.copyReady + if ok && waiting != [] then [LoadCopy(waiting[0], x, Owned)] else [])
      && StillWaiting(s'.waiters, h) == StillWaiting(s.waiters, h)
      && Waiting(s'.waiters, h) == (if waiting != [] then waiting[1..] else [])
      && (ok ==> s'.memory == s.memory[x := h] && s'.work == s.work
                 && s'.slots == if waiting != [] then s.slots else s.slots.(preload := s'.slots.preload, cachedTotal := s.slots.cachedTotal + 1))
      && (ok && waiting == [] ==>
            forall g: Hash :: Of(s'.slots.preload, CopyKey(), g) == Of(s.slots.preload, CopyKey(), g) + if g == h then [Staged(x, info)] else [])
      && (!ok ==> s'.memory == s.memory && x !in s'.memory && s'.slots == s.slots.(free := s.slots.free + [x])
                  && s'.work.log == s.work.log + if waiting != [] then [FileEnd(waiting[0], false)] else [])
  {
    hide Reached, FileTerminal, PopWaiter, FailOneWaiter, InflightRemove, Of, StillWaiting, PreloadPush, HasWaiter;
    var info, x := s.ring.inflight[ud].info, s.ring.inflight[ud].slot;
    SlotOfRead(s, ud);
    AllWaitersLive(s);
    var g := s.ring.(inflight := s.ring.inflight - {ud});
    var s1 := s.(ring := AddData(g, -1), demand := InflightRemove(s.demand, info.hash));
    var filled, freed := s1.(memory := s1.memory[x := info.hash]), s1.(slots := Release(s1.slots, x));
    Popped(filled, info.hash);
    PopWaiterIs(filled, info.hash);
    FirstFails(freed, info.hash);
    PushedOnly(s.slots, x, info);
    forall k: Hash ensures Of(PreloadPush(s.slots, x, info).preload, CopyKey(), k) == Of(s.slots.preload, CopyKey(), k) + if k == info.hash then [Staged(x, info)] else [] {
      PushesBehind(s.slots, x, info, k);
    }
    assert s.ring.copyReady + [] == s.ring.copyReady && s.work.log + [] == s.work.log;
  }

  lemma PushedOnly(z: Slots, x: Slot, info: Info)
    ensures PreloadPush(z, x, info) == z.(preload := PreloadPush(z, x, info).preload, cachedTotal := z.cachedTotal + 1)
  {
  }

  // ---------- Opens ----------

  /** A load's open that did what it should: the file is ready to be read. One that did not: the file has failed. */
  lemma LoadOpenCompletes(s: State, ud: nat, ok: bool, closed: bool)
    requires Reached(s) && ud in s.ring.inflight && s.ring.inflight[ud].OpenLoad?
    ensures var f, s' := s.ring.inflight[ud].file, Step(s, OpCompletion(ud, ok, closed));
      && s' == s.(ring := s.ring.(inflight := s.ring.inflight - {ud}, openInflight := s.ring.openInflight - 1,
                                  readyLoad := s.ring.readyLoad + if ok then [f] else []), work := s'.work)
      && (ok ==> s'.work == s.work) && (!ok ==> s'.work.log == s.work.log + [FileEnd(f, false)])
  {
    hide Reached, FileTerminal;
    OpIsLive(s, ud, s.ring.inflight[ud].file);
    LoggedFile(s.work, s.ring.inflight[ud].file, false);
    assert s.ring.readyLoad + [] == s.ring.readyLoad;
  }

  /** A close only leaves the ring, whatever its result. */
  lemma CloseCompletes(s: State, ud: nat, ok: bool, closed: bool)
    requires ud in s.ring.inflight && s.ring.inflight[ud].Close?
    ensures Step(s, OpCompletion(ud, ok, closed)) == s.(ring := s.ring.(inflight := s.ring.inflight - {ud}))
  {
  }

  /** The requests that want a block are remembered in one of two tables. */
  function Marks(table: map<Hash, seq<Info>>, h: Hash): seq<Info> { if h in table then table[h] else [] }

  /** The preload of `info` has found no file and nobody waits for it: its demand is parked if a store of the block is
      under way, and otherwise remembered as missing, where the oldest misses may be forgotten for it. */
  ghost predicate Missed(d: Demand, d': Demand, info: Info) {
    var h := info.hash;
    if h in d.storeInflight then d' == d.(blocked := d.blocked[h := Marks(d.blocked, h) + [info]])
    else
      && d' == d.(missing := d'.missing, missingOrder := d'.missingOrder)
      && h in d'.missing && d'.missing[h] == Marks(d.missing, h) + [info]
      && d'.missingOrder == Suffix(MoveToEnd(d.missingOrder, h), MAX_KNOWN_MISSING)
      && (forall g :: g in d'.missing && g != h ==> g in d.missing && d'.missing[g] == d.missing[g])
      && (forall g :: g in d'.missing <==> g in d'.missingOrder)
  }

  lemma {:induction false} TrimIsSuffix(d: Demand)
    ensures TrimMissing(d).missingOrder == Suffix(d.missingOrder, MAX_KNOWN_MISSING)
    decreases |d.missingOrder|
  {
    if |d.missingOrder| > MAX_KNOWN_MISSING {
      var d1 := d.(missing := d.missing - {d.missingOrder[0]}, missingOrder := d.missingOrder[1..]);
      TrimIsSuffix(d1);
    }
  }

  lemma AddedIs(d: Demand, info: Info)
    ensures var d' := AddMissing(d, info);
      && d' == d.(missing := d'.missing, missingOrder := MoveToEnd(d.missingOrder, info.hash))
      && d'.missing == d.missing[info.hash := Marks(d.missing, info.hash) + [info]]
  {
    hide MoveToEnd;
  }

  lemma KeysOrdered(missing: map<Hash, seq<Info>>, order: seq<Hash>)
    requires MissingAgree(missing, order)
    ensures forall h :: h in missing <==> h in order
  {
    hide Distinct, AllFor;
  }

  lemma LastOfSuffix(order: seq<Hash>, n: nat)
    requires order != [] && n > 0
    ensures order[|order| - 1] in Suffix(order, n)
  {
    assert Suffix(order, n)[|Suffix(order, n)| - 1] == order[|order| - 1];
  }

  lemma MissingIs(d: Demand, info: Info)
    requires MissingAgree(d.missing, d.missingOrder)
    ensures Missed(d, PreloadMissed(d, info), info)
  {
    hide TrimMissing, AddMissing, MoveToEnd, MissingAgree, Suffix;
    AddMissingAgrees(d, info);
    AddedIs(d, info);
    TrimAgrees(AddMissing(d, info));
    TrimIsSuffix(AddMissing(d, info));
    EndOfMoved(d.missingOrder, info.hash);
    LastOfSuffix(MoveToEnd(d.missingOrder, info.hash), MAX_KNOWN_MISSING);
    KeysOrdered(RememberMissing(d, info).missing, RememberMissing(d, info).missingOrder);
  }

  lemma EndOfMoved(order: seq<Hash>, h: Hash)
    ensures MoveToEnd(order, h) != [] && MoveToEnd(order, h)[|MoveToEnd(order, h)| - 1] == h
  {
  }

  lemma MissingNow(s: State)
    requires Reached(s)
    ensures MissingAgree(s.demand.missing, s.demand.missingOrder)
  {
    hide Reached, SlotPart, FilePart, BudgetsOk, CountsOk, WaitersOk, Unique, Total, MissingAgree;
    ReachedInv(s);
  }

  /** The preload of the hash is no longer under way. */
  lemma NoLongerUnderWay(s: State, ud: nat)
    requires Reached(s) && ud in s.ring.inflight && s.ring.inflight[ud].OpenPreload?
    ensures var h := s.ring.inflight[ud].info.hash;
      var d' := InflightRemove(s.demand, h);
      && d' == s.demand.(inflightHashes := d'.inflightHashes, inflightTotal := s.demand.inflightTotal - 1)
      && Count(d'.inflightHashes, h) == Count(s.demand.inflightHashes, h) - 1
  {
    hide Reached, OpsIf, CountIf;
    var h := s.ring.inflight[ud].info.hash;
    InflightCounts(s, h);
    UnderWayCounts(s.ring, ud, h);
  }

  lemma UnderWayCounts(g: Ring, ud: nat, h: Hash)
    requires ud in g.inflight && PreloadOp(h)(g.inflight[ud])
    ensures PreloadsOf(g, h) >= 1
  {
    hide CountIf;
    assert ud in OpsIf(g.inflight, PreloadOp(h));
  }

  /** The files that fail with a preload: all that wait for its hash if preloads are shared, else the first. */
  function Failing(share: bool, waiting: seq<FileRef>): seq<FileRef> { if share || waiting == [] then waiting else waiting[..1] }

  /** A preload's open that did what it should: the file is ready to be read. One that did not fails those that wait
      for it, and its demand is remembered if nobody does. */
  lemma PreloadOpenCompletes(s: State, ud: nat, ok: bool, closed: bool)
    requires Reached(s) && ud in s.ring.inflight && s.ring.inflight[ud].OpenPreload?
    ensures var info, s' := s.ring.inflight[ud].info, Step(s, OpCompletion(ud, ok, closed));
      var h, waiting, d := info.hash, Waiting(s.waiters, info.hash), InflightRemove(s.demand, info.hash);
      var failing := if ok then [] else Failing(s.Cfg().sharePreload, waiting);
      && s'.ring == s.ring.(inflight := s.ring.inflight - {ud}, openInflight := s.ring.openInflight - 1,
                            readyPreload := s.ring.readyPreload + if ok then [info] else [])
      && s'.slots == s.slots && s'.memory == s.memory
      && s'.work.log == s.work.log + Failures(failing)
      && StillWaiting(s'.waiters, h) == StillWaiting(s.waiters, h) && Waiting(s'.waiters, h) == waiting[|failing|..]
      && (ok ==> s'.work == s.work && s'.demand == s.demand)
      && (!ok && waiting != [] ==> s'.demand == d)
      && (!ok && waiting == [] ==> s'.work == s.work && Missed(d, s'.demand, info))
  {
    hide Reached, InflightRemove, PreloadMissed, Missed, FailWaiters, FailOneWaiter, HasWaiter, Of, StillWaiting, Failures, MissingAgree;
    NoFailures();
    var waiting := Waiting(s.waiters, s.ring.inflight[ud].info.hash);
    assert waiting[0..] == waiting && s.work.log + [] == s.work.log && s.ring.readyPreload + [] == s.ring.readyPreload;
    if !ok { PreloadOpenFails(s, ud); }
  }

  lemma PreloadOpenFails(s: State, ud: nat)
    requires Reached(s) && ud in s.ring.inflight && s.ring.inflight[ud].OpenPreload?
    ensures var info := s.ring.inflight[ud].info;
      var s1 := s.(ring := AddOpen(s.ring.(inflight := s.ring.inflight - {ud}), -1));
      var s', h, waiting, d := PreloadOpenFailed(s1, info), info.hash, Waiting(s.waiters, info.hash), InflightRemove(s.demand, info.hash);
      var failing := Failing(s.Cfg().sharePreload, waiting);
      && s' == s1.(work := s'.work, waiters := s'.waiters, demand := s'.demand)
      && s'.work.log == s.work.log + Failures(failing)
      && StillWaiting(s'.waiters, h) == StillWaiting(s.waiters, h) && Waiting(s'.waiters, h) == waiting[|failing|..]
      && (waiting != [] ==> s'.demand == d)
      && (waiting == [] ==> s'.work == s.work && Missed(d, s'.demand, info))
  {
    hide Reached, InflightRemove, PreloadMissed, Missed, FailWaiters, FailOneWaiter, HasWaiter, PopWaiter, Of, StillWaiting, Failures, MissingAgree, CountIf, OpsIf;
    var info := s.ring.inflight[ud].info;
    var h := info.hash;
    var s1 := s.(ring := AddOpen(s.ring.(inflight := s.ring.inflight - {ud}), -1), demand := InflightRemove(s.demand, h));
    NoLongerUnderWay(s, ud);
    MissingNow(s);
    AllWaitersLive(s);
    MissingIs(s1.demand, info);
    Popped(s1, h);
    PopWaiterIs(s1, h);
    AllFail(s1, h);
    FirstFails(s1, h);
    NoFailures();
    NoneStillWaiting(s.waiters, h);
    var waiting := Waiting(s.waiters, h);
    if waiting != [] {
      FailuresNext([waiting[0]]);
      assert [waiting[0]][1..] == [] && [FileEnd(waiting[0], false)] + [] == [FileEnd(waiting[0], false)];
    }
    assert s.work.log + [] == s.work.log && waiting[|waiting|..] == [] && waiting[0..] == waiting;
    assert waiting != [] ==> waiting[..1] == [waiting[0]];
  }

  /** Those that do not wait for `h` do not wait for it. */
  lemma {:induction false} NoneStillWaiting(ws: seq<FileRef>, h: Hash)
    ensures Waiting(StillWaiting(ws, h), h) == [] && StillWaiting(StillWaiting(ws, h), h) == StillWaiting(ws, h)
    ensures forall f :: f in StillWaiting(ws, h) ==> f.hash != h
  {
    if ws != [] { NoneStillWaiting(ws[..|ws| - 1], h); }
    NobodyWaiting(StillWaiting(ws, h), h);
  }
}
