/** How far each loop of a turn goes: it stops only when nothing more can be done at that point. */
module ReactorTurns {
  import opened Outcomes
  import opened OrderedKeys
  import opened ReactorState
  import opened ReactorSlots
  import opened Reactor
  import opened ReactorFrames
  import opened ReactorCompletions

  // ---------- The last event of a run ----------

  /** The last event of the run found no slot for a load or a store. */
  ghost predicate SlotsRanOut(s: State, es: seq<Event>) {
    es != [] && var front := es[..|es| - 1]; IsRun(s, front) && ReserveForeground(After(s, front).slots).1.None?
  }

  lemma RanOutNow(s: State, es: seq<Event>, e: Event)
    requires IsRun(s, es) && ReserveForeground(After(s, es).slots).1.None?
    ensures SlotsRanOut(s, es + [e])
  {
    hide IsRun, After, ReserveForeground;
    assert (es + [e])[..|es|] == es;
  }

  /** The last event of the run was the turn of the first open preload, which stayed where it was. */
  ghost predicate PreloadStayed(s: State, es: seq<Event>) {
    && es != [] && es[|es| - 1].PreloadFd? && IsRun(s, es)
    && var front := es[..|es| - 1]; IsRun(s, front) && After(s, es).ring.readyPreload == After(s, front).ring.readyPreload
  }

  lemma StayedNow(s: State, es: seq<Event>, e: Event)
    requires IsRun(s, es) && e.PreloadFd? && Enabled(After(s, es), e)
    requires Step(After(s, es), e).ring.readyPreload == After(s, es).ring.readyPreload
    ensures PreloadStayed(s, es + [e])
  {
    hide IsRun, After, Enabled, Step;
    RunAppend(s, es, e);
    assert (es + [e])[..|es|] == es;
  }

  // ---------- Operations that have completed ----------

  /** The operations with the numbers used so far are the same. */
  predicate OldOps(g: Ring, g': Ring) {
    g'.nextUd >= g.nextUd && forall u: nat | u < g.nextUd :: u in g'.inflight <==> u in g.inflight
  }

  /** Of the operations with the numbers used so far, exactly `ud` has left. */
  predicate Left(g: Ring, g': Ring, ud: nat) {
    g'.nextUd >= g.nextUd && forall u: nat | u < g.nextUd :: u in g'.inflight <==> u in g.inflight && u != ud
  }

  lemma ClosedOps(g: Ring, g': Ring, closed: bool)
    requires OldOps(g, g')
    ensures OldOps(g, AsyncClose(g', closed))
  {
  }

  lemma SharedOps(s: State, info: Info, x: Slot, ok: bool)
    ensures OldOps(s.ring, SharedReadDone(s, info, x, ok).ring)
  {
    hide FailWaiters, ServeWaiters, InflightRemove, KeepOrRelease, Release, SharedCopies, Waiting, StillWaiting;
    var s1 := s.(demand := InflightRemove(s.demand, info.hash));
    FailWaitersCalm(s1, info.hash);
    AllServed(Arrived(s1, info.hash, x), info.hash, x);
  }

  lemma PrivateOps(s: State, info: Info, x: Slot, ok: bool)
    ensures OldOps(s.ring, PrivateReadDone(s, info, x, ok).ring)
  {
    hide FailOneWaiter, PopWaiter, InflightRemove, PreloadPush, Release, HasWaiter;
    var s1 := s.(demand := InflightRemove(s.demand, info.hash));
    FailOneCalm(s1.(slots := Release(s1.slots, x)), info.hash);
    PopWaiterIs(s1.(memory := s1.memory[x := info.hash]), info.hash);
  }

  lemma OpenOps(s: State, info: Info, ok: bool)
    ensures OldOps(s.ring, OpenPreloadDone(s, info, ok).ring)
  {
    hide FailWaiters, FailOneWaiter, InflightRemove, PreloadMissed, HasWaiter;
    var s1 := s.(demand := InflightRemove(s.demand, info.hash));
    FailWaitersCalm(s1, info.hash);
    FailOneCalm(s1, info.hash);
  }

  lemma DoneOps(s: State, op: Op, ok: bool, closed: bool)
    ensures OldOps(s.ring, OpDone(s, op, ok, closed).ring)
  {
    hide OpenPreloadDone, SharedReadDone, PrivateReadDone, WriteDone, FileTerminal, Release, AsyncClose;
    var open, data := s.(ring := AddOpen(s.ring, -1)), s.(ring := AddData(s.ring, -1));
    match op
    case OpenLoad(f) =>
    case OpenPreload(info) => OpenOps(open, info, ok);
    case ReadLoad(f, x) => ClosedOps(s.ring, ReadLoadDone(data, f, x, ok).ring, closed);
    case ReadPreload(info, x) =>
      SharedOps(data, info, x, ok);
      PrivateOps(data, info, x, ok);
      ClosedOps(s.ring, ReadPreloadDone(data, info, x, ok).ring, closed);
    case Write(f, x) => WriteDoneStep(data, f, x, ok);
    case Close =>
  }

  lemma CompletedLeaves(s: State, ud: nat, ok: bool, closed: bool)
    requires ud in s.ring.inflight
    ensures Left(s.ring, OpCompletes(s, ud, ok, closed).ring, ud)
  {
    hide OpDone;
    DoneOps(s.(ring := s.ring.(inflight := s.ring.inflight - {ud})), s.ring.inflight[ud], ok, closed);
  }

  /** None of the first `n` completions is still in flight, as far as their numbers were used before. */
  ghost predicate Handled(g: Ring, g': Ring, completions: seq<(nat, bool, bool)>, n: nat)
    requires n <= |completions|
  {
    && g'.nextUd >= g.nextUd
    && forall i :: 0 <= i < n && completions[i].0 < g.nextUd ==> completions[i].0 !in g'.inflight
  }

  lemma HandlesNone(g: Ring, completions: seq<(nat, bool, bool)>)
    ensures Handled(g, g, completions, 0)
  {
  }

  lemma HandlesNext(g: Ring, g1: Ring, g2: Ring, completions: seq<(nat, bool, bool)>, n: nat)
    requires n < |completions| && Handled(g, g1, completions, n)
    requires if completions[n].0 in g1.inflight then Left(g1, g2, completions[n].0) else g2 == g1
    ensures Handled(g, g2, completions, n + 1)
  {
  }

  // ---------- Jobs that are finished ----------

  lemma {:induction false} NoneFinished(w: Work, active: seq<JobId>, left: seq<JobId>)
    ensures forall j :: j in Remaining(w, active) ==> !Finished(w.(active := left), j)
  {
    hide Drained;
    if active != [] { NoneFinished(w, active[..|active| - 1], left); }
  }
}
