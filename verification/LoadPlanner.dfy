/** The load planner of py_kvcache/load_planner.py as values: one step per candidate, folded over a
    planning call. The planner object that runs it is in LoadPlannerObject. */
module Planning {
  import opened Outcomes
  import CM = CostModel

  type ReqId = nat
  type BlockHash = nat

  /** Consecutive calls a request may be absent before what is remembered about it is dropped. */
  const STAGED_ABSENCE_LIMIT := 4

  datatype Decision = Admit | Defer | Decline

  datatype Candidate = Candidate(reqId: ReqId, recomputeTokens: int, loadBlocks: nat, hashes: seq<BlockHash>,
                                 blockedOnStore: bool, dramResident: bool)

  datatype PlanResult = PlanResult(decision: Decision, preloadBlocks: nat)

  /** A read in the modelled storage queue. */
  datatype Staging = Staging(reqId: ReqId, serviceS: real, startsAt: real, endsAt: real, emitted: nat)

  datatype Config = Config(tables: CM.CostTables, maxPreloadSlots: nat, tolerance: real, deadlineMinS: real, deadlineMaxS: real)

  /** What the planner remembers between calls. */
  datatype Planner = Planner(entries: seq<Staging>, byReq: map<ReqId, Staging>, staged: map<ReqId, nat>,
                             deadlineAt: map<ReqId, real>, deadlineAbsent: map<ReqId, nat>)

  const EMPTY_PLANNER := Planner([], map[], map[], map[], map[])

  /** State of a planning call between candidates. `deliveries` lists every modelled delivery in the
      order in which it was recorded; `results` has one entry per candidate handled. */
  datatype Call = Call(p: Planner, storageWait: real, gpuWait: real, budget: int, stagedAt: map<BlockHash, real>,
                       deliveries: seq<(BlockHash, real)>, results: seq<PlanResult>)

  function Max(a: real, b: real): real { if a >= b then a else b }

  function Min(a: real, b: real): real { if a <= b then a else b }

  /** The first `n` elements, or all of them. */
  function Take<T>(s: seq<T>, n: nat): seq<T> { if n <= |s| then s[..n] else s }

  // ---------- Shared hashes ----------

  function DistinctCount(hashes: seq<BlockHash>, stagedAt: map<BlockHash, real>): (n: nat)
    ensures n <= |hashes|
  {
    if hashes == [] then 0
    else DistinctCount(hashes[..|hashes| - 1], stagedAt) + if hashes[|hashes| - 1] in stagedAt then 0 else 1
  }

  /** When the last already covered hash is delivered; zero if none is covered. */
  function CoveredReady(hashes: seq<BlockHash>, stagedAt: map<BlockHash, real>): real {
    if hashes == [] then 0.0
    else
      var h, before := hashes[|hashes| - 1], hashes[..|hashes| - 1];
      if h !in stagedAt then CoveredReady(before, stagedAt)
      else if DistinctCount(before, stagedAt) == |before| then stagedAt[h]
      else Max(CoveredReady(before, stagedAt), stagedAt[h])
  }

  /** Modelled delivery of block `i` of `total`, spread evenly over the read. */
  function ReadyAt(start: real, span: real, i: nat, total: nat): real
    requires total > 0
  {
    start + span * ((i + 1) as real) / (total as real)
  }

  /** The deliveries of a read of `hashes`, block by block. */
  function Deliveries(hashes: seq<BlockHash>, start: real, end: real): seq<(BlockHash, real)> {
    seq(|hashes|, i requires 0 <= i < |hashes| => (hashes[i], ReadyAt(start, Max(0.0, end - start), i, |hashes|)))
  }

  /** Keeps the earliest delivery of each hash. */
  function Earliest(stagedAt: map<BlockHash, real>, ds: seq<(BlockHash, real)>): map<BlockHash, real> {
    if ds == [] then stagedAt
    else
      var (h, t) := ds[|ds| - 1];
      var m := Earliest(stagedAt, ds[..|ds| - 1]);
      if h !in m || t < m[h] then m[h := t] else m
  }

  function Record(s: Call, hashes: seq<BlockHash>, start: real, end: real): Call {
    var ds := Deliveries(hashes, start, end);
    s.(stagedAt := Earliest(s.stagedAt, ds), deliveries := s.deliveries + ds)
  }

  // ---------- The modelled queue ----------

  function Retire(p: Planner, now: real): Planner
    decreases |p.entries|
  {
    if p.entries != [] && p.entries[0].endsAt <= now then
      var e := p.entries[0];
      Retire(p.(entries := p.entries[1..], byReq := p.byReq - {e.reqId}, staged := p.staged[e.reqId := 0]), now)
    else p
  }

  function Residual(p: Planner, now: real): real {
    if p.entries == [] then 0.0 else Max(0.0, p.entries[|p.entries| - 1].endsAt - now)
  }

  function JobsFloor(cfg: Config, outstanding: seq<int>): real
    requires cfg.tables.Valid()
  {
    if outstanding == [] then 0.0
    else JobsFloor(cfg, outstanding[..|outstanding| - 1]) + cfg.tables.ServiceSOf(outstanding[|outstanding| - 1])
  }

  function NewEntry(p: Planner, r: ReqId, serviceS: real, now: real, emitted: nat): Staging {
    var startsAt := if p.entries == [] then now else Max(now, p.entries[|p.entries| - 1].endsAt);
    Staging(r, serviceS, startsAt, startsAt + serviceS, emitted)
  }

  function Enqueue(p: Planner, r: ReqId, serviceS: real, now: real, emitted: nat): Planner {
    var e := NewEntry(p, r, serviceS, now, emitted);
    p.(entries := p.entries + [e], byReq := p.byReq[r := e])
  }

  // ---------- Forgetting ----------

  function StagedCount(p: Planner, r: ReqId): nat {
    if r in p.staged then p.staged[r] else 0
  }

  function GcStaged(p: Planner, ids: set<ReqId>): Planner {
    p.(staged := map r | r in p.staged && (r in ids || StagedCount(p, r) + 1 <= STAGED_ABSENCE_LIMIT)
                     :: if r in ids then 0 else StagedCount(p, r) + 1)
  }

  function AbsentCount(p: Planner, r: ReqId): nat {
    if r in p.deadlineAbsent then p.deadlineAbsent[r] else 0
  }

  predicate KeepsDeadline(p: Planner, ids: set<ReqId>, r: ReqId) {
    r in p.deadlineAt && (r in ids || AbsentCount(p, r) + 1 <= STAGED_ABSENCE_LIMIT)
  }

  function GcDeadlines(p: Planner, ids: set<ReqId>): Planner {
    p.(deadlineAt := map r | r in p.deadlineAt && KeepsDeadline(p, ids, r) :: p.deadlineAt[r],
       deadlineAbsent := map r | r in p.deadlineAbsent.Keys + p.deadlineAt.Keys
                               && (r in p.deadlineAt ==> KeepsDeadline(p, ids, r) && r !in ids)
                             :: if r in p.deadlineAt then AbsentCount(p, r) + 1 else p.deadlineAbsent[r])
  }

  // ---------- Deadlines ----------

  function Grace(cfg: Config, predictedWaitS: real): real {
    Min(cfg.deadlineMaxS, Max(cfg.deadlineMinS, cfg.tolerance * predictedWaitS))
  }

  /** Only the first defer of a request arms its deadline. */
  function Arm(cfg: Config, p: Planner, r: ReqId, now: real, predictedWaitS: real): Planner {
    if r in p.deadlineAt then p else p.(deadlineAt := p.deadlineAt[r := now + Grace(cfg, predictedWaitS)])
  }

  predicate PastDeadline(p: Planner, r: ReqId, now: real) {
    r in p.deadlineAt && now >= p.deadlineAt[r]
  }

  // ---------- One candidate ----------

  function RecomputeS(cfg: Config, tokens: int): real
    requires cfg.tables.Valid()
  {
    cfg.tables.RecomputeS(-((-tokens) / cfg.tables.blockTokens))
  }

  function Decided(s: Call, d: Decision, blocks: nat): Call {
    s.(results := s.results + [PlanResult(d, blocks)])
  }

  /** Service time of `distinct` blocks; none for an empty read. */
  function Service(cfg: Config, distinct: nat): real
    requires cfg.tables.Valid()
  {
    if distinct == 0 then 0.0 else cfg.tables.ServiceSOf(distinct)
  }

  /** Some of the blocks are still being written: always defer, and prefetch if the budget allows. */
  function PlanBlocked(cfg: Config, now: real, s: Call, c: Candidate): Call
    requires cfg.tables.Valid()
  {
    if c.reqId in s.p.byReq then
      var e := s.p.byReq[c.reqId];
      Decided(Record(s, Take(c.hashes, e.emitted), Max(0.0, e.startsAt - now), Max(0.0, e.endsAt - now)), Defer, e.emitted)
    else
      var distinct := DistinctCount(c.hashes, s.stagedAt);
      if distinct <= s.budget then
        var serviceS := Service(cfg, distinct);
        var s' := s.(budget := s.budget - distinct, storageWait := s.storageWait + serviceS,
                     p := Enqueue(s.p, c.reqId, serviceS, now, c.loadBlocks));
        Decided(Record(s', c.hashes, s.storageWait, s'.storageWait), Defer, c.loadBlocks)
      else Decided(s, Defer, 0)
  }

  /** The request already waits for a modelled read. */
  function PlanOutstanding(cfg: Config, now: real, s: Call, c: Candidate): Call
    requires c.reqId in s.p.byReq
  {
    var e := s.p.byReq[c.reqId];
    if PastDeadline(s.p, c.reqId, now) then
      Decided(s.(p := s.p.(staged := s.p.staged - {c.reqId})), Admit, 0)
    else
      var wait := Max(0.0, e.endsAt - now);
      var s' := s.(p := Arm(cfg, s.p, c.reqId, now, wait));
      Decided(Record(s', Take(c.hashes, e.emitted), Max(0.0, e.startsAt - now), wait), Defer, e.emitted)
  }

  /** When the candidate's blocks would all be in memory. */
  function StorageDone(cfg: Config, s: Call, c: Candidate): real
    requires cfg.tables.Valid()
  {
    var distinct := DistinctCount(c.hashes, s.stagedAt);
    var ready := CoveredReady(c.hashes, s.stagedAt);
    if distinct == 0 then ready else Max(ready, s.storageWait + cfg.tables.ServiceSOf(distinct))
  }

  /** Recomputing is no slower than loading. */
  predicate RecomputeWins(cfg: Config, s: Call, c: Candidate)
    requires cfg.tables.Valid()
  {
    var tLoad := Max(StorageDone(cfg, s, c), s.gpuWait) + cfg.tables.LoadMemS(c.loadBlocks);
    var tRecompute := s.gpuWait + RecomputeS(cfg, c.recomputeTokens);
    tRecompute <= tLoad
  }

  /** A request without a modelled read: recompute, load now, or stage it in the background. */
  function PlanFresh(cfg: Config, now: real, s: Call, c: Candidate): Call
    requires cfg.tables.Valid()
  {
    var distinct := DistinctCount(c.hashes, s.stagedAt);
    var ready := CoveredReady(c.hashes, s.stagedAt);
    var done := StorageDone(cfg, s, c);
    if RecomputeWins(cfg, s, c) then
      Decided(s.(gpuWait := s.gpuWait + RecomputeS(cfg, c.recomputeTokens)), Decline, 0)
    else if PastDeadline(s.p, c.reqId, now) then
      Decided(s.(storageWait := done), Admit, 0)
    else if distinct <= s.budget then
      var serviceS := Service(cfg, distinct);
      var s' := s.(budget := s.budget - distinct, storageWait := s.storageWait + serviceS,
                   p := Enqueue(Arm(cfg, s.p, c.reqId, now, done), c.reqId, serviceS, now, c.loadBlocks));
      Decided(Record(s', c.hashes, Max(s.storageWait, if distinct == 0 then ready else 0.0), Max(s'.storageWait, ready)),
              Defer, c.loadBlocks)
    else
      Decided(s.(storageWait := done), Admit, 0)
  }

  function PlanOne(cfg: Config, now: real, s: Call, c: Candidate): Call
    requires cfg.tables.Valid()
  {
    if c.blockedOnStore then PlanBlocked(cfg, now, s, c)
    else if c.loadBlocks == 0 then
      Decided(s.(gpuWait := s.gpuWait + RecomputeS(cfg, c.recomputeTokens)), Decline, 0)
    else if c.dramResident || c.reqId in s.p.staged then
      Decided(s.(p := s.p.(staged := s.p.staged - {c.reqId})), Admit, 0)
    else if c.reqId in s.p.byReq then PlanOutstanding(cfg, now, s, c)
    else PlanFresh(cfg, now, s, c)
  }

  // ---------- A whole call ----------

  function Ids(cs: seq<Candidate>): set<ReqId> {
    set i | 0 <= i < |cs| :: cs[i].reqId
  }

  function Prepare(p: Planner, now: real, ids: set<ReqId>): Planner {
    GcDeadlines(GcStaged(Retire(p, now), ids), ids)
  }

  function StartCall(cfg: Config, p: Planner, now: real, ids: set<ReqId>, outstanding: seq<int>): Call
    requires cfg.tables.Valid()
  {
    var p' := Prepare(p, now, ids);
    Call(p', Max(Residual(p', now), JobsFloor(cfg, outstanding)), 0.0, cfg.maxPreloadSlots, map[], [], [])
  }

  /** The call after its first `n` candidates. */
  function PlanPrefix(cfg: Config, now: real, start: Call, cs: seq<Candidate>, n: nat): Call
    requires cfg.tables.Valid() && n <= |cs|
  {
    if n == 0 then start else PlanOne(cfg, now, PlanPrefix(cfg, now, start, cs, n - 1), cs[n - 1])
  }

  /** One planning call: when, for which candidates, and with which loads already running. */
  datatype Request = Request(now: real, candidates: seq<Candidate>, outstanding: seq<int>)

  function PlanCall(cfg: Config, p: Planner, q: Request): Call
    requires cfg.tables.Valid()
  {
    PlanPrefix(cfg, q.now, StartCall(cfg, p, q.now, Ids(q.candidates), q.outstanding), q.candidates, |q.candidates|)
  }

  /** The planner after a sequence of calls. */
  function Run(cfg: Config, p: Planner, qs: seq<Request>): Planner
    requires cfg.tables.Valid()
  {
    if qs == [] then p else PlanCall(cfg, Run(cfg, p, qs[..|qs| - 1]), qs[|qs| - 1]).p
  }

  /** The decisions as a table; the last candidate with an id wins. */
  function Decisions(cs: seq<Candidate>, results: seq<PlanResult>): map<ReqId, PlanResult>
    requires |cs| == |results|
  {
    if cs == [] then map[]
    else Decisions(cs[..|cs| - 1], results[..|cs| - 1])[cs[|cs| - 1].reqId := results[|cs| - 1]]
  }
}
