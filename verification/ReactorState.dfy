/** The data the I/O reactor of py_kvcache/reactor.py works on, grouped by what changes together. */
module ReactorState {
  import opened Outcomes
  import opened OrderedKeys
  import SC = StagingCache

  type Hash = SC.BlockHash
  type ReqId = nat
  type JobId = nat
  type Slot = int

  const MAX_PRELOAD_OWNED := 16384
  const MAX_KNOWN_MISSING := 4096

  // ---------- State ----------

  /** File `index` of a job, with the hash of its contents. */
  datatype FileRef = FileRef(job: JobId, index: nat, hash: Hash)

  datatype Outcome = Succeeded | Failed | Declined

  /** `outcomes` lists every resolution of the job's future. */
  datatype Job = Job(isStore: bool, reqId: ReqId, hashes: seq<Hash>, next: nat, inflight: int, done: int,
                     failed: bool, futureSet: bool, outcomes: seq<Outcome>)

  /** One request's demand for a block. */
  datatype Info = Info(hash: Hash, reqId: ReqId)

  datatype Op =
    | OpenLoad(file: FileRef)
    | OpenPreload(info: Info)
    | ReadLoad(file: FileRef, slot: Slot)
    | ReadPreload(info: Info, slot: Slot)
    | Write(file: FileRef, slot: Slot)
    | Close

  /** What keeps the slot of a load copy alive: the copy itself, a shared slot object or a cache entry. */
  datatype Source = Owned | Shared | Cached

  datatype LoadCopy = LoadCopy(file: FileRef, slot: Slot, source: Source)

  datatype Copy = StoreCopy(file: FileRef, slot: Slot) | LoadBatch(members: seq<LoadCopy>)

  /** A private preload copy waiting to be claimed. */
  datatype Staged = Staged(slot: Slot, info: Info)

  /** A shared preload slot object, identified by its slot. */
  datatype SharedSlot = SharedSlot(hash: Hash, copies: int, cached: bool)

  datatype FileEnd = FileEnd(file: FileRef, ok: bool)

  datatype Config = Config(slotCount: nat, iodepth: nat, openLookahead: nat, sharePreload: bool, hasCache: bool)
  {
    /** Slots that are not set aside for foreground loads. */
    function MaxPreloadSlots(): nat { if slotCount >= iodepth then slotCount - iodepth else 0 }
  }

  /** Jobs, the ones being worked on, and every file that has ended. */
  datatype Work = Work(jobs: seq<Job>, active: seq<JobId>, log: seq<FileEnd>)

  /** Operations of the ring, files that are open, and copies to and from the GPU. `nextUd` is the number the
      next operation gets. */
  datatype Ring = Ring(inflight: map<nat, Op>, nextUd: nat, dataInflight: int, openInflight: int,
                       readyLoad: seq<FileRef>, readyPreload: seq<Info>,
                       copyReady: seq<LoadCopy>, pendingCopies: seq<Copy>)

  /** Free slots, retained slots, preload copies (private ones grouped by hash, in order) and the demand
      that keeps shared ones. */
  datatype Slots = Slots(cfg: Config, free: seq<Slot>, cache: SC.Cache, preload: seq<Staged>, cachedTotal: int,
                         shared: map<Slot, SharedSlot>, sharedCached: seq<Slot>,
                         owned: seq<(ReqId, Hash)>, refcount: map<Hash, int>)

  /** Preloads queued, under way, parked on a store, or known to have no file; and stores under way. */
  datatype Demand = Demand(pending: seq<Info>, pendingCount: map<Hash, int>, pendingCancel: map<Hash, int>,
                           inflightHashes: map<Hash, int>, inflightTotal: int,
                           storeInflight: map<Hash, int>, blocked: map<Hash, seq<Info>>,
                           missing: map<Hash, seq<Info>>, missingOrder: seq<Hash>)

  /** `waiters` holds the files waiting for a preload, first come first; `memory` says which hash's
      bytes a staging slot holds, if any. */
  datatype State = State(work: Work, ring: Ring, slots: Slots, demand: Demand, waiters: seq<FileRef>, memory: map<Slot, Hash>)
  {
    function Cfg(): Config { slots.cfg }
  }

  // ---------- Counters ----------

  function Count(m: map<Hash, int>, h: Hash): int { if h in m then m[h] else 0 }

  function Raise(m: map<Hash, int>, h: Hash): map<Hash, int> { m[h := Count(m, h) + 1] }

  /** One less; a counter that reaches zero is dropped. */
  function Lower(m: map<Hash, int>, h: Hash): map<Hash, int> {
    if Count(m, h) <= 1 then m - {h} else m[h := m[h] - 1]
  }

  function RemoveAt<T>(s: seq<T>, k: nat): seq<T>
    requires k < |s|
  {
    s[..k] + s[k + 1..]
  }
}
