/** Conservation accounting for the reactor. Everything that is somewhere in a reactor state - a slot, a
    file under way, a unit of device budget, a preload under way, a reference to a slot - is a token, and
    `Total` counts the tokens a state holds. In the middle of a step some tokens are in no collection;
    they are passed along as `held`, and the invariant `Sound` speaks about both together. */
module ReactorTokens {
  import opened Outcomes
  import opened OrderedKeys
  import opened ReactorState
  import opened ReactorSlots
  import opened Reactor
  import SC = StagingCache

  datatype Token =
    | TSlot(x: Slot)              // slot x has an owner here
    | TBlank(x: Slot)             // ... whose bytes mean nothing
    | THas(x: Slot, h: Hash)      // ... and must hold the bytes of h
    | TShared(x: Slot, h: Hash)   // a copy of h reads the shared slot x
    | THandle(x: Slot)            // a step is working on the shared slot x
    | TPin(h: Hash, x: Slot)      // a copy reads slot x of the cache entry of h
    | TFile(f: FileRef)           // file f is under way here
    | TJob(j: JobId)              // ... for job j
    | TDone(f: FileRef) | TOk(j: JobId)
    | TFail(f: FileRef) | TBad(j: JobId)
    | TData | TOpen
    | TPre(h: Hash) | TPreAll     // a preload of h is opening, open or reading
    | TServe(h: Hash) | TServing  // a preload of h is just being completed
    | TWait(h: Hash)              // a file waits for a preload of h
    | TPend(h: Hash)              // an entry of the pending queue
    | TStore(h: Hash)             // a store's file of h that has not ended

  // ---------- Sums over collections ----------

  ghost function Flat<T, U>(s: seq<T>, f: T -> multiset<U>): multiset<U> {
    if s == [] then multiset{} else Flat(s[..|s| - 1], f) + f(s[|s| - 1])
  }

  lemma {:induction false} FlatConcat<T, U>(a: seq<T>, b: seq<T>, f: T -> multiset<U>)
    ensures Flat(a + b, f) == Flat(a, f) + Flat(b, f)
  {
    if b == [] {
      assert a + b == a;
    } else {
      assert (a + b)[..|a + b| - 1] == a + b[..|b| - 1];
      FlatConcat(a, b[..|b| - 1], f);
    }
  }

  lemma FlatOne<T, U>(e: T, f: T -> multiset<U>)
    ensures Flat([e], f) == f(e)
  {
    assert [e][..0] == [];
  }

  lemma FlatAppend<T, U>(s: seq<T>, e: T, f: T -> multiset<U>)
    ensures Flat(s + [e], f) == Flat(s, f) + f(e)
  {
    assert (s + [e])[..|s|] == s;
  }

  lemma FlatRemove<T, U>(s: seq<T>, k: nat, f: T -> multiset<U>)
    requires k < |s|
    ensures Flat(s, f) == Flat(RemoveAt(s, k), f) + f(s[k])
  {
    hide Flat;
    assert s == s[..k] + ([s[k]] + s[k + 1..]);
    FlatConcat(s[..k], [s[k]] + s[k + 1..], f);
    FlatConcat([s[k]], s[k + 1..], f);
    FlatConcat(s[..k], s[k + 1..], f);
    FlatOne(s[k], f);
  }

  lemma FlatPopFirst<T, U>(s: seq<T>, f: T -> multiset<U>)
    requires s != []
    ensures Flat(s, f) == Flat(s[1..], f) + f(s[0])
  {
    FlatRemove(s, 0, f);
    assert RemoveAt(s, 0) == s[1..];
  }

  lemma FlatUpdate<T, U>(s: seq<T>, k: nat, e: T, f: T -> multiset<U>)
    requires k < |s|
    ensures Flat(s[k := e], f) + f(s[k]) == Flat(s, f) + f(e)
  {
    FlatRemove(s, k, f);
    FlatRemove(s[k := e], k, f);
    assert RemoveAt(s[k := e], k) == RemoveAt(s, k);
  }

  lemma FlatInsert<T, U>(s: seq<T>, k: nat, e: T, f: T -> multiset<U>)
    requires k <= |s|
    ensures Flat(s[..k] + [e] + s[k..], f) == Flat(s, f) + f(e)
  {
    hide Flat;
    var r := s[..k] + [e] + s[k..];
    assert r[..k] == s[..k] && r[k] == e && r[k + 1..] == s[k..];
    assert s[..k] + s[k..] == s;
    FlatRemove(r, k, f);
  }

  /** What one element contributes is in the sum. */
  lemma FlatHas<T, U>(s: seq<T>, k: nat, f: T -> multiset<U>)
    requires k < |s|
    ensures f(s[k]) <= Flat(s, f)
  {
    FlatRemove(s, k, f);
  }

  ghost function Sum<K, V, U>(m: map<K, V>, f: (K, V) -> multiset<U>): multiset<U> {
    if m == map[] then multiset{}
    else
      var k :| k in m;
      Sum(m - {k}, f) + f(k, m[k])
  }

  lemma {:induction false} SumRemove<K, V, U>(m: map<K, V>, k: K, f: (K, V) -> multiset<U>)
    requires k in m
    ensures Sum(m, f) == Sum(m - {k}, f) + f(k, m[k])
    decreases m
  {
    var j :| j in m && Sum(m, f) == Sum(m - {j}, f) + f(j, m[j]);
    if j != k {
      SumRemove(m - {j}, k, f);
      SumRemove(m - {k}, j, f);
      assert m - {j} - {k} == m - {k} - {j};
    }
  }

  lemma SumAdd<K, V, U>(m: map<K, V>, k: K, v: V, f: (K, V) -> multiset<U>)
    requires k !in m
    ensures Sum(m[k := v], f) == Sum(m, f) + f(k, v)
  {
    SumRemove(m[k := v], k, f);
    assert m[k := v] - {k} == m;
  }

  lemma SumUpdate<K, V, U>(m: map<K, V>, k: K, v: V, f: (K, V) -> multiset<U>)
    requires k in m
    ensures Sum(m[k := v], f) + f(k, m[k]) == Sum(m, f) + f(k, v)
  {
    SumRemove(m, k, f);
    SumRemove(m[k := v], k, f);
    assert m[k := v] - {k} == m - {k};
  }

  lemma SumHas<K, V, U>(m: map<K, V>, k: K, f: (K, V) -> multiset<U>)
    requires k in m
    ensures f(k, m[k]) <= Sum(m, f)
  {
    SumRemove(m, k, f);
  }

  // ---------- Tokens of the parts of a state ----------

  ghost function FileTokens(f: FileRef): multiset<Token> { multiset{TFile(f), TJob(f.job)} }

  ghost function BlankTokens(x: Slot): multiset<Token> { multiset{TSlot(x), TBlank(x)} }

  ghost function HasTokens(x: Slot, h: Hash): multiset<Token> { multiset{TSlot(x), THas(x, h)} }

  ghost function PreTokens(h: Hash): multiset<Token> { multiset{TPre(h), TPreAll} }

  ghost function ServeTokens(h: Hash): multiset<Token> { multiset{TServe(h), TServing} }

  ghost function WaitTokens(f: FileRef): multiset<Token> { multiset{TWait(f.hash)} + FileTokens(f) }

  ghost function OpTokens(ud: nat, op: Op): multiset<Token> {
    match op
    case OpenLoad(f) => multiset{TOpen} + FileTokens(f)
    case OpenPreload(info) => multiset{TOpen} + PreTokens(info.hash)
    case ReadLoad(f, x) => multiset{TData} + BlankTokens(x) + FileTokens(f)
    case ReadPreload(info, x) => multiset{TData} + BlankTokens(x) + PreTokens(info.hash)
    case Write(f, x) => multiset{TData, TStore(f.hash)} + HasTokens(x, f.hash) + FileTokens(f)
    case Close => multiset{}
  }

  /** What keeps the slot of a load copy alive. */
  ghost function SourceTokens(c: LoadCopy): multiset<Token> {
    match c.source
    case Owned => HasTokens(c.slot, c.file.hash)
    case Shared => multiset{TShared(c.slot, c.file.hash)}
    case Cached => multiset{TPin(c.file.hash, c.slot)}
  }

  ghost function CopyTokens(c: LoadCopy): multiset<Token> { SourceTokens(c) + FileTokens(c.file) }

  ghost function PendingCopyTokens(c: Copy): multiset<Token> {
    match c
    case StoreCopy(f, x) => multiset{TData, TStore(f.hash)} + BlankTokens(x) + FileTokens(f)
    case LoadBatch(members) => Flat(members, CopyTokens)
  }

  ghost function ReadyPreloadTokens(info: Info): multiset<Token> { PreTokens(info.hash) }

  ghost function CacheTokens(h: Hash, c: SC.CacheSlot): multiset<Token> { HasTokens(c.slotIndex, h) }

  ghost function SharedTokens(x: Slot, sh: SharedSlot): multiset<Token> { HasTokens(x, sh.hash) }

  ghost function StagedTokens(e: Staged): multiset<Token> { HasTokens(e.slot, e.info.hash) }

  ghost function PendTokens(info: Info): multiset<Token> { multiset{TPend(info.hash)} }

  ghost function StoreTokens(h: Hash): multiset<Token> { multiset{TStore(h)} }

  /** Files of a store that have not been started. */
  ghost function JobTokens(j: Job): multiset<Token> {
    if j.isStore && j.next <= |j.hashes| then Flat(j.hashes[j.next..], StoreTokens) else multiset{}
  }

  ghost function EndTokens(e: FileEnd): multiset<Token> {
    if e.ok then multiset{TDone(e.file), TOk(e.file.job)} else multiset{TFail(e.file), TBad(e.file.job)}
  }

  ghost function RingTotal(g: Ring): multiset<Token> {
    Sum(g.inflight, OpTokens) + Flat(g.readyLoad, FileTokens) + Flat(g.readyPreload, ReadyPreloadTokens)
    + Flat(g.copyReady, CopyTokens) + Flat(g.pendingCopies, PendingCopyTokens)
  }

  ghost function SlotsTotal(z: Slots): multiset<Token> {
    Flat(z.free, BlankTokens) + Sum(z.cache.slots, CacheTokens) + Flat(z.preload, StagedTokens) + Sum(z.shared, SharedTokens)
  }

  ghost function WorkTotal(w: Work): multiset<Token> { Flat(w.jobs, JobTokens) + Flat(w.log, EndTokens) }

  ghost function Total(s: State): multiset<Token> {
    RingTotal(s.ring) + SlotsTotal(s.slots) + WorkTotal(s.work) + Flat(s.demand.pending, PendTokens) + Flat(s.waiters, WaitTokens)
  }

  // ---------- Tokens counted ----------

  function One(b: bool): nat { if b then 1 else 0 }

  /** How often an element has the token, spelled out. */
  function FileHas(f: FileRef, k: Token): nat { One(k == TFile(f)) + One(k == TJob(f.job)) }

  function InfoHas(i: Info, k: Token): nat { One(k == TPre(i.hash)) + One(k == TPreAll) }

  function BlankHas(x: Slot, k: Token): nat { One(k == TSlot(x)) + One(k == TBlank(x)) }

  function BytesHas(x: Slot, h: Hash, k: Token): nat { One(k == TSlot(x)) + One(k == THas(x, h)) }

  function OpHas(op: Op, k: Token): nat {
    match op
    case OpenLoad(f) => One(k == TOpen) + FileHas(f, k)
    case OpenPreload(i) => One(k == TOpen) + InfoHas(i, k)
    case ReadLoad(f, x) => One(k == TData) + BlankHas(x, k) + FileHas(f, k)
    case ReadPreload(i, x) => One(k == TData) + BlankHas(x, k) + InfoHas(i, k)
    case Write(f, x) => One(k == TData) + One(k == TStore(f.hash)) + BytesHas(x, f.hash, k) + FileHas(f, k)
    case Close => 0
  }

  function CopyHas(c: LoadCopy, k: Token): nat {
    FileHas(c.file, k)
    + match c.source {
        case Owned => BytesHas(c.slot, c.file.hash, k)
        case Shared => One(k == TShared(c.slot, c.file.hash))
        case Cached => One(k == TPin(c.file.hash, c.slot))
      }
  }

  function StoreHas(f: FileRef, x: Slot, k: Token): nat {
    One(k == TData) + One(k == TStore(f.hash)) + BlankHas(x, k) + FileHas(f, k)
  }

  lemma FileHasIs(f: FileRef, k: Token)
    ensures FileTokens(f)[k] == FileHas(f, k)
  {
  }

  lemma InfoHasIs(i: Info, k: Token)
    ensures ReadyPreloadTokens(i)[k] == InfoHas(i, k) && PreTokens(i.hash)[k] == InfoHas(i, k)
  {
  }

  lemma SlotHasIs(x: Slot, h: Hash, k: Token)
    ensures BlankTokens(x)[k] == BlankHas(x, k) && HasTokens(x, h)[k] == BytesHas(x, h, k)
  {
  }

  lemma OpHasIs(ud: nat, op: Op, k: Token)
    ensures OpTokens(ud, op)[k] == OpHas(op, k)
  {
    hide FileTokens, PreTokens, BlankTokens, HasTokens, FileHas, InfoHas, BlankHas, BytesHas;
    match op
    case OpenLoad(f) => FileHasIs(f, k);
    case OpenPreload(i) => InfoHasIs(i, k);
    case ReadLoad(f, x) => FileHasIs(f, k); SlotHasIs(x, 0, k);
    case ReadPreload(i, x) => InfoHasIs(i, k); SlotHasIs(x, 0, k);
    case Write(f, x) => FileHasIs(f, k); SlotHasIs(x, f.hash, k);
    case Close =>
  }

  lemma CopyHasIs(c: LoadCopy, k: Token)
    ensures CopyTokens(c)[k] == CopyHas(c, k)
  {
    hide FileTokens, HasTokens, FileHas, BytesHas;
    FileHasIs(c.file, k);
    SlotHasIs(c.slot, c.file.hash, k);
  }

  lemma StoreHasIs(f: FileRef, x: Slot, k: Token)
    ensures PendingCopyTokens(StoreCopy(f, x))[k] == StoreHas(f, x, k)
  {
    hide FileTokens, BlankTokens, FileHas, BlankHas;
    FileHasIs(f, k);
    SlotHasIs(x, 0, k);
  }

  // ---------- The invariant ----------

  /** Every slot has exactly one owner, which either expects particular bytes or none. */
  ghost predicate SlotsOwned(cfg: Config, t: multiset<Token>) {
    && (forall x: Slot :: t[TSlot(x)] == if 0 <= x < cfg.slotCount then 1 else 0)
    && (forall x: Slot, h: Hash :: t[THas(x, h)] + t[TBlank(x)] <= t[TSlot(x)])
  }

  /** Slots hold the bytes that their owners expect. */
  ghost predicate BytesRight(memory: map<Slot, Hash>, t: multiset<Token>) {
    forall x: Slot, h: Hash :: t[THas(x, h)] > 0 ==> x in memory && memory[x] == h
  }

  /** The job has started file `f`. */
  ghost predicate Started(w: Work, f: FileRef) {
    && f.job < |w.jobs|
    && f.index < w.jobs[f.job].next && f.index < |w.jobs[f.job].hashes| && w.jobs[f.job].hashes[f.index] == f.hash
  }

  /** The job's counters, with `live` files under way, `ok` done and `bad` failed. */
  ghost predicate JobOk(j: Job, live: nat, ok: nat, bad: nat) {
    && j.hashes != [] && j.next <= |j.hashes|
    && j.inflight == live && j.done == ok && j.next == live + ok + bad
    && (j.failed <==> bad > 0)
    && (j.futureSet <==> j.outcomes != [])
    && |j.outcomes| <= 1
    && (bad > 0 ==> j.outcomes == [Failed])
    && (j.outcomes == [Failed] ==> bad > 0)
    && (j.outcomes == [Succeeded] <==> ok == |j.hashes|)
    && (j.outcomes == [Declined] ==> j.next == 0 && !j.isStore)
  }

  /** Each started file is in one place or has ended once. */
  ghost predicate FilesOnce(w: Work, t: multiset<Token>) {
    forall f: FileRef :: t[TFile(f)] + t[TDone(f)] + t[TFail(f)] == if Started(w, f) then 1 else 0
  }

  ghost predicate JobsOk(w: Work, t: multiset<Token>) {
    && (forall j: JobId :: j < |w.jobs| ==> JobOk(w.jobs[j], t[TJob(j)], t[TOk(j)], t[TBad(j)]))
    && (forall j: JobId :: j >= |w.jobs| ==> t[TJob(j)] == t[TOk(j)] == t[TBad(j)] == 0)
  }

  /** Jobs that are not being worked on have nothing under way and are resolved. */
  ghost predicate ActiveOk(w: Work) {
    && Distinct(w.active)
    && (forall j :: j in w.active ==> j < |w.jobs| && w.jobs[j].outcomes != [Declined])
    && (forall j: JobId :: j < |w.jobs| && j !in w.active ==> w.jobs[j].inflight == 0 && w.jobs[j].futureSet)
  }

  ghost predicate BudgetsOk(cfg: Config, g: Ring, t: multiset<Token>) {
    && g.dataInflight == t[TData] <= cfg.iodepth
    && g.openInflight == t[TOpen]
    && g.openInflight + |g.readyLoad| + |g.readyPreload| <= cfg.openLookahead
    && (forall ud :: ud in g.inflight ==> ud < g.nextUd)
  }

  /** Per-hash counters of the demand agree with the queues and operations. */
  ghost predicate CountsOk(d: Demand, t: multiset<Token>) {
    && (forall h: Hash :: Count(d.inflightHashes, h) == t[TPre(h)])
    && d.inflightTotal == t[TPreAll]
    && (forall h: Hash :: Count(d.pendingCount, h) == t[TPend(h)])
    && (forall h: Hash :: 0 <= Count(d.pendingCancel, h) <= t[TPend(h)])
    && (forall h: Hash :: Count(d.storeInflight, h) == t[TStore(h)])
    && (forall h :: h in d.storeInflight ==> d.storeInflight[h] > 0)
  }

  ghost predicate AllFor(infos: seq<Info>, h: Hash) {
    forall i :: 0 <= i < |infos| ==> infos[i].hash == h
  }

  /** The table of known misses agrees with its order. */
  ghost predicate MissingAgree(missing: map<Hash, seq<Info>>, order: seq<Hash>) {
    && Distinct(order)
    && (forall h :: h in missing <==> h in order)
    && (forall h :: h in missing ==> AllFor(missing[h], h))
  }

  /** Demand is remembered as missing, within bounds, or parked on a store that is under way. */
  ghost predicate MissingOk(d: Demand) {
    && MissingAgree(d.missing, d.missingOrder) && |d.missingOrder| <= MAX_KNOWN_MISSING
    && (forall h :: h in d.blocked ==> h in d.storeInflight && AllFor(d.blocked[h], h))
  }

  /** Every file waiting for a preload has one to wait for. */
  ghost predicate WaitersOk(cfg: Config, t: multiset<Token>) {
    forall h: Hash ::
      if cfg.sharePreload then t[TWait(h)] > 0 ==> t[TPre(h)] + t[TServe(h)] > 0
      else t[TWait(h)] <= t[TPre(h)] + t[TServe(h)]
  }

  ghost predicate CacheOk(z: Slots, t: multiset<Token>) {
    && SC.Agree(z.cache)
    && (!z.cfg.hasCache ==> z.cache.slots == map[])
    && (forall h :: h in z.cache.slots ==> z.cache.slots[h].copies == t[TPin(h, z.cache.slots[h].slotIndex)])
    && (forall h: Hash, x: Slot :: t[TPin(h, x)] > 0 ==> h in z.cache.slots && z.cache.slots[h].slotIndex == x)
  }

  /** The slots of the list hold different hashes. */
  ghost predicate OneEach(s: seq<Slot>, shared: map<Slot, SharedSlot>) {
    && Distinct(s)
    && (forall p :: p in s ==> p in shared)
    && (forall p, q :: p in s && q in s && p != q ==> shared[p].hash != shared[q].hash)
  }

  /** Shared slot objects: reference counts, the table of claimable ones, and no object left over. */
  ghost predicate SharedOk(z: Slots, t: multiset<Token>) {
    && (forall x :: x in z.shared ==> z.shared[x].copies == t[TShared(x, z.shared[x].hash)])
    && (forall x: Slot, h: Hash :: t[TShared(x, h)] > 0 ==> x in z.shared && z.shared[x].hash == h)
    && (forall x :: x in z.shared ==> (z.shared[x].cached <==> x in z.sharedCached))
    && (forall x :: x in z.shared ==> z.shared[x].cached || z.shared[x].copies > 0 || t[THandle(x)] > 0)
    && OneEach(z.sharedCached, z.shared)
  }

  /** Requests on record as wanting the hash. */
  ghost function Owners(owned: seq<(ReqId, Hash)>, h: Hash): nat {
    if owned == [] then 0 else Owners(owned[..|owned| - 1], h) + One(owned[|owned| - 1].1 == h)
  }

  /** The demand for a hash counts every request on record; it may count more, since the record is capped. */
  ghost predicate DemandCounted(owned: seq<(ReqId, Hash)>, refcount: map<Hash, int>) {
    forall h: Hash :: Owners(owned, h) <= Count(refcount, h)
  }

  /** The preload copies of the mode that is off do not exist. */
  ghost predicate ModeOk(z: Slots) {
    && z.cachedTotal == |z.preload| + |z.sharedCached|
    && (z.cfg.sharePreload ==> z.preload == [])
    && (!z.cfg.sharePreload ==> z.shared == map[] && z.sharedCached == [])
    && (z.cfg.sharePreload ==> DemandCounted(z.owned, z.refcount))
  }

  /** Private preloads, staged and under way, stay within their share of the slots. */
  ghost predicate ShareOk(z: Slots, d: Demand, t: multiset<Token>) {
    !z.cfg.sharePreload ==> z.cachedTotal + d.inflightTotal + t[TServing] <= z.cfg.MaxPreloadSlots()
  }

  ghost predicate IsCached(z: Slots, h: Hash) {
    exists x :: x in z.sharedCached && x in z.shared && z.shared[x].hash == h
  }

  ghost function Claims(z: Slots, h: Hash): nat { if IsCached(z, h) then 1 else 0 }

  /** Nothing is queued, under way or staged for the hash. */
  ghost predicate Absent(z: Slots, t: multiset<Token>, h: Hash) {
    t[TPend(h)] == 0 && t[TPre(h)] == 0 && t[TServe(h)] == 0 && Claims(z, h) == 0
  }

  /** One demand stands for all that want a hash. */
  ghost predicate OneMark(marks: map<Hash, seq<Info>>) {
    forall h :: h in marks ==> |marks[h]| == 1
  }

  /** Shared preloading: one entry, read or slot per hash. */
  ghost predicate Unique(z: Slots, d: Demand, t: multiset<Token>) {
    && (forall h: Hash :: t[TPend(h)] <= 1)
    && (forall h: Hash :: t[TPend(h)] - Count(d.pendingCancel, h) + t[TPre(h)] + t[TServe(h)] + Claims(z, h) <= 1)
    && (forall h: Hash :: h in d.missing || h in d.blocked ==> Absent(z, t, h))
    && (forall h: Hash :: h in d.missing ==> h !in d.blocked)
    && OneMark(d.missing) && OneMark(d.blocked)
    && (forall h: Hash :: t[TPre(h)] > 0 && t[TWait(h)] == 0 ==> t[TPend(h)] == 0)
    && (forall h: Hash :: Claims(z, h) > 0 ==> Count(z.refcount, h) > 0)
  }

  /** What is said about slots, the bytes in them and the references to them. */
  ghost predicate SlotPart(z: Slots, memory: map<Slot, Hash>, t: multiset<Token>) {
    SlotsOwned(z.cfg, t) && BytesRight(memory, t) && CacheOk(z, t) && SharedOk(z, t) && ModeOk(z)
  }

  /** What is said about files and jobs. */
  ghost predicate FilePart(w: Work, t: multiset<Token>) {
    FilesOnce(w, t) && JobsOk(w, t) && ActiveOk(w)
  }

  /** What is said about preload demand, the files waiting for it and stores. */
  ghost predicate DemandPart(z: Slots, d: Demand, t: multiset<Token>) {
    CountsOk(d, t) && MissingOk(d) && WaitersOk(z.cfg, t) && ShareOk(z, d, t) && (z.cfg.sharePreload ==> Unique(z, d, t))
  }

  ghost predicate Consistent(s: State, t: multiset<Token>) {
    && SlotPart(s.slots, s.memory, t)
    && FilePart(s.work, t)
    && BudgetsOk(s.Cfg(), s.ring, t)
    && DemandPart(s.slots, s.demand, t)
  }

  /** The state is consistent once the tokens in transit are counted too. */
  ghost predicate Sound(s: State, held: multiset<Token>) {
    Consistent(s, Total(s) + held)
  }

  /** Between steps nothing is in transit. */
  ghost predicate Inv(s: State) { Sound(s, multiset{}) }

  // ---------- Parts that do not see a change ----------

  datatype Kind = SlotKind | FileKind | BudgetKind | DemandKind

  ghost function KindOf(k: Token): Kind {
    match k
    case TSlot(_) => SlotKind
    case TBlank(_) => SlotKind
    case THas(_, _) => SlotKind
    case TShared(_, _) => SlotKind
    case THandle(_) => SlotKind
    case TPin(_, _) => SlotKind
    case TFile(_) => FileKind
    case TJob(_) => FileKind
    case TDone(_) => FileKind
    case TOk(_) => FileKind
    case TFail(_) => FileKind
    case TBad(_) => FileKind
    case TData => BudgetKind
    case TOpen => BudgetKind
    case TPre(_) => DemandKind
    case TPreAll => DemandKind
    case TServe(_) => DemandKind
    case TServing => DemandKind
    case TWait(_) => DemandKind
    case TPend(_) => DemandKind
    case TStore(_) => DemandKind
  }

  ghost predicate Same(kind: Kind, t: multiset<Token>, t': multiset<Token>) {
    forall k: Token :: KindOf(k) == kind ==> t[k] == t'[k]
  }

  lemma FilesUnseen(w: Work, t: multiset<Token>, t': multiset<Token>)
    requires FilePart(w, t) && Same(FileKind, t, t')
    ensures FilePart(w, t')
  {
    forall j: JobId ensures t'[TJob(j)] == t[TJob(j)] && t'[TOk(j)] == t[TOk(j)] && t'[TBad(j)] == t[TBad(j)] {}
    forall f: FileRef ensures t'[TFile(f)] == t[TFile(f)] && t'[TDone(f)] == t[TDone(f)] && t'[TFail(f)] == t[TFail(f)] {}
    hide JobOk, Started, Distinct;
  }

  lemma BudgetsUnseen(cfg: Config, g: Ring, t: multiset<Token>, t': multiset<Token>)
    requires BudgetsOk(cfg, g, t) && Same(BudgetKind, t, t')
    ensures BudgetsOk(cfg, g, t')
  {
  }

  lemma SlotsUnseen(z: Slots, memory: map<Slot, Hash>, t: multiset<Token>, t': multiset<Token>)
    requires SlotPart(z, memory, t) && Same(SlotKind, t, t')
    ensures SlotPart(z, memory, t')
  {
    forall x: Slot ensures t'[TSlot(x)] == t[TSlot(x)] && t'[TBlank(x)] == t[TBlank(x)] && t'[THandle(x)] == t[THandle(x)] {}
    forall x: Slot, h: Hash
      ensures t'[THas(x, h)] == t[THas(x, h)] && t'[TShared(x, h)] == t[TShared(x, h)] && t'[TPin(h, x)] == t[TPin(h, x)] {}
    hide SC.Agree;
  }

  /** The demand sees of the slots only which hashes are claimable, what keeps them, and how many copies are staged. */
  ghost predicate SameClaims(z: Slots, z': Slots) {
    && z'.cfg == z.cfg && z'.cachedTotal == z.cachedTotal && z'.refcount == z.refcount
    && (forall h: Hash :: Claims(z', h) == Claims(z, h))
  }

  lemma DemandUnseen(z: Slots, d: Demand, t: multiset<Token>, z': Slots, t': multiset<Token>)
    requires DemandPart(z, d, t) && Same(DemandKind, t, t') && SameClaims(z, z')
    ensures DemandPart(z', d, t')
  {
    forall h: Hash
      ensures t'[TPre(h)] == t[TPre(h)] && t'[TServe(h)] == t[TServe(h)] && t'[TWait(h)] == t[TWait(h)]
      ensures t'[TPend(h)] == t[TPend(h)] && t'[TStore(h)] == t[TStore(h)] {}
    hide Claims, MissingAgree, AllFor;
  }
}
