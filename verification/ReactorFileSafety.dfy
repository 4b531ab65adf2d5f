/** Every file is in one place or has ended once, and every job's future is resolved once. */
module ReactorFileSafety {
  import opened Outcomes
  import opened OrderedKeys
  import opened ReactorState
  import opened ReactorSlots
  import opened Reactor
  import opened ReactorTokens
  import SC = StagingCache

  // ---------- The tokens of the jobs ----------

  lemma JobReplacedTokens(w: Work, j: JobId, job: Job)
    requires j < |w.jobs| && JobTokens(job) == JobTokens(w.jobs[j])
    ensures WorkTotal(w.(jobs := w.jobs[j := job])) == WorkTotal(w)
  {
    hide Flat, JobTokens;
    FlatUpdate(w.jobs, j, job, JobTokens);
    var a, b, c := Flat(w.jobs, JobTokens), Flat(w.jobs[j := job], JobTokens), JobTokens(job);
    assert b + c - c == b && a + c - c == a;
  }

  lemma FileTerminalTokens(w: Work, f: FileRef, ok: bool)
    requires f.job < |w.jobs|
    ensures WorkTotal(FileTerminal(w, f, ok)) == WorkTotal(w) + EndTokens(FileEnd(f, ok))
  {
    hide Flat;
    var job := JobAfter(w.jobs[f.job], ok);
    JobReplacedTokens(w, f.job, job);
    FlatAppend(w.log, FileEnd(f, ok), EndTokens);
  }

  /** What starting the job's next file takes off its unscheduled files. */
  ghost function StartTokens(w: Work, j: JobId): multiset<Token>
    requires Unfinished(w, j)
  {
    if w.jobs[j].isStore then multiset{TStore(NextFile(w, j).hash)} else multiset{}
  }

  lemma StartJobTokens(job: Job)
    requires job.next < |job.hashes|
    ensures JobTokens(job)
         == JobTokens(job.(next := job.next + 1, inflight := job.inflight + 1))
            + if job.isStore then multiset{TStore(job.hashes[job.next])} else multiset{}
  {
    hide Flat;
    var rest := job.hashes[job.next..];
    FlatPopFirst(rest, StoreTokens);
    assert rest[1..] == job.hashes[job.next + 1..];
  }

  lemma StartFileTokens(w: Work, j: JobId)
    requires Unfinished(w, j)
    ensures WorkTotal(w) == WorkTotal(StartFile(w, j)) + StartTokens(w, j)
  {
    hide Flat, JobTokens;
    var job := w.jobs[j];
    var job' := job.(next := job.next + 1, inflight := job.inflight + 1);
    StartJobTokens(job);
    FlatUpdate(w.jobs, j, job', JobTokens);
    var a, b, c := Flat(w.jobs, JobTokens), Flat(w.jobs[j := job'], JobTokens), JobTokens(job');
    assert b + c + StartTokens(w, j) == a + c;
    assert a == b + StartTokens(w, j) by {
      assert a + c - c == a;
      assert (b + StartTokens(w, j)) + c - c == b + StartTokens(w, j);
      assert b + c + StartTokens(w, j) == (b + StartTokens(w, j)) + c;
    }
  }

  // ---------- What is said about files ----------

  lemma LiveInRange(w: Work, t: multiset<Token>, f: FileRef)
    requires FilesOnce(w, t) && TFile(f) in t
    ensures f.job < |w.jobs| && Started(w, f)
  {
  }

  lemma EndedFilePart(w: Work, t: multiset<Token>, f: FileRef, ok: bool)
    requires FilePart(w, t) && TFile(f) in t && TJob(f.job) in t
    ensures f.job < |w.jobs| && f.job in w.active
    ensures FilePart(FileTerminal(w, f, ok), t - FileTokens(f) + EndTokens(FileEnd(f, ok)))
  {
    hide Distinct, JobsOk, FilesOnce;
    LiveInRange(w, t, f);
    EndedFilesOnce(w, t, f, ok);
    EndedJobsOk(w, t, f, ok);
    LiveIsActive(w, t, f);
    EndedActiveOk(w, f, ok);
  }

  lemma EndedActiveOk(w: Work, f: FileRef, ok: bool)
    requires ActiveOk(w) && f.job in w.active
    ensures ActiveOk(FileTerminal(w, f, ok))
  {
    var job, w' := w.jobs[f.job], FileTerminal(w, f, ok);
    var o := w'.jobs[f.job].outcomes;
    assert o != [Declined] by {
      assert o == job.outcomes || o == job.outcomes + [Failed] || o == job.outcomes + [Succeeded];
      assert o == job.outcomes || o[|job.outcomes|] != Declined;
    }
    hide JobAfter, Distinct;
  }

  lemma LiveIsActive(w: Work, t: multiset<Token>, f: FileRef)
    requires FilePart(w, t) && TJob(f.job) in t && f.job < |w.jobs|
    ensures f.job in w.active
  {
    assert JobOk(w.jobs[f.job], t[TJob(f.job)], t[TOk(f.job)], t[TBad(f.job)]);
    hide FilesOnce, JobsOk, Distinct;
  }

  lemma EndedFilesOnce(w: Work, t: multiset<Token>, f: FileRef, ok: bool)
    requires FilesOnce(w, t) && TFile(f) in t && TJob(f.job) in t && f.job < |w.jobs|
    ensures FilesOnce(FileTerminal(w, f, ok), t - FileTokens(f) + EndTokens(FileEnd(f, ok)))
  {
    var w', t' := FileTerminal(w, f, ok), t - FileTokens(f) + EndTokens(FileEnd(f, ok));
    assert forall g: FileRef :: Started(w', g) == Started(w, g);
    hide Started;
    forall g: FileRef
      ensures t'[TFile(g)] == t[TFile(g)] - if g == f then 1 else 0
      ensures t'[TDone(g)] + t'[TFail(g)] == t[TDone(g)] + t[TFail(g)] + if g == f then 1 else 0
    {
    }
  }

  lemma EndedJobsOk(w: Work, t: multiset<Token>, f: FileRef, ok: bool)
    requires JobsOk(w, t) && TJob(f.job) in t && f.job < |w.jobs|
    ensures JobsOk(FileTerminal(w, f, ok), t - FileTokens(f) + EndTokens(FileEnd(f, ok)))
  {
    var w', t' := FileTerminal(w, f, ok), t - FileTokens(f) + EndTokens(FileEnd(f, ok));
    hide JobOk, JobAfter;
    EndedJobOk(w.jobs[f.job], t[TJob(f.job)], t[TOk(f.job)], t[TBad(f.job)], ok);
    forall j: JobId
      ensures t'[TJob(j)] == t[TJob(j)] - if j == f.job then 1 else 0
      ensures t'[TOk(j)] == t[TOk(j)] + if j == f.job && ok then 1 else 0
      ensures t'[TBad(j)] == t[TBad(j)] + if j == f.job && !ok then 1 else 0
    {
    }
  }

  /** One of the job's files ends; the future is set by the first failure or the last success only. */
  lemma EndedJobOk(job: Job, live: nat, done: nat, bad: nat, ok: bool)
    requires JobOk(job, live, done, bad) && live > 0
    ensures JobOk(JobAfter(job, ok), live - 1, if ok then done + 1 else done, if ok then bad else bad + 1)
  {
    assert [Failed] != [Succeeded];
    if job.futureSet {
      assert job.outcomes == [job.outcomes[0]];
      assert job.outcomes != [Succeeded] && job.outcomes != [Declined];
      assert job.outcomes[0] == Failed;
    } else {
      assert job.outcomes + [Failed] == [Failed] && job.outcomes + [Succeeded] == [Succeeded];
    }
  }

  lemma StartedFilePart(w: Work, t: multiset<Token>, j: JobId)
    requires FilePart(w, t) && Schedulable(w, j)
    ensures FilePart(StartFile(w, j), t + FileTokens(NextFile(w, j)))
  {
    StartedFilesOnce(w, t, j);
    StartedJobsOk(w, t, j);
    hide FilesOnce, JobsOk, Distinct;
  }

  lemma StartedFilesOnce(w: Work, t: multiset<Token>, j: JobId)
    requires FilesOnce(w, t) && Unfinished(w, j)
    ensures FilesOnce(StartFile(w, j), t + FileTokens(NextFile(w, j)))
  {
    var w', f := StartFile(w, j), NextFile(w, j);
    assert forall g: FileRef :: Started(w', g) <==> Started(w, g) || g == f;
    assert !Started(w, f);
    hide Started;
  }

  lemma StartedJobsOk(w: Work, t: multiset<Token>, j: JobId)
    requires JobsOk(w, t) && ActiveOk(w) && Schedulable(w, j)
    ensures JobsOk(StartFile(w, j), t + FileTokens(NextFile(w, j)))
  {
    StartedJobOk(w.jobs[j], t[TJob(j)], t[TOk(j)], t[TBad(j)]);
    hide JobOk, ActiveOk;
  }

  lemma StartedJobOk(job: Job, live: nat, done: nat, bad: nat)
    requires JobOk(job, live, done, bad) && job.next < |job.hashes| && !job.failed && job.outcomes != [Declined]
    ensures JobOk(job.(next := job.next + 1, inflight := job.inflight + 1), live + 1, done, bad)
  {
  }

  function WithJob(w: Work, job: Job, active: bool): Work {
    w.(jobs := w.jobs + [job], active := if active then w.active + [|w.jobs|] else w.active)
  }

  lemma NewJobPart(w: Work, t: multiset<Token>, job: Job, active: bool)
    requires FilePart(w, t) && JobOk(job, 0, 0, 0) && job.next == 0 && job.inflight == 0
    requires if active then job.outcomes == [] else job.futureSet
    ensures FilePart(WithJob(w, job, active), t)
  {
    var w' := WithJob(w, job, active);
    assert forall f: FileRef :: Started(w', f) <==> Started(w, f);
    assert job.outcomes == [] ==> job.outcomes != [Declined];
    hide JobOk, Started;
    assert FilesOnce(w', t);
    assert JobsOk(w', t);
    hide ActiveOk, FilesOnce, JobsOk;
    NewJobActive(w, job, active);
  }

  lemma NewJobActive(w: Work, job: Job, active: bool)
    requires ActiveOk(w) && job.inflight == 0
    requires if active then job.outcomes == [] else job.futureSet
    ensures ActiveOk(WithJob(w, job, active))
  {
    assert |w.jobs| !in w.active;
    var active' := if active then w.active + [|w.jobs|] else w.active;
    assert forall j :: j in active' <==> j in w.active || (active && j == |w.jobs|);
  }

  lemma NewJobTokens(w: Work, job: Job, active: bool)
    ensures WorkTotal(WithJob(w, job, active)) == WorkTotal(w) + JobTokens(job)
  {
    hide Flat, JobTokens;
    FlatAppend(w.jobs, job, JobTokens);
  }

  lemma {:induction false} RemainingIsRest(w: Work, active: seq<JobId>)
    requires Distinct(active)
    ensures Distinct(Remaining(w, active))
    ensures forall j :: j in Remaining(w, active) <==> j in active && !Finished(w, j)
  {
    hide Finished;
    if active != [] {
      var front, last := active[..|active| - 1], active[|active| - 1];
      RemainingIsRest(w, front);
      assert last !in front;
      assert forall j :: j in active <==> j in front || j == last;
    }
  }

  lemma FinishedPart(w: Work, t: multiset<Token>)
    requires FilePart(w, t)
    ensures FilePart(w.(active := Remaining(w, w.active)), t)
  {
    RemainingIsRest(w, w.active);
    var w' := w.(active := Remaining(w, w.active));
    assert forall f: FileRef :: Started(w', f) <==> Started(w, f);
    hide JobOk, Started;
  }
}
