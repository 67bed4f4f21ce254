/** Which jobs of the relayer are taken up again: only those that wait in the queue. */
module RelayQueue {
  import opened Wrappers
  import opened ExecutionStore
  import opened RelayProtocol
  import opened RelayTheorems

  /** Nobody works on the job. */
  ghost predicate Unattended(s: Relay, j: JobId) {
    j < |s.tables.jobs| && forall t | t in s.tasks :: t.job != j
  }

  /** And it does not wait in the queue. */
  ghost predicate Idle(s: Relay, j: JobId) {
    Unattended(s, j) && s.tables.jobs[j].state != JobState.Queued
  }

  ghost predicate Rests(s: Relay, s': Relay, j: JobId) {
    Idle(s, j) ==> Idle(s', j) && s'.tables.jobs[j] == s.tables.jobs[j]
  }

  lemma ClaimsTakeQueuedJobs(s: Relay, now: Time, limit: nat, j: JobId)
    ensures Rests(s, Claiming(s, now, limit), j)
  {
    ClaimTakesTheEarliest(s.tables.jobs, now, limit);
    hide ClaimJobs;
  }

  /** An attempt changes its own job only. */
  lemma AttemptsMindTheirOwn(c: nat, s: Relay, t: TaskId, a: Answer, retryAt: Time, j: JobId)
    requires t in s.tasks && t.job < |s.tables.jobs|
    ensures Rests(s, Advance(c, s, t, a, retryAt), j)
  {
  }

  lemma IdleJobsRest(c: nat, s: Relay, act: Action, j: JobId)
    ensures Rests(s, Next(c, s, act), j)
  {
    hide Advance, Claiming;
    match act
    case ClaimSome(now, limit) => ClaimsTakeQueuedJobs(s, now, limit, j);
    case Step(t, a, retryAt) => if t in s.tasks && t.job < |s.tables.jobs| { AttemptsMindTheirOwn(c, s, t, a, retryAt, j); }
    case _ =>
  }

  lemma RestsFollows(s: Relay, s': Relay, s'': Relay, j: JobId)
    requires Rests(s, s', j) && Rests(s', s'', j)
    ensures Rests(s, s'', j)
  {
  }

  lemma RestsItself(s: Relay, j: JobId)
    ensures Rests(s, s, j)
  {
  }

  /** A claim takes queued jobs only: one that an attempt left in any other state, be it submitted because
      there was no receipt yet, be it processing because the worker stopped, is never touched again. */
  lemma {:induction false} IdleJobsAreNeverTakenUp(c: nat, run: seq<Action>, i: nat, n: nat, j: JobId)
    requires i <= n <= |run|
    ensures Rests(After(c, run, i), After(c, run, n), j)
    decreases n
  {
    hide After, Next, Rests;
    if i < n {
      AfterOne(c, run, n - 1);
      IdleJobsAreNeverTakenUp(c, run, i, n - 1, j);
      IdleJobsRest(c, After(c, run, n - 1), run[n - 1], j);
      RestsFollows(After(c, run, i), After(c, run, n - 1), After(c, run, n), j);
    } else {
      RestsItself(After(c, run, n), j);
    }
  }

  predicate Final(j: Job) {
    j.state == JobState.Confirmed || j.state == JobState.Failed || j.state == DeadLetter
  }

  /** A job that has ended, well or badly, is never touched again. */
  lemma EndedJobsStayEnded(c: nat, run: seq<Action>, i: nat, n: nat, j: JobId)
    requires IsRun(c, run) && i <= n <= |run| && j < |After(c, run, i).tables.jobs|
    requires Final(After(c, run, i).tables.jobs[j])
    ensures j < |After(c, run, n).tables.jobs| && After(c, run, n).tables.jobs[j] == After(c, run, i).tables.jobs[j]
  {
    hide After;
    RunsKeepInv(c, run, i);
    var s := After(c, run, i);
    forall t | t in s.tasks ensures t.job != j {
      assert TaskOk(s.tables, t, s.tasks[t]);
    }
    IdleJobsAreNeverTakenUp(c, run, i, n, j);
  }

  // ---------- And those are taken up ----------

  lemma {:induction false} DistinctBelow(ids: seq<JobId>, n: nat)
    requires forall i | 0 <= i < |ids| :: ids[i] < n
    requires forall i, k | 0 <= i < |ids| && 0 <= k < |ids| && ids[i] == ids[k] :: i == k
    ensures |ids| <= n
  {
    if ids != [] {
      assert ids[0] < n;
      if k :| 0 <= k < |ids| && ids[k] == n - 1 {
        DistinctBelow(ids[..k] + ids[k + 1..], n - 1);
      } else {
        DistinctBelow(ids, n - 1);
      }
    }
  }

  lemma DueJobsAreClaimed(jobs: seq<Job>, now: Time, j: JobId)
    requires j < |jobs| && Due(jobs[j], now)
    ensures j in ClaimJobs(jobs, now, |jobs| + 1).ids
  {
    hide ClaimJobs;
    var r := ClaimJobs(jobs, now, |jobs| + 1);
    ClaimTakesTheEarliest(jobs, now, |jobs| + 1);
    assert forall i | 0 <= i < |r.ids| :: r.ids[i] in r.ids;
    DistinctBelow(r.ids, |jobs|);
    assert j in r.ids <==> r.jobs[j] != jobs[j];
  }

  lemma ClaimedJobsStart(s: Relay, now: Time, limit: nat, j: JobId)
    requires j in ClaimJobs(s.tables.jobs, now, limit).ids
    ensures exists t :: t in Claiming(s, now, limit).tasks && t.job == j
  {
    hide ClaimJobs;
    var r := ClaimJobs(s.tables.jobs, now, limit);
    assert TaskId(j, r.jobs[j].attempts) in Claiming(s, now, limit).tasks;
  }

  lemma ClaimingStarts(c: nat, s: Relay, j: JobId)
    requires j < |s.tables.jobs| && s.tables.jobs[j].state == JobState.Queued
    ensures exists t :: t in Next(c, s, ClaimSome(s.tables.jobs[j].availableAt, |s.tables.jobs| + 1)).tasks && t.job == j
  {
    hide ClaimJobs, Claiming, Advance;
    var now, limit := s.tables.jobs[j].availableAt, |s.tables.jobs| + 1;
    DueJobsAreClaimed(s.tables.jobs, now, j);
    ClaimedJobsStart(s, now, limit, j);
    assert Next(c, s, ClaimSome(now, limit)) == Claiming(s, now, limit);
  }

  /** Someone works on the job after `more`. */
  ghost predicate TakenUp(c: nat, run: seq<Action>, more: seq<Action>, j: JobId) {
    IsRun(c, run + more) && exists t :: t in After(c, run + more, |run + more|).tasks && t.job == j
  }

  lemma QueuedJobsCanBeTakenUp(c: nat, run: seq<Action>, j: JobId)
    requires IsRun(c, run) && j < |After(c, run, |run|).tables.jobs|
    requires After(c, run, |run|).tables.jobs[j].state == JobState.Queued
    ensures exists more :: TakenUp(c, run, more, j)
  {
    hide After, Next;
    var jobs := After(c, run, |run|).tables.jobs;
    var act := ClaimSome(jobs[j].availableAt, |jobs| + 1);
    ClaimingStarts(c, After(c, run, |run|), j);
    RunGrows(c, run, act);
    assert TakenUp(c, run, [act], j);
  }

  /** A job that nobody works on can still be taken up exactly when it is queued. */
  lemma TakenUpExactlyWhenQueued(c: nat, run: seq<Action>, j: JobId)
    requires IsRun(c, run) && Unattended(After(c, run, |run|), j)
    ensures (exists more :: TakenUp(c, run, more, j)) <==> After(c, run, |run|).tables.jobs[j].state == JobState.Queued
  {
    hide After, IsRun;
    if more :| TakenUp(c, run, more, j) {
      AfterIgnoresTheRest(c, run, more, |run|);
      IdleJobsAreNeverTakenUp(c, run + more, |run|, |run + more|, j);
    }
    if After(c, run, |run|).tables.jobs[j].state == JobState.Queued {
      QueuedJobsCanBeTakenUp(c, run, j);
    }
  }
}
