/** Intents and execution jobs in the control-plane store. */
module ExecutionStore {
  import opened Wrappers

  type IntentId = nat
  type JobId = nat
  type Address = nat
  type Hash = nat
  type Time = nat

  /** Signed transactions are opaque bytes, and their hash determines them. */
  type Bytes = nat
  datatype TxHash = Keccak(bytes: Bytes)

  /** What a controller accepts only once. */
  datatype Key = Key(chainId: nat, controller: Address, nonce: nat)

  datatype IntentState = Signed | Queued | Submitted | Confirmed | Failed
  datatype Intent = Intent(key: Key, agentId: Hash, fund: Address, policyHash: Hash, deadline: nat, state: IntentState,
                           transactionHash: Option<TxHash>, blockNumber: Option<nat>, failureCode: Option<string>)

  datatype JobState = Queued | Processing | Submitted | Confirmed | Failed | DeadLetter
  datatype Job = Job(intentId: IntentId, state: JobState, attempts: nat, availableAt: Time,
                     transactionHash: Option<TxHash>, signedTransaction: Option<Bytes>, chainNonce: Option<nat>)

  datatype Prepared = Prepared(serialized: Bytes, nonce: nat)

  /** Jobs in order of creation; a job's id is its position. */
  datatype Tables = Tables(intents: map<IntentId, Intent>, jobs: seq<Job>)

  const MAX_ATTEMPTS: nat := 20

  // ---------- The operations on values ----------

  predicate Duplicates(intents: map<IntentId, Intent>, key: Key) {
    exists i :: i in intents && intents[i].key == key
  }

  function SaveIntent(t: Tables, id: IntentId, intent: Intent): Result<Tables, string> {
    if Duplicates(t.intents, intent.key) then Err("unique controller_address nonce constraint")
    else Ok(t.(intents := t.intents[id := intent]))
  }

  /** The first of the first `n` jobs that belongs to the intent. */
  function JobFor(jobs: seq<Job>, intentId: IntentId, n: nat): (r: Option<JobId>)
    requires n <= |jobs|
    ensures r.Some? ==> r.value < n && jobs[r.value].intentId == intentId
    ensures r.None? ==> forall i :: 0 <= i < n ==> jobs[i].intentId != intentId
  {
    if n == 0 then None
    else
      var earlier := JobFor(jobs, intentId, n - 1);
      if earlier.Some? then earlier else if jobs[n - 1].intentId == intentId then Some(n - 1) else None
  }

  function EnqueueIntent(t: Tables, intentId: IntentId, now: Time): Tables {
    if JobFor(t.jobs, intentId, |t.jobs|).Some? then t
    else
      Tables(if intentId in t.intents
             then t.intents[intentId := t.intents[intentId].(state := IntentState.Queued)] else t.intents,
             t.jobs + [Job(intentId, JobState.Queued, 0, now, None, None, None)])
  }

  predicate Due(j: Job, now: Time) {
    j.state == JobState.Queued && j.availableAt <= now
  }

  /** The due job that has waited longest, the older one on ties, among the first `n`. */
  function Earliest(jobs: seq<Job>, now: Time, n: nat): (r: Option<JobId>)
    requires n <= |jobs|
    ensures r.Some? ==> r.value < n && Due(jobs[r.value], now)
    ensures r.Some? ==> forall i :: 0 <= i < n && Due(jobs[i], now) ==> jobs[r.value].availableAt <= jobs[i].availableAt
    ensures r.None? ==> forall i :: 0 <= i < n ==> !Due(jobs[i], now)
  {
    if n == 0 then None
    else
      var best := Earliest(jobs, now, n - 1);
      if Due(jobs[n - 1], now) && (best.None? || jobs[n - 1].availableAt < jobs[best.value].availableAt)
      then Some(n - 1) else best
  }

  function Taken(j: Job): Job {
    j.(state := JobState.Processing, attempts := j.attempts + 1)
  }

  datatype Claim = Claim(jobs: seq<Job>, ids: seq<JobId>)

  /** Sorting the due jobs by availability and taking the first `limit` takes the earliest `limit` times. */
  function ClaimJobs(jobs: seq<Job>, now: Time, limit: nat): (r: Claim)
    ensures |r.jobs| == |jobs|
    ensures forall i :: i in r.ids ==> i < |jobs|
  {
    if limit == 0 then Claim(jobs, [])
    else
      var c := ClaimJobs(jobs, now, limit - 1);
      var next := Earliest(c.jobs, now, |c.jobs|);
      if next.None? then c
      else Claim(c.jobs[next.value := Taken(c.jobs[next.value])], c.ids + [next.value])
  }

  function PersistSigned(j: Job, tx: Prepared): Job {
    j.(transactionHash := Some(Keccak(tx.serialized)), signedTransaction := Some(tx.serialized),
       chainNonce := Some(tx.nonce), state := JobState.Submitted)
  }

  function SubmittedJob(j: Job, hash: TxHash): Job {
    j.(transactionHash := Some(hash), state := JobState.Submitted)
  }

  function ConfirmedJob(j: Job, hash: TxHash): Job {
    j.(transactionHash := Some(hash), state := JobState.Confirmed)
  }

  function FailedJob(j: Job, retryAt: Option<Time>): Job {
    j.(state := if retryAt.Some? && j.attempts < MAX_ATTEMPTS then JobState.Queued
                else if j.attempts >= MAX_ATTEMPTS then DeadLetter else JobState.Failed,
       availableAt := if retryAt.Some? then retryAt.value else j.availableAt)
  }

  function SubmittedIntent(i: Intent, hash: TxHash): Intent {
    i.(state := IntentState.Submitted, transactionHash := Some(hash))
  }

  function ConfirmedIntent(i: Intent, hash: TxHash, blockNumber: nat): Intent {
    i.(state := IntentState.Confirmed, transactionHash := Some(hash), blockNumber := Some(blockNumber))
  }

  function FailedIntent(i: Intent, code: string): Intent {
    i.(state := IntentState.Failed, failureCode := Some(code))
  }

  function PersistTransaction(t: Tables, id: JobId, tx: Prepared): Tables
    requires id < |t.jobs|
  {
    t.(jobs := t.jobs[id := PersistSigned(t.jobs[id], tx)])
  }

  /** Changes a job and, if it exists, its intent. */
  function Put(t: Tables, id: JobId, job: Job, change: Intent -> Intent): Tables
    requires id < |t.jobs|
  {
    Tables(if job.intentId in t.intents then t.intents[job.intentId := change(t.intents[job.intentId])] else t.intents,
           t.jobs[id := job])
  }

  function MarkSubmitted(t: Tables, id: JobId, hash: TxHash): Tables
    requires id < |t.jobs|
  {
    Put(t, id, SubmittedJob(t.jobs[id], hash), i => SubmittedIntent(i, hash))
  }

  function MarkConfirmed(t: Tables, id: JobId, hash: TxHash, blockNumber: nat): Tables
    requires id < |t.jobs|
  {
    Put(t, id, ConfirmedJob(t.jobs[id], hash), i => ConfirmedIntent(i, hash, blockNumber))
  }

  function MarkFailed(t: Tables, id: JobId, code: string, retryAt: Option<Time>): Tables
    requires id < |t.jobs|
  {
    Put(t, id, FailedJob(t.jobs[id], retryAt), i => if retryAt.None? then FailedIntent(i, code) else i)
  }

  // ---------- What they do ----------

  ghost predicate KeysUnique(intents: map<IntentId, Intent>) {
    forall i, j | i in intents && j in intents && intents[i].key == intents[j].key :: i == j
  }

  ghost predicate OneJobPerIntent(jobs: seq<Job>) {
    forall i, j | 0 <= i < |jobs| && 0 <= j < |jobs| && jobs[i].intentId == jobs[j].intentId :: i == j
  }

  /** An intent is saved exactly when its key is new, and then no key is used twice. */
  lemma SavingKeepsKeysUnique(t: Tables, id: IntentId, intent: Intent)
    requires KeysUnique(t.intents) && id !in t.intents
    ensures SaveIntent(t, id, intent).Ok? <==> KeysUnique(t.intents[id := intent])
  {
    if i :| i in t.intents && t.intents[i].key == intent.key {
      assert t.intents[id := intent][i].key == t.intents[id := intent][id].key;
    }
  }

  /** Whatever was taken was due, is processing now with one more attempt, and waited no longer than
      anything due that was left; nothing else changed. */
  lemma {:induction false} ClaimTakesTheEarliest(jobs: seq<Job>, now: Time, limit: nat)
    ensures var c := ClaimJobs(jobs, now, limit);
      && |c.ids| <= limit
      && (forall i | 0 <= i < |jobs| :: i in c.ids <==> c.jobs[i] != jobs[i])
      && (forall i | i in c.ids :: Due(jobs[i], now) && c.jobs[i] == Taken(jobs[i]))
      && (forall i, k | i in c.ids && 0 <= k < |jobs| && Due(c.jobs[k], now) :: jobs[i].availableAt <= jobs[k].availableAt)
      && (|c.ids| < limit ==> forall k | 0 <= k < |jobs| :: !Due(c.jobs[k], now))
      && (forall i, j | 0 <= i < |c.ids| && 0 <= j < |c.ids| && c.ids[i] == c.ids[j] :: i == j)
  {
    if limit > 0 {
      ClaimTakesTheEarliest(jobs, now, limit - 1);
      var c := ClaimJobs(jobs, now, limit - 1);
      var next := Earliest(c.jobs, now, |c.jobs|);
      if next.Some? {
        assert next.value !in c.ids;
        assert c.jobs[next.value] == jobs[next.value];
      }
    }
  }

  /** A failure ends the job without marking its intent failed exactly when a retry was asked for at the
      last attempt, which is what a reorganisation does. */
  lemma TerminalWithoutFailedIntentExactlyWhen(t: Tables, id: JobId, code: string, retryAt: Option<Time>)
    requires id < |t.jobs| && t.jobs[id].intentId in t.intents
    requires t.intents[t.jobs[id].intentId].state != IntentState.Failed
    ensures var t' := MarkFailed(t, id, code, retryAt);
      (t'.jobs[id].state != JobState.Queued && t'.intents[t.jobs[id].intentId].state != IntentState.Failed)
      <==> (retryAt.Some? && t.jobs[id].attempts >= MAX_ATTEMPTS)
  {
    assert FailedJob(t.jobs[id], retryAt).intentId == t.jobs[id].intentId;
  }

  // ---------- The store ----------

  /** A job is one object, shared by the store and by the worker that claimed it. */
  class ExecutionJob {
    const intentId: IntentId
    var state: JobState
    var attempts: nat
    var availableAt: Time
    var transactionHash: Option<TxHash>
    var signedTransaction: Option<Bytes>
    var chainNonce: Option<nat>

    constructor (intentId: IntentId, now: Time)
      ensures Contents() == Job(intentId, JobState.Queued, 0, now, None, None, None)
    {
      this.intentId, state, attempts, availableAt := intentId, JobState.Queued, 0, now;
      transactionHash, signedTransaction, chainNonce := None, None, None;
    }

    function Contents(): Job
      reads this
    {
      Job(intentId, state, attempts, availableAt, transactionHash, signedTransaction, chainNonce)
    }
  }

  class ExecutionStore {
    var intents: map<IntentId, Intent>
    var jobs: seq<ExecutionJob>

    ghost predicate Valid()
      reads this
    {
      forall i, j | 0 <= i < j < |jobs| :: jobs[i] != jobs[j]
    }

    ghost function JobValues(): (r: seq<Job>)
      reads this, jobs
      ensures |r| == |jobs| && forall i | 0 <= i < |r| :: r[i] == jobs[i].Contents()
    {
      seq(|jobs|, i requires 0 <= i < |jobs| reads this, jobs => jobs[i].Contents())
    }

    ghost function Contents(): Tables
      reads this, jobs
    {
      Tables(intents, JobValues())
    }

    constructor ()
      ensures Valid() && jobs == [] && Contents() == Tables(map[], [])
    {
      intents, jobs := map[], [];
    }

    method SaveNewIntent(id: IntentId, intent: Intent) returns (ok: bool)
      modifies this`intents
      ensures ok == SaveIntent(old(Contents()), id, intent).Ok?
      ensures Contents() == if ok then SaveIntent(old(Contents()), id, intent).value else old(Contents())
    {
      if Duplicates(intents, intent.key) {
        return false;
      }
      intents := intents[id := intent];
      ok := true;
    }

    method FindJob(intentId: IntentId) returns (r: Option<JobId>)
      ensures r == JobFor(JobValues(), intentId, |jobs|)
    {
      r := None;
      for n := 0 to |jobs|
        invariant r == JobFor(JobValues(), intentId, n)
      {
        if r.None? && jobs[n].intentId == intentId {
          r := Some(n);
        }
      }
    }

    method Enqueue(intentId: IntentId, now: Time) returns (id: JobId)
      requires Valid()
      modifies this
      ensures Valid() && fresh(set j | j in jobs && j !in old(jobs))
      ensures Contents() == EnqueueIntent(old(Contents()), intentId, now)
      ensures id < |jobs| && jobs[id].intentId == intentId
    {
      var existing := FindJob(intentId);
      if existing.Some? {
        return existing.value;
      }
      var job := new ExecutionJob(intentId, now);
      id := |jobs|;
      jobs := jobs + [job];
      if intentId in intents {
        intents := intents[intentId := intents[intentId].(state := IntentState.Queued)];
      }
    }

    method FindEarliest(now: Time) returns (r: Option<JobId>)
      ensures r == Earliest(JobValues(), now, |jobs|)
    {
      r := None;
      for n := 0 to |jobs|
        invariant r == Earliest(JobValues(), now, n)
      {
        var job := jobs[n];
        if job.state == JobState.Queued && job.availableAt <= now
           && (r.None? || job.availableAt < jobs[r.value].availableAt) {
          r := Some(n);
        }
      }
    }

    ghost function RecordOf(id: JobId): set<ExecutionJob>
      reads this
    {
      if id < |jobs| then {jobs[id]} else {}
    }

    /** Each claimed job is marked in place, so it is no longer due for the next round. */
    method ClaimExecutionJobs(now: Time, limit: nat) returns (claimed: seq<JobId>)
      requires Valid()
      modifies jobs
      ensures Valid() && claimed == ClaimJobs(old(JobValues()), now, limit).ids
      ensures JobValues() == ClaimJobs(old(JobValues()), now, limit).jobs
    {
      claimed := [];
      ghost var before := JobValues();
      for k := 0 to limit
        invariant Claim(JobValues(), claimed) == ClaimJobs(before, now, k)
      {
        var next := FindEarliest(now);
        if next.Some? {
          Take(next.value);
          claimed := claimed + [next.value];
        }
      }
    }

    method Take(id: JobId)
      requires Valid() && id < |jobs|
      modifies jobs[id]
      ensures JobValues() == old(JobValues())[id := Taken(old(JobValues()[id]))]
    {
      jobs[id].state := JobState.Processing;
      jobs[id].attempts := jobs[id].attempts + 1;
    }

    method PersistSignedTransaction(id: JobId, tx: Prepared) returns (ok: bool)
      requires Valid()
      modifies RecordOf(id)
      ensures ok == (id < |jobs|)
      ensures Contents() == if ok then PersistTransaction(old(Contents()), id, tx) else old(Contents())
    {
      if id >= |jobs| {
        return false;
      }
      ok := true;
      var job := jobs[id];
      job.transactionHash := Some(Keccak(tx.serialized));
      job.signedTransaction := Some(tx.serialized);
      job.chainNonce := Some(tx.nonce);
      job.state := JobState.Submitted;
    }

    method MarkJobSubmitted(id: JobId, hash: TxHash) returns (ok: bool)
      requires Valid()
      modifies this`intents, RecordOf(id)
      ensures ok == (id < |jobs|)
      ensures Contents() == if ok then MarkSubmitted(old(Contents()), id, hash) else old(Contents())
    {
      if id >= |jobs| {
        return false;
      }
      ok := true;
      var job := jobs[id];
      job.transactionHash, job.state := Some(hash), JobState.Submitted;
      if job.intentId in intents {
        intents := intents[job.intentId := SubmittedIntent(intents[job.intentId], hash)];
      }
    }

    method MarkJobConfirmed(id: JobId, hash: TxHash, blockNumber: nat) returns (ok: bool)
      requires Valid()
      modifies this`intents, RecordOf(id)
      ensures ok == (id < |jobs|)
      ensures Contents() == if ok then MarkConfirmed(old(Contents()), id, hash, blockNumber) else old(Contents())
    {
      if id >= |jobs| {
        return false;
      }
      ok := true;
      var job := jobs[id];
      job.transactionHash, job.state := Some(hash), JobState.Confirmed;
      if job.intentId in intents {
        intents := intents[job.intentId := ConfirmedIntent(intents[job.intentId], hash, blockNumber)];
      }
    }

    method MarkJobFailed(id: JobId, code: string, retryAt: Option<Time>) returns (ok: bool)
      requires Valid()
      modifies this`intents, RecordOf(id)
      ensures ok == (id < |jobs|)
      ensures Contents() == if ok then MarkFailed(old(Contents()), id, code, retryAt) else old(Contents())
    {
      if id >= |jobs| {
        return false;
      }
      ok := true;
      var job := jobs[id];
      if retryAt.Some? && job.attempts < MAX_ATTEMPTS {
        job.state := JobState.Queued;
      } else if job.attempts >= MAX_ATTEMPTS {
        job.state := DeadLetter;
      } else {
        job.state := JobState.Failed;
      }
      if retryAt.Some? {
        job.availableAt := retryAt.value;
      } else if job.intentId in intents {
        intents := intents[job.intentId := FailedIntent(intents[job.intentId], code)];
      }
    }
  }
}
