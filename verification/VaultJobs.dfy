/** Durable vault-deployment jobs: the values the control-plane store holds, its operations as
    functions on those values, and the store itself as a class whose methods realise them.

    A job's id is its creation rank, because the source keeps jobs in an insertion-ordered map and
    never deletes one. */
module VaultJobs {
  import opened Wrappers

  type WorkerId = nat
  type AgentId = nat
  type JobId = nat

  const MAX_ATTEMPTS: nat := 20
  const RANGE: nat := 3

  /** CREATE addresses are an injective function of creator and nonce. */
  datatype Address = Account(id: nat) | Contract(creator: Address, nonce: nat)

  datatype Step = Controller | Fund | Register

  /** The raw bytes of one signed transaction; signing and hashing are injective constructors. */
  datatype SignedTx = SignedTx(signer: Address, step: Step, nonce: nat, gas: nat)
  datatype TxHash = Keccak(preimage: SignedTx)
  datatype VaultTx = VaultTx(step: Step, nonce: nat, serialized: SignedTx, hash: TxHash)
  datatype Plan = Plan(deployer: Address, controller: Address, fund: Address, transactions: seq<VaultTx>)

  datatype JobState =
    | Requested
    | Preparing
    | DeployingController
    | DeployingFund
    | Registering
    | AwaitingSponsorBind
    | Ready
    | Failed

  datatype Code =
    | AgentInactive
    | TemporaryFailure
    | Reverted(step: Step)
    | ReorgDetected
    | BroadcastFailed
    | HashMismatch
    | Other(id: nat)

  datatype VaultJob = VaultJob(
    agent: AgentId,
    state: JobState,
    plan: Option<Plan>,
    controller: Option<Address>,
    fund: Option<Address>,
    stakeEscrow: Option<Address>,
    nonceStart: Option<nat>,
    attempts: nat,
    availableAt: int,
    lockedBy: Option<WorkerId>,
    errorCode: Option<Code>)

  datatype StoreError = UnknownJob | NotOwned | PlanPersisted

  datatype UpdateOptions = UpdateOptions(
    stakeEscrow: Option<Address>,
    errorCode: Option<Code>,
    availableAt: int,
    terminal: bool,
    incrementAttempts: bool)

  predicate Active(state: JobState) {
    state.Requested? || state.Preparing? || state.DeployingController? || state.DeployingFund? || state.Registering?
  }

  /** A job that stands in the way of every other one: it owns a lock or a nonce range. */
  predicate Held(job: VaultJob) {
    Active(job.state) && (job.nonceStart.Some? || job.lockedBy.Some?)
  }

  /** The comparator of the blocker sort: reserved ranges first, by their start. */
  predicate Before(left: VaultJob, right: VaultJob) {
    left.nonceStart.Some? && (right.nonceStart.None? || left.nonceStart.value < right.nonceStart.value)
  }

  /** The first job of the held ones, among the first `n`, in the blocker order. */
  function BlockerUpTo(jobs: seq<VaultJob>, n: nat): (b: Option<JobId>)
    requires n <= |jobs|
    ensures b.None? <==> forall i :: 0 <= i < n ==> !Held(jobs[i])
    ensures b.Some? ==> b.value < n && Held(jobs[b.value])
    ensures b.Some? ==> forall i :: 0 <= i < n && Held(jobs[i]) ==> !Before(jobs[i], jobs[b.value])
  {
    if n == 0 then None
    else
      var best := BlockerUpTo(jobs, n - 1);
      if Held(jobs[n - 1]) && (best.None? || Before(jobs[n - 1], jobs[best.value])) then Some(n - 1)
      else best
  }

  predicate Claimable(job: VaultJob, id: JobId, blocker: Option<JobId>, now: int, eligible: set<AgentId>) {
    && Active(job.state)
    && job.availableAt <= now
    && job.attempts < MAX_ATTEMPTS
    && job.lockedBy.None?
    && (blocker.None? || blocker.value == id)
    && job.agent in eligible
  }

  /** The claimable ids among the first `n` jobs, in insertion order. */
  function ClaimableUpTo(jobs: seq<VaultJob>, n: nat, blocker: Option<JobId>, now: int, eligible: set<AgentId>)
    : (ids: seq<JobId>)
    requires n <= |jobs|
    ensures forall id: JobId :: id in ids <==> id < n && Claimable(jobs[id], id, blocker, now, eligible)
  {
    if n == 0 then []
    else
      var before := ClaimableUpTo(jobs, n - 1, blocker, now, eligible);
      if Claimable(jobs[n - 1], n - 1, blocker, now, eligible) then before + [n - 1] else before
  }

  /** `slice(0, limit)`. */
  function Take<T>(s: seq<T>, limit: nat): (r: seq<T>)
    ensures r <= s && |r| <= limit && (|r| < limit ==> r == s)
    ensures forall x :: x in r ==> x in s
  {
    if |s| <= limit then s else s[..limit]
  }

  function ClaimIds(jobs: seq<VaultJob>, limit: nat, now: int, eligible: set<AgentId>): (ids: seq<JobId>)
    ensures |ids| <= limit
    ensures forall id: JobId :: id in ids ==>
      id < |jobs| && Claimable(jobs[id], id, BlockerUpTo(jobs, |jobs|), now, eligible)
  {
    Take(ClaimableUpTo(jobs, |jobs|, BlockerUpTo(jobs, |jobs|), now, eligible), limit)
  }

  function Lock(jobs: seq<VaultJob>, ids: seq<JobId>, worker: WorkerId): (r: seq<VaultJob>)
    ensures |r| == |jobs|
    ensures forall i :: 0 <= i < |jobs| ==> r[i] == if i in ids then jobs[i].(lockedBy := Some(worker)) else jobs[i]
  {
    seq(|jobs|, i requires 0 <= i < |jobs| => if i in ids then jobs[i].(lockedBy := Some(worker)) else jobs[i])
  }

  /** One past every range a persisted plan of this deployer occupies, and at least `observed`.
      Jobs without a plan are ignored, whatever range they hold. */
  function HighestNonce(jobs: seq<VaultJob>, n: nat, deployer: Address, observed: nat): (h: nat)
    requires n <= |jobs|
    ensures observed <= h
    ensures forall i | 0 <= i < n && jobs[i].nonceStart.Some? && jobs[i].plan.Some?
              && jobs[i].plan.value.deployer == deployer :: jobs[i].nonceStart.value + RANGE <= h
  {
    if n == 0 then observed
    else
      var h := HighestNonce(jobs, n - 1, deployer, observed);
      var job := jobs[n - 1];
      if job.plan.Some? && job.plan.value.deployer == deployer && job.nonceStart.Some?
         && job.nonceStart.value + RANGE > h
      then job.nonceStart.value + RANGE else h
  }

  function NewJob(agent: AgentId, now: int): VaultJob {
    VaultJob(agent, Requested, None, None, None, None, None, 0, now, None, None)
  }

  function Reserve(jobs: seq<VaultJob>, id: JobId, deployer: Address, observed: nat)
    : Result<(nat, seq<VaultJob>), StoreError>
  {
    if id >= |jobs| then Err(UnknownJob)
    else if jobs[id].nonceStart.Some? then Ok((jobs[id].nonceStart.value, jobs))
    else
      var start := HighestNonce(jobs, |jobs|, deployer, observed);
      Ok((start, jobs[id := jobs[id].(nonceStart := Some(start), state := Preparing)]))
  }

  function ReleaseUnused(jobs: seq<VaultJob>, id: JobId): Result<seq<VaultJob>, StoreError> {
    if id >= |jobs| then Err(UnknownJob)
    else if jobs[id].plan.Some? then Err(PlanPersisted)
    else Ok(jobs[id := jobs[id].(nonceStart := None)])
  }

  function Persist(jobs: seq<VaultJob>, id: JobId, worker: WorkerId, plan: Plan): Result<seq<VaultJob>, StoreError> {
    if id >= |jobs| then Err(UnknownJob)
    else if jobs[id].lockedBy != Some(worker) then Err(NotOwned)
    else Ok(jobs[id := jobs[id].(plan := Some(plan), controller := Some(plan.controller), fund := Some(plan.fund),
                                 state := DeployingController)])
  }

  function Update(jobs: seq<VaultJob>, id: JobId, worker: WorkerId, state: JobState, options: UpdateOptions)
    : Result<seq<VaultJob>, StoreError>
  {
    if id >= |jobs| then Err(UnknownJob)
    else if jobs[id].lockedBy != Some(worker) then Err(NotOwned)
    else
      var job := jobs[id];
      Ok(jobs[id := job.(state := if options.terminal then Failed else state,
                         errorCode := options.errorCode,
                         stakeEscrow := if options.stakeEscrow.Some? then options.stakeEscrow else job.stakeEscrow,
                         availableAt := options.availableAt,
                         lockedBy := None,
                         attempts := if options.incrementAttempts then job.attempts + 1 else job.attempts)])
  }

  /** The row filter of the guarded update that activates a vault. */
  predicate AwaitsBinding(job: VaultJob, agent: AgentId, controller: Address, fund: Address) {
    job.agent == agent && job.state.AwaitingSponsorBind? && job.controller == Some(controller) && job.fund == Some(fund)
  }

  function AwaitingIds(jobs: seq<VaultJob>, agent: AgentId, controller: Address, fund: Address): set<JobId> {
    set i: JobId | i < |jobs| && AwaitsBinding(jobs[i], agent, controller, fund)
  }

  function MarkReady(jobs: seq<VaultJob>, agent: AgentId, controller: Address, fund: Address, escrow: Address)
    : (r: seq<VaultJob>)
    ensures |r| == |jobs|
    ensures forall i :: 0 <= i < |jobs| ==>
      r[i] == if AwaitsBinding(jobs[i], agent, controller, fund)
              then jobs[i].(state := Ready, stakeEscrow := Some(escrow), lockedBy := None, errorCode := None)
              else jobs[i]
  {
    seq(|jobs|, i requires 0 <= i < |jobs| =>
      if AwaitsBinding(jobs[i], agent, controller, fund)
      then jobs[i].(state := Ready, stakeEscrow := Some(escrow), lockedBy := None, errorCode := None)
      else jobs[i])
  }

  /** The three signed transactions of a deployment, at three consecutive nonces. */
  function SignTx(deployer: Address, step: Step, nonce: nat, gas: nat): VaultTx {
    var raw := SignedTx(deployer, step, nonce, gas);
    VaultTx(step, nonce, raw, Keccak(raw))
  }

  function Prepare(deployer: Address, start: nat, gas: (nat, nat, nat)): Plan {
    Plan(deployer, Contract(deployer, start), Contract(deployer, start + 1),
         [SignTx(deployer, Controller, start, gas.0),
          SignTx(deployer, Fund, start + 1, gas.1),
          SignTx(deployer, Register, start + 2, gas.2)])
  }

  /** The store object. Its one field is reassigned by every method. */
  class VaultStore {
    var jobs: seq<VaultJob>

    constructor ()
      ensures jobs == []
    {
      jobs := [];
    }

    method CreateVaultJob(agent: AgentId, now: int) returns (id: JobId)
      modifies this
      ensures id == |old(jobs)| && jobs == old(jobs) + [NewJob(agent, now)]
    {
      id := |jobs|;
      jobs := jobs + [NewJob(agent, now)];
    }

    method ClaimVaultJobs(worker: WorkerId, limit: nat, now: int, eligible: set<AgentId>) returns (ids: seq<JobId>)
      modifies this
      ensures ids == ClaimIds(old(jobs), limit, now, eligible)
      ensures jobs == Lock(old(jobs), ids, worker)
    {
      var blocker: Option<JobId> := None;
      for n := 0 to |jobs|
        invariant blocker == BlockerUpTo(jobs, n)
      {
        if Held(jobs[n]) && (blocker.None? || Before(jobs[n], jobs[blocker.value])) {
          blocker := Some(n);
        }
      }
      ids := [];
      for n := 0 to |jobs|
        invariant ids == ClaimableUpTo(jobs, n, blocker, now, eligible)
      {
        if Claimable(jobs[n], n, blocker, now, eligible) {
          ids := ids + [n];
        }
      }
      ids := Take(ids, limit);
      ghost var before := jobs;
      assert ids == ClaimIds(jobs, limit, now, eligible);
      for k := 0 to |ids|
        invariant |jobs| == |before|
        invariant forall id: JobId :: id in ids ==> id < |before|
        invariant forall i :: 0 <= i < |before| ==>
          jobs[i] == if i in ids[..k] then before[i].(lockedBy := Some(worker)) else before[i]
      {
        assert ids[k] in ids;
        jobs := jobs[ids[k] := jobs[ids[k]].(lockedBy := Some(worker))];
      }
      assert ids[..|ids|] == ids;
    }

    method ReserveVaultNonceRange(id: JobId, deployer: Address, observed: nat) returns (r: Result<nat, StoreError>)
      modifies this
      ensures match Reserve(old(jobs), id, deployer, observed)
              case Ok(out) => r == Ok(out.0) && jobs == out.1
              case Err(e) => r == Err(e) && jobs == old(jobs)
    {
      if id >= |jobs| { return Err(UnknownJob); }
      if jobs[id].nonceStart.Some? { return Ok(jobs[id].nonceStart.value); }
      var highest := observed;
      for n := 0 to |jobs|
        invariant highest == HighestNonce(jobs, n, deployer, observed)
      {
        var item := jobs[n];
        if item.plan.Some? && item.plan.value.deployer == deployer && item.nonceStart.Some? {
          if item.nonceStart.value + RANGE > highest { highest := item.nonceStart.value + RANGE; }
        }
      }
      jobs := jobs[id := jobs[id].(nonceStart := Some(highest), state := Preparing)];
      r := Ok(highest);
    }

    method ReleaseUnusedVaultNonceRange(id: JobId) returns (r: Result<(), StoreError>)
      modifies this
      ensures match ReleaseUnused(old(jobs), id)
              case Ok(out) => r == Ok(()) && jobs == out
              case Err(e) => r == Err(e) && jobs == old(jobs)
    {
      if id >= |jobs| { return Err(UnknownJob); }
      if jobs[id].plan.Some? { return Err(PlanPersisted); }
      jobs := jobs[id := jobs[id].(nonceStart := None)];
      r := Ok(());
    }

    method PersistVaultDeploymentPlan(id: JobId, worker: WorkerId, plan: Plan) returns (r: Result<(), StoreError>)
      modifies this
      ensures match Persist(old(jobs), id, worker, plan)
              case Ok(out) => r == Ok(()) && jobs == out
              case Err(e) => r == Err(e) && jobs == old(jobs)
    {
      if id >= |jobs| { return Err(UnknownJob); }
      if jobs[id].lockedBy != Some(worker) { return Err(NotOwned); }
      jobs := jobs[id := jobs[id].(plan := Some(plan), controller := Some(plan.controller), fund := Some(plan.fund))];
      jobs := jobs[id := jobs[id].(state := DeployingController)];
      r := Ok(());
    }

    method UpdateVaultJobState(id: JobId, worker: WorkerId, state: JobState, options: UpdateOptions)
      returns (r: Result<(), StoreError>)
      modifies this
      ensures match Update(old(jobs), id, worker, state, options)
              case Ok(out) => r == Ok(()) && jobs == out
              case Err(e) => r == Err(e) && jobs == old(jobs)
    {
      if id >= |jobs| { return Err(UnknownJob); }
      if jobs[id].lockedBy != Some(worker) { return Err(NotOwned); }
      var job := jobs[id].(state := if options.terminal then Failed else state, errorCode := options.errorCode);
      if options.stakeEscrow.Some? { job := job.(stakeEscrow := options.stakeEscrow); }
      job := job.(availableAt := options.availableAt, lockedBy := None);
      if options.incrementAttempts { job := job.(attempts := job.attempts + 1); }
      jobs := jobs[id := job];
      r := Ok(());
    }

    /** Throws unless exactly one row was updated. */
    method MarkVaultJobReady(agent: AgentId, controller: Address, fund: Address, escrow: Address) returns (ok: bool)
      modifies this
      ensures jobs == MarkReady(old(jobs), agent, controller, fund, escrow)
      ensures ok <==> |AwaitingIds(old(jobs), agent, controller, fund)| == 1
    {
      ghost var before := jobs;
      var rows: set<JobId> := {};
      for n := 0 to |jobs|
        invariant |jobs| == |before|
        invariant forall i :: 0 <= i < n ==> jobs[i] == MarkReady(before, agent, controller, fund, escrow)[i]
        invariant forall i :: n <= i < |before| ==> jobs[i] == before[i]
        invariant rows == set i: JobId | i < n && AwaitsBinding(before[i], agent, controller, fund)
      {
        if AwaitsBinding(jobs[n], agent, controller, fund) {
          jobs := jobs[n := jobs[n].(state := Ready, stakeEscrow := Some(escrow), lockedBy := None, errorCode := None)];
          rows := rows + {n};
        }
      }
      assert rows == AwaitingIds(before, agent, controller, fund);
      ok := |rows| == 1;
    }
  }
}
