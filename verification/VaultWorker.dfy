/** The deployment worker as the source writes it: one tick as a routine over the store object, shown to
    be part of a run of the protocol from whatever state it finds. `Await` stands for every suspension,
    during which other workers, the network and the clock may move on. */
module VaultWorker {
  import opened Wrappers
  import opened VaultJobs
  import opened VaultProtocol

  datatype Thrown = Thrown(code: Code, retryable: bool)

  /** `Escaped` is a store error that leaves the `catch` block. */
  datatype Outcome = Pending | AwaitingSponsor | FailedTick | Escaped

  /** The answers of chain, RPC node and clock during one tick. */
  datatype Network = Network(
    backing: Result<(), Thrown>,
    preflight: Result<(), Thrown>,
    pendingNonce: Result<nat, Thrown>,
    gas: Result<(nat, nat, nat), Thrown>,
    receipt: nat -> Result<ReceiptAnswer, Thrown>,
    broadcast: nat -> BroadcastAnswer,
    stakeEscrow: Result<Address, Thrown>,
    retryAt: int)

  const TEMPORARY := Thrown(TemporaryFailure, true)

  /** What a worker remembers when it starts on a claimed job. */
  function Start(tick: nat, id: JobId, job: VaultJob): Local {
    Local(tick, id, job.attempts, if job.state.Requested? then Preparing else job.state, job.plan.Some?, job.nonceStart.Some?)
  }

  class VaultDeploymentWorker {
    const id: WorkerId
    const store: VaultStore
    const deployer: Address
    const confirmations: nat

    /** The protocol run this object has carried out since `origin`, and the state it led to. */
    ghost var origin: System
    ghost var trace: seq<Action>
    ghost var cur: System

    constructor (id: WorkerId, store: VaultStore, deployer: Address, confirmations: nat, ghost origin: System)
      requires origin.jobs == store.jobs && origin.deployer == deployer && origin.confirmations == confirmations
      requires id !in origin.workers
      ensures this.id == id && this.store == store && this.origin == origin && this.cur == origin
      ensures Valid() && id !in cur.workers
    {
      this.id, this.store, this.deployer, this.confirmations := id, store, deployer, confirmations;
      this.origin, this.trace, this.cur := origin, [], origin;
    }

    /** The object and its store are where the run says. */
    ghost predicate Valid()
      reads this, store
    {
      && Run(origin, trace) == Some(cur)
      && cur.jobs == store.jobs && cur.deployer == deployer && cur.confirmations == confirmations
    }

    /** Where this worker stands, if it is inside a tick. */
    ghost function Mine(): Option<Pc>
      reads this
    {
      if id in cur.workers then Some(cur.workers[id]) else None
    }

    ghost predicate StandsAt(pc: Pc)
      reads this
    {
      Mine() == Some(pc)
    }

    ghost predicate Idle()
      reads this
    {
      Mine() == None
    }

    /** How a tick with this outcome left the run and the job. */
    ghost predicate Left(jobId: JobId, tick: nat, outcome: Outcome)
      reads this, store
    {
      && trace != []
      && var last := trace[|trace| - 1];
      match outcome
      case Escaped => (last.Catch? || last.Fail?) && last.w == id
      case AwaitingSponsor =>
        last.Bind? && last.w == id && Freed(jobId) && store.jobs[jobId].state.AwaitingSponsorBind?
        && Noted(Bound(tick, jobId))
      case FailedTick =>
        last.Fail? && last.w == id && Freed(jobId) && store.jobs[jobId].state == Failed && Noted(Failure(jobId))
      case Pending =>
        Freed(jobId) && (last.Release? || (last.Fail? && Noted(Failure(jobId)))) && last.w == id
    }

    ghost predicate Freed(jobId: JobId)
      reads this, store
    {
      jobId < |store.jobs| && store.jobs[jobId].lockedBy.None?
    }

    ghost predicate Noted(e: Entry)
      reads this
    {
      cur.log != [] && cur.log[|cur.log| - 1] == e
    }

    /** Nothing is known of what happens meanwhile, except that it is a run and leaves this worker alone. */
    method Await()
      requires Valid()
      modifies this`trace, this`cur, store
      ensures Valid() && old(trace) <= trace && Mine() == old(Mine())
    {
    }

    ghost method Advance(a: Action)
      requires Run(origin, trace) == Some(cur) && Next(cur, a).Some?
      modifies this`trace, this`cur
      ensures Run(origin, trace) == Some(cur) && cur == Next(old(cur), a).value && trace == old(trace) + [a]
    {
      assert (trace + [a])[..|trace|] == trace;
      trace, cur := trace + [a], Next(cur, a).value;
    }

    /** One tick: claim at most one job and process it. */
    method RunOnce(now: int, eligible: set<AgentId>, net: Network) returns (claimed: Option<JobId>, outcome: Outcome)
      requires Valid() && Idle()
      modifies this`trace, this`cur, store
      ensures Valid() && old(trace) <= trace && Idle()
      ensures claimed == (var ids := ClaimIds(old(store.jobs), 1, now, eligible); if ids == [] then None else Some(ids[0]))
      ensures claimed.Some? ==> Left(claimed.value, old(cur.ticks), outcome)
    {
      claimed := ClaimOne(now, eligible);
      if claimed.None? { return claimed, Pending; }
      outcome := Process(claimed.value, old(cur.ticks), net);
    }

    method ClaimOne(now: int, eligible: set<AgentId>) returns (claimed: Option<JobId>)
      requires Valid() && Idle()
      modifies this`trace, this`cur, store
      ensures Valid() && old(trace) <= trace
      ensures claimed == (var ids := ClaimIds(old(store.jobs), 1, now, eligible); if ids == [] then None else Some(ids[0]))
      ensures claimed.None? ==> Idle()
      ensures claimed.Some? ==>
        claimed.value < |store.jobs|
        && StandsAt(Validating(Start(old(cur.ticks), claimed.value, store.jobs[claimed.value]), store.jobs[claimed.value].plan))
    {
      var ids := store.ClaimVaultJobs(id, 1, now, eligible);
      Advance(Claim(id, now, eligible));
      if ids == [] { return None; }
      assert ids[0] in ids;
      claimed := Some(ids[0]);
    }

    /** The body of a tick on a claimed job, with the classification of what it throws. */
    method Process(jobId: JobId, ghost tick: nat, net: Network) returns (outcome: Outcome)
      requires Valid() && jobId < |store.jobs|
      requires StandsAt(Validating(Start(tick, jobId, store.jobs[jobId]), store.jobs[jobId].plan))
      modifies this`trace, this`cur, store
      ensures Valid() && old(trace) <= trace && Idle() && Left(jobId, tick, outcome)
    {
      var attempts := store.jobs[jobId].attempts;
      var r, stage, planPersisted, nonceReserved := Attempt(jobId, tick, net);
      if r.Ok? { return r.value; }

      ghost var l := Local(tick, jobId, attempts, stage, planPersisted, nonceReserved);
      var retry := r.error.retryable && attempts + 1 < MAX_ATTEMPTS;
      var escaped := Recover(l, r.error, jobId, retry, !retry && !planPersisted && nonceReserved);
      if escaped { return Escaped; }
      Await();
      outcome := RecordFailure(l, jobId, stage, r.error.code, retry, net.retryAt);
    }

    /** The counted failure, retried or terminal; a store error escapes. */
    method RecordFailure(ghost l: Local, jobId: JobId, stage: JobState, code: Code, retry: bool, retryAt: int)
      returns (outcome: Outcome)
      requires Valid() && StandsAt(Failing(l, code, retry)) && l.job == jobId && l.stage == stage
      modifies this`trace, this`cur, store
      ensures Valid() && old(trace) <= trace && Idle() && Left(jobId, l.tick, outcome)
      ensures outcome.Escaped? <==> (jobId >= |old(store.jobs)| || old(store.jobs)[jobId].lockedBy != Some(id))
      ensures outcome.Escaped? ==> store.jobs == old(store.jobs)
      ensures !outcome.Escaped? ==>
        && outcome == (if retry then Pending else FailedTick)
        && store.jobs[jobId].attempts == old(store.jobs)[jobId].attempts + 1
        && store.jobs[jobId].errorCode == Some(code) && store.jobs[jobId].availableAt == retryAt
        && store.jobs[jobId].state == (if retry then stage else Failed)
    {
      var updated := store.UpdateVaultJobState(jobId, id, stage, UpdateOptions(None, Some(code), retryAt, !retry, true));
      Advance(Fail(id, retryAt));
      outcome := if updated.Err? then Escaped else if retry then Pending else FailedTick;
    }

    /** Give an unused range back; a store error escapes the `catch` block. */
    method Recover(ghost l: Local, e: Thrown, jobId: JobId, retry: bool, unused: bool) returns (escaped: bool)
      requires Valid() && StandsAt(Catching(l, e.code, e.retryable)) && l.job == jobId
      requires retry == (e.retryable && l.attempts + 1 < MAX_ATTEMPTS)
      requires unused == (!retry && !l.planPersisted && l.nonceReserved)
      modifies this`trace, this`cur, store
      ensures Valid() && old(trace) <= trace && if escaped then Idle() else StandsAt(Failing(l, e.code, retry))
      ensures escaped ==> unused && Left(jobId, l.tick, Escaped)
      ensures unused && !escaped ==> jobId < |store.jobs| && store.jobs[jobId].nonceStart.None?
      ensures !unused ==> store.jobs == old(store.jobs)
    {
      escaped := false;
      if unused {
        Await();
        var released := store.ReleaseUnusedVaultNonceRange(jobId);
        escaped := released.Err?;
      }
      Advance(Catch(id));
    }

    /** The `try` block: returns its result, or what it throws together with the three variables
        the `catch` block reads. */
    method Attempt(jobId: JobId, ghost tick: nat, net: Network)
      returns (r: Result<Outcome, Thrown>, stage: JobState, planPersisted: bool, nonceReserved: bool)
      requires Valid() && jobId < |store.jobs|
      requires StandsAt(Validating(Start(tick, jobId, store.jobs[jobId]), store.jobs[jobId].plan))
      modifies this`trace, this`cur, store
      ensures Valid() && old(trace) <= trace
      ensures match r
              case Ok(o) => Idle() && Left(jobId, tick, o)
              case Err(e) => StandsAt(Catching(
                Local(tick, jobId, old(store.jobs[jobId].attempts), stage, planPersisted, nonceReserved), e.code, e.retryable))
    {
      var job := store.jobs[jobId];
      stage := if job.state.Requested? then Preparing else job.state;
      planPersisted := job.plan.Some?;
      nonceReserved := job.nonceStart.Some?;
      ghost var l := Start(tick, jobId, job);

      Await();
      if net.backing.Err? {
        Raise(l, net.backing.error);
        return Err(net.backing.error), stage, planPersisted, nonceReserved;
      }
      Accept(l, job.plan);

      var plan: Plan;
      if job.plan.None? {
        var made;
        made, planPersisted, nonceReserved := MakePlan(l, jobId, net, nonceReserved);
        if made.Err? { return Err(made.error), stage, planPersisted, nonceReserved; }
        plan := made.value;
      } else {
        plan := job.plan.value;
      }

      for k := 0 to |plan.transactions|
        invariant Valid() && old(trace) <= trace
        invariant StandsAt(Loop(Local(tick, jobId, job.attempts, stage, planPersisted, nonceReserved), plan, k))
      {
        stage := StageOf(plan.transactions[k].step);
        ghost var here := Local(tick, jobId, job.attempts, stage, planPersisted, nonceReserved);
        var left := CheckTransaction(here, jobId, plan, k, stage, net);
        if left.Some? { return left.value, stage, planPersisted, nonceReserved; }
      }

      l := Local(tick, jobId, job.attempts, stage, planPersisted, nonceReserved);
      Await();
      if net.stakeEscrow.Err? {
        Raise(l, net.stakeEscrow.error);
        return Err(net.stakeEscrow.error), stage, planPersisted, nonceReserved;
      }
      r := Finish(l, jobId, plan, net.stakeEscrow.value, net.retryAt);
    }

    /** The backing checks pass. */
    ghost method Accept(l: Local, stored: Option<Plan>)
      requires Valid() && StandsAt(Validating(l, stored))
      modifies this`trace, this`cur
      ensures Valid() && old(trace) <= trace && StandsAt(if stored.Some? then Loop(l, stored.value, 0) else Planning(l))
    {
      Advance(Validate(id));
    }

    /** All three transactions are confirmed and the deployment verified: wait for the sponsor. */
    method Finish(ghost l: Local, jobId: JobId, ghost plan: Plan, escrow: Address, at: int)
      returns (r: Result<Outcome, Thrown>)
      requires Valid() && StandsAt(Verifying(l, plan)) && l.job == jobId
      modifies this`trace, this`cur, store
      ensures Valid() && old(trace) <= trace
      ensures match r
              case Ok(o) => Idle() && Left(jobId, l.tick, o)
              case Err(e) => StandsAt(Catching(l, e.code, e.retryable))
    {
      Advance(Verify(id, escrow));
      Await();
      var bound := store.UpdateVaultJobState(jobId, id, AwaitingSponsorBind,
        UpdateOptions(Some(escrow), None, at, false, false));
      Advance(Bind(id, at));
      r := if bound.Ok? then Ok(AwaitingSponsor) else Err(TEMPORARY);
    }

    /** The branch for a job without a plan: reserve a range, sign, persist. */
    method MakePlan(ghost l: Local, jobId: JobId, net: Network, reservedBefore: bool)
      returns (r: Result<Plan, Thrown>, planPersisted: bool, nonceReserved: bool)
      requires Valid() && StandsAt(Planning(l)) && l.job == jobId && !l.planPersisted && l.nonceReserved == reservedBefore
      modifies this`trace, this`cur, store
      ensures Valid() && old(trace) <= trace
      ensures var l' := l.(planPersisted := planPersisted, nonceReserved := nonceReserved);
              match r
              case Ok(plan) => StandsAt(Loop(l', plan, 0))
              case Err(e) => StandsAt(Catching(l', e.code, e.retryable))
    {
      planPersisted, nonceReserved := false, reservedBefore;
      Await();
      if net.preflight.Err? {
        Raise(l, net.preflight.error);
        return Err(net.preflight.error), planPersisted, nonceReserved;
      }
      Await();
      if net.pendingNonce.Err? {
        Raise(l, net.pendingNonce.error);
        return Err(net.pendingNonce.error), planPersisted, nonceReserved;
      }
      Await();
      var start := ReserveRange(l, jobId, net.pendingNonce.value);
      if start.Err? { return Err(start.error), planPersisted, nonceReserved; }
      nonceReserved := true;
      ghost var reserved := l.(nonceReserved := true);
      Await();
      if net.gas.Err? {
        Raise(reserved, net.gas.error);
        return Err(net.gas.error), planPersisted, nonceReserved;
      }
      r := SignAndStore(reserved, jobId, start.value, net.gas.value);
      planPersisted := r.Ok?;
    }

    method ReserveRange(ghost l: Local, jobId: JobId, observed: nat) returns (r: Result<nat, Thrown>)
      requires Valid() && StandsAt(Planning(l)) && l.job == jobId
      modifies this`trace, this`cur, store
      ensures Valid() && old(trace) <= trace
      ensures match r
              case Ok(start) => StandsAt(Signing(l.(nonceReserved := true), start))
              case Err(e) => StandsAt(Catching(l, e.code, e.retryable))
    {
      var start := store.ReserveVaultNonceRange(jobId, deployer, observed);
      Advance(Reserving(id, observed));
      r := if start.Ok? then Ok(start.value) else Err(TEMPORARY);
    }

    /** All three transactions are durable before the first one can reach a node. */
    method SignAndStore(ghost l: Local, jobId: JobId, start: nat, gas: (nat, nat, nat)) returns (r: Result<Plan, Thrown>)
      requires Valid() && StandsAt(Signing(l, start)) && l.job == jobId
      modifies this`trace, this`cur, store
      ensures Valid() && old(trace) <= trace
      ensures match r
              case Ok(plan) => StandsAt(Loop(l.(planPersisted := true), plan, 0))
              case Err(e) => StandsAt(Catching(l, e.code, e.retryable))
    {
      Advance(Sign(id, gas));
      if start + 2 > MAX_SAFE_INTEGER { return Err(TEMPORARY); }
      Await();
      var plan := Prepare(deployer, start, gas);
      var stored := store.PersistVaultDeploymentPlan(jobId, id, plan);
      Advance(Store(id));
      r := if stored.Ok? then Ok(plan) else Err(TEMPORARY);
    }

    /** One round of the transaction loop; `None` means the transaction is confirmed. */
    method CheckTransaction(ghost l: Local, jobId: JobId, plan: Plan, k: nat, stage: JobState, net: Network)
      returns (left: Option<Result<Outcome, Thrown>>)
      requires Valid() && k < |plan.transactions| && StandsAt(Checking(l, plan, k)) && l.job == jobId && l.stage == stage
      modifies this`trace, this`cur, store
      ensures Valid() && old(trace) <= trace
      ensures match left
              case None => StandsAt(Loop(l, plan, k + 1))
              case Some(Ok(o)) => Idle() && Left(jobId, l.tick, o)
              case Some(Err(e)) => StandsAt(Catching(l, e.code, e.retryable))
    {
      var tx := plan.transactions[k];
      Await();
      var answer := net.receipt(k);
      if answer.Err? {
        Raise(l, answer.error);
        return Some(Err(answer.error));
      }
      Hear(l, plan, k, answer.value);
      match answer.value {
        case Mined(success, block, blockHash, head, canonical) =>
          if !success { return Some(Err(Thrown(Reverted(tx.step), false))); }
          if canonical != blockHash {
            var r := GiveBack(l, jobId, stage, Some(ReorgDetected), net.retryAt);
            return Some(r);
          }
          if head - block + 1 < confirmations {
            var r := GiveBack(l, jobId, stage, None, net.retryAt);
            return Some(r);
          }
          return None;
        case NoReceipt =>
          Await();
          var reply := net.broadcast(k);
          Send(l, plan, k, reply);
          if reply.Rejected? { return Some(Err(Thrown(BroadcastFailed, true))); }
          if reply.Accepted? && reply.hash != tx.hash { return Some(Err(Thrown(HashMismatch, false))); }
          var r := GiveBack(l, jobId, stage, None, net.retryAt);
          return Some(r);
      }
    }

    /** The receipt check is one protocol step. */
    ghost method Hear(l: Local, plan: Plan, k: nat, answer: ReceiptAnswer)
      requires Valid() && k < |plan.transactions| && StandsAt(Checking(l, plan, k))
      modifies this`trace, this`cur
      ensures Valid() && old(trace) <= trace
      ensures StandsAt(match answer
                       case NoReceipt => Sending(l, plan, k)
                       case Mined(success, block, blockHash, head, canonical) =>
                         if !success then Catching(l, Reverted(plan.transactions[k].step), false)
                         else if canonical != blockHash then Releasing(l, Some(ReorgDetected))
                         else if head - block + 1 < confirmations then Releasing(l, None)
                         else Loop(l, plan, k + 1))
    {
      Advance(Receipt(id, answer));
    }

    /** So is the broadcast. */
    ghost method Send(l: Local, plan: Plan, k: nat, reply: BroadcastAnswer)
      requires Valid() && k < |plan.transactions| && StandsAt(Sending(l, plan, k))
      modifies this`trace, this`cur
      ensures Valid() && old(trace) <= trace
      ensures StandsAt(if reply.Rejected? then Catching(l, BroadcastFailed, true)
                       else if reply.Accepted? && reply.hash != plan.transactions[k].hash then Catching(l, HashMismatch, false)
                       else Releasing(l, None))
    {
      Advance(Broadcast(id, reply));
    }

    /** Give the lock back with a state and an optional note, to be picked up again later. */
    method GiveBack(ghost l: Local, jobId: JobId, stage: JobState, note: Option<Code>, retryAt: int)
      returns (r: Result<Outcome, Thrown>)
      requires Valid() && StandsAt(Releasing(l, note)) && l.job == jobId && l.stage == stage
      modifies this`trace, this`cur, store
      ensures Valid() && old(trace) <= trace
      ensures match r
              case Ok(o) => Idle() && Left(jobId, l.tick, o)
              case Err(e) => StandsAt(Catching(l, e.code, e.retryable))
    {
      Await();
      var released := store.UpdateVaultJobState(jobId, id, stage, UpdateOptions(None, note, retryAt, false, false));
      Advance(Release(id, retryAt));
      r := if released.Ok? then Ok(Pending) else Err(TEMPORARY);
    }

    /** An exception is one protocol step. */
    ghost method Raise(l: Local, e: Thrown)
      requires Valid() && id in cur.workers && StandsAt(cur.workers[id]) && Throwable(cur.workers[id]) && cur.workers[id].l == l
      modifies this`trace, this`cur
      ensures Valid() && old(trace) <= trace && StandsAt(Catching(l, e.code, e.retryable)) && cur.jobs == old(cur.jobs)
    {
      Advance(Throw(id, e.code, e.retryable));
    }
  }
}
