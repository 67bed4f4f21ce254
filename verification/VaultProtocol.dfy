/** The vault-deployment protocol: any number of workers, each running one tick at a time, over one
    shared store. A step is one store call or one answer of the network, so steps of different
    workers interleave at every `await`, and a worker may crash between any two of them. */
module VaultProtocol {
  import opened Wrappers
  import opened VaultJobs

  /** What a worker remembers during a tick. */
  datatype Local = Local(
    tick: nat,
    job: JobId,
    attempts: nat,
    stage: JobState,
    planPersisted: bool,
    nonceReserved: bool)

  /** Where a busy worker stands. An idle worker has no entry. */
  datatype Pc =
    | Validating(l: Local, stored: Option<Plan>)
    | Planning(l: Local)
    | Signing(l: Local, start: nat)
    | Storing(l: Local, plan: Plan)
    | Checking(l: Local, plan: Plan, k: nat)
    | Sending(l: Local, plan: Plan, k: nat)
    | Releasing(l: Local, note: Option<Code>)
    | Verifying(l: Local, plan: Plan)
    | Binding(l: Local, escrow: Address)
    | Catching(l: Local, code: Code, retryable: bool)
    | Failing(l: Local, code: Code, retry: bool)

  /** What the network says about one transaction: nothing, or a receipt together with the chain
      head and the canonical block hash read right after it. */
  datatype ReceiptAnswer =
    | NoReceipt
    | Mined(success: bool, block: int, blockHash: nat, head: int, canonical: nat)

  datatype BroadcastAnswer = Accepted(hash: TxHash) | AlreadyKnown | Rejected

  /** History, for stating properties of whole runs. */
  datatype Entry =
    | Stored(job: JobId, plan: Plan)
    | Observed(tick: nat, job: JobId, k: nat, answer: ReceiptAnswer)
    | Sent(tick: nat, job: JobId, k: nat, raw: SignedTx)
    | Bound(tick: nat, job: JobId)
    | Failure(job: JobId)

  datatype System = System(
    deployer: Address,
    confirmations: nat,
    jobs: seq<VaultJob>,
    workers: map<WorkerId, Pc>,
    ticks: nat,
    log: seq<Entry>)

  datatype Action =
    | Create(agent: AgentId, at: int)
    | Claim(w: WorkerId, now: int, eligible: set<AgentId>)
    | Validate(w: WorkerId)
    | Reserving(w: WorkerId, observed: nat)
    | Sign(w: WorkerId, gas: (nat, nat, nat))
    | Store(w: WorkerId)
    | Receipt(w: WorkerId, answer: ReceiptAnswer)
    | Broadcast(w: WorkerId, reply: BroadcastAnswer)
    | Release(w: WorkerId, retryAt: int)
    | Verify(w: WorkerId, escrow: Address)
    | Bind(w: WorkerId, at: int)
    | Throw(w: WorkerId, code: Code, retryable: bool)
    | Catch(w: WorkerId)
    | Fail(w: WorkerId, retryAt: int)
    | Crash(w: WorkerId)
    | Activate(agent: AgentId, controller: Address, fund: Address, escrow: Address)

  const MAX_SAFE_INTEGER: nat := 0x1F_FFFF_FFFF_FFFF

  function StageOf(step: Step): JobState {
    match step
    case Controller => DeployingController
    case Fund => DeployingFund
    case Register => Registering
  }

  /** Success, on the canonical chain, deep enough. */
  predicate Confirmed(answer: ReceiptAnswer, confirmations: nat) {
    answer.Mined? && answer.success && answer.canonical == answer.blockHash
    && answer.head - answer.block + 1 >= confirmations
  }

  function At(s: System, w: WorkerId, pc: Pc): System {
    s.(workers := s.workers[w := pc])
  }

  function Done(s: System, w: WorkerId): System {
    s.(workers := s.workers - {w})
  }

  /** The head of the transaction loop: the next receipt check, or the final verification. */
  function Loop(l: Local, plan: Plan, k: nat): Pc {
    if k < |plan.transactions| then Checking(l.(stage := StageOf(plan.transactions[k].step)), plan, k)
    else Verifying(l, plan)
  }

  function StartTick(s: System, w: WorkerId, ids: seq<JobId>, jobs: seq<VaultJob>): System
    requires forall id: JobId :: id in ids ==> id < |jobs|
  {
    if ids == [] then s.(jobs := jobs)
    else
      assert ids[0] in ids;
      var id := ids[0];
      var job := jobs[id];
      var l := Local(s.ticks, id, job.attempts, if job.state.Requested? then Preparing else job.state,
                     job.plan.Some?, job.nonceStart.Some?);
      At(s.(jobs := jobs, ticks := s.ticks + 1), w, Validating(l, job.plan))
  }

  function AfterReceipt(s: System, w: WorkerId, pc: Pc, answer: ReceiptAnswer): System
    requires pc.Checking? && pc.k < |pc.plan.transactions|
  {
    var l := pc.l;
    match answer
    case NoReceipt => At(s, w, Sending(l, pc.plan, pc.k))
    case Mined(success, block, blockHash, head, canonical) =>
      if !success then At(s, w, Catching(l, Reverted(pc.plan.transactions[pc.k].step), false))
      else if canonical != blockHash then At(s, w, Releasing(l, Some(ReorgDetected)))
      else if head - block + 1 < s.confirmations then At(s, w, Releasing(l, None))
      else At(s.(log := s.log + [Observed(l.tick, l.job, pc.k, answer)]), w, Loop(l, pc.plan, pc.k + 1))
  }

  /** The raw bytes leave the worker whatever the node replies. */
  function AfterBroadcast(s: System, w: WorkerId, pc: Pc, reply: BroadcastAnswer): System
    requires pc.Sending? && pc.k < |pc.plan.transactions|
  {
    var l := pc.l;
    var tx := pc.plan.transactions[pc.k];
    var sent := s.(log := s.log + [Sent(l.tick, l.job, pc.k, tx.serialized)]);
    match reply
    case Rejected => At(sent, w, Catching(l, BroadcastFailed, true))
    case AlreadyKnown => At(sent, w, Releasing(l, None))
    case Accepted(hash) =>
      if hash != tx.hash then At(sent, w, Catching(l, HashMismatch, false))
      else At(sent, w, Releasing(l, None))
  }

  /** The first half of the catch block: give an unused range back when the job will not be retried.
      A store error here escapes the catch block and ends the tick. */
  function AfterCatch(s: System, w: WorkerId, pc: Pc): System
    requires pc.Catching?
  {
    var l := pc.l;
    var retry := pc.retryable && l.attempts + 1 < MAX_ATTEMPTS;
    if !retry && !l.planPersisted && l.nonceReserved then
      match ReleaseUnused(s.jobs, l.job)
      case Ok(jobs) => At(s.(jobs := jobs), w, Failing(l, pc.code, retry))
      case Err(_) => Done(s, w)
    else At(s, w, Failing(l, pc.code, retry))
  }

  predicate Throwable(pc: Pc) {
    !pc.Catching? && !pc.Failing?
  }

  /** The worker's own step `a`, taken at `pc`; `None` when `pc` does not allow it. */
  function WorkerStep(s: System, w: WorkerId, pc: Pc, a: Action): Option<System> {
    var l := pc.l;
    match a
    case Validate(_) =>
      if !pc.Validating? then None
      else Some(At(s, w, if pc.stored.Some? then Loop(l, pc.stored.value, 0) else Planning(l)))
    case Reserving(_, observed) =>
      if !pc.Planning? then None
      else (match Reserve(s.jobs, l.job, s.deployer, observed)
            case Ok(out) => Some(At(s.(jobs := out.1), w, Signing(l.(nonceReserved := true), out.0)))
            case Err(_) => Some(At(s, w, Catching(l, TemporaryFailure, true))))
    case Sign(_, gas) =>
      if !pc.Signing? then None
      else if pc.start + 2 > MAX_SAFE_INTEGER then Some(At(s, w, Catching(l, TemporaryFailure, true)))
      else Some(At(s, w, Storing(l, Prepare(s.deployer, pc.start, gas))))
    case Store(_) =>
      if !pc.Storing? then None
      else (match Persist(s.jobs, l.job, w, pc.plan)
            case Ok(jobs) => Some(At(s.(jobs := jobs, log := s.log + [Stored(l.job, pc.plan)]), w,
                                     Loop(l.(planPersisted := true), pc.plan, 0)))
            case Err(_) => Some(At(s, w, Catching(l, TemporaryFailure, true))))
    case Receipt(_, answer) =>
      if pc.Checking? && pc.k < |pc.plan.transactions| then Some(AfterReceipt(s, w, pc, answer)) else None
    case Broadcast(_, reply) =>
      if pc.Sending? && pc.k < |pc.plan.transactions| then Some(AfterBroadcast(s, w, pc, reply)) else None
    case Release(_, retryAt) =>
      if !pc.Releasing? then None
      else (match Update(s.jobs, l.job, w, l.stage, UpdateOptions(None, pc.note, retryAt, false, false))
            case Ok(jobs) => Some(Done(s.(jobs := jobs), w))
            case Err(_) => Some(At(s, w, Catching(l, TemporaryFailure, true))))
    case Verify(_, escrow) =>
      if pc.Verifying? then Some(At(s, w, Binding(l, escrow))) else None
    case Bind(_, at) =>
      if !pc.Binding? then None
      else (match Update(s.jobs, l.job, w, AwaitingSponsorBind, UpdateOptions(Some(pc.escrow), None, at, false, false))
            case Ok(jobs) => Some(Done(s.(jobs := jobs, log := s.log + [Bound(l.tick, l.job)]), w))
            case Err(_) => Some(At(s, w, Catching(l, TemporaryFailure, true))))
    case Throw(_, code, retryable) =>
      if Throwable(pc) then Some(At(s, w, Catching(l, code, retryable))) else None
    case Catch(_) =>
      if pc.Catching? then Some(AfterCatch(s, w, pc)) else None
    case Fail(_, retryAt) =>
      if !pc.Failing? then None
      else (match Update(s.jobs, l.job, w, l.stage, UpdateOptions(None, Some(pc.code), retryAt, !pc.retry, true))
            case Ok(jobs) => Some(Done(s.(jobs := jobs, log := s.log + [Failure(l.job)]), w))
            case Err(_) => Some(Done(s, w)))
    case Crash(_) => Some(Done(s, w))
    case _ => None
  }

  /** One step of the whole system; `None` when the action is not enabled. */
  function Next(s: System, a: Action): Option<System> {
    match a
    case Create(agent, at) => Some(s.(jobs := s.jobs + [NewJob(agent, at)]))
    case Claim(w, now, eligible) =>
      if w in s.workers then None
      else
        var ids := ClaimIds(s.jobs, 1, now, eligible);
        Some(StartTick(s, w, ids, Lock(s.jobs, ids, w)))
    case Activate(agent, controller, fund, escrow) =>
      Some(s.(jobs := MarkReady(s.jobs, agent, controller, fund, escrow)))
    case _ =>
      if a.w in s.workers then WorkerStep(s, a.w, s.workers[a.w], a) else None
  }

  function Init(deployer: Address, confirmations: nat): System {
    System(deployer, confirmations, [], map[], 0, [])
  }

  function Run(s: System, actions: seq<Action>): Option<System>
    decreases |actions|
  {
    if actions == [] then Some(s)
    else
      match Run(s, actions[..|actions| - 1])
      case None => None
      case Some(mid) => Next(mid, actions[|actions| - 1])
  }
}
