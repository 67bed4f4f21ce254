/** The inductive invariant of the deployment protocol, kept by every step of every worker. */
module VaultSafety {
  import opened Wrappers
  import opened VaultJobs
  import opened VaultProtocol

  ghost predicate Disjoint(a: nat, b: nat) {
    a + RANGE <= b || b + RANGE <= a
  }

  ghost predicate TxFor(tx: VaultTx, deployer: Address, nonce: nat) {
    tx.nonce == nonce && tx.serialized.nonce == nonce && tx.serialized.signer == deployer && tx.hash == Keccak(tx.serialized)
  }

  /** Three transactions in deployment order, at the three nonces of the range. */
  ghost predicate PlanFor(plan: Plan, deployer: Address, start: nat) {
    && plan.deployer == deployer
    && plan.controller == Contract(deployer, start)
    && plan.fund == Contract(deployer, start + 1)
    && |plan.transactions| == 3
    && plan.transactions[0].step == Controller
    && plan.transactions[1].step == Fund
    && plan.transactions[2].step == Register
    && forall k :: 0 <= k < 3 ==> TxFor(plan.transactions[k], deployer, start + k)
  }

  ghost function CountFailures(log: seq<Entry>, job: JobId): nat {
    if log == [] then 0
    else CountFailures(log[..|log| - 1], job) + if log[|log| - 1] == Failure(job) then 1 else 0
  }

  ghost predicate WasBound(log: seq<Entry>, id: JobId) {
    exists tick :: Bound(tick, id) in log
  }

  ghost predicate JobOk(deployer: Address, log: seq<Entry>, id: JobId, job: VaultJob) {
    && job.attempts == CountFailures(log, id)
    && job.attempts <= MAX_ATTEMPTS
    && (Active(job.state) ==> job.attempts < MAX_ATTEMPTS)
    && (job.lockedBy.Some? ==> Active(job.state))
    && (job.nonceStart.Some? ==> Active(job.state) || job.plan.Some?)
    && (job.plan.Some? ==> job.nonceStart.Some? && PlanFor(job.plan.value, deployer, job.nonceStart.value)
                           && Stored(id, job.plan.value) in log)
    && (job.controller.Some? ==> job.plan.Some? && job.controller.value == job.plan.value.controller)
    && (job.fund.Some? ==> job.plan.Some? && job.fund.value == job.plan.value.fund)
    && (job.state.AwaitingSponsorBind? || job.state.Ready? ==> WasBound(log, id))
  }

  ghost predicate OneHeld(jobs: seq<VaultJob>) {
    forall i, j :: 0 <= i < |jobs| && 0 <= j < |jobs| && Held(jobs[i]) && Held(jobs[j]) ==> i == j
  }

  ghost predicate DisjointRanges(jobs: seq<VaultJob>) {
    forall i, j :: 0 <= i < j < |jobs| && jobs[i].nonceStart.Some? && jobs[j].nonceStart.Some?
      ==> Disjoint(jobs[i].nonceStart.value, jobs[j].nonceStart.value)
  }

  ghost predicate Jobs(deployer: Address, log: seq<Entry>, jobs: seq<VaultJob>) {
    && (forall id :: 0 <= id < |jobs| ==> JobOk(deployer, log, id, jobs[id]))
    && OneHeld(jobs)
    && DisjointRanges(jobs)
  }

  ghost predicate SawConfirmed(log: seq<Entry>, confirmations: nat, tick: nat, job: JobId, k: nat) {
    exists answer :: Observed(tick, job, k, answer) in log && Confirmed(answer, confirmations)
  }

  ghost predicate SawConfirmedBelow(log: seq<Entry>, confirmations: nat, tick: nat, job: JobId, k: nat) {
    forall m :: 0 <= m < k ==> SawConfirmed(log, confirmations, tick, job, m)
  }

  ghost predicate NotSent(log: seq<Entry>, tick: nat) {
    forall e :: e in log && e.Sent? ==> e.tick != tick
  }

  /** The places where this tick may already have broadcast. */
  ghost predicate PastSend(pc: Pc) {
    pc.Releasing? || pc.Catching? || pc.Failing?
  }

  /** The worker holds the lock of an active job, and remembers it correctly. */
  ghost predicate Owns(s: System, w: WorkerId, l: Local) {
    && l.job < |s.jobs|
    && l.tick < s.ticks
    && Active(l.stage)
    && var job := s.jobs[l.job];
    && Active(job.state)
    && job.lockedBy == Some(w)
    && job.attempts == l.attempts
    && job.plan.Some? == l.planPersisted
  }

  ghost predicate PcOk(deployer: Address, confirmations: nat, log: seq<Entry>, job: VaultJob, pc: Pc) {
    var l := pc.l;
    && (pc.Failing? || job.nonceStart.Some? == l.nonceReserved)
    && (PastSend(pc) || NotSent(log, l.tick))
    && match pc
       case Validating(_, stored) => stored == job.plan
       case Planning(_) => job.plan.None?
       case Signing(_, start) => job.plan.None? && job.nonceStart == Some(start)
       case Storing(_, plan) => job.plan.None? && job.nonceStart.Some? && PlanFor(plan, deployer, job.nonceStart.value)
       case Checking(_, plan, k) =>
         job.plan == Some(plan) && k < 3 && SawConfirmedBelow(log, confirmations, l.tick, l.job, k)
       case Sending(_, plan, k) =>
         job.plan == Some(plan) && k < 3 && SawConfirmedBelow(log, confirmations, l.tick, l.job, k)
       case Verifying(_, plan) => job.plan == Some(plan) && SawConfirmedBelow(log, confirmations, l.tick, l.job, 3)
       case Binding(_, _) => job.plan.Some? && SawConfirmedBelow(log, confirmations, l.tick, l.job, 3)
       case Releasing(_, _) => job.plan.Some?
       case Catching(_, _, _) => true
       case Failing(_, _, retry) =>
         (retry ==> l.attempts + 1 < MAX_ATTEMPTS) && (!retry && job.nonceStart.Some? ==> job.plan.Some?)
  }

  ghost predicate WorkerOk(s: System, w: WorkerId, pc: Pc) {
    Owns(s, w, pc.l) && PcOk(s.deployer, s.confirmations, s.log, s.jobs[pc.l.job], pc)
  }

  /** An entry is justified by what came before it. */
  ghost predicate Justified(log: seq<Entry>, confirmations: nat, e: Entry) {
    match e
    case Stored(job, plan) => forall other :: Stored(job, other) !in log
    case Sent(tick, job, k, raw) =>
      && NotSent(log, tick)
      && SawConfirmedBelow(log, confirmations, tick, job, k)
      && exists plan :: Stored(job, plan) in log && k < |plan.transactions| && plan.transactions[k].serialized == raw
    case Bound(tick, job) => SawConfirmedBelow(log, confirmations, tick, job, 3)
    case _ => true
  }

  ghost predicate History(log: seq<Entry>, confirmations: nat) {
    forall i :: 0 <= i < |log| ==> Justified(log[..i], confirmations, log[i])
  }

  ghost predicate EntryBounded(jobs: seq<VaultJob>, ticks: nat, e: Entry) {
    && e.job < |jobs|
    && (e.Sent? ==> e.tick < ticks)
    && (e.Stored? ==> jobs[e.job].plan == Some(e.plan))
  }

  ghost predicate Bounded(s: System) {
    forall e :: e in s.log ==> EntryBounded(s.jobs, s.ticks, e)
  }

  ghost predicate Inv(s: System) {
    && Jobs(s.deployer, s.log, s.jobs)
    && (forall w :: w in s.workers ==> WorkerOk(s, w, s.workers[w]))
    && History(s.log, s.confirmations)
    && Bounded(s)
  }

  // ---------- Facts about the history ----------

  lemma CountAppend(log: seq<Entry>, e: Entry, job: JobId)
    ensures CountFailures(log + [e], job) == CountFailures(log, job) + if e == Failure(job) then 1 else 0
  {
    assert (log + [e])[..|log|] == log;
  }

  lemma {:induction false} NoFailuresIn(log: seq<Entry>, id: JobId)
    requires Failure(id) !in log
    ensures CountFailures(log, id) == 0
  {
    if log != [] {
      NoFailuresIn(log[..|log| - 1], id);
    }
  }

  lemma HistoryAppend(log: seq<Entry>, confirmations: nat, e: Entry)
    requires History(log, confirmations) && Justified(log, confirmations, e)
    ensures History(log + [e], confirmations)
  {
    var log' := log + [e];
    forall i | 0 <= i < |log'| ensures Justified(log'[..i], confirmations, log'[i]) {
      if i < |log| {
        assert log'[..i] == log[..i];
      } else {
        assert log'[..i] == log;
      }
    }
  }

  /** A confirmed observation of transaction `k` extends what the tick has seen. */
  lemma SawNext(log: seq<Entry>, confirmations: nat, tick: nat, job: JobId, k: nat, answer: ReceiptAnswer)
    requires SawConfirmedBelow(log, confirmations, tick, job, k) && Confirmed(answer, confirmations)
    ensures SawConfirmedBelow(log + [Observed(tick, job, k, answer)], confirmations, tick, job, k + 1)
  {
    var e := Observed(tick, job, k, answer);
    assert e in log + [e];
    forall m | 0 <= m < k + 1 ensures SawConfirmed(log + [e], confirmations, tick, job, m) {
      if m < k {
        assert SawConfirmed(log, confirmations, tick, job, m);
        var seen :| Observed(tick, job, m, seen) in log && Confirmed(seen, confirmations);
        assert Observed(tick, job, m, seen) in log + [e];
      }
    }
  }

  // ---------- One step of the busy worker ----------

  /** The lock makes a tick mutually exclusive with every other one. */
  lemma OneBusyWorker(s: System, v: WorkerId, w: WorkerId)
    requires Inv(s) && v in s.workers && w in s.workers
    ensures v == w
  {
    assert WorkerOk(s, v, s.workers[v]) && WorkerOk(s, w, s.workers[w]);
    assert Held(s.jobs[s.workers[v].l.job]) && Held(s.jobs[s.workers[w].l.job]);
  }

  lemma OnlyKey(s: System, w: WorkerId)
    requires Inv(s) && w in s.workers
    ensures s.workers.Keys == {w}
  {
    forall v | v in s.workers ensures v == w {
      OneBusyWorker(s, v, w);
    }
  }

  /** The busy worker moves; store and history stay. */
  lemma Move(s: System, w: WorkerId, pc: Pc)
    requires Inv(s) && w in s.workers && WorkerOk(s, w, pc)
    ensures Inv(At(s, w, pc))
  {
    OnlyKey(s, w);
    assert WorkerOk(At(s, w, pc), w, pc);
  }

  lemma Leave(s: System, w: WorkerId)
    requires Inv(s) && w in s.workers
    ensures Inv(Done(s, w))
  {
    OnlyKey(s, w);
    assert Done(s, w).workers == map[];
  }

  /** What may follow the history when job `id` becomes `job`. */
  ghost predicate Appendable(s: System, id: JobId, job: VaultJob, e: Entry) {
    && e.job == id < |s.jobs|
    && Justified(s.log, s.confirmations, e)
    && EntryBounded(s.jobs[id := job], s.ticks, e)
  }

  /** No other job holds a range that overlaps this one. */
  ghost predicate ClearOfOthers(jobs: seq<VaultJob>, id: JobId, start: nat) {
    forall i | 0 <= i < |jobs| && i != id && jobs[i].nonceStart.Some? :: Disjoint(start, jobs[i].nonceStart.value)
  }

  /** What the new value of the locked job must satisfy. */
  ghost predicate Replaceable(s: System, id: JobId, job: VaultJob, log: seq<Entry>) {
    && id < |s.jobs|
    && Held(s.jobs[id])
    && JobOk(s.deployer, log, id, job)
    && (job.nonceStart.Some? ==> ClearOfOthers(s.jobs, id, job.nonceStart.value))
    && (job.plan == s.jobs[id].plan || s.jobs[id].plan.None?)
  }

  lemma ReplaceJob(s: System, id: JobId, job: VaultJob)
    requires Inv(s) && Replaceable(s, id, job, s.log)
    ensures Jobs(s.deployer, s.log, s.jobs[id := job])
    ensures Bounded(s.(jobs := s.jobs[id := job]))
  {
    forall e | e in s.log ensures EntryBounded(s.jobs[id := job], s.ticks, e) {
      assert EntryBounded(s.jobs, s.ticks, e);
    }
  }

  lemma AppendEntry(s: System, id: JobId, e: Entry)
    requires Jobs(s.deployer, s.log, s.jobs) && e.job == id < |s.jobs|
    ensures forall i :: 0 <= i < |s.jobs| && i != id ==> JobOk(s.deployer, s.log + [e], i, s.jobs[i])
    ensures JobOk(s.deployer, s.log + [e], id, s.jobs[id]) <== !e.Failure?
  {
    forall i | 0 <= i < |s.jobs| && (i != id || !e.Failure?) ensures JobOk(s.deployer, s.log + [e], i, s.jobs[i]) {
      assert JobOk(s.deployer, s.log, i, s.jobs[i]);
      CountAppend(s.log, e, i);
      if s.jobs[i].state.AwaitingSponsorBind? || s.jobs[i].state.Ready? {
        var tick :| Bound(tick, i) in s.log;
        assert Bound(tick, i) in s.log + [e];
      }
    }
  }

  lemma ReplaceAndAppend(s: System, id: JobId, job: VaultJob, e: Entry)
    requires Inv(s) && Appendable(s, id, job, e) && Replaceable(s, id, job, s.log + [e])
    ensures Jobs(s.deployer, s.log + [e], s.jobs[id := job])
    ensures History(s.log + [e], s.confirmations)
    ensures Bounded(s.(jobs := s.jobs[id := job], log := s.log + [e]))
  {
    HistoryAppend(s.log, s.confirmations, e);
    AppendEntry(s, id, e);
    forall o | o in s.log + [e] ensures EntryBounded(s.jobs[id := job], s.ticks, o) {
      if o != e {
        assert o in s.log && EntryBounded(s.jobs, s.ticks, o);
      }
    }
  }

  /** A store call that keeps the lock. */
  lemma StoreStep(s: System, w: WorkerId, job: VaultJob, pc: Pc)
    requires Inv(s) && w in s.workers
    requires var id := s.workers[w].l.job; Replaceable(s, id, job, s.log)
    requires WorkerOk(s.(jobs := s.jobs[s.workers[w].l.job := job]), w, pc)
    ensures Inv(At(s.(jobs := s.jobs[s.workers[w].l.job := job]), w, pc))
  {
    var s' := s.(jobs := s.jobs[s.workers[w].l.job := job]);
    OnlyKey(s, w);
    ReplaceJob(s, s.workers[w].l.job, job);
    assert WorkerOk(At(s', w, pc), w, pc);
  }

  /** A step recorded in the history that keeps the lock. */
  lemma RecordedStep(s: System, w: WorkerId, job: VaultJob, e: Entry, pc: Pc)
    requires Inv(s) && w in s.workers
    requires var id := s.workers[w].l.job;
      Appendable(s, id, job, e) && Replaceable(s, id, job, s.log + [e])
    requires WorkerOk(s.(jobs := s.jobs[s.workers[w].l.job := job], log := s.log + [e]), w, pc)
    ensures Inv(At(s.(jobs := s.jobs[s.workers[w].l.job := job], log := s.log + [e]), w, pc))
  {
    var s' := s.(jobs := s.jobs[s.workers[w].l.job := job], log := s.log + [e]);
    OnlyKey(s, w);
    ReplaceAndAppend(s, s.workers[w].l.job, job, e);
    assert WorkerOk(At(s', w, pc), w, pc);
  }

  /** A step recorded in the history that leaves the store alone. */
  lemma NotedStep(s: System, w: WorkerId, e: Entry, pc: Pc)
    requires Inv(s) && w in s.workers && e.job < |s.jobs| && !e.Failure?
    requires Justified(s.log, s.confirmations, e) && EntryBounded(s.jobs, s.ticks, e)
    requires WorkerOk(s.(log := s.log + [e]), w, pc)
    ensures Inv(At(s.(log := s.log + [e]), w, pc))
  {
    var s' := s.(log := s.log + [e]);
    OnlyKey(s, w);
    HistoryAppend(s.log, s.confirmations, e);
    AppendEntry(s, e.job, e);
    assert WorkerOk(At(s', w, pc), w, pc);
  }

  /** What the worker may rely on. */
  lemma Busy(s: System, w: WorkerId)
    requires Inv(s) && w in s.workers
    ensures var l := s.workers[w].l;
      && WorkerOk(s, w, s.workers[w])
      && Held(s.jobs[l.job])
      && JobOk(s.deployer, s.log, l.job, s.jobs[l.job])
      && (s.jobs[l.job].nonceStart.Some? ==> ClearOfOthers(s.jobs, l.job, s.jobs[l.job].nonceStart.value))
  {
    assert WorkerOk(s, w, s.workers[w]);
  }

  lemma ConfirmedPc(s: System, w: WorkerId, answer: ReceiptAnswer)
    requires Inv(s) && w in s.workers && s.workers[w].Checking? && Confirmed(answer, s.confirmations)
    requires s.workers[w].k < |s.workers[w].plan.transactions|
    ensures var pc := s.workers[w];
      WorkerOk(s.(log := s.log + [Observed(pc.l.tick, pc.l.job, pc.k, answer)]), w, Loop(pc.l, pc.plan, pc.k + 1))
  {
    var pc := s.workers[w];
    Busy(s, w);
    SawNext(s.log, s.confirmations, pc.l.tick, pc.l.job, pc.k, answer);
    assert NotSent(s.log + [Observed(pc.l.tick, pc.l.job, pc.k, answer)], pc.l.tick);
  }

  lemma ConfirmedStep(s: System, w: WorkerId, answer: ReceiptAnswer)
    requires Inv(s) && w in s.workers && s.workers[w].Checking? && Confirmed(answer, s.confirmations)
    requires s.workers[w].k < |s.workers[w].plan.transactions|
    ensures Inv(AfterReceipt(s, w, s.workers[w], answer))
  {
    var pc := s.workers[w];
    ConfirmedPc(s, w, answer);
    NotedStep(s, w, Observed(pc.l.tick, pc.l.job, pc.k, answer), Loop(pc.l, pc.plan, pc.k + 1));
  }

  lemma ReceiptStep(s: System, w: WorkerId, answer: ReceiptAnswer)
    requires Inv(s) && w in s.workers && s.workers[w].Checking? && s.workers[w].k < |s.workers[w].plan.transactions|
    ensures Inv(AfterReceipt(s, w, s.workers[w], answer))
  {
    if Confirmed(answer, s.confirmations) {
      ConfirmedStep(s, w, answer);
    } else {
      Busy(s, w);
      Move(s, w, AfterReceipt(s, w, s.workers[w], answer).workers[w]);
    }
  }

  lemma BroadcastStep(s: System, w: WorkerId, reply: BroadcastAnswer)
    requires Inv(s) && w in s.workers && s.workers[w].Sending? && s.workers[w].k < |s.workers[w].plan.transactions|
    ensures Inv(AfterBroadcast(s, w, s.workers[w], reply))
  {
    var pc := s.workers[w];
    var l := pc.l;
    Busy(s, w);
    var e := Sent(l.tick, l.job, pc.k, pc.plan.transactions[pc.k].serialized);
    NotedStep(s, w, e, AfterBroadcast(s, w, pc, reply).workers[w]);
  }

  /** The reservation ignores jobs without a plan, yet the range is free: any other job that holds
      a range without a plan would be active, and so would be a second held job. */
  lemma ReservationIsFree(s: System, id: JobId, observed: nat)
    requires Inv(s) && id < |s.jobs| && Held(s.jobs[id])
    ensures ClearOfOthers(s.jobs, id, HighestNonce(s.jobs, |s.jobs|, s.deployer, observed))
  {
    forall i | 0 <= i < |s.jobs| && i != id && s.jobs[i].nonceStart.Some?
      ensures s.jobs[i].plan.Some? && s.jobs[i].plan.value.deployer == s.deployer
    {
      assert JobOk(s.deployer, s.log, i, s.jobs[i]);
      assert !Held(s.jobs[i]);
    }
  }

  lemma ReserveStep(s: System, w: WorkerId, a: Action)
    requires Inv(s) && w in s.workers && a.Reserving? && s.workers[w].Planning?
    ensures WorkerStep(s, w, s.workers[w], a).Some? && Inv(WorkerStep(s, w, s.workers[w], a).value)
  {
    var l := s.workers[w].l;
    Busy(s, w);
    ReservationIsFree(s, l.job, a.observed);
    var out := Reserve(s.jobs, l.job, s.deployer, a.observed).value;
    assert out.1 == s.jobs[l.job := out.1[l.job]];
    StoreStep(s, w, out.1[l.job], Signing(l.(nonceReserved := true), out.0));
  }

  lemma PersistStep(s: System, w: WorkerId, a: Action)
    requires Inv(s) && w in s.workers && a.Store? && s.workers[w].Storing?
    ensures WorkerStep(s, w, s.workers[w], a).Some? && Inv(WorkerStep(s, w, s.workers[w], a).value)
  {
    var pc := s.workers[w];
    var l := pc.l;
    var e := Stored(l.job, pc.plan);
    Busy(s, w);
    CountAppend(s.log, e, l.job);
    assert e in s.log + [e];
    var jobs := Persist(s.jobs, l.job, w, pc.plan).value;
    RecordedStep(s, w, jobs[l.job], e, Loop(l.(planPersisted := true), pc.plan, 0));
  }

  lemma ReleaseStep(s: System, w: WorkerId, a: Action)
    requires Inv(s) && w in s.workers && a.Release? && s.workers[w].Releasing?
    ensures WorkerStep(s, w, s.workers[w], a).Some? && Inv(WorkerStep(s, w, s.workers[w], a).value)
  {
    var pc := s.workers[w];
    Busy(s, w);
    var jobs := Update(s.jobs, pc.l.job, w, pc.l.stage, UpdateOptions(None, pc.note, a.retryAt, false, false)).value;
    ReplaceJob(s, pc.l.job, jobs[pc.l.job]);
    OnlyKey(s, w);
    assert Done(s, w).workers == map[];
  }

  lemma BindStep(s: System, w: WorkerId, a: Action)
    requires Inv(s) && w in s.workers && a.Bind? && s.workers[w].Binding?
    ensures WorkerStep(s, w, s.workers[w], a).Some? && Inv(WorkerStep(s, w, s.workers[w], a).value)
  {
    var pc := s.workers[w];
    var e := Bound(pc.l.tick, pc.l.job);
    Busy(s, w);
    CountAppend(s.log, e, pc.l.job);
    assert e in s.log + [e];
    var jobs := Update(s.jobs, pc.l.job, w, AwaitingSponsorBind, UpdateOptions(Some(pc.escrow), None, a.at, false, false)).value;
    ReplaceAndAppend(s, pc.l.job, jobs[pc.l.job], e);
    OnlyKey(s, w);
    assert Done(s, w).workers == map[];
  }

  lemma FailStep(s: System, w: WorkerId, a: Action)
    requires Inv(s) && w in s.workers && a.Fail? && s.workers[w].Failing?
    ensures WorkerStep(s, w, s.workers[w], a).Some? && Inv(WorkerStep(s, w, s.workers[w], a).value)
  {
    var pc := s.workers[w];
    var e := Failure(pc.l.job);
    Busy(s, w);
    CountAppend(s.log, e, pc.l.job);
    var jobs := Update(s.jobs, pc.l.job, w, pc.l.stage, UpdateOptions(None, Some(pc.code), a.retryAt, !pc.retry, true)).value;
    ReplaceAndAppend(s, pc.l.job, jobs[pc.l.job], e);
    OnlyKey(s, w);
    assert Done(s, w).workers == map[];
  }

  lemma CatchStep(s: System, w: WorkerId)
    requires Inv(s) && w in s.workers && s.workers[w].Catching?
    ensures Inv(AfterCatch(s, w, s.workers[w]))
  {
    var pc := s.workers[w];
    var l := pc.l;
    Busy(s, w);
    var retry := pc.retryable && l.attempts + 1 < MAX_ATTEMPTS;
    var next := Failing(l, pc.code, retry);
    if !retry && !l.planPersisted && l.nonceReserved {
      var jobs := ReleaseUnused(s.jobs, l.job).value;
      StoreStep(s, w, jobs[l.job], next);
    } else {
      Move(s, w, next);
    }
  }

  lemma ValidateStep(s: System, w: WorkerId, a: Action)
    requires Inv(s) && w in s.workers && a.Validate? && s.workers[w].Validating?
    ensures Inv(WorkerStep(s, w, s.workers[w], a).value)
  {
    Busy(s, w);
    Move(s, w, WorkerStep(s, w, s.workers[w], a).value.workers[w]);
  }

  lemma SignStep(s: System, w: WorkerId, a: Action)
    requires Inv(s) && w in s.workers && a.Sign? && s.workers[w].Signing?
    ensures Inv(WorkerStep(s, w, s.workers[w], a).value)
  {
    Busy(s, w);
    Move(s, w, WorkerStep(s, w, s.workers[w], a).value.workers[w]);
  }

  lemma VerifyStep(s: System, w: WorkerId, a: Action)
    requires Inv(s) && w in s.workers && a.Verify? && WorkerStep(s, w, s.workers[w], a).Some?
    ensures Inv(WorkerStep(s, w, s.workers[w], a).value)
  {
    Busy(s, w);
    Move(s, w, Binding(s.workers[w].l, a.escrow));
  }

  lemma ThrowStep(s: System, w: WorkerId, a: Action)
    requires Inv(s) && w in s.workers && a.Throw? && WorkerStep(s, w, s.workers[w], a).Some?
    ensures Inv(WorkerStep(s, w, s.workers[w], a).value)
  {
    Busy(s, w);
    Move(s, w, Catching(s.workers[w].l, a.code, a.retryable));
  }

  lemma WorkerStepKeepsInv(s: System, w: WorkerId, a: Action)
    requires Inv(s) && w in s.workers && WorkerStep(s, w, s.workers[w], a).Some?
    ensures Inv(WorkerStep(s, w, s.workers[w], a).value)
  {
    match a {
      case Validate(_) => ValidateStep(s, w, a);
      case Reserving(_, _) => ReserveStep(s, w, a);
      case Sign(_, _) => SignStep(s, w, a);
      case Store(_) => PersistStep(s, w, a);
      case Receipt(_, answer) => ReceiptStep(s, w, answer);
      case Broadcast(_, reply) => BroadcastStep(s, w, reply);
      case Release(_, _) => ReleaseStep(s, w, a);
      case Verify(_, _) => VerifyStep(s, w, a);
      case Bind(_, _) => BindStep(s, w, a);
      case Throw(_, _, _) => ThrowStep(s, w, a);
      case Catch(_) => CatchStep(s, w);
      case Fail(_, _) => FailStep(s, w, a);
      case _ => Leave(s, w);
    }
  }

  // ---------- Steps of the environment, and claims ----------

  lemma CreateStep(s: System, agent: AgentId, at: int)
    requires Inv(s)
    ensures Inv(s.(jobs := s.jobs + [NewJob(agent, at)]))
  {
    var s' := s.(jobs := s.jobs + [NewJob(agent, at)]);
    NoFailuresIn(s.log, |s.jobs|);
    assert JobOk(s.deployer, s.log, |s.jobs|, NewJob(agent, at));
    forall e | e in s'.log ensures EntryBounded(s'.jobs, s'.ticks, e) {
      assert EntryBounded(s.jobs, s.ticks, e);
    }
    forall w | w in s'.workers ensures WorkerOk(s', w, s'.workers[w]) {
      assert WorkerOk(s, w, s.workers[w]);
    }
  }

  lemma ActivatedJobs(s: System, agent: AgentId, controller: Address, fund: Address, escrow: Address)
    requires Inv(s)
    ensures Jobs(s.deployer, s.log, MarkReady(s.jobs, agent, controller, fund, escrow))
  {
    var jobs := MarkReady(s.jobs, agent, controller, fund, escrow);
    forall i | 0 <= i < |jobs|
      ensures JobOk(s.deployer, s.log, i, jobs[i])
      ensures Held(jobs[i]) == Held(s.jobs[i]) && jobs[i].nonceStart == s.jobs[i].nonceStart
    {
      assert JobOk(s.deployer, s.log, i, s.jobs[i]);
    }
  }

  lemma ActivateStep(s: System, agent: AgentId, controller: Address, fund: Address, escrow: Address)
    requires Inv(s)
    ensures Inv(s.(jobs := MarkReady(s.jobs, agent, controller, fund, escrow)))
  {
    var s' := s.(jobs := MarkReady(s.jobs, agent, controller, fund, escrow));
    ActivatedJobs(s, agent, controller, fund, escrow);
    forall e | e in s'.log ensures EntryBounded(s'.jobs, s'.ticks, e) {
      assert EntryBounded(s.jobs, s.ticks, e);
    }
    forall w | w in s'.workers ensures WorkerOk(s', w, s'.workers[w]) {
      assert WorkerOk(s, w, s.workers[w]);
      assert s'.jobs[s.workers[w].l.job] == s.jobs[s.workers[w].l.job];
    }
  }

  /** A claim finds the queue idle: a busy worker's job is locked and blocks every other one. */
  lemma ClaimFindsNobodyBusy(s: System, now: int, eligible: set<AgentId>)
    requires Inv(s) && ClaimIds(s.jobs, 1, now, eligible) != []
    ensures s.workers == map[]
    ensures var ids := ClaimIds(s.jobs, 1, now, eligible);
      && ids == [ids[0]] && ids[0] < |s.jobs| && Active(s.jobs[ids[0]].state) && s.jobs[ids[0]].lockedBy.None?
      && forall i :: 0 <= i < |s.jobs| && Held(s.jobs[i]) ==> i == ids[0]
  {
    var ids := ClaimIds(s.jobs, 1, now, eligible);
    assert ids[0] in ids;
    forall v | v in s.workers ensures false {
      assert WorkerOk(s, v, s.workers[v]);
      assert Held(s.jobs[s.workers[v].l.job]);
    }
  }

  lemma LockKeepsJobs(s: System, id: JobId, w: WorkerId)
    requires Inv(s) && id < |s.jobs| && Active(s.jobs[id].state)
    requires forall i :: 0 <= i < |s.jobs| && Held(s.jobs[i]) ==> i == id
    ensures Jobs(s.deployer, s.log, s.jobs[id := s.jobs[id].(lockedBy := Some(w))])
    ensures Bounded(s.(jobs := s.jobs[id := s.jobs[id].(lockedBy := Some(w))], ticks := s.ticks + 1))
  {
    var jobs := s.jobs[id := s.jobs[id].(lockedBy := Some(w))];
    assert JobOk(s.deployer, s.log, id, s.jobs[id]);
    forall e | e in s.log ensures EntryBounded(jobs, s.ticks + 1, e) {
      assert EntryBounded(s.jobs, s.ticks, e);
    }
  }

  lemma ClaimedPc(s: System, w: WorkerId, id: JobId)
    requires Inv(s) && id < |s.jobs| && Active(s.jobs[id].state)
    ensures var job := s.jobs[id].(lockedBy := Some(w));
      var l := Local(s.ticks, id, job.attempts, if job.state.Requested? then Preparing else job.state,
                     job.plan.Some?, job.nonceStart.Some?);
      WorkerOk(s.(jobs := s.jobs[id := job], ticks := s.ticks + 1), w, Validating(l, job.plan))
  {
    assert JobOk(s.deployer, s.log, id, s.jobs[id]);
    forall e | e in s.log ensures EntryBounded(s.jobs, s.ticks, e) {
    }
  }

  lemma ClaimStep(s: System, w: WorkerId, now: int, eligible: set<AgentId>)
    requires Inv(s) && w !in s.workers
    ensures Inv(Next(s, Claim(w, now, eligible)).value)
  {
    var ids := ClaimIds(s.jobs, 1, now, eligible);
    var jobs := Lock(s.jobs, ids, w);
    if ids == [] {
      assert jobs == s.jobs;
    } else {
      ClaimFindsNobodyBusy(s, now, eligible);
      var id := ids[0];
      assert id in ids;
      assert jobs == s.jobs[id := s.jobs[id].(lockedBy := Some(w))];
      LockKeepsJobs(s, id, w);
      ClaimedPc(s, w, id);
      var s' := StartTick(s, w, ids, jobs);
      assert WorkerOk(s', w, s'.workers[w]);
    }
  }

  lemma NextKeepsInv(s: System, a: Action)
    requires Inv(s) && Next(s, a).Some?
    ensures Inv(Next(s, a).value)
  {
    match a {
      case Create(agent, at) => CreateStep(s, agent, at);
      case Claim(w, now, eligible) => ClaimStep(s, w, now, eligible);
      case Activate(agent, controller, fund, escrow) => ActivateStep(s, agent, controller, fund, escrow);
      case _ => WorkerStepKeepsInv(s, a.w, a);
    }
  }

  lemma ConfigStays(s: System, a: Action)
    requires Next(s, a).Some?
    ensures Next(s, a).value.deployer == s.deployer && Next(s, a).value.confirmations == s.confirmations
  {
  }

  /** The invariant holds in every state that any run reaches. */
  lemma {:induction false} RunKeepsInv(s: System, actions: seq<Action>)
    requires Inv(s) && Run(s, actions).Some?
    ensures Inv(Run(s, actions).value)
    ensures Run(s, actions).value.deployer == s.deployer && Run(s, actions).value.confirmations == s.confirmations
  {
    if actions != [] {
      var last := actions[|actions| - 1];
      var mid := Run(s, actions[..|actions| - 1]).value;
      RunKeepsInv(s, actions[..|actions| - 1]);
      ConfigStays(mid, last);
      NextKeepsInv(mid, last);
    }
  }
}
