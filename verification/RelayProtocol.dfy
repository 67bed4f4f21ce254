/** Relayer workers over the execution jobs: every claimed attempt runs on its own, answers of the chain
    and the RPC are arbitrary, and any attempt may stop at any step. */
module RelayProtocol {
  import opened Wrappers
  import opened ExecutionStore

  /** What revalidation reads of the agent and the controller. */
  datatype ChainReading = ChainReading(active: bool, bound: bool, paused: bool, agentId: Hash, fund: Address,
                                       policyHash: Hash, nextNonce: nat)

  /** A receipt says itself which transaction it is for. */
  datatype Receipt = Receipt(hash: TxHash, success: bool, blockNumber: nat, blockHash: Hash)

  /** The hash that was asked for, the receipt that came back, and the chain as read after it. */
  datatype Evidence = Evidence(asked: TxHash, receipt: Receipt, head: nat, canonical: Hash)
  datatype Tx = Tx(hash: TxHash, serialized: Bytes)

  datatype Pc =
    | Starting
    | Simulating(seen: ChainReading)
    | Preparing(seen: ChainReading)
    | Persisting(seen: ChainReading, prepared: Prepared)
    | Looking(tx: Tx)
    | Broadcasting(tx: Tx)
    | Marking(tx: Tx)
    | LookingAgain(tx: Tx)
    | Handling(tx: Tx, receipt: Receipt)
    | Settling(tx: Tx, evidence: Evidence)
    | Failing(code: string, retryAt: Option<Time>)

  /** One attempt at a job. */
  datatype TaskId = TaskId(job: JobId, attempt: nat)

  /** History: what was signed for which key on which reading, and what went out. */
  datatype Entry = Entry(job: JobId, key: Key, prepared: Prepared, seen: ChainReading)
  datatype Sent = Sent(job: JobId, serialized: Bytes)

  datatype Relay = Relay(tables: Tables, tasks: map<TaskId, Pc>, persisted: seq<Entry>, broadcasts: seq<Sent>,
                         proofs: map<JobId, Evidence>)

  datatype BroadcastReply = Accepted(hash: TxHash) | AlreadyKnown | Rejected

  /** What the outside answers to the step at hand. */
  datatype Answer =
    | Read(now: nat, reading: ChainReading)
    | Done
    | Signed(prepared: Prepared)
    | Found(receipt: Option<Receipt>)
    | Replied(reply: BroadcastReply)
    | Blocks(head: nat, canonical: Hash)
    | Threw(code: string, retryable: bool)

  datatype Action =
    | Save(id: IntentId, intent: Intent)
    | Enqueue(intentId: IntentId, now: Time)
    | ClaimSome(now: Time, limit: nat)
    | Step(task: TaskId, answer: Answer, retryAt: Time)
    | Stop(task: TaskId)

  // ---------- The steps of an attempt ----------

  function Revalidate(i: Intent, now: nat, r: ChainReading): Option<string> {
    if i.deadline < now then Some("INTENT_EXPIRED")
    else if !r.active || !r.bound || r.paused then Some("AGENT_INACTIVE")
    else if r.agentId != i.agentId || r.fund != i.fund || r.policyHash != i.policyHash || r.nextNonce != i.key.nonce
    then Some("ONCHAIN_STATE_CHANGED")
    else None
  }

  function Confirmations(e: Evidence): nat {
    if e.head >= e.receipt.blockNumber then e.head - e.receipt.blockNumber + 1 else 0
  }

  function Go(s: Relay, t: TaskId, pc: Pc): Relay {
    s.(tasks := s.tasks[t := pc])
  }

  function End(s: Relay, t: TaskId): Relay {
    s.(tasks := s.tasks - {t})
  }

  /** The `catch` of `process`. */
  function Catch(s: Relay, t: TaskId, code: string, retryable: bool, retryAt: Time): Relay
    requires t.job < |s.tables.jobs|
  {
    Go(s, t, Failing(code, if retryable && s.tables.jobs[t.job].attempts < MAX_ATTEMPTS then Some(retryAt) else None))
  }

  function Start(s: Relay, t: TaskId, a: Answer, retryAt: Time): Relay
    requires t.job < |s.tables.jobs|
  {
    var job := s.tables.jobs[t.job];
    if job.intentId !in s.tables.intents then Catch(s, t, "INTENT_NOT_FOUND", false, retryAt)
    else if !a.Read? then s
    else
      var refused := Revalidate(s.tables.intents[job.intentId], a.now, a.reading);
      if refused.Some? then Catch(s, t, refused.value, false, retryAt)
      else if job.signedTransaction.None? || job.transactionHash.None? then Go(s, t, Simulating(a.reading))
      else Go(s, t, Looking(Tx(job.transactionHash.value, job.signedTransaction.value)))
  }

  function Persist(s: Relay, t: TaskId, seen: ChainReading, tx: Prepared): Relay
    requires t.job < |s.tables.jobs| && s.tables.jobs[t.job].intentId in s.tables.intents
  {
    var key := s.tables.intents[s.tables.jobs[t.job].intentId].key;
    s.(tables := PersistTransaction(s.tables, t.job, tx),
       tasks := s.tasks[t := Looking(Tx(Keccak(tx.serialized), tx.serialized))],
       persisted := s.persisted + [Entry(t.job, key, tx, seen)])
  }

  function Broadcast(s: Relay, t: TaskId, tx: Tx, reply: BroadcastReply, retryAt: Time): Relay
    requires t.job < |s.tables.jobs|
  {
    var sent := s.(broadcasts := s.broadcasts + [Sent(t.job, tx.serialized)]);
    match reply
    case AlreadyKnown => Go(sent, t, Marking(tx))
    case Accepted(hash) =>
      if hash == tx.hash then Go(sent, t, Marking(tx)) else Catch(sent, t, "TRANSACTION_HASH_MISMATCH", false, retryAt)
    case Rejected => Catch(sent, t, "RPC_BROADCAST_FAILED", true, retryAt)
  }

  /** The end of `handleReceipt`, once the head and the canonical block are known. */
  function Settle(confirmations: nat, s: Relay, t: TaskId, e: Evidence, retryAt: Time): Relay
    requires t.job < |s.tables.jobs|
  {
    if e.canonical != e.receipt.blockHash
    then End(s.(tables := MarkFailed(s.tables, t.job, "REORG_DETECTED", Some(retryAt))), t)
    else if Confirmations(e) < confirmations
    then End(s.(tables := MarkSubmitted(s.tables, t.job, e.receipt.hash)), t)
    else
      End(s.(tables := MarkConfirmed(s.tables, t.job, e.receipt.hash, e.receipt.blockNumber),
             proofs := s.proofs[t.job := e]), t)
  }

  function Revert(s: Relay, t: TaskId): Relay
    requires t.job < |s.tables.jobs|
  {
    End(s.(tables := MarkFailed(s.tables, t.job, "TRANSACTION_REVERTED", None)), t)
  }

  /** Inside the `try`, an error is caught; a receipt is handled outside it, and its errors end the
      attempt. */
  function InTry(pc: Pc): bool {
    pc.Starting? || pc.Simulating? || pc.Preparing? || pc.Persisting? || pc.Looking? || pc.Marking? || pc.LookingAgain?
  }

  function Advance(confirmations: nat, s: Relay, t: TaskId, a: Answer, retryAt: Time): Relay
    requires t in s.tasks && t.job < |s.tables.jobs|
  {
    var pc := s.tasks[t];
    if a.Threw? then if InTry(pc) then Catch(s, t, a.code, a.retryable, retryAt) else End(s, t)
    else
      match pc
      case Starting => Start(s, t, a, retryAt)
      case Simulating(seen) => Go(s, t, Preparing(seen))
      case Preparing(seen) => if a.Signed? then Go(s, t, Persisting(seen, a.prepared)) else s
      case Persisting(seen, tx) =>
        if s.tables.jobs[t.job].intentId in s.tables.intents then Persist(s, t, seen, tx) else s
      case Looking(tx) =>
        if !a.Found? then s
        else if a.receipt.Some? then Go(s, t, Handling(tx, a.receipt.value)) else Go(s, t, Broadcasting(tx))
      case Broadcasting(tx) => if a.Replied? then Broadcast(s, t, tx, a.reply, retryAt) else s
      case Marking(tx) => Go(s.(tables := MarkSubmitted(s.tables, t.job, tx.hash)), t, LookingAgain(tx))
      case LookingAgain(tx) =>
        if !a.Found? then s
        else if a.receipt.Some? then Go(s, t, Handling(tx, a.receipt.value)) else End(s, t)
      case Handling(tx, receipt) =>
        if !receipt.success then Revert(s, t)
        else if a.Blocks? then Go(s, t, Settling(tx, Evidence(tx.hash, receipt, a.head, a.canonical))) else s
      case Settling(_, e) => Settle(confirmations, s, t, e, retryAt)
      case Failing(code, at) => End(s.(tables := MarkFailed(s.tables, t.job, code, at)), t)
  }

  function Claiming(s: Relay, now: Time, limit: nat): Relay {
    var c := ClaimJobs(s.tables.jobs, now, limit);
    s.(tables := s.tables.(jobs := c.jobs),
       tasks := s.tasks + map j: JobId | j in c.ids && j < |c.jobs| :: TaskId(j, c.jobs[j].attempts) := Starting)
  }

  function Next(confirmations: nat, s: Relay, act: Action): Relay {
    match act
    case Save(id, intent) =>
      var r := SaveIntent(s.tables, id, intent);
      if r.Ok? then s.(tables := r.value) else s
    case Enqueue(intentId, now) => s.(tables := EnqueueIntent(s.tables, intentId, now))
    case ClaimSome(now, limit) => Claiming(s, now, limit)
    case Step(t, a, retryAt) =>
      if t in s.tasks && t.job < |s.tables.jobs| then Advance(confirmations, s, t, a, retryAt) else s
    case Stop(t) => End(s, t)
  }

  /** The state after `n` actions. */
  function After(confirmations: nat, run: seq<Action>, n: nat): Relay
    requires n <= |run|
  {
    if n == 0 then Relay(Tables(map[], []), map[], [], [], map[])
    else Next(confirmations, After(confirmations, run, n - 1), run[n - 1])
  }

  /** Intent ids are fresh random identifiers. */
  ghost predicate IsRun(confirmations: nat, run: seq<Action>) {
    forall i :: 0 <= i < |run| && run[i].Save? ==> run[i].id !in After(confirmations, run, i).tables.intents
  }

  // ---------- The invariant ----------

  ghost predicate HashOk(j: Job) {
    j.signedTransaction.Some? ==> j.transactionHash == Some(Keccak(j.signedTransaction.value))
  }

  ghost predicate JobOk(j: Job) {
    j.attempts <= MAX_ATTEMPTS && (j.state == JobState.Queued ==> j.attempts < MAX_ATTEMPTS && HashOk(j))
  }

  ghost predicate TablesOk(t: Tables) {
    KeysUnique(t.intents) && OneJobPerIntent(t.jobs) && forall i | 0 <= i < |t.jobs| :: JobOk(t.jobs[i])
  }

  ghost predicate ReadFor(t: Tables, j: Job, seen: ChainReading) {
    j.intentId in t.intents && t.intents[j.intentId].key.nonce == seen.nextNonce
  }

  ghost predicate PcOk(t: Tables, j: Job, pc: Pc) {
    match pc
    case Starting => true
    case Simulating(seen) => j.signedTransaction.None? && ReadFor(t, j, seen)
    case Preparing(seen) => j.signedTransaction.None? && ReadFor(t, j, seen)
    case Persisting(seen, _) => j.signedTransaction.None? && ReadFor(t, j, seen)
    case Failing(_, retryAt) => retryAt.Some? ==> j.attempts < MAX_ATTEMPTS
    case _ => j.signedTransaction == Some(pc.tx.serialized) && pc.tx.hash == Keccak(pc.tx.serialized)
              && (pc.LookingAgain? ==> j.state == JobState.Submitted)
              && (pc.Handling? || pc.Settling? ==> Answered(pc))
  }

  ghost predicate Answered(pc: Pc)
    requires pc.Handling? || pc.Settling?
  {
    pc.Settling? ==> pc.evidence.receipt.success && pc.evidence.asked == pc.tx.hash
  }

  /** An attempt under way is the job's latest, and the job is not up for claiming. */
  ghost predicate TaskOk(t: Tables, id: TaskId, pc: Pc) {
    && id.job < |t.jobs|
    && t.jobs[id.job].attempts == id.attempt
    && (t.jobs[id.job].state == JobState.Processing || t.jobs[id.job].state == JobState.Submitted)
    && HashOk(t.jobs[id.job])
    && PcOk(t, t.jobs[id.job], pc)
  }

  ghost predicate EntryOk(t: Tables, e: Entry) {
    && e.job < |t.jobs|
    && t.jobs[e.job].signedTransaction == Some(e.prepared.serialized)
    && t.jobs[e.job].intentId in t.intents
    && t.intents[t.jobs[e.job].intentId].key == e.key
    && e.key.nonce == e.seen.nextNonce
  }

  ghost predicate HasEntry(persisted: seq<Entry>, j: JobId) {
    exists k :: 0 <= k < |persisted| && persisted[k].job == j
  }

  ghost predicate HistoryOk(t: Tables, persisted: seq<Entry>, broadcasts: seq<Sent>) {
    && (forall k | 0 <= k < |persisted| :: EntryOk(t, persisted[k]))
    && (forall k, l | 0 <= k < |persisted| && 0 <= l < |persisted| && persisted[k].job == persisted[l].job :: k == l)
    && (forall j | 0 <= j < |t.jobs| && t.jobs[j].signedTransaction.Some? :: HasEntry(persisted, j))
    && (forall k | 0 <= k < |broadcasts| :: broadcasts[k].job < |t.jobs|
          && t.jobs[broadcasts[k].job].signedTransaction == Some(broadcasts[k].serialized))
  }

  ghost predicate Convincing(confirmations: nat, e: Evidence) {
    e.receipt.success && e.canonical == e.receipt.blockHash && Confirmations(e) >= confirmations
  }

  /** The evidence is about the transaction that was signed for the job, and names the hash the job has. */
  ghost predicate Proves(confirmations: nat, j: Job, e: Evidence) {
    && Convincing(confirmations, e)
    && j.signedTransaction.Some? && e.asked == Keccak(j.signedTransaction.value)
    && j.transactionHash == Some(e.receipt.hash)
  }

  ghost predicate ProofsOk(confirmations: nat, t: Tables, proofs: map<JobId, Evidence>) {
    forall j | 0 <= j < |t.jobs| && t.jobs[j].state == JobState.Confirmed ::
      j in proofs && Proves(confirmations, t.jobs[j], proofs[j])
  }

  ghost predicate Inv(confirmations: nat, s: Relay) {
    && TablesOk(s.tables)
    && (forall id | id in s.tasks :: TaskOk(s.tables, id, s.tasks[id]))
    && HistoryOk(s.tables, s.persisted, s.broadcasts)
    && ProofsOk(confirmations, s.tables, s.proofs)
  }

  // ---------- Tables only move forward ----------

  /** Intents keep their keys, jobs their intents and their signed bytes. */
  ghost predicate Extends(t: Tables, t': Tables) {
    && |t.jobs| <= |t'.jobs|
    && (forall i | i in t.intents :: i in t'.intents && t'.intents[i].key == t.intents[i].key)
    && (forall j | 0 <= j < |t.jobs| :: t'.jobs[j].intentId == t.jobs[j].intentId
          && (t.jobs[j].signedTransaction.Some? ==> t'.jobs[j].signedTransaction == t.jobs[j].signedTransaction))
  }

  lemma HistoryMoves(t: Tables, t': Tables, persisted: seq<Entry>, broadcasts: seq<Sent>, broadcasts': seq<Sent>, j: JobId)
    requires HistoryOk(t, persisted, broadcasts) && Extends(t, t') && |t'.jobs| == |t.jobs| && j < |t.jobs|
    requires forall i | 0 <= i < |t.jobs| :: t'.jobs[i].signedTransaction == t.jobs[i].signedTransaction
    requires broadcasts <= broadcasts' && |broadcasts'| <= |broadcasts| + 1
    requires |broadcasts'| > |broadcasts| ==>
      var b := broadcasts'[|broadcasts|]; b.job == j && t.jobs[j].signedTransaction == Some(b.serialized)
    ensures HistoryOk(t', persisted, broadcasts')
  {
    forall k | 0 <= k < |persisted| ensures EntryOk(t', persisted[k]) {
      assert EntryOk(t, persisted[k]);
    }
    forall k | 0 <= k < |broadcasts'|
      ensures broadcasts'[k].job < |t'.jobs|
        && t'.jobs[broadcasts'[k].job].signedTransaction == Some(broadcasts'[k].serialized)
    {
      if k < |broadcasts| {
        assert broadcasts'[k] == broadcasts[k];
      }
    }
  }

  /** A change of one job by its own attempt keeps the invariant if the job, the attempt and the proofs
      are in order afterwards. */
  lemma OneJobMoves(confirmations: nat, s: Relay, s': Relay, id: TaskId)
    requires Inv(confirmations, s) && id in s.tasks && Extends(s.tables, s'.tables)
    requires |s'.tables.jobs| == |s.tables.jobs| && s'.tables.intents.Keys == s.tables.intents.Keys
    requires forall j | 0 <= j < |s.tables.jobs| && j != id.job :: s'.tables.jobs[j] == s.tables.jobs[j]
    requires s'.tables.jobs[id.job].signedTransaction == s.tables.jobs[id.job].signedTransaction
    requires JobOk(s'.tables.jobs[id.job])
    requires forall o | o in s'.tasks && o != id :: o in s.tasks && s'.tasks[o] == s.tasks[o]
    requires id in s'.tasks ==> TaskOk(s'.tables, id, s'.tasks[id])
    requires s'.persisted == s.persisted && s.broadcasts <= s'.broadcasts && |s'.broadcasts| <= |s.broadcasts| + 1
    requires |s'.broadcasts| > |s.broadcasts| ==>
      var b := s'.broadcasts[|s.broadcasts|];
      b.job == id.job && s.tables.jobs[id.job].signedTransaction == Some(b.serialized)
    requires forall j | j in s.proofs && j != id.job :: j in s'.proofs && s'.proofs[j] == s.proofs[j]
    requires s'.tables.jobs[id.job].state == JobState.Confirmed ==>
      id.job in s'.proofs && Proves(confirmations, s'.tables.jobs[id.job], s'.proofs[id.job])
    ensures Inv(confirmations, s')
  {
    forall o | o in s'.tasks ensures TaskOk(s'.tables, o, s'.tasks[o]) {
      if o != id {
        assert TaskOk(s.tables, o, s.tasks[o]);
        assert TaskOk(s.tables, id, s.tasks[id]);
        assert o.job != id.job;
      }
    }
    HistoryMoves(s.tables, s'.tables, s.persisted, s.broadcasts, s'.broadcasts, id.job);
    SameJobsSameIntents(s.tables.jobs, s'.tables.jobs);
    SameKeys(s.tables.intents, s'.tables.intents);
  }

  lemma SameJobsSameIntents(jobs: seq<Job>, jobs': seq<Job>)
    requires |jobs| == |jobs'| && OneJobPerIntent(jobs)
    requires forall j | 0 <= j < |jobs| :: jobs'[j].intentId == jobs[j].intentId
    ensures OneJobPerIntent(jobs')
  {
    forall i, j | 0 <= i < |jobs'| && 0 <= j < |jobs'| && jobs'[i].intentId == jobs'[j].intentId ensures i == j {
      assert jobs[i].intentId == jobs[j].intentId;
    }
  }

  lemma SameKeys(intents: map<IntentId, Intent>, intents': map<IntentId, Intent>)
    requires KeysUnique(intents) && intents.Keys == intents'.Keys
    requires forall i | i in intents :: intents'[i].key == intents[i].key
    ensures KeysUnique(intents')
  {
    forall i, j | i in intents' && j in intents' && intents'[i].key == intents'[j].key ensures i == j {
      assert i in intents && j in intents && intents[i].key == intents[j].key;
    }
  }

  lemma FailStep(c: nat, s: Relay, t: TaskId, retryAt: Time)
    requires t in s.tasks && t.job < |s.tables.jobs| && s.tasks[t].Failing?
    ensures Advance(c, s, t, Done, retryAt) ==
      End(s.(tables := MarkFailed(s.tables, t.job, s.tasks[t].code, s.tasks[t].retryAt)), t)
  {
    hide MarkFailed;
  }

  lemma RevertStep(c: nat, s: Relay, t: TaskId, retryAt: Time)
    requires t in s.tasks && t.job < |s.tables.jobs| && s.tasks[t].Handling? && !s.tasks[t].receipt.success
    ensures Advance(c, s, t, Done, retryAt) == Revert(s, t)
  {
    hide MarkFailed, Revert;
  }

  lemma SettleStep(c: nat, s: Relay, t: TaskId, retryAt: Time)
    requires t in s.tasks && t.job < |s.tables.jobs| && s.tasks[t].Settling?
    ensures Advance(c, s, t, Done, retryAt) == Settle(c, s, t, s.tasks[t].evidence, retryAt)
  {
    hide MarkFailed, Settle;
  }

  lemma AfterOne(c: nat, run: seq<Action>, n: nat)
    requires n < |run|
    ensures After(c, run, n + 1) == Next(c, After(c, run, n), run[n])
  {
    hide Next;
  }

  lemma {:induction false} AfterIgnoresTheRest(c: nat, run: seq<Action>, rest: seq<Action>, n: nat)
    requires n <= |run|
    ensures After(c, run + rest, n) == After(c, run, n)
  {
    if n > 0 {
      hide Next;
      AfterIgnoresTheRest(c, run, rest, n - 1);
    }
  }

  lemma RunGrows(c: nat, run: seq<Action>, act: Action)
    requires IsRun(c, run) && (act.Save? ==> act.id !in After(c, run, |run|).tables.intents)
    ensures IsRun(c, run + [act]) && After(c, run + [act], |run| + 1) == Next(c, After(c, run, |run|), act)
  {
    hide Next;
    AfterIgnoresTheRest(c, run, [act], |run|);
    forall i | 0 <= i < |run| + 1 && (run + [act])[i].Save?
      ensures (run + [act])[i].id !in After(c, run + [act], i).tables.intents
    {
      AfterIgnoresTheRest(c, run, [act], i);
    }
  }
}
