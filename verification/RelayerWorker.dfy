/** The relayer's `process` as written: each attempt is a run of the protocol under any interference.
    `Await` stands for every suspension; what the chain and the RPC answer comes in as parameters. */
module RelayerWorker {
  import opened Wrappers
  import opened ExecutionStore
  import opened RelayProtocol
  import opened RelayTheorems

  datatype Failure = Failure(code: string, retryable: bool)

  /** The answers an attempt will get, in order; each of them may be an error. */
  datatype Answers = Answers(now: nat, reading: Result<ChainReading, Failure>, simulated: Result<(), Failure>,
                             prepared: Result<Prepared, Failure>, first: Result<Option<Receipt>, Failure>,
                             reply: BroadcastReply, second: Result<Option<Receipt>, Failure>,
                             head: nat, canonical: Result<Hash, Failure>, retryAt: Time)

  /** A stretch of the `try` block: it returns, or it ends in the `catch`. */
  datatype Tried<+T> = Returned(value: T) | Caught(code: string, again: Option<Time>)

  datatype Outcome = Pending | Confirmed | Failed | Escaped

  function LookUp(tasks: map<TaskId, Pc>, t: TaskId): Option<Pc> {
    if t in tasks then Some(tasks[t]) else None
  }

  lemma StepIs(c: nat, s: Relay, t: TaskId, a: Answer, retryAt: Time)
    requires t in s.tasks && t.job < |s.tables.jobs|
    ensures Next(c, s, Step(t, a, retryAt)) == Advance(c, s, t, a, retryAt)
  {
  }

  class RelayerWorker {
    const store: ExecutionStore
    const confirmations: nat
    ghost var run: seq<Action>

    ghost function Now(): Relay
      reads this
    {
      After(confirmations, run, |run|)
    }

    ghost predicate Valid()
      reads this, store, store.jobs
    {
      store.Valid() && IsRun(confirmations, run) && Now().tables == store.Contents()
    }

    /** Where the attempt `t` stands. */
    ghost function Mine(t: TaskId): Option<Pc>
      reads this
    {
      LookUp(Now().tasks, t)
    }

    constructor (confirmations: nat)
      ensures Valid() && fresh(store) && run == []
    {
      this.confirmations := confirmations;
      store := new ExecutionStore();
      run := [];
    }

    ghost method Take(act: Action)
      requires IsRun(confirmations, run) && !act.Save?
      modifies this`run
      ensures run == old(run) + [act] && IsRun(confirmations, run)
      ensures Now() == Next(confirmations, old(Now()), act)
    {
      RunGrows(confirmations, run, act);
      run := run + [act];
    }

    /** One step of an attempt; every attempt belongs to a job. */
    ghost method TakeStep(t: TaskId, a: Answer, retryAt: Time)
      requires IsRun(confirmations, run) && Mine(t).Some?
      modifies this`run
      ensures old(run) <= run && IsRun(confirmations, run)
      ensures t.job < |old(Now().tables.jobs)| && TaskOk(old(Now().tables), t, old(Now().tasks[t]))
      ensures Now() == Advance(confirmations, old(Now()), t, a, retryAt)
    {
      hide Next, Advance, Inv;
      Belongs(t);
      StepIs(confirmations, Now(), t, a, retryAt);
      Take(Step(t, a, retryAt));
    }

    lemma Belongs(t: TaskId)
      requires IsRun(confirmations, run) && Mine(t).Some?
      ensures t.job < |Now().tables.jobs| && TaskOk(Now().tables, t, Now().tasks[t])
    {
      hide After;
      RunsKeepInv(confirmations, run, |run|);
    }

    /** Nothing is known of what happens meanwhile, except that it is a run and leaves this attempt alone. */
    method Await(ghost t: TaskId)
      requires Valid()
      modifies this, store, store.jobs
      ensures Valid() && old(run) <= run && Mine(t) == old(Mine(t))
      ensures fresh((set j | j in store.jobs) - old(set j | j in store.jobs))
    {
    }

    ghost predicate InCatch<T>(t: TaskId, r: Tried<T>)
      reads this
    {
      r.Caught? ==> Mine(t) == Some(Failing(r.code, r.again))
    }

    /** The `catch`: a retry exactly if the error allows it and the job has attempts left. */
    method Catch<T>(t: TaskId, f: Failure, retryAt: Time) returns (r: Tried<T>)
      requires Valid() && Mine(t).Some? && InTry(Mine(t).value)
      modifies this`run
      ensures Valid() && old(run) <= run && InCatch(t, r) && t.job < |store.jobs|
      ensures r == Caught(f.code, if f.retryable && store.jobs[t.job].attempts < MAX_ATTEMPTS then Some(retryAt) else None)
    {
      Belongs(t);
      r := Caught(f.code, if f.retryable && store.jobs[t.job].attempts < MAX_ATTEMPTS then Some(retryAt) else None);
      TakeStep(t, Threw(f.code, f.retryable), retryAt);
    }

    /** `revalidate`, and the signed bytes the job already carries, if any. */
    method Revalidated(t: TaskId, e: Answers) returns (r: Tried<Option<Tx>>)
      requires Valid() && Mine(t) == Some(Starting) && e.reading.Ok?
      modifies this`run
      ensures Valid() && old(run) <= run && Mine(t).Some? && InCatch(t, r)
      ensures r.Returned? && r.value.None? ==> Mine(t).value.Simulating?
      ensures r.Returned? && r.value.Some? ==> Mine(t).value == Looking(r.value.value)
    {
      Belongs(t);
      var job := store.jobs[t.job];
      if job.intentId !in store.intents {
        r := Caught("INTENT_NOT_FOUND", None);
      } else {
        var refused := Revalidate(store.intents[job.intentId], e.now, e.reading.value);
        if refused.Some? {
          r := Caught(refused.value, None);
        } else if job.transactionHash.Some? && job.signedTransaction.Some? {
          r := Returned(Some(Tx(job.transactionHash.value, job.signedTransaction.value)));
        } else {
          r := Returned(None);
        }
      }
      TakeStep(t, Read(e.now, e.reading.value), e.retryAt);
    }

    /** Simulate, sign, persist: the durability boundary before anything is broadcast. */
    method SignAndPersist(t: TaskId, e: Answers) returns (r: Tried<Tx>)
      requires Valid() && Mine(t).Some? && Mine(t).value.Simulating?
      modifies this, store, store.jobs
      ensures Valid() && old(run) <= run && Mine(t).Some? && InCatch(t, r)
      ensures fresh((set j | j in store.jobs) - old(set j | j in store.jobs))
      ensures r.Returned? ==> Mine(t).value == Looking(r.value)
    {
      hide After, IsRun, Valid, Mine, Ended;
      if e.simulated.Err? {
        r := Catch(t, e.simulated.error, e.retryAt);
        return;
      }
      Simulated(t, e.retryAt);
      Await(t);
      if e.prepared.Err? {
        r := Catch(t, e.prepared.error, e.retryAt);
        return;
      }
      Prepare(t, e.prepared.value, e.retryAt);
      Await(t);
      var tx := PersistNow(t, e.prepared.value, e.retryAt);
      r := Returned(tx);
    }

    ghost method Simulated(t: TaskId, retryAt: Time)
      requires Valid() && Mine(t).Some? && Mine(t).value.Simulating?
      modifies this`run
      ensures Valid() && old(run) <= run && Mine(t) == Some(Preparing(old(Mine(t)).value.seen))
    {
      TakeStep(t, Done, retryAt);
    }

    ghost method Prepare(t: TaskId, tx: Prepared, retryAt: Time)
      requires Valid() && Mine(t).Some? && Mine(t).value.Preparing?
      modifies this`run
      ensures Valid() && old(run) <= run && Mine(t) == Some(Persisting(old(Mine(t)).value.seen, tx))
    {
      TakeStep(t, Answer.Signed(tx), retryAt);
    }

    method PersistNow(t: TaskId, tx: Prepared, retryAt: Time) returns (x: Tx)
      requires Valid() && Mine(t).Some? && Mine(t).value.Persisting? && Mine(t).value.prepared == tx
      modifies this`run, store.jobs
      ensures Valid() && old(run) <= run && store.jobs == old(store.jobs)
      ensures Mine(t) == Some(Looking(x)) && x == Tx(Keccak(tx.serialized), tx.serialized)
    {
      hide After, IsRun, KeysUnique, OneJobPerIntent;
      Belongs(t);
      var ok := store.PersistSignedTransaction(t.job, tx);
      TakeStep(t, Done, retryAt);
      x := Tx(Keccak(tx.serialized), tx.serialized);
    }

    /** A receipt lookup: found, not there yet, or failed. */
    method LookForReceipt(t: TaskId, tx: Tx, found: Result<Option<Receipt>, Failure>, retryAt: Time)
      returns (r: Tried<Option<Receipt>>)
      requires Valid() && (Mine(t) == Some(Looking(tx)) || Mine(t) == Some(LookingAgain(tx)))
      modifies this`run
      ensures Valid() && old(run) <= run && InCatch(t, r)
      ensures r.Returned? && r.value.Some? ==> Mine(t) == Some(Handling(tx, r.value.value))
      ensures r.Returned? && r.value.None? ==> Mine(t) == if old(Mine(t)).value.Looking? then Some(Broadcasting(tx)) else None
      ensures Mine(t).None? ==> Ended(t.job, Pending)
    {
      Belongs(t);
      if found.Err? {
        r := Catch(t, found.error, retryAt);
        return;
      }
      TakeStep(t, Found(found.value), retryAt);
      r := Returned(found.value);
    }

    /** Sends the persisted bytes; an RPC that knows them already is as good as one that accepts them. */
    method SendBytes(t: TaskId, tx: Tx, reply: BroadcastReply, retryAt: Time) returns (r: Tried<()>)
      requires Valid() && Mine(t) == Some(Broadcasting(tx))
      modifies this`run
      ensures Valid() && old(run) <= run && InCatch(t, r)
      ensures Now().broadcasts == old(Now().broadcasts) + [Sent(t.job, tx.serialized)]
      ensures r.Returned? ==> Mine(t) == Some(Marking(tx))
    {
      Belongs(t);
      if reply.AlreadyKnown? || (reply.Accepted? && reply.hash == tx.hash) {
        r := Returned(());
      } else if reply.Accepted? {
        r := Caught("TRANSACTION_HASH_MISMATCH", None);
      } else {
        r := Caught("RPC_BROADCAST_FAILED", if store.jobs[t.job].attempts < MAX_ATTEMPTS then Some(retryAt) else None);
      }
      TakeStep(t, Replied(reply), retryAt);
    }

    method MarkSent(t: TaskId, tx: Tx, retryAt: Time)
      requires Valid() && Mine(t) == Some(Marking(tx))
      modifies this`run, store`intents, store.jobs
      ensures Valid() && old(run) <= run && store.jobs == old(store.jobs) && Mine(t) == Some(LookingAgain(tx))
    {
      Belongs(t);
      var ok := store.MarkJobSubmitted(t.job, tx.hash);
      TakeStep(t, Done, retryAt);
    }

    /** Broadcast, mark, look: what follows when no receipt was there at first. */
    method SendAndLook(t: TaskId, tx: Tx, e: Answers) returns (r: Tried<Option<Receipt>>)
      requires Valid() && Mine(t) == Some(Broadcasting(tx))
      modifies this, store, store.jobs
      ensures Valid() && old(run) <= run && InCatch(t, r)
      ensures fresh((set j | j in store.jobs) - old(set j | j in store.jobs))
      ensures r.Returned? ==> Mine(t) == if r.value.Some? then Some(Handling(tx, r.value.value)) else None
      ensures Mine(t).None? ==> Ended(t.job, Pending)
    {
      hide After, IsRun, Valid, Mine, Ended;
      var sent := SendBytes(t, tx, e.reply, e.retryAt);
      if sent.Caught? {
        return Caught(sent.code, sent.again);
      }
      Await(t);
      MarkSent(t, tx, e.retryAt);
      Await(t);
      r := LookForReceipt(t, tx, e.second, e.retryAt);
    }

    /** The bytes to relay: those the job carries, or freshly signed and persisted ones. */
    method SignedBytes(t: TaskId, e: Answers) returns (r: Tried<Tx>)
      requires Valid() && Mine(t) == Some(Starting)
      modifies this, store, store.jobs
      ensures Valid() && old(run) <= run && InCatch(t, r)
      ensures fresh((set j | j in store.jobs) - old(set j | j in store.jobs))
      ensures r.Returned? ==> Mine(t) == Some(Looking(r.value))
    {
      hide After, IsRun, Valid, Mine, Ended;
      Await(t);
      if e.reading.Err? {
        r := Catch(t, e.reading.error, e.retryAt);
        return;
      }
      var carried := Revalidated(t, e);
      if carried.Caught? {
        return Caught(carried.code, carried.again);
      }
      if carried.value.Some? {
        return Returned(carried.value.value);
      }
      Await(t);
      r := SignAndPersist(t, e);
    }

    /** A receipt that is already there ends the search; otherwise the bytes go out. */
    method LookOrSend(t: TaskId, tx: Tx, e: Answers) returns (r: Tried<Option<Receipt>>)
      requires Valid() && Mine(t) == Some(Looking(tx))
      modifies this, store, store.jobs
      ensures Valid() && old(run) <= run && InCatch(t, r)
      ensures fresh((set j | j in store.jobs) - old(set j | j in store.jobs))
      ensures r.Returned? ==> Mine(t) == if r.value.Some? then Some(Handling(tx, r.value.value)) else None
      ensures Mine(t).None? ==> Ended(t.job, Pending)
    {
      hide After, IsRun, Valid, Mine, Ended;
      Await(t);
      r := LookForReceipt(t, tx, e.first, e.retryAt);
      if r.Returned? && r.value.None? {
        Await(t);
        r := SendAndLook(t, tx, e);
      }
    }

    /** The body of the `try`: ends with a receipt to handle, nothing left to do, or an error. */
    method TryRelay(t: TaskId, e: Answers) returns (r: Tried<Option<(Tx, Receipt)>>)
      requires Valid() && Mine(t) == Some(Starting)
      modifies this, store, store.jobs
      ensures Valid() && old(run) <= run && InCatch(t, r)
      ensures fresh((set j | j in store.jobs) - old(set j | j in store.jobs))
      ensures r.Returned? ==>
        Mine(t) == if r.value.Some? then Some(Handling(r.value.value.0, r.value.value.1)) else None
      ensures Mine(t).None? ==> Ended(t.job, Pending)
    {
      hide After, IsRun, Valid, Mine, Ended;
      var tx := SignedBytes(t, e);
      if tx.Caught? {
        return Caught(tx.code, tx.again);
      }
      var receipt := LookOrSend(t, tx.value, e);
      match receipt
      case Caught(code, again) => r := Caught(code, again);
      case Returned(found) => r := Returned(if found.Some? then Some((tx.value, found.value)) else None);
    }

    /** One attempt at a claimed job. */
    method Process(t: TaskId, e: Answers) returns (outcome: Outcome)
      requires Valid() && Mine(t) == Some(Starting)
      modifies this, store, store.jobs
      ensures Valid() && old(run) <= run && Mine(t).None?
      ensures Ended(t.job, outcome)
    {
      hide After, IsRun, Valid, Mine, Ended;
      var r := TryRelay(t, e);
      match r
      case Caught(code, again) =>
        Await(t);
        outcome := RecordFailure(t, code, again);
      case Returned(found) =>
        if found.None? {
          return Pending;
        }
        Await(t);
        outcome := HandleReceipt(t, found.value.0, found.value.1, e);
    }

    /** What an outcome says about the job. Only a reorganisation at the last attempt is reported as
        pending although the job has ended. */
    ghost predicate Ended(j: JobId, outcome: Outcome)
      reads this, store, store.jobs
    {
      && j < |store.jobs|
      && var job := store.jobs[j];
      match outcome
      case Confirmed => ConfirmedWith(j)
      case Failed =>
        && (job.state == JobState.Failed || job.state == DeadLetter)
        && (job.intentId in store.intents ==> store.intents[job.intentId].state == IntentState.Failed)
      case Pending =>
        job.state == JobState.Queued || job.state == JobState.Submitted
        || (job.state == DeadLetter && job.attempts >= MAX_ATTEMPTS)
      case Escaped => job.state == Processing || job.state == JobState.Submitted
    }

    /** What becomes of a receipt. */
    ghost function Judged(receipt: Receipt, e: Answers): Outcome {
      if !receipt.success then Outcome.Failed
      else if e.canonical.Err? then Escaped
      else
        var seen := Evidence(receipt.hash, receipt, e.head, e.canonical.value);
        if e.canonical.value != receipt.blockHash || Confirmations(seen) < confirmations then Pending else Outcome.Confirmed
    }

    /** A reverted receipt ends the job; otherwise the head and the canonical block are read. */
    method HandleReceipt(t: TaskId, tx: Tx, receipt: Receipt, e: Answers) returns (outcome: Outcome)
      requires Valid() && Mine(t) == Some(Handling(tx, receipt))
      modifies this, store, store.jobs
      ensures Valid() && old(run) <= run && Mine(t).None?
      ensures outcome == Judged(receipt, e) && Ended(t.job, outcome)
    {
      hide After, IsRun, Valid, Mine, Ended;
      if !receipt.success {
        RecordRevert(t, tx, receipt, e.retryAt);
        return Outcome.Failed;
      }
      if e.canonical.Err? {
        Escape(t, e.canonical.error, e.retryAt);
        return Escaped;
      }
      SawBlocks(t, tx, receipt, e.head, e.canonical.value, e.retryAt);
      Await(t);
      outcome := SettleNow(t, tx, Evidence(tx.hash, receipt, e.head, e.canonical.value), e.retryAt);
    }

    ghost predicate ConfirmedWith(j: JobId)
      reads this, store, store.jobs
    {
      && j < |store.jobs| && store.jobs[j].state == JobState.Confirmed
      && j in Now().proofs && Proves(confirmations, store.jobs[j].Contents(), Now().proofs[j])
    }

    method RecordRevert(t: TaskId, tx: Tx, receipt: Receipt, retryAt: Time)
      requires Valid() && Mine(t) == Some(Handling(tx, receipt)) && !receipt.success
      modifies this`run, store`intents, store.jobs
      ensures Valid() && old(run) <= run && Mine(t).None? && Ended(t.job, Outcome.Failed)
    {
      hide After, IsRun, Advance, KeysUnique, OneJobPerIntent;
      Belongs(t);
      RevertStep(confirmations, Now(), t, retryAt);
      var ok := store.MarkJobFailed(t.job, "TRANSACTION_REVERTED", None);
      TakeStep(t, Done, retryAt);
    }

    /** An error outside the `try` leaves the job as it is. */
    ghost method Escape(t: TaskId, f: Failure, retryAt: Time)
      requires Valid() && Mine(t).Some? && !InTry(Mine(t).value)
      modifies this`run
      ensures Valid() && old(run) <= run && Mine(t).None? && Ended(t.job, Escaped)
    {
      Belongs(t);
      TakeStep(t, Threw(f.code, f.retryable), retryAt);
    }

    ghost method SawBlocks(t: TaskId, tx: Tx, receipt: Receipt, head: nat, canonical: Hash, retryAt: Time)
      requires Valid() && Mine(t) == Some(Handling(tx, receipt)) && receipt.success
      modifies this`run
      ensures Valid() && old(run) <= run && Mine(t) == Some(Settling(tx, Evidence(tx.hash, receipt, head, canonical)))
    {
      TakeStep(t, Blocks(head, canonical), retryAt);
    }

    method SettleNow(t: TaskId, tx: Tx, e: Evidence, retryAt: Time) returns (outcome: Outcome)
      requires Valid() && Mine(t) == Some(Settling(tx, e))
      modifies this`run, store`intents, store.jobs
      ensures Valid() && old(run) <= run && Mine(t).None? && Ended(t.job, outcome)
      ensures outcome == if e.canonical != e.receipt.blockHash || Confirmations(e) < confirmations
                         then Pending else Outcome.Confirmed
    {
      hide After, IsRun, Valid, Mine, Ended;
      if e.canonical != e.receipt.blockHash {
        Requeue(t, tx, e, retryAt);
        outcome := Pending;
      } else if Confirmations(e) < confirmations {
        KeepWaiting(t, tx, e, retryAt);
        outcome := Pending;
      } else {
        ConfirmNow(t, tx, e, retryAt);
        outcome := Outcome.Confirmed;
      }
    }

    /** A reorganised block asks for another attempt. */
    method Requeue(t: TaskId, tx: Tx, e: Evidence, retryAt: Time)
      requires Valid() && Mine(t) == Some(Settling(tx, e)) && e.canonical != e.receipt.blockHash
      modifies this`run, store`intents, store.jobs
      ensures Valid() && old(run) <= run && Mine(t).None? && Ended(t.job, Pending)
    {
      hide After, IsRun, Advance, KeysUnique, OneJobPerIntent;
      Belongs(t);
      SettleStep(confirmations, Now(), t, retryAt);
      var ok := store.MarkJobFailed(t.job, "REORG_DETECTED", Some(retryAt));
      TakeStep(t, Done, retryAt);
    }

    /** A shallow one asks for more time. */
    method KeepWaiting(t: TaskId, tx: Tx, e: Evidence, retryAt: Time)
      requires Valid() && Mine(t) == Some(Settling(tx, e))
      requires e.canonical == e.receipt.blockHash && Confirmations(e) < confirmations
      modifies this`run, store`intents, store.jobs
      ensures Valid() && old(run) <= run && Mine(t).None? && Ended(t.job, Pending)
    {
      hide After, IsRun, Advance, KeysUnique, OneJobPerIntent;
      Belongs(t);
      SettleStep(confirmations, Now(), t, retryAt);
      var ok := store.MarkJobSubmitted(t.job, e.receipt.hash);
      TakeStep(t, Done, retryAt);
    }

    method ConfirmNow(t: TaskId, tx: Tx, e: Evidence, retryAt: Time)
      requires Valid() && Mine(t) == Some(Settling(tx, e))
      requires e.canonical == e.receipt.blockHash && Confirmations(e) >= confirmations
      modifies this`run, store`intents, store.jobs
      ensures Valid() && old(run) <= run && Mine(t).None? && Ended(t.job, Outcome.Confirmed)
    {
      hide After, IsRun, Advance, KeysUnique, OneJobPerIntent;
      Belongs(t);
      SettleStep(confirmations, Now(), t, retryAt);
      var ok := store.MarkJobConfirmed(t.job, e.receipt.hash, e.receipt.blockNumber);
      TakeStep(t, Done, retryAt);
    }

    /** Requeued if a retry was granted, ended otherwise. */
    method RecordFailure(t: TaskId, code: string, again: Option<Time>) returns (outcome: Outcome)
      requires Valid() && Mine(t) == Some(Failing(code, again))
      modifies this`run, store`intents, store.jobs
      ensures Valid() && old(run) <= run && Mine(t).None? && Ended(t.job, outcome)
      ensures outcome == if again.Some? then Pending else Outcome.Failed
    {
      hide After, IsRun, Valid, Mine, Ended;
      if again.Some? {
        RecordRetry(t, code, again.value);
        outcome := Pending;
      } else {
        RecordEnd(t, code);
        outcome := Outcome.Failed;
      }
    }

    method RecordRetry(t: TaskId, code: string, at: Time)
      requires Valid() && Mine(t) == Some(Failing(code, Some(at)))
      modifies this`run, store`intents, store.jobs
      ensures Valid() && old(run) <= run && Mine(t).None? && Ended(t.job, Pending)
      ensures store.jobs[t.job].state == JobState.Queued && store.jobs[t.job].availableAt == at
    {
      hide After, IsRun, Advance, KeysUnique, OneJobPerIntent;
      Belongs(t);
      FailStep(confirmations, Now(), t, 0);
      var ok := store.MarkJobFailed(t.job, code, Some(at));
      TakeStep(t, Done, 0);
    }

    method RecordEnd(t: TaskId, code: string)
      requires Valid() && Mine(t) == Some(Failing(code, None))
      modifies this`run, store`intents, store.jobs
      ensures Valid() && old(run) <= run && Mine(t).None? && Ended(t.job, Outcome.Failed)
    {
      hide After, IsRun, Advance, KeysUnique, OneJobPerIntent;
      Belongs(t);
      FailStep(confirmations, Now(), t, 0);
      var ok := store.MarkJobFailed(t.job, code, None);
      TakeStep(t, Done, 0);
    }
  }
}
