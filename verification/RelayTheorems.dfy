/** Exactly-once relaying over every interleaving of attempts, stops and answers. */
module RelayTheorems {
  import opened Wrappers
  import opened ExecutionStore
  import opened RelayProtocol

  // ---------- Each step keeps the invariant ----------

  lemma GoKeepsInv(c: nat, s: Relay, id: TaskId, pc: Pc)
    requires Inv(c, s) && id in s.tasks && PcOk(s.tables, s.tables.jobs[id.job], pc)
    ensures Inv(c, Go(s, id, pc))
  {
    OneJobMoves(c, s, Go(s, id, pc), id);
  }

  lemma CatchKeepsInv(c: nat, s: Relay, id: TaskId, code: string, retryable: bool, retryAt: Time)
    requires Inv(c, s) && id in s.tasks
    ensures Inv(c, Catch(s, id, code, retryable, retryAt))
  {
    var again := if retryable && s.tables.jobs[id.job].attempts < MAX_ATTEMPTS then Some(retryAt) else None;
    GoKeepsInv(c, s, id, Failing(code, again));
  }

  lemma StopKeepsInv(c: nat, s: Relay, id: TaskId)
    requires Inv(c, s)
    ensures Inv(c, End(s, id))
  {
    if id in s.tasks {
      OneJobMoves(c, s, End(s, id), id);
    } else {
      assert End(s, id) == s;
    }
  }

  lemma StartKeepsInv(c: nat, s: Relay, id: TaskId, a: Answer, retryAt: Time)
    requires Inv(c, s) && id in s.tasks
    ensures Inv(c, Start(s, id, a, retryAt))
  {
    var job := s.tables.jobs[id.job];
    if job.intentId !in s.tables.intents {
      CatchKeepsInv(c, s, id, "INTENT_NOT_FOUND", false, retryAt);
    } else if a.Read? {
      var refused := Revalidate(s.tables.intents[job.intentId], a.now, a.reading);
      if refused.Some? {
        CatchKeepsInv(c, s, id, refused.value, false, retryAt);
      } else if job.signedTransaction.None? || job.transactionHash.None? {
        assert JobOk(job);
        GoKeepsInv(c, s, id, Simulating(a.reading));
      } else {
        assert JobOk(job);
        GoKeepsInv(c, s, id, Looking(Tx(job.transactionHash.value, job.signedTransaction.value)));
      }
    }
  }

  lemma NothingSignedYet(c: nat, s: Relay, j: JobId)
    requires Inv(c, s) && j < |s.tables.jobs| && s.tables.jobs[j].signedTransaction.None?
    ensures forall k | 0 <= k < |s.persisted| :: s.persisted[k].job != j
    ensures forall k | 0 <= k < |s.broadcasts| :: s.broadcasts[k].job != j
  {
    forall k | 0 <= k < |s.persisted| ensures s.persisted[k].job != j {
      assert EntryOk(s.tables, s.persisted[k]);
    }
  }

  lemma PersistKeepsHistory(c: nat, s: Relay, id: TaskId, seen: ChainReading, tx: Prepared)
    requires Inv(c, s) && id in s.tasks && s.tables.jobs[id.job].signedTransaction.None?
    requires ReadFor(s.tables, s.tables.jobs[id.job], seen)
    ensures var s' := Persist(s, id, seen, tx); HistoryOk(s'.tables, s'.persisted, s'.broadcasts)
  {
    NothingSignedYet(c, s, id.job);
    var s' := Persist(s, id, seen, tx);
    forall k | 0 <= k < |s'.persisted| ensures EntryOk(s'.tables, s'.persisted[k]) {
      if k < |s.persisted| {
        assert EntryOk(s.tables, s.persisted[k]);
      }
    }
    forall j | 0 <= j < |s'.tables.jobs| && s'.tables.jobs[j].signedTransaction.Some? ensures HasEntry(s'.persisted, j) {
      if j == id.job {
        assert s'.persisted[|s.persisted|].job == j;
      } else {
        var k :| 0 <= k < |s.persisted| && s.persisted[k].job == j;
        assert s'.persisted[k].job == j;
      }
    }
  }

  lemma PersistKeepsInv(c: nat, s: Relay, id: TaskId, seen: ChainReading, tx: Prepared)
    requires Inv(c, s) && id in s.tasks && s.tasks[id] == Persisting(seen, tx)
    ensures s.tables.jobs[id.job].intentId in s.tables.intents && Inv(c, Persist(s, id, seen, tx))
  {
    assert TaskOk(s.tables, id, s.tasks[id]);
    PersistKeepsHistory(c, s, id, seen, tx);
    var s' := Persist(s, id, seen, tx);
    forall o | o in s'.tasks ensures TaskOk(s'.tables, o, s'.tasks[o]) {
      if o != id {
        assert TaskOk(s.tables, o, s.tasks[o]);
        assert o.job != id.job;
      }
    }
    SameJobsSameIntents(s.tables.jobs, s'.tables.jobs);
  }

  lemma SendKeepsInv(c: nat, s: Relay, id: TaskId, tx: Tx)
    requires Inv(c, s) && id in s.tasks && s.tasks[id] == Broadcasting(tx)
    ensures Inv(c, s.(broadcasts := s.broadcasts + [Sent(id.job, tx.serialized)]))
  {
    assert TaskOk(s.tables, id, s.tasks[id]);
    OneJobMoves(c, s, s.(broadcasts := s.broadcasts + [Sent(id.job, tx.serialized)]), id);
  }

  lemma BroadcastKeepsInv(c: nat, s: Relay, id: TaskId, tx: Tx, reply: BroadcastReply, retryAt: Time)
    requires Inv(c, s) && id in s.tasks && s.tasks[id] == Broadcasting(tx)
    ensures Inv(c, Broadcast(s, id, tx, reply, retryAt))
  {
    SendKeepsInv(c, s, id, tx);
    var sent := s.(broadcasts := s.broadcasts + [Sent(id.job, tx.serialized)]);
    assert TaskOk(s.tables, id, s.tasks[id]);
    match reply
    case AlreadyKnown => GoKeepsInv(c, sent, id, Marking(tx));
    case Accepted(hash) =>
      if hash == tx.hash {
        GoKeepsInv(c, sent, id, Marking(tx));
      } else {
        CatchKeepsInv(c, sent, id, "TRANSACTION_HASH_MISMATCH", false, retryAt);
      }
    case Rejected => CatchKeepsInv(c, sent, id, "RPC_BROADCAST_FAILED", true, retryAt);
  }

  lemma FailingKeepsInv(c: nat, s: Relay, id: TaskId, code: string, retryAt: Option<Time>)
    requires Inv(c, s) && id in s.tasks
    ensures Inv(c, End(s.(tables := MarkFailed(s.tables, id.job, code, retryAt)), id))
  {
    assert TaskOk(s.tables, id, s.tasks[id]);
    OneJobMoves(c, s, End(s.(tables := MarkFailed(s.tables, id.job, code, retryAt)), id), id);
  }

  lemma MarkingKeepsInv(c: nat, s: Relay, id: TaskId, tx: Tx)
    requires Inv(c, s) && id in s.tasks && s.tasks[id] == Marking(tx)
    ensures Inv(c, Go(s.(tables := MarkSubmitted(s.tables, id.job, tx.hash)), id, LookingAgain(tx)))
  {
    assert TaskOk(s.tables, id, s.tasks[id]);
    OneJobMoves(c, s, Go(s.(tables := MarkSubmitted(s.tables, id.job, tx.hash)), id, LookingAgain(tx)), id);
  }

  lemma SettleKeepsInv(c: nat, s: Relay, id: TaskId, tx: Tx, e: Evidence, retryAt: Time)
    requires Inv(c, s) && id in s.tasks && s.tasks[id] == Settling(tx, e)
    ensures Inv(c, Settle(c, s, id, e, retryAt))
  {
    assert TaskOk(s.tables, id, s.tasks[id]);
    if e.canonical != e.receipt.blockHash {
      FailingKeepsInv(c, s, id, "REORG_DETECTED", Some(retryAt));
    } else {
      OneJobMoves(c, s, Settle(c, s, id, e, retryAt), id);
    }
  }

  lemma AdvanceKeepsInv(c: nat, s: Relay, id: TaskId, a: Answer, retryAt: Time)
    requires Inv(c, s) && id in s.tasks
    ensures id.job < |s.tables.jobs| && Inv(c, Advance(c, s, id, a, retryAt))
  {
    var pc := s.tasks[id];
    assert TaskOk(s.tables, id, pc);
    if a.Threw? {
      if InTry(pc) {
        CatchKeepsInv(c, s, id, a.code, a.retryable, retryAt);
      } else {
        StopKeepsInv(c, s, id);
      }
    } else {
      match pc
      case Starting => StartKeepsInv(c, s, id, a, retryAt);
      case Simulating(seen) => GoKeepsInv(c, s, id, Preparing(seen));
      case Preparing(seen) => if a.Signed? { GoKeepsInv(c, s, id, Persisting(seen, a.prepared)); }
      case Persisting(seen, tx) => PersistKeepsInv(c, s, id, seen, tx);
      case Looking(tx) =>
        if a.Found? {
          GoKeepsInv(c, s, id, if a.receipt.Some? then Handling(tx, a.receipt.value) else Broadcasting(tx));
        }
      case Broadcasting(tx) => if a.Replied? { BroadcastKeepsInv(c, s, id, tx, a.reply, retryAt); }
      case Marking(tx) => MarkingKeepsInv(c, s, id, tx);
      case LookingAgain(tx) =>
        if a.Found? {
          if a.receipt.Some? {
            GoKeepsInv(c, s, id, Handling(tx, a.receipt.value));
          } else {
            StopKeepsInv(c, s, id);
          }
        }
      case Handling(tx, receipt) =>
        if !receipt.success {
          FailingKeepsInv(c, s, id, "TRANSACTION_REVERTED", None);
        } else if a.Blocks? {
          GoKeepsInv(c, s, id, Settling(tx, Evidence(tx.hash, receipt, a.head, a.canonical)));
        }
      case Settling(tx, e) => SettleKeepsInv(c, s, id, tx, e, retryAt);
      case Failing(code, at) => FailingKeepsInv(c, s, id, code, at);
    }
  }

  lemma ClaimingKeepsTasks(c: nat, s: Relay, now: Time, limit: nat)
    requires Inv(c, s)
    ensures var s' := Claiming(s, now, limit); forall o | o in s'.tasks :: TaskOk(s'.tables, o, s'.tasks[o])
  {
    ClaimTakesTheEarliest(s.tables.jobs, now, limit);
    var s' := Claiming(s, now, limit);
    forall o | o in s'.tasks ensures TaskOk(s'.tables, o, s'.tasks[o]) {
      if o in s.tasks {
        assert TaskOk(s.tables, o, s.tasks[o]);
      }
    }
  }

  lemma ClaimingKeepsInv(c: nat, s: Relay, now: Time, limit: nat)
    requires Inv(c, s)
    ensures Inv(c, Claiming(s, now, limit))
  {
    hide TaskOk;
    ClaimTakesTheEarliest(s.tables.jobs, now, limit);
    ClaimingKeepsTasks(c, s, now, limit);
    var s' := Claiming(s, now, limit);
    forall k | 0 <= k < |s'.persisted| ensures EntryOk(s'.tables, s'.persisted[k]) {
      assert EntryOk(s.tables, s.persisted[k]);
    }
    SameJobsSameIntents(s.tables.jobs, s'.tables.jobs);
  }

  /** Adding an intent or a job touches nothing that is under way. */
  lemma GrowingKeepsInv(c: nat, s: Relay, t': Tables)
    requires Inv(c, s) && Extends(s.tables, t') && TablesOk(t')
    requires forall j | 0 <= j < |s.tables.jobs| :: t'.jobs[j] == s.tables.jobs[j]
    requires forall j | |s.tables.jobs| <= j < |t'.jobs| ::
      t'.jobs[j].state == JobState.Queued && t'.jobs[j].signedTransaction.None?
    ensures Inv(c, s.(tables := t'))
  {
    forall o | o in s.tasks ensures TaskOk(t', o, s.tasks[o]) {
      assert TaskOk(s.tables, o, s.tasks[o]);
    }
    forall k | 0 <= k < |s.persisted| ensures EntryOk(t', s.persisted[k]) {
      assert EntryOk(s.tables, s.persisted[k]);
    }
  }

  lemma EnqueueKeepsInv(c: nat, s: Relay, intentId: IntentId, now: Time)
    requires Inv(c, s)
    ensures Inv(c, s.(tables := EnqueueIntent(s.tables, intentId, now)))
  {
    var t' := EnqueueIntent(s.tables, intentId, now);
    SameKeys(s.tables.intents, t'.intents);
    GrowingKeepsInv(c, s, t');
  }

  lemma SaveKeepsInv(c: nat, s: Relay, id: IntentId, intent: Intent)
    requires Inv(c, s) && id !in s.tables.intents && SaveIntent(s.tables, id, intent).Ok?
    ensures Inv(c, s.(tables := SaveIntent(s.tables, id, intent).value))
  {
    SavingKeepsKeysUnique(s.tables, id, intent);
    GrowingKeepsInv(c, s, SaveIntent(s.tables, id, intent).value);
  }

  lemma NextKeepsInv(c: nat, s: Relay, act: Action)
    requires Inv(c, s) && (act.Save? ==> act.id !in s.tables.intents)
    ensures Inv(c, Next(c, s, act))
  {
    match act
    case Save(id, intent) => if SaveIntent(s.tables, id, intent).Ok? { SaveKeepsInv(c, s, id, intent); }
    case Enqueue(intentId, now) => EnqueueKeepsInv(c, s, intentId, now);
    case ClaimSome(now, limit) => ClaimingKeepsInv(c, s, now, limit);
    case Step(t, a, retryAt) => if t in s.tasks { AdvanceKeepsInv(c, s, t, a, retryAt); }
    case Stop(t) => StopKeepsInv(c, s, t);
  }

  lemma InitialInv(c: nat, run: seq<Action>)
    ensures Inv(c, After(c, run, 0))
  {
  }

  lemma {:induction false} RunsKeepInv(c: nat, run: seq<Action>, n: nat)
    requires IsRun(c, run) && n <= |run|
    ensures Inv(c, After(c, run, n))
  {
    hide After, Next, Inv;
    if n == 0 {
      InitialInv(c, run);
    } else {
      RunsKeepInv(c, run, n - 1);
      AfterOne(c, run, n - 1);
      NextKeepsInv(c, After(c, run, n - 1), run[n - 1]);
    }
  }

  // ---------- The theorems ----------

  /** No two intents share a nonce of a controller, and an intent has one job at most. */
  lemma ControllerNoncesAreUnique(c: nat, run: seq<Action>)
    requires IsRun(c, run)
    ensures var t := After(c, run, |run|).tables; KeysUnique(t.intents) && OneJobPerIntent(t.jobs)
  {
    RunsKeepInv(c, run, |run|);
  }

  /** For one nonce of one controller at most one signed transaction is ever persisted, and it was signed
      after a reading that showed this nonce as the controller's next. */
  lemma SignedOncePerNonce(c: nat, run: seq<Action>, k: nat, l: nat)
    requires IsRun(c, run)
    requires k < |After(c, run, |run|).persisted| && l < |After(c, run, |run|).persisted|
    requires After(c, run, |run|).persisted[k].key == After(c, run, |run|).persisted[l].key
    ensures k == l
    ensures After(c, run, |run|).persisted[k].seen.nextNonce == After(c, run, |run|).persisted[k].key.nonce
  {
    RunsKeepInv(c, run, |run|);
    var s := After(c, run, |run|);
    assert EntryOk(s.tables, s.persisted[k]) && EntryOk(s.tables, s.persisted[l]);
    assert s.tables.jobs[s.persisted[k].job].intentId == s.tables.jobs[s.persisted[l].job].intentId;
  }

  ghost predicate PersistedAs(s: Relay, b: Sent) {
    exists k :: 0 <= k < |s.persisted| && s.persisted[k].job == b.job && s.persisted[k].prepared.serialized == b.serialized
  }

  /** Whatever was broadcast is, byte for byte, what was persisted for the job, however often it is
      retried; and this held already right after the broadcast. */
  lemma BroadcastsArePersisted(c: nat, run: seq<Action>, n: nat)
    requires IsRun(c, run) && n <= |run|
    ensures forall b | b in After(c, run, n).broadcasts :: PersistedAs(After(c, run, n), b)
  {
    RunsKeepInv(c, run, n);
    var s := After(c, run, n);
    forall b | b in s.broadcasts ensures PersistedAs(s, b) {
      var i :| 0 <= i < |s.broadcasts| && s.broadcasts[i] == b;
      var k :| 0 <= k < |s.persisted| && s.persisted[k].job == b.job;
      assert EntryOk(s.tables, s.persisted[k]);
    }
  }

  lemma AttemptsAreBounded(c: nat, run: seq<Action>, j: JobId)
    requires IsRun(c, run) && j < |After(c, run, |run|).tables.jobs|
    ensures After(c, run, |run|).tables.jobs[j].attempts <= MAX_ATTEMPTS
  {
    RunsKeepInv(c, run, |run|);
    assert JobOk(After(c, run, |run|).tables.jobs[j]);
  }

  // ---------- Where the evidence of a confirmation came from ----------

  /** Step `i` of the run looked for the transaction and was answered with the receipt. */
  ghost predicate Looked(c: nat, run: seq<Action>, i: nat, t: TaskId, tx: Tx, receipt: Receipt)
    requires i < |run|
  {
    && run[i].Step? && run[i].task == t && run[i].answer == Found(Some(receipt))
    && t in After(c, run, i).tasks
    && (After(c, run, i).tasks[t] == Looking(tx) || After(c, run, i).tasks[t] == LookingAgain(tx))
  }

  ghost predicate LookedBefore(c: nat, run: seq<Action>, n: nat, t: TaskId, tx: Tx, receipt: Receipt)
    requires n <= |run|
  {
    exists i :: 0 <= i < n && Looked(c, run, i, t, tx, receipt)
  }

  /** Step `k` of the run was answered with the head and the canonical block, after a look-up before it. */
  ghost predicate Checked(c: nat, run: seq<Action>, k: nat, t: TaskId, tx: Tx, e: Evidence)
    requires k < |run|
  {
    && run[k].Step? && run[k].task == t && run[k].answer == Blocks(e.head, e.canonical)
    && e.asked == tx.hash
    && LookedBefore(c, run, k, t, tx, e.receipt)
  }

  ghost predicate CheckedBefore(c: nat, run: seq<Action>, n: nat, t: TaskId, tx: Tx, e: Evidence)
    requires n <= |run|
  {
    exists k :: 0 <= k < n && Checked(c, run, k, t, tx, e)
  }

  ghost predicate EvidenceFor(c: nat, run: seq<Action>, n: nat, j: JobId, e: Evidence)
    requires n <= |run|
  {
    exists t: TaskId, tx: Tx :: t.job == j && CheckedBefore(c, run, n, t, tx, e)
  }

  ghost predicate Heard(c: nat, run: seq<Action>, n: nat, s: Relay)
    requires n <= |run|
  {
    && (forall t | t in s.tasks && s.tasks[t].Handling? :: LookedBefore(c, run, n, t, s.tasks[t].tx, s.tasks[t].receipt))
    && (forall t | t in s.tasks && s.tasks[t].Settling? :: CheckedBefore(c, run, n, t, s.tasks[t].tx, s.tasks[t].evidence))
    && (forall j | j in s.proofs :: EvidenceFor(c, run, n, j, s.proofs[j]))
  }

  lemma HearingLasts(c: nat, run: seq<Action>, n: nat, s: Relay)
    requires n < |run| && Heard(c, run, n, s)
    ensures Heard(c, run, n + 1, s)
  {
    forall j | j in s.proofs ensures EvidenceFor(c, run, n + 1, j, s.proofs[j]) {
      var t: TaskId, tx: Tx :| t.job == j && CheckedBefore(c, run, n, t, tx, s.proofs[j]);
      assert CheckedBefore(c, run, n + 1, t, tx, s.proofs[j]);
    }
  }

  /** Only these steps give an attempt a receipt, a reading of the chain or a proof. */
  lemma AdvanceOnlyHears(c: nat, s: Relay, t: TaskId, a: Answer, retryAt: Time)
    requires t in s.tasks && t.job < |s.tables.jobs|
    ensures var s' := Advance(c, s, t, a, retryAt);
      && (forall o | o in s'.tasks && o != t :: o in s.tasks && s'.tasks[o] == s.tasks[o])
      && (forall j | j in s'.proofs && j != t.job :: j in s.proofs && s'.proofs[j] == s.proofs[j])
      && (t in s'.tasks && s'.tasks[t].Handling? ==>
            s'.tasks[t] == s.tasks[t]
            || (a == Found(Some(s'.tasks[t].receipt))
                && (s.tasks[t] == Looking(s'.tasks[t].tx) || s.tasks[t] == LookingAgain(s'.tasks[t].tx))))
      && (t in s'.tasks && s'.tasks[t].Settling? ==>
            var e := s'.tasks[t].evidence;
            s'.tasks[t] == s.tasks[t]
            || (s.tasks[t] == Handling(s'.tasks[t].tx, e.receipt) && a == Blocks(e.head, e.canonical)
                && e.asked == s'.tasks[t].tx.hash))
      && (t.job in s'.proofs ==>
            (t.job in s.proofs && s'.proofs[t.job] == s.proofs[t.job])
            || (s.tasks[t].Settling? && s'.proofs[t.job] == s.tasks[t].evidence))
  {
  }

  /** One step of an attempt, seen from state `n`. */
  ghost predicate StepsAt(c: nat, run: seq<Action>, n: nat) {
    && n < |run| && run[n].Step? && run[n].task in After(c, run, n).tasks
    && run[n].task.job < |After(c, run, n).tables.jobs|
  }

  ghost function Stepped(c: nat, run: seq<Action>, n: nat): Relay
    requires StepsAt(c, run, n)
  {
    Advance(c, After(c, run, n), run[n].task, run[n].answer, run[n].retryAt)
  }

  lemma ReceiptIsHeard(c: nat, run: seq<Action>, n: nat, t: TaskId)
    requires StepsAt(c, run, n) && Heard(c, run, n + 1, After(c, run, n))
    requires t in Stepped(c, run, n).tasks && Stepped(c, run, n).tasks[t].Handling?
    ensures LookedBefore(c, run, n + 1, t, Stepped(c, run, n).tasks[t].tx, Stepped(c, run, n).tasks[t].receipt)
  {
    hide After, Advance;
    var s, s' := After(c, run, n), Stepped(c, run, n);
    AdvanceOnlyHears(c, s, run[n].task, run[n].answer, run[n].retryAt);
    if t == run[n].task && s'.tasks[t] != s.tasks[t] {
      assert Looked(c, run, n, t, s'.tasks[t].tx, s'.tasks[t].receipt);
    }
  }

  lemma ChainIsHeard(c: nat, run: seq<Action>, n: nat, t: TaskId)
    requires StepsAt(c, run, n) && Heard(c, run, n, After(c, run, n)) && Heard(c, run, n + 1, After(c, run, n))
    requires t in Stepped(c, run, n).tasks && Stepped(c, run, n).tasks[t].Settling?
    ensures CheckedBefore(c, run, n + 1, t, Stepped(c, run, n).tasks[t].tx, Stepped(c, run, n).tasks[t].evidence)
  {
    hide After, Advance, LookedBefore;
    var s, s' := After(c, run, n), Stepped(c, run, n);
    AdvanceOnlyHears(c, s, run[n].task, run[n].answer, run[n].retryAt);
    if t == run[n].task && s'.tasks[t] != s.tasks[t] {
      assert Checked(c, run, n, t, s'.tasks[t].tx, s'.tasks[t].evidence);
    }
  }

  lemma ProofIsHeard(c: nat, run: seq<Action>, n: nat, j: JobId)
    requires StepsAt(c, run, n) && Heard(c, run, n + 1, After(c, run, n)) && j in Stepped(c, run, n).proofs
    ensures EvidenceFor(c, run, n + 1, j, Stepped(c, run, n).proofs[j])
  {
    hide After, Advance, LookedBefore, CheckedBefore;
    var s, s', t := After(c, run, n), Stepped(c, run, n), run[n].task;
    AdvanceOnlyHears(c, s, t, run[n].answer, run[n].retryAt);
    if j == t.job && !(j in s.proofs && s'.proofs[j] == s.proofs[j]) {
      assert CheckedBefore(c, run, n + 1, t, s.tasks[t].tx, s'.proofs[j]);
    }
  }

  lemma StepIsHeard(c: nat, run: seq<Action>, n: nat)
    requires StepsAt(c, run, n) && Heard(c, run, n, After(c, run, n))
    ensures Heard(c, run, n + 1, Stepped(c, run, n))
  {
    hide After, Advance, LookedBefore, CheckedBefore, EvidenceFor, Stepped;
    HearingLasts(c, run, n, After(c, run, n));
    var s' := Stepped(c, run, n);
    forall t | t in s'.tasks && s'.tasks[t].Handling?
      ensures LookedBefore(c, run, n + 1, t, s'.tasks[t].tx, s'.tasks[t].receipt)
    {
      ReceiptIsHeard(c, run, n, t);
    }
    forall t | t in s'.tasks && s'.tasks[t].Settling?
      ensures CheckedBefore(c, run, n + 1, t, s'.tasks[t].tx, s'.tasks[t].evidence)
    {
      ChainIsHeard(c, run, n, t);
    }
    forall j | j in s'.proofs ensures EvidenceFor(c, run, n + 1, j, s'.proofs[j]) {
      ProofIsHeard(c, run, n, j);
    }
  }

  lemma SteppedIsNext(c: nat, run: seq<Action>, n: nat)
    requires StepsAt(c, run, n)
    ensures Next(c, After(c, run, n), run[n]) == Stepped(c, run, n)
  {
    hide After, Advance;
  }

  lemma NextIsHeard(c: nat, run: seq<Action>, n: nat)
    requires n < |run| && Heard(c, run, n, After(c, run, n))
    ensures Heard(c, run, n + 1, Next(c, After(c, run, n), run[n]))
  {
    hide After, Next, Heard;
    if StepsAt(c, run, n) {
      StepIsHeard(c, run, n);
      SteppedIsNext(c, run, n);
    } else {
      HearingLasts(c, run, n, After(c, run, n));
      OthersHearNothing(c, run, n + 1, After(c, run, n), run[n]);
    }
  }

  lemma {:induction false} EverythingWasHeard(c: nat, run: seq<Action>, n: nat)
    requires n <= |run|
    ensures Heard(c, run, n, After(c, run, n))
  {
    if n > 0 {
      hide After, Next, Heard;
      EverythingWasHeard(c, run, n - 1);
      NextIsHeard(c, run, n - 1);
      AfterOne(c, run, n - 1);
    }
  }

  lemma OthersHearNothing(c: nat, run: seq<Action>, n: nat, s: Relay, act: Action)
    requires n <= |run| && Heard(c, run, n, s)
    requires act.Step? ==> act.task !in s.tasks || act.task.job >= |s.tables.jobs|
    ensures Heard(c, run, n, Next(c, s, act))
  {
    var s' := Next(c, s, act);
    assert s'.proofs == s.proofs;
    assert forall t | t in s'.tasks :: s'.tasks[t] == Starting || (t in s.tasks && s'.tasks[t] == s.tasks[t]);
  }

  /** A confirmed job had a successful receipt, in the block that was canonical at its height, under at
      least the configured number of confirmations. The receipt was the answer to a look-up of the very
      transaction signed for the job, the chain was read after it, and the job bears the receipt's hash. */
  lemma ConfirmedMeansConfirmed(c: nat, run: seq<Action>, j: JobId)
    requires IsRun(c, run) && j < |After(c, run, |run|).tables.jobs|
    requires After(c, run, |run|).tables.jobs[j].state == JobState.Confirmed
    ensures var s := After(c, run, |run|);
      && j in s.proofs && Proves(c, s.tables.jobs[j], s.proofs[j])
      && EvidenceFor(c, run, |run|, j, s.proofs[j])
  {
    hide After;
    RunsKeepInv(c, run, |run|);
    EverythingWasHeard(c, run, |run|);
  }

  /** The RPC answers a look-up with the receipt of the transaction asked for. */
  ghost predicate Echoes(c: nat, run: seq<Action>) {
    forall i, t, tx, receipt | 0 <= i < |run| && Looked(c, run, i, t, tx, receipt) :: receipt.hash == tx.hash
  }

  /** With such an RPC, a confirmed job bears the hash of the bytes that were signed for it, and so does
      the receipt that confirmed it. */
  lemma ConfirmedIsTheSignedTransaction(c: nat, run: seq<Action>, j: JobId)
    requires IsRun(c, run) && Echoes(c, run) && j < |After(c, run, |run|).tables.jobs|
    requires After(c, run, |run|).tables.jobs[j].state == JobState.Confirmed
    ensures var s := After(c, run, |run|);
      && j in s.proofs && s.tables.jobs[j].signedTransaction.Some?
      && s.proofs[j].receipt.hash == Keccak(s.tables.jobs[j].signedTransaction.value)
      && s.tables.jobs[j].transactionHash == Some(Keccak(s.tables.jobs[j].signedTransaction.value))
  {
    ConfirmedMeansConfirmed(c, run, j);
    hide After;
    var e := After(c, run, |run|).proofs[j];
    var t: TaskId, tx: Tx :| t.job == j && CheckedBefore(c, run, |run|, t, tx, e);
    var k :| 0 <= k < |run| && Checked(c, run, k, t, tx, e);
    var i :| 0 <= i < k && Looked(c, run, i, t, tx, e.receipt);
  }

  /** Two attempts at one job never run side by side. */
  lemma OneAttemptAtATime(c: nat, run: seq<Action>, t: TaskId, u: TaskId)
    requires IsRun(c, run) && t in After(c, run, |run|).tasks && u in After(c, run, |run|).tasks && t.job == u.job
    ensures t == u
  {
    RunsKeepInv(c, run, |run|);
    var s := After(c, run, |run|);
    assert TaskOk(s.tables, t, s.tasks[t]) && TaskOk(s.tables, u, s.tasks[u]);
  }
}
