/** Two runs of the relayer: one in which a job ends without its intent, after nineteen temporary failures
    and a reorganisation, and one in which a job is submitted and then left alone. */
module RelayRuns {
  import opened Wrappers
  import opened ExecutionStore
  import opened RelayProtocol
  import opened RelayQueue

  const INTENT := Intent(Key(0, 0, 0), 0, 0, 0, 0, IntentState.Signed, None, None, None)
  const READING := ChainReading(true, true, false, 0, 0, 0, 0)
  const RECEIPT := Receipt(Keccak(7), true, 5, 11)

  function Attempt(k: nat): TaskId {
    TaskId(0, k)
  }

  /** Accept one intent, then fail `k` attempts at it for want of an RPC. */
  function Failures(k: nat): seq<Action> {
    if k == 0 then [Save(0, INTENT), Enqueue(0, 0)]
    else Failures(k - 1) + [ClaimSome(0, 1), Step(Attempt(k), Threw("RPC_TEMPORARY_FAILURE", true), 0), Step(Attempt(k), Done, 0)]
  }

  /** The attempt after `k` failures: sign, persist, broadcast, mark as submitted. */
  function Sending(k: nat): seq<Action> {
    var t := Attempt(k + 1);
    [ClaimSome(0, 1), Step(t, Read(0, READING), 0), Step(t, Done, 0), Step(t, Answer.Signed(Prepared(7, 0)), 0),
     Step(t, Done, 0), Step(t, Found(None), 0), Step(t, Replied(Accepted(Keccak(7))), 0), Step(t, Done, 0)]
  }

  /** There is a receipt, but its block is gone. */
  function Reorganisation(k: nat): seq<Action> {
    var t := Attempt(k + 1);
    [Step(t, Found(Some(RECEIPT)), 0), Step(t, Blocks(9, 12), 0), Step(t, Done, 0)]
  }

  /** There is no receipt yet. */
  function NoReceipt(k: nat): seq<Action> {
    [Step(Attempt(k + 1), Found(None), 0)]
  }

  function QueuedTables(k: nat): Tables {
    Tables(map[0 := INTENT.(state := IntentState.Queued)], [Job(0, JobState.Queued, k, 0, None, None, None)])
  }

  function Waiting(k: nat): Relay {
    Relay(QueuedTables(k), map[], [], [], map[])
  }

  function Claimed(k: nat): Relay {
    Waiting(k).(tables := QueuedTables(k).(jobs := [Job(0, Processing, k + 1, 0, None, None, None)]),
                tasks := map[Attempt(k + 1) := Starting])
  }

  /** What a list of actions does to a state. */
  function Drive(c: nat, s: Relay, acts: seq<Action>): Relay {
    if acts == [] then s else Next(c, Drive(c, s, acts[..|acts| - 1]), acts[|acts| - 1])
  }

  lemma {:induction false} RunDrives(c: nat, run: seq<Action>, acts: seq<Action>)
    ensures After(c, run + acts, |run| + |acts|) == Drive(c, After(c, run, |run|), acts)
  {
    hide Next;
    if acts == [] {
      assert run + acts == run;
    } else {
      var front, last := acts[..|acts| - 1], acts[|acts| - 1];
      RunDrives(c, run, front);
      assert run + acts == (run + front) + [last];
      AfterIgnoresTheRest(c, run + front, [last], |run + front|);
    }
  }

  lemma DriveMore(c: nat, s: Relay, acts: seq<Action>, a: Action)
    ensures Drive(c, s, acts + [a]) == Next(c, Drive(c, s, acts), a)
  {
    hide Next;
    assert (acts + [a])[..|acts|] == acts;
  }

  lemma ClaimingTheOne(c: nat, k: nat)
    ensures Next(c, Waiting(k), ClaimSome(0, 1)) == Claimed(k)
  {
    var jobs := QueuedTables(k).jobs;
    assert Earliest(jobs, 0, 0) == None;
    assert Earliest(jobs, 0, 1) == Some(0);
    assert ClaimJobs(jobs, 0, 0) == Claim(jobs, []);
    assert ClaimJobs(jobs, 0, 1) == Claim([Taken(jobs[0])], [0]);
    assert Next(c, Waiting(k), ClaimSome(0, 1)).tasks == map[Attempt(k + 1) := Starting];
  }

  lemma OneFailure(c: nat, k: nat)
    requires k < 19
    ensures Drive(c, Waiting(k), Failures(k + 1)[|Failures(k)|..]) == Waiting(k + 1)
  {
    var a, b, d := ClaimSome(0, 1), Step(Attempt(k + 1), Threw("RPC_TEMPORARY_FAILURE", true), 0), Step(Attempt(k + 1), Done, 0);
    assert Failures(k + 1)[|Failures(k)|..] == [] + [a] + [b] + [d];
    ClaimingTheOne(c, k);
    DriveMore(c, Waiting(k), [], a);
    DriveMore(c, Waiting(k), [a], b);
    DriveMore(c, Waiting(k), [a] + [b], d);
    Throwing(c, k);
    Requeueing(c, k);
    assert [] + [a] == [a];
  }

  function Thrown(k: nat): Relay {
    Claimed(k).(tasks := map[Attempt(k + 1) := Failing("RPC_TEMPORARY_FAILURE", Some(0))])
  }

  lemma Throwing(c: nat, k: nat)
    requires k < 19
    ensures Next(c, Claimed(k), Step(Attempt(k + 1), Threw("RPC_TEMPORARY_FAILURE", true), 0)) == Thrown(k)
  {
  }

  lemma Requeueing(c: nat, k: nat)
    requires k < 19
    ensures Next(c, Thrown(k), Step(Attempt(k + 1), Done, 0)) == Waiting(k + 1)
  {
    var s := Next(c, Thrown(k), Step(Attempt(k + 1), Done, 0));
    assert s.tables.jobs == QueuedTables(k + 1).jobs;
    assert s.tables.intents == QueuedTables(k + 1).intents;
    assert s.tasks == map[];
  }

  lemma Starting0(c: nat)
    ensures After(c, Failures(0), 2) == Waiting(0)
  {
    var run := Failures(0);
    AfterOne(c, run, 0);
    AfterOne(c, run, 1);
    var s1 := After(c, run, 1);
    assert s1.tables == Tables(map[0 := INTENT], []);
    assert EnqueueIntent(s1.tables, 0, 0).jobs == QueuedTables(0).jobs;
    assert EnqueueIntent(s1.tables, 0, 0).intents == QueuedTables(0).intents;
  }

  lemma {:induction false} FailuresLeaveItWaiting(c: nat, k: nat)
    requires k <= 19
    ensures After(c, Failures(k), |Failures(k)|) == Waiting(k)
  {
    if k == 0 {
      Starting0(c);
    } else {
      hide After, Drive, Waiting;
      FailuresLeaveItWaiting(c, k - 1);
      OneFailure(c, k - 1);
      var more := Failures(k)[|Failures(k - 1)|..];
      assert Failures(k) == Failures(k - 1) + more;
      RunDrives(c, Failures(k - 1), more);
    }
  }

  // ---------- An attempt that sends ----------

  const TX := Tx(Keccak(7), 7)
  const SENT := RelayProtocol.Sent(0, 7)

  /** The attempt under way, before anything is signed. */
  function Unsigned(k: nat, pc: Pc): Relay {
    Claimed(k).(tasks := map[Attempt(k + 1) := pc])
  }

  function SignedTables(k: nat): Tables {
    QueuedTables(k).(jobs := [Job(0, JobState.Submitted, k + 1, 0, Some(Keccak(7)), Some(7), Some(0))])
  }

  /** And after the bytes are persisted. */
  function Persisted(k: nat, pc: Pc): Relay {
    Relay(SignedTables(k), map[Attempt(k + 1) := pc], [Entry(0, Key(0, 0, 0), Prepared(7, 0), READING)], [], map[])
  }

  /** And after they went out and were marked as submitted. */
  function Out(k: nat, pc: Pc): Relay {
    Persisted(k, pc).(broadcasts := [SENT],
                      tables := SignedTables(k).(intents := map[0 := SubmittedIntent(INTENT, Keccak(7))]))
  }

  lemma UpToSigning(c: nat, k: nat)
    ensures Claimed(k) == Unsigned(k, Starting)
    ensures Next(c, Unsigned(k, Starting), Step(Attempt(k + 1), Read(0, READING), 0)) == Unsigned(k, Simulating(READING))
    ensures Next(c, Unsigned(k, Simulating(READING)), Step(Attempt(k + 1), Done, 0)) == Unsigned(k, Preparing(READING))
    ensures Next(c, Unsigned(k, Preparing(READING)), Step(Attempt(k + 1), Answer.Signed(Prepared(7, 0)), 0)) ==
      Unsigned(k, Persisting(READING, Prepared(7, 0)))
  {
  }

  lemma PersistingIt(c: nat, k: nat)
    ensures Next(c, Unsigned(k, Persisting(READING, Prepared(7, 0))), Step(Attempt(k + 1), Done, 0)) ==
      Persisted(k, Looking(TX))
  {
    var s := Next(c, Unsigned(k, Persisting(READING, Prepared(7, 0))), Step(Attempt(k + 1), Done, 0));
    assert s.tables.jobs == SignedTables(k).jobs;
  }

  lemma UpToTheNetwork(c: nat, k: nat)
    ensures Next(c, Persisted(k, Looking(TX)), Step(Attempt(k + 1), Found(None), 0)) == Persisted(k, Broadcasting(TX))
    ensures Next(c, Persisted(k, Broadcasting(TX)), Step(Attempt(k + 1), Replied(Accepted(Keccak(7))), 0)) ==
      Persisted(k, Marking(TX)).(broadcasts := [SENT])
  {
  }

  lemma MarkingIt(c: nat, k: nat)
    ensures Next(c, Persisted(k, Marking(TX)).(broadcasts := [SENT]), Step(Attempt(k + 1), Done, 0)) ==
      Out(k, LookingAgain(TX))
  {
    var s := Next(c, Persisted(k, Marking(TX)).(broadcasts := [SENT]), Step(Attempt(k + 1), Done, 0));
    assert s.tables.jobs == SignedTables(k).jobs;
  }

  lemma SigningDrives(c: nat, k: nat)
    ensures Drive(c, Waiting(k), Sending(k)[..4]) == Unsigned(k, Persisting(READING, Prepared(7, 0)))
  {
    hide Next, Waiting, Claimed, Unsigned;
    var a := Sending(k);
    ClaimingTheOne(c, k);
    UpToSigning(c, k);
    assert a[..1] == [] + [a[0]] && a[..2] == a[..1] + [a[1]] && a[..3] == a[..2] + [a[2]] && a[..4] == a[..3] + [a[3]];
    DriveMore(c, Waiting(k), [], a[0]);
    DriveMore(c, Waiting(k), a[..1], a[1]);
    DriveMore(c, Waiting(k), a[..2], a[2]);
    DriveMore(c, Waiting(k), a[..3], a[3]);
  }

  lemma SendingDrives(c: nat, k: nat)
    ensures Drive(c, Waiting(k), Sending(k)) == Out(k, LookingAgain(TX))
  {
    hide Next, Drive, Waiting, Unsigned, Persisted, Out;
    var a := Sending(k);
    SigningDrives(c, k);
    PersistingIt(c, k);
    UpToTheNetwork(c, k);
    MarkingIt(c, k);
    assert a[..5] == a[..4] + [a[4]] && a[..6] == a[..5] + [a[5]] && a[..7] == a[..6] + [a[6]] && a == a[..7] + [a[7]];
    DriveMore(c, Waiting(k), a[..4], a[4]);
    DriveMore(c, Waiting(k), a[..5], a[5]);
    DriveMore(c, Waiting(k), a[..6], a[6]);
    DriveMore(c, Waiting(k), a[..7], a[7]);
  }

  predicate SavesNothing(acts: seq<Action>) {
    forall i :: 0 <= i < |acts| ==> !acts[i].Save?
  }

  lemma SendingSavesNothing(k: nat)
    ensures SavesNothing(Sending(k)) && SavesNothing(Reorganisation(k)) && SavesNothing(NoReceipt(k))
  {
  }

  lemma {:induction false} FailuresSaveOnce(k: nat)
    requires k <= 19
    ensures forall i | 1 <= i < |Failures(k)| :: !Failures(k)[i].Save?
    ensures |Failures(k)| >= 2 && Failures(k)[0] == Save(0, INTENT)
  {
    if k > 0 {
      FailuresSaveOnce(k - 1);
    }
  }

  lemma SavesOnceIsARun(c: nat, k: nat, rest: seq<Action>)
    requires k <= 19 && SavesNothing(rest)
    ensures IsRun(c, Failures(k) + Sending(k) + rest)
  {
    var run := Failures(k) + Sending(k) + rest;
    FailuresSaveOnce(k);
    SendingSavesNothing(k);
    assert After(c, run, 0).tables.intents == map[];
    hide After, Next, Failures, Sending;
    forall i | 0 <= i < |run| && run[i].Save? ensures run[i].id !in After(c, run, i).tables.intents {
      assert i == 0;
    }
  }

  /** After `k` failures the next attempt gets as far as looking for its receipt. */
  lemma SentAfterFailures(c: nat, k: nat)
    requires k <= 19
    ensures var run := Failures(k) + Sending(k); After(c, run, |run|) == Out(k, LookingAgain(TX))
  {
    hide After, Next, Drive, Waiting, Failures, Sending, Out;
    FailuresLeaveItWaiting(c, k);
    RunDrives(c, Failures(k), Sending(k));
    SendingDrives(c, k);
  }

  // ---------- Stranded by a reorganisation ----------

  function Seen(): Evidence {
    Evidence(Keccak(7), RECEIPT, 9, 12)
  }

  /** The job is a dead letter, and its intent still counts as submitted. */
  ghost predicate Stranded(s: Relay) {
    && |s.tables.jobs| == 1 && s.tables.jobs[0].intentId == 0 && s.tables.jobs[0].state == DeadLetter
    && s.tables.jobs[0].attempts == MAX_ATTEMPTS && s.broadcasts == [SENT]
    && 0 in s.tables.intents && s.tables.intents[0].state == IntentState.Submitted
  }

  lemma Reorganised(c: nat)
    ensures Stranded(Drive(c, Out(19, LookingAgain(TX)), Reorganisation(19)))
  {
    var s, a := Out(19, LookingAgain(TX)), Reorganisation(19);
    assert Next(c, s, a[0]) == Out(19, Handling(TX, RECEIPT));
    assert Next(c, Out(19, Handling(TX, RECEIPT)), a[1]) == Out(19, Settling(TX, Seen()));
    assert Stranded(Next(c, Out(19, Settling(TX, Seen())), a[2]));
    hide Next, Out, Stranded;
    assert a[..1] == [] + [a[0]] && a[..2] == a[..1] + [a[1]] && a == a[..2] + [a[2]];
    DriveMore(c, s, [], a[0]);
    DriveMore(c, s, a[..1], a[1]);
    DriveMore(c, s, a[..2], a[2]);
  }

  /** A run of the relayer, with any number of required confirmations, at whose end the job is a dead letter
      and its intent still counts as submitted. */
  lemma ReorganisationStrandsTheIntent(c: nat)
    ensures var run := Failures(19) + Sending(19) + Reorganisation(19);
      IsRun(c, run) && Stranded(After(c, run, |run|))
  {
    hide After, Next, Drive, Failures, Sending, Reorganisation, Out, Stranded, IsRun, SavesNothing;
    SendingSavesNothing(19);
    SavesOnceIsARun(c, 19, Reorganisation(19));
    SentAfterFailures(c, 19);
    RunDrives(c, Failures(19) + Sending(19), Reorganisation(19));
    Reorganised(c);
  }

  // ---------- Submitted and left alone ----------

  lemma NothingFound(c: nat, k: nat)
    ensures Drive(c, Out(k, LookingAgain(TX)), NoReceipt(k)) == Out(k, LookingAgain(TX)).(tasks := map[])
  {
    var s, a := Out(k, LookingAgain(TX)), NoReceipt(k);
    assert Next(c, s, a[0]).tasks == map[];
    assert a == [] + [a[0]];
    DriveMore(c, s, [], a[0]);
  }

  /** A run at whose end the first attempt has sent its transaction and found no receipt. From there on the
      job stays as it is, whatever follows. */
  lemma NoReceiptLeavesItSubmitted(c: nat, more: seq<Action>)
    requires IsRun(c, Failures(0) + Sending(0) + NoReceipt(0) + more)
    ensures IsRun(c, Failures(0) + Sending(0) + NoReceipt(0))
    ensures var run := Failures(0) + Sending(0) + NoReceipt(0) + more;
      var s := After(c, run, |run|);
      && |s.tables.jobs| > 0 && s.tables.jobs[0] == SignedTables(0).jobs[0] && Idle(s, 0)
  {
    var run := Failures(0) + Sending(0) + NoReceipt(0);
    assert Idle(Out(0, LookingAgain(TX)).(tasks := map[]), 0);
    assert Out(0, LookingAgain(TX)).tables.jobs == SignedTables(0).jobs;
    hide After, Next, Drive, Failures, Sending, NoReceipt, Out, Idle, IsRun, SavesNothing, SignedTables;
    SendingSavesNothing(0);
    SavesOnceIsARun(c, 0, NoReceipt(0));
    SentAfterFailures(c, 0);
    RunDrives(c, Failures(0) + Sending(0), NoReceipt(0));
    NothingFound(c, 0);
    AfterIgnoresTheRest(c, run, more, |run|);
    IdleJobsAreNeverTakenUp(c, run + more, |run|, |run + more|, 0);
  }
}
