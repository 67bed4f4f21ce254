/** What the deployment protocol guarantees over all its runs. */
module VaultTheorems {
  import opened Wrappers
  import opened VaultJobs
  import opened VaultProtocol
  import opened VaultSafety

  /** `s` is reached by a run from the empty store. */
  ghost predicate Reaches(actions: seq<Action>, s: System) {
    Run(Init(s.deployer, s.confirmations), actions) == Some(s)
  }

  lemma ReachedStatesAreSafe(actions: seq<Action>, s: System)
    requires Reaches(actions, s)
    ensures Inv(s)
  {
    RunKeepsInv(Init(s.deployer, s.confirmations), actions);
  }

  /** The ranges of all jobs that hold one are pairwise disjoint. */
  lemma RangesNeverOverlap(actions: seq<Action>, s: System, i: JobId, j: JobId)
    requires Reaches(actions, s) && i < |s.jobs| && j < |s.jobs| && i != j
    requires s.jobs[i].nonceStart.Some? && s.jobs[j].nonceStart.Some?
    ensures var a, b := s.jobs[i].nonceStart.value, s.jobs[j].nonceStart.value; a + 3 <= b || b + 3 <= a
  {
    ReachedStatesAreSafe(actions, s);
  }

  /** No two signed transactions that were ever persisted share a nonce: they are the same
      transaction of the same job. */
  lemma PersistedNoncesAreUnique(actions: seq<Action>, s: System, e: Entry, f: Entry, k: nat, m: nat)
    requires Reaches(actions, s)
    requires e in s.log && e.Stored? && k < |e.plan.transactions|
    requires f in s.log && f.Stored? && m < |f.plan.transactions|
    requires e.plan.transactions[k].serialized.nonce == f.plan.transactions[m].serialized.nonce
    ensures e == f && k == m
  {
    ReachedStatesAreSafe(actions, s);
    assert EntryBounded(s.jobs, s.ticks, e) && EntryBounded(s.jobs, s.ticks, f);
    assert JobOk(s.deployer, s.log, e.job, s.jobs[e.job]) && JobOk(s.deployer, s.log, f.job, s.jobs[f.job]);
    assert TxFor(e.plan.transactions[k], s.deployer, s.jobs[e.job].nonceStart.value + k);
    assert TxFor(f.plan.transactions[m], s.deployer, s.jobs[f.job].nonceStart.value + m);
    if e.job != f.job {
      RangesNeverOverlap(actions, s, e.job, f.job);
    }
  }

  lemma TicksSendOnce(log: seq<Entry>, confirmations: nat, i: nat, j: nat)
    requires History(log, confirmations) && i < j < |log| && log[i].Sent? && log[j].Sent?
    ensures log[i].tick != log[j].tick
  {
    assert Justified(log[..j], confirmations, log[j]);
    assert log[..j][i] == log[i];
  }

  /** Everything that ever left a worker: it belongs to a complete plan persisted before, the
      earlier transactions of that plan were seen successful, canonical and confirmed in the same
      tick, and the tick sent nothing else. */
  lemma BroadcastDiscipline(actions: seq<Action>, s: System, i: nat)
    requires Reaches(actions, s) && i < |s.log| && s.log[i].Sent?
    ensures var e := s.log[i];
      && (exists plan :: Stored(e.job, plan) in s.log[..i] && |plan.transactions| == 3 && e.k < 3
                         && plan.transactions[e.k].serialized == e.raw)
      && (forall m :: 0 <= m < e.k ==> SawConfirmed(s.log[..i], s.confirmations, e.tick, e.job, m))
      && (forall j :: 0 <= j < |s.log| && s.log[j].Sent? && s.log[j].tick == e.tick ==> j == i)
  {
    ReachedStatesAreSafe(actions, s);
    var e := s.log[i];
    assert Justified(s.log[..i], s.confirmations, e);
    var plan :| Stored(e.job, plan) in s.log[..i] && e.k < |plan.transactions| && plan.transactions[e.k].serialized == e.raw;
    assert EntryBounded(s.jobs, s.ticks, Stored(e.job, plan));
    assert JobOk(s.deployer, s.log, e.job, s.jobs[e.job]);
    forall j | 0 <= j < |s.log| && s.log[j].Sent? && j != i ensures s.log[j].tick != e.tick {
      TicksSendOnce(s.log, s.confirmations, if i < j then i else j, if i < j then j else i);
    }
  }

  /** A vault that awaits its sponsor, or is ready, had all three transactions confirmed in one tick. */
  lemma AwaitingMeansDeployed(actions: seq<Action>, s: System, id: JobId)
    requires Reaches(actions, s) && id < |s.jobs|
    requires s.jobs[id].state.AwaitingSponsorBind? || s.jobs[id].state.Ready?
    ensures exists tick :: SawConfirmedBelow(s.log, s.confirmations, tick, id, 3)
  {
    ReachedStatesAreSafe(actions, s);
    assert JobOk(s.deployer, s.log, id, s.jobs[id]);
    var tick :| Bound(tick, id) in s.log;
    var i :| 0 <= i < |s.log| && s.log[i] == Bound(tick, id);
    assert Justified(s.log[..i], s.confirmations, s.log[i]);
    forall m | 0 <= m < 3 ensures SawConfirmed(s.log, s.confirmations, tick, id, m) {
      assert SawConfirmed(s.log[..i], s.confirmations, tick, id, m);
      var answer :| Observed(tick, id, m, answer) in s.log[..i] && Confirmed(answer, s.confirmations);
      assert Observed(tick, id, m, answer) in s.log;
    }
    assert SawConfirmedBelow(s.log, s.confirmations, tick, id, 3);
  }

  /** At most one active job holds a lock or a range, at most one worker is inside a tick, an
      inactive job keeps a range only with its plan, and failing ticks are counted and bounded. */
  lemma QueueDiscipline(actions: seq<Action>, s: System)
    requires Reaches(actions, s)
    ensures forall i, j :: 0 <= i < |s.jobs| && 0 <= j < |s.jobs| && Held(s.jobs[i]) && Held(s.jobs[j]) ==> i == j
    ensures forall v, w :: v in s.workers && w in s.workers ==> v == w
    ensures forall i :: 0 <= i < |s.jobs| && !Active(s.jobs[i].state) && s.jobs[i].nonceStart.Some? ==> s.jobs[i].plan.Some?
    ensures forall i :: 0 <= i < |s.jobs| ==> s.jobs[i].attempts == CountFailures(s.log, i) <= 20
    ensures forall i :: 0 <= i < |s.jobs| && Active(s.jobs[i].state) ==> s.jobs[i].attempts < 20
  {
    ReachedStatesAreSafe(actions, s);
    forall i | 0 <= i < |s.jobs| ensures JobOk(s.deployer, s.log, i, s.jobs[i]) {
    }
    forall v, w | v in s.workers && w in s.workers ensures v == w {
      OneBusyWorker(s, v, w);
    }
  }

  /** Nothing stands in the way of this job: it is due, its agent is eligible, and no other job is held. */
  ghost predicate MayGo(jobs: seq<VaultJob>, id: JobId, now: int, eligible: set<AgentId>) {
    && id < |jobs| && Active(jobs[id].state)
    && jobs[id].availableAt <= now && jobs[id].agent in eligible
    && forall i :: 0 <= i < |jobs| && Held(jobs[i]) ==> i == id
  }

  ghost predicate NothingLocked(jobs: seq<VaultJob>) {
    forall i :: 0 <= i < |jobs| && Active(jobs[i].state) ==> jobs[i].lockedBy.None?
  }

  /** In every reached state a claim takes a job exactly when no active job is locked and the job that holds
      the range, or any active job if none does, is due and its agent eligible; it takes such a job, and
      whoever claims then, while nobody else is inside a tick, starts a tick on it. */
  lemma NoJobIsStranded(actions: seq<Action>, s: System, now: int, eligible: set<AgentId>)
    requires Reaches(actions, s)
    ensures var ids := ClaimIds(s.jobs, 1, now, eligible);
      && (ids != [] <==> (NothingLocked(s.jobs) && exists id: JobId :: MayGo(s.jobs, id, now, eligible)))
      && (ids != [] ==> ids == [ids[0]] && MayGo(s.jobs, ids[0], now, eligible) && s.workers == map[])
      && (ids != [] ==> forall w :: Next(s, Claim(w, now, eligible)).Some?
                                    && w in Next(s, Claim(w, now, eligible)).value.workers)
  {
    ReachedStatesAreSafe(actions, s);
    hide Run;
    var ids := ClaimIds(s.jobs, 1, now, eligible);
    if ids != [] {
      ClaimFindsNobodyBusy(s, now, eligible);
      assert ids[0] in ids;
      assert MayGo(s.jobs, ids[0], now, eligible);
      forall i | 0 <= i < |s.jobs| && Active(s.jobs[i].state) ensures s.jobs[i].lockedBy.None? {
        if s.jobs[i].lockedBy.Some? {
          assert Held(s.jobs[i]);
        }
      }
    }
    if NothingLocked(s.jobs) && exists id: JobId :: MayGo(s.jobs, id, now, eligible) {
      var id: JobId :| MayGo(s.jobs, id, now, eligible);
      assert JobOk(s.deployer, s.log, id, s.jobs[id]);
      var blocker := BlockerUpTo(s.jobs, |s.jobs|);
      assert Claimable(s.jobs[id], id, blocker, now, eligible);
      assert id in ClaimableUpTo(s.jobs, |s.jobs|, blocker, now, eligible);
    }
  }

  /** An active job is locked and nobody is inside a tick. */
  ghost predicate Stuck(s: System, id: JobId) {
    s.workers == map[] && id < |s.jobs| && Active(s.jobs[id].state) && s.jobs[id].lockedBy.Some?
  }

  lemma StuckClaimsNothing(s: System, id: JobId, now: int, eligible: set<AgentId>)
    requires Inv(s) && Stuck(s, id)
    ensures ClaimIds(s.jobs, 1, now, eligible) == [] && s.workers == map[]
  {
    var ids := ClaimIds(s.jobs, 1, now, eligible);
    assert Held(s.jobs[id]);
    if ids != [] {
      ClaimFindsNobodyBusy(s, now, eligible);
    }
  }

  lemma StuckStays(s: System, id: JobId, a: Action)
    requires Inv(s) && Stuck(s, id) && Next(s, a).Some?
    ensures Stuck(Next(s, a).value, id)
  {
    if a.Claim? {
      StuckClaimsNothing(s, id, a.now, a.eligible);
      assert Lock(s.jobs, [], a.w) == s.jobs;
    }
  }

  lemma {:induction false} StuckForever(s: System, id: JobId, rest: seq<Action>)
    requires Inv(s) && Stuck(s, id) && Run(s, rest).Some?
    ensures Inv(Run(s, rest).value) && Stuck(Run(s, rest).value, id)
    decreases |rest|
  {
    if rest != [] {
      hide Next, Inv, Stuck;
      var front := rest[..|rest| - 1];
      StuckForever(s, id, front);
      StuckStays(Run(s, front).value, id, rest[|rest| - 1]);
      NextKeepsInv(Run(s, front).value, rest[|rest| - 1]);
    }
  }

  lemma CrashSticks(s: System, w: WorkerId)
    requires Inv(s) && w in s.workers
    ensures Next(s, Crash(w)).Some? && Inv(Next(s, Crash(w)).value)
    ensures Stuck(Next(s, Crash(w)).value, s.workers[w].l.job)
  {
    NextKeepsInv(s, Crash(w));
    hide Inv;
    CrashLeavesALock(s, w);
  }

  lemma CrashLeavesALock(s: System, w: WorkerId)
    requires Inv(s) && w in s.workers
    ensures Stuck(Next(s, Crash(w)).value, s.workers[w].l.job)
  {
    assert WorkerOk(s, w, s.workers[w]);
    OnlyKey(s, w);
  }

  /** Locks do not expire: after a worker crashes inside a tick, every claim in every continuation comes
      back empty. */
  lemma CrashStopsTheQueue(actions: seq<Action>, s: System, w: WorkerId, rest: seq<Action>, t: System, now: int,
                           eligible: set<AgentId>)
    requires Reaches(actions, s) && w in s.workers
    requires Run(Next(s, Crash(w)).value, rest) == Some(t)
    ensures ClaimIds(t.jobs, 1, now, eligible) == [] && t.workers == map[]
  {
    hide Next, Inv, Run, Stuck, ClaimIds;
    ReachedStatesAreSafe(actions, s);
    CrashSticks(s, w);
    StuckForever(Next(s, Crash(w)).value, s.workers[w].l.job, rest);
    StuckClaimsNothing(t, s.workers[w].l.job, now, eligible);
  }

  lemma {:induction false} RunAppends(s: System, front: seq<Action>, rest: seq<Action>)
    requires Run(s, front + rest).Some?
    ensures Run(s, front).Some? && Run(Run(s, front).value, rest) == Run(s, front + rest)
    decreases |rest|
  {
    hide Next;
    if rest == [] {
      assert front + rest == front;
    } else {
      var shorter := rest[..|rest| - 1];
      assert (front + rest)[..|front + rest| - 1] == front + shorter;
      RunAppends(s, front, shorter);
    }
  }

  lemma RunOne(s: System, front: seq<Action>, a: Action)
    requires Run(s, front).Some?
    ensures Run(s, front + [a]) == Next(Run(s, front).value, a)
  {
    hide Next;
    assert (front + [a])[..|front|] == front;
  }

  function Request(agent: AgentId, w: WorkerId): seq<Action> {
    [Create(agent, 0)] + [Claim(w, 0, {agent})]
  }

  /** The first job of all is created and claimed. */
  lemma RequestIsClaimed(deployer: Address, confirmations: nat, agent: AgentId, w: WorkerId)
    ensures var s := Run(Init(deployer, confirmations), Request(agent, w));
      s.Some? && Reaches(Request(agent, w), s.value) && w in s.value.workers
  {
    var init := Init(deployer, confirmations);
    var one := init.(jobs := [NewJob(agent, 0)]);
    assert Run(init, []) == Some(init);
    RunOne(init, [], Create(agent, 0));
    assert [] + [Create(agent, 0)] == [Create(agent, 0)];
    RunOne(init, [Create(agent, 0)], Claim(w, 0, {agent}));
    hide Run;
    assert Next(init, Create(agent, 0)).value.jobs == one.jobs;
    assert Run(init, [Create(agent, 0)]) == Some(one);
    assert BlockerUpTo(one.jobs, 1) == None;
    assert ClaimableUpTo(one.jobs, 0, None, 0, {agent}) == [];
    assert ClaimableUpTo(one.jobs, 1, None, 0, {agent}) == [0];
    assert ClaimIds(one.jobs, 1, 0, {agent}) == [0];
  }

  lemma CrashIsPossible(s: System, w: WorkerId)
    requires w in s.workers
    ensures Next(s, Crash(w)).Some?
  {
  }

  /** Three steps are enough: once the first request was claimed and its worker crashed, no claim in any
      continuation returns a job. */
  lemma OneCrashIsEnough(deployer: Address, confirmations: nat, agent: AgentId, w: WorkerId, rest: seq<Action>,
                         now: int, eligible: set<AgentId>)
    ensures var three := Request(agent, w) + [Crash(w)];
      && Run(Init(deployer, confirmations), three).Some?
      && var t := Run(Init(deployer, confirmations), three + rest);
      && (t.Some? ==> ClaimIds(t.value.jobs, 1, now, eligible) == [] && t.value.workers == map[])
  {
    var init := Init(deployer, confirmations);
    RequestIsClaimed(deployer, confirmations, agent, w);
    var s := Run(init, Request(agent, w)).value;
    var three := Request(agent, w) + [Crash(w)];
    hide Run, ClaimIds, Request, Init, Reaches, Next;
    RunOne(init, Request(agent, w), Crash(w));
    CrashIsPossible(s, w);
    if Run(init, three + rest).Some? {
      RunAppends(init, three, rest);
      CrashStopsTheQueue(Request(agent, w), s, w, rest, Run(init, three + rest).value, now, eligible);
    }
  }

  /** The guarded activation never touches two vaults: CREATE addresses follow the nonces. */
  lemma ActivationIsUnambiguous(actions: seq<Action>, s: System, i: JobId, j: JobId, agent: AgentId,
                                controller: Address, fund: Address)
    requires Reaches(actions, s) && i < |s.jobs| && j < |s.jobs|
    requires AwaitsBinding(s.jobs[i], agent, controller, fund) && AwaitsBinding(s.jobs[j], agent, controller, fund)
    ensures i == j
  {
    ReachedStatesAreSafe(actions, s);
    assert JobOk(s.deployer, s.log, i, s.jobs[i]) && JobOk(s.deployer, s.log, j, s.jobs[j]);
    if i != j {
      RangesNeverOverlap(actions, s, i, j);
    }
  }

  /** The claim limit of one is what keeps ranges apart: claimed together, two fresh jobs reserve the
      same nonces. */
  lemma ClaimingTwoWouldOverlap(deployer: Address, agent: AgentId, observed: nat)
    ensures var queue := [NewJob(agent, 0), NewJob(agent, 0)];
      var ids := ClaimIds(queue, 2, 0, {agent});
      && ids == [0, 1]
      && var first := Reserve(Lock(queue, ids, 0), 0, deployer, observed);
      && first.Ok?
      && Reserve(first.value.1, 1, deployer, observed).Ok?
      && Reserve(first.value.1, 1, deployer, observed).value.0 == first.value.0
  {
    var queue := [NewJob(agent, 0), NewJob(agent, 0)];
    assert BlockerUpTo(queue, 2) == None;
    assert ClaimableUpTo(queue, 0, None, 0, {agent}) == [];
    assert ClaimableUpTo(queue, 1, None, 0, {agent}) == [0];
    assert ClaimableUpTo(queue, 2, None, 0, {agent}) == [0, 1];
    var locked := Lock(queue, [0, 1], 0);
    assert HighestNonce(locked, 0, deployer, observed) == observed;
    assert HighestNonce(locked, 1, deployer, observed) == observed;
    var held := Reserve(locked, 0, deployer, observed).value.1;
    assert HighestNonce(held, 0, deployer, observed) == observed;
    assert HighestNonce(held, 1, deployer, observed) == observed;
  }
}
