/** The gateway's quote route and `IntentService.accept` against the control-plane store. */
module IntentService {
  import opened Wrappers
  import E = ExecutionStore
  import opened QuotePipeline

  type QuoteId = nat

  datatype Stored = Stored(request: Request, plan: Plan)

  function KeyOf(plan: Plan, i: TradeIntent): E.Key {
    E.Key(plan.chainId, plan.controller, i.nonce)
  }

  function RecordOf(plan: Plan, i: TradeIntent): E.Intent {
    E.Intent(KeyOf(plan, i), i.agentId, plan.fund, i.policyHash, i.deadline, E.IntentState.Signed, None, None, None)
  }

  class IntentService {
    const store: E.ExecutionStore
    var plans: map<QuoteId, Stored>

    /** Every stored plan came out of the pipeline; controller nonces are unique, and every job belongs to
        an intent of its own. */
    ghost predicate Valid()
      reads this, store, store.jobs
    {
      && store.Valid()
      && (forall id | id in plans :: Made(plans[id].request, plans[id].plan))
      && E.KeysUnique(store.intents)
      && E.OneJobPerIntent(store.JobValues())
      && (forall j | 0 <= j < |store.jobs| :: store.jobs[j].intentId in store.intents)
    }

    constructor ()
      ensures Valid() && fresh(store) && plans == map[]
    {
      store := new E.ExecutionStore();
      plans := map[];
    }

    /** The quote route stores a plan only together with a draft. */
    method Quote(id: QuoteId, o: Options, p: Profile, c: Controller, r: Request, q: QuoteAnswer, s: SwapAnswer,
                 plannedMs: nat, draftedMs: nat) returns (result: Result<(Plan, Draft), string>)
      requires Valid()
      modifies this
      ensures Valid()
      ensures result.Ok? ==>
        && CreateExecutionPlan(o, p, c, r, q, s, plannedMs) == Ok(result.value.0)
        && BuildIntentDraft(p, c, r, result.value.0, draftedMs) == Ok(result.value.1)
        && plans == old(plans)[id := Stored(r, result.value.0)]
      ensures result.Err? ==> plans == old(plans)
      ensures result.Ok? <==>
        CreateExecutionPlan(o, p, c, r, q, s, plannedMs).Ok?
        && BuildIntentDraft(p, c, r, CreateExecutionPlan(o, p, c, r, q, s, plannedMs).value, draftedMs).Ok?
    {
      var plan := CreateExecutionPlan(o, p, c, r, q, s, plannedMs);
      if plan.Err? {
        return Err(plan.error);
      }
      var draft := BuildIntentDraft(p, c, r, plan.value, draftedMs);
      if draft.Err? {
        return Err(draft.error);
      }
      assert Made(r, plan.value);
      plans := plans[id := Stored(r, plan.value)];
      result := Ok((plan.value, draft.value));
    }

    /** Accepting saves the intent and queues its one job; a refusal changes nothing. What is accepted pays
        at least the quote less the slippage, runs out no later than the plan, and is the only intent for
        its controller nonce. */
    method Accept(id: E.IntentId, session: Session, quoteId: QuoteId, i: TradeIntent, profile: Option<Profile>,
                  chain: ChainState, firstMs: nat, secondMs: nat, now: nat, goodSignature: (Address, TypedData) -> bool)
      returns (refusal: Option<string>)
      requires Valid() && id !in store.intents
      modifies store
      ensures Valid() && plans == old(plans)
      ensures refusal.Some? ==> store.Contents() == old(store.Contents())
      ensures refusal.None? ==>
        && quoteId in plans
        && var (r, plan) := (plans[quoteId].request, plans[quoteId].plan);
        && plan.quotedAmountOut * (BPS - r.maxSlippageBps) / BPS <= i.minAmountOut
        && i.deadline * 1_000 <= plan.expiresAtMs
        && store.intents == old(store.intents)[id := RecordOf(plan, i).(state := E.IntentState.Queued)]
        && store.JobValues() == old(store.JobValues()) + [E.Job(id, E.JobState.Queued, 0, now, None, None, None)]
      ensures refusal == Some("NONCE_ALREADY_QUEUED") ==>
        quoteId in plans && E.Duplicates(store.intents, KeyOf(plans[quoteId].plan, i))
    {
      if quoteId !in plans {
        return Some("UNKNOWN_QUOTE");
      }
      var r, plan := plans[quoteId].request, plans[quoteId].plan;
      refusal := AcceptRefusal(session, r, plan, i, profile, chain, firstMs, secondMs, goodSignature);
      if refusal.Some? {
        return;
      }
      AcceptedIntentsAreBounded(session, r, plan, i, profile, chain, firstMs, secondMs, goodSignature);
      refusal := SaveAndEnqueue(id, plan, i, now);
    }

    method SaveAndEnqueue(id: E.IntentId, plan: Plan, i: TradeIntent, now: nat) returns (refusal: Option<string>)
      requires Valid() && id !in store.intents
      modifies store
      ensures Valid() && plans == old(plans)
      ensures refusal == if E.Duplicates(old(store.intents), KeyOf(plan, i)) then Some("NONCE_ALREADY_QUEUED") else None
      ensures refusal.Some? ==> store.Contents() == old(store.Contents())
      ensures refusal.None? ==>
        && store.intents == old(store.intents)[id := RecordOf(plan, i).(state := E.IntentState.Queued)]
        && store.JobValues() == old(store.JobValues()) + [E.Job(id, E.JobState.Queued, 0, now, None, None, None)]
    {
      assert RecordOf(plan, i).key == KeyOf(plan, i);
      hide RecordOf, KeyOf, Made;
      E.SavingKeepsKeysUnique(store.Contents(), id, RecordOf(plan, i));
      var saved := store.SaveNewIntent(id, RecordOf(plan, i));
      if !saved {
        return Some("NONCE_ALREADY_QUEUED");
      }
      QueueNew(id, now);
      refusal := None;
    }

    /** The first job of an intent. */
    method QueueNew(id: E.IntentId, now: nat)
      requires Valid() && id in store.intents
      requires forall j | 0 <= j < |store.jobs| :: store.jobs[j].intentId != id
      modifies store
      ensures Valid() && plans == old(plans)
      ensures store.intents == old(store.intents)[id := old(store.intents)[id].(state := E.IntentState.Queued)]
      ensures store.JobValues() == old(store.JobValues()) + [E.Job(id, E.JobState.Queued, 0, now, None, None, None)]
    {
      hide Made;
      NoJobYet(store.JobValues(), id);
      KeysSurviveQueueing(store.intents, id);
      var job := store.Enqueue(id, now);
    }

    lemma NoJobYet(jobs: seq<E.Job>, id: E.IntentId)
      requires forall j | 0 <= j < |jobs| :: jobs[j].intentId != id
      ensures E.JobFor(jobs, id, |jobs|).None?
    {
      var found := E.JobFor(jobs, id, |jobs|);
    }

    lemma KeysSurviveQueueing(intents: map<E.IntentId, E.Intent>, id: E.IntentId)
      requires id in intents && E.KeysUnique(intents)
      ensures E.KeysUnique(intents[id := intents[id].(state := E.IntentState.Queued)])
    {
    }
  }
}
