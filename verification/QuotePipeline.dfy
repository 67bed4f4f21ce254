/** From a quote to a signed intent: the gateway's execution plan, the draft it sends out, the agent's
    local check and the gateway's acceptance. Encodings and hashes are injective constructors. */
module QuotePipeline {
  import opened Wrappers

  // Addresses and hashes are kept in their lower-case form; amounts are integers, as BigInt is.
  type Address = nat
  type Hash = nat
  type Blob = nat

  /** Calldata either decodes as the approval proxy's `execute` or not at all. */
  datatype Calldata = ProxyExecute(router: Address, token: Address, amount: nat, commands: Blob, inputs: Blob, deadline: nat)
                    | OtherCall(data: Blob)
  datatype AdapterData = AdapterPayload(minAmountOut: nat, deadline: nat, callData: Calldata)
  datatype ExecutionHash = Keccak(adapterId: nat, adapterData: AdapterData)

  const UINT48_MAX: nat := 0xFFFF_FFFF_FFFF
  const UINT256_MAX: nat := 0xFFFF_FFFF_FFFF_FFFF_FFFF_FFFF_FFFF_FFFF_FFFF_FFFF_FFFF_FFFF_FFFF_FFFF_FFFF_FFFF
  const BPS: int := 10_000

  datatype Policy = Policy(maxSlippageBps: int, allowedAssets: set<Address>, maxIntentLifetime: int)
  datatype Profile = Profile(agentId: Hash, signer: Address, vault: Option<Address>, controller: Option<Address>,
                             policyHash: Option<Hash>, policy: Policy)
  datatype Controller = Controller(address: Address, fund: Address, agentId: Hash, adapter: Address, adapterId: nat,
                                   policyHash: Hash, paused: bool, nextNonce: nat)
  datatype Request = Request(agentId: Hash, tokenIn: Address, tokenOut: Address, amountIn: nat, maxSlippageBps: int,
                             evidenceHash: Hash)
  datatype Options = Options(chainId: nat, approvalProxy: Address, universalRouter: Address, stablecoin: Address,
                             lifetimeSeconds: nat)

  /** The parts of the Trading API's answers that are read; what is missing or does not parse is `None`. */
  datatype QuoteAnswer = QuoteAnswer(classic: bool, permit2: bool, tokenIn: Option<Address>, tokenOut: Option<Address>,
                                     amountIn: Option<int>, amountOut: Option<int>, minimum: Option<Option<int>>,
                                     swapper: Option<Address>, recipient: Option<Address>, chainId: nat)
  datatype SwapAnswer = SwapAnswer(to: Option<Address>, from: Option<Address>, chainId: nat, value: int,
                                   data: Option<Calldata>)

  datatype Plan = Plan(adapter: Address, approvalProxy: Address, adapterId: nat, fund: Address, controller: Address,
                       chainId: nat, tokenIn: Address, tokenOut: Address, amountIn: nat, quotedAmountOut: int,
                       minAmountOut: int, routeCalldata: Calldata, adapterData: AdapterData, executionHash: ExecutionHash,
                       expiresAtMs: nat)

  datatype TradeIntent = TradeIntent(agentId: Hash, fund: Address, tokenIn: Address, tokenOut: Address, amountIn: nat,
                                     minAmountOut: int, maxSlippageBps: int, policyHash: Hash,
                                     executionHash: ExecutionHash, evidenceHash: Hash, nonce: nat, validAfter: nat,
                                     deadline: nat)
  datatype TypedData = TypedData(chainId: nat, verifyingContract: Address, message: TradeIntent)
  datatype Draft = Draft(intent: TradeIntent, typedData: TypedData)

  datatype Safety = Safety(chainId: nat, expectedFund: Address, expectedController: Address,
                           expectedAdapter: Option<Address>, expectedApprovalProxy: Address,
                           expectedUniversalRouter: Address, maxSlippageBps: int)

  // ---------- The gateway's plan ----------

  /** Division of big integers truncates towards zero. */
  function TruncDiv(a: int, b: int): int
    requires b > 0
  {
    if a >= 0 then a / b else -(-a / b)
  }

  function LocalMinimum(quoted: int, slippageBps: int): int {
    TruncDiv(quoted * (BPS - slippageBps), BPS)
  }

  function Positive(o: Option<int>): Option<int> {
    if o.Some? && o.value > 0 then o else None
  }

  /** What can be refused before anything is asked of the API. */
  function PlanRefusal(o: Options, p: Profile, c: Controller, r: Request): Option<string> {
    if p.vault.None? || p.controller.None? || p.policyHash.None? then Some("AGENT_VAULT_NOT_READY")
    else if p.vault.value != c.fund || p.controller.value != c.address then Some("CONTROLLER_DRIFT")
    else if c.agentId != r.agentId then Some("AGENT_MISMATCH")
    else if c.paused then Some("CONTROLLER_PAUSED")
    else if c.policyHash != p.policyHash.value then Some("POLICY_DRIFT")
    else if r.maxSlippageBps > p.policy.maxSlippageBps || r.maxSlippageBps < 10 then Some("SLIPPAGE_POLICY")
    else if r.tokenOut != o.stablecoin && r.tokenOut !in p.policy.allowedAssets then Some("ASSET_POLICY")
    else None
  }

  /** `assertQuoteBinding`. */
  function QuoteRefusal(o: Options, c: Controller, r: Request, q: QuoteAnswer): Option<string> {
    if q.tokenIn.None? then Some("UNISWAP_BAD_RESPONSE")
    else if q.tokenIn.value != r.tokenIn then Some("UNISWAP_TOKEN_MISMATCH")
    else if q.tokenOut.None? then Some("UNISWAP_BAD_RESPONSE")
    else if q.tokenOut.value != r.tokenOut then Some("UNISWAP_TOKEN_MISMATCH")
    else if Positive(q.amountIn).None? then Some("UNISWAP_BAD_RESPONSE")
    else if q.amountIn.value != r.amountIn then Some("UNISWAP_AMOUNT_MISMATCH")
    else if q.swapper.None? || q.recipient.None? then Some("UNISWAP_BAD_RESPONSE")
    else if q.swapper.value != c.adapter || q.recipient.value != c.fund then Some("UNISWAP_RECIPIENT_MISMATCH")
    else if q.chainId != o.chainId then Some("UNISWAP_WRONG_CHAIN")
    else None
  }

  /** The provider may tighten the floor of the requested slippage but not weaken it. A minimum that the
      answer does not carry is `Some(None)`, one that does not parse is `None`. */
  function MinimumOut(quoted: int, slippageBps: int, minimum: Option<Option<int>>): Result<int, string> {
    var local := LocalMinimum(quoted, slippageBps);
    if minimum.None? || (minimum.value.Some? && minimum.value.value <= 0) then Err("UNISWAP_BAD_RESPONSE")
    else
      var api := if minimum.value.None? then local else minimum.value.value;
      if api > quoted then Err("UNISWAP_BAD_RESPONSE") else Ok(if api > local then api else local)
  }

  /** `assertProxyCallBinding`. */
  predicate ProxyCallBound(o: Options, r: Request, data: Calldata, deadline: nat) {
    && data.ProxyExecute?
    && data.router == o.universalRouter && data.token == r.tokenIn && data.amount == r.amountIn
    && data.deadline >= deadline
  }

  function SwapRefusal(o: Options, c: Controller, r: Request, s: SwapAnswer, deadline: nat): Option<string> {
    if s.to.None? || s.from.None? then Some("UNISWAP_BAD_RESPONSE")
    else if s.to.value != o.approvalProxy then Some("UNISWAP_UNEXPECTED_TARGET")
    else if s.from.value != c.adapter then Some("UNISWAP_UNEXPECTED_SWAPPER")
    else if s.chainId != o.chainId || s.value != 0 then Some("UNISWAP_WRONG_CHAIN")
    else if s.data.None? then Some("UNISWAP_BAD_RESPONSE")
    else if !ProxyCallBound(o, r, s.data.value, deadline) then Some("UNISWAP_PROXY_CALL_MISMATCH")
    else None
  }

  /** The encoder throws on a number outside its field. */
  function Assemble(o: Options, p: Profile, c: Controller, r: Request, quoted: int, minOut: int, deadline: nat, data: Calldata)
    : Result<Plan, string>
    requires p.controller.Some?
  {
    if !(0 <= minOut <= UINT256_MAX) || deadline > UINT48_MAX then Err("IntegerOutOfRangeError")
    else
      var payload := AdapterPayload(minOut, deadline, data);
      Ok(Plan(c.adapter, o.approvalProxy, c.adapterId, c.fund, p.controller.value, o.chainId, r.tokenIn, r.tokenOut,
              r.amountIn, quoted, minOut, data, payload, Keccak(c.adapterId, payload), deadline * 1_000))
  }

  function CreateExecutionPlan(o: Options, p: Profile, c: Controller, r: Request, q: QuoteAnswer, s: SwapAnswer, nowMs: nat)
    : Result<Plan, string>
  {
    var early := PlanRefusal(o, p, c, r);
    if early.Some? then Err(early.value)
    else if !q.classic then Err("UNISWAP_NON_ATOMIC_ROUTE")
    else if q.permit2 then Err("UNISWAP_PERMIT2_ROUTE")
    else
      var badQuote := QuoteRefusal(o, c, r, q);
      if badQuote.Some? then Err(badQuote.value)
      else if Positive(q.amountOut).None? then Err("UNISWAP_BAD_RESPONSE")
      else
        var minOut := MinimumOut(q.amountOut.value, r.maxSlippageBps, q.minimum);
        if minOut.Err? then Err(minOut.error)
        else
          var deadline := nowMs / 1_000 + o.lifetimeSeconds;
          var badSwap := SwapRefusal(o, c, r, s, deadline);
          if badSwap.Some? then Err(badSwap.value)
          else Assemble(o, p, c, r, q.amountOut.value, minOut.value, deadline, s.data.value)
  }

  // ---------- The draft ----------

  function Min(a: int, b: int): int {
    if a < b then a else b
  }

  function BuildTypedData(chainId: nat, controller: Address, i: TradeIntent): TypedData {
    TypedData(chainId, controller, i)
  }

  function BuildIntentDraft(p: Profile, c: Controller, r: Request, plan: Plan, nowMs: nat): Result<Draft, string> {
    if p.policyHash.None? then Err("POLICY_MISSING")
    else
      var validAfter := nowMs / 1_000;
      var deadline := Min(plan.expiresAtMs / 1_000, validAfter + p.policy.maxIntentLifetime);
      if deadline <= validAfter then Err("QUOTE_EXPIRED")
      else
        var i := TradeIntent(r.agentId, plan.fund, plan.tokenIn, plan.tokenOut, plan.amountIn, plan.minAmountOut,
                             r.maxSlippageBps, p.policyHash.value, plan.executionHash, r.evidenceHash, c.nextNonce,
                             validAfter, deadline);
        Ok(Draft(i, BuildTypedData(plan.chainId, plan.controller, i)))
  }

  // ---------- The agent's check ----------

  function ProxyRefusal(plan: Plan, signed: TradeIntent, s: Safety): Option<string> {
    if !plan.routeCalldata.ProxyExecute? then Some("PROXY_CALL_MUTATED")
    else if plan.routeCalldata.router != s.expectedUniversalRouter || plan.routeCalldata.token != plan.tokenIn
            || plan.routeCalldata.amount != plan.amountIn || plan.routeCalldata.deadline < signed.deadline
    then Some("PROXY_CALL_MUTATED")
    else if plan.executionHash != Keccak(plan.adapterId, plan.adapterData) then Some("EXECUTION_HASH_MISMATCH")
    else None
  }

  predicate Mutated(plan: Plan, signed: TradeIntent, r: Request) {
    || plan.tokenIn != r.tokenIn || plan.tokenOut != r.tokenOut || plan.amountIn != r.amountIn || plan.minAmountOut <= 0
    || signed.tokenIn != plan.tokenIn || signed.tokenOut != plan.tokenOut || signed.amountIn != plan.amountIn
    || signed.minAmountOut != plan.minAmountOut || signed.executionHash != plan.executionHash
    || signed.evidenceHash != r.evidenceHash
  }

  /** `verifyExecutionPlanLocally`: the error it throws, if any. */
  function LocalRefusal(plan: Plan, d: Draft, r: Request, s: Safety, nowMs: nat): Option<string> {
    var signed := d.intent;
    if plan.chainId != s.chainId || d.typedData.chainId != s.chainId then Some("WRONG_CHAIN")
    else if plan.fund != s.expectedFund || signed.fund != s.expectedFund then Some("WRONG_FUND")
    else if plan.controller != s.expectedController || d.typedData.verifyingContract != s.expectedController
    then Some("WRONG_CONTROLLER")
    else if s.expectedAdapter.Some? && plan.adapter != s.expectedAdapter.value then Some("WRONG_ADAPTER")
    else if plan.approvalProxy != s.expectedApprovalProxy then Some("WRONG_PROXY")
    else if Mutated(plan, signed, r) then Some("PLAN_MUTATED")
    else if signed.maxSlippageBps != r.maxSlippageBps || signed.maxSlippageBps > s.maxSlippageBps then Some("SLIPPAGE_POLICY")
    else if plan.expiresAtMs <= nowMs || signed.deadline * 1_000 > plan.expiresAtMs then Some("QUOTE_EXPIRED")
    else if plan.adapterData.minAmountOut != plan.minAmountOut || plan.adapterData.deadline != signed.deadline
            || plan.adapterData.callData != plan.routeCalldata
    then Some("ADAPTER_DATA_MUTATED")
    else ProxyRefusal(plan, signed, s)
  }

  // ---------- The gateway's acceptance ----------

  /** `assertExactBinding`. */
  predicate ExactlyBound(i: TradeIntent, r: Request, plan: Plan, p: Profile, c: Controller)
    requires p.policyHash.Some?
  {
    && i.agentId == r.agentId
    && i.fund == plan.fund && i.tokenIn == plan.tokenIn && i.tokenOut == plan.tokenOut
    && i.amountIn == plan.amountIn && i.minAmountOut == plan.minAmountOut
    && i.maxSlippageBps == r.maxSlippageBps
    && i.policyHash == p.policyHash.value && i.policyHash == c.policyHash
    && i.executionHash == plan.executionHash && i.evidenceHash == r.evidenceHash
    && plan.controller == c.address && plan.fund == c.fund
    && plan.adapterId == c.adapterId && plan.adapter == c.adapter
  }

  datatype Session = Session(agentId: Hash, signer: Address)
  datatype ChainAgent = ChainAgent(active: bool, signer: Address)

  /** What `accept` reads of the chain. */
  datatype ChainState = ChainState(agent: ChainAgent, controller: Controller, bound: bool)

  predicate TimingOk(i: TradeIntent, plan: Plan, maxIntentLifetime: int, now: nat) {
    && i.validAfter <= now + 15
    && i.deadline >= now
    && i.deadline <= plan.expiresAtMs / 1_000
    && i.deadline > i.validAfter
    && i.deadline - i.validAfter <= maxIntentLifetime
  }

  /** Everything `accept` checks before it stores the intent, with the two moments at which it looks at
      the clock; a good signature is one that the verifier accepts for the typed data. */
  function AcceptRefusal(session: Session, r: Request, plan: Plan, i: TradeIntent, profile: Option<Profile>,
                         chain: ChainState, firstMs: nat, secondMs: nat, goodSignature: (Address, TypedData) -> bool)
    : Option<string>
  {
    if session.agentId != r.agentId || session.agentId != i.agentId then Some("AGENT_MISMATCH")
    else if plan.expiresAtMs <= firstMs then Some("QUOTE_EXPIRED")
    else if profile.None? || profile.value.controller.None? || profile.value.vault.None? || profile.value.policyHash.None?
    then Some("AGENT_VAULT_NOT_READY")
    else if !chain.agent.active || !chain.bound || chain.controller.paused then Some("AGENT_INACTIVE")
    else if chain.agent.signer != session.signer || profile.value.signer != session.signer then Some("SIGNER_ROTATED")
    else if !ExactlyBound(i, r, plan, profile.value, chain.controller) then Some("INTENT_BINDING_MISMATCH")
    else if !TimingOk(i, plan, profile.value.policy.maxIntentLifetime, secondMs / 1_000) then Some("INTENT_EXPIRED")
    else if i.nonce != chain.controller.nextNonce then Some("NONCE_MISMATCH")
    else if !goodSignature(session.signer, BuildTypedData(plan.chainId, plan.controller, i))
    then Some("INVALID_INTENT_SIGNATURE")
    else None
  }

  // ---------- What a plan promises ----------

  /** Some answers of the API led to this plan. */
  ghost predicate Made(r: Request, plan: Plan) {
    exists o, p, c, q, s, nowMs: nat :: CreateExecutionPlan(o, p, c, r, q, s, nowMs) == Ok(plan)
  }

  lemma MinimumIsBounded(quoted: int, slippageBps: int, minimum: Option<Option<int>>)
    requires quoted > 0 && slippageBps >= 0 && MinimumOut(quoted, slippageBps, minimum).Ok?
    ensures quoted * (BPS - slippageBps) / BPS <= MinimumOut(quoted, slippageBps, minimum).value <= quoted
  {
    var scaled := quoted * (BPS - slippageBps);
    assert scaled <= quoted * BPS;
    assert scaled / BPS <= LocalMinimum(quoted, slippageBps) <= quoted;
  }

  /** A created plan never promises less than the requested slippage allows nor more than was quoted, and
      its payload, hash and proxy call are those of the request. */
  lemma PlansAreBound(o: Options, p: Profile, c: Controller, r: Request, q: QuoteAnswer, s: SwapAnswer, nowMs: nat)
    requires CreateExecutionPlan(o, p, c, r, q, s, nowMs).Ok?
    ensures var plan := CreateExecutionPlan(o, p, c, r, q, s, nowMs).value;
      && plan.quotedAmountOut * (BPS - r.maxSlippageBps) / BPS <= plan.minAmountOut <= plan.quotedAmountOut
      && plan.adapterData == AdapterPayload(plan.minAmountOut, plan.expiresAtMs / 1_000, plan.routeCalldata)
      && plan.expiresAtMs == (nowMs / 1_000 + o.lifetimeSeconds) * 1_000
      && ProxyCallBound(o, r, plan.routeCalldata, plan.expiresAtMs / 1_000)
      && plan.executionHash == Keccak(c.adapterId, plan.adapterData)
  {
    MinimumIsBounded(q.amountOut.value, r.maxSlippageBps, q.minimum);
  }

  // ---------- Producer and consumers agree ----------

  /** A draft built from a created plan passes the gateway's own binding check while the chain stands. */
  lemma DraftsAreExactlyBound(o: Options, p: Profile, c: Controller, r: Request, q: QuoteAnswer, s: SwapAnswer,
                              plannedMs: nat, draftedMs: nat)
    requires CreateExecutionPlan(o, p, c, r, q, s, plannedMs).Ok?
    requires BuildIntentDraft(p, c, r, CreateExecutionPlan(o, p, c, r, q, s, plannedMs).value, draftedMs).Ok?
    ensures p.policyHash.Some?
    ensures var plan := CreateExecutionPlan(o, p, c, r, q, s, plannedMs).value;
      ExactlyBound(BuildIntentDraft(p, c, r, plan, draftedMs).value.intent, r, plan, p, c)
  {
  }

  /** The agent's configuration agrees with the gateway's. */
  predicate Agrees(s: Safety, o: Options, p: Profile, c: Controller) {
    && s.chainId == o.chainId && s.expectedFund == c.fund && s.expectedController == c.address
    && (s.expectedAdapter.Some? ==> s.expectedAdapter.value == c.adapter)
    && s.expectedApprovalProxy == o.approvalProxy && s.expectedUniversalRouter == o.universalRouter
  }

  /** With matching configuration, the agent's check passes exactly when the plan has not expired, promises
      something, respects the agent's own slippage limit, and the intent's lifetime reaches the adapter's
      deadline, which the draft otherwise cuts short. */
  lemma LocalCheckPassesExactlyWhen(o: Options, p: Profile, c: Controller, r: Request, q: QuoteAnswer, s: SwapAnswer,
                                    safety: Safety, plannedMs: nat, draftedMs: nat, nowMs: nat)
    requires CreateExecutionPlan(o, p, c, r, q, s, plannedMs).Ok? && Agrees(safety, o, p, c)
    requires BuildIntentDraft(p, c, r, CreateExecutionPlan(o, p, c, r, q, s, plannedMs).value, draftedMs).Ok?
    ensures var plan := CreateExecutionPlan(o, p, c, r, q, s, plannedMs).value;
      var draft := BuildIntentDraft(p, c, r, plan, draftedMs).value;
      LocalRefusal(plan, draft, r, safety, nowMs).None? <==>
        (&& nowMs < plan.expiresAtMs
         && plan.minAmountOut > 0
         && r.maxSlippageBps <= safety.maxSlippageBps
         && draft.intent.validAfter + p.policy.maxIntentLifetime >= plan.adapterData.deadline)
  {
    PlansAreBound(o, p, c, r, q, s, plannedMs);
  }

  // A quote that lives thirty seconds, for an agent whose intents may live ten.
  const OPTIONS := Options(1, 20, 21, 22, 30)
  const SHORT_LIVED := Profile(1, 2, Some(3), Some(4), Some(5), Policy(100, {}, 10))
  const CONTROLLER := Controller(4, 3, 1, 6, 7, 5, false, 0)
  const REQUEST := Request(1, 8, 22, 1_000, 50, 9)
  const QUOTE := QuoteAnswer(true, false, Some(8), Some(22), Some(1_000), Some(2_000), Some(None), Some(6), Some(3), 1)
  const SWAP := SwapAnswer(Some(20), Some(6), 1, 0, Some(ProxyExecute(21, 8, 1_000, 0, 0, 30)))
  const SAFETY := Safety(1, 3, 4, None, 20, 21, 100)

  /** An instance: everything agrees, nothing has expired, and the agent refuses the gateway's draft. */
  lemma ShortLifetimeFailsTheLocalCheck()
    ensures var plan := CreateExecutionPlan(OPTIONS, SHORT_LIVED, CONTROLLER, REQUEST, QUOTE, SWAP, 0);
      && plan.Ok? && Agrees(SAFETY, OPTIONS, SHORT_LIVED, CONTROLLER)
      && var draft := BuildIntentDraft(SHORT_LIVED, CONTROLLER, REQUEST, plan.value, 0);
      && draft.Ok? && LocalRefusal(plan.value, draft.value, REQUEST, SAFETY, 0) == Some("ADAPTER_DATA_MUTATED")
  {
    assert LocalMinimum(2_000, 50) == 1_990;
    assert MinimumOut(2_000, 50, Some(None)) == Ok(1_990);
  }

  /** With an unchanged chain and profile and a good signature, the gateway accepts its own draft exactly
      while the plan lives, the intent has not run out and its start is not ahead of the clock by more
      than fifteen seconds. */
  lemma DraftsAreAcceptedExactlyWhile(o: Options, p: Profile, chain: ChainState, r: Request, q: QuoteAnswer, s: SwapAnswer,
                                      session: Session, plannedMs: nat, draftedMs: nat, firstMs: nat, secondMs: nat,
                                      goodSignature: (Address, TypedData) -> bool)
    requires CreateExecutionPlan(o, p, chain.controller, r, q, s, plannedMs).Ok?
    requires var plan := CreateExecutionPlan(o, p, chain.controller, r, q, s, plannedMs).value;
      BuildIntentDraft(p, chain.controller, r, plan, draftedMs).Ok?
    requires session.agentId == r.agentId && chain.agent.active && chain.bound
    requires chain.agent.signer == session.signer == p.signer
    requires var plan := CreateExecutionPlan(o, p, chain.controller, r, q, s, plannedMs).value;
      goodSignature(session.signer, BuildIntentDraft(p, chain.controller, r, plan, draftedMs).value.typedData)
    ensures var plan := CreateExecutionPlan(o, p, chain.controller, r, q, s, plannedMs).value;
      var i := BuildIntentDraft(p, chain.controller, r, plan, draftedMs).value.intent;
      AcceptRefusal(session, r, plan, i, Some(p), chain, firstMs, secondMs, goodSignature).None? <==>
        (firstMs < plan.expiresAtMs && secondMs / 1_000 <= i.deadline && i.validAfter <= secondMs / 1_000 + 15)
  {
    DraftsAreExactlyBound(o, p, chain.controller, r, q, s, plannedMs, draftedMs);
  }

  /** Whatever intent is accepted against a created plan pays at least the quote less the requested
      slippage and runs out no later than the plan. */
  lemma AcceptedIntentsAreBounded(session: Session, r: Request, plan: Plan, i: TradeIntent, profile: Option<Profile>,
                                  chain: ChainState, firstMs: nat, secondMs: nat,
                                  goodSignature: (Address, TypedData) -> bool)
    requires Made(r, plan)
    requires AcceptRefusal(session, r, plan, i, profile, chain, firstMs, secondMs, goodSignature).None?
    ensures plan.quotedAmountOut * (BPS - i.maxSlippageBps) / BPS <= i.minAmountOut <= plan.quotedAmountOut
    ensures i.deadline * 1_000 <= plan.expiresAtMs
    ensures i.executionHash == Keccak(plan.adapterId, plan.adapterData) && plan.adapterData.minAmountOut == i.minAmountOut
    ensures i.deadline <= plan.adapterData.deadline
  {
    var o, p, c, q, s, nowMs: nat :| CreateExecutionPlan(o, p, c, r, q, s, nowMs) == Ok(plan);
    PlansAreBound(o, p, c, r, q, s, nowMs);
  }
}
