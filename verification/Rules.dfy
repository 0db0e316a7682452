/**
 Who may do what, and when: for every external function exactly when a call of it goes through, what
 it costs, and what it changes.

 Stated without the functions that decide it, over the state a caller can look up beforehand.
 */
module Rules {
  import opened Common
  import opened Verifier
  import opened Blsvrf
  import opened Sums
  import opened Accounts
  import opened Coordinator
  import opened Reentrancy
  import opened Invariants
  import opened BatchChecks

  // ----- when a call goes through

  predicate Owns(w: World, sender: Caller, subId: SubId) {
    subId in w.ledger.accounts && w.ledger.accounts[subId].owner == sender
  }

  /** What an account has beyond what its requests reserve. */
  function Spendable(w: World, subId: SubId): int {
    AccountOf(w.ledger.accounts, subId).balance - AccountOf(w.ledger.accounts, subId).reserved
  }

  predicate WellFormed(env: Env, q: RequestParams) {
    && (q.keyHash == 0 || q.keyHash == env.keyHash)
    && 1 <= q.numWords <= 500 && 1 <= q.callbackGasLimit <= 2_500_000 && q.requestConfirmations <= 200
    && (q.extraArgs == Absent || q.extraArgs == Tagged(true))
  }

  /** A well-formed request by a consumer the account lists. */
  predicate MayRequest(env: Env, w: World, sender: Caller, q: RequestParams) {
    WellFormed(env, q) && (q.subId, sender) in w.ledger.consumers
  }

  predicate IsOpenRequest(w: World, id: RequestId) {
    id in w.tickets && !w.tickets[id].req.fulfilled && !w.tickets[id].req.refunded
  }

  /** The reservation behind a request is there. */
  predicate Backed(w: World, id: RequestId)
    requires id in w.tickets
  {
    var req := w.tickets[id].req;
    req.subId <= MAX64 && req.paid <= AccountOf(w.ledger.accounts, req.subId).reserved
  }

  /** The caller has the callback's whole budget and the signature of the request's seed. */
  predicate CanDeliver(env: Env, w: World, gas: nat, id: RequestId, signature: Signature)
    requires id in w.tickets
  {
    gas >= GasNeeded(w.tickets[id].req.callbackGasLimit) && env.verifier.Verify(SeedOf(env, w, id), signature)
  }

  /** The gas a batch needs on entry: every member's callback budget. */
  function GasSum(w: World, ids: seq<RequestId>): nat
    requires forall id | id in ids :: id in w.tickets
  {
    if ids == [] then 0
    else
      assert ids[0] in ids && forall id | id in ids[1..] :: id in ids;
      GasNeeded(w.tickets[ids[0]].req.callbackGasLimit) + GasSum(w, ids[1..])
  }

  function SeedsOf(env: Env, w: World, ids: seq<RequestId>): seq<Seed>
    requires forall id | id in ids :: id in w.tickets
  {
    seq(|ids|, k requires 0 <= k < |ids| => assert ids[k] in ids; SeedOf(env, w, ids[k]))
  }

  ghost predicate Accepts(env: Env, w: World, sender: Caller, gas: nat, op: Op) {
    match op
    case CreateSubscription => w.ledger.lastSubId < MAX64
    case FundSubscription(s, value) =>
      Live(w.ledger.accounts, s) && value <= w.outside && AccountOf(w.ledger.accounts, s).balance + value <= MAX96
    case WithdrawFromSubscription(s, amount) => Owns(w, sender, s) && amount <= Spendable(w, s)
    case AddConsumer(s, _) => Owns(w, sender, s)
    case RemoveConsumer(s, _) => Owns(w, sender, s)
    case CancelSubscription(s) =>
      && Owns(w, sender, s)
      && AccountOf(w.ledger.accounts, s).reserved == 0 && CountersOf(w.ledger.counters, s).pending == 0
    case RequestOwnerTransfer(s, _) => Owns(w, sender, s)
    case AcceptOwnerTransfer(s) => OfferedTo(w.ledger.pendingOwners, s) == sender
    case Withdraw => Get(w.ledger.withdrawable, sender) > 0
    case RequestRandomWords(q) =>
      && MayRequest(env, w, sender, q)
      && Cost(w.pricing.current, q.numWords, q.callbackGasLimit) <= Spendable(w, q.subId)
      && CountersOf(w.ledger.counters, q.subId).total < MAX64 && CountersOf(w.ledger.counters, q.subId).pending < MAX64
    case FulfillRandomWords(id, signature) =>
      IsOpenRequest(w, id) && CanDeliver(env, w, gas, id, signature) && Backed(w, id)
    case FulfillBatch(members, signature) =>
      var ids := Ids(members);
      && ids != [] && Ascending(ids)
      && (forall id | id in ids :: IsOpenRequest(w, id))
      && gas >= GasSum(w, ids) && env.verifier.AcceptsBatch(SeedsOf(env, w, ids), signature)
    case RetryCallback(id, signature) =>
      && id in w.tickets && w.tickets[id].req.fulfilled && !w.tickets[id].req.callbackSucceeded
      && CanDeliver(env, w, gas, id, signature)
    case Refund(id) =>
      IsOpenRequest(w, id) && w.block > w.tickets[id].req.createdAtBlock + 7200 && Backed(w, id)
    case ProposeFees(fees) =>
      && sender == w.pricing.owner
      && fees.base <= env.caps.base && fees.perWord <= env.caps.perWord && fees.perGas <= env.caps.perGas
      && w.block + 50_400 <= MAX64
    case ApplyFees => IsWaiting(w.pricing.proposals) && w.block >= w.pricing.effectiveAt
    case CancelFeeChange => sender == w.pricing.owner
    case TransferOwnership(_) => sender == w.pricing.owner
    case AcceptOwnership => sender == w.pricing.pendingOwner
    case RenounceOwnership => sender == w.pricing.owner
  }

  /** A call goes through exactly then; otherwise it is refused. */
  lemma AcceptedIff(env: Env, w: World, sender: Caller, gas: nat, op: Op)
    requires Sound(env, w)
    ensures !Enter(env, w, sender, gas, op).Refused? <==> Accepts(env, w, sender, gas, op)
  {
    hide Sound, Enter, Accepts;
    if op.WithdrawFromSubscription? || op.CancelSubscription? || op.Withdraw? {
      PayingAccepted(env, w, sender, gas, op);
    } else if op.RequestRandomWords? {
      RequestAccepted(env, w, sender, gas, op);
    } else if op.FulfillBatch? {
      BatchAccepted(env, w, sender, gas, op);
    } else if op.FulfillRandomWords? || op.RetryCallback? || op.Refund? {
      ClosingAccepted(env, w, sender, gas, op);
    } else if op.ProposeFees? || op.ApplyFees? || op.CancelFeeChange? || op.TransferOwnership?
      || op.AcceptOwnership? || op.RenounceOwnership?
    {
      PricingAccepted(env, w, sender, gas, op);
    } else {
      LedgerAccepted(env, w, sender, gas, op);
    }
  }

  /** No balance exceeds the coin held, which fits in 96 bits. */
  lemma BalanceBacked(l: Ledger, s: SubId)
    requires LedgerInv(l)
    ensures AccountOf(l.accounts, s).reserved <= AccountOf(l.accounts, s).balance <= l.coin
    ensures Live(l.accounts, s) ==> s <= MAX64
    ensures OfferedTo(l.pendingOwners, s) != ZERO ==> Live(l.accounts, s)
    ensures forall c: Address :: (s, c) in l.consumers ==> s <= MAX64
  {
    if s in l.accounts { DropBalance(l.accounts, s); }
    hide Sum, ActiveInv;
  }

  lemma LedgerAccepted(env: Env, w: World, sender: Caller, gas: nat, op: Op)
    requires Sound(env, w)
    requires op.CreateSubscription? || op.FundSubscription? || op.AddConsumer? || op.RemoveConsumer?
      || op.RequestOwnerTransfer? || op.AcceptOwnerTransfer?
    ensures !Enter(env, w, sender, gas, op).Refused? <==> Accepts(env, w, sender, gas, op)
  {
    if !op.CreateSubscription? { BalanceBacked(w.ledger, op.subId); }
    hide LedgerInv, PricingInv, TermsOk;
  }

  lemma PayingAccepted(env: Env, w: World, sender: Caller, gas: nat, op: Op)
    requires Sound(env, w) && (op.WithdrawFromSubscription? || op.CancelSubscription? || op.Withdraw?)
    ensures !Enter(env, w, sender, gas, op).Refused? <==> Accepts(env, w, sender, gas, op)
  {
    if op.Withdraw? {
      SumSet(w.ledger.withdrawable, sender, 0);
    } else {
      BalanceBacked(w.ledger, op.subId);
    }
    hide IndexInv, PricingInv, TermsOk, Sum, Deactivate;
    if op.CancelSubscription? { DeactivateCoin(w.ledger, op.subId); }
  }

  lemma DeactivateCoin(l: Ledger, id: SubId)
    ensures forall m: Ledger :: Deactivate(m, id).coin == m.coin
  {}

  lemma RequestAccepted(env: Env, w: World, sender: Caller, gas: nat, op: Op)
    requires Sound(env, w) && op.RequestRandomWords?
    ensures !Enter(env, w, sender, gas, op).Refused? <==> Accepts(env, w, sender, gas, op)
  {
    var q := op.params;
    BalanceBacked(w.ledger, q.subId);
    PriceIs(w.pricing.current, q.numWords, q.callbackGasLimit);
    hide LedgerInv, PricingInv, TermsOk, Cost, Price, CheckRequest;
    CheckedIff(env, w, sender, q);
  }

  lemma CheckedIff(env: Env, w: World, sender: Caller, q: RequestParams)
    requires (q.subId, sender) in w.ledger.consumers ==> q.subId <= MAX64
    ensures CheckRequest(env, w, sender, q).None? <==> MayRequest(env, w, sender, q)
    ensures CheckRequest(env, w, sender, q) != Some(PriceOverflow)
  {}

  lemma ClosingAccepted(env: Env, w: World, sender: Caller, gas: nat, op: Op)
    requires Sound(env, w) && (op.FulfillRandomWords? || op.RetryCallback? || op.Refund?)
    ensures !Enter(env, w, sender, gas, op).Refused? <==> Accepts(env, w, sender, gas, op)
  {
    hide LedgerInv, PricingInv, TermsOk, VRFVerifier.Verify, Settle, Release;
    if op.id in w.tickets {
      var req := w.tickets[op.id].req;
      SettledIff(w.ledger, req.subId, req.paid, sender);
    }
  }

  lemma SettledIff(l: Ledger, subId: SubId, amount: nat, payee: Address)
    requires LedgerInv(l) && l.coin <= MAX96
    ensures Settle(l, subId, amount, payee).Ok? <==> subId <= MAX64 && amount <= AccountOf(l.accounts, subId).reserved
    ensures Release(l, subId, amount).Ok? <==> subId <= MAX64 && amount <= AccountOf(l.accounts, subId).reserved
  {
    hide LedgerInv, CloseOne;
    if amount <= AccountOf(l.accounts, subId).reserved { SettleFits(l, subId, amount, payee); }
  }

  lemma BatchAccepted(env: Env, w: World, sender: Caller, gas: nat, op: Op)
    requires op.FulfillBatch?
    ensures !Enter(env, w, sender, gas, op).Refused? <==> Accepts(env, w, sender, gas, op)
  {
    hide BatchSeeds, BatchGas, GasSum, SeedsOf, Ascending, VRFVerifier.AcceptsBatch;
    SeedsIff(env, w, Ids(op.members));
  }

  lemma SeedsIff(env: Env, w: World, ids: seq<RequestId>)
    ensures BatchSeeds(env, w, ids).Ok? <==> Ascending(ids) && forall id | id in ids :: IsOpenRequest(w, id)
    ensures (forall id | id in ids :: IsOpenRequest(w, id)) ==> BatchGas(w, ids) == GasSum(w, ids)
    ensures BatchSeeds(env, w, ids).Ok? ==>
      (forall id | id in ids :: id in w.tickets) && BatchSeeds(env, w, ids).value == SeedsOf(env, w, ids)
  {
    hide BatchSeeds, BatchGas, GasSum, Ascending, SeedOf;
    if BatchSeeds(env, w, ids).Ok? {
      AcceptedIds(env, w, ids);
    } else if Ascending(ids) && forall id | id in ids :: IsOpenRequest(w, id) {
      AcceptsIds(env, w, ids);
    }
    if forall id | id in ids :: IsOpenRequest(w, id) { SummedGas(w, ids); }
  }

  lemma {:induction false} SummedGas(w: World, ids: seq<RequestId>)
    requires forall id | id in ids :: id in w.tickets
    ensures BatchGas(w, ids) == GasSum(w, ids)
    decreases ids
  {
    if ids != [] {
      var n := |ids| - 1;
      assert ids[n] in ids && forall id | id in ids[..n] :: id in ids;
      SummedGas(w, ids[..n]);
      assert ids == ids[..n] + [ids[n]];
      GasSumSnoc(w, ids[..n], ids[n]);
    }
  }

  lemma {:induction false} GasSumSnoc(w: World, ids: seq<RequestId>, last: RequestId)
    requires last in w.tickets && forall id | id in ids :: id in w.tickets
    ensures GasSum(w, ids + [last]) == GasSum(w, ids) + GasNeeded(w.tickets[last].req.callbackGasLimit)
    decreases ids
  {
    if ids != [] {
      assert (ids + [last])[1..] == ids[1..] + [last];
      GasSumSnoc(w, ids[1..], last);
    }
  }

  lemma PricingAccepted(env: Env, w: World, sender: Caller, gas: nat, op: Op)
    requires Sound(env, w)
    requires op.ProposeFees? || op.ApplyFees? || op.CancelFeeChange? || op.TransferOwnership?
      || op.AcceptOwnership? || op.RenounceOwnership?
    ensures !Enter(env, w, sender, gas, op).Refused? <==> Accepts(env, w, sender, gas, op)
  {
    hide LedgerInv, TermsOk, Mark;
  }

  // ----- who is turned away

  /** The five functions reserved to the owner of an account. */
  predicate OwnersOnly(op: Op) {
    op.WithdrawFromSubscription? || op.AddConsumer? || op.RemoveConsumer? || op.CancelSubscription?
    || op.RequestOwnerTransfer?
  }

  /** Anyone but the owner is refused by name of that error, and the whole call changes nothing. */
  lemma StrangersRefused(env: Env, w: World, c: Call, bound: nat)
    requires OwnersOnly(c.op) && AccountOf(w.ledger.accounts, c.op.subId).owner != c.sender
    ensures Enter(env, w, c.sender, Min(c.gas, bound), c.op)
      == Refused(if c.op.subId > MAX64 then SubscriptionIdTooLarge else NotSubscriptionOwner)
    ensures Execute(env, w, c, bound) == w
  {}

  /** Likewise the four functions reserved to the owner of the coordinator. */
  lemma OutsidersRefused(env: Env, w: World, c: Call, bound: nat)
    requires c.op.ProposeFees? || c.op.CancelFeeChange? || c.op.TransferOwnership? || c.op.RenounceOwnership?
    requires w.pricing.owner != c.sender
    ensures Enter(env, w, c.sender, Min(c.gas, bound), c.op) == Refused(Error.NotOwner) && Execute(env, w, c, bound) == w
  {}

  // ----- what a request costs

  /** What is quoted: one total, refused when it does not fit in 96 bits. */
  lemma PriceIs(f: Fees, numWords: nat, callbackGas: nat)
    ensures Price(f, numWords, callbackGas)
      == if Cost(f, numWords, callbackGas) > 0xFFFF_FFFF_FFFF_FFFF_FFFF_FFFF then Err(PriceOverflow)
         else Ok(Cost(f, numWords, callbackGas))
  {}

  /**
   The price by its parts: with nothing asked for the base fee, one more word its fee, one more unit
   of callback gas its fee.  No other function does this, and higher fees never cost less.
   */
  lemma CostParts(f: Fees, numWords: nat, callbackGas: nat)
    ensures Cost(f, 0, 0) == f.base
    ensures Cost(f, numWords + 1, callbackGas) == Cost(f, numWords, callbackGas) + f.perWord
    ensures Cost(f, numWords, callbackGas + 1) == Cost(f, numWords, callbackGas) + f.perGas
  {}

  lemma {:induction false} CostIsOnly(f: Fees, other: (nat, nat) -> nat, numWords: nat, callbackGas: nat)
    requires other(0, 0) == f.base
    requires forall n: nat, g: nat :: other(n + 1, g) == other(n, g) + f.perWord && other(n, g + 1) == other(n, g) + f.perGas
    ensures other(numWords, callbackGas) == Cost(f, numWords, callbackGas)
    decreases numWords, callbackGas
  {
    if numWords > 0 {
      CostIsOnly(f, other, numWords - 1, callbackGas);
      CostParts(f, numWords - 1, callbackGas);
      assert other(numWords - 1 + 1, callbackGas) == other(numWords - 1, callbackGas) + f.perWord;
    } else if callbackGas > 0 {
      CostIsOnly(f, other, 0, callbackGas - 1);
      CostParts(f, 0, callbackGas - 1);
      assert other(0, callbackGas - 1 + 1) == other(0, callbackGas - 1) + f.perGas;
    }
  }

  lemma CostGrows(f: Fees, g: Fees, numWords: nat, callbackGas: nat)
    requires f.base <= g.base && f.perWord <= g.perWord && f.perGas <= g.perGas
    ensures Cost(f, numWords, callbackGas) <= Cost(g, numWords, callbackGas)
  {
    Times(f.perWord, g.perWord, numWords);
    Times(f.perGas, g.perGas, callbackGas);
  }

  lemma Times(a: nat, b: nat, n: nat)
    requires a <= b
    ensures a * n <= b * n
  {}

  /** An otherwise acceptable request is refused for its price exactly when the price exceeds 2^96 - 1. */
  lemma OverflowIff(env: Env, w: World, sender: Caller, gas: nat, q: RequestParams)
    requires Sound(env, w)
    ensures Enter(env, w, sender, gas, Op.RequestRandomWords(q)) == Refused(PriceOverflow)
      <==> MayRequest(env, w, sender, q) && Cost(w.pricing.current, q.numWords, q.callbackGasLimit) > MAX96
  {
    BalanceBacked(w.ledger, q.subId);
    PriceIs(w.pricing.current, q.numWords, q.callbackGasLimit);
    hide LedgerInv, PricingInv, TermsOk, Cost, Price, CheckRequest;
    CheckedIff(env, w, sender, q);
  }

  function OneMore(c: Counters): Counters { Counters(c.total + 1, c.pending + 1) }

  /** What a request records and reserves, and that nothing else moves. */
  lemma RequestRecords(env: Env, w: World, sender: Caller, gas: nat, q: RequestParams)
    requires Sound(env, w) && Enter(env, w, sender, gas, Op.RequestRandomWords(q)).Finished?
    ensures var v, nonce := Enter(env, w, sender, gas, Op.RequestRandomWords(q)).world, Get(w.nonces, sender);
      var price := Cost(w.pricing.current, q.numWords, q.callbackGasLimit);
      && MayRequest(env, w, sender, q) && price <= Cost(env.caps, q.numWords, q.callbackGasLimit)
      && v == w.(tickets := w.tickets[env.requestId(sender, nonce) :=
                   Ticket(Request(sender, q.subId, q.numWords, q.callbackGasLimit, w.block, price, false, false, false),
                          nonce, [], [], 0)],
                 nonces := w.nonces[sender := nonce + 1], ledger := v.ledger)
      && AccountOf(v.ledger.accounts, q.subId)
           == AccountOf(w.ledger.accounts, q.subId).(reserved := AccountOf(w.ledger.accounts, q.subId).reserved + price)
      && OthersSame(w.ledger, v.ledger, q.subId)
      && v.ledger == w.ledger.(accounts := v.ledger.accounts,
                               counters := w.ledger.counters[q.subId := OneMore(CountersOf(w.ledger.counters, q.subId))])
  {
    var price := Cost(w.pricing.current, q.numWords, q.callbackGasLimit);
    BalanceBacked(w.ledger, q.subId);
    PriceIs(w.pricing.current, q.numWords, q.callbackGasLimit);
    CostGrows(w.pricing.current, env.caps, q.numWords, q.callbackGasLimit);
    CheckedIff(env, w, sender, q);
    assert w.block % TWO64 == w.block && WithinCaps(env, w.pricing.current);
    hide Cost, Price, CheckRequest, Reserve, Sound, WellFormed;
    RequestReserves(w, q, price);
    hide LedgerInv, Moves, OthersSame;
  }

  lemma RequestReserves(w: World, q: RequestParams, price: nat)
    requires LedgerInv(w.ledger)
    ensures Reserve(w.ledger, q.subId, price).Ok? ==>
      var m, account := Reserve(w.ledger, q.subId, price).value, AccountOf(w.ledger.accounts, q.subId);
      && AccountOf(m.accounts, q.subId) == account.(reserved := account.reserved + price)
      && OthersSame(w.ledger, m, q.subId)
      && m == w.ledger.(accounts := m.accounts,
                        counters := w.ledger.counters[q.subId := OneMore(CountersOf(w.ledger.counters, q.subId))])
  {
    hide LedgerInv, LedgerEvolves;
    if Reserve(w.ledger, q.subId, price).Ok? { ReserveKeeps(w.ledger, q.subId, price); }
  }

  /** Closing a request pays its price to the publisher out of its account, and nothing else moves. */
  lemma SettleRecords(w: World, sender: Caller, id: RequestId)
    requires LedgerInv(w.ledger) && SettleRequest(w, sender, id).Ok?
    ensures var v, t := SettleRequest(w, sender, id).value, w.tickets[id];
      var account := AccountOf(w.ledger.accounts, t.req.subId);
      && v == w.(ledger := v.ledger,
                 tickets := w.tickets[id := t.(req := t.req.(fulfilled := true), credited := t.credited + [Credit(sender, t.req.paid)])])
      && t.req.paid <= account.reserved
      && AccountOf(v.ledger.accounts, t.req.subId)
           == account.(balance := account.balance - t.req.paid, reserved := account.reserved - t.req.paid)
      && OthersSame(w.ledger, v.ledger, t.req.subId)
      && v.ledger == w.ledger.(accounts := v.ledger.accounts, counters := v.ledger.counters,
           withdrawable := w.ledger.withdrawable[sender := Get(w.ledger.withdrawable, sender) + t.req.paid])
  {
    var req := w.tickets[id].req;
    hide LedgerInv, LedgerEvolves, Settle;
    SettleKeeps(w.ledger, req.subId, req.paid, sender);
    SettleIs(w.ledger, req.subId, req.paid, sender);
  }

  /** A refund gives the price back to the account, and nothing else moves. */
  lemma RefundRecords(w: World, id: RequestId)
    requires LedgerInv(w.ledger) && Coordinator.Refund(w, id).Ok?
    ensures var v, t := Coordinator.Refund(w, id).value, w.tickets[id];
      var account := AccountOf(w.ledger.accounts, t.req.subId);
      && IsOpenRequest(w, id) && w.block > t.req.createdAtBlock + 7200 && t.req.paid <= account.reserved
      && v == w.(ledger := v.ledger,
                 tickets := w.tickets[id := t.(req := t.req.(refunded := true), released := t.released + [t.req.paid])])
      && AccountOf(v.ledger.accounts, t.req.subId) == account.(reserved := account.reserved - t.req.paid)
      && OthersSame(w.ledger, v.ledger, t.req.subId)
      && v.ledger == w.ledger.(accounts := v.ledger.accounts, counters := v.ledger.counters)
  {
    var req := w.tickets[id].req;
    hide LedgerInv, LedgerEvolves, Release;
    ReleaseKeeps(w.ledger, req.subId, req.paid);
  }

  /** The gas asked for on entry leaves the callback its whole limit when the EVM holds one 64th back. */
  lemma CallbackBudget(gas: nat, limit: nat)
    ensures var left: int := gas - 30_000;
      gas >= GasNeeded(limit) ==> left >= 0 && left - left / 64 >= limit
    ensures gas < GasNeeded(limit) && gas >= 30_000 ==> 63 * (gas - 30_000 + 1) <= 64 * limit
  {}

  // ----- prices and ownership

  /** What each function about prices and ownership leaves of them. */
  ghost predicate Governs(w: World, sender: Caller, op: Op, q: Pricing) {
    var p := w.pricing;
    match op
    case ProposeFees(fees) =>
      && q == p.(pending := fees, effectiveAt := w.block + 50_400, proposals := q.proposals)
      && |q.proposals| == |p.proposals| + 1 && q.proposals[|p.proposals|] == Proposal(fees, w.block, Waiting)
    case ApplyFees =>
      && w.block >= p.effectiveAt && p.proposals != []
      && q == p.(current := p.pending, pending := Fees(0, 0, 0), effectiveAt := 0, proposals := q.proposals)
      && q.proposals == p.proposals[|p.proposals| - 1 := p.proposals[|p.proposals| - 1].(status := Applied(w.block))]
    case CancelFeeChange =>
      && q == p.(pending := Fees(0, 0, 0), effectiveAt := 0, proposals := q.proposals)
      && !IsWaiting(q.proposals) && |q.proposals| == |p.proposals|
    case TransferOwnership(newOwner) => q == p.(pendingOwner := newOwner)
    case AcceptOwnership => q == p.(owner := sender, pendingOwner := ZERO)
    case RenounceOwnership => Renounced(q) && q.current == p.current && |q.proposals| == |p.proposals|
    case _ => q == p
  }

  lemma EveryGoverning(env: Env, w: World, sender: Caller, gas: nat, op: Op)
    requires Sound(env, w) && !Enter(env, w, sender, gas, op).Refused?
    ensures Governs(w, sender, op, Enter(env, w, sender, gas, op).world.pricing)
  {
    hide LedgerInv, TermsOk, Mark, Governs, Enter;
    if op.ProposeFees? {
      ProposeGoverns(env, w, sender, gas, op);
    } else if op.ApplyFees? {
      ApplyGoverns(env, w, sender, gas, op);
    } else {
      OthersGovern(env, w, sender, gas, op);
    }
  }

  lemma ProposeGoverns(env: Env, w: World, sender: Caller, gas: nat, op: Op)
    requires w.block < TWO64 && op.ProposeFees? && !Enter(env, w, sender, gas, op).Refused?
    ensures Governs(w, sender, op, Enter(env, w, sender, gas, op).world.pricing)
  {}

  lemma ApplyGoverns(env: Env, w: World, sender: Caller, gas: nat, op: Op)
    requires PricingInv(env, w.pricing) && op.ApplyFees? && !Enter(env, w, sender, gas, op).Refused?
    ensures Governs(w, sender, op, Enter(env, w, sender, gas, op).world.pricing)
  {}

  lemma OthersGovern(env: Env, w: World, sender: Caller, gas: nat, op: Op)
    requires PricingInv(env, w.pricing) && !op.ProposeFees? && !op.ApplyFees? && !Enter(env, w, sender, gas, op).Refused?
    ensures Governs(w, sender, op, Enter(env, w, sender, gas, op).world.pricing)
  {
    if op.CancelFeeChange? || op.TransferOwnership? || op.AcceptOwnership? || op.RenounceOwnership? {
      MarkKeeps(env, w.pricing.proposals, Cancelled);
      hide Mark, ProposalOk;
    } else {
      hide Governs;
      PricesStay(env, w, sender, gas, op);
      GovernsNot(w, sender, op, Enter(env, w, sender, gas, op).world.pricing);
    }
  }

  lemma GovernsNot(w: World, sender: Caller, op: Op, q: Pricing)
    requires !op.ProposeFees? && !op.ApplyFees? && !op.CancelFeeChange? && !op.TransferOwnership?
      && !op.AcceptOwnership? && !op.RenounceOwnership?
    ensures Governs(w, sender, op, q) <==> q == w.pricing
  {}

  lemma PricesStay(env: Env, w: World, sender: Caller, gas: nat, op: Op)
    requires !op.ProposeFees? && !op.ApplyFees? && !op.CancelFeeChange? && !op.TransferOwnership?
      && !op.AcceptOwnership? && !op.RenounceOwnership?
    requires !Enter(env, w, sender, gas, op).Refused?
    ensures Enter(env, w, sender, gas, op).world.pricing == w.pricing
  {
    hide CheckBatch, CheckRequest, VRFVerifier.Verify, Settle, Release, Reserve, Price,
      Accounts.CreateSubscription, Accounts.FundSubscription, Accounts.WithdrawFromSubscription, Accounts.AddConsumer,
      Accounts.RemoveConsumer, Accounts.CancelSubscription, Accounts.RequestOwnerTransfer, Accounts.AcceptOwnerTransfer,
      Accounts.Withdraw;
  }
}
