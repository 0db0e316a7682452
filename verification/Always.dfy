/**
 What holds in every execution, whatever its batches contain and whatever their callbacks close: the
 money as a whole, the indices of the ledger, prices and ownership, and what is recorded of each
 request.  The induction follows the tree of calls.

 Two facts about a single request are carried along.  A closed request stays closed the way it was,
 with its price where it went, unless it is a member of the batch being settled; and an open request
 cannot be closed by anyone who holds less gas than fulfilling it takes, before its timeout.
 */
module Always {
  import opened Verifier
  import opened Sums
  import opened Accounts
  import opened Coordinator
  import opened Reentrancy
  import opened Invariants
  import opened BatchChecks

  // ----- from one state to a later one

  /** Requests do not share an id, and their consumers' nonces have moved on. */
  ghost predicate NamesOk(env: Env, w: World) {
    Injective(env) && forall id | id in w.tickets :: IdOk(env, w.nonces, id, w.tickets[id])
  }

  /** Open, before its timeout, and dearer to fulfil than `bound` gas. */
  predicate Shielded(t: Ticket, block: nat, bound: nat) {
    Open(t.req) && bound < GasNeeded(t.req.callbackGasLimit) && block <= t.req.createdAtBlock + TIMEOUT_BLOCKS
  }

  /** Neither shielded nor sealed. */
  ghost predicate Touchable(t: Ticket, block: nat, bound: nat) {
    !Shielded(t, block, bound) && !Sealed(t, bound)
  }

  ghost predicate TicketLasts(t: Ticket, u: Ticket, block: nat, bound: nat) {
    ClosedStays(t, u) && (Touchable(t, block, bound) || u == t)
  }

  /** Requests keep what was recorded; those not among `ids`, the batch being settled, keep more. */
  ghost predicate TicketsLast(w: World, v: World, ids: seq<RequestId>, bound: nat) {
    forall id | id in w.tickets ::
      id in v.tickets && Recorded(w.tickets[id], v.tickets[id])
      && (id !in ids ==> TicketLasts(w.tickets[id], v.tickets[id], w.block, bound))
  }

  ghost predicate Carries(env: Env, w: World, v: World, ids: seq<RequestId>, bound: nat) {
    Sound(env, v) && Steady(w, v) && (NamesOk(env, w) ==> NamesOk(env, v) && TicketsLast(w, v, ids, bound))
  }

  lemma CarriesSelf(env: Env, w: World, ids: seq<RequestId>, bound: nat)
    requires Sound(env, w)
    ensures Carries(env, w, w, ids, bound)
  {
    hide Sound, NamesOk;
  }

  lemma SteadyStep(u: World, v: World, w: World)
    requires Steady(u, v) && Steady(v, w)
    ensures Steady(u, w)
  {
    assert LedgerEvolves(u.ledger, w.ledger);
  }

  lemma LastsStep(t: Ticket, u: Ticket, v: Ticket, block: nat, inner: nat, bound: nat)
    requires Recorded(t, u) && Recorded(u, v) && inner <= bound
    ensures Recorded(t, v)
    ensures TicketLasts(t, u, block, bound) && TicketLasts(u, v, block, inner) ==> TicketLasts(t, v, block, bound)
  {}

  lemma CarriesStep(env: Env, u: World, v: World, w: World, ids: seq<RequestId>, inner: nat, bound: nat)
    requires Carries(env, u, v, ids, bound) && Carries(env, v, w, ids, inner) && inner <= bound
    ensures Carries(env, u, w, ids, bound)
  {
    SteadyStep(u, v, w);
    assert u.block == v.block;
    hide Sound, NamesOk, Steady;
    if NamesOk(env, u) {
      forall id | id in u.tickets
        ensures id in w.tickets && Recorded(u.tickets[id], w.tickets[id])
        ensures id !in ids ==> TicketLasts(u.tickets[id], w.tickets[id], u.block, bound)
      {
        LastsStep(u.tickets[id], v.tickets[id], w.tickets[id], u.block, inner, bound);
      }
      hide Recorded, TicketLasts;
    }
  }

  lemma CarriesMore(env: Env, w: World, v: World, ids: seq<RequestId>, bound: nat)
    requires Carries(env, w, v, [], bound)
    ensures Carries(env, w, v, ids, bound)
  {
    hide Sound, NamesOk, Steady, Recorded, TicketLasts;
  }

  // ----- calls that leave requests alone

  predicate IsPlain(op: Op) {
    !(op.RequestRandomWords? || op.FulfillRandomWords? || op.FulfillBatch? || op.RetryCallback? || op.Refund?)
  }

  /** Neither requests nor what is behind them. */
  ghost predicate RequestsAlone(w: World, v: World) {
    v.tickets == w.tickets && v.nonces == w.nonces && SameReservations(w.ledger, v.ledger)
  }

  ghost predicate PlainStep(env: Env, w: World, e: Entry, gas: nat) {
    match e
    case Refused(_) => true
    case Finished(v) => Sound(env, v) && Steady(w, v) && RequestsAlone(w, v)
    case HandsOver(v, limit) => Sound(env, v) && Steady(w, v) && RequestsAlone(w, v) && limit <= gas
  }

  lemma LedgerKeeps(env: Env, w: World, sender: Caller, gas: nat, op: Op)
    requires Sound(env, w)
    requires op.CreateSubscription? || op.FundSubscription? || op.AddConsumer? || op.RemoveConsumer?
      || op.RequestOwnerTransfer? || op.AcceptOwnerTransfer?
    ensures PlainStep(env, w, Enter(env, w, sender, gas, op), gas)
  {
    hide LedgerEvolves, SameReservations, PricingInv, PricingEvolves,
      Accounts.CreateSubscription, Accounts.FundSubscription, Accounts.AddConsumer, Accounts.RemoveConsumer,
      Accounts.RequestOwnerTransfer, Accounts.AcceptOwnerTransfer, ActiveInv, OwnersInv, ConsumersInv, MoneyInv;
    var e := Enter(env, w, sender, gas, op);
    if e.Finished? {
      match op {
        case CreateSubscription => CreateKeeps(w.ledger, sender);
        case FundSubscription(subId, value) => FundKeeps(w.ledger, subId, value);
        case AddConsumer(subId, consumer) => AddConsumerKeeps(w.ledger, sender, subId, consumer);
        case RemoveConsumer(subId, consumer) => RemoveConsumerKeeps(w.ledger, sender, subId, consumer);
        case RequestOwnerTransfer(subId, newOwner) => OfferKeeps(w.ledger, sender, subId, newOwner);
        case AcceptOwnerTransfer(subId) => AcceptKeeps(w.ledger, sender, subId);
      }
      LedgerStep(env, w, e.world.ledger, e.world.outside);
    }
  }

  lemma PayingKeeps(env: Env, w: World, sender: Caller, gas: nat, op: Op)
    requires Sound(env, w)
    requires op.WithdrawFromSubscription? || op.CancelSubscription? || op.Withdraw?
    ensures PlainStep(env, w, Enter(env, w, sender, gas, op), gas)
  {
    hide Kept, LedgerInv, PricingInv, SameReservations, Send,
      Accounts.WithdrawFromSubscription, Accounts.CancelSubscription, Accounts.Withdraw;
    match op {
      case WithdrawFromSubscription(subId, amount) =>
        var r := Accounts.WithdrawFromSubscription(w.ledger, sender, subId, amount);
        if r.Ok? {
          WithdrawFromKeeps(w.ledger, sender, subId, amount);
          PaymentStep(env, w, r.value, amount);
        }
      case CancelSubscription(subId) =>
        var r := Accounts.CancelSubscription(w.ledger, sender, subId);
        if r.Ok? {
          CancelKeeps(w.ledger, sender, subId);
          PaymentStep(env, w, r.value.0, r.value.1);
        }
      case Withdraw =>
        var r := Accounts.Withdraw(w.ledger, sender);
        if r.Ok? {
          WithdrawKeeps(w.ledger, sender);
          PaymentStep(env, w, r.value.0, r.value.1);
        }
    }
  }

  lemma PricingKeeps(env: Env, w: World, sender: Caller, gas: nat, op: Op)
    requires Sound(env, w)
    requires op.ProposeFees? || op.ApplyFees? || op.CancelFeeChange? || op.TransferOwnership?
      || op.AcceptOwnership? || op.RenounceOwnership?
    ensures PlainStep(env, w, Enter(env, w, sender, gas, op), gas)
  {
    hide LedgerInv, PricingEvolves, Coordinator.ProposeFees, Mark, TermsOk, HistoryGrows;
    var e := Enter(env, w, sender, gas, op);
    if e.Finished? {
      var q := e.world.pricing;
      assert PricingInv(env, q) && PricingEvolves(w.pricing, q) && HistoryGrows(w.pricing.proposals, q.proposals, w.block) by {
        HistorySelf(w.pricing.proposals, w.block);
        match op {
          case ProposeFees(fees) => ProposeKeeps(env, w, sender, fees);
          case ApplyFees => ApplyKeeps(env, w);
          case CancelFeeChange => ClearKeeps(env, w.pricing, q);
          case RenounceOwnership => ClearKeeps(env, w.pricing, q);
          case TransferOwnership(newOwner) => OwnerKeeps(env, w.pricing, w.pricing.owner, newOwner);
          case AcceptOwnership => OwnerKeeps(env, w.pricing, sender, ZERO);
        }
      }
      hide PricingInv;
      TermsRepriced(env, w.tickets, w.pricing.proposals, q.proposals, w.block);
    }
  }

  lemma PlainKeeps(env: Env, w: World, sender: Caller, gas: nat, op: Op)
    requires Sound(env, w) && IsPlain(op)
    ensures PlainStep(env, w, Enter(env, w, sender, gas, op), gas)
  {
    hide Sound, PlainStep, Enter;
    if op.WithdrawFromSubscription? || op.CancelSubscription? || op.Withdraw? {
      PayingKeeps(env, w, sender, gas, op);
    } else if op.ProposeFees? || op.ApplyFees? || op.CancelFeeChange? || op.TransferOwnership?
      || op.AcceptOwnership? || op.RenounceOwnership?
    {
      PricingKeeps(env, w, sender, gas, op);
    } else {
      LedgerKeeps(env, w, sender, gas, op);
    }
  }

  // ----- calls about one request

  /** One request changes, new or known. */
  lemma OneTicket(env: Env, w: World, v: World, id: RequestId, ids: seq<RequestId>, bound: nat)
    requires NamesOk(env, w) && v.block == w.block && id in v.tickets && v.tickets == w.tickets[id := v.tickets[id]]
    requires forall a: Address :: Get(w.nonces, a) <= Get(v.nonces, a)
    requires IdOk(env, v.nonces, id, v.tickets[id])
    requires id in w.tickets ==> Recorded(w.tickets[id], v.tickets[id])
    requires id in w.tickets && id !in ids ==> TicketLasts(w.tickets[id], v.tickets[id], w.block, bound)
    ensures NamesOk(env, v) && TicketsLast(w, v, ids, bound)
  {}

  lemma RequestCarries(env: Env, w: World, sender: Caller, q: RequestParams, bound: nat)
    requires Sound(env, w) && Coordinator.RequestRandomWords(env, w, sender, q).Ok?
    ensures Carries(env, w, Coordinator.RequestRandomWords(env, w, sender, q).value, [], bound)
  {
    hide LedgerInv, LedgerEvolves, Reserve, PricingInv, TermsOk, Costs;
    var v := Coordinator.RequestRandomWords(env, w, sender, q).value;
    var nonce := Get(w.nonces, sender);
    var id := env.requestId(sender, nonce);
    RequestIs(env, w, sender, q);
    TermsAdded(env, w.tickets, w.pricing, w.block, id, v.tickets[id]);
    ReserveKeeps(w.ledger, q.subId, v.tickets[id].req.paid);
    PricingSelf(w.pricing);
    if NamesOk(env, w) {
      assert id in w.tickets ==> IdOk(env, w.nonces, id, w.tickets[id]);
      hide NamesOk, Coordinator.RequestRandomWords;
      OneTicket(env, w, v, id, [], bound);
    }
  }

  /** Closing a request, from a batch or singly; `ids` tells which. */
  lemma SettleCarries(env: Env, w: World, sender: Caller, id: RequestId, ids: seq<RequestId>, bound: nat)
    requires Sound(env, w) && SettleRequest(w, sender, id).Ok?
    requires id in ids || (Open(w.tickets[id].req) && bound >= GasNeeded(w.tickets[id].req.callbackGasLimit))
    ensures var v := SettleRequest(w, sender, id).value;
      && Carries(env, w, v, ids, bound)
      && v.tickets.Keys == w.tickets.Keys && (forall i | i in w.tickets && i != id :: v.tickets[i] == w.tickets[i])
      && v.tickets[id].req == w.tickets[id].req.(fulfilled := true)
      && v.tickets[id].credited == w.tickets[id].credited + [Credit(sender, w.tickets[id].req.paid)]
      && v.tickets[id].released == w.tickets[id].released && v.tickets[id].nonce == w.tickets[id].nonce
  {
    hide LedgerInv, LedgerEvolves, PricingInv, TermsOk;
    var req, v := w.tickets[id].req, SettleRequest(w, sender, id).value;
    assert w.ledger.coin <= MAX96;
    TermsKept(env, w.tickets, v.tickets, w.pricing.proposals, w.block, w.block);
    SettleKeeps(w.ledger, req.subId, req.paid, sender);
    PricingSelf(w.pricing);
    hide Settle;
    if NamesOk(env, w) {
      assert IdOk(env, w.nonces, id, w.tickets[id]);
      hide NamesOk, SettleRequest;
      OneTicket(env, w, v, id, ids, bound);
    }
  }

  lemma RefundCarries(env: Env, w: World, id: RequestId, bound: nat)
    requires Sound(env, w) && Coordinator.Refund(w, id).Ok?
    ensures Carries(env, w, Coordinator.Refund(w, id).value, [], bound)
  {
    hide LedgerInv, LedgerEvolves, PricingInv, TermsOk;
    var req, v := w.tickets[id].req, Coordinator.Refund(w, id).value;
    TermsKept(env, w.tickets, v.tickets, w.pricing.proposals, w.block, w.block);
    ReleaseKeeps(w.ledger, req.subId, req.paid);
    ReleaseFits(w.ledger, req.subId, req.paid);
    PricingSelf(w.pricing);
    hide Release;
    if NamesOk(env, w) {
      assert IdOk(env, w.nonces, id, w.tickets[id]);
      hide NamesOk, Coordinator.Refund;
      OneTicket(env, w, v, id, [], bound);
    }
  }

  /** Recording a delivery touches nothing but the delivery. */
  lemma DeliverCarries(env: Env, u: World, w: World, id: RequestId, ids: seq<RequestId>, bound: nat)
    requires Carries(env, u, w, ids, bound)
    requires id in u.tickets ==> id in ids || Touchable(u.tickets[id], u.block, bound)
    ensures Carries(env, u, Deliver(w, id), ids, bound)
  {
    hide LedgerInv, LedgerEvolves, PricingInv, PricingEvolves, Shielded, Sound;
    DeliverSound(env, w, id);
  }

  lemma DeliverSound(env: Env, w: World, id: RequestId)
    requires Sound(env, w)
    ensures Sound(env, Deliver(w, id))
  {
    hide LedgerInv, PricingInv, TermsOk;
    TermsKept(env, w.tickets, Deliver(w, id).tickets, w.pricing.proposals, w.block, w.block);
  }

  // ----- moments

  /** The signature the verifier accepts for a request is unique; so are the words it makes. */
  ghost function ExpectedWords(env: Env, w: World, id: RequestId): seq<nat>
    requires id in w.tickets
  {
    CarriedWords(env, w, id, env.verifier.Encode(env.verifier.suite.Sign(env.verifier.pk, SeedOf(env, w, id))))
  }

  ghost predicate AllRecorded(w: World, v: World) {
    forall id | id in w.tickets :: id in v.tickets && Recorded(w.tickets[id], v.tickets[id])
  }

  /** Outside a batch the words handed over are those of the one signature that verifies. */
  ghost predicate WordsFit(env: Env, m: Moment) {
    m.Offered? && m.single && env.verifier.suite.Canonical() ==>
      m.id in m.world.tickets && m.words == ExpectedWords(env, m.world, m.id)
  }

  /** What is true at a moment of an execution that began in `w`. */
  ghost predicate MomentSound(env: Env, w: World, m: Moment) {
    && Sound(env, m.world) && Steady(w, m.world) && WordsFit(env, m)
    && (NamesOk(env, w) ==> NamesOk(env, m.world) && AllRecorded(w, m.world))
  }

  ghost predicate AllSound(env: Env, w: World, ms: seq<Moment>) {
    forall m | m in ms :: MomentSound(env, w, m)
  }

  lemma SoundHere(env: Env, w: World, m: Moment, ids: seq<RequestId>, bound: nat)
    requires Carries(env, w, m.world, ids, bound) && WordsFit(env, m)
    ensures AllSound(env, w, [m])
  {
    hide Sound, Steady, NamesOk, WordsFit, Recorded, TicketLasts;
  }

  lemma AllSoundJoin(env: Env, w: World, a: seq<Moment>, b: seq<Moment>)
    requires AllSound(env, w, a) && AllSound(env, w, b)
    ensures AllSound(env, w, a + b)
  {
    hide MomentSound;
  }

  lemma AllSoundLater(env: Env, u: World, v: World, ms: seq<Moment>, ids: seq<RequestId>, bound: nat)
    requires Carries(env, u, v, ids, bound) && AllSound(env, v, ms)
    ensures AllSound(env, u, ms)
  {
    hide Sound, NamesOk, WordsFit, TicketLasts, Steady;
    forall m | m in ms ensures MomentSound(env, u, m) {
      SteadyStep(u, v, m.world);
    }
  }

  // ----- the tree

  lemma DeliversIs(op: Op)
    ensures Delivers(op) <==> op.FulfillRandomWords? || op.RetryCallback?
  {}

  /** What fulfillRandomWords and retryCallback hand over. */
  lemma DeliveryEntry(env: Env, w: World, sender: Caller, gas: nat, op: Op, bound: nat)
    requires Sound(env, w) && Delivers(op) && gas <= bound && Enter(env, w, sender, gas, op).HandsOver?
    ensures var e := Enter(env, w, sender, gas, op);
      && Carries(env, w, e.world, [], bound) && e.limit <= gas
      && op.id in w.tickets && Touchable(w.tickets[op.id], w.block, bound)
      && WordsFit(env, Offered(e.world, op.id, CarriedWords(env, e.world, op.id, op.signature), true))
  {
    hide Sound, Carries, SettleRequest, VRFVerifier.Verify;
    var id, signature := op.id, op.signature;
    if op.FulfillRandomWords? {
      SettleCarries(env, w, sender, id, [], bound);
    } else {
      CarriesSelf(env, w, [], bound);
    }
    if env.verifier.suite.Canonical() {
      env.verifier.VerifyAccepts(SeedOf(env, w, id), signature);
    }
  }

  /** A batch whose members were open, and whose gas sufficed, changes nothing that was shielded or closed. */
  lemma BatchDone(env: Env, w: World, v: World, gas: nat, members: Members, signature: Signature, bound: nat)
    requires CheckBatch(env, w, gas, Ids(members), signature).None? && gas <= bound
    requires Carries(env, w, v, Ids(members), bound)
    ensures Carries(env, w, v, [], bound)
  {
    AcceptedIds(env, w, Ids(members));
    BatchCovered(env, w, gas, members, signature);
    hide Sound, NamesOk, Steady, Recorded, CheckBatch;
  }

  ghost predicate EntrySound(env: Env, w: World, gas: nat, op: Op, e: Entry, bound: nat) {
    match e
    case Refused(_) => true
    case Finished(v) => Carries(env, w, v, [], bound) && !Delivers(op)
    case HandsOver(v, limit) =>
      && Carries(env, w, v, [], bound) && limit <= gas
      && (Delivers(op) ==>
            && op.id in w.tickets && Touchable(w.tickets[op.id], w.block, bound)
            && WordsFit(env, Offered(v, op.id, CarriedWords(env, v, op.id, op.signature), true)))
  }

  lemma PlainCarries(env: Env, w: World, v: World, ids: seq<RequestId>, bound: nat)
    requires Sound(env, v) && Steady(w, v) && RequestsAlone(w, v)
    ensures Carries(env, w, v, ids, bound)
  {
    hide Sound, Steady, SameReservations;
  }

  lemma EveryEntry(env: Env, w: World, sender: Caller, gas: nat, op: Op, bound: nat)
    requires Sound(env, w) && gas <= bound
    ensures EntrySound(env, w, gas, op, Enter(env, w, sender, gas, op), bound)
  {
    hide Sound, Steady, RequestsAlone, Carries, Shielded, WordsFit, CarriedWords,
      Coordinator.FulfillRandomWords, Coordinator.RetryCallback, Coordinator.RequestRandomWords, Coordinator.Refund;
    var e := Enter(env, w, sender, gas, op);
    if IsPlain(op) {
      PlainKeeps(env, w, sender, gas, op);
      hide Enter;
      match e {
        case Refused(_) =>
        case Finished(v) => PlainCarries(env, w, v, [], bound);
        case HandsOver(v, _) => PlainCarries(env, w, v, [], bound);
      }
    } else if Delivers(op) {
      if e.HandsOver? { DeliveryEntry(env, w, sender, gas, op, bound); }
    } else if e.Finished? {
      match op {
        case RequestRandomWords(params) => RequestCarries(env, w, sender, params, bound);
        case Refund(id) => RefundCarries(env, w, id, bound);
        case FulfillBatch(_, _) => CarriesSelf(env, w, [], bound);
      }
    }
  }

  /** One call, whatever is below it. */
  lemma {:induction false} EveryCall(env: Env, w: World, c: Call, bound: nat)
    requires Sound(env, w)
    ensures Carries(env, w, Execute(env, w, c, bound), [], bound) && AllSound(env, w, Trace(env, w, c, bound))
    decreases c, 1
  {
    var gas := Min(c.gas, bound);
    var e := Enter(env, w, c.sender, gas, c.op);
    assert c.op.FulfillBatch? ==> !e.HandsOver?;
    assert c.op.FulfillBatch? && e.Finished? ==> CheckBatch(env, w, gas, Ids(c.op.members), c.op.signature).None?;
    hide Sound, Carries, Enter, MomentSound, Shielded, WordsFit;
    EveryEntry(env, w, c.sender, gas, c.op, bound);
    CarriesSelf(env, w, [], bound);
    match e {
      case Refused(_) =>
      case Finished(done) =>
        if c.op.FulfillBatch? {
          var ids := Ids(c.op.members);
          CarriesSelf(env, w, ids, bound);
          SoundBatching(env, w, ids);
          EveryMember(env, w, c.sender, c.op.members, c.op.signature, gas, ids, bound);
          AllSoundJoin(env, w, [Batching(w, ids)], TraceMembers(env, w, c.sender, c.op.members, c.op.signature, gas));
          var settled := ExecuteMembers(env, w, c.sender, c.op.members, gas);
          if settled.Some? { BatchDone(env, w, settled.value, gas, c.op.members, c.op.signature, bound); }
        }
      case HandsOver(handed, limit) =>
        EveryHandOver(env, w, c, bound, gas, handed, limit);
    }
  }

  lemma SoundBatching(env: Env, w: World, ids: seq<RequestId>)
    requires Sound(env, w)
    ensures AllSound(env, w, [Batching(w, ids)])
  {
    CarriesSelf(env, w, [], 0);
    SoundHere(env, w, Batching(w, ids), [], 0);
  }

  lemma {:induction false} EveryHandOver(env: Env, w: World, c: Call, bound: nat, gas: nat, handed: World, limit: nat)
    requires Sound(env, w) && gas == Min(c.gas, bound) && Enter(env, w, c.sender, gas, c.op) == HandsOver(handed, limit)
    requires EntrySound(env, w, gas, c.op, HandsOver(handed, limit), bound) && !c.op.FulfillBatch?
    ensures Carries(env, w, Execute(env, w, c, bound), [], bound) && AllSound(env, w, Trace(env, w, c, bound))
    decreases c, 0
  {
    var after := ExecuteAll(env, handed, c.callback.body, limit);
    var inside := TraceAll(env, handed, c.callback.body, limit);
    assert Execute(env, w, c, bound) == Leave(c.op, w, handed, after, c.callback.ok);
    assert Carries(env, w, handed, [], bound) ==> Sound(env, handed);
    hide Sound, Carries, MomentSound, Shielded, Enter, CarriedWords, WordsFit, AllSound;
    EveryProgram(env, handed, c.callback.body, limit);
    CarriesStep(env, w, handed, after, [], limit, bound);
    AllSoundLater(env, w, handed, inside, [], bound);
    CarriesSelf(env, w, [], bound);
    if Delivers(c.op) {
      var first := Offered(handed, c.op.id, CarriedWords(env, handed, c.op.id, c.op.signature), true);
      assert Trace(env, w, c, bound) == [first] + inside;
      SoundHere(env, w, first, [], bound);
      AllSoundJoin(env, w, [first], inside);
      DeliverCarries(env, w, after, c.op.id, [], bound);
    } else {
      assert Trace(env, w, c, bound) == [] + inside == inside;
    }
  }

  /** Any program of calls. */
  lemma {:induction false} EveryProgram(env: Env, w: World, p: Program, bound: nat)
    requires Sound(env, w)
    ensures Carries(env, w, ExecuteAll(env, w, p, bound), [], bound) && AllSound(env, w, TraceAll(env, w, p, bound))
    decreases p
  {
    CarriesSelf(env, w, [], bound);
    SoundHere(env, w, Control(w), [], bound);
    match p {
      case Stop => assert TraceAll(env, w, p, bound) == [Control(w)];
      case Then(c, rest) =>
        var next := Execute(env, w, c, bound);
        var here, later := Trace(env, w, c, bound), TraceAll(env, next, rest, bound);
        assert TraceAll(env, w, p, bound) == [Control(w)] + (here + later);
        EveryCall(env, w, c, bound);
        assert Sound(env, next);
        hide Sound, Carries, MomentSound, Execute, Trace, AllSound;
        EveryProgram(env, next, rest, bound);
        CarriesStep(env, w, next, ExecuteAll(env, next, rest, bound), [], bound, bound);
        AllSoundLater(env, w, next, later, [], bound);
        AllSoundJoin(env, w, here, later);
        AllSoundJoin(env, w, [Control(w)], here + later);
    }
  }

  /** The members of the batch `ids`, one after the other. */
  lemma {:induction false} EveryMember(env: Env, w: World, sender: Caller, members: Members, signature: Signature,
      gas: nat, ids: seq<RequestId>, bound: nat)
    requires Sound(env, w) && gas <= bound && forall id | id in Ids(members) :: id in ids
    ensures AllSound(env, w, TraceMembers(env, w, sender, members, signature, gas))
    ensures var settled := ExecuteMembers(env, w, sender, members, gas);
      settled.Some? ==> Carries(env, w, settled.value, ids, bound)
    decreases members
  {
    CarriesSelf(env, w, ids, bound);
    match members {
      case NoMembers => assert TraceMembers(env, w, sender, members, signature, gas) == [];
      case Member(id, callback, others) =>
        assert id in Ids(members) && id in ids;
        assert forall i | i in Ids(others) :: i in Ids(members);
        SoundHere(env, w, Settling(w, id), ids, bound);
        var settled := SettleRequest(w, sender, id);
        if settled.Ok? {
          EveryTurn(env, w, sender, members, signature, gas, ids, bound);
        } else {
          assert TraceMembers(env, w, sender, members, signature, gas) == [Settling(w, id)];
        }
    }
  }

  lemma {:induction false} EveryTurn(env: Env, w: World, sender: Caller, members: Members, signature: Signature,
      gas: nat, ids: seq<RequestId>, bound: nat)
    requires Sound(env, w) && gas <= bound && members.Member?
    requires members.id in ids && forall i | i in Ids(members.others) :: i in ids
    requires SettleRequest(w, sender, members.id).Ok? && AllSound(env, w, [Settling(w, members.id)])
    ensures AllSound(env, w, TraceMembers(env, w, sender, members, signature, gas))
    ensures var settled := ExecuteMembers(env, w, sender, members, gas);
      settled.Some? ==> Carries(env, w, settled.value, ids, bound)
    decreases members, 0
  {
    hide *;
    var id, callback, others := members.id, members.callback, members.others;
    var handed, next := SettleRequest(w, sender, id).value, AfterMember(env, w, sender, id, callback, gas);
    var limit := MemberLimit(handed, id, gas);
    var offered := Offered(handed, id, CarriedWords(env, handed, id, signature), false);
    var inside, later := TraceAll(env, handed, callback.body, limit), TraceMembers(env, next, sender, others, signature, gas);
    SettleKnown(w, sender, id);
    SettleCarries(env, w, sender, id, ids, bound);
    CarriesSound(env, w, handed, ids, bound);
    NoWords(env, handed, id, CarriedWords(env, handed, id, signature));
    SoundHere(env, w, offered, ids, bound);
    EveryProgram(env, handed, callback.body, limit);
    TurnCarries(env, w, sender, id, callback, gas, ids, bound);
    CarriesSound(env, w, next, ids, bound);
    EveryMember(env, next, sender, others, signature, gas, ids, bound);
    OneMember(env, w, sender, members, gas);
    var settled := ExecuteMembers(env, next, sender, others, gas);
    if settled.Some? { CarriesStep(env, w, next, settled.value, ids, bound, bound); }
    AllSoundLater(env, w, handed, inside, ids, bound);
    AllSoundLater(env, w, next, later, ids, bound);
    TurnTrace(env, w, sender, members, signature, gas);
    AllSoundJoin(env, w, [Settling(w, id)], [offered]);
    assert [Settling(w, id)] + [offered] == [Settling(w, id), offered];
    AllSoundJoin(env, w, inside, later);
    AllSoundJoin(env, w, [Settling(w, id), offered], inside + later);
  }

  lemma NoWords(env: Env, w: World, id: RequestId, words: seq<nat>)
    ensures WordsFit(env, Offered(w, id, words, false))
  {}

  /** One member's turn, its callback included. */
  lemma {:induction false} TurnCarries(env: Env, w: World, sender: Caller, id: RequestId, callback: Callback, gas: nat,
      ids: seq<RequestId>, bound: nat)
    requires Sound(env, w) && gas <= bound && id in ids && SettleRequest(w, sender, id).Ok?
    ensures Carries(env, w, AfterMember(env, w, sender, id, callback, gas), ids, bound)
    decreases callback
  {
    hide *;
    var handed := SettleRequest(w, sender, id).value;
    var limit := MemberLimit(handed, id, gas);
    var after := ExecuteAll(env, handed, callback.body, limit);
    SettleKnown(w, sender, id);
    SettleCarries(env, w, sender, id, ids, bound);
    CarriesSound(env, w, handed, ids, bound);
    EveryProgram(env, handed, callback.body, limit);
    CarriesMore(env, handed, after, ids, limit);
    LimitWithin(handed, id, gas);
    CarriesStep(env, w, handed, after, ids, limit, bound);
    DeliverCarries(env, w, after, id, ids, bound);
    AfterIs(env, w, sender, id, callback, gas);
  }

  lemma LimitWithin(w: World, id: RequestId, gas: nat)
    ensures MemberLimit(w, id, gas) <= gas
  {}

  lemma CarriesSound(env: Env, w: World, v: World, ids: seq<RequestId>, bound: nat)
    requires Carries(env, w, v, ids, bound)
    ensures Sound(env, v)
  {}

  // ----- one member's turn

  /** The state after one member's turn. */
  function AfterMember(env: Env, w: World, sender: Caller, id: RequestId, callback: Callback, gas: nat): World
    requires SettleRequest(w, sender, id).Ok?
  {
    var handed := SettleRequest(w, sender, id).value;
    if callback.ok then Deliver(ExecuteAll(env, handed, callback.body, MemberLimit(handed, id, gas)), id) else handed
  }

  lemma OneMember(env: Env, w: World, sender: Caller, members: Members, gas: nat)
    requires members.Member? && SettleRequest(w, sender, members.id).Ok?
    ensures ExecuteMembers(env, w, sender, members, gas)
      == ExecuteMembers(env, AfterMember(env, w, sender, members.id, members.callback, gas), sender, members.others, gas)
  {
    hide SettleRequest, Deliver, ExecuteAll;
  }

  lemma TurnTrace(env: Env, w: World, sender: Caller, members: Members, signature: Signature, gas: nat)
    requires members.Member? && SettleRequest(w, sender, members.id).Ok?
    ensures var id, handed := members.id, SettleRequest(w, sender, members.id).value;
      TraceMembers(env, w, sender, members, signature, gas)
        == [Settling(w, id), Offered(handed, id, CarriedWords(env, handed, id, signature), false)]
          + (TraceAll(env, handed, members.callback.body, MemberLimit(handed, id, gas))
            + TraceMembers(env, AfterMember(env, w, sender, id, members.callback, gas), sender, members.others, signature, gas))
  {
    hide SettleRequest, CarriedWords, TraceAll, ExecuteAll, Deliver;
  }

  lemma CarriesNames(env: Env, w: World, v: World, ids: seq<RequestId>, bound: nat)
    requires Carries(env, w, v, ids, bound) && NamesOk(env, w)
    ensures Sound(env, v) && NamesOk(env, v)
  {}

  /** A member's turn leaves alone whatever its callback cannot close. */
  lemma TurnLeavesShielded(env: Env, w: World, sender: Caller, id: RequestId, callback: Callback, gas: nat)
    requires Sound(env, w) && NamesOk(env, w) && SettleRequest(w, sender, id).Ok?
    ensures var next := AfterMember(env, w, sender, id, callback, gas);
      && Sound(env, next) && NamesOk(env, next) && next.block == w.block && AllRecorded(w, next)
      && (forall j | j in w.tickets && j != id && Shielded(w.tickets[j], w.block, w.tickets[id].req.callbackGasLimit) ::
            j in next.tickets && next.tickets[j] == w.tickets[j])
  {
    hide *;
    var handed := SettleRequest(w, sender, id).value;
    var limit, next := MemberLimit(handed, id, gas), AfterMember(env, w, sender, id, callback, gas);
    var after := ExecuteAll(env, handed, callback.body, limit);
    SettleKnown(w, sender, id);
    SettleCarries(env, w, sender, id, [id], 0);
    CarriesNames(env, w, handed, [id], 0);
    CarriesBlock(env, w, handed, [id], 0);
    EveryProgram(env, handed, callback.body, limit);
    CarriesMore(env, handed, after, [id], limit);
    DeliverCarries(env, handed, after, id, [id], limit);
    AfterIs(env, w, sender, id, callback, gas);
    ShieldedStay(env, handed, next, id, limit);
    RecordedThrough(w, handed, next, id);
    ShieldedLess(w, handed, id, limit);
  }

  lemma SettleKnown(w: World, sender: Caller, id: RequestId)
    requires SettleRequest(w, sender, id).Ok?
    ensures id in w.tickets
  {}

  lemma CarriesBlock(env: Env, w: World, v: World, ids: seq<RequestId>, bound: nat)
    requires Carries(env, w, v, ids, bound)
    ensures v.block == w.block
  {
    hide Sound, NamesOk, LedgerEvolves, PricingEvolves;
  }

  lemma AfterIs(env: Env, w: World, sender: Caller, id: RequestId, callback: Callback, gas: nat)
    requires SettleRequest(w, sender, id).Ok?
    ensures var handed := SettleRequest(w, sender, id).value;
      var limit := MemberLimit(handed, id, gas);
      && (AfterMember(env, w, sender, id, callback, gas)
           == if callback.ok then Deliver(ExecuteAll(env, handed, callback.body, limit), id) else handed)
      && (id in handed.tickets ==> limit <= handed.tickets[id].req.callbackGasLimit)
  {
    hide SettleRequest, Deliver, ExecuteAll;
  }

  /** What is shielded against a member's limit is shielded against less. */
  lemma ShieldedLess(w: World, handed: World, id: RequestId, limit: nat)
    requires id in w.tickets && handed.tickets.Keys == w.tickets.Keys && handed.block == w.block
    requires limit <= w.tickets[id].req.callbackGasLimit
    requires forall j | j in w.tickets && j != id :: handed.tickets[j] == w.tickets[j]
    ensures forall j | j in w.tickets && j != id && Shielded(w.tickets[j], w.block, w.tickets[id].req.callbackGasLimit) ::
      Shielded(handed.tickets[j], handed.block, limit)
  {}

  lemma ShieldedStay(env: Env, w: World, v: World, id: RequestId, limit: nat)
    requires NamesOk(env, w) && (v == w || Carries(env, w, v, [id], limit)) && Sound(env, w)
    ensures Sound(env, v) && NamesOk(env, v) && v.block == w.block && AllRecorded(w, v)
    ensures forall j | j in w.tickets && j != id && Shielded(w.tickets[j], w.block, limit) ::
      j in v.tickets && v.tickets[j] == w.tickets[j]
  {
    assert forall t: Ticket :: Recorded(t, t);
    hide Sound, NamesOk, Recorded, ClosedStays;
  }

  lemma RecordedThrough(w: World, handed: World, next: World, id: RequestId)
    requires id in w.tickets && handed.tickets.Keys == w.tickets.Keys && AllRecorded(handed, next)
    requires handed.tickets[id].req == w.tickets[id].req.(fulfilled := true) && handed.tickets[id].nonce == w.tickets[id].nonce
    requires forall j | j in w.tickets && j != id :: handed.tickets[j] == w.tickets[j]
    ensures AllRecorded(w, next)
  {}
}
