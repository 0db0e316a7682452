/**
 The coordinator as an object: src/VRFCoordinator.sol, function for function, calling into the
 ledger object and calling back into foreign code, proved against the execution of Reentrancy.dfy.

 The fields `block` and `outside` stand for the chain: block.number, and the coin held elsewhere.
 A method that fails may leave anything behind; the caller's frame (Transact) restores the state,
 as a revert does.
 */
module CoordinatorContract {
  import opened Common
  import opened Blsvrf
  import opened Verifier
  import opened Sums
  import opened Accounts
  import opened Coordinator
  import opened Reentrancy
  import opened Invariants
  import opened Always
  import Promises
  import opened SubscriptionContract

  /** What a method for `op` did, seen from its caller: failed, finished, or ran foreign code and resumed. */
  ghost predicate Performed(env: Env, before: World, after: World, sender: Caller, gas: nat, op: Op,
      callback: Callback, failure: Option<Error>)
  {
    match Enter(env, before, sender, gas, op)
    case Refused(e) => failure == Some(e)
    case Finished(done) => failure == None && after == done
    case HandsOver(handed, limit) =>
      var left := ExecuteAll(env, handed, callback.body, limit);
      if Delivers(op) || callback.ok then failure == None && after == Leave(op, before, handed, left, callback.ok)
      else failure == Some(TransferFailed)
  }

  class VRFCoordinator {
    const env: Env
    const self: Address
    const subscriptions: Subscription

    var tickets: map<RequestId, Ticket>
    var nonces: map<Address, nat>
    var fees: Fees
    var pendingFees: Fees
    var pendingFeesEffectiveAtBlock: nat
    var owner: Address
    var pendingOwner: Address
    var proposals: seq<Proposal>
    var block: nat
    var outside: nat

    ghost predicate Wired() { subscriptions.coordinator == self }

    function Prices(): Pricing
      reads this
    {
      Pricing(fees, pendingFees, pendingFeesEffectiveAtBlock, owner, pendingOwner, proposals)
    }

    function View(): World
      reads this, subscriptions
    {
      World(subscriptions.View(), tickets, nonces, Prices(), block, outside)
    }

    /** The ledger adds up, its indices agree, and prices and ownership are as promised. */
    ghost predicate Valid()
      reads this, subscriptions
    {
      Wired() && Sound(env, View())
    }

    /** Deployment; refused when the first prices exceed the caps. */
    constructor (env: Env, self: Address, deployer: Caller, block: nat, outside: nat)
      requires WithinCaps(env, env.initialFees)
      ensures Wired() && this.env == env && fresh(subscriptions)
      ensures View() == World(EMPTY, map[], map[], Pricing(env.initialFees, Fees(0, 0, 0), 0, deployer, ZERO, []), block, outside)
      ensures block < Coordinator.TWO64 && outside <= MAX96 ==> Valid()
    {
      this.env, this.self := env, self;
      tickets, nonces, fees, pendingFees := map[], map[], env.initialFees, Fees(0, 0, 0);
      pendingFeesEffectiveAtBlock, owner, pendingOwner, proposals := 0, deployer, ZERO, [];
      this.block, this.outside := block, outside;
      subscriptions := new Subscription(self);
      new;
      if block < Coordinator.TWO64 && outside <= MAX96 { Promises.GenesisSound(env, deployer, block, outside); }
      hide Sound;
    }

    method Restore(w: World)
      modifies this, subscriptions
      ensures View() == w
    {
      subscriptions.Restore(w.ledger);
      tickets, nonces, fees, pendingFees := w.tickets, w.nonces, w.pricing.current, w.pricing.pending;
      pendingFeesEffectiveAtBlock, owner, pendingOwner := w.pricing.effectiveAt, w.pricing.owner, w.pricing.pendingOwner;
      proposals, block, outside := w.pricing.proposals, w.block, w.outside;
    }

    // ----- pricing and ownership

    static ghost predicate Repriced(before: World, after: World, r: Result<Pricing, Error>, failure: Option<Error>) {
      match r
      case Ok(p) => after == before.(pricing := p) && failure == None
      case Err(e) => after == before && failure == Some(e)
    }

    method ProposeFees(sender: Caller, newFees: Fees) returns (failure: Option<Error>)
      modifies this
      ensures Repriced(old(View()), View(), Coordinator.ProposeFees(env, old(View()), sender, newFees), failure)
    {
      if sender != owner { return Some(NotOwner); }
      if !WithinCaps(env, newFees) { return Some(FeeAboveCap); }
      if block % TWO64 + FEE_TIMELOCK_BLOCKS > MAX64 { return Some(Overflow); }
      pendingFees := newFees;
      pendingFeesEffectiveAtBlock := block % TWO64 + FEE_TIMELOCK_BLOCKS;
      proposals := Mark(proposals, Replaced) + [Proposal(newFees, block, Waiting)];
      return None;
    }

    method ClearPendingFees(status: Status)
      modifies this
      ensures View() == old(View()).(pricing := ClearPending(old(Prices()), status))
    {
      pendingFees := Fees(0, 0, 0);
      pendingFeesEffectiveAtBlock := 0;
      proposals := Mark(proposals, status);
    }

    method ApplyFees() returns (failure: Option<Error>)
      modifies this
      ensures Repriced(old(View()), View(), Coordinator.ApplyFees(old(View())), failure)
    {
      if pendingFeesEffectiveAtBlock == 0 { return Some(NoFeeChangePending); }
      if block < pendingFeesEffectiveAtBlock { return Some(TooEarly); }
      fees := pendingFees;
      ClearPendingFees(Applied(block));
      return None;
    }

    method CancelFeeChange(sender: Caller) returns (failure: Option<Error>)
      modifies this
      ensures Repriced(old(View()), View(), Coordinator.CancelFeeChange(old(View()), sender), failure)
    {
      if sender != owner { return Some(NotOwner); }
      ClearPendingFees(Cancelled);
      return None;
    }

    method TransferOwnership(sender: Caller, newOwner: Address) returns (failure: Option<Error>)
      modifies this
      ensures Repriced(old(View()), View(), Coordinator.TransferOwnership(old(View()), sender, newOwner), failure)
    {
      if sender != owner { return Some(NotOwner); }
      pendingOwner := newOwner;
      return None;
    }

    method AcceptOwnership(sender: Caller) returns (failure: Option<Error>)
      modifies this
      ensures Repriced(old(View()), View(), Coordinator.AcceptOwnership(old(View()), sender), failure)
    {
      if sender != pendingOwner { return Some(NotPendingOwner); }
      owner := sender;
      pendingOwner := ZERO;
      return None;
    }

    method RenounceOwnership(sender: Caller) returns (failure: Option<Error>)
      modifies this
      ensures Repriced(old(View()), View(), Coordinator.RenounceOwnership(old(View()), sender), failure)
    {
      if sender != owner { return Some(NotOwner); }
      owner := ZERO;
      pendingOwner := ZERO;
      ClearPendingFees(Cancelled);
      return None;
    }

    // ----- requests

    method RequestRandomWords(sender: Caller, q: RequestParams) returns (requestId: RequestId, failure: Option<Error>)
      requires Wired()
      modifies this, subscriptions
      ensures match Coordinator.RequestRandomWords(env, old(View()), sender, q)
        case Ok(w) => failure == None && View() == w && requestId == env.requestId(sender, Get(old(nonces), sender))
        case Err(e) => failure == Some(e)
    {
      var refused := CheckRequest(env, View(), sender, q);
      if refused.Some? { return 0, refused; }
      var nonce := Get(nonces, sender);
      nonces := nonces[sender := nonce + 1];
      requestId := env.requestId(sender, nonce);
      var quoted := Price(fees, q.numWords, q.callbackGasLimit);
      if quoted.Err? { return requestId, Some(quoted.error); }
      var req := Request(sender, q.subId, q.numWords, q.callbackGasLimit, block % TWO64, quoted.value,
                         false, false, false);
      tickets := tickets[requestId := Ticket(req, nonce, [], [], 0)];
      failure := subscriptions.Reserve(self, q.subId, quoted.value);
    }

    method Refund(id: RequestId) returns (failure: Option<Error>)
      requires Wired()
      modifies this, subscriptions
      ensures match Coordinator.Refund(old(View()), id)
        case Ok(w) => failure == None && View() == w
        case Err(e) => failure == Some(e)
    {
      if id !in tickets { return Some(NoSuchRequest); }
      var t := tickets[id];
      if !Open(t.req) { return Some(RequestClosed); }
      if block <= t.req.createdAtBlock + TIMEOUT_BLOCKS { return Some(TooEarly); }
      tickets := tickets[id := t.(req := t.req.(refunded := true), released := t.released + [t.req.paid])];
      failure := subscriptions.Release(self, t.req.subId, t.req.paid);
    }

    /** The words of one request, filled in one by one. */
    method FillWords(randomness: nat, id: RequestId, numWords: nat) returns (words: seq<nat>)
      ensures words == Words(env, randomness, id, numWords)
    {
      words := [];
      for i := 0 to numWords
        invariant |words| == i && forall k | 0 <= k < i :: words[k] == env.wordHash(randomness, id, k)
      {
        words := words + [env.wordHash(randomness, id, i)];
      }
    }

    /** Marks a request fulfilled and pays the publisher. */
    method SettleOne(sender: Caller, id: RequestId) returns (failure: Option<Error>)
      requires Wired() && id in tickets
      modifies this, subscriptions
      ensures match SettleRequest(old(View()), sender, id)
        case Ok(w) => failure == None && View() == w
        case Err(e) => failure == Some(e)
    {
      var t := tickets[id];
      tickets := tickets[id := t.(req := t.req.(fulfilled := true), credited := t.credited + [Credit(sender, t.req.paid)])];
      failure := subscriptions.Settle(self, t.req.subId, t.req.paid, sender);
    }

    method RecordDelivery(id: RequestId)
      modifies this
      ensures View() == Deliver(old(View()), id)
    {
      if id in tickets {
        var t := tickets[id];
        tickets := tickets[id := t.(req := t.req.(callbackSucceeded := true), delivered := t.delivered + 1)];
      }
    }

    /** Calls the consumer with the words, under its gas limit; a failing consumer leaves no trace. */
    method CallBack(id: RequestId, words: seq<nat>, limit: nat, callback: Callback) returns (ok: bool)
      requires Wired()
      modifies this, subscriptions
      ensures ok == callback.ok
      ensures View() == if ok then ExecuteAll(env, old(View()), callback.body, limit) else old(View())
      decreases callback, 0
    {
      var saved := View();
      RunAll(callback.body, limit);
      ok := callback.ok;
      if !ok { Restore(saved); }
    }

    method FulfillRandomWords(sender: Caller, gas: nat, id: RequestId, signature: Signature, callback: Callback)
        returns (failure: Option<Error>, words: seq<nat>)
      requires Wired()
      modifies this, subscriptions
      ensures Performed(env, old(View()), View(), sender, gas, Op.FulfillRandomWords(id, signature), callback, failure)
      ensures failure.None? ==> words == CarriedWords(env, old(View()), id, signature)
      decreases callback, 1
    {
      if id !in tickets { return Some(NoSuchRequest), []; }
      var req := tickets[id].req;
      if !Open(req) { return Some(RequestClosed), []; }
      if gas < GasNeeded(req.callbackGasLimit) { return Some(InsufficientGas), []; }
      if !env.verifier.Verify(env.seedHash(id, req.consumer), signature) { return Some(InvalidProof), []; }
      words := FillWords(env.signatureHash(signature), id, req.numWords);
      failure := SettleOne(sender, id);
      if failure.Some? { return; }
      var ok := CallBack(id, words, Min(req.callbackGasLimit, gas), callback);
      if ok { RecordDelivery(id); }
    }

    method RetryCallback(sender: Caller, gas: nat, id: RequestId, signature: Signature, callback: Callback)
        returns (failure: Option<Error>, words: seq<nat>)
      requires Wired()
      modifies this, subscriptions
      ensures Performed(env, old(View()), View(), sender, gas, Op.RetryCallback(id, signature), callback, failure)
      ensures failure.None? ==> words == CarriedWords(env, old(View()), id, signature)
      decreases callback, 1
    {
      if id !in tickets { return Some(NoSuchRequest), []; }
      var req := tickets[id].req;
      if !req.fulfilled { return Some(NotFulfilled), []; }
      if req.callbackSucceeded { return Some(CallbackAlreadyDelivered), []; }
      if gas < GasNeeded(req.callbackGasLimit) { return Some(InsufficientGas), []; }
      if !env.verifier.Verify(env.seedHash(id, req.consumer), signature) { return Some(InvalidProof), []; }
      words := FillWords(env.signatureHash(signature), id, req.numWords);
      var ok := CallBack(id, words, Min(req.callbackGasLimit, gas), callback);
      if ok { RecordDelivery(id); }
      failure := None;
    }

    /** A transfer of `amount`, with the receiver's code run inside it. */
    method Pay(amount: nat, gas: nat, callback: Callback) returns (failure: Option<Error>)
      requires Wired()
      modifies this, subscriptions
      ensures match Send(old(View()), old(View()).ledger, amount)
        case Err(e) => failure == Some(e)
        case Ok(sent) =>
          if amount == 0 then failure == None && View() == sent
          else if callback.ok then failure == None && View() == ExecuteAll(env, sent, callback.body, gas)
          else failure == Some(TransferFailed)
      decreases callback, 1
    {
      hide ExecuteAll, Sound, Steady;
      if subscriptions.coin < amount { return Some(TransferFailed); }
      if amount == 0 {
        return None;
      }
      subscriptions.coin := subscriptions.coin - amount;
      outside := outside + amount;
      RunAll(callback.body, gas);
      if !callback.ok { return Some(TransferFailed); }
      return None;
    }

    // ----- batches

    static lemma {:induction false} ErrorStays(env: Env, w: World, ids: seq<RequestId>, k: nat)
      requires k <= |ids| && BatchSeeds(env, w, ids[..k]).Err?
      ensures BatchSeeds(env, w, ids) == BatchSeeds(env, w, ids[..k])
      decreases |ids|
    {
      if k == |ids| {
        assert ids[..k] == ids;
      } else {
        assert ids[..|ids| - 1][..k] == ids[..k];
        ErrorStays(env, w, ids[..|ids| - 1], k);
      }
    }

    method CheckMembers(gas: nat, ids: seq<RequestId>, signature: Signature) returns (failure: Option<Error>)
      ensures failure == CheckBatch(env, View(), gas, ids, signature)
    {
      if |ids| == 0 { return Some(EmptyBatch); }
      var seeds: seq<Seed>, gasNeeded: nat, previous: nat := [], 0, 0;
      for i := 0 to |ids|
        invariant BatchSeeds(env, View(), ids[..i]) == Ok(seeds) && gasNeeded == BatchGas(View(), ids[..i])
        invariant i != 0 ==> previous == ids[i - 1]
      {
        assert ids[..i + 1][..i] == ids[..i] && ids[..i + 1][i] == ids[i];
        var id := ids[i];
        if i != 0 && id <= previous { ErrorStays(env, View(), ids, i + 1); return Some(BatchNotSorted); }
        previous := id;
        if id !in tickets { ErrorStays(env, View(), ids, i + 1); return Some(NoSuchRequest); }
        var req := tickets[id].req;
        if !Open(req) { ErrorStays(env, View(), ids, i + 1); return Some(RequestClosed); }
        seeds := seeds + [env.seedHash(id, req.consumer)];
        gasNeeded := gasNeeded + GasNeeded(req.callbackGasLimit);
      }
      assert ids[..|ids|] == ids;
      if gas < gasNeeded { return Some(InsufficientGas); }
      var accepted := env.verifier.VerifyBatch(seeds, signature);
      if !accepted { return Some(InvalidProof); }
      return None;
    }

    method FulfillBatch(sender: Caller, gas: nat, members: Members, signature: Signature) returns (failure: Option<Error>)
      requires Wired()
      modifies this, subscriptions
      ensures var w := old(View());
        if CheckBatch(env, w, gas, Ids(members), signature).Some?
        then failure == CheckBatch(env, w, gas, Ids(members), signature)
        else match ExecuteMembers(env, w, sender, members, gas)
          case None => failure.Some?
          case Some(v) => failure == None && View() == v
      decreases members
    {
      failure := CheckMembers(gas, Ids(members), signature);
      if failure.Some? { return; }
      var rest := members;
      while rest.Member?
        invariant ExecuteMembers(env, old(View()), sender, members, gas) == ExecuteMembers(env, View(), sender, rest, gas)
        invariant failure == None
        invariant rest == members || rest < members
        decreases rest
      {
        var id, callback := rest.id, rest.callback;
        if id !in tickets { return Some(NoSuchRequest); }
        failure := SettleOne(sender, id);
        if failure.Some? { return; }
        var words := FillWords(env.signatureHash(signature), id, tickets[id].req.numWords);
        var ok := CallBack(id, words, Min(tickets[id].req.callbackGasLimit, gas), callback);
        if ok { RecordDelivery(id); }
        rest := rest.others;
      }
    }

    // ----- frames

    /** The functions of the ledger that send nothing. */
    method CallLedger(sender: Caller, ghost gas: nat, op: Op, ghost callback: Callback) returns (failure: Option<Error>)
      requires Wired()
      requires op.CreateSubscription? || op.FundSubscription? || op.AddConsumer? || op.RemoveConsumer?
        || op.RequestOwnerTransfer? || op.AcceptOwnerTransfer?
      modifies this, subscriptions
      ensures Performed(env, old(View()), View(), sender, gas, op, callback, failure)
    {
      match op {
        case CreateSubscription =>
          var _, f := subscriptions.CreateSubscription(sender);
          failure := f;
        case FundSubscription(subId, value) =>
          if outside < value { return Some(CannotPay); }
          outside := outside - value;
          failure := subscriptions.FundSubscription(subId, value);
        case AddConsumer(subId, consumer) => failure := subscriptions.AddConsumer(sender, subId, consumer);
        case RemoveConsumer(subId, consumer) => failure := subscriptions.RemoveConsumer(sender, subId, consumer);
        case RequestOwnerTransfer(subId, newOwner) =>
          failure := subscriptions.RequestOwnerTransfer(sender, subId, newOwner);
        case AcceptOwnerTransfer(subId) => failure := subscriptions.AcceptOwnerTransfer(sender, subId);
      }
    }

    /** The functions that end in a transfer. */
    method CallPaying(sender: Caller, gas: nat, op: Op, callback: Callback) returns (failure: Option<Error>)
      requires Wired()
      requires op.WithdrawFromSubscription? || op.CancelSubscription? || op.Withdraw?
      modifies this, subscriptions
      ensures Performed(env, old(View()), View(), sender, gas, op, callback, failure)
      decreases callback, 2
    {
      hide Accounts.WithdrawFromSubscription, Accounts.CancelSubscription, Accounts.Withdraw, ExecuteAll, Kept, LedgerInv,
        Subscription.Valid;
      var amount: nat;
      match op {
        case WithdrawFromSubscription(subId, requested) =>
          amount := requested;
          failure := subscriptions.WithdrawFromSubscription(sender, subId, requested);
        case CancelSubscription(subId) => amount, failure := subscriptions.CancelSubscription(sender, subId);
        case Withdraw => amount, failure := subscriptions.Withdraw(sender);
      }
      if failure.Some? { return; }
      failure := Pay(amount, gas, callback);
    }

    static predicate IsPricing(op: Op) {
      op.ProposeFees? || op.ApplyFees? || op.CancelFeeChange? || op.TransferOwnership? || op.AcceptOwnership?
        || op.RenounceOwnership?
    }

    static function PricingResult(env: Env, w: World, sender: Caller, op: Op): Result<Pricing, Error>
      requires IsPricing(op)
    {
      match op
      case ProposeFees(newFees) => Coordinator.ProposeFees(env, w, sender, newFees)
      case ApplyFees => Coordinator.ApplyFees(w)
      case CancelFeeChange => Coordinator.CancelFeeChange(w, sender)
      case TransferOwnership(newOwner) => Coordinator.TransferOwnership(w, sender, newOwner)
      case AcceptOwnership => Coordinator.AcceptOwnership(w, sender)
      case RenounceOwnership => Coordinator.RenounceOwnership(w, sender)
    }

    static lemma RepricedPerforms(env: Env, w: World, v: World, sender: Caller, gas: nat, op: Op, callback: Callback,
        failure: Option<Error>)
      requires IsPricing(op) && Repriced(w, v, PricingResult(env, w, sender, op), failure)
      ensures Performed(env, w, v, sender, gas, op, callback, failure)
    {
      hide Coordinator.ProposeFees, Coordinator.ApplyFees, Coordinator.CancelFeeChange, Coordinator.TransferOwnership,
        Coordinator.AcceptOwnership, Coordinator.RenounceOwnership;
    }

    method CallPricing(sender: Caller, ghost gas: nat, op: Op, ghost callback: Callback) returns (failure: Option<Error>)
      requires IsPricing(op)
      modifies this
      ensures Performed(env, old(View()), View(), sender, gas, op, callback, failure)
    {
      hide Performed, Enter, Repriced, Coordinator.ProposeFees, Coordinator.ApplyFees, Coordinator.CancelFeeChange,
        Coordinator.TransferOwnership, Coordinator.AcceptOwnership, Coordinator.RenounceOwnership;
      match op {
        case ProposeFees(newFees) => failure := ProposeFees(sender, newFees);
        case ApplyFees => failure := ApplyFees();
        case CancelFeeChange => failure := CancelFeeChange(sender);
        case TransferOwnership(newOwner) => failure := TransferOwnership(sender, newOwner);
        case AcceptOwnership => failure := AcceptOwnership(sender);
        case RenounceOwnership => failure := RenounceOwnership(sender);
      }
      RepricedPerforms(env, old(View()), View(), sender, gas, op, callback, failure);
    }

    /** The functions about requests, one request at a time. */
    method CallRequests(sender: Caller, gas: nat, op: Op, callback: Callback) returns (failure: Option<Error>)
      requires Wired()
      requires op.RequestRandomWords? || op.Refund? || op.FulfillRandomWords? || op.RetryCallback?
      modifies this, subscriptions
      ensures Performed(env, old(View()), View(), sender, gas, op, callback, failure)
      decreases callback, 2
    {
      match op {
        case FulfillRandomWords(id, signature) =>
          var f, _ := FulfillRandomWords(sender, gas, id, signature, callback);
          failure := f;
        case RetryCallback(id, signature) =>
          var f, _ := RetryCallback(sender, gas, id, signature, callback);
          failure := f;
        case RequestRandomWords(params) =>
          var _, f := RequestRandomWords(sender, params);
          failure := f;
        case Refund(id) => failure := Refund(id);
      }
    }

    /** One call in a frame that holds at most `bound` gas; a failure puts the state back. */
    method Transact(c: Call, bound: nat)
      requires Wired()
      modifies this, subscriptions
      ensures View() == Execute(env, old(View()), c, bound)
      ensures old(Valid()) ==> Valid() && Steady(old(View()), View())
      decreases c
    {
      CallStays(env, View(), c, bound);
      hide Performed, Execute, Enter, ExecuteMembers, CheckBatch, Sound, Steady;
      var saved, gas := View(), Min(c.gas, bound);
      var failure: Option<Error>;
      var op, sender := c.op, c.sender;
      if op.FulfillBatch? {
        failure := FulfillBatch(sender, gas, op.members, op.signature);
        BatchIsExecute(env, saved, View(), c, bound, failure);
      } else {
        if op.RequestRandomWords? || op.Refund? || op.FulfillRandomWords? || op.RetryCallback? {
          failure := CallRequests(sender, gas, op, c.callback);
        } else if op.WithdrawFromSubscription? || op.CancelSubscription? || op.Withdraw? {
          failure := CallPaying(sender, gas, op, c.callback);
        } else if op.CreateSubscription? || op.FundSubscription? || op.AddConsumer? || op.RemoveConsumer?
          || op.RequestOwnerTransfer? || op.AcceptOwnerTransfer? {
          failure := CallLedger(sender, gas, op, c.callback);
        } else {
          failure := CallPricing(sender, gas, op, c.callback);
        }
        PerformedIsExecute(env, saved, View(), c, bound, failure);
      }
      if failure.Some? { Restore(saved); }
    }

    static lemma PerformedIsExecute(env: Env, w: World, v: World, c: Call, bound: nat, failure: Option<Error>)
      requires !c.op.FulfillBatch?
      requires Performed(env, w, v, c.sender, Min(c.gas, bound), c.op, c.callback, failure)
      ensures Execute(env, w, c, bound) == if failure.None? then v else w
    {
      hide Enter;
    }

    static lemma BatchIsExecute(env: Env, w: World, v: World, c: Call, bound: nat, failure: Option<Error>)
      requires c.op.FulfillBatch?
      requires var gas := Min(c.gas, bound);
        var refused := CheckBatch(env, w, gas, Ids(c.op.members), c.op.signature);
        if refused.Some? then failure == refused
        else match ExecuteMembers(env, w, c.sender, c.op.members, gas)
          case None => failure.Some?
          case Some(u) => failure == None && v == u
      ensures Execute(env, w, c, bound) == if failure.None? then v else w
    {
      hide CheckBatch, ExecuteMembers;
    }

    static lemma CallStays(env: Env, w: World, c: Call, bound: nat)
      ensures Sound(env, w) ==> Sound(env, Execute(env, w, c, bound)) && Steady(w, Execute(env, w, c, bound))
    {
      hide Sound, Steady, Execute;
      if Sound(env, w) { EveryCall(env, w, c, bound); }
    }

    static lemma ProgramStays(env: Env, w: World, p: Program, bound: nat)
      ensures Sound(env, w) ==> Sound(env, ExecuteAll(env, w, p, bound)) && Steady(w, ExecuteAll(env, w, p, bound))
    {
      hide Sound, Steady, ExecuteAll;
      if Sound(env, w) { EveryProgram(env, w, p, bound); }
    }

    method RunAll(p: Program, bound: nat)
      requires Wired()
      modifies this, subscriptions
      ensures View() == ExecuteAll(env, old(View()), p, bound)
      ensures old(Valid()) ==> Valid() && Steady(old(View()), View())
      decreases p
    {
      ProgramStays(env, View(), p, bound);
      hide Sound, Steady;
      if p.Then? {
        Transact(p.call, bound);
        RunAll(p.rest, bound);
      }
    }
  }
}
