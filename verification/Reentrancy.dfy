/**
 Whole transactions: calls into the contracts, with arbitrary code run wherever the contracts hand
 over control.

 Foreign code is a program, a list of further calls of any function by any sender; each call
 carries the program that its own foreign code will run and whether that code returns or fails.
 A failing callback restores the state it started from.  Every frame has a bound on the gas it can
 hold: a call made inside a frame has at most that much, and a callback runs in a frame bounded by
 the request's own limit.  How much a call has, up to the bound, is the adversary's choice.  A call
 that runs out of gas or is refused changes nothing.
 */
module Reentrancy {
  import opened Common
  import opened Verifier
  import opened Accounts
  import opened Coordinator

  datatype Program = Stop | Then(call: Call, rest: Program)

  datatype Callback = Callback(body: Program, ok: bool)

  datatype Members = NoMembers | Member(id: RequestId, callback: Callback, others: Members)

  datatype Call = Call(sender: Caller, gas: nat, op: Op, callback: Callback)

  datatype Op =
    | CreateSubscription
    | FundSubscription(subId: SubId, value: nat)
    | WithdrawFromSubscription(subId: SubId, amount: nat)
    | AddConsumer(subId: SubId, consumer: Address)
    | RemoveConsumer(subId: SubId, consumer: Address)
    | CancelSubscription(subId: SubId)
    | RequestOwnerTransfer(subId: SubId, newOwner: Address)
    | AcceptOwnerTransfer(subId: SubId)
    | Withdraw
    | RequestRandomWords(params: RequestParams)
    | FulfillRandomWords(id: RequestId, signature: Signature)
    | FulfillBatch(members: Members, signature: Signature)
    | RetryCallback(id: RequestId, signature: Signature)
    | Refund(id: RequestId)
    | ProposeFees(fees: Fees)
    | ApplyFees
    | CancelFeeChange
    | TransferOwnership(newOwner: Address)
    | AcceptOwnership
    | RenounceOwnership

  function Ids(members: Members): seq<RequestId> {
    match members
    case NoMembers => []
    case Member(id, _, others) => [id] + Ids(others)
  }

  // ----- one call, up to the point where foreign code runs

  datatype Entry =
    | Refused(why: Error)
    | Finished(world: World)
    | HandsOver(world: World, limit: nat)

  function Ending(r: Result<World, Error>): Entry {
    match r
    case Err(e) => Refused(e)
    case Ok(w) => Finished(w)
  }

  function LedgerCall(w: World, r: Result<Ledger, Error>): Entry {
    match r
    case Err(e) => Refused(e)
    case Ok(l) => Finished(w.(ledger := l))
  }

  function PricingCall(w: World, r: Result<Pricing, Error>): Entry {
    match r
    case Err(e) => Refused(e)
    case Ok(p) => Finished(w.(pricing := p))
  }

  /** A transfer hands over whatever gas is left. */
  function Paying(w: World, l: Ledger, amount: nat, gas: nat): Entry {
    var sent := Send(w, l, amount);
    if sent.Err? then Refused(sent.error)
    else if amount == 0 then Finished(sent.value)
    else HandsOver(sent.value, gas)
  }

  /** A callback is handed the request's own gas limit, or what there is. */
  function CallingBack(r: Result<World, Error>, id: RequestId, gas: nat): Entry {
    match r
    case Err(e) => Refused(e)
    case Ok(w) => HandsOver(w, if id in w.tickets then Min(w.tickets[id].req.callbackGasLimit, gas) else gas)
  }

  function Enter(env: Env, w: World, sender: Caller, gas: nat, op: Op): Entry {
    match op
    case CreateSubscription => LedgerCall(w, Accounts.CreateSubscription(w.ledger, sender))
    case FundSubscription(subId, value) =>
      if w.outside < value then Refused(CannotPay)
      else LedgerCall(w.(outside := w.outside - value), Accounts.FundSubscription(w.ledger, subId, value))
    case WithdrawFromSubscription(subId, amount) =>
      var r := Accounts.WithdrawFromSubscription(w.ledger, sender, subId, amount);
      if r.Err? then Refused(r.error) else Paying(w, r.value, amount, gas)
    case AddConsumer(subId, consumer) => LedgerCall(w, Accounts.AddConsumer(w.ledger, sender, subId, consumer))
    case RemoveConsumer(subId, consumer) => LedgerCall(w, Accounts.RemoveConsumer(w.ledger, sender, subId, consumer))
    case CancelSubscription(subId) =>
      var r := Accounts.CancelSubscription(w.ledger, sender, subId);
      if r.Err? then Refused(r.error) else Paying(w, r.value.0, r.value.1, gas)
    case RequestOwnerTransfer(subId, newOwner) =>
      LedgerCall(w, Accounts.RequestOwnerTransfer(w.ledger, sender, subId, newOwner))
    case AcceptOwnerTransfer(subId) => LedgerCall(w, Accounts.AcceptOwnerTransfer(w.ledger, sender, subId))
    case Withdraw =>
      var r := Accounts.Withdraw(w.ledger, sender);
      if r.Err? then Refused(r.error) else Paying(w, r.value.0, r.value.1, gas)
    case RequestRandomWords(params) => Ending(Coordinator.RequestRandomWords(env, w, sender, params))
    case FulfillRandomWords(id, signature) =>
      CallingBack(Coordinator.FulfillRandomWords(env, w, sender, gas, id, signature), id, gas)
    case FulfillBatch(members, signature) =>
      var refused := CheckBatch(env, w, gas, Ids(members), signature);
      if refused.Some? then Refused(refused.value) else Finished(w)
    case RetryCallback(id, signature) =>
      CallingBack(Coordinator.RetryCallback(env, w, gas, id, signature), id, gas)
    case Refund(id) => Ending(Coordinator.Refund(w, id))
    case ProposeFees(fees) => PricingCall(w, Coordinator.ProposeFees(env, w, sender, fees))
    case ApplyFees => PricingCall(w, Coordinator.ApplyFees(w))
    case CancelFeeChange => PricingCall(w, Coordinator.CancelFeeChange(w, sender))
    case TransferOwnership(newOwner) => PricingCall(w, Coordinator.TransferOwnership(w, sender, newOwner))
    case AcceptOwnership => PricingCall(w, Coordinator.AcceptOwnership(w, sender))
    case RenounceOwnership => PricingCall(w, Coordinator.RenounceOwnership(w, sender))
  }

  predicate Delivers(op: Op) { op.FulfillRandomWords? || op.RetryCallback? }

  /**
   After the foreign code: `before` is the state on entry, `handed` the state it was handed, `after`
   the state its program led to.  A failed callback is undone and the call goes on; a failed
   transfer undoes the whole call.
   */
  function Leave(op: Op, before: World, handed: World, after: World, ok: bool): World {
    if Delivers(op) then (if ok then Deliver(after, op.id) else handed)
    else (if ok then after else before)
  }

  // ----- execution

  function Execute(env: Env, w: World, c: Call, bound: nat): World
    decreases c
  {
    var gas := Min(c.gas, bound);
    match Enter(env, w, c.sender, gas, c.op)
    case Refused(_) => w
    case HandsOver(handed, limit) =>
      Leave(c.op, w, handed, ExecuteAll(env, handed, c.callback.body, limit), c.callback.ok)
    case Finished(done) =>
      if c.op.FulfillBatch? then
        var settled := ExecuteMembers(env, w, c.sender, c.op.members, gas);
        if settled.Some? then settled.value else w
      else done
  }

  function ExecuteAll(env: Env, w: World, p: Program, bound: nat): World
    decreases p
  {
    match p
    case Stop => w
    case Then(c, rest) => ExecuteAll(env, Execute(env, w, c, bound), rest, bound)
  }

  /** What one member of a batch leaves behind, and the frame its callback runs in. */
  function MemberLimit(w: World, id: RequestId, gas: nat): nat {
    if id in w.tickets then Min(w.tickets[id].req.callbackGasLimit, gas) else gas
  }

  function ExecuteMembers(env: Env, w: World, sender: Caller, members: Members, gas: nat): Option<World>
    decreases members
  {
    match members
    case NoMembers => Some(w)
    case Member(id, callback, others) =>
      var settled := SettleRequest(w, sender, id);
      if settled.Err? then None
      else
        var handed := settled.value;
        var after := ExecuteAll(env, handed, callback.body, MemberLimit(handed, id, gas));
        ExecuteMembers(env, if callback.ok then Deliver(after, id) else handed, sender, others, gas)
  }

  // ----- what happens on the way

  /** Foreign code in control; a batch accepted; about to settle a member; a callback handed its words. */
  datatype Moment =
    | Control(world: World)
    | Batching(world: World, ids: seq<RequestId>)
    | Settling(world: World, id: RequestId)
    | Offered(world: World, id: RequestId, words: seq<nat>, single: bool)

  function CarriedWords(env: Env, w: World, id: RequestId, signature: Signature): seq<nat> {
    if id in w.tickets then Words(env, env.signatureHash(signature), id, w.tickets[id].req.numWords) else []
  }

  function Trace(env: Env, w: World, c: Call, bound: nat): seq<Moment>
    decreases c
  {
    var gas := Min(c.gas, bound);
    match Enter(env, w, c.sender, gas, c.op)
    case Refused(_) => []
    case HandsOver(handed, limit) =>
      (if Delivers(c.op) then [Offered(handed, c.op.id, CarriedWords(env, handed, c.op.id, c.op.signature), true)] else [])
        + TraceAll(env, handed, c.callback.body, limit)
    case Finished(done) =>
      if c.op.FulfillBatch?
      then [Batching(w, Ids(c.op.members))] + TraceMembers(env, w, c.sender, c.op.members, c.op.signature, gas)
      else []
  }

  function TraceAll(env: Env, w: World, p: Program, bound: nat): seq<Moment>
    decreases p
  {
    [Control(w)] +
    match p
    case Stop => []
    case Then(c, rest) => Trace(env, w, c, bound) + TraceAll(env, Execute(env, w, c, bound), rest, bound)
  }

  function TraceMembers(env: Env, w: World, sender: Caller, members: Members, signature: Signature, gas: nat): seq<Moment>
    decreases members
  {
    match members
    case NoMembers => []
    case Member(id, callback, others) =>
      var settled := SettleRequest(w, sender, id);
      if settled.Err? then [Settling(w, id)]
      else
        var handed := settled.value;
        var after := ExecuteAll(env, handed, callback.body, MemberLimit(handed, id, gas));
        [Settling(w, id), Offered(handed, id, CarriedWords(env, handed, id, signature), false)]
          + TraceAll(env, handed, callback.body, MemberLimit(handed, id, gas))
          + TraceMembers(env, if callback.ok then Deliver(after, id) else handed, sender, others, signature, gas)
  }

  // ----- runs of transactions

  /** Some blocks pass, then a transaction runs a program of top-level calls. */
  datatype Transaction = Transaction(blocks: nat, program: Program, gas: nat)

  function Run(env: Env, w: World, txs: seq<Transaction>): World
    decreases txs
  {
    if txs == [] then w
    else Run(env, ExecuteAll(env, Mined(w, txs[0]), txs[0].program, txs[0].gas), txs[1..])
  }

  function Mined(w: World, tx: Transaction): World {
    w.(block := w.block + tx.blocks)
  }

  function RunTrace(env: Env, w: World, txs: seq<Transaction>): seq<Moment>
    decreases txs
  {
    if txs == [] then [Control(w)]
    else
      var mined := Mined(w, txs[0]);
      TraceAll(env, mined, txs[0].program, txs[0].gas)
        + RunTrace(env, ExecuteAll(env, mined, txs[0].program, txs[0].gas), txs[1..])
  }
}
