/**
 The coordinator, src/VRFCoordinator.sol, together with the ledger it moves money in.

 External functions are functions from one state of both contracts to the next.  Those that hand
 control to foreign code (a consumer callback, or the receiver of a transfer) stop at that point;
 what the foreign code does is a program of further calls, executed in Reentrancy.dfy.
 */
module Coordinator {
  import opened Common
  import opened Blsvrf
  import opened Verifier
  import opened Sums
  import opened Accounts

  type RequestId = nat

  datatype Request = Request(
    consumer: Address, subId: SubId, numWords: nat, callbackGasLimit: nat, createdAtBlock: nat, paid: nat,
    fulfilled: bool, refunded: bool, callbackSucceeded: bool)

  datatype Credit = Credit(payee: Address, amount: nat)

  /**
   A request in storage, with what happened to it so far: the nonce it was made with, every credit
   and every release made on its account, and how many deliveries its consumer accepted.  The
   contracts never read the last four.
   */
  datatype Ticket = Ticket(req: Request, nonce: nat, credited: seq<Credit>, released: seq<nat>, delivered: nat)

  datatype Fees = Fees(base: nat, perWord: nat, perGas: nat)

  datatype Status = Waiting | Replaced | Cancelled | Applied(at: nat)

  datatype Proposal = Proposal(fees: Fees, madeAt: nat, status: Status)

  /** Prices and who may propose them; `proposals` is the history of every proposal made. */
  datatype Pricing = Pricing(
    current: Fees, pending: Fees, effectiveAt: nat, owner: Address, pendingOwner: Address,
    proposals: seq<Proposal>)

  datatype World = World(
    ledger: Ledger,
    tickets: map<RequestId, Ticket>,
    nonces: map<Address, nat>,
    pricing: Pricing,
    // block.number, and all the coin held outside the contracts
    block: nat,
    outside: nat)

  /** Immutables and hash functions. */
  datatype Env = Env(
    verifier: VRFVerifier,
    keyHash: nat,
    requestId: (Address, nat) -> RequestId,
    seedHash: (RequestId, Address) -> Seed,
    signatureHash: Signature -> nat,
    wordHash: (nat, RequestId, nat) -> nat,
    caps: Fees,
    initialFees: Fees)

  const MAX_WORDS := 500
  const MAX_CALLBACK_GAS := 2_500_000
  const MAX_CONFIRMATIONS := 200
  const POST_CALLBACK_GAS := 30_000
  const TIMEOUT_BLOCKS := 7200
  const FEE_TIMELOCK_BLOCKS := 50_400
  const TWO64 := 0x1_0000_0000_0000_0000

  datatype ExtraArgs = Absent | WrongTag | NotABool | Tagged(nativePayment: bool)

  datatype RequestParams = RequestParams(
    keyHash: nat, subId: SubId, requestConfirmations: nat, callbackGasLimit: nat, numWords: nat, extraArgs: ExtraArgs)

  function Min(a: nat, b: nat): nat { if a <= b then a else b }

  // ----- pricing and ownership

  predicate WithinCaps(env: Env, f: Fees) {
    f.base <= env.caps.base && f.perWord <= env.caps.perWord && f.perGas <= env.caps.perGas
  }

  /** The last entry of the history, marked. */
  function Mark(ps: seq<Proposal>, status: Status): seq<Proposal> {
    if ps != [] && ps[|ps| - 1].status.Waiting? then ps[|ps| - 1 := ps[|ps| - 1].(status := status)] else ps
  }

  function ClearPending(p: Pricing, status: Status): Pricing {
    p.(pending := Fees(0, 0, 0), effectiveAt := 0, proposals := Mark(p.proposals, status))
  }

  function ProposeFees(env: Env, w: World, sender: Caller, fees: Fees): Result<Pricing, Error> {
    if sender != w.pricing.owner then Err(NotOwner)
    else if !WithinCaps(env, fees) then Err(FeeAboveCap)
    else if w.block % TWO64 + FEE_TIMELOCK_BLOCKS > MAX64 then Err(Overflow)
    else Ok(w.pricing.(
        pending := fees,
        effectiveAt := w.block % TWO64 + FEE_TIMELOCK_BLOCKS,
        proposals := Mark(w.pricing.proposals, Replaced) + [Proposal(fees, w.block, Waiting)]))
  }

  function ApplyFees(w: World): Result<Pricing, Error> {
    if w.pricing.effectiveAt == 0 then Err(NoFeeChangePending)
    else if w.block < w.pricing.effectiveAt then Err(TooEarly)
    else Ok(ClearPending(w.pricing, Applied(w.block)).(current := w.pricing.pending))
  }

  function CancelFeeChange(w: World, sender: Caller): Result<Pricing, Error> {
    if sender != w.pricing.owner then Err(NotOwner) else Ok(ClearPending(w.pricing, Cancelled))
  }

  function TransferOwnership(w: World, sender: Caller, newOwner: Address): Result<Pricing, Error> {
    if sender != w.pricing.owner then Err(NotOwner) else Ok(w.pricing.(pendingOwner := newOwner))
  }

  function AcceptOwnership(w: World, sender: Caller): Result<Pricing, Error> {
    if sender != w.pricing.pendingOwner then Err(NotPendingOwner)
    else Ok(w.pricing.(owner := sender, pendingOwner := ZERO))
  }

  function RenounceOwnership(w: World, sender: Caller): Result<Pricing, Error> {
    if sender != w.pricing.owner then Err(NotOwner)
    else Ok(ClearPending(w.pricing, Cancelled).(owner := ZERO, pendingOwner := ZERO))
  }

  function Price(f: Fees, numWords: nat, callbackGasLimit: nat): Result<nat, Error> {
    var total := f.base + f.perWord * numWords + f.perGas * callbackGasLimit;
    if total > MAX96 then Err(PriceOverflow) else Ok(total)
  }

  // ----- requests

  function CheckExtraArgs(x: ExtraArgs): Option<Error> {
    match x
    case Absent => None
    case WrongTag => Some(InvalidExtraArgsTag)
    case NotABool => Some(Undecodable)
    case Tagged(native) => if native then None else Some(NativePaymentOnly)
  }

  function CheckRequest(env: Env, w: World, sender: Caller, q: RequestParams): Option<Error> {
    if q.keyHash != 0 && q.keyHash != env.keyHash then Some(UnknownKeyHash)
    else if q.numWords == 0 || q.numWords > MAX_WORDS then Some(BadWordCount)
    else if q.callbackGasLimit == 0 || q.callbackGasLimit > MAX_CALLBACK_GAS then Some(BadCallbackGasLimit)
    else if q.requestConfirmations > MAX_CONFIRMATIONS then Some(BadRequestConfirmations)
    else if CheckExtraArgs(q.extraArgs).Some? then CheckExtraArgs(q.extraArgs)
    else if q.subId > MAX64 then Some(SubscriptionIdTooLarge)
    else if (q.subId, sender) !in w.ledger.consumers then Some(ConsumerNotAuthorized)
    else None
  }

  function RequestRandomWords(env: Env, w: World, sender: Caller, q: RequestParams): Result<World, Error> {
    var refused := CheckRequest(env, w, sender, q);
    var nonce := Get(w.nonces, sender);
    var quoted := Price(w.pricing.current, q.numWords, q.callbackGasLimit);
    if refused.Some? then Err(refused.value)
    else if quoted.Err? then Err(quoted.error)
    else
      var req := Request(sender, q.subId, q.numWords, q.callbackGasLimit, w.block % TWO64, quoted.value,
                         false, false, false);
      var reserved := Reserve(w.ledger, q.subId, quoted.value);
      if reserved.Err? then Err(reserved.error)
      else Ok(w.(tickets := w.tickets[env.requestId(sender, nonce) := Ticket(req, nonce, [], [], 0)],
                 nonces := w.nonces[sender := nonce + 1],
                 ledger := reserved.value))
  }

  predicate Open(req: Request) { !req.fulfilled && !req.refunded }

  /** What must be in hand on entry before a callback with this budget may be started. */
  function GasNeeded(limit: nat): nat { limit * 64 / 63 + POST_CALLBACK_GAS }

  function SeedOf(env: Env, w: World, id: RequestId): Seed
    requires id in w.tickets
  {
    env.seedHash(id, w.tickets[id].req.consumer)
  }

  /** Marks one request fulfilled and pays the publisher; shared by the single and the batch path. */
  function SettleRequest(w: World, sender: Caller, id: RequestId): Result<World, Error> {
    if id !in w.tickets then Err(NoSuchRequest)
    else
      var t := w.tickets[id];
      var settled := Settle(w.ledger, t.req.subId, t.req.paid, sender);
      if settled.Err? then Err(settled.error)
      else Ok(w.(ledger := settled.value,
                 tickets := w.tickets[id := t.(req := t.req.(fulfilled := true),
                                               credited := t.credited + [Credit(sender, t.req.paid)])]))
  }

  /** Everything before the callback. */
  function FulfillRandomWords(env: Env, w: World, sender: Caller, gas: nat, id: RequestId, signature: Signature)
    : Result<World, Error>
  {
    if id !in w.tickets then Err(NoSuchRequest)
    else if !Open(w.tickets[id].req) then Err(RequestClosed)
    else if gas < GasNeeded(w.tickets[id].req.callbackGasLimit) then Err(InsufficientGas)
    else if !env.verifier.Verify(SeedOf(env, w, id), signature) then Err(InvalidProof)
    else SettleRequest(w, sender, id)
  }

  /** Everything before the callback: no state changes. */
  function RetryCallback(env: Env, w: World, gas: nat, id: RequestId, signature: Signature): Result<World, Error> {
    if id !in w.tickets then Err(NoSuchRequest)
    else if !w.tickets[id].req.fulfilled then Err(NotFulfilled)
    else if w.tickets[id].req.callbackSucceeded then Err(CallbackAlreadyDelivered)
    else if gas < GasNeeded(w.tickets[id].req.callbackGasLimit) then Err(InsufficientGas)
    else if !env.verifier.Verify(SeedOf(env, w, id), signature) then Err(InvalidProof)
    else Ok(w)
  }

  /** What is recorded once a callback has returned without failing. */
  function Deliver(w: World, id: RequestId): World {
    if id in w.tickets then
      var t := w.tickets[id];
      w.(tickets := w.tickets[id := t.(req := t.req.(callbackSucceeded := true), delivered := t.delivered + 1)])
    else w
  }

  function Refund(w: World, id: RequestId): Result<World, Error> {
    if id !in w.tickets then Err(NoSuchRequest)
    else
      var t := w.tickets[id];
      if !Open(t.req) then Err(RequestClosed)
      else if w.block <= t.req.createdAtBlock + TIMEOUT_BLOCKS then Err(TooEarly)
      else
        var released := Release(w.ledger, t.req.subId, t.req.paid);
        if released.Err? then Err(released.error)
        else Ok(w.(ledger := released.value,
                   tickets := w.tickets[id := t.(req := t.req.(refunded := true),
                                                 released := t.released + [t.req.paid])]))
  }

  // ----- the batch: everything read before the first member is settled

  function BatchSeeds(env: Env, w: World, ids: seq<RequestId>): Result<seq<Seed>, Error>
    decreases ids
  {
    if ids == [] then Ok([])
    else
      var n := |ids| - 1;
      var earlier := BatchSeeds(env, w, ids[..n]);
      if earlier.Err? then earlier
      else if n > 0 && ids[n] <= ids[n - 1] then Err(BatchNotSorted)
      else if ids[n] !in w.tickets then Err(NoSuchRequest)
      else if !Open(w.tickets[ids[n]].req) then Err(RequestClosed)
      else Ok(earlier.value + [SeedOf(env, w, ids[n])])
  }

  function BatchGas(w: World, ids: seq<RequestId>): nat
    decreases ids
  {
    if ids == [] then 0
    else
      var n := |ids| - 1;
      var earlier := BatchGas(w, ids[..n]);
      if ids[n] in w.tickets then earlier + GasNeeded(w.tickets[ids[n]].req.callbackGasLimit) else earlier
  }

  function CheckBatch(env: Env, w: World, gas: nat, ids: seq<RequestId>, signature: Signature): Option<Error> {
    var seeds := BatchSeeds(env, w, ids);
    if ids == [] then Some(EmptyBatch)
    else if seeds.Err? then Some(seeds.error)
    else if gas < BatchGas(w, ids) then Some(InsufficientGas)
    else if !env.verifier.AcceptsBatch(seeds.value, signature) then Some(InvalidProof)
    else None
  }

  // ----- the words a callback carries

  function Words(env: Env, randomness: nat, id: RequestId, numWords: nat): (ws: seq<nat>)
    ensures |ws| == numWords
    ensures forall i | 0 <= i < numWords :: ws[i] == env.wordHash(randomness, id, i)
  {
    seq<nat>(numWords, i requires 0 <= i < numWords => env.wordHash(randomness, id, i))
  }

  // ----- transfers out

  /** Sends `amount` away; nothing happens and nobody is called when it is zero. */
  function Send(w: World, l: Ledger, amount: nat): Result<World, Error> {
    if l.coin < amount then Err(TransferFailed)
    else Ok(w.(ledger := l.(coin := l.coin - amount), outside := w.outside + amount))
  }
}
