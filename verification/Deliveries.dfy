/**
 Deliveries.  Once a consumer has accepted its words, that is recorded, and no later call hands them
 over again.  The callbacks a consumer accepts are counted from the program, not from what the
 contract records, and the two agree.
 */
module Deliveries {
  import opened Verifier
  import opened Sums
  import opened Accounts
  import opened Coordinator
  import opened Reentrancy
  import opened Invariants
  import opened BatchChecks
  import opened Always
  import opened Focus
  import opened Promises
  import opened Tallies

  // ----- one call

  /**
   fulfillRandomWords and retryCallback: an accepted callback is recorded as delivered, one more than
   before; a failing one leaves what was recorded.  No premise on anything below the call.
   */
  lemma DeliveryRecorded(env: Env, w: World, c: Call, bound: nat)
    requires Sound(env, w) && NamesOk(env, w) && Delivers(c.op)
    requires Enter(env, w, c.sender, Min(c.gas, bound), c.op).HandsOver?
    ensures var v, id := Execute(env, w, c, bound), c.op.id;
      && id in w.tickets && id in v.tickets && v.tickets[id].req.fulfilled
      && v.tickets[id].req.callbackSucceeded == (c.callback.ok || w.tickets[id].req.callbackSucceeded)
      && v.tickets[id].delivered == w.tickets[id].delivered + (if c.callback.ok then 1 else 0)
  {
    hide *;
    var gas := Min(c.gas, bound);
    var e := Enter(env, w, c.sender, gas, c.op);
    var handed, limit := e.world, e.limit;
    var after := ExecuteAll(env, handed, c.callback.body, limit);
    HandsOverIs(env, w, c, bound);
    DeliversIs(c.op);
    HandedIs(env, w, c.sender, gas, c.op);
    AtMost(c.gas, bound);
    EveryEntry(env, w, c.sender, gas, c.op, bound);
    EntryNames(env, w, gas, c.op, handed, limit, bound);
    EveryProgram(env, handed, c.callback.body, limit);
    SealedStays(env, handed, after, c.op.id, limit);
    LeaveIs(c.op, w, handed, after, c.callback.ok);
    if c.callback.ok { DeliverIs(after, c.op.id); }
  }

  lemma AtMost(a: nat, b: nat)
    ensures Min(a, b) <= b
  {}

  /** What is handed over is fulfilled, and its consumer's frame is bounded by just its gas limit. */
  lemma HandedIs(env: Env, w: World, sender: Caller, gas: nat, op: Op)
    requires Delivers(op) && Enter(env, w, sender, gas, op).HandsOver?
    ensures var e, id := Enter(env, w, sender, gas, op), op.id;
      && id in w.tickets && id in e.world.tickets && e.world.tickets[id].req.fulfilled
      && e.world.tickets[id].req == w.tickets[id].req.(fulfilled := true)
      && e.world.tickets[id].delivered == w.tickets[id].delivered
      && e.limit == e.world.tickets[id].req.callbackGasLimit
  {
    hide VRFVerifier.Verify, Settle, SeedOf;
  }

  /** So is the frame of each consumer called back from an accepted batch. */
  lemma BatchFrame(env: Env, w: World, v: World, gas: nat, members: Members, signature: Signature, id: RequestId)
    requires CheckBatch(env, w, gas, Ids(members), signature).None? && id in Ids(members)
    requires id in w.tickets && id in v.tickets && Recorded(w.tickets[id], v.tickets[id])
    ensures MemberLimit(v, id, gas) == w.tickets[id].req.callbackGasLimit
  {
    BatchCovered(env, w, gas, members, signature);
    hide CheckBatch, Ids;
  }

  lemma LeaveIs(op: Op, before: World, handed: World, after: World, ok: bool)
    ensures Leave(op, before, handed, after, ok)
      == if op.FulfillRandomWords? || op.RetryCallback? then (if ok then Deliver(after, op.id) else handed)
         else (if ok then after else before)
  {
    hide Deliver;
  }

  lemma DeliverIs(w: World, id: RequestId)
    requires id in w.tickets
    ensures var v := Deliver(w, id);
      && id in v.tickets && v.tickets[id].req == w.tickets[id].req.(callbackSucceeded := true)
      && v.tickets[id].delivered == w.tickets[id].delivered + 1
  {}

  lemma SealedStays(env: Env, w: World, v: World, id: RequestId, bound: nat)
    requires NamesOk(env, w) && Carries(env, w, v, [], bound)
    requires id in w.tickets && w.tickets[id].req.fulfilled && bound <= w.tickets[id].req.callbackGasLimit
    ensures id in v.tickets && v.tickets[id] == w.tickets[id]
  {
    hide Sound, NamesOk, Steady, Recorded, ClosedStays;
  }

  /** A failing receiver undoes the whole call; a failing consumer undoes what its callback did, nothing more. */
  lemma FailureUndone(env: Env, w: World, c: Call, bound: nat)
    requires Enter(env, w, c.sender, Min(c.gas, bound), c.op).HandsOver? && !c.callback.ok
    ensures Execute(env, w, c, bound)
      == if c.op.FulfillRandomWords? || c.op.RetryCallback? then Enter(env, w, c.sender, Min(c.gas, bound), c.op).world else w
  {
    hide Enter;
  }

  /** Once a consumer has accepted, every retry and every fulfilment of its request is refused, in every later run. */
  lemma DeliveredOnce(env: Env, w: World, c: Call, bound: nat, rest: Program, gas: nat, txs: seq<Transaction>, again: Call)
    requires Sound(env, w) && NamesOk(env, w) && Delivers(c.op) && c.callback.ok
    requires Enter(env, w, c.sender, Min(c.gas, bound), c.op).HandsOver?
    requires BlocksFit(w.block, txs)
    requires Delivers(again.op) && again.op.id == c.op.id
    ensures var v := Run(env, ExecuteAll(env, Execute(env, w, c, bound), rest, gas), txs);
      Enter(env, v, again.sender, again.gas, again.op).Refused? && Execute(env, v, again, again.gas) == v
  {
    hide *;
    var u := Execute(env, w, c, bound);
    var x := ExecuteAll(env, u, rest, gas);
    DeliversIs(c.op);
    DeliveryRecorded(env, w, c, bound);
    EveryCall(env, w, c, bound);
    CarriesNames(env, w, u, [], bound);
    CarriesBlock(env, w, u, [], bound);
    EveryProgram(env, u, rest, gas);
    CarriesNames(env, u, x, [], gas);
    CarriesBlock(env, u, x, [], gas);
    DeliveredStays(env, u, x, c.op.id, gas);
    RequestForever(env, x, txs, c.op.id);
    DeliveredRefuses(env, Run(env, x, txs), again);
  }

  lemma DeliveredStays(env: Env, w: World, v: World, id: RequestId, bound: nat)
    requires NamesOk(env, w) && Carries(env, w, v, [], bound) && id in w.tickets
    requires w.tickets[id].req.fulfilled && w.tickets[id].req.callbackSucceeded
    ensures id in v.tickets && v.tickets[id].req.fulfilled && v.tickets[id].req.callbackSucceeded
  {
    hide Sound, NamesOk, Steady, TicketLasts;
  }

  lemma DeliveredRefuses(env: Env, w: World, c: Call)
    requires Delivers(c.op) && c.op.id in w.tickets
    requires w.tickets[c.op.id].req.fulfilled && w.tickets[c.op.id].req.callbackSucceeded
    ensures Enter(env, w, c.sender, c.gas, c.op).Refused? && Execute(env, w, c, c.gas) == w
  {}

  // ----- counting

  /** The callbacks of one request that its consumer accepted. */
  function AcceptedOf(id: RequestId): Meter { Meter(_ => 0, i => if i == id then 1 else 0) }

  function Delivered(w: World, id: RequestId): nat {
    if id in w.tickets then w.tickets[id].delivered else 0
  }

  function AnyCall(): (Caller, Op) -> bool { (_, _) => true }

  function DeliveryLaw(id: RequestId): Law { Law(AnyCall(), _ => true, w => Delivered(w, id), AcceptedOf(id)) }

  lemma {:induction false} MakesAny(p: Program)
    ensures ProgramMakes(p, AnyCall())
    decreases p
  {
    if p.Then? {
      MakesAny(p.call.callback.body);
      MakesAny(p.rest);
      if p.call.op.FulfillBatch? { MembersMakeAny(p.call.op.members); }
    }
  }

  lemma {:induction false} MembersMakeAny(members: Members)
    ensures MembersMake(members, AnyCall())
    decreases members
  {
    if members.Member? {
      MakesAny(members.callback.body);
      MembersMakeAny(members.others);
    }
  }

  /** No call delivers by itself; only what its callback answers counts. */
  lemma EntryDelivers(env: Env, w: World, sender: Caller, gas: nat, op: Op, id: RequestId)
    requires Sound(env, w) && NamesOk(env, w) && !Enter(env, w, sender, gas, op).Refused?
    ensures Delivered(Enter(env, w, sender, gas, op).world, id) == Delivered(w, id)
  {
    hide *;
    if IsPlain(op) {
      PlainKeeps(env, w, sender, gas, op);
      PlainTickets(env, w, Enter(env, w, sender, gas, op), gas, id);
    } else if op.RequestRandomWords? {
      RequestDelivers(env, w, sender, gas, op, id);
    } else {
      ClosingDelivers(env, w, sender, gas, op, id);
    }
  }

  lemma PlainTickets(env: Env, w: World, e: Entry, gas: nat, id: RequestId)
    requires PlainStep(env, w, e, gas) && !e.Refused?
    ensures Delivered(e.world, id) == Delivered(w, id)
  {
    hide Sound, Steady, SameReservations;
  }

  lemma RequestDelivers(env: Env, w: World, sender: Caller, gas: nat, op: Op, id: RequestId)
    requires NamesOk(env, w) && op.RequestRandomWords? && !Enter(env, w, sender, gas, op).Refused?
    ensures Delivered(Enter(env, w, sender, gas, op).world, id) == Delivered(w, id)
  {
    RequestIs(env, w, sender, op.params);
    var made := env.requestId(sender, Get(w.nonces, sender));
    assert made in w.tickets ==> IdOk(env, w.nonces, made, w.tickets[made]);
    hide NamesOk, Reserve, CheckRequest;
  }

  lemma ClosingDelivers(env: Env, w: World, sender: Caller, gas: nat, op: Op, id: RequestId)
    requires !IsPlain(op) && !op.RequestRandomWords? && !Enter(env, w, sender, gas, op).Refused?
    ensures Delivered(Enter(env, w, sender, gas, op).world, id) == Delivered(w, id)
  {
    hide VRFVerifier.Verify, Settle, Release, CheckBatch;
  }

  lemma DeliveryIsLawful(env: Env, id: RequestId)
    ensures Lawful(env, DeliveryLaw(id)) && MiningLaw(DeliveryLaw(id))
  {
    var law := DeliveryLaw(id);
    assert EntryLaw(env, law) by {
      forall w, sender, gas: nat, op | Fits(env, w) && !Enter(env, w, sender, gas, op).Refused?
        ensures EntryLawful(law, w, op, Enter(env, w, sender, gas, op))
      {
        hide Sound, NamesOk, Enter;
        EntryDelivers(env, w, sender, gas, op, id);
      }
      hide Sound, NamesOk, Enter;
    }
    assert SettleLaw(env, law) by { hide Sound, NamesOk, Settle; }
    assert DeliverLaw(law) by { hide Sound, NamesOk, Settle; }
    hide Sound, NamesOk, EntryLaw, SettleLaw, DeliverLaw;
  }

  /** Whatever a program does, the deliveries recorded for a request grow by the callbacks accepted. */
  lemma ProgramDelivers(env: Env, w: World, p: Program, bound: nat, id: RequestId)
    requires Sound(env, w) && NamesOk(env, w)
    ensures Delivered(ExecuteAll(env, w, p, bound), id) == Delivered(w, id) + TallyAll(env, w, p, bound, AcceptedOf(id))
  {
    DeliveryIsLawful(env, id);
    MakesAny(p);
    hide Sound, NamesOk, Lawful, ExecuteAll, TallyAll, ProgramMakes;
    ProgramMoves(env, DeliveryLaw(id), w, p, bound);
  }

  /** So does every run. */
  lemma RunDelivers(env: Env, w: World, txs: seq<Transaction>, id: RequestId)
    requires Sound(env, w) && NamesOk(env, w) && BlocksFit(w.block, txs)
    ensures Delivered(Run(env, w, txs), id) == Delivered(w, id) + TallyRun(env, w, txs, AcceptedOf(id))
  {
    DeliveryIsLawful(env, id);
    forall k | 0 <= k < |txs| ensures ProgramMakes(txs[k].program, AnyCall()) { MakesAny(txs[k].program); }
    hide Sound, NamesOk, Lawful, MiningLaw, Run, TallyRun, ProgramMakes;
    RunMoves(env, DeliveryLaw(id), w, txs);
  }

  /**
   At most once: of all the callbacks of a request in a whole run, its consumer accepts at most one, and
   it has accepted one exactly when the contract says so, as long as batches find the request open.
   */
  lemma AcceptedOnce(env: Env, deployer: Caller, block: nat, supply: nat, txs: seq<Transaction>, id: RequestId)
    requires Deployed(env, block, supply, txs) && Injective(env)
    requires OpenFor(OnRequest(id), RunTrace(env, Genesis(env, deployer, block, supply), txs))
    ensures var w := Genesis(env, deployer, block, supply);
      var accepted := TallyRun(env, w, txs, AcceptedOf(id));
      && accepted <= 1
      && (accepted == 1 <==> id in Run(env, w, txs).tickets && Run(env, w, txs).tickets[id].req.callbackSucceeded)
  {
    hide *;
    var w := Genesis(env, deployer, block, supply);
    DeployedIs(env, block, supply, txs);
    GenesisSound(env, deployer, block, supply);
    GenesisDelivered(env, deployer, block, supply, id);
    RunDelivers(env, w, txs, id);
    if id in Run(env, w, txs).tickets { RequestOutcome(env, deployer, block, supply, txs, id); }
    DeliveredAt(Run(env, w, txs), id);
  }

  lemma DeployedIs(env: Env, block: nat, supply: nat, txs: seq<Transaction>)
    requires Deployed(env, block, supply, txs)
    ensures WithinCaps(env, env.initialFees) && supply <= MAX96 && block < TWO64 && BlocksFit(block, txs)
  {}

  lemma GenesisDelivered(env: Env, deployer: Caller, block: nat, supply: nat, id: RequestId)
    ensures Delivered(Genesis(env, deployer, block, supply), id) == 0 && Genesis(env, deployer, block, supply).block == block
  {}

  lemma DeliveredAt(w: World, id: RequestId)
    ensures Delivered(w, id) == if id in w.tickets then w.tickets[id].delivered else 0
  {}
}
