/**
 What the contracts promise over whole runs: any number of transactions, each any tree of calls,
 from deployment on.

 Most of it holds of every run.  Only that each price is accounted for once, and each request closed
 and delivered once, rests on the members of a batch still being open when their turn comes.
 */
module Promises {
  import opened Common
  import opened Verifier
  import opened Sums
  import opened Accounts
  import opened Coordinator
  import opened Reentrancy
  import opened Invariants
  import opened Always
  import opened Focus
  import opened Executions
  import opened Rules

  /** Right after the constructors ran: an owner, the first prices, no accounts, no requests. */
  function Genesis(env: Env, deployer: Caller, block: nat, supply: nat): World {
    World(EMPTY, map[], map[], Pricing(env.initialFees, Fees(0, 0, 0), 0, deployer, ZERO, []), block, supply)
  }

  lemma GenesisSound(env: Env, deployer: Caller, block: nat, supply: nat)
    requires WithinCaps(env, env.initialFees) && block < TWO64 && supply <= MAX96
    ensures Sound(env, Genesis(env, deployer, block, supply))
    ensures Injective(env) ==> NamesOk(env, Genesis(env, deployer, block, supply))
  {
    assert Balances(map[]) == map[];
  }

  lemma GenesisHolds(env: Env, f: Focus, deployer: Caller, block: nat, supply: nat)
    ensures Holds(env, f, Genesis(env, deployer, block, supply))
  {
    assert forall s: SubId :: OpenPaid(map[], s) == map[];
  }

  /** Block numbers fit in 64 bits for as long as the run lasts. */
  predicate BlocksFit(block: nat, txs: seq<Transaction>)
    decreases txs
  {
    block < TWO64 && (txs == [] || BlocksFit(block + txs[0].blocks, txs[1..]))
  }

  // ----- every run

  /** An earlier state and a later one, requests apart. */
  ghost predicate Since(w: World, v: World) {
    && v.ledger.coin + v.outside == w.ledger.coin + w.outside
    && LedgerEvolves(w.ledger, v.ledger)
    && PricingEvolves(w.pricing, v.pricing)
  }

  ghost predicate AllProgress(w: World, v: World) {
    forall id | id in w.tickets :: id in v.tickets && Progress(w.tickets[id], v.tickets[id])
  }

  /** What an earlier state fixes about every later one, between transactions. */
  ghost predicate Later(env: Env, w: World, v: World) {
    Sound(env, v) && Since(w, v) && (NamesOk(env, w) ==> NamesOk(env, v) && AllProgress(w, v))
  }

  /** ... and about every moment of a later transaction. */
  ghost predicate LaterMoment(env: Env, w: World, m: Moment) {
    && Sound(env, m.world) && Since(w, m.world) && WordsFit(env, m)
    && (NamesOk(env, w) ==> NamesOk(env, m.world) && AllRecorded(w, m.world))
  }

  ghost predicate AllLater(env: Env, w: World, ms: seq<Moment>) {
    forall m | m in ms :: LaterMoment(env, w, m)
  }

  lemma SinceStep(u: World, v: World, w: World)
    requires Since(u, v) && Since(v, w)
    ensures Since(u, w)
  {
    assert LedgerEvolves(u.ledger, w.ledger);
  }

  lemma LaterStep(env: Env, u: World, v: World, w: World)
    requires Later(env, u, v) && Later(env, v, w)
    ensures Later(env, u, w)
  {
    hide Sound, NamesOk, Since;
    SinceStep(u, v, w);
    assert AllProgress(u, v) && AllProgress(v, w) ==> AllProgress(u, w);
  }

  lemma MomentsLater(env: Env, u: World, v: World, ms: seq<Moment>)
    requires Later(env, u, v) && AllLater(env, v, ms)
    ensures AllLater(env, u, ms)
  {
    hide Sound, NamesOk, Since, WordsFit, ClosedStays;
    forall m | m in ms ensures LaterMoment(env, u, m) {
      assert LaterMoment(env, v, m);
      SinceStep(u, v, m.world);
    }
  }

  lemma CarriedLater(env: Env, w: World, v: World, bound: nat)
    requires Carries(env, w, v, [], bound)
    ensures Later(env, w, v) && v.block == w.block
  {
    hide Sound, NamesOk, LedgerEvolves, PricingEvolves, Recorded, ClosedStays;
  }

  lemma SoundLater(env: Env, w: World, ms: seq<Moment>)
    requires AllSound(env, w, ms)
    ensures AllLater(env, w, ms)
  {
    hide Sound, NamesOk, LedgerEvolves, PricingEvolves, WordsFit, AllRecorded;
    forall m | m in ms ensures LaterMoment(env, w, m) {
      assert MomentSound(env, w, m);
    }
  }

  lemma MiningLater(env: Env, w: World, v: World)
    requires Sound(env, w) && v == w.(block := v.block) && w.block <= v.block < TWO64
    ensures Later(env, w, v) && Sound(env, v)
  {
    hide LedgerInv, PricingInv, TermsOk;
    TermsKept(env, w.tickets, w.tickets, w.pricing.proposals, w.block, v.block);
  }

  lemma {:induction false} EveryRun(env: Env, w: World, txs: seq<Transaction>)
    requires Sound(env, w) && BlocksFit(w.block, txs)
    ensures Later(env, w, Run(env, w, txs)) && AllLater(env, w, RunTrace(env, w, txs))
    decreases txs
  {
    hide Sound, Later, LaterMoment, Carries, AllSound, WordsFit;
    if txs == [] {
      CarriesSelf(env, w, [], 0);
      CarriedLater(env, w, w, 0);
      SoundMoment(env, w);
    } else {
      var mined := Mined(w, txs[0]);
      MiningLater(env, w, mined);
      var next := ExecuteAll(env, mined, txs[0].program, txs[0].gas);
      var here, rest := TraceAll(env, mined, txs[0].program, txs[0].gas), RunTrace(env, next, txs[1..]);
      EveryProgram(env, mined, txs[0].program, txs[0].gas);
      CarriedLater(env, mined, next, txs[0].gas);
      CarriesSound(env, mined, next, [], txs[0].gas);
      LaterStep(env, w, mined, next);
      EveryRun(env, next, txs[1..]);
      LaterStep(env, w, next, Run(env, next, txs[1..]));
      SoundLater(env, mined, here);
      MomentsLater(env, w, mined, here);
      MomentsLater(env, w, next, rest);
    }
  }

  lemma SoundMoment(env: Env, w: World)
    requires Sound(env, w)
    ensures AllLater(env, w, [Control(w)])
  {
    hide Sound, NamesOk;
  }

  // ----- some requests and accounts, in runs whose batches find those requests open

  ghost predicate AllHolding(env: Env, f: Focus, ms: seq<Moment>) {
    forall m | m in ms :: Holds(env, f, m.world) && OfferOk(f, m)
  }

  lemma HoldingFrom(env: Env, f: Focus, w: World, ms: seq<Moment>, bound: nat)
    requires AllHold(env, f, w, ms, bound)
    ensures AllHolding(env, f, ms)
  {
    hide Holds, Follows, OfferOk;
    forall m | m in ms ensures Holds(env, f, m.world) && OfferOk(f, m) {
      assert MomentHolds(env, f, w, m, bound);
    }
  }

  lemma HoldingJoin(env: Env, f: Focus, a: seq<Moment>, b: seq<Moment>)
    requires AllHolding(env, f, a) && AllHolding(env, f, b)
    ensures AllHolding(env, f, a + b)
  {
    hide Holds, OfferOk;
  }

  lemma MiningHolds(env: Env, f: Focus, w: World, block: nat)
    requires Holds(env, f, w)
    ensures Holds(env, f, w.(block := block))
  {
    hide TicketOk, OpenPaid, Sum;
  }

  lemma {:induction false} RunFocus(env: Env, f: Focus, w: World, txs: seq<Transaction>)
    requires Sound(env, w) && NamesOk(env, w) && Holds(env, f, w) && BlocksFit(w.block, txs) && OpenFor(f, RunTrace(env, w, txs))
    ensures Holds(env, f, Run(env, w, txs)) && AllHolding(env, f, RunTrace(env, w, txs))
    decreases txs
  {
    hide *;
    RunStep(env, w, txs);
    if txs == [] {
      QuietMoment(env, f, w, Control(w), 0);
      HoldingFrom(env, f, w, [Control(w)], 0);
    } else {
      var mined := Mined(w, txs[0]);
      var next := ExecuteAll(env, mined, txs[0].program, txs[0].gas);
      var here, rest := TraceAll(env, mined, txs[0].program, txs[0].gas), RunTrace(env, next, txs[1..]);
      OpenForSplit(f, here, rest);
      OneTransaction(env, f, w, mined, txs[0].program, txs[0].gas);
      RunFocus(env, f, next, txs[1..]);
      HoldingJoin(env, f, here, rest);
    }
  }

  /** A run, one transaction at a time. */
  lemma RunStep(env: Env, w: World, txs: seq<Transaction>)
    requires BlocksFit(w.block, txs)
    ensures txs == [] ==> RunTrace(env, w, txs) == [Control(w)] && Run(env, w, txs) == w
    ensures txs != [] ==>
      var mined := Mined(w, txs[0]);
      var next := ExecuteAll(env, mined, txs[0].program, txs[0].gas);
      && RunTrace(env, w, txs) == TraceAll(env, mined, txs[0].program, txs[0].gas) + RunTrace(env, next, txs[1..])
      && Run(env, w, txs) == Run(env, next, txs[1..])
      && mined == w.(block := mined.block) && w.block <= mined.block < TWO64 && BlocksFit(mined.block, txs[1..])
  {
    hide TraceAll, ExecuteAll;
  }

  lemma OneTransaction(env: Env, f: Focus, w: World, mined: World, p: Program, gas: nat)
    requires Sound(env, w) && NamesOk(env, w) && Holds(env, f, w) && mined == w.(block := mined.block) && w.block <= mined.block < TWO64
    requires OpenFor(f, TraceAll(env, mined, p, gas))
    ensures var next := ExecuteAll(env, mined, p, gas);
      && Sound(env, next) && NamesOk(env, next) && Holds(env, f, next) && next.block == mined.block
    ensures AllHolding(env, f, TraceAll(env, mined, p, gas))
  {
    MiningLater(env, w, mined);
    hide Sound, NamesOk, Holds, OpenFor, Carries, ExecuteAll, TraceAll, AllHold, AllHolding, Since, AllProgress;
    MiningHolds(env, f, w, mined.block);
    EveryProgram(env, mined, p, gas);
    CarriesNames(env, mined, ExecuteAll(env, mined, p, gas), [], gas);
    CarriedLater(env, mined, ExecuteAll(env, mined, p, gas), gas);
    FocusProgram(env, f, mined, p, gas);
    HoldingFrom(env, f, mined, TraceAll(env, mined, p, gas), gas);
  }

  // ----- what every run keeps

  /** The premises on a deployment and the run that follows it. */
  ghost predicate Deployed(env: Env, block: nat, supply: nat, txs: seq<Transaction>) {
    WithinCaps(env, env.initialFees) && supply <= MAX96 && BlocksFit(block, txs)
  }

  lemma SoundFromGenesis(env: Env, deployer: Caller, block: nat, supply: nat, txs: seq<Transaction>)
    requires Deployed(env, block, supply, txs)
    ensures var w := Genesis(env, deployer, block, supply);
      Sound(env, w) && (Injective(env) ==> NamesOk(env, w)) && Later(env, w, Run(env, w, txs)) && AllLater(env, w, RunTrace(env, w, txs))
  {
    GenesisSound(env, deployer, block, supply);
    hide Sound, Genesis, NamesOk;
    EveryRun(env, Genesis(env, deployer, block, supply), txs);
  }

  /**
   The money, wherever foreign code is in control: each account holds at least what is reserved, the
   coin held is the sum of balances and credits, and no coin is made or lost.
   */
  lemma LedgerAtEveryMoment(env: Env, deployer: Caller, block: nat, supply: nat, txs: seq<Transaction>, m: Moment, s: SubId)
    requires Deployed(env, block, supply, txs)
    requires m in RunTrace(env, Genesis(env, deployer, block, supply), txs)
    ensures var l := m.world.ledger;
      && AccountOf(l.accounts, s).reserved <= AccountOf(l.accounts, s).balance
      && l.coin == Sum(Balances(l.accounts)) + Sum(l.withdrawable)
      && l.coin + m.world.outside == supply
  {
    SoundFromGenesis(env, deployer, block, supply, txs);
    assert LaterMoment(env, Genesis(env, deployer, block, supply), m);
    hide IndexInv, PricingInv, Sum, RunTrace, AllLater;
  }

  /** The indices of the ledger, wherever foreign code is in control. */
  lemma IndexAtEveryMoment(env: Env, deployer: Caller, block: nat, supply: nat, txs: seq<Transaction>, m: Moment, s: SubId)
    requires Deployed(env, block, supply, txs)
    requires m in RunTrace(env, Genesis(env, deployer, block, supply), txs)
    ensures var l := m.world.ledger;
      && Distinct(l.activeIds)
      && (s in l.activeIds <==> Live(l.accounts, s))
      && (forall k | 0 <= k < |l.activeIds| :: Get(l.activeIndex, l.activeIds[k]) == k + 1)
      && (s !in l.activeIds ==> Get(l.activeIndex, s) == 0)
      && (OfferedTo(l.pendingOwners, s) != ZERO ==> Live(l.accounts, s))
      && (Live(l.accounts, s) ==> Distinct(ConsumersOf(l.consumerList, s)))
      && (Live(l.accounts, s) ==>
            forall c: Address :: c in ConsumersOf(l.consumerList, s) <==> (s, c) in l.consumers)
  {
    SoundFromGenesis(env, deployer, block, supply, txs);
    assert LaterMoment(env, Genesis(env, deployer, block, supply), m);
    hide Sum, MoneyInv, PricingInv, RunTrace, AllLater, Since;
  }

  /** An account that was closed is never live again. */
  lemma DeadForever(env: Env, w: World, txs: seq<Transaction>, id: SubId)
    requires Sound(env, w) && BlocksFit(w.block, txs)
    requires id <= w.ledger.lastSubId && !Live(w.ledger.accounts, id)
    ensures !Live(Run(env, w, txs).ledger.accounts, id)
  {
    hide Sound, NamesOk, PricingEvolves;
    EveryRun(env, w, txs);
  }

  /**
   The price in effect at any moment: that of the latest applied proposal, which was within the caps
   and was applied at least 50,400 blocks after it was made, or the constructor's if none was applied.
   */
  lemma FeePromise(env: Env, deployer: Caller, block: nat, supply: nat, txs: seq<Transaction>, m: Moment)
    requires Deployed(env, block, supply, txs)
    requires m in RunTrace(env, Genesis(env, deployer, block, supply), txs)
    ensures var p := m.world.pricing;
      && WithinCaps(env, p.current)
      && if NoneApplied(p.proposals, |p.proposals|) then p.current == env.initialFees else exists k: nat :: InForce(p, k)
  {
    SoundFromGenesis(env, deployer, block, supply, txs);
    assert LaterMoment(env, Genesis(env, deployer, block, supply), m);
    hide LedgerInv, RunTrace, AllLater, Since, InForce, NoneApplied;
    FeeOrigin(env, m.world.pricing);
  }

  lemma FeeOrigin(env: Env, p: Pricing)
    requires PricingInv(env, p)
    ensures if NoneApplied(p.proposals, |p.proposals|) then p.current == env.initialFees else exists k: nat :: InForce(p, k)
  {
    var n := |p.proposals|;
    LatestApplied(env, p.proposals, n);
    assert p.proposals[..n] == p.proposals;
    if !NoneApplied(p.proposals, n) {
      var k: nat :| LastApplied(p.proposals, n, k) && InEffect(env, p.proposals) == p.proposals[k].fees;
      assert ProposalOk(env, p.proposals, k);
      assert InForce(p, k);
    }
  }

  /** Proposal k sets the price: the last one applied, no sooner than a full notice period after it was made. */
  ghost predicate InForce(p: Pricing, k: nat) {
    && LastApplied(p.proposals, |p.proposals|, k)
    && p.proposals[k].fees == p.current
    && p.proposals[k].status.at >= p.proposals[k].madeAt + 50_400
  }

  /**
   What every request on record was charged, at any moment of any run: the total at the fees in force
   in the block it was made in, so never more than the total at the caps.
   */
  lemma ChargedAtEveryMoment(env: Env, deployer: Caller, block: nat, supply: nat, txs: seq<Transaction>, m: Moment, id: RequestId)
    requires Deployed(env, block, supply, txs)
    requires m in RunTrace(env, Genesis(env, deployer, block, supply), txs) && id in m.world.tickets
    ensures var req, ps := m.world.tickets[id].req, m.world.pricing.proposals;
      && req.createdAtBlock <= m.world.block
      && (|| (NoneSetBy(ps, req.createdAtBlock) && req.paid == Cost(env.initialFees, req.numWords, req.callbackGasLimit))
          || exists k: nat ::
               SetBy(ps, k, req.createdAtBlock) && req.paid == Cost(ps[k].fees, req.numWords, req.callbackGasLimit))
      && req.paid <= Cost(env.caps, req.numWords, req.callbackGasLimit)
  {
    SoundFromGenesis(env, deployer, block, supply, txs);
    assert LaterMoment(env, Genesis(env, deployer, block, supply), m);
    hide LedgerInv, RunTrace, AllLater, Since, Genesis, Cost, SetBy, NoneSetBy, InEffect;
    var req, ps := m.world.tickets[id].req, m.world.pricing.proposals;
    assert Charged(env, ps, req);
    if NoneSetBy(ps, req.createdAtBlock) && Costs(env.initialFees, req) {
      CostGrows(env.initialFees, env.caps, req.numWords, req.callbackGasLimit);
    } else {
      var k: nat :| SetBy(ps, k, req.createdAtBlock) && Costs(ps[k].fees, req);
      SetIs(ps, k, req.createdAtBlock);
      assert ProposalOk(env, ps, k);
      CostGrows(ps[k].fees, env.caps, req.numWords, req.callbackGasLimit);
    }
  }

  lemma SetIs(ps: seq<Proposal>, k: nat, b: nat)
    requires SetBy(ps, k, b)
    ensures k < |ps|
  {}

  /** A request made now is charged the fees of this very state, and that price never changes again. */
  lemma PriceForever(env: Env, w: World, sender: Caller, gas: nat, q: RequestParams, rest: Program, more: nat, txs: seq<Transaction>)
    requires Sound(env, w) && NamesOk(env, w) && BlocksFit(w.block, txs)
    requires Enter(env, w, sender, gas, Op.RequestRandomWords(q)).Finished?
    ensures var v := Run(env, ExecuteAll(env, Enter(env, w, sender, gas, Op.RequestRandomWords(q)).world, rest, more), txs);
      var id := env.requestId(sender, Get(w.nonces, sender));
      id in v.tickets && v.tickets[id].req.paid == Cost(w.pricing.current, q.numWords, q.callbackGasLimit)
  {
    hide *;
    var u := Enter(env, w, sender, gas, Op.RequestRandomWords(q)).world;
    var x := ExecuteAll(env, u, rest, more);
    var id := env.requestId(sender, Get(w.nonces, sender));
    RequestRecords(env, w, sender, gas, q);
    EveryEntry(env, w, sender, gas, Op.RequestRandomWords(q), gas);
    FinishedCarries(env, w, gas, Op.RequestRandomWords(q), u);
    CarriesNames(env, w, u, [], gas);
    CarriesBlock(env, w, u, [], gas);
    EveryProgram(env, u, rest, more);
    CarriesNames(env, u, x, [], more);
    CarriesBlock(env, u, x, [], more);
    PaidStays(env, u, x, id, more);
    RequestForever(env, x, txs, id);
  }

  lemma FinishedCarries(env: Env, w: World, gas: nat, op: Op, v: World)
    requires EntrySound(env, w, gas, op, Finished(v), gas)
    ensures Carries(env, w, v, [], gas)
  {}

  lemma PaidStays(env: Env, w: World, v: World, id: RequestId, bound: nat)
    requires NamesOk(env, w) && Carries(env, w, v, [], bound) && id in w.tickets
    ensures id in v.tickets && v.tickets[id].req.paid == w.tickets[id].req.paid
  {
    hide Sound, NamesOk, Steady, TicketLasts;
  }

  /** Once the owner has renounced, no owner returns and the price never changes again. */
  lemma RenouncedForever(env: Env, w: World, txs: seq<Transaction>)
    requires Sound(env, w) && BlocksFit(w.block, txs) && w.pricing.owner == ZERO
    ensures Run(env, w, txs).pricing == w.pricing
  {
    assert Renounced(w.pricing);
    hide Sound, NamesOk, LedgerEvolves;
    EveryRun(env, w, txs);
  }

  /**
   A request recorded at some point keeps what was recorded, its flags once set, and, once closed,
   the way it was closed and where its price went, in every later run.
   */
  lemma RequestForever(env: Env, w: World, txs: seq<Transaction>, id: RequestId)
    requires Sound(env, w) && NamesOk(env, w) && BlocksFit(w.block, txs) && id in w.tickets
    ensures var v := Run(env, w, txs);
      && id in v.tickets
      && var t, u := w.tickets[id], v.tickets[id];
      && u.req == t.req.(fulfilled := u.req.fulfilled, refunded := u.req.refunded, callbackSucceeded := u.req.callbackSucceeded)
      && (t.req.fulfilled ==> u.req.fulfilled) && (t.req.refunded ==> u.req.refunded)
      && (t.req.callbackSucceeded ==> u.req.callbackSucceeded)
      && (!Open(t.req) ==> u.req.fulfilled == t.req.fulfilled && u.req.refunded == t.req.refunded
                           && u.credited == t.credited && u.released == t.released)
  {
    hide Sound, NamesOk, Since;
    EveryRun(env, w, txs);
  }

  /**
   Whatever happens after a request was recorded, a consumer called back by fulfillRandomWords or
   retryCallback is handed the same words each time: those of the one signature that verifies.
   */
  lemma SameWordsEveryTime(env: Env, w: World, txs: seq<Transaction>, m: Moment)
    requires Sound(env, w) && NamesOk(env, w) && env.verifier.suite.Canonical() && BlocksFit(w.block, txs)
    requires m in RunTrace(env, w, txs) && m.Offered? && m.single && m.id in w.tickets
    ensures m.words == ExpectedWords(env, w, m.id)
  {
    EveryRun(env, w, txs);
    assert LaterMoment(env, w, m);
    hide Sound, NamesOk, Since, RunTrace, AllLater;
    assert Recorded(w.tickets[m.id], m.world.tickets[m.id]);
  }

  /**
   However often the same request is published, and in whatever run, one fulfilment takes effect:
   after it every other one is refused.
   */
  lemma FulfilledOnce(env: Env, w: World, c: Call, bound: nat, rest: Program, gas: nat, txs: seq<Transaction>, again: Call)
    requires Sound(env, w) && NamesOk(env, w) && c.op.FulfillRandomWords?
    requires Enter(env, w, c.sender, Min(c.gas, bound), c.op).HandsOver?
    requires BlocksFit(w.block, txs)
    requires again.op.FulfillRandomWords? && again.op.id == c.op.id
    ensures var v := Run(env, ExecuteAll(env, Execute(env, w, c, bound), rest, gas), txs);
      Enter(env, v, again.sender, again.gas, again.op).Refused? && Execute(env, v, again, again.gas) == v
  {
    var u := Execute(env, w, c, bound);
    FulfilHolds(env, w, c, bound);
    EveryCall(env, w, c, bound);
    CarriedLater(env, w, u, bound);
    var x := ExecuteAll(env, u, rest, gas);
    CarriesSound(env, w, u, [], bound);
    hide Sound, NamesOk, Carries, Execute, ExecuteAll, Enter;
    EveryProgram(env, u, rest, gas);
    CarriedLater(env, u, x, gas);
    CarriesSound(env, u, x, [], gas);
    EveryRun(env, x, txs);
    LaterStep(env, u, x, Run(env, x, txs));
    hide Since, Run;
    ClosedRefuses(env, Run(env, x, txs), again);
  }

  lemma ClosedRefuses(env: Env, w: World, c: Call)
    requires c.op.FulfillRandomWords? && (c.op.id in w.tickets ==> !Open(w.tickets[c.op.id].req))
    ensures Enter(env, w, c.sender, c.gas, c.op).Refused? && Execute(env, w, c, c.gas) == w
  {}

  /** A fulfilment that takes effect leaves the request fulfilled and the publisher credited, once, at its price. */
  lemma FulfilHolds(env: Env, w: World, c: Call, bound: nat)
    requires Sound(env, w) && NamesOk(env, w) && c.op.FulfillRandomWords?
    requires Enter(env, w, c.sender, Min(c.gas, bound), c.op).HandsOver?
    ensures var v, id := Execute(env, w, c, bound), c.op.id;
      && id in w.tickets && id in v.tickets && v.tickets[id].req.fulfilled
      && v.tickets[id].credited == w.tickets[id].credited + [Credit(c.sender, w.tickets[id].req.paid)]
      && v.tickets[id].released == w.tickets[id].released
  {
    var id, gas := c.op.id, Min(c.gas, bound);
    var e := Enter(env, w, c.sender, gas, c.op);
    var handed, limit := e.world, e.limit;
    var after := ExecuteAll(env, handed, c.callback.body, limit);
    HandsOverIs(env, w, c, bound);
    FulfilEntry(env, w, c, bound);
    hide Sound, SettleRequest, Execute, ExecuteAll, NamesOk, Carries, Enter, Coordinator.FulfillRandomWords;
    SettleCarries(env, w, c.sender, id, [], bound);
    CarriesSound(env, w, handed, [], bound);
    EveryProgram(env, handed, c.callback.body, limit);
    ClosedAfter(env, w, handed, after, id, bound, limit);
  }

  lemma FulfilEntry(env: Env, w: World, c: Call, bound: nat)
    requires c.op.FulfillRandomWords? && Enter(env, w, c.sender, Min(c.gas, bound), c.op).HandsOver?
    ensures var id, e := c.op.id, Enter(env, w, c.sender, Min(c.gas, bound), c.op);
      && id in w.tickets && Open(w.tickets[id].req) && bound >= GasNeeded(w.tickets[id].req.callbackGasLimit)
      && SettleRequest(w, c.sender, id) == Ok(e.world)
  {
    hide SettleRequest, VRFVerifier.Verify;
  }

  lemma HandsOverIs(env: Env, w: World, c: Call, bound: nat)
    requires Enter(env, w, c.sender, Min(c.gas, bound), c.op).HandsOver?
    ensures var e := Enter(env, w, c.sender, Min(c.gas, bound), c.op);
      Execute(env, w, c, bound)
        == Leave(c.op, w, e.world, ExecuteAll(env, e.world, c.callback.body, e.limit), c.callback.ok)
  {
    hide Enter;
  }

  lemma ClosedAfter(env: Env, w: World, handed: World, after: World, id: RequestId, bound: nat, limit: nat)
    requires NamesOk(env, w) && Carries(env, w, handed, [], bound) && Carries(env, handed, after, [], limit)
    requires id in handed.tickets && handed.tickets[id].req.fulfilled
    ensures id in after.tickets && after.tickets[id].req.fulfilled
    ensures after.tickets[id].credited == handed.tickets[id].credited && after.tickets[id].released == handed.tickets[id].released
  {
    hide Sound, Steady, NamesOk;
  }

  // ----- what rests on open batch members

  lemma HoldsFromGenesis(env: Env, f: Focus, deployer: Caller, block: nat, supply: nat, txs: seq<Transaction>)
    requires Deployed(env, block, supply, txs) && Injective(env)
    requires OpenFor(f, RunTrace(env, Genesis(env, deployer, block, supply), txs))
    ensures var w := Genesis(env, deployer, block, supply);
      Holds(env, f, Run(env, w, txs)) && AllHolding(env, f, RunTrace(env, w, txs))
  {
    GenesisSound(env, deployer, block, supply);
    GenesisHolds(env, f, deployer, block, supply);
    hide Sound, Genesis, NamesOk, Holds, OpenFor;
    RunFocus(env, f, Genesis(env, deployer, block, supply), txs);
  }

  /** What one account has reserved is the sum of its open requests' prices, and pending is their number. */
  lemma ReservedAtEveryMoment(env: Env, deployer: Caller, block: nat, supply: nat, txs: seq<Transaction>, m: Moment, s: SubId)
    requires Deployed(env, block, supply, txs) && Injective(env)
    requires OpenFor(OnAccount(s), RunTrace(env, Genesis(env, deployer, block, supply), txs))
    requires m in RunTrace(env, Genesis(env, deployer, block, supply), txs)
    ensures var l, tickets := m.world.ledger, m.world.tickets;
      && AccountOf(l.accounts, s).reserved == Sum(OpenPaid(tickets, s))
      && CountersOf(l.counters, s).pending == |OpenPaid(tickets, s)|
  {
    HoldsFromGenesis(env, OnAccount(s), deployer, block, supply, txs);
    hide RunTrace, Genesis, OpenFor, Sum, OpenPaid;
    assert Holds(env, OnAccount(s), m.world);
    assert OnAccount(s).account(s);
    assert ReservedAt(m.world, s);
  }

  /**
   One request at the end of any run: delivered at most once, and exactly when the contract records
   it; closed in at most one way; its price reserved, or credited once, or released once.
   */
  lemma RequestOutcome(env: Env, deployer: Caller, block: nat, supply: nat, txs: seq<Transaction>, id: RequestId)
    requires Deployed(env, block, supply, txs) && Injective(env)
    requires OpenFor(OnRequest(id), RunTrace(env, Genesis(env, deployer, block, supply), txs))
    requires id in Run(env, Genesis(env, deployer, block, supply), txs).tickets
    ensures var t := Run(env, Genesis(env, deployer, block, supply), txs).tickets[id];
      && t.delivered <= 1 && (t.delivered == 1 <==> t.req.callbackSucceeded)
      && (t.req.callbackSucceeded ==> t.req.fulfilled)
      && !(t.req.fulfilled && t.req.refunded)
      && (Open(t.req) ==> t.credited == [] && t.released == [])
      && (t.req.fulfilled ==> |t.credited| == 1 && t.credited[0].amount == t.req.paid && t.released == [])
      && (t.req.refunded ==> t.released == [t.req.paid] && t.credited == [])
  {
    HoldsFromGenesis(env, OnRequest(id), deployer, block, supply, txs);
    hide RunTrace, Run, Genesis, OpenFor;
    var w := Run(env, Genesis(env, deployer, block, supply), txs);
    assert OnRequest(id).request(id);
    assert TicketOk(env, w.nonces, id, w.tickets[id]);
  }

  /** All requests and accounts at once. */
  lemma InvAtEveryMoment(env: Env, deployer: Caller, block: nat, supply: nat, txs: seq<Transaction>, m: Moment)
    requires Deployed(env, block, supply, txs) && Injective(env)
    requires MembersOpen(RunTrace(env, Genesis(env, deployer, block, supply), txs))
    requires m in RunTrace(env, Genesis(env, deployer, block, supply), txs)
    ensures Inv(env, m.world)
  {
    HoldsFromGenesis(env, OnAll(), deployer, block, supply, txs);
    SoundFromGenesis(env, deployer, block, supply, txs);
    assert LaterMoment(env, Genesis(env, deployer, block, supply), m);
    hide Inv, Holds, RunTrace, Genesis, OpenFor, Since, NamesOk, WordsFit, AllRecorded, Sound;
    InvIs(env, m.world);
  }

  /** An open request can be refunded exactly past its timeout, if its account holds what it reserved. */
  lemma RefundNeverReverts(env: Env, w: World, sender: Caller, gas: nat, id: RequestId)
    requires id in w.tickets && Open(w.tickets[id].req)
    requires w.tickets[id].req.subId <= MAX64 && ReservedAt(w, w.tickets[id].req.subId)
    ensures Enter(env, w, sender, gas, Op.Refund(id)).Finished?
      <==> w.block > w.tickets[id].req.createdAtBlock + TIMEOUT_BLOCKS
  {
    hide ReservedAt, Coordinator.Refund;
    RefundsIf(w, id);
  }

  /** fulfillRandomWords on it is refused for want of gas or of the signature, nothing else. */
  lemma FulfillNeverReverts(env: Env, w: World, sender: Caller, gas: nat, id: RequestId, signature: Signature)
    requires LedgerInv(w.ledger) && w.ledger.coin <= MAX96 && id in w.tickets && Open(w.tickets[id].req)
    requires w.tickets[id].req.subId <= MAX64 && ReservedAt(w, w.tickets[id].req.subId)
    ensures Enter(env, w, sender, gas, Op.FulfillRandomWords(id, signature)).HandsOver?
      <==> gas >= GasNeeded(w.tickets[id].req.callbackGasLimit) && env.verifier.Verify(SeedOf(env, w, id), signature)
  {
    hide LedgerInv, ReservedAt, SettleRequest, VRFVerifier.Verify;
    SettlesIf(w, sender, id);
  }

  /**
   No open request is ever stuck: at every moment of every run it can be refunded exactly past its
   timeout, and fulfilled exactly with enough gas and its signature, as long as batches find the
   requests of its own account open.
   */
  lemma NeverStuck(env: Env, deployer: Caller, block: nat, supply: nat, txs: seq<Transaction>, m: Moment, id: RequestId,
      sender: Caller, gas: nat, signature: Signature)
    requires Deployed(env, block, supply, txs) && Injective(env)
    requires m in RunTrace(env, Genesis(env, deployer, block, supply), txs)
    requires id in m.world.tickets && Open(m.world.tickets[id].req)
    requires OpenFor(OnAccount(m.world.tickets[id].req.subId), RunTrace(env, Genesis(env, deployer, block, supply), txs))
    ensures var req, refund := m.world.tickets[id].req, Enter(env, m.world, sender, gas, Op.Refund(id));
      refund.Finished? <==> m.world.block > req.createdAtBlock + TIMEOUT_BLOCKS
    ensures var req, fulfil := m.world.tickets[id].req, Enter(env, m.world, sender, gas, Op.FulfillRandomWords(id, signature));
      fulfil.HandsOver? <==> gas >= GasNeeded(req.callbackGasLimit) && env.verifier.Verify(SeedOf(env, m.world, id), signature)
  {
    StuckPremises(env, deployer, block, supply, txs, m, id);
    hide LedgerInv, RunTrace, Genesis, OpenFor, ReservedAt, Enter, VRFVerifier.Verify;
    RefundNeverReverts(env, m.world, sender, gas, id);
    FulfillNeverReverts(env, m.world, sender, gas, id, signature);
  }

  lemma StuckPremises(env: Env, deployer: Caller, block: nat, supply: nat, txs: seq<Transaction>, m: Moment, id: RequestId)
    requires Deployed(env, block, supply, txs) && Injective(env)
    requires m in RunTrace(env, Genesis(env, deployer, block, supply), txs) && id in m.world.tickets
    requires OpenFor(OnAccount(m.world.tickets[id].req.subId), RunTrace(env, Genesis(env, deployer, block, supply), txs))
    ensures LedgerInv(m.world.ledger) && m.world.ledger.coin <= MAX96
    ensures m.world.tickets[id].req.subId <= MAX64 && ReservedAt(m.world, m.world.tickets[id].req.subId)
  {
    var s := m.world.tickets[id].req.subId;
    ReservedAtEveryMoment(env, deployer, block, supply, txs, m, s);
    SoundFromGenesis(env, deployer, block, supply, txs);
    GenesisSound(env, deployer, block, supply);
    assert LaterMoment(env, Genesis(env, deployer, block, supply), m);
    hide LedgerInv, RunTrace, Genesis, OpenFor, Since, WordsFit, AllRecorded, Sum, OpenPaid;
    assert IdOk(env, m.world.nonces, id, m.world.tickets[id]);
  }

  /** Runs without fulfillBatch meet every such premise. */
  lemma {:induction false} BatchlessRun(env: Env, f: Focus, w: World, txs: seq<Transaction>)
    requires forall k | 0 <= k < |txs| :: Batchless(txs[k].program)
    ensures OpenFor(f, RunTrace(env, w, txs))
    decreases txs
  {
    if txs != [] {
      var mined := Mined(w, txs[0]);
      BatchlessIsOpen(env, f, mined, txs[0].program, txs[0].gas);
      hide Concerns, IsOpen;
      BatchlessRun(env, f, ExecuteAll(env, mined, txs[0].program, txs[0].gas), txs[1..]);
      hide ExecuteAll, TraceAll;
    }
  }
}
