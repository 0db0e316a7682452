/**
 Some requests and some accounts, whatever becomes of the others: their money, their life cycle, and
 at most one delivery each.

 The one premise on executions is that a batch finds the requests in question open when it comes to
 settle them; it reads their flags before it settles the first member.  What it does to others does
 not matter.  The delivery argument is about gas: while a request's callback runs, everything it can
 reach runs with at most the request's own callback limit, and retryCallback refuses anyone who holds
 no more than that.
 */
module Focus {
  import opened Common
  import opened Verifier
  import opened Sums
  import opened Accounts
  import opened Coordinator
  import opened Reentrancy
  import opened Invariants
  import opened Always

  /** Which requests and which accounts. */
  datatype Focus = Focus(request: RequestId -> bool, account: SubId -> bool)

  function OnRequest(id: RequestId): Focus { Focus(i => i == id, _ => false) }

  function OnAccount(s: SubId): Focus { Focus(_ => false, i => i == s) }

  function OnAll(): Focus { Focus(_ => true, _ => true) }

  predicate Concerns(f: Focus, w: World, id: RequestId) {
    f.request(id) || (id in w.tickets && f.account(w.tickets[id].req.subId))
  }

  predicate IsOpen(w: World, id: RequestId) { id in w.tickets && Open(w.tickets[id].req) }

  /** Batches find these requests open when they come to settle them. */
  ghost predicate OpenFor(f: Focus, ms: seq<Moment>) {
    forall m | m in ms :: m.Settling? && Concerns(f, m.world, m.id) ==> IsOpen(m.world, m.id)
  }

  /** The requests are in order, and the accounts hold what their open requests reserve. */
  ghost predicate Holds(env: Env, f: Focus, w: World) {
    && (forall id | id in w.tickets && f.request(id) :: TicketOk(env, w.nonces, id, w.tickets[id]))
    && (forall s: SubId | f.account(s) :: ReservedAt(w, s))
  }

  /** Later, by code that never held more than `bound` gas. */
  ghost predicate Follows(f: Focus, w: World, v: World, bound: nat) {
    forall id | id in w.tickets && f.request(id) ::
      id in v.tickets && Progress(w.tickets[id], v.tickets[id]) && (Sealed(w.tickets[id], bound) ==> v.tickets[id] == w.tickets[id])
  }

  lemma FollowsSelf(f: Focus, w: World, bound: nat)
    ensures Follows(f, w, w, bound)
  {}

  lemma FollowsStep(f: Focus, u: World, v: World, w: World, inner: nat, bound: nat)
    requires Follows(f, u, v, bound) && Follows(f, v, w, inner) && inner <= bound
    ensures Follows(f, u, w, bound)
  {
    forall id | id in u.tickets && f.request(id)
      ensures id in w.tickets && Progress(u.tickets[id], w.tickets[id])
      ensures Sealed(u.tickets[id], bound) ==> w.tickets[id] == u.tickets[id]
    {
      assert id in v.tickets;
    }
  }

  lemma OpenForSplit(f: Focus, a: seq<Moment>, b: seq<Moment>)
    requires OpenFor(f, a + b)
    ensures OpenFor(f, a) && OpenFor(f, b)
  {
    hide Concerns, IsOpen;
    assert forall m | m in a :: m in a + b;
    assert forall m | m in b :: m in a + b;
  }

  // ----- steps

  /** One request changes, new or known; what was sealed does not. */
  lemma TicketHolds(env: Env, f: Focus, w: World, v: World, id: RequestId, bound: nat)
    requires id in v.tickets && v.tickets == w.tickets[id := v.tickets[id]]
    requires forall a: Address :: Get(w.nonces, a) <= Get(v.nonces, a)
    requires forall i | i in w.tickets && f.request(i) :: TicketOk(env, w.nonces, i, w.tickets[i])
    requires f.request(id) ==> TicketOk(env, v.nonces, id, v.tickets[id])
    requires f.request(id) && id in w.tickets ==> Progress(w.tickets[id], v.tickets[id]) && !Sealed(w.tickets[id], bound)
    ensures forall i | i in v.tickets && f.request(i) :: TicketOk(env, v.nonces, i, v.tickets[i])
    ensures Follows(f, w, v, bound)
  {}

  lemma PlainHolds(env: Env, f: Focus, w: World, v: World, bound: nat)
    requires Holds(env, f, w) && RequestsAlone(w, v)
    ensures Holds(env, f, v) && Follows(f, w, v, bound)
  {
    hide TicketOk, Sum, OpenPaid, AccountOf, CountersOf;
  }

  /** Recording a request: a new id, its price reserved. */
  lemma RequestHolds(env: Env, f: Focus, w: World, sender: Caller, q: RequestParams, bound: nat)
    requires Sound(env, w) && NamesOk(env, w) && Coordinator.RequestRandomWords(env, w, sender, q).Ok?
    ensures var v, id := Coordinator.RequestRandomWords(env, w, sender, q).value, env.requestId(sender, Get(w.nonces, sender));
      && id !in w.tickets && v.tickets.Keys == w.tickets.Keys + {id} && Open(v.tickets[id].req)
      && v.tickets[id].req.paid == Cost(w.pricing.current, q.numWords, q.callbackGasLimit)
      && (Holds(env, f, w) ==> Holds(env, f, v) && Follows(f, w, v, bound))
  {
    hide Sum, LedgerInv, Reserve, PricingInv, Moves, ReservedAt;
    var v := Coordinator.RequestRandomWords(env, w, sender, q).value;
    var id := env.requestId(sender, Get(w.nonces, sender));
    var t := v.tickets[id];
    assert id in w.tickets ==> IdOk(env, w.nonces, id, w.tickets[id]);
    RequestIs(env, w, sender, q);
    ReserveKeeps(w.ledger, q.subId, t.req.paid);
    assert TicketOk(env, v.nonces, id, t);
    if Holds(env, f, w) {
      hide Coordinator.RequestRandomWords, NamesOk, TicketOk;
      TicketHolds(env, f, w, v, id, bound);
      forall s: SubId | f.account(s) ensures ReservedAt(v, s) {
        ReservedAfter(w, v, id, t, s);
      }
    }
  }

  /** Settling an open request of the focus, or any request outside it. */
  lemma SettleHolds(env: Env, f: Focus, w: World, sender: Caller, id: RequestId, bound: nat)
    requires Sound(env, w) && Holds(env, f, w) && SettleRequest(w, sender, id).Ok?
    requires Concerns(f, w, id) ==> IsOpen(w, id)
    ensures var v := SettleRequest(w, sender, id).value;
      && Holds(env, f, v) && Follows(f, w, v, bound)
      && (f.request(id) ==>
            && id in v.tickets && v.tickets[id].req == w.tickets[id].req.(fulfilled := true)
            && v.tickets[id].credited == [Credit(sender, w.tickets[id].req.paid)]
            && v.tickets[id].delivered == 0 && !v.tickets[id].req.callbackSucceeded)
  {
    hide Sum, LedgerInv, Settle, PricingInv, Moves, ReservedAt;
    var v, t := SettleRequest(w, sender, id).value, w.tickets[id];
    SettleKeeps(w.ledger, t.req.subId, t.req.paid, sender);
    assert f.request(id) ==> TicketOk(env, w.nonces, id, t);
    TicketHolds(env, f, w, v, id, bound);
    forall s: SubId | f.account(s) ensures ReservedAt(v, s) {
      ReservedAfterClose(w, v, id, v.tickets[id], s);
    }
  }

  lemma RefundHolds(env: Env, f: Focus, w: World, id: RequestId, bound: nat)
    requires Sound(env, w) && Holds(env, f, w) && Coordinator.Refund(w, id).Ok?
    ensures var v := Coordinator.Refund(w, id).value;
      && Holds(env, f, v) && Follows(f, w, v, bound) && v.tickets[id].req == w.tickets[id].req.(refunded := true)
  {
    hide Sum, LedgerInv, Release, PricingInv, Moves, ReservedAt;
    var v, t := Coordinator.Refund(w, id).value, w.tickets[id];
    ReleaseKeeps(w.ledger, t.req.subId, t.req.paid);
    assert f.request(id) ==> TicketOk(env, w.nonces, id, t);
    TicketHolds(env, f, w, v, id, bound);
    forall s: SubId | f.account(s) ensures ReservedAt(v, s) {
      ReservedAfterClose(w, v, id, v.tickets[id], s);
    }
  }

  /** Recording a first delivery; `w` is where the call began, and there the request was not sealed. */
  lemma DeliverHolds(env: Env, f: Focus, w: World, u: World, id: RequestId, bound: nat)
    requires Holds(env, f, u) && Follows(f, w, u, bound) && id in u.tickets
    requires f.request(id) ==> u.tickets[id].req.fulfilled && !u.tickets[id].req.callbackSucceeded
    requires f.request(id) && id in w.tickets ==> !Sealed(w.tickets[id], bound)
    ensures Holds(env, f, Deliver(u, id)) && Follows(f, w, Deliver(u, id), bound)
  {
    var v := Deliver(u, id);
    DeliverTickets(env, f, w, u, id, bound);
    forall s: SubId | f.account(s) ensures ReservedAt(v, s) {
      assert ReservedAt(u, s);
      hide ReservedAt, TicketOk, Follows, Deliver;
      DeliverReserves(u, id, s);
    }
    hide ReservedAt, TicketOk, Follows, Deliver;
  }

  lemma DeliverReserves(u: World, id: RequestId, s: SubId)
    requires ReservedAt(u, s) && id in u.tickets
    ensures ReservedAt(Deliver(u, id), s)
  {
    var v := Deliver(u, id);
    assert OpenPaid(v.tickets, s) == OpenPaid(u.tickets, s);
    hide Sum, OpenPaid;
  }

  lemma DeliverTickets(env: Env, f: Focus, w: World, u: World, id: RequestId, bound: nat)
    requires Follows(f, w, u, bound) && id in u.tickets
    requires forall i | i in u.tickets && f.request(i) :: TicketOk(env, u.nonces, i, u.tickets[i])
    requires f.request(id) ==> u.tickets[id].req.fulfilled && !u.tickets[id].req.callbackSucceeded
    requires f.request(id) && id in w.tickets ==> !Sealed(w.tickets[id], bound)
    ensures var v := Deliver(u, id);
      (forall i | i in v.tickets && f.request(i) :: TicketOk(env, v.nonces, i, v.tickets[i])) && Follows(f, w, v, bound)
  {}

  // ----- moments

  /** A consumer called back is one whose request is closed and was not delivered yet. */
  ghost predicate OfferOk(f: Focus, m: Moment) {
    m.Offered? && f.request(m.id) ==>
      m.id in m.world.tickets && m.world.tickets[m.id].req.fulfilled && m.world.tickets[m.id].delivered == 0
  }

  ghost predicate MomentHolds(env: Env, f: Focus, w: World, m: Moment, bound: nat) {
    Holds(env, f, m.world) && Follows(f, w, m.world, bound) && OfferOk(f, m)
  }

  ghost predicate AllHold(env: Env, f: Focus, w: World, ms: seq<Moment>, bound: nat) {
    forall m | m in ms :: MomentHolds(env, f, w, m, bound)
  }

  lemma HoldsHere(env: Env, f: Focus, w: World, m: Moment, bound: nat)
    requires MomentHolds(env, f, w, m, bound)
    ensures AllHold(env, f, w, [m], bound)
  {
    hide MomentHolds;
  }

  lemma AllHoldJoin(env: Env, f: Focus, w: World, a: seq<Moment>, b: seq<Moment>, bound: nat)
    requires AllHold(env, f, w, a, bound) && AllHold(env, f, w, b, bound)
    ensures AllHold(env, f, w, a + b, bound)
  {
    hide MomentHolds;
  }

  lemma AllHoldLater(env: Env, f: Focus, u: World, v: World, ms: seq<Moment>, inner: nat, bound: nat)
    requires Follows(f, u, v, bound) && AllHold(env, f, v, ms, inner) && inner <= bound
    ensures AllHold(env, f, u, ms, bound)
  {
    hide Holds, Follows, OfferOk;
    forall m | m in ms ensures MomentHolds(env, f, u, m, bound) {
      assert MomentHolds(env, f, v, m, inner);
      FollowsStep(f, u, v, m.world, inner, bound);
    }
  }

  lemma AllHoldNone(env: Env, f: Focus, w: World, bound: nat)
    ensures AllHold(env, f, w, [], bound)
  {}

  // ----- one call, up to the hand-over

  /** What a delivery needs to be recorded later: the request handed over undelivered, and unsealed before. */
  ghost predicate Deliverable(f: Focus, w: World, v: World, id: RequestId, limit: nat, bound: nat) {
    && id in w.tickets && id in v.tickets
    && (f.request(id) ==>
          && !Sealed(w.tickets[id], bound)
          && v.tickets[id].req.fulfilled && !v.tickets[id].req.callbackSucceeded && v.tickets[id].delivered == 0
          && limit <= v.tickets[id].req.callbackGasLimit)
  }

  ghost predicate EntryHolds(env: Env, f: Focus, w: World, op: Op, e: Entry, bound: nat) {
    match e
    case Refused(_) => true
    case Finished(v) => Holds(env, f, v) && Follows(f, w, v, bound)
    case HandsOver(v, limit) =>
      && Holds(env, f, v) && Follows(f, w, v, bound) && limit <= bound
      && (Delivers(op) ==> Deliverable(f, w, v, op.id, limit, bound))
  }

  lemma DeliveryHolds(env: Env, f: Focus, w: World, sender: Caller, gas: nat, op: Op, bound: nat)
    requires Sound(env, w) && Holds(env, f, w) && Delivers(op) && gas <= bound && Enter(env, w, sender, gas, op).HandsOver?
    ensures EntryHolds(env, f, w, op, Enter(env, w, sender, gas, op), bound)
  {
    var id := op.id;
    if op.FulfillRandomWords? {
      FulfilIs(env, w, sender, gas, op);
      hide Sound, Holds, Follows, Enter, SettleRequest;
      SettleHolds(env, f, w, sender, id, bound);
      SettleFlags(w, sender, id);
    } else {
      RetryIs(env, w, sender, gas, op);
      assert f.request(id) ==> TicketOk(env, w.nonces, id, w.tickets[id]);
      hide Sound, Holds, Follows, Enter;
      FollowsSelf(f, w, bound);
    }
  }

  lemma FulfilIs(env: Env, w: World, sender: Caller, gas: nat, op: Op)
    requires op.FulfillRandomWords? && Enter(env, w, sender, gas, op).HandsOver?
    ensures var e, id := Enter(env, w, sender, gas, op), op.id;
      && IsOpen(w, id) && GasNeeded(w.tickets[id].req.callbackGasLimit) <= gas && SettleRequest(w, sender, id) == Ok(e.world)
      && e.limit == Min(w.tickets[id].req.callbackGasLimit, gas)
  {
    SettleFlags(w, sender, op.id);
    hide SettleRequest;
  }

  lemma RetryIs(env: Env, w: World, sender: Caller, gas: nat, op: Op)
    requires op.RetryCallback? && Enter(env, w, sender, gas, op).HandsOver?
    ensures var e, id := Enter(env, w, sender, gas, op), op.id;
      && id in w.tickets && w.tickets[id].req.fulfilled && !w.tickets[id].req.callbackSucceeded
      && GasNeeded(w.tickets[id].req.callbackGasLimit) <= gas
      && e == HandsOver(w, Min(w.tickets[id].req.callbackGasLimit, gas))
  {}

  /** Settling a known request sets one flag. */
  lemma SettleFlags(w: World, sender: Caller, id: RequestId)
    ensures SettleRequest(w, sender, id).Ok? ==>
      var v := SettleRequest(w, sender, id).value;
      id in w.tickets && id in v.tickets && v.tickets[id].req == w.tickets[id].req.(fulfilled := true)
  {
    hide Settle;
  }

  lemma AnyEntry(env: Env, f: Focus, w: World, sender: Caller, gas: nat, op: Op, bound: nat)
    requires Sound(env, w) && NamesOk(env, w) && Holds(env, f, w) && gas <= bound
    ensures EntryHolds(env, f, w, op, Enter(env, w, sender, gas, op), bound)
  {
    var e := Enter(env, w, sender, gas, op);
    hide Sound, NamesOk, Holds, Follows, RequestsAlone, Steady, Deliverable,
      Coordinator.FulfillRandomWords, Coordinator.RetryCallback, Coordinator.RequestRandomWords, Coordinator.Refund;
    if IsPlain(op) {
      PlainKeeps(env, w, sender, gas, op);
      hide Enter;
      match e {
        case Refused(_) =>
        case Finished(v) => PlainHolds(env, f, w, v, bound);
        case HandsOver(v, _) => PlainHolds(env, f, w, v, bound);
      }
    } else if Delivers(op) {
      if e.HandsOver? { DeliveryHolds(env, f, w, sender, gas, op, bound); } else { DeliversNever(env, w, sender, gas, op); }
    } else if e.Finished? {
      match op {
        case RequestRandomWords(params) => RequestHolds(env, f, w, sender, params, bound);
        case Refund(id) => RefundHolds(env, f, w, id, bound);
        case FulfillBatch(_, _) => FollowsSelf(f, w, bound);
      }
    }
  }

  lemma DeliversNever(env: Env, w: World, sender: Caller, gas: nat, op: Op)
    requires Delivers(op)
    ensures !Enter(env, w, sender, gas, op).Finished?
  {}

  // ----- the tree

  lemma {:induction false} FocusCall(env: Env, f: Focus, w: World, c: Call, bound: nat)
    requires Sound(env, w) && NamesOk(env, w) && Holds(env, f, w) && OpenFor(f, Trace(env, w, c, bound))
    ensures Holds(env, f, Execute(env, w, c, bound)) && Follows(f, w, Execute(env, w, c, bound), bound)
    ensures AllHold(env, f, w, Trace(env, w, c, bound), bound)
    decreases c, 1
  {
    var gas := Min(c.gas, bound);
    var e := Enter(env, w, c.sender, gas, c.op);
    assert c.op.FulfillBatch? ==> !e.HandsOver?;
    assert c.op.FulfillBatch? && e.Finished? ==> e.world == w;
    hide Sound, NamesOk, Holds, Follows, Enter, MomentHolds, OpenFor, OfferOk, AllHold;
    FollowsSelf(f, w, bound);
    AnyEntry(env, f, w, c.sender, gas, c.op, bound);
    match e {
      case Refused(_) => AllHoldNone(env, f, w, bound);
      case Finished(done) =>
        if c.op.FulfillBatch? {
          var ids, later := Ids(c.op.members), TraceMembers(env, w, c.sender, c.op.members, c.op.signature, gas);
          OpenForSplit(f, [Batching(w, ids)], later);
          FocusMembers(env, f, w, c.sender, c.op.members, c.op.signature, gas, bound);
          QuietMoment(env, f, w, Batching(w, ids), bound);
          AllHoldJoin(env, f, w, [Batching(w, ids)], later, bound);
        } else {
          AllHoldNone(env, f, w, bound);
        }
      case HandsOver(handed, limit) => FocusHandOver(env, f, w, c, bound, gas, handed, limit);
    }
  }

  lemma QuietMoment(env: Env, f: Focus, w: World, m: Moment, bound: nat)
    requires Holds(env, f, w) && m.world == w && !m.Offered?
    ensures AllHold(env, f, w, [m], bound)
  {
    FollowsSelf(f, w, bound);
    hide Holds, Follows;
    HoldsHere(env, f, w, m, bound);
  }

  lemma {:induction false} FocusHandOver(env: Env, f: Focus, w: World, c: Call, bound: nat, gas: nat, handed: World, limit: nat)
    requires Sound(env, w) && NamesOk(env, w) && gas == Min(c.gas, bound) && !c.op.FulfillBatch?
    requires Enter(env, w, c.sender, gas, c.op) == HandsOver(handed, limit) && Holds(env, f, w)
    requires EntryHolds(env, f, w, c.op, HandsOver(handed, limit), bound) && OpenFor(f, Trace(env, w, c, bound))
    ensures Holds(env, f, Execute(env, w, c, bound)) && Follows(f, w, Execute(env, w, c, bound), bound)
    ensures AllHold(env, f, w, Trace(env, w, c, bound), bound)
    decreases c, 0
  {
    var after, inside := ExecuteAll(env, handed, c.callback.body, limit), TraceAll(env, handed, c.callback.body, limit);
    var first := if Delivers(c.op) then [Offered(handed, c.op.id, CarriedWords(env, handed, c.op.id, c.op.signature), true)] else [];
    assert Execute(env, w, c, bound) == Leave(c.op, w, handed, after, c.callback.ok);
    assert Trace(env, w, c, bound) == first + inside;
    hide Sound, NamesOk, Enter, MomentHolds, AllHold, CarriedWords, OpenFor, Holds, Follows, Deliver, Deliverable;
    EveryEntry(env, w, c.sender, gas, c.op, bound);
    EntryNames(env, w, gas, c.op, handed, limit, bound);
    OpenForSplit(f, first, inside);
    FocusProgram(env, f, handed, c.callback.body, limit);
    FollowsStep(f, w, handed, after, limit, bound);
    AllHoldLater(env, f, w, handed, inside, limit, bound);
    FollowsSelf(f, w, bound);
    if Delivers(c.op) {
      OfferHolds(env, f, w, handed, c.op.id, first[0].words, true, limit, bound);
      DeliveredAfter(env, f, w, handed, after, c.op.id, limit, bound);
    } else {
      AllHoldNone(env, f, w, bound);
    }
    AllHoldJoin(env, f, w, first, inside, bound);
  }

  lemma EntryNames(env: Env, w: World, gas: nat, op: Op, handed: World, limit: nat, bound: nat)
    requires NamesOk(env, w) && EntrySound(env, w, gas, op, HandsOver(handed, limit), bound)
    ensures Sound(env, handed) && NamesOk(env, handed)
  {
    hide Sound, NamesOk, WordsFit, Shielded;
  }

  lemma OfferHolds(env: Env, f: Focus, w: World, handed: World, id: RequestId, words: seq<nat>, single: bool, limit: nat, bound: nat)
    requires Holds(env, f, handed) && Follows(f, w, handed, bound) && Deliverable(f, w, handed, id, limit, bound)
    ensures AllHold(env, f, w, [Offered(handed, id, words, single)], bound)
  {
    hide Holds, Follows;
    HoldsHere(env, f, w, Offered(handed, id, words, single), bound);
  }

  /** What ran inside could not touch the request handed over, so recording its delivery is sound. */
  lemma DeliveredAfter(env: Env, f: Focus, w: World, handed: World, after: World, id: RequestId, limit: nat, bound: nat)
    requires Deliverable(f, w, handed, id, limit, bound) && Holds(env, f, after)
    requires Follows(f, handed, after, limit) && Follows(f, w, after, bound)
    ensures Holds(env, f, Deliver(after, id)) && Follows(f, w, Deliver(after, id), bound)
  {
    if id in after.tickets {
      assert f.request(id) ==> after.tickets[id] == handed.tickets[id];
      hide Holds, Follows;
      DeliverHolds(env, f, w, after, id, bound);
    }
  }

  lemma {:induction false} FocusProgram(env: Env, f: Focus, w: World, p: Program, bound: nat)
    requires Sound(env, w) && NamesOk(env, w) && Holds(env, f, w) && OpenFor(f, TraceAll(env, w, p, bound))
    ensures Holds(env, f, ExecuteAll(env, w, p, bound)) && Follows(f, w, ExecuteAll(env, w, p, bound), bound)
    ensures AllHold(env, f, w, TraceAll(env, w, p, bound), bound)
    decreases p
  {
    FollowsSelf(f, w, bound);
    QuietMoment(env, f, w, Control(w), bound);
    match p {
      case Stop => assert TraceAll(env, w, p, bound) == [Control(w)];
      case Then(c, rest) =>
        var next := Execute(env, w, c, bound);
        var here, later := Trace(env, w, c, bound), TraceAll(env, next, rest, bound);
        assert TraceAll(env, w, p, bound) == [Control(w)] + (here + later);
        hide Sound, NamesOk, Holds, Follows, MomentHolds, Execute, Trace, AllHold, OpenFor, Carries;
        OpenForSplit(f, [Control(w)], here + later);
        OpenForSplit(f, here, later);
        FocusCall(env, f, w, c, bound);
        EveryCall(env, w, c, bound);
        CarriesNames(env, w, next, [], bound);
        FocusProgram(env, f, next, rest, bound);
        FollowsStep(f, w, next, ExecuteAll(env, next, rest, bound), bound, bound);
        AllHoldLater(env, f, w, next, later, bound, bound);
        AllHoldJoin(env, f, w, here, later, bound);
        AllHoldJoin(env, f, w, [Control(w)], here + later, bound);
    }
  }

  lemma {:induction false} FocusMembers(env: Env, f: Focus, w: World, sender: Caller, members: Members, signature: Signature,
      gas: nat, bound: nat)
    requires Sound(env, w) && NamesOk(env, w) && Holds(env, f, w) && gas <= bound
    requires OpenFor(f, TraceMembers(env, w, sender, members, signature, gas))
    ensures AllHold(env, f, w, TraceMembers(env, w, sender, members, signature, gas), bound)
    ensures var settled := ExecuteMembers(env, w, sender, members, gas);
      settled.Some? ==> Holds(env, f, settled.value) && Follows(f, w, settled.value, bound)
    decreases members
  {
    FollowsSelf(f, w, bound);
    match members {
      case NoMembers =>
        assert TraceMembers(env, w, sender, members, signature, gas) == [];
        AllHoldNone(env, f, w, bound);
      case Member(id, callback, others) =>
        QuietMoment(env, f, w, Settling(w, id), bound);
        if SettleRequest(w, sender, id).Ok? {
          FocusTurn(env, f, w, sender, members, signature, gas, bound);
        } else {
          assert TraceMembers(env, w, sender, members, signature, gas) == [Settling(w, id)];
        }
    }
  }

  lemma {:induction false} FocusTurn(env: Env, f: Focus, w: World, sender: Caller, members: Members, signature: Signature,
      gas: nat, bound: nat)
    requires Sound(env, w) && NamesOk(env, w) && Holds(env, f, w) && gas <= bound && members.Member?
    requires OpenFor(f, TraceMembers(env, w, sender, members, signature, gas)) && SettleRequest(w, sender, members.id).Ok?
    ensures AllHold(env, f, w, TraceMembers(env, w, sender, members, signature, gas), bound)
    ensures var settled := ExecuteMembers(env, w, sender, members, gas);
      settled.Some? ==> Holds(env, f, settled.value) && Follows(f, w, settled.value, bound)
    decreases members, 0
  {
    var id, callback, others := members.id, members.callback, members.others;
    var handed := SettleRequest(w, sender, id).value;
    var limit := MemberLimit(handed, id, gas);
    var after := ExecuteAll(env, handed, callback.body, limit);
    var next := AfterMember(env, w, sender, id, callback, gas);
    var settling := [Settling(w, id), Offered(handed, id, CarriedWords(env, handed, id, signature), false)];
    var inside, later := TraceAll(env, handed, callback.body, limit), TraceMembers(env, next, sender, others, signature, gas);
    TurnTrace(env, w, sender, members, signature, gas);
    OneMember(env, w, sender, members, gas);
    assert next == if callback.ok then Deliver(after, id) else handed;
    hide Sound, NamesOk, Holds, Follows, OpenFor, MomentHolds, AllHold, SettleRequest, Deliver, CarriedWords, TraceMembers, ExecuteMembers,
      AfterMember, ExecuteAll, TraceAll, Carries, Deliverable;
    OpenForSplit(f, settling, inside + later);
    OpenForSplit(f, inside, later);
    TurnBegins(env, f, w, sender, id, signature, gas, bound);
    FocusProgram(env, f, handed, callback.body, limit);
    FollowsStep(f, w, handed, after, limit, bound);
    DeliveredAfter(env, f, w, handed, after, id, limit, bound);
    TurnLeavesShielded(env, w, sender, id, callback, gas);
    FocusMembers(env, f, next, sender, others, signature, gas, bound);
    var settled := ExecuteMembers(env, next, sender, others, gas);
    if settled.Some? { FollowsStep(f, w, next, settled.value, bound, bound); }
    AllHoldLater(env, f, w, handed, inside, limit, bound);
    AllHoldLater(env, f, w, next, later, bound, bound);
    AllHoldJoin(env, f, w, inside, later, bound);
    AllHoldJoin(env, f, w, settling, inside + later, bound);
  }

  /** A member is settled and its consumer about to be called. */
  lemma TurnBegins(env: Env, f: Focus, w: World, sender: Caller, id: RequestId, signature: Signature, gas: nat, bound: nat)
    requires Sound(env, w) && NamesOk(env, w) && Holds(env, f, w) && gas <= bound && SettleRequest(w, sender, id).Ok?
    requires OpenFor(f, [Settling(w, id), Offered(SettleRequest(w, sender, id).value, id,
      CarriedWords(env, SettleRequest(w, sender, id).value, id, signature), false)])
    ensures var handed := SettleRequest(w, sender, id).value;
      && Sound(env, handed) && NamesOk(env, handed) && Holds(env, f, handed) && Follows(f, w, handed, bound)
      && MemberLimit(handed, id, gas) <= bound
      && Deliverable(f, w, handed, id, MemberLimit(handed, id, gas), bound)
      && AllHold(env, f, w, [Settling(w, id), Offered(handed, id, CarriedWords(env, handed, id, signature), false)], bound)
  {
    hide *;
    var handed := SettleRequest(w, sender, id).value;
    var offered := Offered(handed, id, CarriedWords(env, handed, id, signature), false);
    SettleFlags(w, sender, id);
    LimitFits(handed, id, gas, bound);
    SettlingIs(f, w, id, offered);
    SettleHolds(env, f, w, sender, id, bound);
    SettleCarries(env, w, sender, id, [id], 0);
    CarriesNames(env, w, handed, [id], 0);
    QuietMoment(env, f, w, Settling(w, id), bound);
    SettledDeliverable(f, w, handed, id, gas, bound);
    OfferHolds(env, f, w, handed, id, offered.words, false, MemberLimit(handed, id, gas), bound);
    AllHoldJoin(env, f, w, [Settling(w, id)], [offered], bound);
    assert [Settling(w, id)] + [offered] == [Settling(w, id), offered];
  }

  lemma LimitFits(w: World, id: RequestId, gas: nat, bound: nat)
    requires id in w.tickets && gas <= bound
    ensures MemberLimit(w, id, gas) <= bound && MemberLimit(w, id, gas) <= w.tickets[id].req.callbackGasLimit
  {}

  lemma SettlingIs(f: Focus, w: World, id: RequestId, next: Moment)
    requires OpenFor(f, [Settling(w, id), next])
    ensures Concerns(f, w, id) ==> IsOpen(w, id)
    ensures f.request(id) ==> Concerns(f, w, id)
  {
    assert Settling(w, id) in [Settling(w, id), next];
    hide IsOpen;
  }

  lemma SettledDeliverable(f: Focus, w: World, handed: World, id: RequestId, gas: nat, bound: nat)
    requires id in w.tickets && id in handed.tickets && (f.request(id) ==> IsOpen(w, id)) && gas <= bound
    requires f.request(id) ==> handed.tickets[id].req == w.tickets[id].req.(fulfilled := true)
    requires f.request(id) ==> handed.tickets[id].delivered == 0 && !handed.tickets[id].req.callbackSucceeded
    ensures Deliverable(f, w, handed, id, MemberLimit(handed, id, gas), bound)
  {}
}
