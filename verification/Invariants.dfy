/**
 What holds of both contracts whenever anyone but them is in control: the money behind requests,
 the life of each request, the fee promise.  Each external function keeps it, up to the point
 where foreign code takes over.
 */
module Invariants {
  import opened Common
  import opened Sums
  import opened Accounts
  import opened Coordinator

  /** Request ids do not collide, the key and the curve encoding are sound, first prices are within caps. */
  ghost predicate Premises(env: Env) {
    && env.verifier.Valid() && env.verifier.suite.Canonical()
    && Injective(env)
    && WithinCaps(env, env.initialFees)
  }

  ghost predicate Injective(env: Env) {
    forall a: Address, n: nat, b: Address, m: nat :: env.requestId(a, n) == env.requestId(b, m) ==> a == b && n == m
  }

  // ----- requests and the money behind them

  ghost function OpenPaid(tickets: map<RequestId, Ticket>, subId: SubId): map<RequestId, nat> {
    map id | id in tickets && Open(tickets[id].req) && tickets[id].req.subId == subId :: tickets[id].req.paid
  }

  /** What one account has reserved is the sum of the prices of its open requests; pending counts them. */
  ghost predicate ReservedAt(w: World, s: SubId) {
    && AccountOf(w.ledger.accounts, s).reserved == Sum(OpenPaid(w.tickets, s))
    && CountersOf(w.ledger.counters, s).pending == |OpenPaid(w.tickets, s)|
  }

  ghost predicate ReservedInv(w: World) { forall s: SubId :: ReservedAt(w, s) }

  /** A request is filed under its consumer and a nonce its consumer has used up, names an account, and asks for words. */
  ghost predicate IdOk(env: Env, nonces: map<Address, nat>, id: RequestId, t: Ticket) {
    && t.nonce < Get(nonces, t.req.consumer) && id == env.requestId(t.req.consumer, t.nonce)
    && t.req.subId <= MAX64 && t.req.numWords > 0
  }

  /**
   One request: closed at most once and in one way; its price reserved, or credited once, or
   released once; delivered once if and only if the contract says so.
   */
  ghost predicate TicketOk(env: Env, nonces: map<Address, nat>, id: RequestId, t: Ticket) {
    && t.req.consumer != ZERO && IdOk(env, nonces, id, t)
    && 1 <= t.req.numWords <= MAX_WORDS && 1 <= t.req.callbackGasLimit <= MAX_CALLBACK_GAS
    && t.req.paid <= MAX96
    && !(t.req.fulfilled && t.req.refunded)
    && (t.req.callbackSucceeded ==> t.req.fulfilled)
    && t.delivered == (if t.req.callbackSucceeded then 1 else 0)
    && (if t.req.fulfilled then |t.credited| == 1 && t.credited[0].amount == t.req.paid else t.credited == [])
    && t.released == (if t.req.refunded then [t.req.paid] else [])
  }

  ghost predicate TicketsInv(env: Env, nonces: map<Address, nat>, tickets: map<RequestId, Ticket>) {
    forall id | id in tickets :: TicketOk(env, nonces, id, tickets[id])
  }

  // ----- prices

  /** The prices of the latest applied proposal, or the constructor's. */
  ghost function InEffect(env: Env, ps: seq<Proposal>): Fees {
    if ps == [] then env.initialFees
    else if ps[|ps| - 1].status.Applied? then ps[|ps| - 1].fees
    else InEffect(env, ps[..|ps| - 1])
  }

  /** An applied proposal waited out its notice; only the latest can still be waiting. */
  ghost predicate ProposalOk(env: Env, ps: seq<Proposal>, k: nat)
    requires k < |ps|
  {
    && WithinCaps(env, ps[k].fees)
    && (ps[k].status.Applied? ==> ps[k].status.at >= ps[k].madeAt + FEE_TIMELOCK_BLOCKS)
    && (ps[k].status.Waiting? ==> k == |ps| - 1)
  }

  predicate IsWaiting(ps: seq<Proposal>) { ps != [] && ps[|ps| - 1].status.Waiting? }

  ghost predicate PricingInv(env: Env, p: Pricing) {
    && (forall k | 0 <= k < |p.proposals| :: ProposalOk(env, p.proposals, k))
    && (p.effectiveAt != 0 <==> IsWaiting(p.proposals))
    && (IsWaiting(p.proposals) ==>
          var last := p.proposals[|p.proposals| - 1];
          p.pending == last.fees && p.effectiveAt == last.madeAt + FEE_TIMELOCK_BLOCKS)
    && p.current == InEffect(env, p.proposals) && WithinCaps(env, p.current)
    && (p.owner == ZERO ==> Renounced(p))
  }

  /** Nobody can ever change the price again. */
  ghost predicate Renounced(p: Pricing) {
    p.owner == ZERO && p.pendingOwner == ZERO && p.effectiveAt == 0
  }

  // ----- what requests cost

  /** A base fee, a fee for every word asked for, and a fee for every unit of gas the callback may use. */
  function Cost(f: Fees, numWords: nat, callbackGas: nat): nat {
    f.base + f.perWord * numWords + f.perGas * callbackGas
  }

  predicate Costs(f: Fees, req: Request) {
    req.paid == Cost(f, req.numWords, req.callbackGasLimit)
  }

  /** Proposal k was the last one applied by block `b`; one applied in that very block may come before or after. */
  ghost predicate SetBy(ps: seq<Proposal>, k: nat, b: nat) {
    && k < |ps| && ps[k].status.Applied? && ps[k].status.at <= b
    && (forall j | k < j < |ps| && ps[j].status.Applied? :: ps[j].status.at >= b)
  }

  ghost predicate NoneSetBy(ps: seq<Proposal>, b: nat) {
    forall j | 0 <= j < |ps| && ps[j].status.Applied? :: ps[j].status.at >= b
  }

  /** A request is charged the fees that were in force in the block it was made in. */
  ghost predicate Charged(env: Env, ps: seq<Proposal>, req: Request) {
    || (NoneSetBy(ps, req.createdAtBlock) && Costs(env.initialFees, req))
    || exists k: nat :: SetBy(ps, k, req.createdAtBlock) && Costs(ps[k].fees, req)
  }

  ghost predicate TermsOk(env: Env, tickets: map<RequestId, Ticket>, ps: seq<Proposal>, block: nat) {
    && (forall k | 0 <= k < |ps| && ps[k].status.Applied? :: ps[k].status.at <= block)
    && (forall id | id in tickets :: tickets[id].req.createdAtBlock <= block && Charged(env, ps, tickets[id].req))
  }

  /** What never depends on how requests are closed: the money as a whole, the indices, the prices. */
  ghost predicate Sound(env: Env, w: World) {
    && LedgerInv(w.ledger)
    && PricingInv(env, w.pricing)
    && TermsOk(env, w.tickets, w.pricing.proposals, w.block)
    && w.ledger.coin + w.outside <= MAX96
    && w.block < TWO64
  }

  ghost predicate Inv(env: Env, w: World) {
    && Sound(env, w)
    && ReservedInv(w)
    && TicketsInv(env, w.nonces, w.tickets)
  }

  // ----- what no call undoes

  /** Recorded fields never change, and flags are only ever set. */
  ghost predicate Recorded(t: Ticket, u: Ticket) {
    && u.req == t.req.(fulfilled := u.req.fulfilled, refunded := u.req.refunded,
                       callbackSucceeded := u.req.callbackSucceeded)
    && u.nonce == t.nonce
    && (t.req.fulfilled ==> u.req.fulfilled)
    && (t.req.refunded ==> u.req.refunded)
    && (t.req.callbackSucceeded ==> u.req.callbackSucceeded)
  }

  /** A closed request stays closed the way it was, and its price stays where it went. */
  ghost predicate ClosedStays(t: Ticket, u: Ticket) {
    !Open(t.req) ==>
      && u.req.fulfilled == t.req.fulfilled && u.req.refunded == t.req.refunded
      && u.credited == t.credited && u.released == t.released
  }

  ghost predicate Progress(t: Ticket, u: Ticket) { Recorded(t, u) && ClosedStays(t, u) }

  /**
   A request nobody holding at most `bound` gas can touch: refunded only, or delivered, or fulfilled
   with a callback limit of at least that much.
   */
  ghost predicate Sealed(t: Ticket, bound: nat) {
    || (t.req.refunded && !t.req.fulfilled)
    || (t.req.fulfilled && (t.req.callbackSucceeded || bound <= t.req.callbackGasLimit))
  }

  ghost predicate TicketsEvolve(t: map<RequestId, Ticket>, u: map<RequestId, Ticket>, bound: nat) {
    forall id | id in t :: id in u && Progress(t[id], u[id]) && (Sealed(t[id], bound) ==> u[id] == t[id])
  }

  /** The history of proposals is only extended, and a decided proposal stays decided. */
  ghost predicate PricingEvolves(p: Pricing, q: Pricing) {
    && (Renounced(p) ==> q == p)
    && |p.proposals| <= |q.proposals|
    && (forall k | 0 <= k < |p.proposals| ::
          q.proposals[k] == p.proposals[k].(status := q.proposals[k].status) &&
          (!p.proposals[k].status.Waiting? ==> q.proposals[k] == p.proposals[k]))
  }

  /** From one state to a later one of the same transaction, requests apart. */
  ghost predicate Steady(w: World, v: World) {
    && v.block == w.block
    && v.ledger.coin + v.outside == w.ledger.coin + w.outside
    && LedgerEvolves(w.ledger, v.ledger)
    && PricingEvolves(w.pricing, v.pricing)
  }

  /** From one state to a later one, by code that never held more than `bound` gas. */
  ghost predicate Evolves(w: World, v: World, bound: nat) {
    Steady(w, v) && TicketsEvolve(w.tickets, v.tickets, bound)
  }

  // ----- the sum over open requests, when one request changes

  lemma OpenPaidAdd(tickets: map<RequestId, Ticket>, id: RequestId, t: Ticket, s: SubId)
    requires id !in tickets && Open(t.req)
    ensures var was, now := OpenPaid(tickets, s), OpenPaid(tickets[id := t], s);
      if t.req.subId == s then Sum(now) == Sum(was) + t.req.paid && |now| == |was| + 1 else now == was
  {
    var was, now := OpenPaid(tickets, s), OpenPaid(tickets[id := t], s);
    if t.req.subId == s {
      assert now == was[id := t.req.paid];
      SumSet(was, id, t.req.paid);
    } else {
      assert now == was;
    }
  }

  lemma OpenPaidClose(tickets: map<RequestId, Ticket>, id: RequestId, t: Ticket, s: SubId)
    requires id in tickets && Open(tickets[id].req) && !Open(t.req)
    ensures var was, now, req := OpenPaid(tickets, s), OpenPaid(tickets[id := t], s), tickets[id].req;
      if req.subId == s then Sum(was) == Sum(now) + req.paid && |was| == |now| + 1 else now == was
  {
    var was, now := OpenPaid(tickets, s), OpenPaid(tickets[id := t], s);
    if tickets[id].req.subId == s {
      assert now == was - {id};
      SumRemove(was, id);
      SmallerMap(was, id);
    } else {
      assert now == was;
    }
  }

  // ----- calls that leave requests alone

  lemma LedgerStep(env: Env, w: World, l: Ledger, outside: nat)
    requires Sound(env, w) && LedgerInv(l) && LedgerEvolves(w.ledger, l)
    requires l.coin + outside == w.ledger.coin + w.outside
    ensures var v := w.(ledger := l, outside := outside); Sound(env, v) && Steady(w, v)
  {
    hide LedgerInv, PricingInv, TermsOk;
  }

  lemma PaymentStep(env: Env, w: World, l: Ledger, amount: nat)
    requires Sound(env, w) && Kept(w.ledger, l, amount) && l.coin == w.ledger.coin
    ensures l.coin >= amount
    ensures var v := w.(ledger := l.(coin := l.coin - amount), outside := w.outside + amount);
      Send(w, l, amount) == Ok(v) && Sound(env, v) && Steady(w, v) && SameReservations(w.ledger, v.ledger)
  {
    hide ActiveInv, OwnersInv, ConsumersInv, PricingInv, PricingEvolves, TermsOk;
    LedgerStep(env, w, l.(coin := l.coin - amount), w.outside + amount);
  }

  // ----- fees and ownership

  lemma MarkKeeps(env: Env, ps: seq<Proposal>, status: Status)
    requires forall k | 0 <= k < |ps| :: ProposalOk(env, ps, k)
    requires !status.Waiting?
    requires status.Applied? ==> IsWaiting(ps) && status.at >= ps[|ps| - 1].madeAt + FEE_TIMELOCK_BLOCKS
    ensures var qs := Mark(ps, status);
      && |qs| == |ps| && !IsWaiting(qs)
      && (forall k | 0 <= k < |qs| :: ProposalOk(env, qs, k) && !qs[k].status.Waiting?)
      && InEffect(env, qs) == (if status.Applied? then ps[|ps| - 1].fees else InEffect(env, ps))
      && (forall k | 0 <= k < |ps| :: qs[k] == ps[k].(status := qs[k].status) &&
            (!ps[k].status.Waiting? ==> qs[k] == ps[k]))
  {
    var qs := Mark(ps, status);
    if IsWaiting(ps) {
      assert qs[..|qs| - 1] == ps[..|ps| - 1];
    }
    forall k | 0 <= k < |qs| ensures ProposalOk(env, qs, k) && !qs[k].status.Waiting? {
      assert ProposalOk(env, ps, k);
    }
  }

  lemma ProposeKeeps(env: Env, w: World, sender: Caller, fees: Fees)
    requires Sound(env, w) && Coordinator.ProposeFees(env, w, sender, fees).Ok?
    ensures var p := Coordinator.ProposeFees(env, w, sender, fees).value; PricingInv(env, p) && PricingEvolves(w.pricing, p)
    ensures HistoryGrows(w.pricing.proposals, Coordinator.ProposeFees(env, w, sender, fees).value.proposals, w.block)
  {
    var p := Coordinator.ProposeFees(env, w, sender, fees).value;
    var qs := Mark(w.pricing.proposals, Replaced);
    MarkKeeps(env, w.pricing.proposals, Replaced);
    assert p.proposals[..|p.proposals| - 1] == qs;
    forall k | 0 <= k < |p.proposals| ensures ProposalOk(env, p.proposals, k) {
      if k < |qs| { assert ProposalOk(env, qs, k); }
    }
  }

  lemma ApplyKeeps(env: Env, w: World)
    requires Sound(env, w) && Coordinator.ApplyFees(w).Ok?
    ensures var p := Coordinator.ApplyFees(w).value; PricingInv(env, p) && PricingEvolves(w.pricing, p)
    ensures HistoryGrows(w.pricing.proposals, Coordinator.ApplyFees(w).value.proposals, w.block)
  {
    hide LedgerInv, TermsOk;
    MarkKeeps(env, w.pricing.proposals, Applied(w.block));
  }

  /** cancelFeeChange, and renounceOwnership with the owner gone as well. */
  lemma ClearKeeps(env: Env, p: Pricing, q: Pricing)
    requires PricingInv(env, p) && p.owner != ZERO
    requires var c := ClearPending(p, Cancelled); q == c || q == c.(owner := ZERO, pendingOwner := ZERO)
    ensures PricingInv(env, q) && PricingEvolves(p, q)
    ensures forall block :: HistoryGrows(p.proposals, q.proposals, block)
  {
    MarkKeeps(env, p.proposals, Cancelled);
  }

  /** An owner in office, or an accepted offer, changes hands without touching prices. */
  lemma OwnerKeeps(env: Env, p: Pricing, owner: Address, pendingOwner: Address)
    requires PricingInv(env, p) && owner != ZERO && !Renounced(p)
    ensures var q := p.(owner := owner, pendingOwner := pendingOwner); PricingInv(env, q) && PricingEvolves(p, q)
  {}

  // ----- prices already charged

  ghost predicate SameTerms(r: Request, q: Request) {
    q.createdAtBlock == r.createdAtBlock && q.paid == r.paid && q.numWords == r.numWords
    && q.callbackGasLimit == r.callbackGasLimit
  }

  /** No terms change, and time only passes. */
  lemma TermsKept(env: Env, t: map<RequestId, Ticket>, u: map<RequestId, Ticket>, ps: seq<Proposal>, block: nat, later: nat)
    requires TermsOk(env, t, ps, block) && block <= later
    requires forall id | id in u :: id in t && SameTerms(t[id].req, u[id].req)
    ensures TermsOk(env, u, ps, later)
  {
    hide Cost, SetBy, NoneSetBy;
    forall id | id in u ensures u[id].req.createdAtBlock <= later && Charged(env, ps, u[id].req) {
      assert Charged(env, ps, t[id].req);
      assert Costs(env.initialFees, t[id].req) == Costs(env.initialFees, u[id].req);
      assert forall k | 0 <= k < |ps| :: Costs(ps[k].fees, t[id].req) == Costs(ps[k].fees, u[id].req);
    }
  }

  /** Proposals are added and decided, none applied for an earlier block than this. */
  ghost predicate HistoryGrows(ps: seq<Proposal>, qs: seq<Proposal>, block: nat) {
    && |ps| <= |qs|
    && (forall k | 0 <= k < |ps| && ps[k].status.Applied? :: qs[k] == ps[k])
    && (forall k | 0 <= k < |qs| && qs[k].status.Applied? :: (k < |ps| && ps[k].status.Applied?) || qs[k].status.at == block)
  }

  lemma HistorySelf(ps: seq<Proposal>, block: nat)
    ensures HistoryGrows(ps, ps, block)
  {}

  lemma ChargedStill(env: Env, ps: seq<Proposal>, qs: seq<Proposal>, block: nat, req: Request)
    requires HistoryGrows(ps, qs, block) && req.createdAtBlock <= block && Charged(env, ps, req)
    ensures Charged(env, qs, req)
  {
    hide Costs;
    if !(NoneSetBy(ps, req.createdAtBlock) && Costs(env.initialFees, req)) {
      var k: nat :| SetBy(ps, k, req.createdAtBlock) && Costs(ps[k].fees, req);
      assert SetBy(qs, k, req.createdAtBlock) && Costs(qs[k].fees, req);
    }
  }

  lemma TermsRepriced(env: Env, tickets: map<RequestId, Ticket>, ps: seq<Proposal>, qs: seq<Proposal>, block: nat)
    requires TermsOk(env, tickets, ps, block) && HistoryGrows(ps, qs, block)
    ensures TermsOk(env, tickets, qs, block)
  {
    forall id | id in tickets ensures Charged(env, qs, tickets[id].req) {
      hide Charged;
      ChargedStill(env, ps, qs, block, tickets[id].req);
    }
    hide Charged;
  }

  /** A request made now at current prices is charged what is in force now. */
  lemma ChargedNow(env: Env, p: Pricing, block: nat, req: Request)
    requires PricingInv(env, p) && req.createdAtBlock == block && Costs(p.current, req)
    requires forall k | 0 <= k < |p.proposals| && p.proposals[k].status.Applied? :: p.proposals[k].status.at <= block
    ensures Charged(env, p.proposals, req)
  {
    var ps, n := p.proposals, |p.proposals|;
    assert ps[..n] == ps && InEffect(env, ps[..n]) == p.current;
    hide PricingInv, Costs, InEffect;
    LatestApplied(env, ps, n);
    if !NoneApplied(ps, n) {
      var k: nat :| LastApplied(ps, n, k) && InEffect(env, ps[..n]) == ps[k].fees;
      assert SetBy(ps, k, block) && Costs(ps[k].fees, req);
    }
  }

  lemma TermsAdded(env: Env, tickets: map<RequestId, Ticket>, p: Pricing, block: nat, id: RequestId, t: Ticket)
    requires TermsOk(env, tickets, p.proposals, block) && PricingInv(env, p)
    requires t.req.createdAtBlock == block && Costs(p.current, t.req)
    ensures TermsOk(env, tickets[id := t], p.proposals, block)
  {
    ChargedNow(env, p, block, t.req);
    hide Charged, PricingInv, Costs;
  }

  /** What a request is recorded with. */
  lemma RequestIs(env: Env, w: World, sender: Caller, q: RequestParams)
    requires Coordinator.RequestRandomWords(env, w, sender, q).Ok?
    ensures var v, id := Coordinator.RequestRandomWords(env, w, sender, q).value, env.requestId(sender, Get(w.nonces, sender));
      && id in v.tickets && var t := v.tickets[id];
      && v.tickets == w.tickets[id := t] && v.pricing == w.pricing && v.block == w.block && v.outside == w.outside
      && Costs(w.pricing.current, t.req) && t.req.createdAtBlock == w.block % TWO64
      && Reserve(w.ledger, q.subId, t.req.paid) == Ok(v.ledger)
  {
    hide Reserve, CheckRequest;
  }

  // ----- which proposal is in effect

  ghost predicate NoneApplied(ps: seq<Proposal>, n: nat)
    requires n <= |ps|
  {
    forall j | 0 <= j < n :: !ps[j].status.Applied?
  }

  ghost predicate LastApplied(ps: seq<Proposal>, n: nat, k: nat)
    requires n <= |ps|
  {
    k < n && ps[k].status.Applied? && forall j | k < j < n :: !ps[j].status.Applied?
  }

  lemma {:induction false} LatestApplied(env: Env, ps: seq<Proposal>, n: nat)
    requires n <= |ps|
    ensures if NoneApplied(ps, n) then InEffect(env, ps[..n]) == env.initialFees
            else exists k: nat :: LastApplied(ps, n, k) && InEffect(env, ps[..n]) == ps[k].fees
  {
    if n > 0 {
      InEffectStep(env, ps, n);
      hide *;
      LatestApplied(env, ps, n - 1);
      if ps[n - 1].status.Applied? {
        AppliedStep(ps, n);
      } else if NoneApplied(ps, n - 1) {
        StillNone(ps, n);
      } else {
        var k: nat :| LastApplied(ps, n - 1, k) && InEffect(env, ps[..n - 1]) == ps[k].fees;
        StillLast(ps, n, k);
      }
    }
  }

  lemma InEffectStep(env: Env, ps: seq<Proposal>, n: nat)
    requires 0 < n <= |ps|
    ensures InEffect(env, ps[..n]) == if ps[n - 1].status.Applied? then ps[n - 1].fees else InEffect(env, ps[..n - 1])
  {
    assert ps[..n][..n - 1] == ps[..n - 1];
  }

  lemma AppliedStep(ps: seq<Proposal>, n: nat)
    requires 0 < n <= |ps| && ps[n - 1].status.Applied?
    ensures !NoneApplied(ps, n) && LastApplied(ps, n, n - 1)
  {}

  lemma StillNone(ps: seq<Proposal>, n: nat)
    requires 0 < n <= |ps| && !ps[n - 1].status.Applied? && NoneApplied(ps, n - 1)
    ensures NoneApplied(ps, n)
  {}

  lemma StillLast(ps: seq<Proposal>, n: nat, k: nat)
    requires 0 < n <= |ps| && !ps[n - 1].status.Applied? && LastApplied(ps, n - 1, k)
    ensures !NoneApplied(ps, n) && LastApplied(ps, n, k)
  {}

  // ----- requests

  lemma PricingSelf(p: Pricing)
    ensures PricingEvolves(p, p)
  {}

  lemma ReservedAfter(w: World, v: World, id: RequestId, t: Ticket, s: SubId)
    requires ReservedAt(w, s) && id !in w.tickets && Open(t.req) && v.tickets == w.tickets[id := t]
    requires Moves(w.ledger, v.ledger, t.req.subId, t.req.paid, 1)
    ensures ReservedAt(v, s)
  {
    OpenPaidAdd(w.tickets, id, t, s);
    hide Sum, LedgerInv, OpenPaid;
  }

  lemma ReservedAfterClose(w: World, v: World, id: RequestId, t: Ticket, s: SubId)
    requires ReservedAt(w, s) && id in w.tickets && v.tickets == w.tickets[id := t] && t.req.subId == w.tickets[id].req.subId
    requires w.tickets[id].req.subId == s ==> Open(w.tickets[id].req) && !Open(t.req)
    requires Moves(w.ledger, v.ledger, w.tickets[id].req.subId, 0 - w.tickets[id].req.paid, OneLess(w.ledger, w.tickets[id].req.subId))
    ensures ReservedAt(v, s)
  {
    if w.tickets[id].req.subId == s {
      OpenIsReserved(w, id);
      OpenPaidClose(w.tickets, id, t, s);
    } else {
      assert OpenPaid(v.tickets, s) == OpenPaid(w.tickets, s);
    }
    hide Sum, LedgerInv, OpenPaid;
  }

  /** An open request has its price reserved and is counted. */
  lemma OpenIsReserved(w: World, id: RequestId)
    requires id in w.tickets && Open(w.tickets[id].req) && ReservedAt(w, w.tickets[id].req.subId)
    ensures var req := w.tickets[id].req;
      req.paid <= AccountOf(w.ledger.accounts, req.subId).reserved && CountersOf(w.ledger.counters, req.subId).pending > 0
  {
    var m := OpenPaid(w.tickets, w.tickets[id].req.subId);
    assert id in m;
    SumRemove(m, id);
  }

  /** Settling an open request goes through whenever its account holds what its open requests reserve. */
  lemma SettlesIf(w: World, sender: Caller, id: RequestId)
    requires LedgerInv(w.ledger) && w.ledger.coin <= MAX96
    requires id in w.tickets && Open(w.tickets[id].req) && w.tickets[id].req.subId <= MAX64 && ReservedAt(w, w.tickets[id].req.subId)
    ensures SettleRequest(w, sender, id).Ok?
    ensures Get(SettleRequest(w, sender, id).value.ledger.withdrawable, sender)
      == Get(w.ledger.withdrawable, sender) + w.tickets[id].req.paid
  {
    var req := w.tickets[id].req;
    OpenIsReserved(w, id);
    hide LedgerInv, Settle, ReservedAt;
    SettleFits(w.ledger, req.subId, req.paid, sender);
    SettleKeeps(w.ledger, req.subId, req.paid, sender);
    hide Moves;
  }

  /** So does refunding it, once its timeout has passed. */
  lemma RefundsIf(w: World, id: RequestId)
    requires id in w.tickets && Open(w.tickets[id].req) && w.tickets[id].req.subId <= MAX64 && ReservedAt(w, w.tickets[id].req.subId)
    ensures Coordinator.Refund(w, id).Ok? <==> w.block > w.tickets[id].req.createdAtBlock + TIMEOUT_BLOCKS
    ensures Coordinator.Refund(w, id).Ok? ==> Coordinator.Refund(w, id).value.ledger.withdrawable == w.ledger.withdrawable
  {
    OpenIsReserved(w, id);
    hide Release, ReservedAt;
    ReleaseFits(w.ledger, w.tickets[id].req.subId, w.tickets[id].req.paid);
  }

  lemma ReleaseFits(l: Ledger, subId: SubId, amount: nat)
    requires subId <= MAX64 && amount <= AccountOf(l.accounts, subId).reserved
    ensures Release(l, subId, amount).Ok? && Release(l, subId, amount).value.withdrawable == l.withdrawable
  {}
}
