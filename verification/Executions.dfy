/**
 Every request and every account at once, in executions whose batches find their members open: the
 invariant of both contracts, step by step and at every moment foreign code is in control.
 */
module Executions {
  import opened Sums
  import opened Accounts
  import opened Coordinator
  import opened Reentrancy
  import opened Invariants
  import opened Always
  import opened Focus

  /** Each batch member is open when the batch comes to settle it. */
  ghost predicate MembersOpen(ms: seq<Moment>) { OpenFor(OnAll(), ms) }

  lemma InvIs(env: Env, w: World)
    ensures Inv(env, w) <==> Sound(env, w) && Holds(env, OnAll(), w)
  {
    hide Sound, TicketOk, ReservedAt;
  }

  lemma EvolvesIs(w: World, v: World, bound: nat)
    ensures Evolves(w, v, bound) <==> Steady(w, v) && Follows(OnAll(), w, v, bound)
  {
    hide Steady, Progress, Sealed;
  }

  lemma InvNames(env: Env, w: World)
    requires Premises(env) && Inv(env, w)
    ensures Sound(env, w) && NamesOk(env, w)
  {
    assert forall id | id in w.tickets :: TicketOk(env, w.nonces, id, w.tickets[id]);
    hide Sound;
  }

  // ----- steps about one request

  /** Settling an open request never fails, and keeps everything. */
  lemma SettleRequestKeeps(env: Env, w: World, sender: Caller, id: RequestId, bound: nat)
    requires Inv(env, w) && id in w.tickets && Open(w.tickets[id].req)
    ensures SettleRequest(w, sender, id).Ok?
    ensures var v := SettleRequest(w, sender, id).value;
      && Inv(env, v) && Evolves(w, v, bound)
      && id in v.tickets && v.tickets[id].req == w.tickets[id].req.(fulfilled := true)
      && v.tickets[id].credited == [Credit(sender, w.tickets[id].req.paid)]
      && v.tickets[id].delivered == 0 && !v.tickets[id].req.callbackSucceeded
      && Get(v.ledger.withdrawable, sender) == Get(w.ledger.withdrawable, sender) + w.tickets[id].req.paid
  {
    OpenSettles(env, w, sender, id);
    var v := SettleRequest(w, sender, id).value;
    hide Inv, Evolves, Sound, Holds, Follows, SettleRequest, NamesOk, LedgerEvolves, PricingEvolves;
    InvIs(env, w);
    SettleHolds(env, OnAll(), w, sender, id, bound);
    SettleCarries(env, w, sender, id, [id], bound);
    hide Steady;
    InvIs(env, v);
    EvolvesIs(w, v, bound);
  }

  lemma OpenSettles(env: Env, w: World, sender: Caller, id: RequestId)
    requires Inv(env, w) && id in w.tickets && Open(w.tickets[id].req)
    ensures SettleRequest(w, sender, id).Ok?
    ensures Get(SettleRequest(w, sender, id).value.ledger.withdrawable, sender)
      == Get(w.ledger.withdrawable, sender) + w.tickets[id].req.paid
  {
    var req := w.tickets[id].req;
    assert ReservedAt(w, req.subId);
    assert TicketOk(env, w.nonces, id, w.tickets[id]);
    hide ReservedInv, TicketsInv, LedgerInv, PricingInv;
    SettlesIf(w, sender, id);
  }

  /** Refunding an open request after the timeout never fails, and keeps everything. */
  lemma RefundKeeps(env: Env, w: World, id: RequestId, bound: nat)
    requires Inv(env, w) && id in w.tickets && Open(w.tickets[id].req)
    requires w.block > w.tickets[id].req.createdAtBlock + TIMEOUT_BLOCKS
    ensures Coordinator.Refund(w, id).Ok?
    ensures var v := Coordinator.Refund(w, id).value;
      && Inv(env, v) && Evolves(w, v, bound) && v.tickets[id].req == w.tickets[id].req.(refunded := true)
      && v.ledger.withdrawable == w.ledger.withdrawable
  {
    assert ReservedAt(w, w.tickets[id].req.subId);
    assert TicketOk(env, w.nonces, id, w.tickets[id]);
    hide Inv, Evolves, Sound, Holds, Follows, NamesOk, LedgerEvolves, PricingEvolves, ReservedAt;
    RefundsIf(w, id);
    var v := Coordinator.Refund(w, id).value;
    InvIs(env, w);
    RefundHolds(env, OnAll(), w, id, bound);
    RefundCarries(env, w, id, bound);
    hide Steady, Coordinator.Refund;
    InvIs(env, v);
    EvolvesIs(w, v, bound);
  }

  // ----- executions

  /** At every moment all invariants hold, and the state has come about from `w`. */
  ghost predicate AllOk(env: Env, w: World, ms: seq<Moment>, bound: nat) {
    forall m | m in ms :: Inv(env, m.world) && Evolves(w, m.world, bound)
  }

  lemma AllOkIs(env: Env, w: World, ms: seq<Moment>, bound: nat)
    requires AllSound(env, w, ms) && AllHold(env, OnAll(), w, ms, bound)
    ensures AllOk(env, w, ms, bound)
  {
    hide Inv, Evolves, Sound, Steady, Holds, Follows, NamesOk, WordsFit, OfferOk;
    forall m | m in ms ensures Inv(env, m.world) && Evolves(w, m.world, bound) {
      assert MomentSound(env, w, m) && MomentHolds(env, OnAll(), w, m, bound);
      InvIs(env, m.world);
      EvolvesIs(w, m.world, bound);
    }
  }

  lemma InvAfter(env: Env, w: World, v: World, ids: seq<RequestId>, bound: nat)
    requires Carries(env, w, v, ids, bound) && Holds(env, OnAll(), v) && Follows(OnAll(), w, v, bound)
    ensures Inv(env, v) && Evolves(w, v, bound)
  {
    hide Sound, Steady, Holds, Follows, NamesOk, Inv, Evolves;
    InvIs(env, v);
    EvolvesIs(w, v, bound);
  }

  /** One call with any tree of calls below it. */
  lemma OneCall(env: Env, w: World, c: Call, bound: nat)
    requires Premises(env) && Inv(env, w) && MembersOpen(Trace(env, w, c, bound))
    ensures Inv(env, Execute(env, w, c, bound)) && Evolves(w, Execute(env, w, c, bound), bound)
    ensures AllOk(env, w, Trace(env, w, c, bound), bound)
  {
    hide Inv, Evolves, Sound, NamesOk, Holds, Follows, Carries, AllSound, AllHold, Execute, Trace, OpenFor;
    InvNames(env, w);
    InvIs(env, w);
    EveryCall(env, w, c, bound);
    FocusCall(env, OnAll(), w, c, bound);
    InvAfter(env, w, Execute(env, w, c, bound), [], bound);
    AllOkIs(env, w, Trace(env, w, c, bound), bound);
  }

  /** Any program of calls. */
  lemma AllCalls(env: Env, w: World, p: Program, bound: nat)
    requires Premises(env) && Inv(env, w) && MembersOpen(TraceAll(env, w, p, bound))
    ensures Inv(env, ExecuteAll(env, w, p, bound)) && Evolves(w, ExecuteAll(env, w, p, bound), bound)
    ensures AllOk(env, w, TraceAll(env, w, p, bound), bound)
  {
    hide Inv, Evolves, Sound, NamesOk, Holds, Follows, Carries, AllSound, AllHold, ExecuteAll, TraceAll, OpenFor;
    InvNames(env, w);
    InvIs(env, w);
    EveryProgram(env, w, p, bound);
    FocusProgram(env, OnAll(), w, p, bound);
    InvAfter(env, w, ExecuteAll(env, w, p, bound), [], bound);
    AllOkIs(env, w, TraceAll(env, w, p, bound), bound);
  }

  // ----- what a trace holds

  /** The moments of a program include its beginning and its end. */
  lemma {:induction false} BeginningAndEnd(env: Env, w: World, p: Program, bound: nat)
    ensures Control(w) in TraceAll(env, w, p, bound) && Control(ExecuteAll(env, w, p, bound)) in TraceAll(env, w, p, bound)
    decreases p
  {
    hide Trace, Execute;
    if p.Then? { BeginningAndEnd(env, Execute(env, w, p.call, bound), p.rest, bound); }
  }

  /** Whatever a call hands over to runs in full view, and a consumer called back is handed its words. */
  lemma HandOverIsThere(env: Env, w: World, c: Call, bound: nat)
    requires Enter(env, w, c.sender, Min(c.gas, bound), c.op).HandsOver?
    ensures var e := Enter(env, w, c.sender, Min(c.gas, bound), c.op);
      && (forall m | m in TraceAll(env, e.world, c.callback.body, e.limit) :: m in Trace(env, w, c, bound))
      && (c.op.FulfillRandomWords? || c.op.RetryCallback? ==>
            Offered(e.world, c.op.id, CarriedWords(env, e.world, c.op.id, c.op.signature), true) in Trace(env, w, c, bound))
  {
    hide Enter, TraceAll, CarriedWords;
  }

  // ----- executions without fulfillBatch

  predicate Batchless(p: Program) {
    match p
    case Stop => true
    case Then(c, rest) => !c.op.FulfillBatch? && Batchless(c.callback.body) && Batchless(rest)
  }

  /** Without fulfillBatch no member is ever settled from a batch, so every such premise holds. */
  lemma {:induction false} BatchlessIsOpen(env: Env, f: Focus, w: World, p: Program, bound: nat)
    requires Batchless(p)
    ensures OpenFor(f, TraceAll(env, w, p, bound))
    decreases p
  {
    hide Enter, Execute, CarriedWords, Concerns, IsOpen;
    match p {
      case Stop =>
      case Then(c, rest) =>
        var e := Enter(env, w, c.sender, Min(c.gas, bound), c.op);
        BatchlessIsOpen(env, f, Execute(env, w, c, bound), rest, bound);
        if e.HandsOver? {
          BatchlessIsOpen(env, f, e.world, c.callback.body, e.limit);
        }
        assert OpenFor(f, Trace(env, w, c, bound));
    }
  }
}
