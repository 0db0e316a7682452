/**
 The whole service: any number of nodes that share one group key, each with its own run, and the
 coordinator that checks what they publish.
 */
module Group {
  import opened Common
  import opened ModArith
  import opened Polynomial
  import opened Blsvrf
  import opened Verifier
  import Memory
  import Session
  import Publishing
  import PublishOnce
  import Progress
  import Accounts
  import Coordinator
  import Reentrancy
  import Invariants
  import Promises
  import Always

  type Node = Publishing.Setup
  type History = seq<Publishing.Event>

  /** Two nodes of one group: the same curve, commitments, threshold and seed formula. */
  ghost predicate SameGroup(a: Node, b: Node) {
    a.suite == b.suite && a.commits == b.commits && a.threshold == b.threshold && a.derive == b.derive
  }

  function GroupKey(d: Node): int { AtZero(d.commits) % d.suite.r }

  ghost function Calls(d: Node, h: History): seq<Publishing.Sent> { Publishing.Run(d, h).shared.sent }

  /** The consumer for which the session behind a call was opened. */
  ghost function ConsumerOf(d: Node, h: History, j: nat): nat
    requires PublishOnce.Deployed(d) && j < |Calls(d, h)|
  {
    PublishOnce.RunKeeps(d, h);
    var s := Publishing.Run(d, h).shared;
    assert PublishOnce.CallOk(d, s.heap, s.sent[j]);
    s.heap[s.sent[j].cell].consumer
  }

  /** The seed a call's signature is for. */
  ghost function SeedOf(d: Node, h: History, j: nat): Seed
    requires PublishOnce.Deployed(d) && j < |Calls(d, h)|
  {
    d.derive(Calls(d, h)[j].id, ConsumerOf(d, h, j))
  }

  lemma CallSigns(d: Node, h: History, j: nat)
    requires PublishOnce.Deployed(d) && j < |Calls(d, h)|
    ensures Calls(d, h)[j].signature == d.suite.Sign(AtZero(d.commits), SeedOf(d, h, j))
  {
    PublishOnce.RunKeeps(d, h);
    var s := Publishing.Run(d, h).shared;
    assert PublishOnce.CallOk(d, s.heap, s.sent[j]);
    assert PublishOnce.CellOk(d, s.heap[s.sent[j].cell]);
    hide Publishing.Run, PublishOnce.SharedOk;
  }

  /**
   Whatever reached each of two nodes of a group, in whatever order and whatever was forged, all
   that they offer to the chain for one seed is the very same signature.
   */
  lemma GroupAgrees(a: Node, h: History, i: nat, b: Node, k: History, j: nat)
    requires SameGroup(a, b) && PublishOnce.Deployed(a) && PublishOnce.Deployed(b)
    requires i < |Calls(a, h)| && j < |Calls(b, k)|
    ensures SeedOf(a, h, i) == SeedOf(b, k, j) ==> Calls(a, h)[i].signature == Calls(b, k)[j].signature
  {
    CallSigns(a, h, i);
    CallSigns(b, k, j);
    hide Calls, SeedOf;
  }

  lemma SameKeySigns(suite: Suite, secret: int, seed: Seed)
    ensures suite.Sign(secret % suite.r, seed) == suite.Sign(secret, seed)
  {
    var h := suite.HashSeedToPoint(seed);
    CongSelf(suite.r, secret);
    CongSame(suite.r, h);
    CongMul(suite.r, secret % suite.r, secret, h, h);
  }

  /** The verifier with the group's key accepts what a node offers, and for that seed nothing else. */
  lemma VerifierAcceptsNode(d: Node, h: History, j: nat, v: VRFVerifier, other: Signature)
    requires PublishOnce.Deployed(d) && j < |Calls(d, h)|
    requires v == VRFVerifier(d.suite, GroupKey(d)) && v.suite.Canonical()
    ensures var s := Calls(d, h)[j].signature;
            v.Verify(SeedOf(d, h, j), other) <==> s != 0 && other == v.Encode(s)
  {
    CallSigns(d, h, j);
    SameKeySigns(d.suite, AtZero(d.commits), SeedOf(d, h, j));
    v.VerifyAccepts(SeedOf(d, h, j), other);
    hide Calls, SeedOf, VRFVerifier.Verify;
  }

  // ----- from the announcement to the chain

  /** A handler's request, while it has no session yet. */
  function RequestOf(pc: Publishing.Pc): Option<Publishing.Request> {
    match pc
    case Announced(req) => Some(req)
    case AskingSettled(req) => Some(req)
    case OpeningSession(req) => Some(req)
    case _ => None
  }

  /** Every announcement of `id` names this consumer. */
  ghost predicate Announces(h: History, id: Memory.Key, consumer: nat) {
    forall k | 0 <= k < |h| :: h[k].Announce? && h[k].req.id == id ==> h[k].req.consumer == consumer
  }

  ghost predicate Named(m: Publishing.Machine, id: Memory.Key, consumer: nat) {
    && (forall i | 0 <= i < |m.shared.heap| :: m.shared.heap[i].id == id ==> m.shared.heap[i].consumer == consumer)
    && (forall t | 0 <= t < |m.threads| ::
          RequestOf(m.threads[t]).Some? && RequestOf(m.threads[t]).value.id == id ==>
            RequestOf(m.threads[t]).value.consumer == consumer)
  }

  /** A step hands on the request a thread already had, and opens sessions for that request only. */
  lemma RequestHandedOn(d: Node, s: Publishing.Shared, pc: Publishing.Pc, c: Publishing.Choice)
    ensures var (pc', e) := Publishing.Next(d, s, pc, c);
            && (RequestOf(pc').Some? ==> RequestOf(pc') == RequestOf(pc))
            && (e.OpenSession? ==> RequestOf(pc).Some? && e.id == RequestOf(pc).value.id
                                   && e.consumer == RequestOf(pc).value.consumer)
  {
    hide Publishing.Filing, Publishing.ReadyCell, Memory.PublishRank, Memory.HeldFor;
  }

  lemma StepNames(d: Node, m: Publishing.Machine, ev: Publishing.Event, id: Memory.Key, consumer: nat)
    requires Named(m, id, consumer) && Announces([ev], id, consumer)
    ensures Named(Publishing.Step(d, m, ev), id, consumer)
  {
    assert [ev][0] == ev;
    if ev.Advance? && ev.thread < |m.threads| {
      RequestHandedOn(d, m.shared, m.threads[ev.thread], ev.c);
    }
    hide Publishing.Next, Session.Add, Memory.Take, Memory.Park, Memory.Settle;
  }

  lemma {:induction false} RunNames(d: Node, h: History, id: Memory.Key, consumer: nat)
    requires Announces(h, id, consumer)
    ensures Named(Publishing.Run(d, h), id, consumer)
    decreases |h|
  {
    if h != [] {
      var n := |h| - 1;
      RunNames(d, h[..n], id, consumer);
      StepNames(d, Publishing.Run(d, h[..n]), h[n], id, consumer);
      hide Named, Publishing.Step;
    }
  }

  /** The coordinator checks against this group's key and derives seeds as its nodes do. */
  ghost predicate Serves(d: Node, env: Coordinator.Env) {
    && env.verifier == VRFVerifier(d.suite, GroupKey(d))
    && forall id: Coordinator.RequestId, consumer: Accounts.Address :: d.derive(id, consumer) == env.seedHash(id, consumer)
  }

  /** The request is open and in order, and its account holds what its open requests have reserved. */
  ghost predicate Fit(env: Coordinator.Env, w: Coordinator.World, id: Coordinator.RequestId) {
    && Invariants.Sound(env, w) && Always.NamesOk(env, w)
    && id in w.tickets && Coordinator.Open(w.tickets[id].req) && Invariants.TicketOk(env, w.nonces, id, w.tickets[id])
    && Invariants.ReservedAt(w, w.tickets[id].req.subId)
  }

  lemma FitIs(env: Coordinator.Env, w: Coordinator.World, id: Coordinator.RequestId)
    requires Fit(env, w, id)
    ensures Invariants.Sound(env, w) && Always.NamesOk(env, w)
    ensures Accounts.LedgerInv(w.ledger) && w.ledger.coin <= Accounts.MAX96 && w.tickets[id].req.subId <= Accounts.MAX64
    ensures w.tickets[id].credited == [] && w.tickets[id].released == []
  {
    hide Accounts.LedgerInv, Invariants.PricingInv, Invariants.ReservedAt;
  }

  /**
   From a node to the money: what any node of the group offers for a request it heard announced
   with its true consumer is, as long as the request is open and the gas suffices, accepted by the
   coordinator; and the coordinator takes no other signature for it.
   */
  lemma NodeFulfils(d: Node, h: History, j: nat, env: Coordinator.Env, w: Coordinator.World,
                                      sender: Accounts.Caller, gas: nat, other: Signature)
    requires PublishOnce.Deployed(d) && j < |Calls(d, h)| && Calls(d, h)[j].id in w.tickets
    requires Serves(d, env) && env.verifier.suite.Canonical() && Fit(env, w, Calls(d, h)[j].id)
    requires Announces(h, Calls(d, h)[j].id, w.tickets[Calls(d, h)[j].id].req.consumer)
    ensures var call := Calls(d, h)[j];
            var enough := gas >= Coordinator.GasNeeded(w.tickets[call.id].req.callbackGasLimit);
            var outcome := Reentrancy.Enter(env, w, sender, gas, Reentrancy.Op.FulfillRandomWords(call.id, other));
            outcome.HandsOver? <==> (enough && call.signature != 0 && other == env.verifier.Encode(call.signature))
  {
    var id: nat := Calls(d, h)[j].id;
    var consumer := w.tickets[id].req.consumer;
    RunNames(d, h, id, consumer);
    PublishOnce.RunKeeps(d, h);
    assert PublishOnce.CallOk(d, Publishing.Run(d, h).shared.heap, Calls(d, h)[j]);
    assert ConsumerOf(d, h, j) == consumer;
    assert SeedOf(d, h, j) == Coordinator.SeedOf(env, w, id);
    hide *;
    FitIs(env, w, id);
    Promises.FulfillNeverReverts(env, w, sender, gas, id, other);
    VerifierAcceptsNode(d, h, j, env.verifier, other);
  }

  /**
   ... and what it brings about: whatever the consumer's callback then does, the request ends up
   fulfilled and whoever published is credited its price, once; and no publication of it, by this or
   any other node, takes effect again in any later run.
   */
  lemma NodeIsPaid(d: Node, h: History, j: nat, env: Coordinator.Env, w: Coordinator.World,
                                     c: Reentrancy.Call, bound: nat, rest: Reentrancy.Program, gas: nat,
                                     txs: seq<Reentrancy.Transaction>, again: Reentrancy.Call)
    requires PublishOnce.Deployed(d) && j < |Calls(d, h)| && Calls(d, h)[j].id in w.tickets
    requires Serves(d, env) && env.verifier.suite.Canonical() && Fit(env, w, Calls(d, h)[j].id)
    requires Announces(h, Calls(d, h)[j].id, w.tickets[Calls(d, h)[j].id].req.consumer)
    requires Calls(d, h)[j].signature != 0
    requires c.op == Reentrancy.Op.FulfillRandomWords(Calls(d, h)[j].id, env.verifier.Encode(Calls(d, h)[j].signature))
    requires Coordinator.Min(c.gas, bound) >= Coordinator.GasNeeded(w.tickets[Calls(d, h)[j].id].req.callbackGasLimit)
    requires Promises.BlocksFit(w.block, txs) && again.op.FulfillRandomWords? && again.op.id == c.op.id
    ensures var v, id := Reentrancy.Execute(env, w, c, bound), c.op.id;
      && id in v.tickets && v.tickets[id].req.fulfilled && v.tickets[id].released == []
      && v.tickets[id].credited == [Coordinator.Credit(c.sender, w.tickets[id].req.paid)]
    ensures var v := Reentrancy.Run(env, Reentrancy.ExecuteAll(env, Reentrancy.Execute(env, w, c, bound), rest, gas), txs);
      Reentrancy.Execute(env, v, again, again.gas) == v
  {
    hide *;
    var id: nat := c.op.id;
    NodeFulfils(d, h, j, env, w, c.sender, Coordinator.Min(c.gas, bound), c.op.signature);
    FitIs(env, w, id);
    Promises.FulfilHolds(env, w, c, bound);
    Promises.FulfilledOnce(env, w, c, bound, rest, gas, txs, again);
  }

  /**
   From the shares to the money: once the handlers of a node have ended, with nobody else settling the
   request and nothing cancelled, a session with enough shares has produced the very call that the
   coordinator accepts, as long as the request is open and the gas suffices.
   */
  lemma ReadyNodeFulfils(d: Node, h: History, cell: nat, env: Coordinator.Env, w: Coordinator.World,
      sender: Accounts.Caller, gas: nat) returns (j: nat)
    requires PublishOnce.Deployed(d) && d.threshold >= 1
    requires var m := Publishing.Run(d, h); Progress.Quiet(m.threads) && Publishing.ReadyCell(d, m.shared, cell)
    requires var id := Publishing.Run(d, h).shared.heap[cell].id;
      && Progress.Favourable(h, id) && id in w.tickets && Fit(env, w, id)
      && Announces(h, id, w.tickets[id].req.consumer) && gas >= Coordinator.GasNeeded(w.tickets[id].req.callbackGasLimit)
    requires Serves(d, env) && env.verifier.suite.Canonical()
    ensures j < |Calls(d, h)| && Calls(d, h)[j].id == Publishing.Run(d, h).shared.heap[cell].id && Calls(d, h)[j].id >= 0
    ensures var call := Calls(d, h)[j];
      var op := Reentrancy.Op.FulfillRandomWords(call.id, env.verifier.Encode(call.signature));
      Reentrancy.Enter(env, w, sender, gas, op).HandsOver? <==> call.signature != 0
  {
    hide *;
    j := OfferAt(d, h, cell);
    NodeFulfils(d, h, j, env, w, sender, gas, env.verifier.Encode(Calls(d, h)[j].signature));
  }

  lemma OfferAt(d: Node, h: History, cell: nat) returns (j: nat)
    requires PublishOnce.Deployed(d) && d.threshold >= 1
    requires var m := Publishing.Run(d, h); Progress.Quiet(m.threads) && Publishing.ReadyCell(d, m.shared, cell)
    requires Progress.Favourable(h, Publishing.Run(d, h).shared.heap[cell].id)
    ensures j < |Calls(d, h)| && Calls(d, h)[j].id == Publishing.Run(d, h).shared.heap[cell].id
  {
    Progress.ReadyIsOffered(d, h, cell);
    var s := Publishing.Run(d, h).shared;
    hide Publishing.Run, Publishing.ReadyCell, Progress.Favourable, PublishOnce.Refers;
    var k :| 0 <= k < |s.sent| && Progress.SignedFor(d, s, s.sent[k], s.heap[cell].id);
    j := k;
  }
}
