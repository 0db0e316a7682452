/**
 fulfillBatch against fulfillRandomWords: an accepted batch is its members fulfilled one by one.
 */
module Batch {
  import opened Common
  import opened Verifier
  import opened Sums
  import opened Accounts
  import opened Coordinator
  import opened Reentrancy
  import opened Invariants
  import opened BatchChecks
  import opened Always
  import opened Focus

  /** A batch refused by its checks changes nothing and calls nobody; one that fails while settling changes nothing. */
  lemma RefusedBatch(env: Env, w: World, c: Call, bound: nat)
    requires c.op.FulfillBatch?
    ensures var gas := Min(c.gas, bound);
      var refused := CheckBatch(env, w, gas, Ids(c.op.members), c.op.signature).Some?;
      && (refused ==> Trace(env, w, c, bound) == [])
      && (refused || ExecuteMembers(env, w, c.sender, c.op.members, gas).None? ==> Execute(env, w, c, bound) == w)
  {
    hide CheckBatch, ExecuteMembers;
  }

  /** The members as single calls in order, each with its own signature and the same callback. */
  function Singles(sender: Caller, gas: nat, members: Members, sigs: seq<Signature>): Program
    requires |sigs| == |Ids(members)|
  {
    match members
    case NoMembers => Stop
    case Member(id, callback, others) =>
      Then(Call(sender, gas, Op.FulfillRandomWords(id, sigs[0]), callback), Singles(sender, gas, others, sigs[1..]))
  }

  ghost predicate EachSigned(env: Env, w: World, ids: seq<RequestId>, sigs: seq<Signature>) {
    |sigs| == |ids| && forall k | 0 <= k < |ids| ::
      ids[k] in w.tickets && env.verifier.Verify(SeedOf(env, w, ids[k]), sigs[k])
  }

  lemma SignedLater(env: Env, u: World, v: World, ids: seq<RequestId>, sigs: seq<Signature>)
    requires ids != [] && EachSigned(env, u, ids, sigs) && AllRecorded(u, v)
    ensures EachSigned(env, v, ids[1..], sigs[1..])
  {
    hide VRFVerifier.Verify;
    forall k | 0 <= k < |ids| - 1
      ensures ids[1..][k] in v.tickets && env.verifier.Verify(SeedOf(env, v, ids[1..][k]), sigs[1..][k])
    {
      assert ids[1..][k] == ids[k + 1] && sigs[1..][k] == sigs[k + 1];
      assert Recorded(u.tickets[ids[k + 1]], v.tickets[ids[k + 1]]);
    }
  }

  /** One member's turn in the batch is one call of fulfillRandomWords. */
  lemma MemberIsCall(env: Env, w: World, sender: Caller, id: RequestId, callback: Callback, sig: Signature,
      gas: nat, bound: nat)
    requires id in w.tickets && Open(w.tickets[id].req)
    requires GasNeeded(w.tickets[id].req.callbackGasLimit) <= gas <= bound
    requires env.verifier.Verify(SeedOf(env, w, id), sig) && SettleRequest(w, sender, id).Ok?
    ensures var handed := SettleRequest(w, sender, id).value;
      var after := ExecuteAll(env, handed, callback.body, MemberLimit(handed, id, gas));
      Execute(env, w, Call(sender, gas, Op.FulfillRandomWords(id, sig), callback), bound)
        == if callback.ok then Deliver(after, id) else handed
  {
    hide VRFVerifier.Verify, SettleRequest, Deliver;
  }

  // ----- one member's turn

  /** The requests `ids` and their accounts are among those in question, and in order. */
  ghost predicate Fine(env: Env, g: Focus, w: World, ids: seq<RequestId>) {
    && Sound(env, w) && NamesOk(env, w) && Holds(env, g, w)
    && forall id | id in ids :: id in w.tickets && g.request(id) && g.account(w.tickets[id].req.subId)
  }

  lemma FineOpen(env: Env, g: Focus, w: World, ids: seq<RequestId>, id: RequestId)
    requires Fine(env, g, w, ids) && id in ids
    ensures LedgerInv(w.ledger) && w.ledger.coin <= MAX96
    ensures id in w.tickets && w.tickets[id].req.subId <= MAX64 && ReservedAt(w, w.tickets[id].req.subId)
  {
    assert IdOk(env, w.nonces, id, w.tickets[id]);
    hide LedgerInv, PricingInv, ReservedAt, TicketOk;
  }

  lemma FineRecorded(w: World, next: World, g: Focus, ids: seq<RequestId>)
    requires AllRecorded(w, next) && forall id | id in ids :: id in w.tickets && g.request(id) && g.account(w.tickets[id].req.subId)
    ensures forall id | id in ids :: id in next.tickets && g.request(id) && g.account(next.tickets[id].req.subId)
  {}

  /** The members of a batch and their accounts. */
  function Batched(w: World, ids: seq<RequestId>): Focus {
    var accounts := set id | id in ids && id in w.tickets :: w.tickets[id].req.subId;
    Focus(i => i in ids, s => s in accounts)
  }

  lemma BatchedFine(env: Env, w: World, ids: seq<RequestId>)
    requires Sound(env, w) && NamesOk(env, w) && Holds(env, Batched(w, ids), w) && forall id | id in ids :: IsOpen(w, id)
    ensures Fine(env, Batched(w, ids), w, ids)
  {
    hide Sound, NamesOk, Holds;
  }

  lemma FineTail(env: Env, g: Focus, w: World, id: RequestId, ids: seq<RequestId>)
    requires Fine(env, g, w, [id] + ids)
    ensures Fine(env, g, w, ids) && id in w.tickets && g.request(id)
  {
    hide Sound, NamesOk, Holds;
    assert id in [id] + ids;
    assert forall i | i in ids :: i in [id] + ids;
  }

  /** A member that is open settles, its callback runs, and what follows still finds its members open. */
  lemma TurnFine(env: Env, g: Focus, w: World, sender: Caller, members: Members, signature: Signature, gas: nat)
    requires members.Member? && Fine(env, g, w, Ids(members)) && OpenFor(g, TraceMembers(env, w, sender, members, signature, gas))
    ensures IsOpen(w, members.id) && SettleRequest(w, sender, members.id).Ok?
    ensures var next := AfterMember(env, w, sender, members.id, members.callback, gas);
      && Fine(env, g, next, Ids(members.others)) && AllRecorded(w, next) && next.block == w.block
      && OpenFor(g, TraceMembers(env, next, sender, members.others, signature, gas))
  {
    var id, ids := members.id, Ids(members);
    TurnSettles(env, g, w, sender, members, signature, gas);
    hide *;
    OpenAlone(env, g, w, sender, members, signature, gas);
    TurnHolds(env, g, w, sender, ids, id, members.callback, signature, gas);
    IdsAre(members);
    FineTail(env, g, AfterMember(env, w, sender, id, members.callback, gas), id, Ids(members.others));
  }

  lemma IdsAre(members: Members)
    requires members.Member?
    ensures Ids(members) == [members.id] + Ids(members.others) && members.id in Ids(members)
  {}

  lemma TurnSettles(env: Env, g: Focus, w: World, sender: Caller, members: Members, signature: Signature, gas: nat)
    requires members.Member? && Fine(env, g, w, Ids(members)) && OpenFor(g, TraceMembers(env, w, sender, members, signature, gas))
    ensures members.id in Ids(members) && IsOpen(w, members.id) && SettleRequest(w, sender, members.id).Ok?
  {
    IdsAre(members);
    hide Fine, Ids;
    FineOpen(env, g, w, Ids(members), members.id);
    FirstOpen(env, g, w, sender, members, signature, gas);
    hide TraceMembers, LedgerInv, ReservedAt;
    SettlesIf(w, sender, members.id);
  }

  lemma FirstOpen(env: Env, g: Focus, w: World, sender: Caller, members: Members, signature: Signature, gas: nat)
    requires members.Member? && g.request(members.id) && OpenFor(g, TraceMembers(env, w, sender, members, signature, gas))
    ensures IsOpen(w, members.id)
  {
    var ms := TraceMembers(env, w, sender, members, signature, gas);
    assert ms[0] == Settling(w, members.id);
    hide TraceMembers;
    assert ms[0] in ms && Concerns(g, w, members.id);
  }

  /** The trace of a batch is that of its first member alone, and then that of the others. */
  lemma OpenAlone(env: Env, g: Focus, w: World, sender: Caller, members: Members, signature: Signature, gas: nat)
    requires members.Member? && SettleRequest(w, sender, members.id).Ok? && OpenFor(g, TraceMembers(env, w, sender, members, signature, gas))
    ensures var next := AfterMember(env, w, sender, members.id, members.callback, gas);
      && OpenFor(g, TraceMembers(env, w, sender, Member(members.id, members.callback, NoMembers), signature, gas))
      && OpenFor(g, TraceMembers(env, next, sender, members.others, signature, gas))
  {
    hide *;
    var id, alone := members.id, Member(members.id, members.callback, NoMembers);
    TurnTrace(env, w, sender, members, signature, gas);
    TurnTrace(env, w, sender, alone, signature, gas);
    var next, settled := AfterMember(env, w, sender, id, members.callback, gas), SettleRequest(w, sender, id).value;
    var first := [Settling(w, id), Offered(settled, id, CarriedWords(env, settled, id, signature), false)];
    var inside := TraceAll(env, settled, members.callback.body, MemberLimit(settled, id, gas));
    var later := TraceMembers(env, next, sender, members.others, signature, gas);
    assert first + (inside + later) == (first + inside) + later;
    OpenForSplit(g, first + inside, later);
    NoneLeft(env, next, sender, signature, gas);
    assert first + (inside + []) == first + inside;
  }

  lemma NoneLeft(env: Env, w: World, sender: Caller, signature: Signature, gas: nat)
    ensures TraceMembers(env, w, sender, NoMembers, signature, gas) == [] && ExecuteMembers(env, w, sender, NoMembers, gas) == Some(w)
  {}

  lemma TurnHolds(env: Env, g: Focus, w: World, sender: Caller, ids: seq<RequestId>, id: RequestId, callback: Callback, signature: Signature,
      gas: nat)
    requires Fine(env, g, w, ids) && SettleRequest(w, sender, id).Ok?
    requires OpenFor(g, TraceMembers(env, w, sender, Member(id, callback, NoMembers), signature, gas))
    ensures var next := AfterMember(env, w, sender, id, callback, gas);
      Fine(env, g, next, ids) && AllRecorded(w, next) && next.block == w.block
  {
    var alone, next := Member(id, callback, NoMembers), AfterMember(env, w, sender, id, callback, gas);
    hide Sound, NamesOk, Holds, Follows, SettleRequest, AfterMember, TraceMembers, ExecuteMembers, AllHold, OpenFor;
    FocusMembers(env, g, w, sender, alone, signature, gas, gas);
    OneMember(env, w, sender, alone, gas);
    NoneLeft(env, next, sender, signature, gas);
    TurnLeavesShielded(env, w, sender, id, callback, gas);
    hide Recorded;
    FineRecorded(w, next, g, ids);
  }

  /** Whatever its callback does, the member has been credited to the caller once. */
  lemma SettledInTurn(env: Env, w: World, sender: Caller, id: RequestId, callback: Callback, gas: nat)
    requires Sound(env, w) && NamesOk(env, w) && IsOpen(w, id) && TicketOk(env, w.nonces, id, w.tickets[id])
    requires SettleRequest(w, sender, id).Ok?
    ensures var next := AfterMember(env, w, sender, id, callback, gas);
      && id in next.tickets && next.tickets[id].req.fulfilled
      && next.tickets[id].credited == [Credit(sender, w.tickets[id].req.paid)]
  {
    hide Sound, NamesOk, Carries;
    NotYetCredited(env, w, id);
    hide SettleRequest, ExecuteAll, TicketOk;
    var handed := SettleRequest(w, sender, id).value;
    var limit := MemberLimit(handed, id, gas);
    SettleCarries(env, w, sender, id, [id], 0);
    CarriesNames(env, w, handed, [id], 0);
    EveryProgram(env, handed, callback.body, limit);
    CreditStays(env, handed, ExecuteAll(env, handed, callback.body, limit), [], limit, id);
  }

  lemma NotYetCredited(env: Env, w: World, id: RequestId)
    requires IsOpen(w, id) && TicketOk(env, w.nonces, id, w.tickets[id])
    ensures w.tickets[id].credited == []
  {}

  // ----- members one by one

  lemma CoveredTail(w: World, next: World, id: RequestId, ids: seq<RequestId>, gas: nat)
    requires Covered(w, [id] + ids, gas) && AllRecorded(w, next)
    ensures id in w.tickets && GasNeeded(w.tickets[id].req.callbackGasLimit) <= gas && Covered(next, ids, gas)
  {
    hide GasNeeded;
    assert id in [id] + ids;
    assert forall i | i in ids :: i in [id] + ids;
  }

  lemma {:induction false} MembersAreSingles(env: Env, g: Focus, w: World, sender: Caller, members: Members, signature: Signature,
      sigs: seq<Signature>, gas: nat, bound: nat)
    requires Fine(env, g, w, Ids(members)) && gas <= bound && Covered(w, Ids(members), gas)
    requires OpenFor(g, TraceMembers(env, w, sender, members, signature, gas))
    requires EachSigned(env, w, Ids(members), sigs)
    ensures ExecuteMembers(env, w, sender, members, gas)
      == Some(ExecuteAll(env, w, Singles(sender, gas, members, sigs), bound))
    decreases members
  {
    hide Fine, Deliver, SettleRequest, OpenFor, Covered, CarriedWords, TraceMembers, VRFVerifier.Verify, AllRecorded, GasNeeded;
    match members {
      case NoMembers =>
      case Member(id, callback, others) =>
        TurnFine(env, g, w, sender, members, signature, gas);
        var next := AfterMember(env, w, sender, id, callback, gas);
        CoveredTail(w, next, id, Ids(others), gas);
        MemberIsCall(env, w, sender, id, callback, sigs[0], gas, bound);
        SignedLater(env, w, next, Ids(members), sigs);
        assert Ids(members)[1..] == Ids(others);
        MembersAreSingles(env, g, next, sender, others, signature, sigs[1..], gas, bound);
    }
  }

  /**
   An accepted batch that finds its members open at their turns leaves exactly the state that
   fulfilling them one by one, in order, with the same callbacks leaves: the same flags, the same
   ledger, the same credits to the caller.  Only its members and their accounts matter.
   */
  lemma BatchIsSingles(env: Env, w: World, c: Call, sigs: seq<Signature>, bound: nat)
    requires c.op.FulfillBatch? && Sound(env, w) && NamesOk(env, w) && Holds(env, Batched(w, Ids(c.op.members)), w)
    requires CheckBatch(env, w, Min(c.gas, bound), Ids(c.op.members), c.op.signature).None?
    requires OpenFor(Batched(w, Ids(c.op.members)), Trace(env, w, c, bound)) && EachSigned(env, w, Ids(c.op.members), sigs)
    ensures Execute(env, w, c, bound)
      == ExecuteAll(env, w, Singles(c.sender, Min(c.gas, bound), c.op.members, sigs), bound)
  {
    hide *;
    var gas, ids := Min(c.gas, bound), Ids(c.op.members);
    AcceptedFine(env, w, gas, c.op.members, c.op.signature);
    BatchExecutes(env, w, c, bound);
    OpenForSplit(Batched(w, ids), [Batching(w, ids)], TraceMembers(env, w, c.sender, c.op.members, c.op.signature, gas));
    MinBelow(c.gas, bound);
    MembersAreSingles(env, Batched(w, ids), w, c.sender, c.op.members, c.op.signature, sigs, gas, bound);
  }

  lemma MinBelow(a: nat, b: nat)
    ensures Min(a, b) <= b
  {}

  lemma AcceptedFine(env: Env, w: World, gas: nat, members: Members, signature: Signature)
    requires Sound(env, w) && NamesOk(env, w) && Holds(env, Batched(w, Ids(members)), w)
    requires CheckBatch(env, w, gas, Ids(members), signature).None?
    ensures Fine(env, Batched(w, Ids(members)), w, Ids(members)) && Covered(w, Ids(members), gas)
    ensures Ids(members) != [] && Ascending(Ids(members)) && forall id | id in Ids(members) :: IsOpen(w, id)
  {
    var ids := Ids(members);
    hide Sound, NamesOk, Holds, Batched, Ids, Fine, Covered, Ascending;
    AcceptedIds(env, w, ids);
    BatchCovered(env, w, gas, members, signature);
    BatchedFine(env, w, ids);
  }

  lemma BatchExecutes(env: Env, w: World, c: Call, bound: nat)
    requires c.op.FulfillBatch? && CheckBatch(env, w, Min(c.gas, bound), Ids(c.op.members), c.op.signature).None?
    ensures var settled := ExecuteMembers(env, w, c.sender, c.op.members, Min(c.gas, bound));
      && Execute(env, w, c, bound) == (if settled.Some? then settled.value else w)
      && Trace(env, w, c, bound) == [Batching(w, Ids(c.op.members))]
           + TraceMembers(env, w, c.sender, c.op.members, c.op.signature, Min(c.gas, bound))
  {
    hide CheckBatch, ExecuteMembers, TraceMembers;
  }

  /** Each member of an accepted batch ends up fulfilled, credited to the caller, once, at its quoted price. */
  lemma {:induction false} MembersCredited(env: Env, g: Focus, w: World, sender: Caller, members: Members, signature: Signature,
      gas: nat, id: RequestId)
    requires Fine(env, g, w, Ids(members)) && OpenFor(g, TraceMembers(env, w, sender, members, signature, gas))
    requires Ascending(Ids(members)) && id in w.tickets
    ensures ExecuteMembers(env, w, sender, members, gas).Some?
    ensures var v := ExecuteMembers(env, w, sender, members, gas).value;
      && Sound(env, w) && NamesOk(env, w) && Carries(env, w, v, Ids(members), gas) && id in v.tickets
      && (id in Ids(members) ==>
            v.tickets[id].req.fulfilled && v.tickets[id].credited == [Credit(sender, w.tickets[id].req.paid)])
    decreases members
  {
    if members.Member? {
      hide *;
      TurnFine(env, g, w, sender, members, signature, gas);
      var first, others, next := members.id, members.others, AfterMember(env, w, sender, members.id, members.callback, gas);
      OneMember(env, w, sender, members, gas);
      AscendingTail(members);
      RecordedAt(w, next, id);
      MembersCredited(env, g, next, sender, others, signature, gas, id);
      FineIs(env, g, w, members);
      SettledInTurn(env, w, sender, first, members.callback, gas);
      CarriesAll(env, w, sender, members, signature, gas);
      CreditStays(env, next, ExecuteMembers(env, w, sender, members, gas).value, Ids(others), gas, id);
    } else {
      NoneLeft(env, w, sender, signature, gas);
      FineSelf(env, g, w, gas);
    }
  }

  lemma AscendingTail(members: Members)
    requires members.Member? && Ascending(Ids(members))
    ensures Ascending(Ids(members.others)) && members.id !in Ids(members.others)
    ensures forall id :: id in Ids(members) <==> id == members.id || id in Ids(members.others)
  {
    var ids, rest := Ids(members), Ids(members.others);
    assert ids[0] == members.id && forall k | 0 <= k < |rest| :: rest[k] == ids[k + 1];
  }

  lemma RecordedAt(w: World, next: World, id: RequestId)
    requires AllRecorded(w, next) && id in w.tickets
    ensures id in next.tickets && next.tickets[id].req.paid == w.tickets[id].req.paid
  {}

  lemma FineIs(env: Env, g: Focus, w: World, members: Members)
    requires members.Member? && Fine(env, g, w, Ids(members))
    ensures Sound(env, w) && NamesOk(env, w) && members.id in w.tickets && TicketOk(env, w.nonces, members.id, w.tickets[members.id])
  {
    IdsAre(members);
    hide Sound, NamesOk, TicketOk, ReservedAt, Ids;
  }

  lemma FineSelf(env: Env, g: Focus, w: World, gas: nat)
    requires Fine(env, g, w, [])
    ensures Sound(env, w) && NamesOk(env, w) && Carries(env, w, w, [], gas)
  {
    CarriesSelf(env, w, [], gas);
    hide Sound, NamesOk, Holds, Carries;
  }

  lemma CarriesAll(env: Env, w: World, sender: Caller, members: Members, signature: Signature, gas: nat)
    requires Sound(env, w) && ExecuteMembers(env, w, sender, members, gas).Some?
    ensures Carries(env, w, ExecuteMembers(env, w, sender, members, gas).value, Ids(members), gas)
  {
    hide Sound, Carries, ExecuteMembers;
    EveryMember(env, w, sender, members, signature, gas, Ids(members), gas);
  }

  /** Those not in the rest of the batch keep how they were closed. */
  lemma CreditStays(env: Env, w: World, v: World, ids: seq<RequestId>, gas: nat, id: RequestId)
    requires Carries(env, w, v, ids, gas) && NamesOk(env, w)
    ensures id in w.tickets && id !in ids && w.tickets[id].req.fulfilled ==>
      id in v.tickets && v.tickets[id].req.fulfilled && v.tickets[id].credited == w.tickets[id].credited
    ensures id in w.tickets ==> id in v.tickets
  {
    hide Sound, NamesOk, Steady;
  }

  // ----- the caller's credit

  function SumPaid(w: World, ids: seq<RequestId>): nat {
    if ids == [] then 0
    else (if ids[0] in w.tickets then w.tickets[ids[0]].req.paid else 0) + SumPaid(w, ids[1..])
  }

  /** Callbacks that make no calls of their own. */
  predicate Quiet(members: Members) {
    match members
    case NoMembers => true
    case Member(_, callback, others) => callback.body.Stop? && Quiet(others)
  }

  /** One such member: its price is credited, and the other requests are as they were. */
  lemma QuietTurn(env: Env, g: Focus, w: World, sender: Caller, ids: seq<RequestId>, id: RequestId, callback: Callback, gas: nat)
    requires Fine(env, g, w, ids) && id in ids && callback.body.Stop? && IsOpen(w, id)
    ensures SettleRequest(w, sender, id).Ok?
    ensures var v := AfterMember(env, w, sender, id, callback, gas);
      && Fine(env, g, v, ids)
      && Get(v.ledger.withdrawable, sender) == Get(w.ledger.withdrawable, sender) + w.tickets[id].req.paid
      && v.tickets.Keys == w.tickets.Keys && (forall i | i in w.tickets && i != id :: v.tickets[i] == w.tickets[i])
  {
    FineOpen(env, g, w, ids, id);
    hide Fine, LedgerInv, ReservedAt, SettleRequest, AfterMember, OpenFor, TraceMembers;
    SettlesIf(w, sender, id);
    QuietOpen(env, g, w, sender, id, callback, gas);
    TurnHolds(env, g, w, sender, ids, id, callback, Signature(0, 0, 0), gas);
    QuietShape(env, w, sender, id, callback, gas);
  }

  lemma QuietOpen(env: Env, g: Focus, w: World, sender: Caller, id: RequestId, callback: Callback, gas: nat)
    requires callback.body.Stop? && IsOpen(w, id) && SettleRequest(w, sender, id).Ok?
    ensures OpenFor(g, TraceMembers(env, w, sender, Member(id, callback, NoMembers), Signature(0, 0, 0), gas))
  {
    var handed := SettleRequest(w, sender, id).value;
    var limit := MemberLimit(handed, id, gas);
    TurnTrace(env, w, sender, Member(id, callback, NoMembers), Signature(0, 0, 0), gas);
    assert TraceAll(env, handed, Stop, limit) == [Control(handed)];
    NoneLeft(env, AfterMember(env, w, sender, id, callback, gas), sender, Signature(0, 0, 0), gas);
    hide TraceMembers, TraceAll, SettleRequest, AfterMember, CarriedWords;
  }

  lemma QuietShape(env: Env, w: World, sender: Caller, id: RequestId, callback: Callback, gas: nat)
    requires callback.body.Stop? && id in w.tickets && SettleRequest(w, sender, id).Ok?
    ensures var v := AfterMember(env, w, sender, id, callback, gas);
      && v.ledger == SettleRequest(w, sender, id).value.ledger
      && v.tickets.Keys == w.tickets.Keys && (forall i | i in w.tickets && i != id :: v.tickets[i] == w.tickets[i])
  {
    hide Settle;
    var handed := SettleRequest(w, sender, id).value;
    assert ExecuteAll(env, handed, Stop, MemberLimit(handed, id, gas)) == handed;
  }

  ghost predicate AllOpen(w: World, ids: seq<RequestId>) {
    forall id | id in ids :: id in w.tickets && Open(w.tickets[id].req)
  }

  lemma OthersUntouched(w: World, v: World, ids: seq<RequestId>)
    requires ids != [] && Ascending(ids) && AllOpen(w, ids) && v.tickets.Keys == w.tickets.Keys
    requires forall i | i in w.tickets && i != ids[0] :: v.tickets[i] == w.tickets[i]
    ensures ids[0] in w.tickets && Open(w.tickets[ids[0]].req)
    ensures Ascending(ids[1..]) && AllOpen(v, ids[1..]) && SumPaid(v, ids[1..]) == SumPaid(w, ids[1..])
  {
    var rest := ids[1..];
    assert ids[0] in ids;
    forall i | i in rest ensures i in w.tickets && i in v.tickets && v.tickets[i] == w.tickets[i] && i in ids {
      var k :| 0 <= k < |rest| && rest[k] == i;
      assert ids[0] < ids[k + 1] == i;
    }
    SamePaid(w, v, rest);
  }

  /** With callbacks that make no calls, an accepted batch credits its caller the sum of the quoted prices. */
  lemma {:induction false} BatchPays(env: Env, g: Focus, w: World, sender: Caller, members: Members, gas: nat)
    requires Fine(env, g, w, Ids(members)) && Quiet(members) && Ascending(Ids(members)) && AllOpen(w, Ids(members))
    ensures ExecuteMembers(env, w, sender, members, gas).Some?
    ensures Get(ExecuteMembers(env, w, sender, members, gas).value.ledger.withdrawable, sender)
      == Get(w.ledger.withdrawable, sender) + SumPaid(w, Ids(members))
    decreases members
  {
    match members {
      case NoMembers =>
      case Member(id, callback, others) =>
        var ids := Ids(members);
        assert ids[0] == id && ids[1..] == Ids(others) && ids == [id] + Ids(others) && id in ids;
        assert SumPaid(w, ids) == w.tickets[id].req.paid + SumPaid(w, ids[1..]);
        assert IsOpen(w, id);
        hide Fine, SettleRequest, Deliver, Ascending, ExecuteMembers, SumPaid, AfterMember, Quiet;
        QuietTurn(env, g, w, sender, ids, id, callback, gas);
        var next := AfterMember(env, w, sender, id, callback, gas);
        OneMember(env, w, sender, members, gas);
        OthersUntouched(w, next, ids);
        FineTail(env, g, next, id, Ids(others));
        assert Quiet(others) by { QuietTail(members); }
        BatchPays(env, g, next, sender, others, gas);
    }
  }

  lemma QuietTail(members: Members)
    requires members.Member? && Quiet(members)
    ensures members.callback.body.Stop? && Quiet(members.others)
  {}

  lemma {:induction false} SamePaid(w: World, v: World, ids: seq<RequestId>)
    requires forall id | id in ids :: id in w.tickets && id in v.tickets && v.tickets[id] == w.tickets[id]
    ensures SumPaid(w, ids) == SumPaid(v, ids)
  {
    if ids != [] {
      assert ids[0] in ids;
      SamePaid(w, v, ids[1..]);
    }
  }

  /** What these credits pay one payee. */
  function PaidTo(credits: seq<Credit>, payee: Address): nat {
    if credits == [] then 0
    else (if credits[0].payee == payee then credits[0].amount else 0) + PaidTo(credits[1..], payee)
  }

  function AllPaidTo(w: World, ids: seq<RequestId>, payee: Address): nat {
    if ids == [] then 0
    else (if ids[0] in w.tickets then PaidTo(w.tickets[ids[0]].credited, payee) else 0) + AllPaidTo(w, ids[1..], payee)
  }

  lemma {:induction false} CreditsAddUp(w: World, v: World, ids: seq<RequestId>, payee: Address)
    requires forall id | id in ids :: id in w.tickets && id in v.tickets && v.tickets[id].credited == [Credit(payee, w.tickets[id].req.paid)]
    ensures AllPaidTo(v, ids, payee) == SumPaid(w, ids)
  {
    if ids != [] {
      var id := ids[0];
      assert id in ids && forall i | i in ids[1..] :: i in ids;
      var credit := Credit(payee, w.tickets[id].req.paid);
      assert [credit][1..] == [];
      assert PaidTo([credit], payee) == credit.amount;
      CreditsAddUp(w, v, ids[1..], payee);
    }
  }

  lemma KnownAll(w: World, ids: seq<RequestId>)
    requires forall id | id in ids :: IsOpen(w, id)
    ensures forall id | id in ids :: id in w.tickets
  {}

  /** Whatever the callbacks do, what an accepted batch's members credit to its caller is the sum of their prices. */
  lemma BatchCredits(env: Env, w: World, sender: Caller, members: Members, signature: Signature, gas: nat)
    requires Sound(env, w) && NamesOk(env, w) && Holds(env, Batched(w, Ids(members)), w)
    requires CheckBatch(env, w, gas, Ids(members), signature).None?
    requires OpenFor(Batched(w, Ids(members)), TraceMembers(env, w, sender, members, signature, gas))
    ensures ExecuteMembers(env, w, sender, members, gas).Some?
    ensures AllPaidTo(ExecuteMembers(env, w, sender, members, gas).value, Ids(members), sender) == SumPaid(w, Ids(members))
  {
    var ids := Ids(members);
    hide *;
    AcceptedFine(env, w, gas, members, signature);
    KnownAll(w, ids);
    forall id | id in ids
      ensures ExecuteMembers(env, w, sender, members, gas).Some?
      ensures var v := ExecuteMembers(env, w, sender, members, gas).value;
        id in w.tickets && id in v.tickets && v.tickets[id].credited == [Credit(sender, w.tickets[id].req.paid)]
    {
      MembersCredited(env, Batched(w, ids), w, sender, members, signature, gas, id);
    }
    assert ids[0] in ids;
    CreditsAddUp(w, ExecuteMembers(env, w, sender, members, gas).value, ids, sender);
  }
}
