/**
 When a batch's members are still open as their turns come.

 fulfillBatch reads every member's flags before it settles the first, and a callback may in between
 refund or fulfil a later member.  Whether any callback can is told by the batch alone, before the
 call: by the gas limits of its members and the age of the later ones.  All of it is said of any
 requests and accounts in question; what a batch does to others does not matter to them.
 */
module Guard {
  import opened Common
  import opened Verifier
  import opened Sums
  import opened Accounts
  import opened Coordinator
  import opened Reentrancy
  import opened Invariants
  import opened BatchChecks
  import opened Always
  import opened Focus
  import opened Executions
  import opened Batch
  import opened Promises

  // ----- the guard

  /** The earlier member's callback has too little gas to fulfil the later one, which is too young to refund. */
  predicate PairGuarded(block: nat, earlier: Request, later: Request) {
    earlier.callbackGasLimit < GasNeeded(later.callbackGasLimit) && block <= later.createdAtBlock + TIMEOUT_BLOCKS
  }

  /** Each member in question is guarded against every earlier one. */
  ghost predicate Guarded(f: Focus, w: World, ids: seq<RequestId>) {
    forall i, j | 0 <= i < j < |ids| :: ids[i] in w.tickets && ids[j] in w.tickets && Concerns(f, w, ids[j]) ==>
      PairGuarded(w.block, w.tickets[ids[i]].req, w.tickets[ids[j]].req)
  }

  /** Each member in question is open when the batch comes to settle it. */
  predicate TurnsOpen(f: Focus, env: Env, w: World, sender: Caller, members: Members, gas: nat)
    decreases members
  {
    match members
    case NoMembers => true
    case Member(id, callback, others) =>
      && (Concerns(f, w, id) ==> IsOpen(w, id))
      && (SettleRequest(w, sender, id).Ok? ==>
            TurnsOpen(f, env, AfterMember(env, w, sender, id, callback, gas), sender, others, gas))
  }

  // ----- it suffices

  /** All are known, and those in question are open. */
  ghost predicate OpenOn(f: Focus, w: World, ids: seq<RequestId>) {
    forall k | 0 <= k < |ids| :: ids[k] in w.tickets && (Concerns(f, w, ids[k]) ==> IsOpen(w, ids[k]))
  }

  lemma {:induction false} GuardKeepsOpen(f: Focus, env: Env, w: World, sender: Caller, members: Members, gas: nat)
    requires Sound(env, w) && NamesOk(env, w)
    requires Ascending(Ids(members)) && OpenOn(f, w, Ids(members)) && Guarded(f, w, Ids(members))
    ensures TurnsOpen(f, env, w, sender, members, gas)
    decreases members
  {
    if members.Member? {
      var id, others, ids := members.id, members.others, Ids(members);
      assert ids[0] == id && ids[1..] == Ids(others);
      if SettleRequest(w, sender, id).Ok? {
        var next := AfterMember(env, w, sender, id, members.callback, gas);
        hide Sound, NamesOk, AfterMember, SettleRequest;
        TurnLeavesShielded(env, w, sender, id, members.callback, gas);
        GuardPasses(f, w, next, ids);
        GuardKeepsOpen(f, env, next, sender, others, gas);
      }
    }
  }

  lemma GuardPasses(f: Focus, w: World, next: World, ids: seq<RequestId>)
    requires ids != [] && Ascending(ids) && OpenOn(f, w, ids) && Guarded(f, w, ids) && next.block == w.block
    requires AllRecorded(w, next)
    requires forall j | j in w.tickets && j != ids[0] && Shielded(w.tickets[j], w.block, w.tickets[ids[0]].req.callbackGasLimit) ::
      j in next.tickets && next.tickets[j] == w.tickets[j]
    ensures Ascending(ids[1..]) && OpenOn(f, next, ids[1..]) && Guarded(f, next, ids[1..])
  {
    var rest := ids[1..];
    forall k | 0 <= k < |rest|
      ensures rest[k] in w.tickets && rest[k] in next.tickets && Recorded(w.tickets[rest[k]], next.tickets[rest[k]])
      ensures Concerns(f, w, rest[k]) ==> IsOpen(next, rest[k])
    {
      assert rest[k] == ids[k + 1] && ids[0] < ids[k + 1];
      assert Concerns(f, w, ids[k + 1]) ==> PairGuarded(w.block, w.tickets[ids[0]].req, w.tickets[ids[k + 1]].req);
    }
    forall i, j | 0 <= i < j < |rest| && Concerns(f, next, rest[j])
      ensures PairGuarded(next.block, next.tickets[rest[i]].req, next.tickets[rest[j]].req)
    {
      assert rest[i] == ids[i + 1] && rest[j] == ids[j + 1];
      assert PairGuarded(w.block, w.tickets[ids[i + 1]].req, w.tickets[ids[j + 1]].req);
    }
    assert forall i, j | 0 <= i < j < |rest| :: rest[i] == ids[i + 1] && rest[j] == ids[j + 1];
  }

  // ----- it is necessary

  /** A program that closes request j with `limit` gas, if anything can. */
  function Closer(env: Env, w: World, j: RequestId, limit: nat): Program
    requires j in w.tickets
  {
    var signature := env.verifier.Encode(env.verifier.suite.Sign(env.verifier.pk, SeedOf(env, w, j)));
    var op := if w.block > w.tickets[j].req.createdAtBlock + TIMEOUT_BLOCKS then Op.Refund(j) else Op.FulfillRandomWords(j, signature);
    Then(Call(1, limit, op, Callback(Stop, true)), Stop)
  }

  /** These members, the i-th with `body` as its callback, the others with callbacks that make no calls. */
  function OneCalling(ids: seq<RequestId>, i: int, body: Program): (members: Members)
    ensures Ids(members) == ids
    ensures i < 0 ==> Quiet(members)
    decreases |ids|
  {
    if ids == [] then NoMembers
    else Member(ids[0], Callback(if i == 0 then body else Stop, true), OneCalling(ids[1..], i - 1, body))
  }

  lemma OneCallOnly(env: Env, w: World, c: Call, bound: nat)
    ensures ExecuteAll(env, w, Then(c, Stop), bound) == Execute(env, w, c, bound)
  {
    hide Execute;
    assert ExecuteAll(env, Execute(env, w, c, bound), Stop, bound) == Execute(env, w, c, bound);
  }

  lemma RefundCloses(w: World, c: Call, env: Env, j: RequestId, bound: nat)
    requires c.op == Op.Refund(j) && j in w.tickets && Open(w.tickets[j].req) && w.block > w.tickets[j].req.createdAtBlock + TIMEOUT_BLOCKS
    requires w.tickets[j].req.subId <= MAX64 && ReservedAt(w, w.tickets[j].req.subId)
    ensures Coordinator.Refund(w, j).Ok? && Execute(env, w, c, bound) == Coordinator.Refund(w, j).value
    ensures var v := Execute(env, w, c, bound);
      && v.tickets == w.tickets[j := v.tickets[j]] && v.tickets[j].req == w.tickets[j].req.(refunded := true)
  {
    RefundsIf(w, j);
    hide ReservedAt, Release;
    assert Enter(env, w, c.sender, Min(c.gas, bound), c.op) == Finished(Coordinator.Refund(w, j).value);
    hide Enter;
  }

  lemma FulfilCloses(env: Env, w: World, c: Call, j: RequestId, limit: nat)
    requires LedgerInv(w.ledger) && w.ledger.coin <= MAX96 && j in w.tickets && Open(w.tickets[j].req)
    requires w.tickets[j].req.subId <= MAX64 && ReservedAt(w, w.tickets[j].req.subId)
    requires c.op.FulfillRandomWords? && c.op.id == j && c.gas == limit && c.callback == Callback(Stop, true)
    requires limit >= GasNeeded(w.tickets[j].req.callbackGasLimit) && env.verifier.Verify(SeedOf(env, w, j), c.op.signature)
    ensures var v := Execute(env, w, c, limit);
      && j in v.tickets && v.tickets == w.tickets[j := v.tickets[j]] && v.tickets[j].req.fulfilled
  {
    hide LedgerInv, Enter, Execute, VRFVerifier.Verify, ReservedAt, SettleRequest;
    FulfillNeverReverts(env, w, c.sender, limit, j, c.op.signature);
    FulfilIs(env, w, c.sender, limit, c.op);
    HandsOverIs(env, w, c, limit);
    SettleOnly(w, c.sender, j);
    var handed := SettleRequest(w, c.sender, j).value;
    assert ExecuteAll(env, handed, Stop, Min(w.tickets[j].req.callbackGasLimit, limit)) == handed;
  }

  lemma SettleOnly(w: World, sender: Caller, id: RequestId)
    ensures SettleRequest(w, sender, id).Ok? ==>
      var v := SettleRequest(w, sender, id).value;
      id in w.tickets && id in v.tickets && v.tickets == w.tickets[id := v.tickets[id]] && v.tickets[id].req.fulfilled && v.block == w.block
  {
    hide Settle;
  }

  /** The program closes j and touches no other request. */
  lemma CloserCloses(env: Env, w: World, u: World, j: RequestId, limit: nat)
    requires Premises(env) && LedgerInv(u.ledger) && u.ledger.coin <= MAX96
    requires j in w.tickets && j in u.tickets && u.tickets[j] == w.tickets[j] && u.block == w.block
    requires w.tickets[j].req.subId <= MAX64 && ReservedAt(u, w.tickets[j].req.subId) && Open(w.tickets[j].req)
    requires Closable(env, w, j, limit)
    ensures var v := ExecuteAll(env, u, Closer(env, w, j, limit), limit);
      && j in v.tickets && v.tickets == u.tickets[j := v.tickets[j]] && !Open(v.tickets[j].req)
      && v.tickets[j].req.subId == u.tickets[j].req.subId && v.tickets[j].req.callbackGasLimit == u.tickets[j].req.callbackGasLimit
  {
    var c := Closer(env, w, j, limit).call;
    OneCallOnly(env, u, c, limit);
    hide LedgerInv, ReservedAt, Execute, ExecuteAll, VRFVerifier.Verify;
    if w.block > w.tickets[j].req.createdAtBlock + TIMEOUT_BLOCKS {
      RefundCloses(u, c, env, j, limit);
    } else {
      OwnSignature(env, u, j);
      FulfilCloses(env, u, c, j, limit);
      FulfilKeepsFields(env, u, c, j, limit);
    }
  }

  lemma FulfilKeepsFields(env: Env, w: World, c: Call, j: RequestId, limit: nat)
    requires c.op.FulfillRandomWords? && c.op.id == j && c.callback == Callback(Stop, true) && j in w.tickets
    ensures var v := Execute(env, w, c, limit);
      j in v.tickets && v.tickets[j].req == w.tickets[j].req.(fulfilled := v.tickets[j].req.fulfilled, callbackSucceeded := v.tickets[j].req.callbackSucceeded)
  {
    var e := Enter(env, w, c.sender, Min(c.gas, limit), c.op);
    hide VRFVerifier.Verify, Settle;
    if e.HandsOver? {
      HandsOverIs(env, w, c, limit);
      assert ExecuteAll(env, e.world, Stop, e.limit) == e.world;
    }
  }

  /** By age, or with that much gas and a seed that does not hash to infinity. */
  predicate Closable(env: Env, w: World, j: RequestId, limit: nat) {
    j in w.tickets &&
    (w.block > w.tickets[j].req.createdAtBlock + TIMEOUT_BLOCKS ||
      (limit >= GasNeeded(w.tickets[j].req.callbackGasLimit) && env.verifier.suite.HashSeedToPoint(SeedOf(env, w, j)) != 0))
  }

  /** Unless a seed hashes to infinity, the request's own signature is accepted. */
  lemma OwnSignature(env: Env, w: World, j: RequestId)
    requires Premises(env) && j in w.tickets && env.verifier.suite.HashSeedToPoint(SeedOf(env, w, j)) != 0
    ensures env.verifier.Verify(SeedOf(env, w, j), env.verifier.Encode(env.verifier.suite.Sign(env.verifier.pk, SeedOf(env, w, j))))
  {
    var v, seed := env.verifier, SeedOf(env, w, j);
    v.VerifyAccepts(seed, v.Encode(v.suite.Sign(v.pk, seed)));
    v.SignedNonzero(seed);
  }

  /** The turn of an open member whose callback calls no batch. */
  lemma FineTurn(env: Env, g: Focus, w: World, sender: Caller, ids: seq<RequestId>, id: RequestId, body: Program, signature: Signature, gas: nat)
    requires Fine(env, g, w, ids) && id in ids && IsOpen(w, id) && Batchless(body)
    requires GasNeeded(w.tickets[id].req.callbackGasLimit) <= gas
    ensures SettleRequest(w, sender, id).Ok?
    ensures var handed := SettleRequest(w, sender, id).value;
      var after := ExecuteAll(env, handed, body, w.tickets[id].req.callbackGasLimit);
      var next := AfterMember(env, w, sender, id, Callback(body, true), gas);
      && Fine(env, g, handed, ids) && Fine(env, g, next, ids) && handed.block == w.block && next.block == w.block && next == Deliver(after, id)
      && handed.tickets == w.tickets[id := handed.tickets[id]] && handed.tickets[id].req == w.tickets[id].req.(fulfilled := true)
  {
    FineOpen(env, g, w, ids, id);
    hide Fine, LedgerInv, ReservedAt, SettleRequest, AfterMember, ExecuteAll, Batchless;
    SettlesIf(w, sender, id);
    TurnShape(env, w, sender, id, body, gas);
    FineSettled(env, g, w, sender, ids, id);
    FineNext(env, g, w, sender, ids, id, body, signature, gas);
  }

  lemma TurnShape(env: Env, w: World, sender: Caller, id: RequestId, body: Program, gas: nat)
    requires SettleRequest(w, sender, id).Ok? && w.tickets[id].req.callbackGasLimit <= gas
    ensures var handed := SettleRequest(w, sender, id).value;
      && AfterMember(env, w, sender, id, Callback(body, true), gas)
           == Deliver(ExecuteAll(env, handed, body, w.tickets[id].req.callbackGasLimit), id)
      && handed.tickets == w.tickets[id := handed.tickets[id]] && handed.tickets[id].req == w.tickets[id].req.(fulfilled := true)
  {
    SettleOnly(w, sender, id);
    SettleFlags(w, sender, id);
    hide SettleRequest, Deliver, ExecuteAll;
  }

  lemma FineSettled(env: Env, g: Focus, w: World, sender: Caller, ids: seq<RequestId>, id: RequestId)
    requires Fine(env, g, w, ids) && IsOpen(w, id) && SettleRequest(w, sender, id).Ok?
    ensures Fine(env, g, SettleRequest(w, sender, id).value, ids) && SettleRequest(w, sender, id).value.block == w.block
  {
    hide Sound, NamesOk, Holds, Follows, SettleRequest;
    SettleHolds(env, g, w, sender, id, 0);
    SettleCarries(env, w, sender, id, [id], 0);
  }

  lemma FineNext(env: Env, g: Focus, w: World, sender: Caller, ids: seq<RequestId>, id: RequestId, body: Program, signature: Signature, gas: nat)
    requires Fine(env, g, w, ids) && IsOpen(w, id) && Batchless(body) && SettleRequest(w, sender, id).Ok?
    ensures var next := AfterMember(env, w, sender, id, Callback(body, true), gas);
      Fine(env, g, next, ids) && next.block == w.block
  {
    hide *;
    AloneOpen(env, g, w, sender, Member(id, Callback(body, true), NoMembers), signature, gas);
    TurnHolds(env, g, w, sender, ids, id, Callback(body, true), signature, gas);
  }

  lemma AloneOpen(env: Env, g: Focus, w: World, sender: Caller, alone: Members, signature: Signature, gas: nat)
    requires alone.Member? && alone.others.NoMembers? && IsOpen(w, alone.id) && Batchless(alone.callback.body)
    requires SettleRequest(w, sender, alone.id).Ok?
    ensures OpenFor(g, TraceMembers(env, w, sender, alone, signature, gas))
  {
    var handed := SettleRequest(w, sender, alone.id).value;
    var limit := MemberLimit(handed, alone.id, gas);
    var inside := TraceAll(env, handed, alone.callback.body, limit);
    TurnTrace(env, w, sender, alone, signature, gas);
    NoneLeft(env, AfterMember(env, w, sender, alone.id, alone.callback, gas), sender, signature, gas);
    BatchlessIsOpen(env, g, handed, alone.callback.body, limit);
    hide Concerns, IsOpen, SettleRequest, TraceAll, AfterMember, TraceMembers, CarriedWords;
    assert inside + [] == inside;
  }

  lemma CloserIsBatchless(env: Env, w: World, j: RequestId, limit: nat)
    requires j in w.tickets
    ensures Batchless(Closer(env, w, j, limit))
  {}

  lemma DeliverOther(w: World, id: RequestId, j: RequestId)
    requires j != id
    ensures j in Deliver(w, id).tickets <==> j in w.tickets
    ensures j in w.tickets ==> Deliver(w, id).tickets[j] == w.tickets[j]
    ensures Deliver(w, id).ledger == w.ledger && Deliver(w, id).block == w.block
  {}

  /** One member's turn with a callback that makes no calls changes that member alone. */
  lemma QuietTurnOf(env: Env, g: Focus, u: World, sender: Caller, ids: seq<RequestId>, signature: Signature, gas: nat)
    requires ids != [] && Fine(env, g, u, ids) && Covered(u, ids, gas) && IsOpen(u, ids[0])
    ensures SettleRequest(u, sender, ids[0]).Ok?
    ensures var next := AfterMember(env, u, sender, ids[0], Callback(Stop, true), gas);
      && Fine(env, g, next, ids) && next.block == u.block
      && ids[0] in next.tickets && next.tickets == u.tickets[ids[0] := next.tickets[ids[0]]]
      && next.tickets[ids[0]].req.callbackGasLimit == u.tickets[ids[0]].req.callbackGasLimit
  {
    hide *;
    FirstCovered(u, ids, gas);
    StopIs(env, SettleRequest(u, sender, ids[0]), u.tickets[ids[0]].req.callbackGasLimit);
    FineTurn(env, g, u, sender, ids, ids[0], Stop, signature, gas);
    DeliverOnly(SettleRequest(u, sender, ids[0]).value, ids[0]);
  }

  lemma FirstCovered(w: World, ids: seq<RequestId>, gas: nat)
    requires ids != [] && Covered(w, ids, gas)
    ensures ids[0] in w.tickets && GasNeeded(w.tickets[ids[0]].req.callbackGasLimit) <= gas && Batchless(Stop)
  {
    assert ids[0] in ids;
  }

  lemma StopIs(env: Env, settled: Result<World, Error>, limit: nat)
    ensures settled.Ok? ==> ExecuteAll(env, settled.value, Stop, limit) == settled.value
  {}

  /** Request ids[j] is closed, the others are open, and the callbacks to come make no calls. */
  ghost predicate Found(env: Env, f: Focus, g: Focus, u: World, ids: seq<RequestId>, j: nat, gas: nat) {
    && j < |ids| && Fine(env, g, u, ids) && Ascending(ids) && Covered(u, ids, gas)
    && Concerns(f, u, ids[j]) && !IsOpen(u, ids[j])
    && forall k | 0 <= k < |ids| && k != j :: IsOpen(u, ids[k])
  }

  lemma TailIs(ids: seq<RequestId>)
    requires ids != [] && Ascending(ids)
    ensures Ascending(ids[1..])
    ensures forall k | 0 <= k < |ids| - 1 :: ids[1..][k] == ids[k + 1] != ids[0]
    ensures forall id | id in ids[1..] :: id in ids && id != ids[0]
  {
    var rest := ids[1..];
    assert forall k | 0 <= k < |rest| :: rest[k] == ids[k + 1] && ids[0] < rest[k];
    forall id | id in rest ensures id in ids && id != ids[0] {
      var k :| 0 <= k < |rest| && rest[k] == id;
      assert ids[k + 1] == id;
    }
  }

  lemma FirstDiffers(ids: seq<RequestId>, j: nat)
    requires Ascending(ids) && 0 < j < |ids|
    ensures ids[0] in ids && ids[j] in ids && ids[0] < ids[j]
  {}

  lemma OthersDiffer(ids: seq<RequestId>, j: nat)
    requires Ascending(ids) && j < |ids|
    ensures forall k | 0 <= k < |ids| && k != j :: ids[k] != ids[j]
  {}

  lemma TailFine(env: Env, g: Focus, w: World, ids: seq<RequestId>)
    requires ids != [] && Ascending(ids) && Fine(env, g, w, ids)
    ensures Fine(env, g, w, ids[1..])
  {
    TailIs(ids);
    hide Sound, NamesOk, Holds, Ascending;
  }

  lemma TailCovered(w: World, next: World, ids: seq<RequestId>, gas: nat)
    requires ids != [] && Ascending(ids) && Covered(w, ids, gas)
    requires forall id | id in ids[1..] :: id in w.tickets ==>
      id in next.tickets && next.tickets[id].req.callbackGasLimit == w.tickets[id].req.callbackGasLimit
    ensures Covered(next, ids[1..], gas)
  {
    TailIs(ids);
    hide Ascending, GasNeeded;
  }

  lemma FoundLater(env: Env, f: Focus, g: Focus, u: World, next: World, ids: seq<RequestId>, j: nat, gas: nat)
    requires Found(env, f, g, u, ids, j, gas) && j > 0 && Fine(env, g, next, ids)
    requires ids[0] in next.tickets && next.tickets == u.tickets[ids[0] := next.tickets[ids[0]]]
    ensures Found(env, f, g, next, ids[1..], j - 1, gas)
  {
    hide Fine, GasNeeded, Covered, Ascending;
    TailIs(ids);
    TailFine(env, g, next, ids);
    assert forall id | id in ids[1..] :: id in ids && id != ids[0];
    TailCovered(u, next, ids, gas);
  }

  lemma {:induction false} QuietFinds(f: Focus, env: Env, g: Focus, u: World, sender: Caller, ids: seq<RequestId>, body: Program, i: int,
      signature: Signature, gas: nat, j: nat)
    requires Found(env, f, g, u, ids, j, gas) && i < 0
    ensures !TurnsOpen(f, env, u, sender, OneCalling(ids, i, body), gas)
    decreases |ids|
  {
    hide *;
    FoundIs(env, f, g, u, ids, j, gas);
    if j == 0 {
      OneCallingIs(ids, i, body);
      ClosedTurn(f, env, u, sender, OneCalling(ids, i, body), gas);
    } else {
      QuietTurnOf(env, g, u, sender, ids, signature, gas);
      var next := AfterMember(env, u, sender, ids[0], Callback(Stop, true), gas);
      FoundLater(env, f, g, u, next, ids, j, gas);
      QuietFinds(f, env, g, next, sender, ids[1..], body, i - 1, signature, gas, j - 1);
      OneCallingStep(f, env, u, sender, ids, i, body, gas, next);
    }
  }

  lemma FoundIs(env: Env, f: Focus, g: Focus, u: World, ids: seq<RequestId>, j: nat, gas: nat)
    requires Found(env, f, g, u, ids, j, gas)
    ensures ids != [] && Fine(env, g, u, ids) && Covered(u, ids, gas)
    ensures if j == 0 then Concerns(f, u, ids[0]) && !IsOpen(u, ids[0]) else IsOpen(u, ids[0])
  {
    hide Fine, Covered, Ascending, Concerns, IsOpen;
  }

  lemma ClosedTurn(f: Focus, env: Env, u: World, sender: Caller, members: Members, gas: nat)
    requires members.Member? && Concerns(f, u, members.id) && !IsOpen(u, members.id)
    ensures !TurnsOpen(f, env, u, sender, members, gas)
  {}

  lemma OneCallingIs(ids: seq<RequestId>, i: int, body: Program)
    requires ids != []
    ensures OneCalling(ids, i, body) == Member(ids[0], Callback(if i == 0 then body else Stop, true), OneCalling(ids[1..], i - 1, body))
  {}

  lemma OneCallingStep(f: Focus, env: Env, u: World, sender: Caller, ids: seq<RequestId>, i: int, body: Program, gas: nat, next: World)
    requires ids != [] && SettleRequest(u, sender, ids[0]).Ok?
    requires next == AfterMember(env, u, sender, ids[0], Callback(if i == 0 then body else Stop, true), gas)
    requires !TurnsOpen(f, env, next, sender, OneCalling(ids[1..], i - 1, body), gas)
    ensures !TurnsOpen(f, env, u, sender, OneCalling(ids, i, body), gas)
  {
    OneCallingIs(ids, i, body);
    hide AfterMember, SettleRequest, OneCalling, Concerns, IsOpen;
  }

  /** Member j is in question and member i's callback can close it; in u, reached from w, nobody has been. */
  ghost predicate BadPair(env: Env, f: Focus, g: Focus, w: World, u: World, ids: seq<RequestId>, i: nat, j: nat, gas: nat) {
    && i < j < |ids| && Fine(env, g, u, ids) && Ascending(ids) && Covered(u, ids, gas) && u.block == w.block
    && (forall k | 0 <= k < |ids| :: IsOpen(u, ids[k]) && ids[k] in w.tickets && u.tickets[ids[k]] == w.tickets[ids[k]])
    && Concerns(f, w, ids[j]) && Closable(env, w, ids[j], w.tickets[ids[i]].req.callbackGasLimit)
  }

  /** Member i's callback closes member j. */
  ghost predicate Closes(env: Env, w: World, ids: seq<RequestId>, i: nat, j: nat, body: Program) {
    && i < |ids| && j < |ids| && ids[i] in w.tickets && ids[j] in w.tickets
    && body == Closer(env, w, ids[j], w.tickets[ids[i]].req.callbackGasLimit)
  }

  lemma ClosesLater(env: Env, w: World, ids: seq<RequestId>, i: nat, j: nat, body: Program)
    requires Closes(env, w, ids, i, j, body) && 0 < i && 0 < j
    ensures Closes(env, w, ids[1..], i - 1, j - 1, body)
  {
    hide Closer;
    assert ids[1..][i - 1] == ids[i] && ids[1..][j - 1] == ids[j];
  }

  lemma BadPairIs(env: Env, f: Focus, g: Focus, w: World, u: World, ids: seq<RequestId>, i: nat, j: nat, gas: nat)
    requires BadPair(env, f, g, w, u, ids, i, j, gas)
    ensures i < j < |ids| && Fine(env, g, u, ids) && Covered(u, ids, gas) && Ascending(ids) && u.block == w.block
    ensures IsOpen(u, ids[0]) && IsOpen(u, ids[j]) && ids[0] in w.tickets && ids[j] in w.tickets
    ensures u.tickets[ids[0]] == w.tickets[ids[0]] && u.tickets[ids[j]] == w.tickets[ids[j]]
  {
    hide Fine, Covered, Ascending, Closable;
  }

  lemma BadPairLater(env: Env, f: Focus, g: Focus, w: World, u: World, next: World, ids: seq<RequestId>, i: nat, j: nat, gas: nat)
    requires BadPair(env, f, g, w, u, ids, i, j, gas) && i > 0 && Fine(env, g, next, ids) && next.block == u.block
    requires ids[0] in next.tickets && next.tickets == u.tickets[ids[0] := next.tickets[ids[0]]]
    ensures BadPair(env, f, g, w, next, ids[1..], i - 1, j - 1, gas)
  {
    hide Fine, GasNeeded, Covered, Ascending, Closable;
    TailIs(ids);
    TailFine(env, g, next, ids);
    TailCovered(u, next, ids, gas);
  }

  lemma {:induction false} BadPairFails(env: Env, f: Focus, g: Focus, w: World, u: World, sender: Caller, ids: seq<RequestId>, i: nat, j: nat,
      body: Program, signature: Signature, gas: nat)
    requires Premises(env) && BadPair(env, f, g, w, u, ids, i, j, gas) && Closes(env, w, ids, i, j, body)
    ensures !TurnsOpen(f, env, u, sender, OneCalling(ids, i, body), gas)
    decreases i
  {
    hide *;
    BadPairIs(env, f, g, w, u, ids, i, j, gas);
    if i == 0 {
      var next := ClosingTurn(env, f, g, w, u, sender, ids, j, body, signature, gas);
      QuietFinds(f, env, g, next, sender, ids[1..], body, -1, signature, gas, j - 1);
      OneCallingStep(f, env, u, sender, ids, i, body, gas, next);
    } else {
      QuietTurnOf(env, g, u, sender, ids, signature, gas);
      var next := AfterMember(env, u, sender, ids[0], Callback(Stop, true), gas);
      BadPairLater(env, f, g, w, u, next, ids, i, j, gas);
      ClosesLater(env, w, ids, i, j, body);
      BadPairFails(env, f, g, w, next, sender, ids[1..], i - 1, j - 1, body, signature, gas);
      OneCallingStep(f, env, u, sender, ids, i, body, gas, next);
    }
  }

  /** The turn of the member whose callback closes ids[j]. */
  lemma ClosingTurn(env: Env, f: Focus, g: Focus, w: World, u: World, sender: Caller, ids: seq<RequestId>, j: nat, body: Program,
      signature: Signature, gas: nat) returns (next: World)
    requires Premises(env) && BadPair(env, f, g, w, u, ids, 0, j, gas) && Closes(env, w, ids, 0, j, body)
    ensures 0 < j < |ids| && SettleRequest(u, sender, ids[0]).Ok?
    ensures next == AfterMember(env, u, sender, ids[0], Callback(body, true), gas) && Found(env, f, g, next, ids[1..], j - 1, gas)
  {
    hide *;
    BadPairIs(env, f, g, w, u, ids, 0, j, gas);
    ClosingBody(env, f, g, w, u, ids, j, body, gas);
    CloserIsBatchless(env, w, ids[j], w.tickets[ids[0]].req.callbackGasLimit);
    FineTurn(env, g, u, sender, ids, ids[0], body, signature, gas);
    next := AfterMember(env, u, sender, ids[0], Callback(body, true), gas);
    OpenIs(u, ids[0]);
    OpenIs(u, ids[j]);
    ClosingEffect(env, g, w, u, sender, ids, j, body, gas);
    FoundFirst(env, f, g, w, u, next, ids, j, gas);
  }

  lemma ClosingBody(env: Env, f: Focus, g: Focus, w: World, u: World, ids: seq<RequestId>, j: nat, body: Program, gas: nat)
    requires BadPair(env, f, g, w, u, ids, 0, j, gas) && Closes(env, w, ids, 0, j, body)
    ensures ids[0] in w.tickets && ids[j] in w.tickets && body == Closer(env, w, ids[j], w.tickets[ids[0]].req.callbackGasLimit)
    ensures Closable(env, w, ids[j], w.tickets[ids[0]].req.callbackGasLimit) && ids[0] in ids && ids[j] in ids && ids[0] != ids[j]
    ensures GasNeeded(u.tickets[ids[0]].req.callbackGasLimit) <= gas
  {
    hide Fine, Closer, GasNeeded, Closable, Ascending;
    FirstDiffers(ids, j);
  }

  /** What is left of the turn, request by request. */
  lemma ClosingEffect(env: Env, g: Focus, w: World, u: World, sender: Caller, ids: seq<RequestId>, j: nat, body: Program, gas: nat)
    requires Premises(env) && 0 < j < |ids| && ids[0] != ids[j] && ids[0] in u.tickets && ids[j] in w.tickets && ids[j] in u.tickets
    requires u.tickets[ids[j]] == w.tickets[ids[j]] && u.block == w.block && IsOpen(u, ids[j]) && SettleRequest(u, sender, ids[0]).Ok?
    requires var limit := u.tickets[ids[0]].req.callbackGasLimit; body == Closer(env, w, ids[j], limit) && Closable(env, w, ids[j], limit)
    requires var handed := SettleRequest(u, sender, ids[0]).value;
      && handed.tickets == u.tickets[ids[0] := handed.tickets[ids[0]]] && handed.block == u.block
      && ids[j] in ids && Fine(env, g, handed, ids)
    ensures var after := ExecuteAll(env, SettleRequest(u, sender, ids[0]).value, body, u.tickets[ids[0]].req.callbackGasLimit);
      Closed(u, Deliver(after, ids[0]), ids[0], ids[j])
  {
    hide *;
    var handed, limit := SettleRequest(u, sender, ids[0]).value, u.tickets[ids[0]].req.callbackGasLimit;
    FineOpen(env, g, handed, ids, ids[j]);
    OpenIs(u, ids[j]);
    CloserCloses(env, w, handed, ids[j], limit);
    ClosedFrom(u, handed, ExecuteAll(env, handed, body, limit), ids[0], ids[j]);
  }

  lemma OpenIs(w: World, id: RequestId)
    requires IsOpen(w, id)
    ensures id in w.tickets && Open(w.tickets[id].req)
  {}

  lemma ClosedFrom(u: World, handed: World, after: World, first: RequestId, j: RequestId)
    requires first in u.tickets && first in handed.tickets && j in u.tickets && j in after.tickets && first != j
    requires handed.tickets == u.tickets[first := handed.tickets[first]] && after.tickets == handed.tickets[j := after.tickets[j]]
    requires !Open(after.tickets[j].req) && after.tickets[j].req.subId == u.tickets[j].req.subId
    requires after.tickets[j].req.callbackGasLimit == u.tickets[j].req.callbackGasLimit
    ensures Closed(u, Deliver(after, first), first, j)
  {
    DeliverOnly(after, first);
    hide Deliver;
  }

  /** Request j got closed, first may have changed, and no other did. */
  ghost predicate Closed(u: World, v: World, first: RequestId, j: RequestId) {
    && v.tickets.Keys == u.tickets.Keys && (forall k | k in u.tickets && k != first && k != j :: v.tickets[k] == u.tickets[k])
    && j in v.tickets && !Open(v.tickets[j].req) && v.tickets[j].req.subId == u.tickets[j].req.subId
    && v.tickets[j].req.callbackGasLimit == u.tickets[j].req.callbackGasLimit
  }

  lemma DeliverOnly(w: World, id: RequestId)
    requires id in w.tickets
    ensures var v := Deliver(w, id);
      && id in v.tickets && v.tickets == w.tickets[id := v.tickets[id]]
      && v.tickets[id].req == w.tickets[id].req.(callbackSucceeded := true)
  {}

  lemma FoundFirst(env: Env, f: Focus, g: Focus, w: World, u: World, next: World, ids: seq<RequestId>, j: nat, gas: nat)
    requires BadPair(env, f, g, w, u, ids, 0, j, gas) && Fine(env, g, next, ids) && Closed(u, next, ids[0], ids[j])
    ensures Found(env, f, g, next, ids[1..], j - 1, gas)
  {
    hide Fine, GasNeeded, Covered, Ascending, Closable;
    TailIs(ids);
    TailFine(env, g, next, ids);
    OthersDiffer(ids, j);
    TailCovered(u, next, ids, gas);
  }

  /** Whatever the callbacks of these members do, those in question are open at their turns. */
  ghost predicate OpenWhatever(f: Focus, env: Env, w: World, sender: Caller, ids: seq<RequestId>, gas: nat) {
    forall members | Ids(members) == ids :: TurnsOpen(f, env, w, sender, members, gas)
  }

  /** No member in question is kept from being fulfilled only by a seed that hashes to infinity. */
  ghost predicate SeedsFinite(f: Focus, env: Env, w: World, ids: seq<RequestId>) {
    forall i, j | 0 <= i < j < |ids| && ids[i] in w.tickets && ids[j] in w.tickets && Concerns(f, w, ids[j]) ::
      w.tickets[ids[i]].req.callbackGasLimit >= GasNeeded(w.tickets[ids[j]].req.callbackGasLimit) ==>
        env.verifier.suite.HashSeedToPoint(SeedOf(env, w, ids[j])) != 0
  }

  /**
   An accepted batch finds each member in question open when its turn comes, whatever its callbacks do,
   if and only if each of them passes the guard against every earlier member.
   */
  lemma GuardIff(f: Focus, env: Env, w: World, sender: Caller, gas: nat, ids: seq<RequestId>, signature: Signature)
    requires Premises(env) && Sound(env, w) && NamesOk(env, w) && Holds(env, Batched(w, ids), w)
    requires CheckBatch(env, w, gas, ids, signature).None? && SeedsFinite(f, env, w, ids)
    ensures Guarded(f, w, ids) <==> OpenWhatever(f, env, w, sender, ids, gas)
  {
    AcceptedIds(env, w, ids);
    GasCovers(env, w, ids, gas);
    AcceptedOpen(f, w, ids);
    if Guarded(f, w, ids) {
      hide *;
      forall members | Ids(members) == ids ensures TurnsOpen(f, env, w, sender, members, gas) {
        GuardKeepsOpen(f, env, w, sender, members, gas);
      }
      AllTurns(f, env, w, sender, ids, gas);
    } else {
      hide *;
      BatchedFine(env, w, ids);
      var i, j := FindBadPair(env, f, w, ids, gas);
      var body := BadPairCloser(env, f, w, ids, i, j, gas);
      BadPairFails(env, f, Batched(w, ids), w, w, sender, ids, i, j, body, signature, gas);
      SomeTurn(f, env, w, sender, ids, gas, OneCalling(ids, i, body));
    }
  }

  lemma AcceptedOpen(f: Focus, w: World, ids: seq<RequestId>)
    requires forall id | id in ids :: IsOpen(w, id)
    ensures OpenOn(f, w, ids)
  {
    hide Concerns;
    assert forall k | 0 <= k < |ids| :: ids[k] in ids;
  }

  lemma AllTurns(f: Focus, env: Env, w: World, sender: Caller, ids: seq<RequestId>, gas: nat)
    requires forall members | Ids(members) == ids :: TurnsOpen(f, env, w, sender, members, gas)
    ensures OpenWhatever(f, env, w, sender, ids, gas)
  {
    hide TurnsOpen, Ids;
  }

  lemma SomeTurn(f: Focus, env: Env, w: World, sender: Caller, ids: seq<RequestId>, gas: nat, members: Members)
    requires Ids(members) == ids && !TurnsOpen(f, env, w, sender, members, gas)
    ensures !OpenWhatever(f, env, w, sender, ids, gas)
  {
    hide TurnsOpen, Ids;
  }

  lemma FindBadPair(env: Env, f: Focus, w: World, ids: seq<RequestId>, gas: nat) returns (i: nat, j: nat)
    requires !Guarded(f, w, ids) && SeedsFinite(f, env, w, ids) && Ascending(ids) && Covered(w, ids, gas)
    requires Fine(env, Batched(w, ids), w, ids) && forall id | id in ids :: IsOpen(w, id)
    ensures BadPair(env, f, Batched(w, ids), w, w, ids, i, j, gas)
  {
    hide *;
    i, j := UnguardedPair(f, w, ids);
    AcceptedAll(w, ids);
    UnguardedClosable(f, env, w, ids, i, j);
    MakeBadPair(env, f, Batched(w, ids), w, ids, i, j, gas);
  }

  lemma MakeBadPair(env: Env, f: Focus, g: Focus, w: World, ids: seq<RequestId>, i: nat, j: nat, gas: nat)
    requires i < j < |ids| && Fine(env, g, w, ids) && Ascending(ids) && Covered(w, ids, gas)
    requires forall k | 0 <= k < |ids| :: IsOpen(w, ids[k]) && ids[k] in w.tickets
    requires Concerns(f, w, ids[j]) && Closable(env, w, ids[j], w.tickets[ids[i]].req.callbackGasLimit)
    ensures BadPair(env, f, g, w, w, ids, i, j, gas)
  {
    hide Fine, Ascending, Covered, Concerns, IsOpen, Closable;
  }

  lemma UnguardedPair(f: Focus, w: World, ids: seq<RequestId>) returns (i: nat, j: nat)
    requires !Guarded(f, w, ids)
    ensures i < j < |ids| && ids[i] in w.tickets && ids[j] in w.tickets && Concerns(f, w, ids[j])
    ensures !PairGuarded(w.block, w.tickets[ids[i]].req, w.tickets[ids[j]].req)
  {
    hide PairGuarded, Concerns;
    i, j :| 0 <= i < j < |ids| && ids[i] in w.tickets && ids[j] in w.tickets && Concerns(f, w, ids[j]) &&
      !PairGuarded(w.block, w.tickets[ids[i]].req, w.tickets[ids[j]].req);
  }

  lemma UnguardedClosable(f: Focus, env: Env, w: World, ids: seq<RequestId>, i: nat, j: nat)
    requires SeedsFinite(f, env, w, ids) && i < j < |ids| && ids[i] in w.tickets && ids[j] in w.tickets && Concerns(f, w, ids[j])
    requires !PairGuarded(w.block, w.tickets[ids[i]].req, w.tickets[ids[j]].req)
    ensures Closable(env, w, ids[j], w.tickets[ids[i]].req.callbackGasLimit)
  {
    hide Concerns, SeedOf, GasNeeded;
  }

  lemma AcceptedAll(w: World, ids: seq<RequestId>)
    requires forall id | id in ids :: IsOpen(w, id)
    ensures forall k | 0 <= k < |ids| :: IsOpen(w, ids[k]) && ids[k] in w.tickets
  {
    assert forall k | 0 <= k < |ids| :: ids[k] in ids;
  }

  lemma BadPairCloser(env: Env, f: Focus, w: World, ids: seq<RequestId>, i: nat, j: nat, gas: nat) returns (body: Program)
    requires BadPair(env, f, Batched(w, ids), w, w, ids, i, j, gas)
    ensures Closes(env, w, ids, i, j, body)
  {
    body := Closer(env, w, ids[j], w.tickets[ids[i]].req.callbackGasLimit);
  }

  // ----- the inputs on which an unguarded batch goes wrong

  /** A callback that refunds request b. */
  function Refunding(b: RequestId): Program { Then(Call(1, 0, Op.Refund(b), Callback(Stop, true)), Stop) }

  /** Members a and b of a batch, the callback of the first refunding the second. */
  function RefundingPair(a: RequestId, b: RequestId): Members {
    Member(a, Callback(Refunding(b), true), Member(b, Callback(Stop, true), NoMembers))
  }

  lemma PairIds(a: RequestId, b: RequestId)
    ensures Ids(RefundingPair(a, b)) == [a, b]
  {
    assert Ids(Member(b, Callback(Stop, true), NoMembers)) == [b] + Ids(NoMembers) == [b];
  }

  lemma InvFine(env: Env, w: World, ids: seq<RequestId>)
    requires Premises(env) && Inv(env, w) && forall id | id in ids :: id in w.tickets
    ensures Fine(env, OnAll(), w, ids)
  {
    InvNames(env, w);
    InvIs(env, w);
    hide Inv, Sound, NamesOk, Holds;
  }

  /** The state in which the batch comes to settle b again. */
  function SecondTurn(env: Env, w: World, sender: Caller, a: RequestId, b: RequestId, gas: nat): World
    requires SettleRequest(w, sender, a).Ok?
  {
    AfterMember(env, w, sender, a, Callback(Refunding(b), true), gas)
  }

  /** ... is one in which b is refunded, all accounts are in order, and no other request but a has changed. */
  lemma SecondTurnIs(env: Env, w: World, sender: Caller, a: RequestId, b: RequestId, signature: Signature, gas: nat)
    requires Premises(env) && Inv(env, w) && CheckBatch(env, w, gas, [a, b], signature).None?
    requires b in w.tickets && w.block > w.tickets[b].req.createdAtBlock + TIMEOUT_BLOCKS
    ensures a in w.tickets && a != b && IsOpen(w, b) && SettleRequest(w, sender, a).Ok?
    ensures var next := SecondTurn(env, w, sender, a, b, gas);
      && Fine(env, OnAll(), next, [a, b]) && Closed(w, next, a, b)
      && next.tickets[a].req.subId == w.tickets[a].req.subId && !Open(next.tickets[a].req)
      && next.tickets[b].req == w.tickets[b].req.(refunded := true)
  {
    var ids := [a, b];
    AcceptedIds(env, w, ids);
    GasCovers(env, w, ids, gas);
    FirstCovered(w, ids, gas);
    FirstDiffers(ids, 1);
    hide *;
    OpenIs(w, a);
    OpenIs(w, b);
    InvFine(env, w, ids);
    RefundingIsBatchless(b);
    FineTurn(env, OnAll(), w, sender, ids, a, Refunding(b), signature, gas);
    var handed, limit := SettleRequest(w, sender, a).value, w.tickets[a].req.callbackGasLimit;
    FineOpen(env, OnAll(), handed, ids, b);
    RefundingIs(env, handed, b, limit);
    var after := ExecuteAll(env, handed, Refunding(b), limit);
    ClosedFrom(w, handed, after, a, b);
    DeliverOnly(after, a);
    NotOpen(after.tickets[b].req, Deliver(after, a).tickets[a].req);
  }

  lemma NotOpen(r: Request, s: Request)
    ensures r.refunded ==> !Open(r)
    ensures s.fulfilled ==> !Open(s)
  {}

  lemma RefundingIsBatchless(b: RequestId)
    ensures Batchless(Refunding(b))
  {}

  lemma RefundingIs(env: Env, w: World, b: RequestId, limit: nat)
    requires b in w.tickets && Open(w.tickets[b].req) && w.block > w.tickets[b].req.createdAtBlock + TIMEOUT_BLOCKS
    requires w.tickets[b].req.subId <= MAX64 && ReservedAt(w, w.tickets[b].req.subId)
    ensures var v := ExecuteAll(env, w, Refunding(b), limit);
      b in v.tickets && v.tickets == w.tickets[b := v.tickets[b]] && v.tickets[b].req == w.tickets[b].req.(refunded := true) && !Open(v.tickets[b].req)
  {
    hide ReservedAt, Execute;
    OneCallOnly(env, w, Refunding(b).call, limit);
    RefundCloses(w, Refunding(b).call, env, b, limit);
  }

  /** The batch then settles b, which adds a credit to a request that was released. */
  lemma PairExecutes(env: Env, w: World, sender: Caller, gas: nat, a: RequestId, b: RequestId, signature: Signature, bound: nat)
    requires Premises(env) && Inv(env, w) && CheckBatch(env, w, Min(gas, bound), [a, b], signature).None?
    requires b in w.tickets && w.block > w.tickets[b].req.createdAtBlock + TIMEOUT_BLOCKS
    ensures SettleRequest(w, sender, a).Ok?
    ensures var next := SecondTurn(env, w, sender, a, b, Min(gas, bound));
      var settled := SettleRequest(next, sender, b);
      settled.Ok? ==>
        Execute(env, w, Call(sender, gas, Op.FulfillBatch(RefundingPair(a, b), signature), Callback(Stop, true)), bound)
          == Deliver(settled.value, b)
  {
    var g, members := Min(gas, bound), RefundingPair(a, b);
    var last := Member(b, Callback(Stop, true), NoMembers);
    PairIds(a, b);
    hide *;
    SecondTurnIs(env, w, sender, a, b, signature, g);
    PairMembers(a, b);
    BatchExecutes(env, w, Call(sender, gas, Op.FulfillBatch(members, signature), Callback(Stop, true)), bound);
    OneMember(env, w, sender, members, g);
    var next := SecondTurn(env, w, sender, a, b, g);
    SecondTurnAfter(env, w, sender, a, b, g);
    if SettleRequest(next, sender, b).Ok? {
      OneMember(env, next, sender, last, g);
      LastTurn(env, next, sender, b, g);
      NoneLeft(env, Deliver(SettleRequest(next, sender, b).value, b), sender, signature, g);
    }
  }

  lemma PairMembers(a: RequestId, b: RequestId)
    ensures RefundingPair(a, b) == Member(a, Callback(Refunding(b), true), Member(b, Callback(Stop, true), NoMembers))
  {}

  lemma SecondTurnAfter(env: Env, w: World, sender: Caller, a: RequestId, b: RequestId, gas: nat)
    requires SettleRequest(w, sender, a).Ok?
    ensures SecondTurn(env, w, sender, a, b, gas) == AfterMember(env, w, sender, a, Callback(Refunding(b), true), gas)
  {
    hide AfterMember, SettleRequest;
  }

  lemma LastTurn(env: Env, w: World, sender: Caller, b: RequestId, gas: nat)
    requires SettleRequest(w, sender, b).Ok?
    ensures AfterMember(env, w, sender, b, Callback(Stop, true), gas) == Deliver(SettleRequest(w, sender, b).value, b)
  {
    var handed := SettleRequest(w, sender, b).value;
    assert ExecuteAll(env, handed, Stop, MemberLimit(handed, b, gas)) == handed;
    hide SettleRequest, Deliver;
  }

  /** Settling a request a second time keeps its refund and adds a credit. */
  lemma SettledAgain(env: Env, w: World, sender: Caller, b: RequestId)
    requires Sound(env, w) && b in w.tickets && w.tickets[b].req.refunded && TicketOk(env, w.nonces, b, w.tickets[b])
    requires SettleRequest(w, sender, b).Ok?
    ensures var v := Deliver(SettleRequest(w, sender, b).value, b);
      && b in v.tickets && v.tickets[b].req.fulfilled && v.tickets[b].req.refunded
      && |v.tickets[b].credited| == 1 && |v.tickets[b].released| == 1 && !TicketOk(env, v.nonces, b, v.tickets[b])
      && v.tickets == w.tickets[b := v.tickets[b]] && v.tickets[b].req.subId == w.tickets[b].req.subId
  {
    hide Sound, Settle;
    SettleOnly(w, sender, b);
    SettleFlags(w, sender, b);
    SettleCarries(env, w, sender, b, [b], 0);
    DeliverOnly(SettleRequest(w, sender, b).value, b);
  }

  /**
   A later member that costs nothing and is past its timeout, refunded by the earlier one's callback:
   the batch goes through and leaves it both refunded and fulfilled.
   */
  lemma ClosedTwice(env: Env, w: World, sender: Caller, gas: nat, a: RequestId, b: RequestId, signature: Signature, bound: nat)
    requires Premises(env) && Inv(env, w) && CheckBatch(env, w, Min(gas, bound), [a, b], signature).None?
    requires b in w.tickets && w.tickets[b].req.paid == 0 && w.block > w.tickets[b].req.createdAtBlock + TIMEOUT_BLOCKS
    ensures var v := Execute(env, w, Call(sender, gas, Op.FulfillBatch(RefundingPair(a, b), signature), Callback(Stop, true)), bound);
      && b in v.tickets && v.tickets[b].req.fulfilled && v.tickets[b].req.refunded && |v.tickets[b].credited| == 1
      && |v.tickets[b].released| == 1 && !Inv(env, v)
  {
    hide *;
    SecondTurnIs(env, w, sender, a, b, signature, Min(gas, bound));
    PairExecutes(env, w, sender, gas, a, b, signature, bound);
    var next := SecondTurn(env, w, sender, a, b, Min(gas, bound));
    AgainIf(env, next, sender, [a, b], b);
    SettledAgain(env, next, sender, b);
    BrokenInv(env, Deliver(SettleRequest(next, sender, b).value, b), b);
  }

  lemma BrokenInv(env: Env, w: World, b: RequestId)
    requires b in w.tickets && !TicketOk(env, w.nonces, b, w.tickets[b])
    ensures !Inv(env, w)
  {
    hide Sound, TicketOk, ReservedAt;
  }

  /** Settling again goes through when the account still holds that much in reserve, for whatever request. */
  lemma AgainIf(env: Env, w: World, sender: Caller, ids: seq<RequestId>, b: RequestId)
    requires Fine(env, OnAll(), w, ids) && b in ids
    ensures b in w.tickets && Sound(env, w) && TicketOk(env, w.nonces, b, w.tickets[b])
    ensures w.tickets[b].req.paid <= AccountOf(w.ledger.accounts, w.tickets[b].req.subId).reserved ==> SettleRequest(w, sender, b).Ok?
  {
    FineOpen(env, OnAll(), w, ids, b);
    assert OnAll().request(b);
    hide LedgerInv, PricingInv, TermsOk, ReservedAt, SettleRequest;
    BackedSettles(w, sender, b);
  }

  lemma BackedSettles(w: World, sender: Caller, b: RequestId)
    requires LedgerInv(w.ledger) && w.ledger.coin <= MAX96 && b in w.tickets && w.tickets[b].req.subId <= MAX64
    ensures w.tickets[b].req.paid <= AccountOf(w.ledger.accounts, w.tickets[b].req.subId).reserved ==> SettleRequest(w, sender, b).Ok?
  {
    hide LedgerInv, Settle;
    if w.tickets[b].req.paid <= AccountOf(w.ledger.accounts, w.tickets[b].req.subId).reserved {
      SettleFits(w.ledger, w.tickets[b].req.subId, w.tickets[b].req.paid, sender);
    }
  }

  /**
   A later member that was paid for, on an account with one more open request c that cost at least as
   much.  Its price is released and then credited out of what c has reserved: afterwards the account
   has less in reserve than its open requests cost, and c can be neither refunded, ever, nor settled.
   */
  lemma PaidTwice(env: Env, w: World, sender: Caller, gas: nat, a: RequestId, b: RequestId, c: RequestId, signature: Signature, bound: nat)
    requires Premises(env) && Inv(env, w) && CheckBatch(env, w, Min(gas, bound), [a, b], signature).None?
    requires b in w.tickets && w.block > w.tickets[b].req.createdAtBlock + TIMEOUT_BLOCKS
    requires a in w.tickets && w.tickets[a].req.subId != w.tickets[b].req.subId && c in w.tickets && c != b
    requires OpenPaid(w.tickets, w.tickets[b].req.subId) == map[b := w.tickets[b].req.paid, c := w.tickets[c].req.paid]
    requires 0 < w.tickets[b].req.paid <= w.tickets[c].req.paid
    ensures var v := Execute(env, w, Call(sender, gas, Op.FulfillBatch(RefundingPair(a, b), signature), Callback(Stop, true)), bound);
      var s := w.tickets[b].req.subId;
      && IsOpen(v, c) && AccountOf(v.ledger.accounts, s).reserved < Sum(OpenPaid(v.tickets, s))
      && (forall block: nat :: Coordinator.Refund(v.(block := block), c).Err?)
      && (forall publisher: Caller :: SettleRequest(v, publisher, c).Err?)
  {
    var s := w.tickets[b].req.subId;
    SoleOther(w, b, c);
    hide *;
    SecondTurnIs(env, w, sender, a, b, signature, Min(gas, bound));
    PairExecutes(env, w, sender, gas, a, b, signature, bound);
    var next := SecondTurn(env, w, sender, a, b, Min(gas, bound));
    OneOpenLeft(w, next, a, b, c);
    ReserveOf(env, next, [a, b], b, c);
    AgainIf(env, next, sender, [a, b], b);
    SettledAgain(env, next, sender, b);
    OverdrawnAfter(env, next, sender, b, c);
  }

  lemma SoleOther(w: World, b: RequestId, c: RequestId)
    requires b in w.tickets && c in w.tickets && c != b
    requires OpenPaid(w.tickets, w.tickets[b].req.subId) == map[b := w.tickets[b].req.paid, c := w.tickets[c].req.paid]
    ensures IsOpen(w, c) && w.tickets[c].req.subId == w.tickets[b].req.subId
  {
    assert c in OpenPaid(w.tickets, w.tickets[b].req.subId);
  }

  lemma OneOpenLeft(w: World, next: World, a: RequestId, b: RequestId, c: RequestId)
    requires Closed(w, next, a, b) && a in w.tickets && b in w.tickets && c in w.tickets && c != b && IsOpen(w, c)
    requires w.tickets[c].req.subId == w.tickets[b].req.subId != w.tickets[a].req.subId
    requires a in next.tickets && next.tickets[a].req.subId == w.tickets[a].req.subId
    requires OpenPaid(w.tickets, w.tickets[b].req.subId) == map[b := w.tickets[b].req.paid, c := w.tickets[c].req.paid]
    ensures c in next.tickets && next.tickets[c] == w.tickets[c] && IsOpen(next, c)
    ensures OpenPaid(next.tickets, w.tickets[b].req.subId) == map[c := w.tickets[c].req.paid]
  {
    var s, was, now := w.tickets[b].req.subId, OpenPaid(w.tickets, w.tickets[b].req.subId), OpenPaid(next.tickets, w.tickets[b].req.subId);
    assert c != a;
    forall id ensures id in now <==> id == c {
      if id in now { assert id in was; }
    }
  }

  lemma ReserveOf(env: Env, w: World, ids: seq<RequestId>, b: RequestId, c: RequestId)
    requires Fine(env, OnAll(), w, ids) && b in ids && c in w.tickets && b in w.tickets
    requires OpenPaid(w.tickets, w.tickets[b].req.subId) == map[c := w.tickets[c].req.paid]
    ensures AccountOf(w.ledger.accounts, w.tickets[b].req.subId).reserved == w.tickets[c].req.paid
  {
    hide Fine, LedgerInv, OpenPaid;
    SumOne(OpenPaid(w.tickets, w.tickets[b].req.subId), c, w.tickets[c].req.paid);
    hide Sum;
    FineOpen(env, OnAll(), w, ids, b);
  }

  lemma SumOne(m: map<RequestId, nat>, c: RequestId, paid: nat)
    requires m == map[c := paid]
    ensures Sum(m) == paid
  {
    SumSet(map[], c, paid);
    assert map[][c := paid] == m;
  }

  lemma OverdrawnAfter(env: Env, w: World, sender: Caller, b: RequestId, c: RequestId)
    requires Sound(env, w) && b in w.tickets && c in w.tickets && b != c && IsOpen(w, c) && w.tickets[b].req.refunded
    requires w.tickets[c].req.subId == w.tickets[b].req.subId && SettleRequest(w, sender, b).Ok?
    requires OpenPaid(w.tickets, w.tickets[b].req.subId) == map[c := w.tickets[c].req.paid]
    requires AccountOf(w.ledger.accounts, w.tickets[b].req.subId).reserved == w.tickets[c].req.paid && w.tickets[b].req.paid > 0
    ensures var v, s := Deliver(SettleRequest(w, sender, b).value, b), w.tickets[b].req.subId;
      && IsOpen(v, c) && AccountOf(v.ledger.accounts, s).reserved < Sum(OpenPaid(v.tickets, s))
      && (forall block: nat :: Coordinator.Refund(v.(block := block), c).Err?)
      && (forall publisher: Caller :: SettleRequest(v, publisher, c).Err?)
  {
    hide Sound, SettleRequest, Deliver, AccountOf;
    var v, s := Deliver(SettleRequest(w, sender, b).value, b), w.tickets[b].req.subId;
    SettledReserve(env, w, sender, b);
    SettleOnly(w, sender, b);
    SettleFlags(w, sender, b);
    DeliverOnly(SettleRequest(w, sender, b).value, b);
    assert v.tickets[c] == w.tickets[c];
    forall id ensures id in OpenPaid(v.tickets, s) <==> id == c {
      assert id in OpenPaid(w.tickets, s) <==> id == c;
    }
    assert OpenPaid(v.tickets, s) == map[c := w.tickets[c].req.paid];
    SumOne(OpenPaid(v.tickets, s), c, w.tickets[c].req.paid);
    Overdrawn(v, c);
  }

  lemma SettledReserve(env: Env, w: World, sender: Caller, b: RequestId)
    requires Sound(env, w) && b in w.tickets && SettleRequest(w, sender, b).Ok?
    ensures AccountOf(Deliver(SettleRequest(w, sender, b).value, b).ledger.accounts, w.tickets[b].req.subId).reserved
      == AccountOf(w.ledger.accounts, w.tickets[b].req.subId).reserved - w.tickets[b].req.paid
  {
    hide LedgerInv, PricingInv, Settle;
    SettleKeeps(w.ledger, w.tickets[b].req.subId, w.tickets[b].req.paid, sender);
    DeliverOther(SettleRequest(w, sender, b).value, b, b + 1);
  }

  /** What an account with too little in reserve refuses. */
  lemma Overdrawn(w: World, c: RequestId)
    requires IsOpen(w, c) && AccountOf(w.ledger.accounts, w.tickets[c].req.subId).reserved < w.tickets[c].req.paid
    ensures forall block: nat :: Coordinator.Refund(w.(block := block), c).Err?
    ensures forall publisher: Caller :: SettleRequest(w, publisher, c).Err?
  {}

  /**
   Settling a member keeps its price accounted for once exactly when the member is open at that
   moment.  The loop that settles does not look again, so this is what a batch relies on.
   */
  lemma SettlesSoundlyIffOpen(env: Env, w: World, sender: Caller, id: RequestId)
    requires Sound(env, w) && id in w.tickets && TicketOk(env, w.nonces, id, w.tickets[id]) && SettleRequest(w, sender, id).Ok?
    ensures var v := SettleRequest(w, sender, id).value;
      id in v.tickets && (TicketOk(env, v.nonces, id, v.tickets[id]) <==> Open(w.tickets[id].req))
  {
    hide LedgerInv, PricingInv;
    SettleOnly(w, sender, id);
    SettleFlags(w, sender, id);
    SettleCarries(env, w, sender, id, [id], 0);
  }

  // ----- executions and runs whose batches pass the guard

  /** Nobody holding less gas than a fulfilment takes can touch an open request before its timeout. */
  lemma ShieldedUntouched(env: Env, w: World, p: Program, bound: nat, j: RequestId)
    requires Sound(env, w) && NamesOk(env, w) && j in w.tickets && Open(w.tickets[j].req)
    requires bound < GasNeeded(w.tickets[j].req.callbackGasLimit)
    requires w.block <= w.tickets[j].req.createdAtBlock + TIMEOUT_BLOCKS
    ensures var v := ExecuteAll(env, w, p, bound); j in v.tickets && v.tickets[j] == w.tickets[j]
  {
    hide Sound, NamesOk, Steady, ExecuteAll;
    EveryProgram(env, w, p, bound);
  }

  /** Every batch guards the requests in question when it is accepted. */
  ghost predicate BatchesGuarded(f: Focus, ms: seq<Moment>) {
    forall m | m in ms :: m.Batching? ==> Guarded(f, m.world, m.ids)
  }

  lemma BatchesGuardedSplit(f: Focus, a: seq<Moment>, b: seq<Moment>)
    requires BatchesGuarded(f, a + b)
    ensures BatchesGuarded(f, a) && BatchesGuarded(f, b)
  {
    hide Guarded;
    assert forall m | m in a :: m in a + b;
    assert forall m | m in b :: m in a + b;
  }

  lemma OpenForJoin(f: Focus, a: seq<Moment>, b: seq<Moment>)
    requires OpenFor(f, a) && OpenFor(f, b)
    ensures OpenFor(f, a + b)
  {
    hide Concerns, IsOpen;
  }

  lemma NotSettling(f: Focus, m: Moment)
    requires !m.Settling?
    ensures OpenFor(f, [m])
  {}

  lemma NothingOpen(f: Focus)
    ensures OpenFor(f, [])
  {}

  lemma {:induction false} GuardedCall(f: Focus, env: Env, w: World, c: Call, bound: nat)
    requires Sound(env, w) && NamesOk(env, w) && BatchesGuarded(f, Trace(env, w, c, bound))
    ensures OpenFor(f, Trace(env, w, c, bound))
    decreases c
  {
    hide *;
    var gas := Min(c.gas, bound);
    CallTraces(env, w, c, bound);
    match Enter(env, w, c.sender, gas, c.op) {
      case Refused(_) => NothingOpen(f);
      case Finished(done) =>
        if c.op.FulfillBatch? {
          var ids := Ids(c.op.members);
          var later := TraceMembers(env, w, c.sender, c.op.members, c.op.signature, gas);
          BatchesGuardedSplit(f, [Batching(w, ids)], later);
          BatchStands(f, env, w, c.sender, c.op.members, c.op.signature, gas);
          GuardedMembers(f, env, w, c.sender, c.op.members, c.op.signature, gas);
          NotSettling(f, Batching(w, ids));
          OpenForJoin(f, [Batching(w, ids)], later);
        } else {
          NothingOpen(f);
        }
      case HandsOver(handed, limit) =>
        EveryEntry(env, w, c.sender, gas, c.op, bound);
        EntryNames(env, w, gas, c.op, handed, limit, bound);
        var inside := TraceAll(env, handed, c.callback.body, limit);
        DeliversIs(c.op);
        if c.op.FulfillRandomWords? || c.op.RetryCallback? {
          var first := Offered(handed, c.op.id, CarriedWords(env, handed, c.op.id, c.op.signature), true);
          BatchesGuardedSplit(f, [first], inside);
          GuardedProgram(f, env, handed, c.callback.body, limit);
          NotSettling(f, first);
          OpenForJoin(f, [first], inside);
        } else {
          GuardedProgram(f, env, handed, c.callback.body, limit);
        }
    }
  }

  /** What a call adds to the trace. */
  lemma CallTraces(env: Env, w: World, c: Call, bound: nat)
    ensures var gas := Min(c.gas, bound);
      gas <= bound &&
      match Enter(env, w, c.sender, gas, c.op)
      case Refused(_) => Trace(env, w, c, bound) == []
      case Finished(_) =>
        && (c.op.FulfillBatch? ==>
              && CheckBatch(env, w, gas, Ids(c.op.members), c.op.signature).None?
              && Trace(env, w, c, bound)
                   == [Batching(w, Ids(c.op.members))] + TraceMembers(env, w, c.sender, c.op.members, c.op.signature, gas))
        && (!c.op.FulfillBatch? ==> Trace(env, w, c, bound) == [])
      case HandsOver(handed, limit) =>
        && (Delivers(c.op) ==>
              Trace(env, w, c, bound) == [Offered(handed, c.op.id, CarriedWords(env, handed, c.op.id, c.op.signature), true)]
                + TraceAll(env, handed, c.callback.body, limit))
        && (!Delivers(c.op) ==> Trace(env, w, c, bound) == TraceAll(env, handed, c.callback.body, limit))
  {
    var gas := Min(c.gas, bound);
    var e := Enter(env, w, c.sender, gas, c.op);
    assert c.op.FulfillBatch? && e.Finished? ==> CheckBatch(env, w, gas, Ids(c.op.members), c.op.signature).None?;
    hide Enter, CheckBatch, TraceAll, TraceMembers, CarriedWords;
    if e.HandsOver? { assert [] + TraceAll(env, e.world, c.callback.body, e.limit) == TraceAll(env, e.world, c.callback.body, e.limit); }
  }

  lemma BatchStands(f: Focus, env: Env, w: World, sender: Caller, members: Members, signature: Signature, gas: nat)
    requires Sound(env, w) && NamesOk(env, w) && CheckBatch(env, w, gas, Ids(members), signature).None?
    requires BatchesGuarded(f, [Batching(w, Ids(members))])
    ensures TurnsOpen(f, env, w, sender, members, gas)
  {
    AcceptedIds(env, w, Ids(members));
    AcceptedOpen(f, w, Ids(members));
    assert Batching(w, Ids(members)) in [Batching(w, Ids(members))];
    hide Sound, NamesOk, CheckBatch, BatchSeeds, Guarded, Ascending, TurnsOpen, OpenOn;
    GuardKeepsOpen(f, env, w, sender, members, gas);
  }

  lemma {:induction false} GuardedProgram(f: Focus, env: Env, w: World, p: Program, bound: nat)
    requires Sound(env, w) && NamesOk(env, w) && BatchesGuarded(f, TraceAll(env, w, p, bound))
    ensures OpenFor(f, TraceAll(env, w, p, bound))
    decreases p
  {
    NotSettling(f, Control(w));
    match p {
      case Stop => assert TraceAll(env, w, p, bound) == [Control(w)];
      case Then(c, rest) =>
        var next := Execute(env, w, c, bound);
        var here, later := Trace(env, w, c, bound), TraceAll(env, next, rest, bound);
        assert TraceAll(env, w, p, bound) == [Control(w)] + (here + later);
        hide Sound, NamesOk, BatchesGuarded, OpenFor, Carries, Execute, Trace;
        BatchesGuardedSplit(f, [Control(w)], here + later);
        BatchesGuardedSplit(f, here, later);
        GuardedCall(f, env, w, c, bound);
        EveryCall(env, w, c, bound);
        CarriesNames(env, w, next, [], bound);
        GuardedProgram(f, env, next, rest, bound);
        OpenForJoin(f, here, later);
        OpenForJoin(f, [Control(w)], here + later);
    }
  }

  lemma {:induction false} GuardedMembers(f: Focus, env: Env, w: World, sender: Caller, members: Members, signature: Signature, gas: nat)
    requires Sound(env, w) && NamesOk(env, w) && TurnsOpen(f, env, w, sender, members, gas)
    requires BatchesGuarded(f, TraceMembers(env, w, sender, members, signature, gas))
    ensures OpenFor(f, TraceMembers(env, w, sender, members, signature, gas))
    decreases members
  {
    hide *;
    if members.Member? {
      var id, callback, others := members.id, members.callback, members.others;
      TurnsHead(f, env, w, sender, members, gas);
      if SettleRequest(w, sender, id).Ok? {
        TurnsTail(f, env, w, sender, members, gas);
        var handed, next := SettleRequest(w, sender, id).value, AfterMember(env, w, sender, id, callback, gas);
        var limit := MemberLimit(handed, id, gas);
        var inside, later := TraceAll(env, handed, callback.body, limit), TraceMembers(env, next, sender, others, signature, gas);
        TurnTrace(env, w, sender, members, signature, gas);
        var offered := Offered(handed, id, CarriedWords(env, handed, id, signature), false);
        BatchesGuardedSplit(f, [Settling(w, id), offered], inside + later);
        BatchesGuardedSplit(f, inside, later);
        SettleCarries(env, w, sender, id, [id], 0);
        CarriesNames(env, w, handed, [id], 0);
        GuardedProgram(f, env, handed, callback.body, limit);
        TurnLeavesShielded(env, w, sender, id, callback, gas);
        GuardedMembers(f, env, next, sender, others, signature, gas);
        NotSettling(f, offered);
        assert [Settling(w, id), offered] == [Settling(w, id)] + [offered];
        OpenForJoin(f, [Settling(w, id)], [offered]);
        OpenForJoin(f, inside, later);
        OpenForJoin(f, [Settling(w, id), offered], inside + later);
      } else {
        RefusedTurn(env, w, sender, members, signature, gas);
      }
    } else {
      NoneLeft(env, w, sender, signature, gas);
      NothingOpen(f);
    }
  }

  lemma TurnsHead(f: Focus, env: Env, w: World, sender: Caller, members: Members, gas: nat)
    requires members.Member? && TurnsOpen(f, env, w, sender, members, gas)
    ensures OpenFor(f, [Settling(w, members.id)]) && members.id in [members.id]
  {
    hide SettleRequest, AfterMember, Concerns, IsOpen;
  }

  lemma RefusedTurn(env: Env, w: World, sender: Caller, members: Members, signature: Signature, gas: nat)
    requires members.Member? && SettleRequest(w, sender, members.id).Err?
    ensures TraceMembers(env, w, sender, members, signature, gas) == [Settling(w, members.id)]
  {
    hide SettleRequest;
  }

  lemma TurnsTail(f: Focus, env: Env, w: World, sender: Caller, members: Members, gas: nat)
    requires members.Member? && TurnsOpen(f, env, w, sender, members, gas) && SettleRequest(w, sender, members.id).Ok?
    ensures TurnsOpen(f, env, AfterMember(env, w, sender, members.id, members.callback, gas), sender, members.others, gas)
  {
    hide SettleRequest, AfterMember, Concerns, IsOpen;
  }

  /** In runs whose batches guard the requests in question, batches find those requests open. */
  lemma {:induction false} GuardedRun(f: Focus, env: Env, w: World, txs: seq<Transaction>)
    requires Sound(env, w) && NamesOk(env, w) && BlocksFit(w.block, txs) && BatchesGuarded(f, RunTrace(env, w, txs))
    ensures OpenFor(f, RunTrace(env, w, txs))
    decreases txs
  {
    hide *;
    RunStep(env, w, txs);
    if txs == [] {
      NotSettling(f, Control(w));
    } else {
      var mined := Mined(w, txs[0]);
      var next := ExecuteAll(env, mined, txs[0].program, txs[0].gas);
      var here, rest := TraceAll(env, mined, txs[0].program, txs[0].gas), RunTrace(env, next, txs[1..]);
      MiningLater(env, w, mined);
      LaterNames(env, w, mined);
      BatchesGuardedSplit(f, here, rest);
      GuardedProgram(f, env, mined, txs[0].program, txs[0].gas);
      EveryProgram(env, mined, txs[0].program, txs[0].gas);
      CarriesNames(env, mined, next, [], txs[0].gas);
      CarriesBlock(env, mined, next, [], txs[0].gas);
      GuardedRun(f, env, next, txs[1..]);
      OpenForJoin(f, here, rest);
    }
  }

  lemma LaterNames(env: Env, w: World, v: World)
    requires Later(env, w, v) && NamesOk(env, w)
    ensures NamesOk(env, v)
  {}

  lemma GuardedFromGenesis(f: Focus, env: Env, deployer: Caller, block: nat, supply: nat, txs: seq<Transaction>)
    requires Deployed(env, block, supply, txs) && Injective(env)
    requires BatchesGuarded(f, RunTrace(env, Genesis(env, deployer, block, supply), txs))
    ensures OpenFor(f, RunTrace(env, Genesis(env, deployer, block, supply), txs))
  {
    GenesisSound(env, deployer, block, supply);
    hide Sound, NamesOk, Genesis, BatchesGuarded, OpenFor;
    GuardedRun(f, env, Genesis(env, deployer, block, supply), txs);
  }

  /**
   A request that every batch it is put in guards against the members before it is closed once,
   delivered at most once, and its price accounted for once, whatever other batches do to others.
   */
  lemma GuardedOutcome(env: Env, deployer: Caller, block: nat, supply: nat, txs: seq<Transaction>, id: RequestId)
    requires Deployed(env, block, supply, txs) && Injective(env)
    requires BatchesGuarded(OnRequest(id), RunTrace(env, Genesis(env, deployer, block, supply), txs))
    requires id in Run(env, Genesis(env, deployer, block, supply), txs).tickets
    ensures var t := Run(env, Genesis(env, deployer, block, supply), txs).tickets[id];
      && t.delivered <= 1 && !(t.req.fulfilled && t.req.refunded)
      && |t.credited| + |t.released| == (if Open(t.req) then 0 else 1)
      && (t.req.fulfilled ==> |t.credited| == 1 && t.credited[0].amount == t.req.paid)
      && (t.req.refunded ==> t.released == [t.req.paid])
  {
    GuardedFromGenesis(OnRequest(id), env, deployer, block, supply, txs);
    hide Genesis, Run, RunTrace, BatchesGuarded, OpenFor;
    RequestOutcome(env, deployer, block, supply, txs, id);
  }

  /** An account whose requests every batch guards has reserved, at every moment, what its open requests cost. */
  lemma GuardedReserved(env: Env, deployer: Caller, block: nat, supply: nat, txs: seq<Transaction>, m: Moment, s: SubId)
    requires Deployed(env, block, supply, txs) && Injective(env)
    requires BatchesGuarded(OnAccount(s), RunTrace(env, Genesis(env, deployer, block, supply), txs))
    requires m in RunTrace(env, Genesis(env, deployer, block, supply), txs)
    ensures AccountOf(m.world.ledger.accounts, s).reserved == Sum(OpenPaid(m.world.tickets, s))
    ensures CountersOf(m.world.ledger.counters, s).pending == |OpenPaid(m.world.tickets, s)|
  {
    GuardedFromGenesis(OnAccount(s), env, deployer, block, supply, txs);
    hide Genesis, RunTrace, BatchesGuarded, OpenFor;
    ReservedAtEveryMoment(env, deployer, block, supply, txs, m, s);
  }
}
