/**
 Counting over the tree of calls: what went through and was not undone, and which callbacks their
 consumers accepted.  The count reads the program and the entry of each call; it never looks at what
 the contracts record.

 One induction serves every such count.  A law says which calls are made, what stays true of the
 state, and a measure of it; if every single step moves the measure by what the meter reads, so does
 every program, whatever its callbacks do and whichever of them fail.
 */
module Tallies {
  import opened Common
  import opened Accounts
  import opened Coordinator
  import opened Reentrancy
  import opened Invariants
  import opened Always
  import opened Promises

  /** How much an accepted call counts, and how much an accepted callback. */
  datatype Meter = Meter(call: Op -> nat, callback: RequestId -> nat)

  function Tally(env: Env, w: World, c: Call, bound: nat, meter: Meter): nat
    decreases c
  {
    var gas := Min(c.gas, bound);
    match Enter(env, w, c.sender, gas, c.op)
    case Refused(_) => 0
    case HandsOver(handed, limit) =>
      if c.callback.ok then
        meter.call(c.op) + TallyAll(env, handed, c.callback.body, limit, meter)
          + (if Delivers(c.op) then meter.callback(c.op.id) else 0)
      else if Delivers(c.op) then meter.call(c.op)
      else 0
    case Finished(done) =>
      if !c.op.FulfillBatch? then meter.call(c.op)
      else if ExecuteMembers(env, w, c.sender, c.op.members, gas).None? then 0
      else meter.call(c.op) + TallyMembers(env, w, c.sender, c.op.members, gas, meter)
  }

  function TallyAll(env: Env, w: World, p: Program, bound: nat, meter: Meter): nat
    decreases p
  {
    match p
    case Stop => 0
    case Then(c, rest) => Tally(env, w, c, bound, meter) + TallyAll(env, Execute(env, w, c, bound), rest, bound, meter)
  }

  function TallyMembers(env: Env, w: World, sender: Caller, members: Members, gas: nat, meter: Meter): nat
    decreases members
  {
    match members
    case NoMembers => 0
    case Member(id, callback, others) =>
      var settled := SettleRequest(w, sender, id);
      if settled.Err? then 0
      else
        var handed := settled.value;
        (if callback.ok
         then TallyAll(env, handed, callback.body, MemberLimit(handed, id, gas), meter) + meter.callback(id)
         else 0)
          + TallyMembers(env, AfterMember(env, w, sender, id, callback, gas), sender, others, gas, meter)
  }

  function TallyRun(env: Env, w: World, txs: seq<Transaction>, meter: Meter): nat
    decreases txs
  {
    if txs == [] then 0
    else
      var mined := Mined(w, txs[0]);
      TallyAll(env, mined, txs[0].program, txs[0].gas, meter)
        + TallyRun(env, ExecuteAll(env, mined, txs[0].program, txs[0].gas), txs[1..], meter)
  }

  // ----- which calls a program makes, at any depth

  predicate CallMakes(c: Call, may: (Caller, Op) -> bool)
    decreases c
  {
    may(c.sender, c.op) && ProgramMakes(c.callback.body, may) && (c.op.FulfillBatch? ==> MembersMake(c.op.members, may))
  }

  predicate ProgramMakes(p: Program, may: (Caller, Op) -> bool)
    decreases p
  {
    p.Then? ==> CallMakes(p.call, may) && ProgramMakes(p.rest, may)
  }

  predicate MembersMake(members: Members, may: (Caller, Op) -> bool)
    decreases members
  {
    members.Member? ==> ProgramMakes(members.callback.body, may) && MembersMake(members.others, may)
  }

  // ----- laws

  ghost predicate Fits(env: Env, w: World) { Sound(env, w) && NamesOk(env, w) }

  datatype Law = Law(may: (Caller, Op) -> bool, keeps: World -> bool, measure: World -> int, meter: Meter)

  ghost predicate EntryLaw(env: Env, law: Law) {
    forall w, sender, gas: nat, op ::
      Fits(env, w) && law.keeps(w) && law.may(sender, op) && !Enter(env, w, sender, gas, op).Refused? ==>
        EntryLawful(law, w, op, Enter(env, w, sender, gas, op))
  }

  ghost predicate EntryLawful(law: Law, w: World, op: Op, e: Entry)
    requires !e.Refused?
  {
    law.keeps(e.world) && law.measure(e.world) == law.measure(w) + law.meter.call(op)
  }

  ghost predicate SettleLaw(env: Env, law: Law) {
    forall w, sender, id ::
      Fits(env, w) && law.keeps(w) && SettleRequest(w, sender, id).Ok? ==>
        law.keeps(SettleRequest(w, sender, id).value) && law.measure(SettleRequest(w, sender, id).value) == law.measure(w)
  }

  ghost predicate DeliverLaw(law: Law) {
    forall w, id ::
      law.keeps(w) && id in w.tickets ==>
        law.keeps(Deliver(w, id)) && law.measure(Deliver(w, id)) == law.measure(w) + law.meter.callback(id)
  }

  ghost predicate MiningLaw(law: Law) {
    forall w: World, block: nat ::
      law.keeps(w) && w.block <= block ==> law.keeps(At(w, block)) && law.measure(At(w, block)) == law.measure(w)
  }

  function At(w: World, block: nat): World { w.(block := block) }

  ghost predicate Lawful(env: Env, law: Law) { EntryLaw(env, law) && SettleLaw(env, law) && DeliverLaw(law) }

  ghost predicate Moved(law: Law, w: World, v: World, n: nat) {
    law.keeps(v) && law.measure(v) == law.measure(w) + n
  }

  lemma UseEntry(env: Env, law: Law, w: World, sender: Caller, gas: nat, op: Op)
    requires EntryLaw(env, law) && Fits(env, w) && law.keeps(w) && law.may(sender, op)
    ensures var e := Enter(env, w, sender, gas, op); !e.Refused? ==> Moved(law, w, e.world, law.meter.call(op))
  {
    hide Fits, Enter;
  }

  lemma UseSettle(env: Env, law: Law, w: World, sender: Caller, id: RequestId)
    requires SettleLaw(env, law) && Fits(env, w) && law.keeps(w) && SettleRequest(w, sender, id).Ok?
    ensures Moved(law, w, SettleRequest(w, sender, id).value, 0)
  {
    hide Fits, SettleRequest;
  }

  lemma UseDeliver(law: Law, w: World, id: RequestId)
    requires DeliverLaw(law) && law.keeps(w) && id in w.tickets
    ensures Moved(law, w, Deliver(w, id), law.meter.callback(id))
  {
    hide Deliver;
  }

  lemma MovedSelf(law: Law, w: World)
    requires law.keeps(w)
    ensures Moved(law, w, w, 0)
  {}

  lemma MovedStep(law: Law, u: World, v: World, w: World, n: nat, k: nat)
    requires Moved(law, u, v, n) && Moved(law, v, w, k)
    ensures Moved(law, u, w, n + k)
  {}

  lemma FitsAfter(env: Env, w: World, v: World, ids: seq<RequestId>, bound: nat)
    requires Carries(env, w, v, ids, bound) && NamesOk(env, w)
    ensures Fits(env, v) && forall id | id in w.tickets :: id in v.tickets
  {
    hide Sound, Steady, Recorded, Touchable;
  }

  // ----- the tree

  /** What a call's tally is made of. */
  lemma TallyIs(env: Env, w: World, c: Call, bound: nat, meter: Meter)
    ensures var gas := Min(c.gas, bound);
      && gas <= bound
      && match Enter(env, w, c.sender, gas, c.op)
      case Refused(_) => Tally(env, w, c, bound, meter) == 0 && Execute(env, w, c, bound) == w
      case HandsOver(handed, limit) =>
        var after, inside := ExecuteAll(env, handed, c.callback.body, limit), TallyAll(env, handed, c.callback.body, limit, meter);
        if Delivers(c.op) then
          if c.callback.ok
          then && Tally(env, w, c, bound, meter) == meter.call(c.op) + inside + meter.callback(c.op.id)
               && Execute(env, w, c, bound) == Deliver(after, c.op.id)
          else Tally(env, w, c, bound, meter) == meter.call(c.op) && Execute(env, w, c, bound) == handed
        else
          if c.callback.ok
          then Tally(env, w, c, bound, meter) == meter.call(c.op) + inside && Execute(env, w, c, bound) == after
          else Tally(env, w, c, bound, meter) == 0 && Execute(env, w, c, bound) == w
      case Finished(done) =>
        if !c.op.FulfillBatch? then Tally(env, w, c, bound, meter) == meter.call(c.op) && Execute(env, w, c, bound) == done
        else
          && done == w
          && match ExecuteMembers(env, w, c.sender, c.op.members, gas)
             case None => Tally(env, w, c, bound, meter) == 0 && Execute(env, w, c, bound) == w
             case Some(v) =>
               && Tally(env, w, c, bound, meter) == meter.call(c.op) + TallyMembers(env, w, c.sender, c.op.members, gas, meter)
               && Execute(env, w, c, bound) == v
  {
    var gas := Min(c.gas, bound);
    var e := Enter(env, w, c.sender, gas, c.op);
    assert c.op.FulfillBatch? && e.Finished? ==> e.world == w;
    hide Enter, Deliver, ExecuteAll, ExecuteMembers, TallyAll, TallyMembers;
  }

  lemma {:induction false} CallMoves(env: Env, law: Law, w: World, c: Call, bound: nat)
    requires Lawful(env, law) && Fits(env, w) && law.keeps(w) && CallMakes(c, law.may)
    ensures Moved(law, w, Execute(env, w, c, bound), Tally(env, w, c, bound, law.meter))
    decreases c, 1
  {
    hide *;
    var gas := Min(c.gas, bound);
    CallMakesIs(c, law.may);
    LawfulIs(env, law);
    TallyIs(env, w, c, bound, law.meter);
    MovedSelf(law, w);
    UseEntry(env, law, w, c.sender, gas, c.op);
    match Enter(env, w, c.sender, gas, c.op) {
      case Refused(_) =>
      case Finished(done) =>
        if c.op.FulfillBatch? {
          MembersMove(env, law, w, c.sender, c.op.members, gas);
          var settled := ExecuteMembers(env, w, c.sender, c.op.members, gas);
          if settled.Some? {
            MovedStep(law, w, w, settled.value, law.meter.call(c.op), TallyMembers(env, w, c.sender, c.op.members, gas, law.meter));
          }
        }
      case HandsOver(handed, limit) =>
        EnteredKeeps(law, w, handed, law.meter.call(c.op));
        HandOverMoves(env, law, w, c, bound, gas, handed, limit);
    }
  }

  lemma CallMakesIs(c: Call, may: (Caller, Op) -> bool)
    requires CallMakes(c, may)
    ensures may(c.sender, c.op) && ProgramMakes(c.callback.body, may) && (c.op.FulfillBatch? ==> MembersMake(c.op.members, may))
  {}

  lemma LawfulIs(env: Env, law: Law)
    requires Lawful(env, law)
    ensures EntryLaw(env, law) && SettleLaw(env, law) && DeliverLaw(law)
  {}

  lemma LawfulIf(env: Env, law: Law)
    requires EntryLaw(env, law) && SettleLaw(env, law) && DeliverLaw(law)
    ensures Lawful(env, law)
  {}

  lemma {:induction false} HandOverMoves(env: Env, law: Law, w: World, c: Call, bound: nat, gas: nat, handed: World, limit: nat)
    requires Lawful(env, law) && Fits(env, w) && law.keeps(w) && ProgramMakes(c.callback.body, law.may)
    requires gas == Min(c.gas, bound) && gas <= bound && Enter(env, w, c.sender, gas, c.op) == HandsOver(handed, limit)
    requires Moved(law, w, handed, law.meter.call(c.op)) && law.keeps(handed)
    ensures Moved(law, w, Execute(env, w, c, bound), Tally(env, w, c, bound, law.meter))
    decreases c, 0
  {
    hide *;
    var after, inside := ExecuteAll(env, handed, c.callback.body, limit), TallyAll(env, handed, c.callback.body, limit, law.meter);
    TallyIs(env, w, c, bound, law.meter);
    MovedSelf(law, w);
    FitsIs(env, w);
    EveryEntry(env, w, c.sender, gas, c.op, bound);
    EntryFits(env, w, gas, c.op, handed, limit, bound);
    ProgramMoves(env, law, handed, c.callback.body, limit);
    MovedStep(law, w, handed, after, law.meter.call(c.op), inside);
    DeliversIs(c.op);
    if Delivers(c.op) && c.callback.ok {
      LawfulIs(env, law);
      ProgramFits(env, handed, c.callback.body, limit);
      EnteredKeeps(law, handed, after, inside);
      UseDeliver(law, after, c.op.id);
      MovedStep(law, w, after, Deliver(after, c.op.id), law.meter.call(c.op) + inside, law.meter.callback(c.op.id));
    }
  }

  lemma EnteredKeeps(law: Law, w: World, v: World, n: nat)
    requires Moved(law, w, v, n)
    ensures law.keeps(v)
  {}

  lemma EntryFits(env: Env, w: World, gas: nat, op: Op, handed: World, limit: nat, bound: nat)
    requires NamesOk(env, w) && EntrySound(env, w, gas, op, HandsOver(handed, limit), bound)
    ensures Fits(env, handed) && (Delivers(op) ==> op.id in handed.tickets)
  {
    hide Sound, WordsFit, Touchable, Steady, Recorded;
  }

  lemma ProgramFits(env: Env, w: World, p: Program, bound: nat)
    requires Fits(env, w)
    ensures Fits(env, ExecuteAll(env, w, p, bound)) && forall id | id in w.tickets :: id in ExecuteAll(env, w, p, bound).tickets
  {
    hide Sound, NamesOk, ExecuteAll;
    EveryProgram(env, w, p, bound);
    FitsAfter(env, w, ExecuteAll(env, w, p, bound), [], bound);
  }

  lemma {:induction false} ProgramMoves(env: Env, law: Law, w: World, p: Program, bound: nat)
    requires Lawful(env, law) && Fits(env, w) && law.keeps(w) && ProgramMakes(p, law.may)
    ensures Moved(law, w, ExecuteAll(env, w, p, bound), TallyAll(env, w, p, bound, law.meter))
    decreases p
  {
    MovedSelf(law, w);
    if p.Then? {
      var next := Execute(env, w, p.call, bound);
      assert ExecuteAll(env, w, p, bound) == ExecuteAll(env, next, p.rest, bound);
      var n, k := Tally(env, w, p.call, bound, law.meter), TallyAll(env, next, p.rest, bound, law.meter);
      assert TallyAll(env, w, p, bound, law.meter) == n + k;
      assert CallMakes(p.call, law.may) && ProgramMakes(p.rest, law.may);
      hide Lawful, Sound, NamesOk, Moved, Carries, Execute, ExecuteAll, Tally, TallyAll, CallMakes, ProgramMakes, AllSound;
      CallMoves(env, law, w, p.call, bound);
      EveryCall(env, w, p.call, bound);
      FitsAfter(env, w, next, [], bound);
      EnteredKeeps(law, w, next, n);
      ProgramMoves(env, law, next, p.rest, bound);
      MovedStep(law, w, next, ExecuteAll(env, next, p.rest, bound), n, k);
    }
  }

  lemma MembersTally(env: Env, w: World, sender: Caller, members: Members, gas: nat, meter: Meter)
    requires members.Member? && SettleRequest(w, sender, members.id).Ok?
    ensures var id, callback, handed := members.id, members.callback, SettleRequest(w, sender, members.id).value;
      TallyMembers(env, w, sender, members, gas, meter)
        == (if callback.ok then TallyAll(env, handed, callback.body, MemberLimit(handed, id, gas), meter) + meter.callback(id) else 0)
          + TallyMembers(env, AfterMember(env, w, sender, id, callback, gas), sender, members.others, gas, meter)
  {
    hide SettleRequest, TallyAll, AfterMember;
  }

  lemma {:induction false} MembersMove(env: Env, law: Law, w: World, sender: Caller, members: Members, gas: nat)
    requires Lawful(env, law) && Fits(env, w) && law.keeps(w) && MembersMake(members, law.may)
    ensures var settled := ExecuteMembers(env, w, sender, members, gas);
      settled.Some? ==> Moved(law, w, settled.value, TallyMembers(env, w, sender, members, gas, law.meter))
    decreases members
  {
    hide *;
    MovedSelf(law, w);
    MembersEnd(env, w, sender, members, gas, law.meter);
    if members.Member? && SettleRequest(w, sender, members.id).Ok? {
      var id, callback := members.id, members.callback;
      var handed, next := SettleRequest(w, sender, id).value, AfterMember(env, w, sender, id, callback, gas);
      var n: nat := if callback.ok then TallyAll(env, handed, callback.body, MemberLimit(handed, id, gas), law.meter) + law.meter.callback(id) else 0;
      MembersMakeIs(members, law.may);
      TurnFits(env, w, sender, id, callback, gas);
      TurnMoves(env, law, w, sender, id, callback, gas);
      EnteredKeeps(law, w, next, n);
      MembersMove(env, law, next, sender, members.others, gas);
      OneMember(env, w, sender, members, gas);
      MembersTally(env, w, sender, members, gas, law.meter);
      var settled := ExecuteMembers(env, next, sender, members.others, gas);
      if settled.Some? {
        MovedStep(law, w, next, settled.value, n, TallyMembers(env, next, sender, members.others, gas, law.meter));
      }
    }
  }

  lemma MembersMakeIs(members: Members, may: (Caller, Op) -> bool)
    requires MembersMake(members, may) && members.Member?
    ensures ProgramMakes(members.callback.body, may) && MembersMake(members.others, may)
  {}

  lemma MembersEnd(env: Env, w: World, sender: Caller, members: Members, gas: nat, meter: Meter)
    ensures members.NoMembers? ==>
      ExecuteMembers(env, w, sender, members, gas) == Some(w) && TallyMembers(env, w, sender, members, gas, meter) == 0
    ensures members.Member? && SettleRequest(w, sender, members.id).Err? ==> ExecuteMembers(env, w, sender, members, gas).None?
  {
    hide SettleRequest;
  }

  lemma {:induction false} TurnMoves(env: Env, law: Law, w: World, sender: Caller, id: RequestId, callback: Callback, gas: nat)
    requires Lawful(env, law) && Fits(env, w) && law.keeps(w) && ProgramMakes(callback.body, law.may)
    requires SettleRequest(w, sender, id).Ok?
    ensures var handed := SettleRequest(w, sender, id).value;
      Moved(law, w, AfterMember(env, w, sender, id, callback, gas),
        if callback.ok then TallyAll(env, handed, callback.body, MemberLimit(handed, id, gas), law.meter) + law.meter.callback(id) else 0)
    decreases callback
  {
    hide *;
    var handed := SettleRequest(w, sender, id).value;
    var limit := MemberLimit(handed, id, gas);
    LawfulIs(env, law);
    SettleFits(env, w, sender, id);
    UseSettle(env, law, w, sender, id);
    EnteredKeeps(law, w, handed, 0);
    AfterIs(env, w, sender, id, callback, gas);
    if callback.ok {
      var after, inside := ExecuteAll(env, handed, callback.body, limit), TallyAll(env, handed, callback.body, limit, law.meter);
      ProgramMoves(env, law, handed, callback.body, limit);
      ProgramFits(env, handed, callback.body, limit);
      EnteredKeeps(law, handed, after, inside);
      MovedStep(law, w, handed, after, 0, inside);
      UseDeliver(law, after, id);
      MovedStep(law, w, after, Deliver(after, id), inside, law.meter.callback(id));
    }
  }

  lemma SettleFits(env: Env, w: World, sender: Caller, id: RequestId)
    requires Fits(env, w) && SettleRequest(w, sender, id).Ok?
    ensures id in w.tickets && id in SettleRequest(w, sender, id).value.tickets && Fits(env, SettleRequest(w, sender, id).value)
  {
    hide *;
    FitsIs(env, w);
    SettleKnown(w, sender, id);
    SettleCarries(env, w, sender, id, [id], 0);
    FitsAfter(env, w, SettleRequest(w, sender, id).value, [id], 0);
  }

  lemma TurnFits(env: Env, w: World, sender: Caller, id: RequestId, callback: Callback, gas: nat)
    requires Fits(env, w) && SettleRequest(w, sender, id).Ok?
    ensures Fits(env, AfterMember(env, w, sender, id, callback, gas))
  {
    hide *;
    FitsIs(env, w);
    TurnLeavesShielded(env, w, sender, id, callback, gas);
    FitsIs(env, AfterMember(env, w, sender, id, callback, gas));
  }

  lemma FitsIs(env: Env, w: World)
    ensures Fits(env, w) <==> Sound(env, w) && NamesOk(env, w)
  {}

  // ----- runs

  predicate RunMakes(txs: seq<Transaction>, may: (Caller, Op) -> bool) {
    forall k | 0 <= k < |txs| :: ProgramMakes(txs[k].program, may)
  }

  lemma {:induction false} RunMoves(env: Env, law: Law, w: World, txs: seq<Transaction>)
    requires Lawful(env, law) && MiningLaw(law) && Fits(env, w) && law.keeps(w) && RunMakes(txs, law.may) && BlocksFit(w.block, txs)
    ensures Moved(law, w, Run(env, w, txs), TallyRun(env, w, txs, law.meter))
    decreases txs
  {
    MovedSelf(law, w);
    if txs != [] {
      var mined := Mined(w, txs[0]);
      assert mined == At(w, mined.block) && mined.block < TWO64 && BlocksFit(mined.block, txs[1..]);
      assert Moved(law, w, mined, 0) && ProgramMakes(txs[0].program, law.may) && RunMakes(txs[1..], law.may);
      var next := ExecuteAll(env, mined, txs[0].program, txs[0].gas);
      var n, k := TallyAll(env, mined, txs[0].program, txs[0].gas, law.meter), TallyRun(env, next, txs[1..], law.meter);
      assert Run(env, w, txs) == Run(env, next, txs[1..]) && TallyRun(env, w, txs, law.meter) == n + k;
      hide Lawful, MiningLaw, Moved, Sound, NamesOk, ExecuteAll, TallyAll, Carries, ProgramMakes, RunMakes, Since, AllProgress;
      MiningLater(env, w, mined);
      EnteredKeeps(law, w, mined, 0);
      ProgramMoves(env, law, mined, txs[0].program, txs[0].gas);
      ProgramBlock(env, mined, txs[0].program, txs[0].gas);
      EnteredKeeps(law, mined, next, n);
      RunMoves(env, law, next, txs[1..]);
      MovedStep(law, w, mined, next, 0, n);
      MovedStep(law, w, next, Run(env, next, txs[1..]), n, k);
    }
  }

  lemma ProgramBlock(env: Env, w: World, p: Program, bound: nat)
    requires Fits(env, w)
    ensures Fits(env, ExecuteAll(env, w, p, bound)) && ExecuteAll(env, w, p, bound).block == w.block
  {
    hide Sound, NamesOk, ExecuteAll;
    EveryProgram(env, w, p, bound);
    FitsAfter(env, w, ExecuteAll(env, w, p, bound), [], bound);
    CarriesBlock(env, w, ExecuteAll(env, w, p, bound), [], bound);
  }
}
