/**
 Who an account and the price list answer to.  Whatever a program does, at any depth, an account's
 owner, standing offer and consumers stay as they are unless its owner calls one of the functions
 reserved to owners or the address it is offered to accepts; its balance then moves by deposits and
 by what its requests have paid, and by nothing else.  Likewise the coordinator's owner and prices.
 */
module Authority {
  import opened Verifier
  import opened Sums
  import opened Accounts
  import opened Coordinator
  import opened Reentrancy
  import opened Invariants
  import opened Always
  import opened Promises
  import opened Tallies
  import opened Rules

  // ----- an account

  /** Who owns an account, whom it is offered to, and who may use it. */
  datatype Standing = Standing(owner: Address, offeredTo: Address, list: seq<Address>, consumers: set<Address>)

  function StandingOf(l: Ledger, s: SubId): Standing {
    Standing(AccountOf(l.accounts, s).owner, OfferedTo(l.pendingOwners, s), ConsumersOf(l.consumerList, s),
      set p | p in l.consumers && p.0 == s :: p.1)
  }

  function Total(credits: seq<Credit>): nat
    decreases credits
  {
    if credits == [] then 0 else Total(credits[..|credits| - 1]) + credits[|credits| - 1].amount
  }

  /** What each request of an account has paid so far. */
  ghost function Payments(tickets: map<RequestId, Ticket>, s: SubId): map<RequestId, nat> {
    map id | id in tickets && tickets[id].req.subId == s :: Total(tickets[id].credited)
  }

  ghost function Spent(w: World, s: SubId): nat { Sum(Payments(w.tickets, s)) }

  /** Everyone else may do anything; the owner may not use its rights, nor the offered address accept. */
  predicate Spares(s: SubId, standing: Standing, sender: Caller, op: Op) {
    && (OwnersOnly(op) && op.subId == s ==> sender != standing.owner)
    && (op == AcceptOwnerTransfer(s) ==> sender != standing.offeredTo)
  }

  function Deposits(s: SubId): Meter {
    Meter((op: Op) => if op.FundSubscription? && op.subId == s then op.value else 0, _ => 0)
  }

  function Sparing(s: SubId, standing: Standing): (Caller, Op) -> bool { (sender: Caller, op: Op) => Spares(s, standing, sender, op) }

  ghost function AccountLaw(s: SubId, standing: Standing): Law {
    Law(Sparing(s, standing), (w: World) => StandingOf(w.ledger, s) == standing,
      (w: World) => AccountOf(w.ledger.accounts, s).balance + Spent(w, s), Deposits(s))
  }

  /** A change of one ticket, new or known. */
  lemma SpentAt(tickets: map<RequestId, Ticket>, id: RequestId, t: Ticket, s: SubId)
    requires id in tickets ==> tickets[id].req.subId == t.req.subId
    ensures Sum(Payments(tickets[id := t], s)) == Sum(Payments(tickets, s))
      + (if t.req.subId != s then 0 else Total(t.credited) - (if id in tickets then Total(tickets[id].credited) else 0))
  {
    var was, now := Payments(tickets, s), Payments(tickets[id := t], s);
    if t.req.subId == s {
      assert now == was[id := Total(t.credited)];
      hide Total;
      SumSet(was, id, Total(t.credited));
    } else {
      assert now == was;
    }
  }

  lemma TotalSnoc(credits: seq<Credit>, c: Credit)
    ensures Total(credits + [c]) == Total(credits) + c.amount
  {
    assert (credits + [c])[..|credits|] == credits;
  }

  /** What a step does to one account. */
  ghost predicate AccountMoves(s: SubId, w: World, v: World, deposit: nat) {
    && StandingOf(v.ledger, s) == StandingOf(w.ledger, s)
    && AccountOf(v.ledger.accounts, s).balance + Spent(v, s) == AccountOf(w.ledger.accounts, s).balance + Spent(w, s) + deposit
  }

  lemma SameStanding(l: Ledger, m: Ledger, s: SubId)
    requires AccountOf(m.accounts, s).owner == AccountOf(l.accounts, s).owner
    requires OfferedTo(m.pendingOwners, s) == OfferedTo(l.pendingOwners, s)
    requires ConsumersOf(m.consumerList, s) == ConsumersOf(l.consumerList, s)
    requires forall c: Address :: (s, c) in m.consumers <==> (s, c) in l.consumers
    ensures StandingOf(m, s) == StandingOf(l, s)
  {
    hide AccountOf, OfferedTo, ConsumersOf;
  }

  lemma StandingIs(l: Ledger, s: SubId)
    ensures StandingOf(l, s).owner == AccountOf(l.accounts, s).owner && StandingOf(l, s).offeredTo == OfferedTo(l.pendingOwners, s)
  {}

  /** One account of the ledger: who it answers to stays, its balance grows by a deposit. */
  ghost predicate SameAccount(l: Ledger, m: Ledger, s: SubId, deposit: int) {
    && AccountOf(m.accounts, s).owner == AccountOf(l.accounts, s).owner
    && OfferedTo(m.pendingOwners, s) == OfferedTo(l.pendingOwners, s)
    && ConsumersOf(m.consumerList, s) == ConsumersOf(l.consumerList, s)
    && (forall c: Address :: (s, c) in m.consumers <==> (s, c) in l.consumers)
    && AccountOf(m.accounts, s).balance == AccountOf(l.accounts, s).balance + deposit
  }

  lemma LiveWithin(l: Ledger, s: SubId)
    requires LedgerInv(l) && Live(l.accounts, s)
    ensures s <= l.lastSubId
  {
    hide ActiveInv, ConsumersInv, MoneyInv;
  }

  // each ledger call, made by anyone but those the account answers to

  lemma CreateSpares(l: Ledger, sender: Caller, s: SubId)
    requires LedgerInv(l) && Live(l.accounts, s) && Accounts.CreateSubscription(l, sender).Ok?
    ensures SameAccount(l, Accounts.CreateSubscription(l, sender).value, s, 0)
  {
    LiveWithin(l, s);
    CreateKeeps(l, sender);
    hide LedgerInv, Kept, Live, AccountOf, OfferedTo, ConsumersOf, Accounts.CreateSubscription;
  }

  lemma FundSpares(l: Ledger, i: SubId, value: nat, s: SubId)
    requires LedgerInv(l) && Accounts.FundSubscription(l, i, value).Ok?
    ensures SameAccount(l, Accounts.FundSubscription(l, i, value).value, s, if i == s then value else 0)
  {
    FundKeeps(l, i, value);
    hide LedgerInv, Kept, AccountOf, OfferedTo, ConsumersOf, Accounts.FundSubscription;
  }

  lemma AddSpares(l: Ledger, sender: Caller, i: SubId, c: Address, s: SubId)
    requires LedgerInv(l) && Accounts.AddConsumer(l, sender, i, c).Ok? && (i == s ==> sender != AccountOf(l.accounts, s).owner)
    ensures SameAccount(l, Accounts.AddConsumer(l, sender, i, c).value, s, 0)
  {
    AddConsumerKeeps(l, sender, i, c);
    hide LedgerInv, Kept, AccountOf, OfferedTo, ConsumersOf, Accounts.AddConsumer;
  }

  lemma RemoveSpares(l: Ledger, sender: Caller, i: SubId, c: Address, s: SubId)
    requires LedgerInv(l) && Accounts.RemoveConsumer(l, sender, i, c).Ok? && (i == s ==> sender != AccountOf(l.accounts, s).owner)
    ensures SameAccount(l, Accounts.RemoveConsumer(l, sender, i, c).value, s, 0)
  {
    RemoveConsumerKeeps(l, sender, i, c);
    hide LedgerInv, Kept, AccountOf, OfferedTo, ConsumersOf, Accounts.RemoveConsumer;
  }

  lemma OfferSpares(l: Ledger, sender: Caller, i: SubId, to: Address, s: SubId)
    requires LedgerInv(l) && Accounts.RequestOwnerTransfer(l, sender, i, to).Ok? && (i == s ==> sender != AccountOf(l.accounts, s).owner)
    ensures SameAccount(l, Accounts.RequestOwnerTransfer(l, sender, i, to).value, s, 0)
  {
    OfferKeeps(l, sender, i, to);
    hide LedgerInv, Kept, AccountOf, OfferedTo, ConsumersOf, Accounts.RequestOwnerTransfer;
  }

  lemma AcceptSpares(l: Ledger, sender: Caller, i: SubId, s: SubId)
    requires LedgerInv(l) && Accounts.AcceptOwnerTransfer(l, sender, i).Ok? && (i == s ==> sender != OfferedTo(l.pendingOwners, s))
    ensures SameAccount(l, Accounts.AcceptOwnerTransfer(l, sender, i).value, s, 0)
  {
    AcceptKeeps(l, sender, i);
    hide LedgerInv, Kept, AccountOf, OfferedTo, ConsumersOf, Accounts.AcceptOwnerTransfer;
  }

  lemma WithdrawFromSpares(l: Ledger, sender: Caller, i: SubId, amount: nat, s: SubId)
    requires LedgerInv(l) && Accounts.WithdrawFromSubscription(l, sender, i, amount).Ok?
    requires i == s ==> sender != AccountOf(l.accounts, s).owner
    ensures SameAccount(l, Accounts.WithdrawFromSubscription(l, sender, i, amount).value, s, 0)
  {
    WithdrawFromKeeps(l, sender, i, amount);
    hide LedgerInv, Kept, AccountOf, OfferedTo, ConsumersOf, Accounts.WithdrawFromSubscription;
  }

  lemma CancelSpares(l: Ledger, sender: Caller, i: SubId, s: SubId)
    requires LedgerInv(l) && Accounts.CancelSubscription(l, sender, i).Ok? && (i == s ==> sender != AccountOf(l.accounts, s).owner)
    ensures SameAccount(l, Accounts.CancelSubscription(l, sender, i).value.0, s, 0)
  {
    CancelKeeps(l, sender, i);
    hide LedgerInv, Kept, AccountOf, OfferedTo, Accounts.CancelSubscription;
  }

  lemma SentSpares(w: World, l: Ledger, amount: nat, s: SubId)
    requires SameAccount(w.ledger, l, s, 0) && Send(w, l, amount).Ok?
    ensures SameAccount(w.ledger, Send(w, l, amount).value.ledger, s, 0)
  {}

  lemma SparesIs(l: Ledger, s: SubId, sender: Caller, op: Op)
    requires Spares(s, StandingOf(l, s), sender, op)
    ensures OwnersOnly(op) && op.subId == s ==> sender != AccountOf(l.accounts, s).owner
    ensures op.AcceptOwnerTransfer? && op.subId == s ==> sender != OfferedTo(l.pendingOwners, s)
  {}

  lemma LedgerSpares(env: Env, w: World, sender: Caller, gas: nat, op: Op, s: SubId)
    requires LedgerInv(w.ledger) && Live(w.ledger.accounts, s) && Spares(s, StandingOf(w.ledger, s), sender, op)
    requires op.CreateSubscription? || op.FundSubscription? || op.AddConsumer? || op.RemoveConsumer?
      || op.RequestOwnerTransfer? || op.AcceptOwnerTransfer?
    requires !Enter(env, w, sender, gas, op).Refused?
    ensures SameAccount(w.ledger, Enter(env, w, sender, gas, op).world.ledger, s, Deposits(s).call(op))
  {
    SparesIs(w.ledger, s, sender, op);
    DepositIs(s, op);
    hide LedgerInv, Live, Spares, SameAccount, StandingOf, Deposits, AccountOf, OfferedTo, Accounts.CreateSubscription, Accounts.FundSubscription, Accounts.AddConsumer,
      Accounts.RemoveConsumer, Accounts.RequestOwnerTransfer, Accounts.AcceptOwnerTransfer;
    match op {
      case CreateSubscription => CreateSpares(w.ledger, sender, s);
      case FundSubscription(i, value) => FundSpares(w.ledger, i, value, s);
      case AddConsumer(i, c) => AddSpares(w.ledger, sender, i, c, s);
      case RemoveConsumer(i, c) => RemoveSpares(w.ledger, sender, i, c, s);
      case RequestOwnerTransfer(i, to) => OfferSpares(w.ledger, sender, i, to, s);
      case AcceptOwnerTransfer(i) => AcceptSpares(w.ledger, sender, i, s);
    }
  }

  lemma PayingSpares(env: Env, w: World, sender: Caller, gas: nat, op: Op, s: SubId)
    requires LedgerInv(w.ledger) && Live(w.ledger.accounts, s) && Spares(s, StandingOf(w.ledger, s), sender, op)
    requires op.WithdrawFromSubscription? || op.CancelSubscription? || op.Withdraw?
    requires !Enter(env, w, sender, gas, op).Refused?
    ensures SameAccount(w.ledger, Enter(env, w, sender, gas, op).world.ledger, s, 0)
  {
    SparesIs(w.ledger, s, sender, op);
    hide LedgerInv, Live, Spares, SameAccount, Send, Accounts.WithdrawFromSubscription, Accounts.CancelSubscription, Accounts.Withdraw;
    match op {
      case WithdrawFromSubscription(i, amount) =>
        WithdrawFromSpares(w.ledger, sender, i, amount, s);
        SentSpares(w, Accounts.WithdrawFromSubscription(w.ledger, sender, i, amount).value, amount, s);
      case CancelSubscription(i) =>
        CancelSpares(w.ledger, sender, i, s);
        var (l, amount) := Accounts.CancelSubscription(w.ledger, sender, i).value;
        SentSpares(w, l, amount, s);
      case Withdraw =>
        WithdrawSpares(w.ledger, sender, s);
        var (l, amount) := Accounts.Withdraw(w.ledger, sender).value;
        SentSpares(w, l, amount, s);
    }
  }

  lemma WithdrawSpares(l: Ledger, sender: Caller, s: SubId)
    requires Accounts.Withdraw(l, sender).Ok?
    ensures SameAccount(l, Accounts.Withdraw(l, sender).value.0, s, 0)
  {}

  lemma PricingSpares(env: Env, w: World, sender: Caller, gas: nat, op: Op, s: SubId)
    requires op.ProposeFees? || op.ApplyFees? || op.CancelFeeChange? || op.TransferOwnership?
      || op.AcceptOwnership? || op.RenounceOwnership?
    requires !Enter(env, w, sender, gas, op).Refused?
    ensures SameAccount(w.ledger, Enter(env, w, sender, gas, op).world.ledger, s, 0)
  {
    hide Coordinator.ProposeFees, ClearPending;
  }

  lemma PlainTickets(env: Env, w: World, e: Entry, gas: nat)
    requires PlainStep(env, w, e, gas) && !e.Refused?
    ensures e.world.tickets == w.tickets
  {
    hide Sound, Steady, SameReservations;
  }

  lemma DepositIs(s: SubId, op: Op)
    ensures Deposits(s).call(op) == if op.FundSubscription? && op.subId == s then op.value else 0
  {}

  lemma SoundIs(env: Env, w: World)
    requires Sound(env, w)
    ensures LedgerInv(w.ledger)
  {}

  /** A call that is not about a request. */
  lemma PlainSpares(env: Env, w: World, sender: Caller, gas: nat, op: Op, s: SubId)
    requires Sound(env, w) && Live(w.ledger.accounts, s) && Spares(s, StandingOf(w.ledger, s), sender, op) && IsPlain(op)
    requires !Enter(env, w, sender, gas, op).Refused?
    ensures var v := Enter(env, w, sender, gas, op).world;
      v.tickets == w.tickets && SameAccount(w.ledger, v.ledger, s, Deposits(s).call(op))
  {
    hide Sound, Live, Spares, Enter, SameAccount, Deposits, StandingOf, PlainStep;
    SoundIs(env, w);
    PlainKeeps(env, w, sender, gas, op);
    PlainTickets(env, w, Enter(env, w, sender, gas, op), gas);
    DepositIs(s, op);
    if op.WithdrawFromSubscription? || op.CancelSubscription? || op.Withdraw? {
      PayingSpares(env, w, sender, gas, op, s);
    } else if op.ProposeFees? || op.ApplyFees? || op.CancelFeeChange? || op.TransferOwnership?
      || op.AcceptOwnership? || op.RenounceOwnership?
    {
      PricingSpares(env, w, sender, gas, op, s);
    } else {
      LedgerSpares(env, w, sender, gas, op, s);
    }
  }

  /** Only one account moves, and only its money. */
  lemma MoneyOnly(l: Ledger, m: Ledger, i: SubId, s: SubId, change: int)
    requires m == l.(accounts := m.accounts, counters := m.counters, withdrawable := m.withdrawable) && OthersSame(l, m, i)
    requires AccountOf(m.accounts, i).owner == AccountOf(l.accounts, i).owner
    requires AccountOf(m.accounts, i).balance == AccountOf(l.accounts, i).balance + change
    ensures SameAccount(l, m, s, if s == i then change else 0)
  {}

  lemma MovesIf(w: World, v: World, s: SubId, change: int, deposit: nat)
    requires SameAccount(w.ledger, v.ledger, s, change) && Spent(v, s) == Spent(w, s) + deposit - change
    ensures AccountMoves(s, w, v, deposit)
  {
    hide Spent, StandingOf;
    SameStanding(w.ledger, v.ledger, s);
  }

  lemma RequestSpares(env: Env, w: World, sender: Caller, gas: nat, q: RequestParams, s: SubId)
    requires Sound(env, w) && NamesOk(env, w) && Enter(env, w, sender, gas, Op.RequestRandomWords(q)).Finished?
    ensures AccountMoves(s, w, Enter(env, w, sender, gas, Op.RequestRandomWords(q)).world, 0)
  {
    NewId(env, w, sender);
    RequestRecords(env, w, sender, gas, q);
    hide Sound, NamesOk, Enter, Payments, Total, Cost, MayRequest, AccountMoves;
    var v := Enter(env, w, sender, gas, Op.RequestRandomWords(q)).world;
    var id := env.requestId(sender, Get(w.nonces, sender));
    SpentAt(w.tickets, id, v.tickets[id], s);
    NoCredits();
    MoneyOnly(w.ledger, v.ledger, q.subId, s, 0);
    MovesIf(w, v, s, 0, 0);
  }

  lemma NewId(env: Env, w: World, sender: Caller)
    requires NamesOk(env, w)
    ensures env.requestId(sender, Get(w.nonces, sender)) !in w.tickets
  {
    var id := env.requestId(sender, Get(w.nonces, sender));
    assert id in w.tickets ==> IdOk(env, w.nonces, id, w.tickets[id]);
  }

  lemma NoCredits()
    ensures Total([]) == 0
  {}

  lemma SettleSpares(env: Env, w: World, sender: Caller, id: RequestId, s: SubId)
    requires Sound(env, w) && SettleRequest(w, sender, id).Ok?
    ensures AccountMoves(s, w, SettleRequest(w, sender, id).value, 0)
  {
    SettleKnown(w, sender, id);
    SettleRecords(w, sender, id);
    hide Sound, SettleRequest, Payments, Total, AccountMoves;
    var v, t := SettleRequest(w, sender, id).value, w.tickets[id];
    SpentAt(w.tickets, id, v.tickets[id], s);
    TotalSnoc(t.credited, Credit(sender, t.req.paid));
    MoneyOnly(w.ledger, v.ledger, t.req.subId, s, 0 - t.req.paid);
    MovesIf(w, v, s, if s == t.req.subId then 0 - t.req.paid else 0, 0);
  }

  lemma RefundSpares(env: Env, w: World, id: RequestId, s: SubId)
    requires Sound(env, w) && Coordinator.Refund(w, id).Ok?
    ensures AccountMoves(s, w, Coordinator.Refund(w, id).value, 0)
  {
    RefundRecords(w, id);
    hide Sound, Coordinator.Refund, Payments, Total, AccountMoves;
    var v, t := Coordinator.Refund(w, id).value, w.tickets[id];
    SpentAt(w.tickets, id, v.tickets[id], s);
    MoneyOnly(w.ledger, v.ledger, t.req.subId, s, 0);
    MovesIf(w, v, s, 0, 0);
  }

  lemma DeliverSpares(w: World, id: RequestId, s: SubId)
    requires id in w.tickets
    ensures AccountMoves(s, w, Deliver(w, id), 0)
  {
    hide Payments, Total, StandingOf;
    SpentAt(w.tickets, id, Deliver(w, id).tickets[id], s);
  }

  lemma PlainMoves(env: Env, w: World, sender: Caller, gas: nat, op: Op, s: SubId)
    requires Sound(env, w) && Live(w.ledger.accounts, s) && Spares(s, StandingOf(w.ledger, s), sender, op) && IsPlain(op)
    requires !Enter(env, w, sender, gas, op).Refused?
    ensures AccountMoves(s, w, Enter(env, w, sender, gas, op).world, Deposits(s).call(op))
  {
    PlainSpares(env, w, sender, gas, op, s);
    hide Sound, Live, Spares, Enter, Deposits, SameAccount, AccountMoves, Sum, Payments;
    MovesIf(w, Enter(env, w, sender, gas, op).world, s, Deposits(s).call(op), Deposits(s).call(op));
  }

  lemma NothingMoves(w: World, s: SubId)
    ensures AccountMoves(s, w, w, 0)
  {}

  /** Every call that goes through. */
  lemma EntryMoves(env: Env, w: World, sender: Caller, gas: nat, op: Op, s: SubId)
    requires Sound(env, w) && NamesOk(env, w) && Live(w.ledger.accounts, s) && Spares(s, StandingOf(w.ledger, s), sender, op)
    requires !Enter(env, w, sender, gas, op).Refused?
    ensures AccountMoves(s, w, Enter(env, w, sender, gas, op).world, Deposits(s).call(op))
  {
    if IsPlain(op) {
      hide *;
      PlainMoves(env, w, sender, gas, op, s);
    } else {
      hide Sound, NamesOk, Live, Spares, AccountMoves, CheckBatch, SettleRequest, Coordinator.Refund,
        Coordinator.RequestRandomWords, VRFVerifier.Verify;
      NothingMoves(w, s);
      match op {
        case RequestRandomWords(q) => RequestSpares(env, w, sender, gas, q, s);
        case FulfillRandomWords(id, _) => SettleSpares(env, w, sender, id, s);
        case Refund(id) => RefundSpares(env, w, id, s);
        case FulfillBatch(_, _) =>
        case RetryCallback(_, _) =>
      }
    }
  }

  lemma AccountIsLawful(env: Env, s: SubId, standing: Standing)
    requires standing.owner != ZERO
    ensures Lawful(env, AccountLaw(s, standing)) && MiningLaw(AccountLaw(s, standing))
  {
    hide *;
    AccountEntries(env, s, standing);
    AccountSettles(env, s, standing);
    AccountDelivers(s, standing);
    AccountMines(s, standing);
    LawfulIf(env, AccountLaw(s, standing));
  }

  lemma AccountEntries(env: Env, s: SubId, standing: Standing)
    requires standing.owner != ZERO
    ensures EntryLaw(env, AccountLaw(s, standing))
  {
    var law := AccountLaw(s, standing);
    forall w, sender, gas: nat, op | Fits(env, w) && law.keeps(w) && law.may(sender, op) && !Enter(env, w, sender, gas, op).Refused?
      ensures EntryLawful(law, w, op, Enter(env, w, sender, gas, op))
    {
      StandingIs(w.ledger, s);
      hide Sound, NamesOk, Enter, Spares, Spent, StandingOf;
      EntryMoves(env, w, sender, gas, op, s);
    }
  }

  lemma AccountSettles(env: Env, s: SubId, standing: Standing)
    ensures SettleLaw(env, AccountLaw(s, standing))
  {
    var law := AccountLaw(s, standing);
    forall w, sender, id | Fits(env, w) && law.keeps(w) && SettleRequest(w, sender, id).Ok?
      ensures law.keeps(SettleRequest(w, sender, id).value)
      ensures law.measure(SettleRequest(w, sender, id).value) == law.measure(w)
    {
      hide Sound, NamesOk, SettleRequest, Spent, StandingOf;
      SettleSpares(env, w, sender, id, s);
    }
  }

  lemma AccountDelivers(s: SubId, standing: Standing)
    ensures DeliverLaw(AccountLaw(s, standing))
  {
    var law := AccountLaw(s, standing);
    forall w, id | law.keeps(w) && id in w.tickets
      ensures law.keeps(Deliver(w, id)) && law.measure(Deliver(w, id)) == law.measure(w) + law.meter.callback(id)
    {
      hide Spent, StandingOf, Deliver;
      DeliverSpares(w, id, s);
    }
  }

  lemma AccountMines(s: SubId, standing: Standing)
    ensures MiningLaw(AccountLaw(s, standing))
  {
    hide StandingOf, Sum, Payments;
  }

  /**
   Over any program, at any depth, as long as the owner of a live account does not use its rights and
   the address it is offered to does not accept: owner, offer and consumers stay, and the balance
   changes by what was deposited and by what its requests have paid.
   */
  lemma AccountSpared(env: Env, w: World, p: Program, bound: nat, s: SubId)
    requires Sound(env, w) && NamesOk(env, w) && Live(w.ledger.accounts, s)
    requires ProgramMakes(p, Sparing(s, StandingOf(w.ledger, s)))
    ensures var v := ExecuteAll(env, w, p, bound);
      && StandingOf(v.ledger, s) == StandingOf(w.ledger, s)
      && AccountOf(v.ledger.accounts, s).balance
           == AccountOf(w.ledger.accounts, s).balance + TallyAll(env, w, p, bound, Deposits(s)) - (Spent(v, s) - Spent(w, s))
  {
    StandingIs(w.ledger, s);
    AccountIsLawful(env, s, StandingOf(w.ledger, s));
    hide Sound, NamesOk, Lawful, ExecuteAll, TallyAll, ProgramMakes, StandingOf, Spent;
    ProgramMoves(env, AccountLaw(s, StandingOf(w.ledger, s)), w, p, bound);
  }

  /** The same over any run. */
  lemma AccountSparedInRuns(env: Env, w: World, txs: seq<Transaction>, s: SubId)
    requires Sound(env, w) && NamesOk(env, w) && Live(w.ledger.accounts, s) && BlocksFit(w.block, txs)
    requires RunMakes(txs, Sparing(s, StandingOf(w.ledger, s)))
    ensures var v := Run(env, w, txs);
      && StandingOf(v.ledger, s) == StandingOf(w.ledger, s)
      && AccountOf(v.ledger.accounts, s).balance
           == AccountOf(w.ledger.accounts, s).balance + TallyRun(env, w, txs, Deposits(s)) - (Spent(v, s) - Spent(w, s))
  {
    StandingIs(w.ledger, s);
    AccountIsLawful(env, s, StandingOf(w.ledger, s));
    hide Sound, NamesOk, Lawful, MiningLaw, Run, TallyRun, RunMakes, StandingOf, Spent;
    RunMoves(env, AccountLaw(s, StandingOf(w.ledger, s)), w, txs);
  }

  // ----- prices and the coordinator's owner

  predicate SparesPrices(p: Pricing, sender: Caller, op: Op) {
    && (op.ProposeFees? || op.CancelFeeChange? || op.TransferOwnership? || op.RenounceOwnership? ==> sender != p.owner)
    && (op.AcceptOwnership? ==> sender != p.pendingOwner)
  }

  function SparingPrices(p: Pricing): (Caller, Op) -> bool { (sender: Caller, op: Op) => SparesPrices(p, sender, op) }

  /** As it was, or with the change that was waiting applied after its notice. */
  predicate PricesStand(p: Pricing, w: World) {
    || w.pricing == p
    || (p.effectiveAt != 0 && w.block >= p.effectiveAt
        && w.pricing == p.(current := p.pending, pending := Fees(0, 0, 0), effectiveAt := 0, proposals := w.pricing.proposals)
        && |w.pricing.proposals| == |p.proposals|)
  }

  function NoMeter(): Meter { Meter(_ => 0, _ => 0) }

  function PriceLaw(p: Pricing): Law {
    Law(SparingPrices(p), (w: World) => PricesStand(p, w), _ => 0, NoMeter())
  }

  lemma PricesEnter(env: Env, p: Pricing, w: World, sender: Caller, gas: nat, op: Op)
    requires Sound(env, w) && PricesStand(p, w) && SparesPrices(p, sender, op) && !Enter(env, w, sender, gas, op).Refused?
    ensures PricesStand(p, Enter(env, w, sender, gas, op).world)
  {
    hide *;
    EveryGoverning(env, w, sender, gas, op);
    AcceptedIff(env, w, sender, gas, op);
    EntryBlock(env, w, sender, gas, op);
    PricesFollow(env, p, w, sender, gas, op, Enter(env, w, sender, gas, op).world);
  }

  lemma EntryBlock(env: Env, w: World, sender: Caller, gas: nat, op: Op)
    requires Sound(env, w) && !Enter(env, w, sender, gas, op).Refused?
    ensures Enter(env, w, sender, gas, op).world.block == w.block
  {
    hide *;
    EveryEntry(env, w, sender, gas, op, gas);
    EntryCarries(env, w, gas, op, Enter(env, w, sender, gas, op));
    CarriesBlock(env, w, Enter(env, w, sender, gas, op).world, [], gas);
  }

  lemma EntryCarries(env: Env, w: World, gas: nat, op: Op, e: Entry)
    requires EntrySound(env, w, gas, op, e, gas) && !e.Refused?
    ensures Carries(env, w, e.world, [], gas)
  {
    hide Carries, WordsFit, Touchable;
  }

  lemma PricesFollow(env: Env, p: Pricing, w: World, sender: Caller, gas: nat, op: Op, v: World)
    requires Sound(env, w) && PricesStand(p, w) && SparesPrices(p, sender, op) && Accepts(env, w, sender, gas, op)
    requires Governs(w, sender, op, v.pricing) && v.block == w.block
    ensures PricesStand(p, v)
  {
    hide LedgerInv, TermsOk, ProposalOk, InEffect;
  }

  lemma PricesAreLawful(env: Env, p: Pricing)
    ensures Lawful(env, PriceLaw(p)) && MiningLaw(PriceLaw(p))
  {
    var law := PriceLaw(p);
    assert EntryLaw(env, law) by {
      forall w, sender, gas: nat, op | Fits(env, w) && law.keeps(w) && law.may(sender, op) && !Enter(env, w, sender, gas, op).Refused?
        ensures EntryLawful(law, w, op, Enter(env, w, sender, gas, op))
      {
        hide Sound, NamesOk, Enter, PricesStand, SparesPrices;
        PricesEnter(env, p, w, sender, gas, op);
      }
    }
    hide EntryLaw, Settle, Fits;
  }

  /**
   Over any run in which neither the coordinator's owner nor whoever it is offered to acts: owner and
   offer stay, no proposal is made or withdrawn, and the price changes at most once, to the one that
   was waiting, once its notice is over.
   */
  lemma PricesSpared(env: Env, w: World, txs: seq<Transaction>)
    requires Sound(env, w) && NamesOk(env, w) && BlocksFit(w.block, txs)
    requires RunMakes(txs, SparingPrices(w.pricing))
    ensures PricesStand(w.pricing, Run(env, w, txs))
  {
    PricesAreLawful(env, w.pricing);
    hide Sound, NamesOk, Lawful, MiningLaw, Run, RunMakes;
    RunMoves(env, PriceLaw(w.pricing), w, txs);
  }
}
