/**
 The prepaid accounts: src/Subscription.sol.

 The contract's storage as a value, and each external function as a function on it that either
 refuses or gives the new storage.  Subscription.dfy proves the object against these functions.
 Mappings are finite maps; an absent entry reads as the zero value, as in the EVM.
 */
module Accounts {
  import opened Common
  import opened Sums

  type Address = nat
  const ZERO: Address := 0
  /** Whoever calls is some account, never the zero address. */
  type Caller = a: Address | a != ZERO witness 1
  type SubId = nat

  const MAX64 := 0xFFFF_FFFF_FFFF_FFFF
  const MAX96 := 0xFFFF_FFFF_FFFF_FFFF_FFFF_FFFF

  datatype Account = Account(owner: Address, balance: nat, reserved: nat)
  datatype Counters = Counters(total: nat, pending: nat)

  datatype Ledger = Ledger(
    lastSubId: SubId,
    accounts: map<SubId, Account>,
    pendingOwners: map<SubId, Address>,
    consumers: set<(SubId, Address)>,
    consumerList: map<SubId, seq<Address>>,
    counters: map<SubId, Counters>,
    withdrawable: map<Address, nat>,
    activeIds: seq<SubId>,
    activeIndex: map<SubId, nat>,
    // the contract's own holding of the chain's coin
    coin: nat)

  const EMPTY := Ledger(0, map[], map[], {}, map[], map[], map[], [], map[], 0)

  datatype Error =
    // Subscription
    | NotCoordinator | NotSubscriptionOwner | NotPendingOwner | NoSuchSubscription | InsufficientBalance
    | DepositTooLarge | FundsReserved | NothingToWithdraw | TransferFailed | SubscriptionIdTooLarge
    // VRFCoordinator
    | BadWordCount | ConsumerNotAuthorized | NoSuchRequest | RequestClosed | InvalidProof | TooEarly
    | InsufficientGas | NotFulfilled | CallbackAlreadyDelivered | NotOwner | FeeAboveCap
    | NoFeeChangePending | UnknownKeyHash | BadRequestConfirmations | BadCallbackGasLimit
    | PriceOverflow | InvalidExtraArgsTag | NativePaymentOnly | EmptyBatch | BatchNotSorted
    // checked arithmetic, ABI decoding, and a caller without the coin it sends
    | Overflow | Underflow | Undecodable | CannotPay

  function AccountOf(accounts: map<SubId, Account>, id: SubId): Account {
    if id in accounts then accounts[id] else Account(ZERO, 0, 0)
  }

  function CountersOf(counters: map<SubId, Counters>, id: SubId): Counters {
    if id in counters then counters[id] else Counters(0, 0)
  }

  function OfferedTo(offers: map<SubId, Address>, id: SubId): Address {
    if id in offers then offers[id] else ZERO
  }

  function ConsumersOf(lists: map<SubId, seq<Address>>, id: SubId): seq<Address> {
    if id in lists then lists[id] else []
  }

  // ----- what owners and sponsors call

  function CreateSubscription(l: Ledger, sender: Caller): Result<Ledger, Error> {
    var id := l.lastSubId + 1;
    if id > MAX64 then Err(Overflow)
    else Ok(l.(lastSubId := id,
               accounts := l.accounts[id := AccountOf(l.accounts, id).(owner := sender)],
               activeIds := l.activeIds + [id],
               activeIndex := l.activeIndex[id := |l.activeIds| + 1]))
  }

  function FundSubscription(l: Ledger, subId: SubId, value: nat): Result<Ledger, Error> {
    var account := AccountOf(l.accounts, subId);
    if subId > MAX64 then Err(SubscriptionIdTooLarge)
    else if account.owner == ZERO then Err(NoSuchSubscription)
    else if value > MAX96 then Err(DepositTooLarge)
    else if account.balance + value > MAX96 then Err(Overflow)
    else Ok(l.(accounts := l.accounts[subId := account.(balance := account.balance + value)],
               coin := l.coin + value))
  }

  /** The onlyOwnerOf modifier. */
  function NotOwnerOf(l: Ledger, sender: Caller, subId: SubId): Option<Error> {
    if subId > MAX64 then Some(SubscriptionIdTooLarge)
    else if AccountOf(l.accounts, subId).owner != sender then Some(NotSubscriptionOwner)
    else None
  }

  /** Up to the transfer of `amount`. */
  function WithdrawFromSubscription(l: Ledger, sender: Caller, subId: SubId, amount: nat): Result<Ledger, Error> {
    var account := AccountOf(l.accounts, subId);
    var refused := NotOwnerOf(l, sender, subId);
    if refused.Some? then Err(refused.value)
    else if account.balance < account.reserved then Err(Underflow)
    else if account.balance - account.reserved < amount then Err(InsufficientBalance)
    else Ok(l.(accounts := l.accounts[subId := account.(balance := account.balance - amount)]))
  }

  function AddConsumer(l: Ledger, sender: Caller, subId: SubId, consumer: Address): Result<Ledger, Error> {
    var refused := NotOwnerOf(l, sender, subId);
    if refused.Some? then Err(refused.value)
    else if (subId, consumer) in l.consumers then Ok(l)
    else Ok(l.(consumers := l.consumers + {(subId, consumer)},
               consumerList := l.consumerList[subId := ConsumersOf(l.consumerList, subId) + [consumer]]))
  }

  /** The first occurrence is overwritten by the last element, and the list shortened by one. */
  function SwapRemove(list: seq<Address>, x: Address): seq<Address> {
    if x in list then
      var i := IndexOf(list, x);
      list[i := list[|list| - 1]][..|list| - 1]
    else list
  }

  function IndexOf(list: seq<Address>, x: Address): (i: nat)
    requires x in list
    ensures i < |list| && list[i] == x && x !in list[..i]
  {
    if list[0] == x then 0 else 1 + IndexOf(list[1..], x)
  }

  function RemoveConsumer(l: Ledger, sender: Caller, subId: SubId, consumer: Address): Result<Ledger, Error> {
    var refused := NotOwnerOf(l, sender, subId);
    if refused.Some? then Err(refused.value)
    else if (subId, consumer) !in l.consumers then Ok(l)
    else Ok(l.(consumers := l.consumers - {(subId, consumer)},
               consumerList := l.consumerList[subId := SwapRemove(ConsumersOf(l.consumerList, subId), consumer)]))
  }

  /** Swap-and-pop out of the list of live accounts. */
  function Deactivate(l: Ledger, id: SubId): Ledger {
    var position, last := Get(l.activeIndex, id), |l.activeIds|;
    if position == 0 || position > last then l
    else
      var moved := l.activeIds[last - 1];
      var ids := l.activeIds[position - 1 := moved];
      l.(activeIds := ids[..last - 1],
         activeIndex := (if position != last then l.activeIndex[moved := position] else l.activeIndex) - {id})
  }

  /** Up to the transfer of what is left, the second result. */
  function CancelSubscription(l: Ledger, sender: Caller, subId: SubId): Result<(Ledger, nat), Error> {
    var account := AccountOf(l.accounts, subId);
    var refused := NotOwnerOf(l, sender, subId);
    if refused.Some? then Err(refused.value)
    else if account.reserved != 0 || CountersOf(l.counters, subId).pending != 0 then Err(FundsReserved)
    else
      var closed := l.(accounts := l.accounts - {subId},
                       consumerList := l.consumerList - {subId},
                       counters := l.counters - {subId},
                       pendingOwners := l.pendingOwners - {subId});
      Ok((Deactivate(closed, subId), account.balance))
  }

  function RequestOwnerTransfer(l: Ledger, sender: Caller, subId: SubId, newOwner: Address): Result<Ledger, Error> {
    var refused := NotOwnerOf(l, sender, subId);
    if refused.Some? then Err(refused.value)
    else Ok(l.(pendingOwners := l.pendingOwners[subId := newOwner]))
  }

  function AcceptOwnerTransfer(l: Ledger, sender: Caller, subId: SubId): Result<Ledger, Error> {
    if subId > MAX64 then Err(SubscriptionIdTooLarge)
    else if OfferedTo(l.pendingOwners, subId) != sender then Err(NotPendingOwner)
    else Ok(l.(accounts := l.accounts[subId := AccountOf(l.accounts, subId).(owner := sender)],
               pendingOwners := l.pendingOwners - {subId}))
  }

  /** Up to the transfer of what was owed, the second result. */
  function Withdraw(l: Ledger, sender: Caller): Result<(Ledger, nat), Error> {
    var amount := Get(l.withdrawable, sender);
    if amount == 0 then Err(NothingToWithdraw)
    else Ok((l.(withdrawable := l.withdrawable[sender := 0]), amount))
  }

  // ----- what only the coordinator calls

  function Reserve(l: Ledger, subId: SubId, amount: nat): Result<Ledger, Error> {
    var account, counters := AccountOf(l.accounts, subId), CountersOf(l.counters, subId);
    if subId > MAX64 then Err(SubscriptionIdTooLarge)
    else if account.balance < account.reserved then Err(Underflow)
    else if account.balance - account.reserved < amount then Err(InsufficientBalance)
    else if counters.total >= MAX64 || counters.pending >= MAX64 then Err(Overflow)
    else Ok(l.(accounts := l.accounts[subId := account.(reserved := account.reserved + amount)],
               counters := l.counters[subId := Counters(counters.total + 1, counters.pending + 1)]))
  }

  function CloseOne(l: Ledger, id: SubId): Ledger {
    var c := CountersOf(l.counters, id);
    if c.pending != 0 then l.(counters := l.counters[id := c.(pending := c.pending - 1)]) else l
  }

  function Release(l: Ledger, subId: SubId, amount: nat): Result<Ledger, Error> {
    var account := AccountOf(l.accounts, subId);
    if subId > MAX64 then Err(SubscriptionIdTooLarge)
    else if account.reserved < amount then Err(Underflow)
    else Ok(CloseOne(l.(accounts := l.accounts[subId := account.(reserved := account.reserved - amount)]), subId))
  }

  function Settle(l: Ledger, subId: SubId, amount: nat, payee: Address): Result<Ledger, Error> {
    var account, owed := AccountOf(l.accounts, subId), Get(l.withdrawable, payee);
    if subId > MAX64 then Err(SubscriptionIdTooLarge)
    else if account.reserved < amount || account.balance < amount then Err(Underflow)
    else if owed + amount > MAX96 then Err(Overflow)
    else Ok(CloseOne(l.(
        accounts := l.accounts[subId := account.(reserved := account.reserved - amount, balance := account.balance - amount)],
        withdrawable := l.withdrawable[payee := owed + amount]), subId))
  }

  // ----- what is true of the ledger in every reachable state

  predicate Live(accounts: map<SubId, Account>, id: SubId) {
    AccountOf(accounts, id).owner != ZERO
  }

  /** The list of live accounts and its index agree with the owners. */
  ghost predicate ActiveInv(accounts: map<SubId, Account>, ids: seq<SubId>, index: map<SubId, nat>) {
    && Distinct(ids)
    && (forall id: SubId :: id in ids <==> Live(accounts, id))
    && (forall k | 0 <= k < |ids| :: Get(index, ids[k]) == k + 1)
    && (forall id: SubId :: id !in ids ==> Get(index, id) == 0)
  }

  /** A standing offer is for a live account; ids not handed out yet are blank. */
  ghost predicate OwnersInv(last: SubId, accounts: map<SubId, Account>, offers: map<SubId, Address>) {
    && last <= MAX64
    && (forall id: SubId :: OfferedTo(offers, id) != ZERO ==> Live(accounts, id))
    && (forall id: SubId :: Live(accounts, id) ==> 1 <= id <= last)
  }

  /** A live account's consumer list is the set of its consumers, each once. */
  ghost predicate ConsumersInv(last: SubId, accounts: map<SubId, Account>, consumers: set<(SubId, Address)>,
      lists: map<SubId, seq<Address>>)
  {
    && (forall id: SubId, c: Address :: (id, c) in consumers ==> id <= last)
    && (forall id: SubId :: ConsumersOf(lists, id) != [] ==> id <= last)
    && (forall id: SubId :: Live(accounts, id) ==> Distinct(ConsumersOf(lists, id)))
    && (forall id: SubId, c: Address ::
          Live(accounts, id) ==> (c in ConsumersOf(lists, id) <==> (id, c) in consumers))
  }

  ghost function Balances(accounts: map<SubId, Account>): map<SubId, nat> {
    map id | id in accounts :: accounts[id].balance
  }

  /** Every coin held is some account's balance or some payee's credit. */
  ghost predicate MoneyInv(accounts: map<SubId, Account>, withdrawable: map<Address, nat>, coin: int) {
    && coin == Sum(Balances(accounts)) + Sum(withdrawable)
    && (forall id: SubId :: AccountOf(accounts, id).reserved <= AccountOf(accounts, id).balance)
  }

  ghost predicate IndexInv(l: Ledger) {
    && ActiveInv(l.accounts, l.activeIds, l.activeIndex)
    && OwnersInv(l.lastSubId, l.accounts, l.pendingOwners)
    && ConsumersInv(l.lastSubId, l.accounts, l.consumers, l.consumerList)
  }

  ghost predicate LedgerInv(l: Ledger) {
    IndexInv(l) && MoneyInv(l.accounts, l.withdrawable, l.coin)
  }

  /** Ids only grow, and an id that was handed out and is not live stays dead. */
  ghost predicate LedgerEvolves(l: Ledger, m: Ledger) {
    && l.lastSubId <= m.lastSubId
    && (forall id: SubId :: id <= l.lastSubId && !Live(l.accounts, id) ==> !Live(m.accounts, id))
  }

  /** Nothing behind an open request moves. */
  ghost predicate SameReservations(l: Ledger, m: Ledger) {
    && (forall id: SubId :: AccountOf(m.accounts, id).reserved == AccountOf(l.accounts, id).reserved)
    && (forall id: SubId :: CountersOf(m.counters, id).pending == CountersOf(l.counters, id).pending)
  }

  /** What an owner's or payee's call guarantees; `out` is the coin still to be sent on. */
  ghost predicate Kept(l: Ledger, m: Ledger, out: nat) {
    IndexInv(m) && MoneyInv(m.accounts, m.withdrawable, m.coin - out) && LedgerEvolves(l, m) && SameReservations(l, m)
  }

  /** Only account `id` changes. */
  ghost predicate OthersSame(l: Ledger, m: Ledger, id: SubId) {
    forall i: SubId | i != id :: AccountOf(m.accounts, i) == AccountOf(l.accounts, i)
  }

  /** Nothing about who owns or consumes what changes. */
  ghost predicate SameIndex(l: Ledger, m: Ledger) {
    && m.lastSubId == l.lastSubId && m.pendingOwners == l.pendingOwners
    && m.consumers == l.consumers && m.consumerList == l.consumerList
    && m.activeIds == l.activeIds && m.activeIndex == l.activeIndex
    && (forall id: SubId :: AccountOf(m.accounts, id).owner == AccountOf(l.accounts, id).owner)
  }

  lemma IndexUnmoved(l: Ledger, m: Ledger)
    requires IndexInv(l) && SameIndex(l, m)
    ensures IndexInv(m) && LedgerEvolves(l, m)
  {
    assert forall id: SubId :: Live(m.accounts, id) <==> Live(l.accounts, id);
  }

  lemma SetBalance(accounts: map<SubId, Account>, id: SubId, a: Account)
    ensures Sum(Balances(accounts[id := a]))
      == Sum(Balances(accounts)) - (if id in accounts then accounts[id].balance else 0) + a.balance
  {
    SumSet(Balances(accounts), id, a.balance);
    assert Balances(accounts[id := a]) == Balances(accounts)[id := a.balance];
  }

  lemma DropBalance(accounts: map<SubId, Account>, id: SubId)
    requires id in accounts
    ensures Sum(Balances(accounts)) == accounts[id].balance + Sum(Balances(accounts - {id}))
  {
    SumRemove(Balances(accounts), id);
    assert Balances(accounts - {id}) == Balances(accounts) - {id};
  }

  lemma CreateActive(l: Ledger, sender: Caller)
    requires IndexInv(l) && CreateSubscription(l, sender).Ok?
    ensures var m := CreateSubscription(l, sender).value;
      && ActiveInv(m.accounts, m.activeIds, m.activeIndex)
      && (forall i: SubId :: Live(m.accounts, i) <==> Live(l.accounts, i) || i == m.lastSubId)
  {
    var m := CreateSubscription(l, sender).value;
    var id := m.lastSubId;
    assert !Live(l.accounts, id);
    hide ConsumersInv;
    assert forall i: SubId :: Live(m.accounts, i) <==> Live(l.accounts, i) || i == id;
    assert forall i: SubId :: i in m.activeIds <==> i in l.activeIds || i == id;
  }

  lemma CreateIndex(l: Ledger, sender: Caller)
    requires IndexInv(l) && CreateSubscription(l, sender).Ok?
    ensures IndexInv(CreateSubscription(l, sender).value)
  {
    var m := CreateSubscription(l, sender).value;
    CreateActive(l, sender);
    hide ActiveInv;
    assert ConsumersOf(m.consumerList, m.lastSubId) == [];
  }

  lemma CreateKeeps(l: Ledger, sender: Caller)
    requires LedgerInv(l) && CreateSubscription(l, sender).Ok?
    ensures var m := CreateSubscription(l, sender).value;
      && LedgerInv(m) && Kept(l, m, 0) && m.lastSubId == l.lastSubId + 1
      && !Live(l.accounts, m.lastSubId) && AccountOf(m.accounts, m.lastSubId) == AccountOf(l.accounts, m.lastSubId).(owner := sender)
      && OthersSame(l, m, m.lastSubId)
      && m == l.(lastSubId := m.lastSubId, accounts := m.accounts, activeIds := m.activeIds, activeIndex := m.activeIndex)
  {
    hide ActiveInv, ConsumersInv, Sum;
    var m := CreateSubscription(l, sender).value;
    var id := m.lastSubId;
    CreateIndex(l, sender);
    SetBalance(l.accounts, id, m.accounts[id]);
    SetAccount(l.accounts, id, m.accounts[id], m.accounts);
  }

  lemma SetAccount(accounts: map<SubId, Account>, id: SubId, a: Account, updated: map<SubId, Account>)
    requires updated == accounts[id := a]
    ensures AccountOf(updated, id) == a
    ensures forall i: SubId | i != id :: AccountOf(updated, i) == AccountOf(accounts, i)
  {
    forall i: SubId | i != id ensures AccountOf(updated, i) == AccountOf(accounts, i) {
      assert i in updated <==> i in accounts;
    }
  }

  lemma FundKeeps(l: Ledger, subId: SubId, value: nat)
    requires LedgerInv(l) && FundSubscription(l, subId, value).Ok?
    ensures var m, account := FundSubscription(l, subId, value).value, AccountOf(l.accounts, subId);
      && LedgerInv(m) && Kept(l, m, 0) && account.owner != ZERO
      && AccountOf(m.accounts, subId) == account.(balance := account.balance + value) && OthersSame(l, m, subId)
      && m == l.(accounts := m.accounts, coin := l.coin + value)
  {
    hide ActiveInv, OwnersInv, ConsumersInv, Sum;
    var m := FundSubscription(l, subId, value).value;
    SetBalance(l.accounts, subId, m.accounts[subId]);
    IndexUnmoved(l, m);
  }

  lemma WithdrawFromKeeps(l: Ledger, sender: Caller, subId: SubId, amount: nat)
    requires LedgerInv(l) && WithdrawFromSubscription(l, sender, subId, amount).Ok?
    ensures var m, account := WithdrawFromSubscription(l, sender, subId, amount).value, AccountOf(l.accounts, subId);
      && Kept(l, m, amount) && account.owner == sender && account.reserved + amount <= account.balance
      && AccountOf(m.accounts, subId) == account.(balance := account.balance - amount) && OthersSame(l, m, subId)
      && m == l.(accounts := m.accounts)
  {
    hide ActiveInv, OwnersInv, ConsumersInv, Sum;
    var m := WithdrawFromSubscription(l, sender, subId, amount).value;
    SetBalance(l.accounts, subId, m.accounts[subId]);
    IndexUnmoved(l, m);
  }

  lemma AddConsumerKeeps(l: Ledger, sender: Caller, subId: SubId, consumer: Address)
    requires LedgerInv(l) && AddConsumer(l, sender, subId, consumer).Ok?
    ensures var m := AddConsumer(l, sender, subId, consumer).value;
      && LedgerInv(m) && Kept(l, m, 0) && AccountOf(l.accounts, subId).owner == sender
      && m == l.(consumers := l.consumers + {(subId, consumer)}, consumerList := m.consumerList)
      && forall i: SubId | i != subId :: ConsumersOf(m.consumerList, i) == ConsumersOf(l.consumerList, i)
  {
    hide ActiveInv, MoneyInv;
    var m := AddConsumer(l, sender, subId, consumer).value;
    assert Live(l.accounts, subId);
    assert forall i: SubId :: i != subId ==> ConsumersOf(m.consumerList, i) == ConsumersOf(l.consumerList, i);
  }

  lemma SwapRemoveIs(list: seq<Address>, x: Address)
    requires Distinct(list) && x in list
    ensures Distinct(SwapRemove(list, x))
    ensures forall c: Address :: c in SwapRemove(list, x) <==> c in list && c != x
  {
    var i, n := IndexOf(list, x), |list| - 1;
    var out := SwapRemove(list, x);
    forall c: Address ensures c in out <==> c in list && c != x {
      if c in out {
        var k :| 0 <= k < n && out[k] == c;
        assert c == if k == i then list[n] else list[k];
      }
      if c in list && c != x {
        var k :| 0 <= k <= n && list[k] == c;
        assert out[if k == n then i else k] == c;
      }
    }
  }

  lemma RemoveConsumerKeeps(l: Ledger, sender: Caller, subId: SubId, consumer: Address)
    requires LedgerInv(l) && RemoveConsumer(l, sender, subId, consumer).Ok?
    ensures var m := RemoveConsumer(l, sender, subId, consumer).value;
      && LedgerInv(m) && Kept(l, m, 0) && AccountOf(l.accounts, subId).owner == sender
      && m == l.(consumers := l.consumers - {(subId, consumer)}, consumerList := m.consumerList)
      && forall i: SubId | i != subId :: ConsumersOf(m.consumerList, i) == ConsumersOf(l.consumerList, i)
  {
    var m := RemoveConsumer(l, sender, subId, consumer).value;
    assert Live(l.accounts, subId);
    assert forall i: SubId :: i != subId ==> ConsumersOf(m.consumerList, i) == ConsumersOf(l.consumerList, i);
    if (subId, consumer) in l.consumers {
      SwapRemoveIs(ConsumersOf(l.consumerList, subId), consumer);
    }
  }

  lemma SwapPopMembers(ids: seq<SubId>, p: nat)
    requires Distinct(ids) && p < |ids|
    ensures var out := ids[p := ids[|ids| - 1]][..|ids| - 1];
      Distinct(out) && forall i: SubId :: i in out <==> i in ids && i != ids[p]
  {
    var n := |ids| - 1;
    var out := ids[p := ids[n]][..n];
    forall i: SubId ensures i in out <==> i in ids && i != ids[p] {
      if i in out {
        var k :| 0 <= k < n && out[k] == i;
        assert i == if k == p then ids[n] else ids[k];
      }
      if i in ids && i != ids[p] {
        var k :| 0 <= k <= n && ids[k] == i;
        assert out[if k == n then p else k] == i;
      }
    }
  }

  lemma DeactivateIs(l: Ledger, id: SubId, p: nat)
    requires p < |l.activeIds| && l.activeIds[p] == id && Get(l.activeIndex, id) == p + 1
    ensures var m, n := Deactivate(l, id), |l.activeIds| - 1;
      && m.activeIds == l.activeIds[p := l.activeIds[n]][..n]
      && (forall i: SubId :: Get(m.activeIndex, i) ==
            if i == id then 0 else if p != n && i == l.activeIds[n] then p + 1 else Get(l.activeIndex, i))
  {}

  /** Swap-and-pop keeps the list and its index in step. */
  lemma DeactivateKeeps(l: Ledger, id: SubId, accounts: map<SubId, Account>)
    requires ActiveInv(l.accounts, l.activeIds, l.activeIndex) && id in l.activeIds
    requires forall i: SubId :: Live(accounts, i) <==> Live(l.accounts, i) && i != id
    ensures var m := Deactivate(l, id); ActiveInv(accounts, m.activeIds, m.activeIndex)
  {
    var p :| 0 <= p < |l.activeIds| && l.activeIds[p] == id;
    assert Get(l.activeIndex, id) == p + 1;
    hide *;
    var m := Deactivate(l, id);
    DeactivateIs(l, id, p);
    ActiveDistinct(l);
    SwapPopMembers(l.activeIds, p);
    Reindexed(l, m, id, p);
    ActiveIf(l, m, id, accounts);
  }

  lemma ActiveDistinct(l: Ledger)
    requires ActiveInv(l.accounts, l.activeIds, l.activeIndex)
    ensures Distinct(l.activeIds)
  {}

  /** Every id left in the list is indexed by its place, and no other id is. */
  lemma Reindexed(l: Ledger, m: Ledger, id: SubId, p: nat)
    requires ActiveInv(l.accounts, l.activeIds, l.activeIndex) && p < |l.activeIds| && l.activeIds[p] == id
    requires var n := |l.activeIds| - 1;
      && m.activeIds == l.activeIds[p := l.activeIds[n]][..n]
      && (forall i: SubId :: Get(m.activeIndex, i) ==
            if i == id then 0 else if p != n && i == l.activeIds[n] then p + 1 else Get(l.activeIndex, i))
    requires forall i: SubId :: i in m.activeIds <==> i in l.activeIds && i != id
    ensures forall k | 0 <= k < |m.activeIds| :: Get(m.activeIndex, m.activeIds[k]) == k + 1
    ensures forall i: SubId :: i !in m.activeIds ==> Get(m.activeIndex, i) == 0
  {
    hide Live, Get;
    var n := |l.activeIds| - 1;
    forall k | 0 <= k < |m.activeIds| ensures Get(m.activeIndex, m.activeIds[k]) == k + 1 {
      assert m.activeIds[k] == if k == p then l.activeIds[n] else l.activeIds[k];
    }
    forall i: SubId | i !in m.activeIds ensures Get(m.activeIndex, i) == 0 {
      assert i == id || i !in l.activeIds;
    }
  }

  lemma ActiveIf(l: Ledger, m: Ledger, id: SubId, accounts: map<SubId, Account>)
    requires ActiveInv(l.accounts, l.activeIds, l.activeIndex) && Distinct(m.activeIds)
    requires forall i: SubId :: Live(accounts, i) <==> Live(l.accounts, i) && i != id
    requires forall i: SubId :: i in m.activeIds <==> i in l.activeIds && i != id
    requires forall k | 0 <= k < |m.activeIds| :: Get(m.activeIndex, m.activeIds[k]) == k + 1
    requires forall i: SubId :: i !in m.activeIds ==> Get(m.activeIndex, i) == 0
    ensures ActiveInv(accounts, m.activeIds, m.activeIndex)
  {
    hide Live, Get, Distinct;
  }

  lemma CancelMoney(l: Ledger, m: Ledger, subId: SubId)
    requires MoneyInv(l.accounts, l.withdrawable, l.coin) && Live(l.accounts, subId)
    requires AccountOf(l.accounts, subId).reserved == 0 && CountersOf(l.counters, subId).pending == 0
    requires m.accounts == l.accounts - {subId} && m.counters == l.counters - {subId}
    requires m.withdrawable == l.withdrawable
    ensures MoneyInv(m.accounts, m.withdrawable, l.coin - AccountOf(l.accounts, subId).balance)
    ensures SameReservations(l, m)
  {
    hide Sum;
    DropBalance(l.accounts, subId);
    assert forall i: SubId :: (AccountOf(m.accounts, i) ==
      if i == subId then Account(ZERO, 0, 0) else AccountOf(l.accounts, i));
    assert forall i: SubId :: (CountersOf(m.counters, i) ==
      if i == subId then Counters(0, 0) else CountersOf(l.counters, i));
  }

  lemma CancelIndex(l: Ledger, m: Ledger, subId: SubId)
    requires IndexInv(l) && m.lastSubId == l.lastSubId && m.consumers == l.consumers
    requires m.accounts == l.accounts - {subId}
    requires m.consumerList == l.consumerList - {subId} && m.pendingOwners == l.pendingOwners - {subId}
    ensures OwnersInv(m.lastSubId, m.accounts, m.pendingOwners)
    ensures ConsumersInv(m.lastSubId, m.accounts, m.consumers, m.consumerList)
    ensures forall i: SubId :: Live(m.accounts, i) <==> Live(l.accounts, i) && i != subId
    ensures LedgerEvolves(l, m) && OfferedTo(m.pendingOwners, subId) == ZERO
  {
    hide ActiveInv;
    assert forall i: SubId :: Live(m.accounts, i) <==> Live(l.accounts, i) && i != subId;
    assert forall i: SubId :: (ConsumersOf(m.consumerList, i) ==
      if i == subId then [] else ConsumersOf(l.consumerList, i));
    assert forall i: SubId :: (OfferedTo(m.pendingOwners, i) ==
      if i == subId then ZERO else OfferedTo(l.pendingOwners, i));
  }

  lemma CancelKeeps(l: Ledger, sender: Caller, subId: SubId)
    requires LedgerInv(l) && CancelSubscription(l, sender, subId).Ok?
    ensures var (m, amount) := CancelSubscription(l, sender, subId).value;
      && Kept(l, m, amount) && AccountOf(l.accounts, subId).owner == sender
      && amount == AccountOf(l.accounts, subId).balance && AccountOf(l.accounts, subId).reserved == 0
      && !Live(m.accounts, subId) && OfferedTo(m.pendingOwners, subId) == ZERO && OthersSame(l, m, subId)
      && (forall i: SubId | i != subId :: OfferedTo(m.pendingOwners, i) == OfferedTo(l.pendingOwners, i))
      && m == l.(accounts := m.accounts, consumerList := l.consumerList - {subId}, counters := m.counters,
                 pendingOwners := m.pendingOwners, activeIds := m.activeIds, activeIndex := m.activeIndex)
  {
    hide OwnersInv, ConsumersInv, MoneyInv;
    var (m, amount) := CancelSubscription(l, sender, subId).value;
    assert Live(l.accounts, subId);
    CancelMoney(l, m, subId);
    CancelIndex(l, m, subId);
    assert m.activeIds == Deactivate(l, subId).activeIds && m.activeIndex == Deactivate(l, subId).activeIndex;
    assert subId in l.activeIds;
    hide Deactivate, Live, Distinct, ActiveInv, LedgerEvolves, SameReservations;
    DeactivateKeeps(l, subId, m.accounts);
  }

  lemma OfferKeeps(l: Ledger, sender: Caller, subId: SubId, newOwner: Address)
    requires LedgerInv(l) && RequestOwnerTransfer(l, sender, subId, newOwner).Ok?
    ensures var m := RequestOwnerTransfer(l, sender, subId, newOwner).value;
      && LedgerInv(m) && Kept(l, m, 0) && AccountOf(l.accounts, subId).owner == sender
      && OfferedTo(m.pendingOwners, subId) == newOwner
      && (forall i: SubId | i != subId :: OfferedTo(m.pendingOwners, i) == OfferedTo(l.pendingOwners, i))
      && m == l.(pendingOwners := m.pendingOwners)
  {
    var m := RequestOwnerTransfer(l, sender, subId, newOwner).value;
  }

  lemma AcceptKeeps(l: Ledger, sender: Caller, subId: SubId)
    requires LedgerInv(l) && AcceptOwnerTransfer(l, sender, subId).Ok?
    ensures var m := AcceptOwnerTransfer(l, sender, subId).value;
      && LedgerInv(m) && Kept(l, m, 0) && OfferedTo(l.pendingOwners, subId) == sender
      && AccountOf(m.accounts, subId) == AccountOf(l.accounts, subId).(owner := sender) && OthersSame(l, m, subId)
      && OfferedTo(m.pendingOwners, subId) == ZERO
      && (forall i: SubId | i != subId :: OfferedTo(m.pendingOwners, i) == OfferedTo(l.pendingOwners, i))
      && m == l.(accounts := m.accounts, pendingOwners := m.pendingOwners)
  {
    var m := AcceptOwnerTransfer(l, sender, subId).value;
    assert Live(l.accounts, subId);
    SetBalance(l.accounts, subId, m.accounts[subId]);
    SetAccount(l.accounts, subId, m.accounts[subId], m.accounts);
    assert forall i: SubId :: Live(m.accounts, i) <==> Live(l.accounts, i);
  }

  lemma WithdrawKeeps(l: Ledger, sender: Caller)
    requires LedgerInv(l) && Withdraw(l, sender).Ok?
    ensures var (m, amount) := Withdraw(l, sender).value;
      && Kept(l, m, amount) && m == l.(withdrawable := m.withdrawable)
      && amount == Get(l.withdrawable, sender) && amount > 0 && Get(m.withdrawable, sender) == 0
      && (forall a: Address | a != sender :: Get(m.withdrawable, a) == Get(l.withdrawable, a))
  {
    hide ActiveInv, OwnersInv, ConsumersInv, Sum;
    var (m, amount) := Withdraw(l, sender).value;
    SumSet(l.withdrawable, sender, 0);
    IndexUnmoved(l, m);
  }

  // ----- the coordinator's three moves

  /** Only account `id` moves: its reservation by `reserved`, its count of open requests by `pending`. */
  ghost predicate Moves(l: Ledger, m: Ledger, id: SubId, reserved: int, pending: int) {
    && LedgerInv(m) && LedgerEvolves(l, m)
    && m == l.(accounts := m.accounts, counters := m.counters, withdrawable := m.withdrawable)
    && AccountOf(m.accounts, id).owner == AccountOf(l.accounts, id).owner
    && AccountOf(m.accounts, id).reserved == AccountOf(l.accounts, id).reserved + reserved
    && CountersOf(m.counters, id).pending == CountersOf(l.counters, id).pending + pending
    && (forall i: SubId :: i != id ==> AccountOf(m.accounts, i) == AccountOf(l.accounts, i) && CountersOf(m.counters, i) == CountersOf(l.counters, i))
  }

  /** The count of open requests stops at zero. */
  function OneLess(l: Ledger, id: SubId): int {
    if CountersOf(l.counters, id).pending > 0 then -1 else 0
  }

  lemma CloseOneIs(l: Ledger, id: SubId)
    ensures var m := CloseOne(l, id);
      && m == l.(counters := m.counters)
      && CountersOf(m.counters, id).pending == CountersOf(l.counters, id).pending + OneLess(l, id)
      && (forall i: SubId :: i != id ==> CountersOf(m.counters, i) == CountersOf(l.counters, i))
  {}

  /** One account changes, in step with what is owed to payees. */
  lemma OneAccountMoves(l: Ledger, m: Ledger, id: SubId, a: Account)
    requires LedgerInv(l) && a.owner == AccountOf(l.accounts, id).owner && a.reserved <= a.balance
    requires m == l.(accounts := l.accounts[id := a], withdrawable := m.withdrawable, counters := m.counters)
    requires Sum(m.withdrawable) + a.balance == Sum(l.withdrawable) + AccountOf(l.accounts, id).balance
    ensures LedgerInv(m) && LedgerEvolves(l, m)
    ensures AccountOf(m.accounts, id) == a
    ensures forall i: SubId | i != id :: AccountOf(m.accounts, i) == AccountOf(l.accounts, i)
  {
    hide ActiveInv, OwnersInv, ConsumersInv, Sum;
    SetBalance(l.accounts, id, a);
    SetAccount(l.accounts, id, a, m.accounts);
    IndexUnmoved(l, m);
  }

  lemma ReserveKeeps(l: Ledger, subId: SubId, amount: nat)
    requires LedgerInv(l) && Reserve(l, subId, amount).Ok?
    ensures var m, account := Reserve(l, subId, amount).value, AccountOf(l.accounts, subId);
      && Moves(l, m, subId, amount, 1) && account.reserved + amount <= account.balance
      && AccountOf(m.accounts, subId).balance == account.balance && m.withdrawable == l.withdrawable
  {
    hide IndexInv, MoneyInv, Sum;
    var m := Reserve(l, subId, amount).value;
    OneAccountMoves(l, m, subId, m.accounts[subId]);
    hide LedgerInv, LedgerEvolves;
  }

  lemma ReleaseKeeps(l: Ledger, subId: SubId, amount: nat)
    requires LedgerInv(l) && Release(l, subId, amount).Ok?
    ensures var m, account := Release(l, subId, amount).value, AccountOf(l.accounts, subId);
      && Moves(l, m, subId, 0 - amount, OneLess(l, subId)) && amount <= account.reserved
      && AccountOf(m.accounts, subId).balance == account.balance && m.withdrawable == l.withdrawable
  {
    assert AccountOf(l.accounts, subId).reserved <= AccountOf(l.accounts, subId).balance;
    hide IndexInv, MoneyInv, Sum;
    var account := AccountOf(l.accounts, subId);
    var a := account.(reserved := account.reserved - amount);
    var m := Release(l, subId, amount).value;
    CloseOneIs(l.(accounts := l.accounts[subId := a]), subId);
    hide CloseOne;
    OneAccountMoves(l, m, subId, a);
    hide LedgerInv, LedgerEvolves;
  }

  lemma SettleKeeps(l: Ledger, subId: SubId, amount: nat, payee: Address)
    requires LedgerInv(l) && Settle(l, subId, amount, payee).Ok?
    ensures var m := Settle(l, subId, amount, payee).value;
      && Moves(l, m, subId, 0 - amount, OneLess(l, subId))
      && AccountOf(m.accounts, subId).balance == AccountOf(l.accounts, subId).balance - amount
      && m.withdrawable == l.withdrawable[payee := Get(l.withdrawable, payee) + amount]
  {
    SettleIs(l, subId, amount, payee);
    assert amount <= AccountOf(l.accounts, subId).reserved && amount <= AccountOf(l.accounts, subId).balance;
    hide Settle, CloseOne, Sum, LedgerInv, LedgerEvolves;
    var paid := Paid(l, subId, amount, payee);
    PaidKeeps(l, subId, amount, payee);
    CloseOneIs(paid, subId);
    OnlyCounters(l, paid, CloseOne(paid, subId));
    hide AccountOf, CountersOf, Get;
  }

  /** Counters are not money. */
  lemma OnlyCounters(l: Ledger, m: Ledger, v: Ledger)
    requires LedgerInv(m) && LedgerEvolves(l, m) && v == m.(counters := v.counters)
    ensures LedgerInv(v) && LedgerEvolves(l, v)
  {}

  lemma PaidKeeps(l: Ledger, subId: SubId, amount: nat, payee: Address)
    requires LedgerInv(l)
    requires amount <= AccountOf(l.accounts, subId).reserved && amount <= AccountOf(l.accounts, subId).balance
    ensures var m, account := Paid(l, subId, amount, payee), AccountOf(l.accounts, subId);
      && LedgerInv(m) && LedgerEvolves(l, m)
      && AccountOf(m.accounts, subId)
           == account.(reserved := account.reserved - amount, balance := account.balance - amount)
      && (forall i: SubId | i != subId :: AccountOf(m.accounts, i) == AccountOf(l.accounts, i))
  {
    var account, m := AccountOf(l.accounts, subId), Paid(l, subId, amount, payee);
    assert account.reserved <= account.balance;
    hide LedgerInv, LedgerEvolves, Sum;
    SumSet(l.withdrawable, payee, Get(l.withdrawable, payee) + amount);
    OneAccountMoves(l, m, subId, account.(reserved := account.reserved - amount, balance := account.balance - amount));
  }

  /** The account is debited and the payee credited. */
  function Paid(l: Ledger, subId: SubId, amount: nat, payee: Address): Ledger
    requires amount <= AccountOf(l.accounts, subId).reserved && amount <= AccountOf(l.accounts, subId).balance
  {
    var account := AccountOf(l.accounts, subId);
    l.(accounts := l.accounts[subId := account.(reserved := account.reserved - amount, balance := account.balance - amount)],
       withdrawable := l.withdrawable[payee := Get(l.withdrawable, payee) + amount])
  }

  lemma SettleIs(l: Ledger, subId: SubId, amount: nat, payee: Address)
    requires Settle(l, subId, amount, payee).Ok?
    ensures amount <= AccountOf(l.accounts, subId).reserved && amount <= AccountOf(l.accounts, subId).balance
    ensures Settle(l, subId, amount, payee) == Ok(CloseOne(Paid(l, subId, amount, payee), subId))
  {
    hide CloseOne;
  }

  /** With the coin supply within 96 bits, a reservation that is there can always be spent. */
  lemma SettleFits(l: Ledger, subId: SubId, amount: nat, payee: Address)
    requires LedgerInv(l) && amount <= AccountOf(l.accounts, subId).reserved
    ensures amount <= AccountOf(l.accounts, subId).balance
    ensures Get(l.withdrawable, payee) + amount <= l.coin
    ensures subId <= MAX64 && l.coin <= MAX96 ==> Settle(l, subId, amount, payee).Ok?
  {
    SumSet(l.withdrawable, payee, 0);
    if subId in l.accounts {
      DropBalance(l.accounts, subId);
    }
    hide Sum, CloseOne;
  }
}
