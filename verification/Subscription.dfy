/** The ledger as an object: src/Subscription.sol, function for function, against Accounts.dfy. */
module SubscriptionContract {
  import opened Common
  import opened Sums
  import opened Accounts

  lemma EmptyInv()
    ensures LedgerInv(EMPTY)
  {
    assert Balances(map[]) == map[];
  }

  class Subscription {
    const coordinator: Address
    var lastSubId: SubId
    var accounts: map<SubId, Account>
    var pendingOwners: map<SubId, Address>
    var consumers: set<(SubId, Address)>
    var consumerList: map<SubId, seq<Address>>
    var counters: map<SubId, Counters>
    var withdrawable: map<Address, nat>
    var activeIds: seq<SubId>
    var activeIndex: map<SubId, nat>
    var coin: nat

    function View(): Ledger
      reads this
    {
      Ledger(lastSubId, accounts, pendingOwners, consumers, consumerList, counters, withdrawable, activeIds,
             activeIndex, coin)
    }

    /** The coin adds up, and list, index, owners and consumers agree. */
    ghost predicate Valid()
      reads this
    {
      LedgerInv(View())
    }

    constructor (coordinator: Address)
      ensures this.coordinator == coordinator && View() == EMPTY && Valid()
    {
      this.coordinator := coordinator;
      lastSubId, accounts, pendingOwners, consumers, consumerList := 0, map[], map[], {}, map[];
      counters, withdrawable, activeIds, activeIndex, coin := map[], map[], [], map[], 0;
      new;
      EmptyInv();
    }

    /** Puts back a state saved before a call that failed. */
    method Restore(l: Ledger)
      modifies this
      ensures View() == l
    {
      lastSubId, accounts, pendingOwners, consumers := l.lastSubId, l.accounts, l.pendingOwners, l.consumers;
      consumerList, counters, withdrawable := l.consumerList, l.counters, l.withdrawable;
      activeIds, activeIndex, coin := l.activeIds, l.activeIndex, l.coin;
    }

    /** The state goes where the function on ledgers says, or stays put on a refusal. */
    static ghost predicate Became(before: Ledger, after: Ledger, r: Result<Ledger, Error>, failure: Option<Error>) {
      match r
      case Ok(l) => after == l && failure == None
      case Err(e) => after == before && failure == Some(e)
    }

    static ghost predicate BecameOwing(before: Ledger, after: Ledger, r: Result<(Ledger, nat), Error>,
        failure: Option<Error>, amount: nat)
    {
      match r
      case Ok(p) => after == p.0 && amount == p.1 && failure == None
      case Err(e) => after == before && failure == Some(e)
    }

    method CreateSubscription(sender: Caller) returns (subId: SubId, failure: Option<Error>)
      modifies this
      ensures Became(old(View()), View(), Accounts.CreateSubscription(old(View()), sender), failure)
      ensures failure.None? ==> subId == lastSubId
      ensures old(Valid()) ==> Valid()
    {
      hide LedgerInv, LedgerEvolves, Kept, Live;
      if Valid() && Accounts.CreateSubscription(View(), sender).Ok? { CreateKeeps(View(), sender); }
      subId := lastSubId + 1;
      if subId > MAX64 { return 0, Some(Overflow); }
      lastSubId := subId;
      accounts := accounts[subId := AccountOf(accounts, subId).(owner := sender)];
      activeIds := activeIds + [subId];
      activeIndex := activeIndex[subId := |activeIds|];
      failure := None;
    }

    method FundSubscription(subId: SubId, value: nat) returns (failure: Option<Error>)
      modifies this
      ensures Became(old(View()), View(), Accounts.FundSubscription(old(View()), subId, value), failure)
      ensures old(Valid()) ==> Valid()
    {
      hide LedgerInv, LedgerEvolves, Kept, Live;
      if Valid() && Accounts.FundSubscription(View(), subId, value).Ok? { FundKeeps(View(), subId, value); }
      if subId > MAX64 { return Some(SubscriptionIdTooLarge); }
      var account := AccountOf(accounts, subId);
      if account.owner == ZERO { return Some(NoSuchSubscription); }
      if value > MAX96 { return Some(DepositTooLarge); }
      if account.balance + value > MAX96 { return Some(Overflow); }
      accounts := accounts[subId := account.(balance := account.balance + value)];
      coin := coin + value;
      return None;
    }

    /** Up to the transfer. */
    method WithdrawFromSubscription(sender: Caller, subId: SubId, amount: nat) returns (failure: Option<Error>)
      modifies this
      ensures Became(old(View()), View(), Accounts.WithdrawFromSubscription(old(View()), sender, subId, amount), failure)
      ensures old(Valid()) && failure.None? ==> Kept(old(View()), View(), amount)
    {
      hide LedgerInv, LedgerEvolves, Kept, Live;
      if Valid() && Accounts.WithdrawFromSubscription(View(), sender, subId, amount).Ok? { WithdrawFromKeeps(View(), sender, subId, amount); }
      if NotOwnerOf(View(), sender, subId).Some? { return NotOwnerOf(View(), sender, subId); }
      var account := AccountOf(accounts, subId);
      if account.balance < account.reserved { return Some(Underflow); }
      if account.balance - account.reserved < amount { return Some(InsufficientBalance); }
      accounts := accounts[subId := account.(balance := account.balance - amount)];
      return None;
    }

    method AddConsumer(sender: Caller, subId: SubId, consumer: Address) returns (failure: Option<Error>)
      modifies this
      ensures Became(old(View()), View(), Accounts.AddConsumer(old(View()), sender, subId, consumer), failure)
      ensures old(Valid()) ==> Valid()
    {
      hide LedgerInv, LedgerEvolves, Kept, Live;
      if Valid() && Accounts.AddConsumer(View(), sender, subId, consumer).Ok? { AddConsumerKeeps(View(), sender, subId, consumer); }
      if NotOwnerOf(View(), sender, subId).Some? { return NotOwnerOf(View(), sender, subId); }
      if (subId, consumer) in consumers { return None; }
      consumers := consumers + {(subId, consumer)};
      consumerList := consumerList[subId := ConsumersOf(consumerList, subId) + [consumer]];
      return None;
    }

    method RemoveConsumer(sender: Caller, subId: SubId, consumer: Address) returns (failure: Option<Error>)
      modifies this
      ensures Became(old(View()), View(), Accounts.RemoveConsumer(old(View()), sender, subId, consumer), failure)
      ensures old(Valid()) ==> Valid()
    {
      hide LedgerInv, LedgerEvolves, Kept, Live;
      if Valid() && Accounts.RemoveConsumer(View(), sender, subId, consumer).Ok? { RemoveConsumerKeeps(View(), sender, subId, consumer); }
      if NotOwnerOf(View(), sender, subId).Some? { return NotOwnerOf(View(), sender, subId); }
      if (subId, consumer) !in consumers { return None; }
      consumers := consumers - {(subId, consumer)};
      var list := ConsumersOf(consumerList, subId);
      var left := list;
      for i := 0 to |list|
        invariant left == list && consumer !in list[..i]
      {
        if list[i] == consumer {
          FirstIndex(list, consumer, i);
          left := list[i := list[|list| - 1]][..|list| - 1];
          break;
        }
        assert list[..i + 1] == list[..i] + [list[i]];
      }
      if left == list && consumer !in list { assert left == SwapRemove(list, consumer); }
      consumerList := consumerList[subId := left];
      return None;
    }

    static lemma {:induction false} FirstIndex(list: seq<Address>, x: Address, i: nat)
      requires i < |list| && list[i] == x && x !in list[..i]
      ensures x in list && IndexOf(list, x) == i
    {
      if i > 0 {
        assert list[0] in list[..i];
        assert list[1..][..i - 1] == list[..i][1..];
        FirstIndex(list[1..], x, i - 1);
      }
    }

    method Deactivate(id: SubId)
      modifies this
      ensures View() == Accounts.Deactivate(old(View()), id)
    {
      var position := Get(activeIndex, id);
      var last := |activeIds|;
      if position == 0 || position > last { return; }
      if position != last {
        var moved := activeIds[last - 1];
        activeIds := activeIds[position - 1 := moved];
        activeIndex := activeIndex[moved := position];
      }
      activeIds := activeIds[..last - 1];
      activeIndex := activeIndex - {id};
      assert activeIds == old(activeIds)[position - 1 := old(activeIds)[last - 1]][..last - 1];
    }

    /** Up to the transfer of what is left. */
    method CancelSubscription(sender: Caller, subId: SubId) returns (amount: nat, failure: Option<Error>)
      modifies this
      ensures BecameOwing(old(View()), View(), Accounts.CancelSubscription(old(View()), sender, subId), failure, amount)
      ensures old(Valid()) && failure.None? ==> Kept(old(View()), View(), amount)
    {
      hide LedgerInv, LedgerEvolves, Kept, Live;
      if Valid() && Accounts.CancelSubscription(View(), sender, subId).Ok? { CancelKeeps(View(), sender, subId); }
      if NotOwnerOf(View(), sender, subId).Some? { return 0, NotOwnerOf(View(), sender, subId); }
      var account := AccountOf(accounts, subId);
      if account.reserved != 0 || CountersOf(counters, subId).pending != 0 { return 0, Some(FundsReserved); }
      amount := account.balance;
      accounts := accounts - {subId};
      consumerList := consumerList - {subId};
      counters := counters - {subId};
      pendingOwners := pendingOwners - {subId};
      Deactivate(subId);
      failure := None;
    }

    method RequestOwnerTransfer(sender: Caller, subId: SubId, newOwner: Address) returns (failure: Option<Error>)
      modifies this
      ensures Became(old(View()), View(), Accounts.RequestOwnerTransfer(old(View()), sender, subId, newOwner), failure)
      ensures old(Valid()) ==> Valid()
    {
      hide LedgerInv, LedgerEvolves, Kept, Live;
      if Valid() && Accounts.RequestOwnerTransfer(View(), sender, subId, newOwner).Ok? { OfferKeeps(View(), sender, subId, newOwner); }
      if NotOwnerOf(View(), sender, subId).Some? { return NotOwnerOf(View(), sender, subId); }
      pendingOwners := pendingOwners[subId := newOwner];
      return None;
    }

    method AcceptOwnerTransfer(sender: Caller, subId: SubId) returns (failure: Option<Error>)
      modifies this
      ensures Became(old(View()), View(), Accounts.AcceptOwnerTransfer(old(View()), sender, subId), failure)
      ensures old(Valid()) ==> Valid()
    {
      hide LedgerInv, LedgerEvolves, Kept, Live;
      if Valid() && Accounts.AcceptOwnerTransfer(View(), sender, subId).Ok? { AcceptKeeps(View(), sender, subId); }
      if subId > MAX64 { return Some(SubscriptionIdTooLarge); }
      if OfferedTo(pendingOwners, subId) != sender { return Some(NotPendingOwner); }
      accounts := accounts[subId := AccountOf(accounts, subId).(owner := sender)];
      pendingOwners := pendingOwners - {subId};
      return None;
    }

    /** Up to the transfer of what was owed. */
    method Withdraw(sender: Caller) returns (amount: nat, failure: Option<Error>)
      modifies this
      ensures BecameOwing(old(View()), View(), Accounts.Withdraw(old(View()), sender), failure, amount)
      ensures old(Valid()) && failure.None? ==> Kept(old(View()), View(), amount)
    {
      hide LedgerInv, LedgerEvolves, Kept, Live;
      if Valid() && Accounts.Withdraw(View(), sender).Ok? { WithdrawKeeps(View(), sender); }
      amount := Get(withdrawable, sender);
      if amount == 0 { return 0, Some(NothingToWithdraw); }
      withdrawable := withdrawable[sender := 0];
      failure := None;
    }

    // ----- only for the coordinator; anyone else is refused

    method Reserve(sender: Address, subId: SubId, amount: nat) returns (failure: Option<Error>)
      modifies this
      ensures sender == coordinator ==> Became(old(View()), View(), Accounts.Reserve(old(View()), subId, amount), failure)
      ensures sender != coordinator ==> View() == old(View()) && failure == Some(NotCoordinator)
      ensures old(Valid()) ==> Valid()
    {
      hide LedgerInv, LedgerEvolves, Kept, Live;
      if Valid() && Accounts.Reserve(View(), subId, amount).Ok? { ReserveKeeps(View(), subId, amount); }
      if sender != coordinator { return Some(NotCoordinator); }
      if subId > MAX64 { return Some(SubscriptionIdTooLarge); }
      var account, c := AccountOf(accounts, subId), CountersOf(counters, subId);
      if account.balance < account.reserved { return Some(Underflow); }
      if account.balance - account.reserved < amount { return Some(InsufficientBalance); }
      if c.total >= MAX64 || c.pending >= MAX64 { return Some(Overflow); }
      accounts := accounts[subId := account.(reserved := account.reserved + amount)];
      counters := counters[subId := Counters(c.total + 1, c.pending + 1)];
      return None;
    }

    method CloseOne(id: SubId)
      modifies this
      ensures View() == Accounts.CloseOne(old(View()), id)
    {
      var c := CountersOf(counters, id);
      if c.pending != 0 { counters := counters[id := c.(pending := c.pending - 1)]; }
    }

    method Release(sender: Address, subId: SubId, amount: nat) returns (failure: Option<Error>)
      modifies this
      ensures sender == coordinator ==> Became(old(View()), View(), Accounts.Release(old(View()), subId, amount), failure)
      ensures sender != coordinator ==> View() == old(View()) && failure == Some(NotCoordinator)
      ensures old(Valid()) ==> Valid()
    {
      hide LedgerInv, LedgerEvolves, Kept, Live;
      if Valid() && Accounts.Release(View(), subId, amount).Ok? { ReleaseKeeps(View(), subId, amount); }
      if sender != coordinator { return Some(NotCoordinator); }
      if subId > MAX64 { return Some(SubscriptionIdTooLarge); }
      var account := AccountOf(accounts, subId);
      if account.reserved < amount { return Some(Underflow); }
      accounts := accounts[subId := account.(reserved := account.reserved - amount)];
      CloseOne(subId);
      return None;
    }

    method Settle(sender: Address, subId: SubId, amount: nat, payee: Address) returns (failure: Option<Error>)
      modifies this
      ensures sender == coordinator ==> Became(old(View()), View(), Accounts.Settle(old(View()), subId, amount, payee), failure)
      ensures sender != coordinator ==> View() == old(View()) && failure == Some(NotCoordinator)
      ensures old(Valid()) ==> Valid()
    {
      hide LedgerInv, LedgerEvolves, Kept, Live;
      if Valid() && Accounts.Settle(View(), subId, amount, payee).Ok? { SettleKeeps(View(), subId, amount, payee); }
      if sender != coordinator { return Some(NotCoordinator); }
      if subId > MAX64 { return Some(SubscriptionIdTooLarge); }
      var account, owed := AccountOf(accounts, subId), Get(withdrawable, payee);
      if account.reserved < amount || account.balance < amount { return Some(Underflow); }
      if owed + amount > MAX96 { return Some(Overflow); }
      accounts := accounts[subId := account.(reserved := account.reserved - amount, balance := account.balance - amount)];
      withdrawable := withdrawable[payee := owed + amount];
      CloseOne(subId);
      return None;
    }
  }
}
