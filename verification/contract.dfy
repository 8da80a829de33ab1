/** The LinkMe contract as an object whose entry points update its storage in
    place. Each entry point checks its guards before writing anything, so a call
    that aborts leaves every field as it was; each is proved to behave as the
    matching function of module Ledger. */
module Contract {
  import opened Michelson
  import opened Ledger
  import Transactions

  class LinkMe {
    const owner: Address
    const minimumInvestment: Mutez
    var investors: map<Address, Mutez>
    var myInvestments: map<Address, Mutez>
    var employOrVendor: map<Address, Mutez>
    var requests: map<Address, nat>
    var capTable: map<Address, nat>
    var blackList: map<Address, nat>
    var eval: nat

    /** The storage record the fields make up. */
    function Storage(): State
      reads this
    {
      State(owner, minimumInvestment, investors, myInvestments, employOrVendor,
            requests, capTable, blackList, eval)
    }

    /** The storage relations every entry point preserves, from any storage.
        That the payroll stays empty and that `requests` and `black_list` stay
        disjoint holds only of storage reachable from origination; see
        `Transactions.Reachable`. */
    ghost predicate Valid()
      reads this
    {
      Transactions.Consistent(Storage())
    }

    /** Origination, with a minimum investment of `minTez` tez. */
    constructor (owner: Address, minTez: nat)
      requires minTez <= MAX_MUTEZ / MUTEZ_PER_TEZ
      ensures Valid()
      ensures Storage() == Init(owner, minTez)
    {
      this.owner := owner;
      minimumInvestment := Tez(minTez);
      investors, myInvestments, employOrVendor := map[], map[], map[];
      requests, capTable, blackList := map[], map[], map[];
      eval := 0;
    }

    method Invest(sender: Address, amount: Mutez) returns (r: Reply)
      requires Valid()
      modifies this
      ensures Valid()
      ensures r == ReplyOf(Ledger.Invest(old(Storage()), sender, amount))
      ensures r != Err(MissingKey)
      ensures Storage() == Commit(old(Storage()), Ledger.Invest(old(Storage()), sender, amount))
    {
      if amount < minimumInvestment {
        return Err(InvalidAmount);
      }
      if sender !in investors {
        investors := investors[sender := amount];
        myInvestments := myInvestments[owner := amount];
      } else {
        var credited := investors[sender] + amount;
        if credited > MAX_MUTEZ {
          return Err(MutezOverflow);
        }
        if owner !in myInvestments {
          return Err(MissingKey);
        }
        var total := myInvestments[owner] + amount;
        if total > MAX_MUTEZ {
          return Err(MutezOverflow);
        }
        investors := investors[sender := credited];
        myInvestments := myInvestments[owner := total];
      }
      r := Ok([]);
      Transactions.ConsistentStep(old(Storage()), Transactions.Call(sender, amount, Transactions.InvestCall));
      Transactions.InvestNeverMissesOwnerKey(old(Storage()), sender, amount);
    }

    method PayEmployOrVendor(sender: Address, id: Address) returns (r: Reply)
      requires Valid()
      modifies this
      ensures Valid()
      ensures r == ReplyOf(Ledger.PayEmployOrVendor(old(Storage()), sender, id))
      ensures Storage() == Commit(old(Storage()), Ledger.PayEmployOrVendor(old(Storage()), sender, id))
    {
      if sender != owner {
        return Err(Unauthorised);
      }
      if id !in employOrVendor {
        return Err(InvalidAccount);
      }
      if employOrVendor[id] == 0 {
        return Err(PaymentsMade);
      }
      var payment := Transfer(id, employOrVendor[id]);
      employOrVendor := employOrVendor[id := 0];
      r := Ok([payment]);
    }

    method Join(sender: Address) returns (r: Reply)
      requires Valid()
      modifies this
      ensures Valid()
      ensures r == ReplyOf(Ledger.Join(old(Storage()), sender))
      ensures Storage() == Commit(old(Storage()), Ledger.Join(old(Storage()), sender))
    {
      if sender in blackList {
        return Err(Blacklisted);
      }
      if sender in requests {
        return Err(RequestAlreadySent);
      }
      requests := requests[sender := 0];
      r := Ok([]);
      Transactions.ConsistentStep(old(Storage()), Transactions.Call(sender, 0, Transactions.JoinCall));
    }

    method Reject(sender: Address, id: Address) returns (r: Reply)
      requires Valid()
      modifies this
      ensures Valid()
      ensures r == ReplyOf(Ledger.Reject(old(Storage()), sender, id))
      ensures Storage() == Commit(old(Storage()), Ledger.Reject(old(Storage()), sender, id))
    {
      if sender != owner {
        return Err(Unauthorised);
      }
      if id !in requests {
        return Err(InvalidAddress);
      }
      blackList := blackList[id := 0];
      requests := requests - {id};
      r := Ok([]);
      Transactions.ConsistentStep(old(Storage()), Transactions.Call(sender, 0, Transactions.RejectCall(id)));
    }

    method RemoveFromJob(sender: Address, id: Address) returns (r: Reply)
      requires Valid()
      modifies this
      ensures Valid()
      ensures r == ReplyOf(Ledger.RemoveFromJob(old(Storage()), sender, id))
      ensures Storage() == Commit(old(Storage()), Ledger.RemoveFromJob(old(Storage()), sender, id))
    {
      if sender != owner {
        return Err(Unauthorised);
      }
      if id !in employOrVendor {
        return Err(InvalidAddress);
      }
      employOrVendor := employOrVendor - {id};
      blackList := blackList[id := 0];
      r := Ok([]);
    }

    method RemoveFromBlacklist(sender: Address, id: Address) returns (r: Reply)
      requires Valid()
      modifies this
      ensures Valid()
      ensures r == ReplyOf(Ledger.RemoveFromBlacklist(old(Storage()), sender, id))
      ensures Storage() == Commit(old(Storage()), Ledger.RemoveFromBlacklist(old(Storage()), sender, id))
    {
      if sender != owner {
        return Err(Unauthorised);
      }
      if id !in blackList {
        return Err(InvalidAddress);
      }
      blackList := blackList - {id};
      r := Ok([]);
      Transactions.ConsistentStep(old(Storage()), Transactions.Call(sender, 0, Transactions.RemoveFromBlacklistCall(id)));
    }

    method UpdateRecord(sender: Address, id: Address, salary: Mutez) returns (r: Reply)
      requires Valid()
      modifies this
      ensures Valid()
      ensures r == ReplyOf(Ledger.UpdateRecord(old(Storage()), sender, id, salary))
      ensures Storage() == Commit(old(Storage()), Ledger.UpdateRecord(old(Storage()), sender, id, salary))
    {
      if sender != owner {
        return Err(Unauthorised);
      }
      if id !in employOrVendor {
        return Err(InvalidAddress);
      }
      employOrVendor := employOrVendor[id := salary];
      r := Ok([]);
    }
  }
}
