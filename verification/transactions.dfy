/** Calls against the ledger as a closed set of entry points, their atomic
    application to the storage, runs of many calls, and what holds of every
    storage reachable from origination. */
module Transactions {
  import opened Michelson
  import opened Ledger

  datatype EntryPoint =
    | InvestCall
    | PayEmployOrVendorCall(id: Address)
    | JoinCall
    | RejectCall(id: Address)
    | RemoveFromJobCall(id: Address)
    | RemoveFromBlacklistCall(id: Address)
    | UpdateRecordCall(id: Address, salary: Mutez)
  {
    /** The entry points that only the owner may call. */
    predicate OwnerOnly()
    {
      !InvestCall? && !JoinCall?
    }
  }

  /** One transaction: the sender, the amount attached to it, the entry point. */
  datatype Call = Call(sender: Address, amount: Mutez, entry: EntryPoint)

  function Dispatch(s: State, c: Call): (r: Outcome)
    ensures c.entry.OwnerOnly() && c.sender != s.owner ==> r == Aborted(Unauthorised)
    // only `invest` touches the investment ledgers
    ensures r.Applied? && !c.entry.InvestCall? ==>
      r.state.investors == s.investors && r.state.myInvestments == s.myInvestments
    // only `pay_employ_or_vendor` emits anything, and at most one transfer
    ensures r.Applied? && !c.entry.PayEmployOrVendorCall? ==> r.ops == []
    ensures r.Applied? ==> |r.ops| <= 1
    // the configuration and the unused fields never change
    ensures r.Applied? ==>
      r.state.owner == s.owner && r.state.minimumInvestment == s.minimumInvestment &&
      r.state.capTable == s.capTable && r.state.eval == s.eval
  {
    match c.entry
    case InvestCall => Invest(s, c.sender, c.amount)
    case PayEmployOrVendorCall(id) => PayEmployOrVendor(s, c.sender, id)
    case JoinCall => Join(s, c.sender)
    case RejectCall(id) => Reject(s, c.sender, id)
    case RemoveFromJobCall(id) => RemoveFromJob(s, c.sender, id)
    case RemoveFromBlacklistCall(id) => RemoveFromBlacklist(s, c.sender, id)
    case UpdateRecordCall(id, salary) => UpdateRecord(s, c.sender, id, salary)
  }

  /** The storage after one call. */
  function Apply(s: State, c: Call): State
  {
    Commit(s, Dispatch(s, c))
  }

  /** The storage after a sequence of calls, applied in order. */
  function Run(s: State, calls: seq<Call>): (t: State)
    decreases |calls|
    ensures t.owner == s.owner && t.minimumInvestment == s.minimumInvestment
    ensures t.capTable == s.capTable && t.eval == s.eval
  {
    if calls == [] then s else Run(Apply(s, calls[0]), calls[1..])
  }

  /** The transfers a sequence of calls emits, in order. */
  function Emitted(s: State, calls: seq<Call>): seq<Transfer>
    decreases |calls|
  {
    if calls == [] then []
    else
      var o := Dispatch(s, calls[0]);
      (if o.Applied? then o.ops else []) + Emitted(Commit(s, o), calls[1..])
  }

  /** What every entry point preserves, from any storage: requests and
      blacklistings carry the value 0, `my_investments` holds at most the owner
      key and holds it once anyone has invested, and the unused fields stay empty. */
  ghost predicate Consistent(s: State)
  {
    (forall a :: a in s.requests ==> s.requests[a] == 0) &&
    (forall a :: a in s.blackList ==> s.blackList[a] == 0) &&
    s.myInvestments.Keys <= {s.owner} &&
    (s.investors == map[] <==> s.myInvestments == map[]) &&
    s.capTable == map[] && s.eval == 0
  }

  /** What holds of every storage reachable from origination. */
  ghost predicate Inv(s: State)
  {
    Consistent(s) &&
    // no entry point adds a payroll key
    s.employOrVendor == map[] &&
    // a pending request and a blacklisting never coexist
    s.requests.Keys !! s.blackList.Keys
  }

  /** Every call, from any storage, keeps `Consistent`. */
  lemma ConsistentStep(s: State, c: Call)
    requires Consistent(s)
    ensures Consistent(Apply(s, c))
  {
  }

  /** Origination satisfies the reachable-state invariant. */
  lemma InitInv(owner: Address, minTez: nat)
    requires minTez <= MAX_MUTEZ / MUTEZ_PER_TEZ
    ensures Inv(Init(owner, minTez))
  {
  }

  /** Every call keeps the reachable-state invariant. */
  lemma InvStep(s: State, c: Call)
    requires Inv(s)
    ensures Inv(Apply(s, c))
  {
  }

  /** Every storage reachable from an invariant one keeps the invariant. */
  lemma {:induction false} InvRun(s: State, calls: seq<Call>)
    requires Inv(s)
    ensures Inv(Run(s, calls))
    decreases |calls|
  {
    if calls != [] {
      InvStep(s, calls[0]);
      InvRun(Apply(s, calls[0]), calls[1..]);
    }
  }

  /** From origination: the payroll stays empty, requests and blacklist stay
      disjoint with all values 0, `my_investments` holds at most the owner key,
      and the configuration never changes. */
  lemma Reachable(owner: Address, minTez: nat, calls: seq<Call>)
    requires minTez <= MAX_MUTEZ / MUTEZ_PER_TEZ
    ensures var t := Run(Init(owner, minTez), calls);
      Inv(t) && t.owner == owner && t.minimumInvestment == minTez * MUTEZ_PER_TEZ
  {
    InitInv(owner, minTez);
    InvRun(Init(owner, minTez), calls);
  }

  /** `investors[a]` never decreases, and no investor key is ever removed. */
  lemma {:induction false} InvestorsNeverDecrease(s: State, calls: seq<Call>, a: Address)
    requires a in s.investors
    ensures a in Run(s, calls).investors && Run(s, calls).investors[a] >= s.investors[a]
    decreases |calls|
  {
    if calls != [] {
      var t := Apply(s, calls[0]);
      assert a in t.investors && t.investors[a] >= s.investors[a] by {
        var o := Dispatch(s, calls[0]);
        if o.Applied? && calls[0].entry.InvestCall? {
          assert Held(s.investors, a) == s.investors[a];
        }
      }
      InvestorsNeverDecrease(t, calls[1..], a);
    }
  }

  /** With the payroll empty, no sequence of calls emits a transfer. */
  lemma {:induction false} NothingEverPaid(s: State, calls: seq<Call>)
    requires Inv(s)
    ensures Emitted(s, calls) == []
    decreases |calls|
  {
    if calls != [] {
      var o := Dispatch(s, calls[0]);
      assert o.Applied? ==> o.ops == [] by {
        if calls[0].entry.PayEmployOrVendorCall? {
          assert calls[0].entry.id !in s.employOrVendor;
        }
      }
      InvStep(s, calls[0]);
      NothingEverPaid(Commit(s, o), calls[1..]);
    }
  }

  /** A consistent storage (so every reachable one) never hits the missing
      owner key in `invest`. */
  lemma InvestNeverMissesOwnerKey(s: State, sender: Address, amount: Mutez)
    requires Consistent(s)
    ensures Invest(s, sender, amount) != Aborted(MissingKey)
  {
  }

  /** Any owner-only call by someone else aborts and leaves the storage as it was. */
  lemma NonOwnerChangesNothing(s: State, c: Call)
    requires c.entry.OwnerOnly() && c.sender != s.owner
    ensures Dispatch(s, c) == Aborted(Unauthorised) && Apply(s, c) == s
  {
  }

  /** A second payment to the same payee right after a successful one aborts
      with "PAYMENTS MADE" and emits nothing. */
  lemma PayTwice(s: State, id: Address)
    requires PayEmployOrVendor(s, s.owner, id).Applied?
    ensures var t := PayEmployOrVendor(s, s.owner, id).state;
      PayEmployOrVendor(t, s.owner, id) == Aborted(PaymentsMade) &&
      Emitted(t, [Call(s.owner, 0, PayEmployOrVendorCall(id))]) == []
  {
  }

  /** From an invariant storage, `update_record` never succeeds: no payroll
      entry exists, and none is created implicitly. */
  lemma UpdateRecordNeverCreates(s: State, sender: Address, id: Address, salary: Mutez)
    requires Inv(s)
    ensures UpdateRecord(s, sender, id, salary).Aborted?
    ensures sender == s.owner ==> UpdateRecord(s, sender, id, salary) == Aborted(InvalidAddress)
  {
  }

  /** `join`, then `reject` by the owner, then `join` again by the same
      address: the second `join` aborts with "YOU ARE BLACKLISTED". */
  lemma JoinRejectJoin(s: State, a: Address)
    requires a !in s.blackList && a !in s.requests
    ensures var t1 := Apply(s, Call(a, 0, JoinCall));
      var t2 := Apply(t1, Call(s.owner, 0, RejectCall(a)));
      Dispatch(t1, Call(s.owner, 0, RejectCall(a))).Applied? &&
      Dispatch(t2, Call(a, 0, JoinCall)) == Aborted(Blacklisted)
  {
  }

  /** After `remove_from_blacklist(a)` a later `join` by `a` succeeds, provided
      `a` has no pending request. */
  lemma UnblacklistThenJoin(s: State, a: Address)
    requires a in s.blackList && a !in s.requests
    ensures var t := Apply(s, Call(s.owner, 0, RemoveFromBlacklistCall(a)));
      a !in t.blackList && Dispatch(t, Call(a, 0, JoinCall)).Applied?
  {
  }

  /** The test scenario in MySubmittion.py: minimum 2 tez; alice invests 7 tez and
      succeeds; alice invests 1 tez and fails, the storage staying at 7 tez. */
  lemma InvestScenario(owner: Address, alice: Address)
    ensures var s0 := Init(owner, 2);
      var s1 := Apply(s0, Call(alice, Tez(7), InvestCall));
      s1.investors == map[alice := 7_000_000] &&
      s1.myInvestments == map[owner := 7_000_000] &&
      Dispatch(s1, Call(alice, Tez(1), InvestCall)) == Aborted(InvalidAmount) &&
      Apply(s1, Call(alice, Tez(1), InvestCall)) == s1
  {
  }

  /** The owner-keyed figure is not a running total: a first-time investor
      resets it to that investor's amount. */
  lemma OwnerTotalResetByNewInvestor(owner: Address, alice: Address, bob: Address)
    requires alice != bob
    ensures var s := Run(Init(owner, 2), [Call(alice, Tez(7), InvestCall), Call(bob, Tez(2), InvestCall)]);
      s.investors == map[alice := 7_000_000, bob := 2_000_000] &&
      s.myInvestments == map[owner := 2_000_000]
  {
    var s0 := Init(owner, 2);
    var calls := [Call(alice, Tez(7), InvestCall), Call(bob, Tez(2), InvestCall)];
    var s1 := Apply(s0, calls[0]);
    assert s1.investors == map[alice := 7_000_000];
    var s2 := Apply(s1, calls[1]);
    assert s2.investors == map[alice := 7_000_000, bob := 2_000_000];
    assert s2.myInvestments == map[owner := 2_000_000];
    assert calls[1..][0] == calls[1] && calls[1..][1..] == [];
    assert Run(s0, calls) == Run(s1, calls[1..]) == Run(s2, []);
  }
}
