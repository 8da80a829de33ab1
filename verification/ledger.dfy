/** The LinkMe ledger's storage record and its seven entry points, each as a
    function from the storage before the call to the call's outcome. A call
    either applies (new storage plus the operations it emits) or aborts with
    an error; an aborted call leaves the storage as it was. */
module Ledger {
  import opened Michelson

  /** The abort messages of the entry points, plus the two failures the
      environment itself raises. */
  datatype Error =
    | InvalidAmount       // "INVALID AMOUNT"
    | Unauthorised        // "UNAUTHORISED ACCESS"
    | InvalidAccount      // "INVALID ACCOUNT"
    | PaymentsMade        // "PAYMENTS MADE"
    | Blacklisted         // "YOU ARE BLACKLISTED"
    | RequestAlreadySent  // "REQUEST ALREADY SENT"
    | InvalidAddress      // "INVALID ADDRESS"
    | MutezOverflow       // a mutez addition that does not fit
    | MissingKey          // a lookup of a key the map does not hold

  /** The amount stored under `a`, or 0 where `a` is no key of `m`. */
  function Held(m: map<Address, Mutez>, a: Address): nat
  {
    if a in m then m[a] else 0
  }

  /** `m2` agrees with `m1` on every key other than `k`: same keys, same values. */
  ghost predicate SameElsewhere<V>(m1: map<Address, V>, m2: map<Address, V>, k: Address)
  {
    (forall a :: a != k && a in m1 ==> a in m2 && m2[a] == m1[a]) &&
    (forall a :: a != k && a in m2 ==> a in m1)
  }

  /** An outgoing payment emitted by an entry point. */
  datatype Transfer = Transfer(destination: Address, amount: Mutez)

  /** The contract's storage. `capTable` and `eval` are written by no entry point. */
  datatype State = State(
    owner: Address,
    minimumInvestment: Mutez,
    investors: map<Address, Mutez>,
    myInvestments: map<Address, Mutez>,
    employOrVendor: map<Address, Mutez>,
    requests: map<Address, nat>,
    capTable: map<Address, nat>,
    blackList: map<Address, nat>,
    eval: nat)

  datatype Outcome = Applied(state: State, ops: seq<Transfer>) | Aborted(error: Error)

  /** What the caller of an entry point observes. */
  datatype Reply = Ok(ops: seq<Transfer>) | Err(error: Error)

  function ReplyOf(o: Outcome): Reply
  {
    match o
    case Applied(_, ops) => Ok(ops)
    case Aborted(e) => Err(e)
  }

  /** The storage after the call: all of the call's effect, or none of it. */
  function Commit(s: State, o: Outcome): State
  {
    match o
    case Applied(t, _) => t
    case Aborted(_) => s
  }

  /** Storage at origination, with a minimum investment of `minTez` tez. */
  function Init(owner: Address, minTez: nat): (s: State)
    requires minTez <= MAX_MUTEZ / MUTEZ_PER_TEZ
    ensures s.owner == owner && s.minimumInvestment == minTez * MUTEZ_PER_TEZ
    ensures s.investors == s.myInvestments == s.employOrVendor == map[]
    ensures s.requests == s.capTable == s.blackList == map[] && s.eval == 0
  {
    State(owner, Tez(minTez), map[], map[], map[], map[], map[], map[], 0)
  }

  /** `invest`: credits the attached amount to the sender and to the owner-keyed
      figure. A first-time investor overwrites the owner-keyed figure with the
      amount; a returning investor adds to both. */
  function Invest(s: State, sender: Address, amount: Mutez): (r: Outcome)
    ensures r == Aborted(InvalidAmount) <==> amount < s.minimumInvestment
    // the sender's sum is taken before the owner key is looked up
    ensures (amount >= s.minimumInvestment && sender in s.investors &&
             s.investors[sender] + amount > MAX_MUTEZ) ==> r == Aborted(MutezOverflow)
    ensures (amount >= s.minimumInvestment && sender in s.investors &&
             s.investors[sender] + amount <= MAX_MUTEZ && s.owner !in s.myInvestments) ==>
      r == Aborted(MissingKey)
    ensures sender !in s.investors ==> (r.Applied? <==> amount >= s.minimumInvestment)
    ensures r.Applied? <==>
      amount >= s.minimumInvestment &&
      (sender in s.investors ==>
         s.owner in s.myInvestments &&
         s.investors[sender] + amount <= MAX_MUTEZ &&
         s.myInvestments[s.owner] + amount <= MAX_MUTEZ)
    ensures r.Aborted? ==> r.error in {InvalidAmount, MutezOverflow, MissingKey}
    ensures r.Aborted? && r.error == MissingKey ==> s.owner !in s.myInvestments && s.investors != map[]
    // the sender's figure grows by exactly the amount; no other investor changes
    ensures r.Applied? ==>
      sender in r.state.investors &&
      r.state.investors[sender] == Held(s.investors, sender) + amount &&
      SameElsewhere(s.investors, r.state.investors, sender)
    // the owner-keyed figure: a running sum for a returning sender, reset otherwise
    ensures r.Applied? ==>
      r.state.myInvestments.Keys == s.myInvestments.Keys + {s.owner} &&
      r.state.myInvestments[s.owner] ==
        (if sender in s.investors then Held(s.myInvestments, s.owner) else 0) + amount &&
      SameElsewhere(s.myInvestments, r.state.myInvestments, s.owner)
    // nothing else changes and nothing is emitted
    ensures r.Applied? ==>
      r.ops == [] && r.state.(investors := s.investors, myInvestments := s.myInvestments) == s
  {
    if amount < s.minimumInvestment then Aborted(InvalidAmount)
    else if sender !in s.investors then
      Applied(s.(investors := s.investors[sender := amount],
                 myInvestments := s.myInvestments[s.owner := amount]), [])
    else
      match AddMutez(s.investors[sender], amount)
      case None => Aborted(MutezOverflow)
      case Some(credited) =>
        if s.owner !in s.myInvestments then Aborted(MissingKey)
        else
          match AddMutez(s.myInvestments[s.owner], amount)
          case None => Aborted(MutezOverflow)
          case Some(total) =>
            Applied(s.(investors := s.investors[sender := credited],
                       myInvestments := s.myInvestments[s.owner := total]), [])
  }

  /** `pay_employ_or_vendor(id)`: pays out the balance owed to `id` and zeroes it. */
  function PayEmployOrVendor(s: State, sender: Address, id: Address): (r: Outcome)
    ensures sender != s.owner ==> r == Aborted(Unauthorised)
    ensures sender == s.owner && id !in s.employOrVendor ==> r == Aborted(InvalidAccount)
    ensures sender == s.owner && id in s.employOrVendor && s.employOrVendor[id] == 0 ==>
      r == Aborted(PaymentsMade)
    ensures r.Applied? <==>
      sender == s.owner && id in s.employOrVendor && s.employOrVendor[id] != 0
    // exactly one transfer, of the whole old balance, to `id`
    ensures r.Applied? ==> r.ops == [Transfer(id, s.employOrVendor[id])] && r.ops[0].amount > 0
    // the balance is zero afterwards, the key stays, nothing else changes
    ensures r.Applied? ==>
      id in r.state.employOrVendor && r.state.employOrVendor[id] == 0 &&
      SameElsewhere(s.employOrVendor, r.state.employOrVendor, id) &&
      r.state.(employOrVendor := s.employOrVendor) == s
  {
    if sender != s.owner then Aborted(Unauthorised)
    else if id !in s.employOrVendor then Aborted(InvalidAccount)
    else if s.employOrVendor[id] == 0 then Aborted(PaymentsMade)
    else
      Applied(s.(employOrVendor := s.employOrVendor[id := 0]),
              [Transfer(id, s.employOrVendor[id])])
  }

  /** `join()`: files a membership request for the sender. */
  function Join(s: State, sender: Address): (r: Outcome)
    ensures sender in s.blackList ==> r == Aborted(Blacklisted)
    ensures sender !in s.blackList && sender in s.requests ==> r == Aborted(RequestAlreadySent)
    ensures r.Applied? <==> sender !in s.blackList && sender !in s.requests
    ensures r.Applied? ==>
      r.ops == [] &&
      r.state.requests.Keys == s.requests.Keys + {sender} && r.state.requests[sender] == 0 &&
      SameElsewhere(s.requests, r.state.requests, sender) &&
      r.state.(requests := s.requests) == s
  {
    if sender in s.blackList then Aborted(Blacklisted)
    else if sender in s.requests then Aborted(RequestAlreadySent)
    else Applied(s.(requests := s.requests[sender := 0]), [])
  }

  /** `reject(id)`: moves a pending request to the blacklist. */
  function Reject(s: State, sender: Address, id: Address): (r: Outcome)
    ensures sender != s.owner ==> r == Aborted(Unauthorised)
    ensures sender == s.owner && id !in s.requests ==> r == Aborted(InvalidAddress)
    ensures r.Applied? <==> sender == s.owner && id in s.requests
    ensures r.Applied? ==>
      r.ops == [] &&
      r.state.requests.Keys == s.requests.Keys - {id} &&
      SameElsewhere(s.requests, r.state.requests, id) &&
      r.state.blackList.Keys == s.blackList.Keys + {id} && r.state.blackList[id] == 0 &&
      SameElsewhere(s.blackList, r.state.blackList, id) &&
      r.state.(requests := s.requests, blackList := s.blackList) == s
  {
    if sender != s.owner then Aborted(Unauthorised)
    else if id !in s.requests then Aborted(InvalidAddress)
    else Applied(s.(blackList := s.blackList[id := 0], requests := s.requests - {id}), [])
  }

  /** `remove_from_job(id)`: drops `id` from the payroll and blacklists it. */
  function RemoveFromJob(s: State, sender: Address, id: Address): (r: Outcome)
    ensures sender != s.owner ==> r == Aborted(Unauthorised)
    ensures sender == s.owner && id !in s.employOrVendor ==> r == Aborted(InvalidAddress)
    ensures r.Applied? <==> sender == s.owner && id in s.employOrVendor
    ensures r.Applied? ==>
      r.ops == [] &&
      r.state.employOrVendor.Keys == s.employOrVendor.Keys - {id} &&
      SameElsewhere(s.employOrVendor, r.state.employOrVendor, id) &&
      r.state.blackList.Keys == s.blackList.Keys + {id} && r.state.blackList[id] == 0 &&
      SameElsewhere(s.blackList, r.state.blackList, id) &&
      r.state.(employOrVendor := s.employOrVendor, blackList := s.blackList) == s
  {
    if sender != s.owner then Aborted(Unauthorised)
    else if id !in s.employOrVendor then Aborted(InvalidAddress)
    else Applied(s.(employOrVendor := s.employOrVendor - {id}, blackList := s.blackList[id := 0]), [])
  }

  /** `remove_from_blacklist(id)`: lifts the exclusion of `id`. */
  function RemoveFromBlacklist(s: State, sender: Address, id: Address): (r: Outcome)
    ensures sender != s.owner ==> r == Aborted(Unauthorised)
    ensures sender == s.owner && id !in s.blackList ==> r == Aborted(InvalidAddress)
    ensures r.Applied? <==> sender == s.owner && id in s.blackList
    ensures r.Applied? ==>
      r.ops == [] &&
      r.state.blackList.Keys == s.blackList.Keys - {id} &&
      SameElsewhere(s.blackList, r.state.blackList, id) &&
      r.state.(blackList := s.blackList) == s
  {
    if sender != s.owner then Aborted(Unauthorised)
    else if id !in s.blackList then Aborted(InvalidAddress)
    else Applied(s.(blackList := s.blackList - {id}), [])
  }

  /** `update_record(id, salary)`: overwrites what is owed to an existing payee. */
  function UpdateRecord(s: State, sender: Address, id: Address, salary: Mutez): (r: Outcome)
    ensures sender != s.owner ==> r == Aborted(Unauthorised)
    ensures sender == s.owner && id !in s.employOrVendor ==> r == Aborted(InvalidAddress)
    ensures r.Applied? <==> sender == s.owner && id in s.employOrVendor
    // never creates a payroll key
    ensures r.Applied? ==>
      r.ops == [] &&
      r.state.employOrVendor.Keys == s.employOrVendor.Keys &&
      r.state.employOrVendor[id] == salary &&
      SameElsewhere(s.employOrVendor, r.state.employOrVendor, id) &&
      r.state.(employOrVendor := s.employOrVendor) == s
  {
    if sender != s.owner then Aborted(Unauthorised)
    else if id !in s.employOrVendor then Aborted(InvalidAddress)
    else Applied(s.(employOrVendor := s.employOrVendor[id := salary]), [])
  }
}
