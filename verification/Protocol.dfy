/**
 Concurrent /settle and /verify calls over one nonce store, as a transition system. Each action is one atomic step of
 the program or of its surroundings: a store operation (one critical section), a clock reading, a chain query, a step of
 a broadcast, a garbage collection, the passage of time, or the chain executing a transaction.
 */
module Protocol {
  import opened Wrappers
  import opened Types
  import opened Coins
  import opened NonceStore
  import opened Verifier
  import opened Settler

  datatype Kind = SettleCall | VerifyCall

  /** Invalid is a failed verification; Refused is a settle that failed after it. */
  datatype Response = Success(transaction: string) | Invalid(code: ErrorCode) | Refused(code: ErrorCode) | Valid

  /** Where a call stands. From InWindow to Verified it has read the clock but not touched the store. */
  datatype Phase =
    | Arrived
    | InWindow
    | NonceUnseen
    | Granted
    | Verified
    | Reserved
    | Submitted(hash: string)
    | Landed(hash: string)
    | Failed
    | Done(response: Response)

  datatype Call = Call(kind: Kind, req: PaymentRequest, phase: Phase)

  datatype Account = Account(chainId: string, address: string, denom: string)

  datatype TxStatus = Pending | Executed | Reverted

  /** A transaction the node accepted for the call of the same number. */
  datatype Tx = Tx(hash: string, account: Account, to: Account, amount: nat, status: TxStatus)

  /** Limits and balances; everything ever granted, received, and of that deposited; accounts that cannot receive. */
  datatype Ledger = Ledger(
    limit: map<Account, nat>,
    granted: map<Account, nat>,
    balance: map<Account, nat>,
    received: map<Account, nat>,
    deposited: map<Account, nat>,
    closed: set<Account>)

  datatype State = State(
    clock: Instant,
    store: Table<string>,
    calls: map<nat, Call>,
    txs: map<nat, Tx>,
    ledger: Ledger)

  datatype Action =
    | Arrive(i: nat, kind: Kind, req: PaymentRequest)
    | SampleClock(i: nat)
    | ReadNonce(i: nat)
    | QueryGrant(i: nat, grant: GrantAnswer)
    | QueryBalance(i: nat, balance: BalanceAnswer)
    | Reserve(i: nat)
    | RejectTx(i: nat)
    | AcceptTx(i: nat, hash: string)
    | Execute(i: nat, succeeds: bool)
    | SeeIncluded(i: nat)
    | GiveUp(i: nat)
    | Commit(i: nat)
    | Release(i: nat)
    | Tick(now: Instant)
    | Collect(at: Instant)
    | RaiseLimit(account: Account, more: nat)
    | Deposit(account: Account, more: nat)

  // ---- Small accessors ----

  function Get(m: map<Account, nat>, account: Account): nat {
    if account in m then m[account] else 0
  }

  function Add(m: map<Account, nat>, account: Account, more: nat): map<Account, nat> {
    m[account := Get(m, account) + more]
  }

  function Take(m: map<Account, nat>, account: Account, less: nat): map<Account, nat>
    requires less <= Get(m, account)
  {
    m[account := Get(m, account) - less]
  }

  predicate At(s: State, i: nat, phase: Phase) {
    i in s.calls && s.calls[i].phase == phase
  }

  function KeyAt(s: State, i: nat): string
    requires i in s.calls
  {
    KeyOf(s.calls[i].req)
  }

  function AuthAt(s: State, i: nat): Authorization
    requires i in s.calls
  {
    s.calls[i].req.Auth()
  }

  /** The account that the signed denom names. */
  function PayerAccount(a: Authorization): Account {
    Account(a.chainId, a.from, a.denom)
  }

  /** The transaction that a broadcast builds from amount and denom written together, if they can be read. */
  function TxFor(a: Authorization, hash: string): Option<Tx> {
    var sent :- ParsePayment(a.amount + a.denom);
    Some(Tx(hash, Account(a.chainId, a.from, sent.denom), Account(a.chainId, a.to, sent.denom), sent.amount, Pending))
  }

  /** The chain sends nothing for a zero amount, and nothing to an account that cannot receive. */
  predicate CanMove(ledger: Ledger, tx: Tx) {
    tx.amount > 0 && tx.to !in ledger.closed
  }

  predicate Sendable(ledger: Ledger, a: Authorization) {
    TxFor(a, "").Some? && CanMove(ledger, TxFor(a, "").value)
  }

  // ---- Transitions ----

  predicate Initial(s: State) {
    && s.store == map[] && s.calls == map[] && s.txs == map[]
    && s.ledger.limit == s.ledger.granted && s.ledger.balance == s.ledger.received
    && s.ledger.received == s.ledger.deposited
  }

  predicate Covers(ledger: Ledger, account: Account, amount: nat) {
    amount <= Get(ledger.limit, account) && amount <= Get(ledger.balance, account)
  }

  predicate Enabled(s: State, a: Action) {
    match a
    case Arrive(i, _, _) => i !in s.calls
    case SampleClock(i) => At(s, i, Arrived)
    case ReadNonce(i) => At(s, i, InWindow)
    case QueryGrant(i, _) => At(s, i, NonceUnseen)
    case QueryBalance(i, _) => At(s, i, Granted)
    case Reserve(i) => At(s, i, Verified)
    case RejectTx(i) => At(s, i, Reserved)
    case AcceptTx(i, hash) => At(s, i, Reserved) && TxFor(AuthAt(s, i), hash).Some?
    case Execute(i, succeeds) =>
      i in s.txs && s.txs[i].status == Pending
      && (succeeds ==> CanMove(s.ledger, s.txs[i]) && Covers(s.ledger, s.txs[i].account, s.txs[i].amount))
    case SeeIncluded(i) => i in s.calls && s.calls[i].phase.Submitted? && i in s.txs && s.txs[i].status == Executed
    case GiveUp(i) => i in s.calls && s.calls[i].phase.Submitted?
    case Commit(i) => i in s.calls && s.calls[i].phase.Landed?
    case Release(i) => At(s, i, Failed)
    case Tick(now) => s.clock <= now
    case Collect(at) => at <= s.clock // read before the store is locked
    case RaiseLimit(_, _) => true
    case Deposit(_, _) => true
  }

  function SetPhase(s: State, i: nat, phase: Phase): State
    requires i in s.calls
  {
    s.(calls := s.calls[i := s.calls[i].(phase := phase)])
  }

  /** A failed check ends the call; a passed one moves it on. */
  function PhaseAfter(check: Option<VerifyError>, next: Phase): Phase {
    if check.Some? then Done(Invalid(check.value.code)) else next
  }

  function Judge(s: State, i: nat, check: Option<VerifyError>, next: Phase): State
    requires i in s.calls
  {
    SetPhase(s, i, PhaseAfter(check, next))
  }

  function Both(first: Option<VerifyError>, second: Option<VerifyError>): Option<VerifyError> {
    if first.Some? then first else second
  }

  function NonceAnswerOf(s: State, i: nat): NonceAnswer
    requires i in s.calls
  {
    if KeyAt(s, i) in s.store then Seen else Unseen
  }

  /** The chain moves the amount from payer to recipient and lowers the limit. */
  function Transfer(ledger: Ledger, from: Account, to: Account, amount: nat): Ledger
    requires Covers(ledger, from, amount)
  {
    ledger.(limit := Take(ledger.limit, from, amount),
            balance := Add(Take(ledger.balance, from, amount), to, amount),
            received := Add(ledger.received, to, amount))
  }

  function Apply(env: Env, s: State, a: Action): State
    requires Enabled(s, a)
  {
    match a
    case Arrive(i, kind, req) => s.(calls := s.calls[i := Call(kind, req, Arrived)])
    case SampleClock(i) =>
      var req := s.calls[i].req;
      Judge(s, i, Both(CheckRequest(env, req),
                       CheckWindow(req.Auth(), req.requirements.maxTimeoutSeconds, UnixSeconds(s.clock))), InWindow)
    case ReadNonce(i) =>
      Judge(s, i, Both(CheckNonce(NonceAnswerOf(s, i)), CheckSignature(env, s.calls[i].req)), NonceUnseen)
    case QueryGrant(i, grant) => Judge(s, i, CheckGrant(AuthAt(s, i), grant, s.clock), Granted)
    case QueryBalance(i, balance) => Judge(s, i, CheckBalance(AuthAt(s, i), balance), Verified)
    case Reserve(i) => // a /verify call answers here instead
      if s.calls[i].kind == VerifyCall then SetPhase(s, i, Done(Valid))
      else
        var (store, ok) := ReserveSpec(s.store, KeyAt(s, i), Deadline(AuthAt(s, i).validBefore));
        SetPhase(s.(store := store), i, if ok then Reserved else Done(Refused(NonceAlreadyUsed)))
    case RejectTx(i) => SetPhase(s, i, Failed)
    case AcceptTx(i, hash) =>
      SetPhase(s.(txs := s.txs[i := TxFor(AuthAt(s, i), hash).value]), i, Submitted(hash))
    case Execute(i, succeeds) =>
      var tx := s.txs[i];
      if !succeeds then s.(txs := s.txs[i := tx.(status := Reverted)])
      else
        s.(txs := s.txs[i := tx.(status := Executed)], ledger := Transfer(s.ledger, tx.account, tx.to, tx.amount))
    case SeeIncluded(i) => SetPhase(s, i, Landed(s.calls[i].phase.hash))
    case GiveUp(i) => SetPhase(s, i, Failed)
    case Commit(i) =>
      var hash := s.calls[i].phase.hash;
      SetPhase(s.(store := CommitSpec(s.store, KeyAt(s, i), hash).0), i, Done(Success(hash)))
    case Release(i) =>
      SetPhase(s.(store := ReleaseSpec(s.store, KeyAt(s, i)).0), i, Done(Refused(BroadcastFailed)))
    case Tick(now) => s.(clock := now)
    case Collect(at) => s.(store := CollectSpec(s.store, at))
    case RaiseLimit(account, more) =>
      s.(ledger := s.ledger.(limit := Add(s.ledger.limit, account, more),
                             granted := Add(s.ledger.granted, account, more)))
    case Deposit(account, more) =>
      s.(ledger := s.ledger.(balance := Add(s.ledger.balance, account, more),
                             received := Add(s.ledger.received, account, more),
                             deposited := Add(s.ledger.deposited, account, more)))
  }

  /** The state after the actions, None if one of them was not enabled. */
  function Exec(env: Env, s: State, actions: seq<Action>): Option<State> {
    if actions == [] then Some(s)
    else
      var before :- Exec(env, s, actions[..|actions| - 1]);
      var a := actions[|actions| - 1];
      if Enabled(before, a) then Some(Apply(env, before, a)) else None
  }

  predicate GcFree(actions: seq<Action>) {
    forall n | 0 <= n < |actions| :: !actions[n].Collect?
  }

  /** The wire answer to a finished settle; it names the payer once verification has passed. */
  predicate Answers(call: Call, resp: SettleResponse) {
    call.phase.Done? &&
    var network, payer := call.req.payload.network, call.req.Auth().from;
    match call.phase.response
    case Success(transaction) => resp == SettleResponse(true, None, transaction, network, payer)
    case Invalid(code) => resp == SettleResponse(false, Some(code), "", network, "")
    case Refused(code) => resp == SettleResponse(false, Some(code), "", network, payer)
    case Valid => false
  }

  lemma ExecAppend(env: Env, s: State, actions: seq<Action>, a: Action)
    requires Exec(env, s, actions).Some? && Enabled(Exec(env, s, actions).value, a)
    ensures Exec(env, s, actions + [a]) == Some(Apply(env, Exec(env, s, actions).value, a))
  {
    assert (actions + [a])[..|actions|] == actions;
  }

  lemma ExecPrefix(env: Env, s: State, actions: seq<Action>)
    requires actions != [] && Exec(env, s, actions).Some?
    ensures Exec(env, s, actions[..|actions| - 1]).Some?
    ensures Enabled(Exec(env, s, actions[..|actions| - 1]).value, actions[|actions| - 1])
    ensures Exec(env, s, actions).value ==
      Apply(env, Exec(env, s, actions[..|actions| - 1]).value, actions[|actions| - 1])
  {
  }
}
