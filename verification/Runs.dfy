/** Building runs step by step; a call that nothing interrupts computes the sequential program. */
module Runs {
  import opened Wrappers
  import opened Types
  import opened NonceStore
  import opened Verifier
  import opened Settler
  import opened Protocol
  import opened ExactlyOnce

  lemma Step(env: Env, start: State, actions: seq<Action>, s: State, a: Action) returns (longer: seq<Action>)
    requires Exec(env, start, actions) == Some(s) && Enabled(s, a)
    ensures longer == actions + [a] && Exec(env, start, longer) == Some(Apply(env, s, a))
  {
    longer := actions + [a];
    ExecAppend(env, start, actions, a);
  }

  /** A step of call i, its transaction on the chain, or time passing. */
  predicate Mine(a: Action, i: nat) {
    (OfCall(a) && a.i == i) || (a.Arrive? && a.i == i) || (a.Execute? && a.i == i) || a.Tick?
  }

  /** Call i alone went on. */
  ghost predicate Alone(actions: seq<Action>, more: seq<Action>, i: nat) {
    actions <= more && forall n | |actions| <= n < |more| :: Mine(more[n], i)
  }

  /** More was done, and none of it is a collection. */
  ghost predicate Longer(actions: seq<Action>, more: seq<Action>) {
    actions <= more && forall n | |actions| <= n < |more| :: !more[n].Collect?
  }

  lemma {:induction false} ClearLonger(env: Env, s: State, actions: seq<Action>, more: seq<Action>)
    requires ClearRun(env, s, actions) && Longer(actions, more)
    ensures ClearRun(env, s, more)
    decreases |more|
  {
    if |more| == |actions| {
      assert more == actions;
    } else {
      ClearLonger(env, s, actions, more[..|more| - 1]);
    }
  }

  lemma {:induction false} ExecConcat(env: Env, s: State, front: seq<Action>, more: seq<Action>)
    requires Exec(env, s, front).Some?
    ensures Exec(env, s, front + more) == Exec(env, Exec(env, s, front).value, more)
    decreases |more|
  {
    if more == [] {
      assert front + more == front;
    } else {
      ExecConcat(env, s, front, more[..|more| - 1]);
      assert (front + more)[..|front + more| - 1] == front + more[..|more| - 1];
    }
  }

  // ---- Verification, stage by stage ----

  /** Call i stands in the given phase, and nothing else of s changed. */
  ghost predicate Moved(s: State, s': State, i: nat, kind: Kind, req: PaymentRequest, phase: Phase) {
    s' == s.(calls := s.calls[i := Call(kind, req, phase)])
  }

  /** The checks of a call: at its clock reading, and at its store read. */
  function FirstCheck(env: Env, req: PaymentRequest, clock: Instant): Option<VerifyError> {
    Both(CheckRequest(env, req), CheckWindow(req.Auth(), req.requirements.maxTimeoutSeconds, UnixSeconds(clock)))
  }

  function SecondCheck(env: Env, req: PaymentRequest, t: Table<string>): Option<VerifyError> {
    Both(CheckNonce(if KeyOf(req) in t then Seen else Unseen), CheckSignature(env, req))
  }

  function VerdictOf(check: Option<VerifyError>, payer: string): Result<string, VerifyError> {
    if check.Some? then Err(check.value) else Ok(payer)
  }

  function SoloObservations(s: State, req: PaymentRequest, grant: GrantAnswer, grantClock: Instant,
                            balance: BalanceAnswer)
    : Observations
  {
    Observations(s.clock, if KeyOf(req) in s.store then Seen else Unseen, grant, grantClock, balance)
  }

  lemma VerifyIsStaged(env: Env, req: PaymentRequest, s: State, grant: GrantAnswer, grantClock: Instant,
                       balance: BalanceAnswer)
    ensures Verify(env, req, SoloObservations(s, req, grant, grantClock, balance)) ==
      VerdictOf(Both(FirstCheck(env, req, s.clock), Both(SecondCheck(env, req, s.store),
        Both(CheckGrant(req.Auth(), grant, grantClock), CheckBalance(req.Auth(), balance)))), req.Auth().from)
  {
  }

  lemma DoArriveAndSample(env: Env, start: State, actions: seq<Action>, s: State,
                          i: nat, kind: Kind, req: PaymentRequest)
    returns (longer: seq<Action>, s': State)
    requires Exec(env, start, actions) == Some(s) && i !in s.calls
    ensures Exec(env, start, longer) == Some(s') && Alone(actions, longer, i)
    ensures Moved(s, s', i, kind, req, PhaseAfter(FirstCheck(env, req, s.clock), InWindow))
  {
    longer := Step(env, start, actions, s, Arrive(i, kind, req));
    var t := s.(calls := s.calls[i := Call(kind, req, Arrived)]);
    longer := Step(env, start, longer, t, SampleClock(i));
    s' := Judge(t, i, FirstCheck(env, req, s.clock), InWindow);
    assert s'.calls == s.calls[i := Call(kind, req, PhaseAfter(FirstCheck(env, req, s.clock), InWindow))];
  }

  lemma DoReadNonce(env: Env, start: State, actions: seq<Action>, s: State, t: State,
                    i: nat, kind: Kind, req: PaymentRequest)
    returns (longer: seq<Action>, t': State)
    requires Exec(env, start, actions) == Some(t) && Moved(s, t, i, kind, req, InWindow)
    ensures Exec(env, start, longer) == Some(t') && Alone(actions, longer, i)
    ensures Moved(s, t', i, kind, req, PhaseAfter(SecondCheck(env, req, s.store), NonceUnseen))
  {
    longer := Step(env, start, actions, t, ReadNonce(i));
    t' := Judge(t, i, SecondCheck(env, req, s.store), NonceUnseen);
    assert t'.calls == s.calls[i := Call(kind, req, PhaseAfter(SecondCheck(env, req, s.store), NonceUnseen))];
  }

  lemma DoQueryGrant(env: Env, start: State, actions: seq<Action>, s: State, t: State,
                     i: nat, kind: Kind, req: PaymentRequest, grant: GrantAnswer)
    returns (longer: seq<Action>, t': State)
    requires Exec(env, start, actions) == Some(t) && Moved(s, t, i, kind, req, NonceUnseen)
    ensures Exec(env, start, longer) == Some(t') && Alone(actions, longer, i)
    ensures Moved(s, t', i, kind, req, PhaseAfter(CheckGrant(req.Auth(), grant, s.clock), Granted))
  {
    longer := Step(env, start, actions, t, QueryGrant(i, grant));
    t' := Judge(t, i, CheckGrant(req.Auth(), grant, s.clock), Granted);
    assert t'.calls == s.calls[i := Call(kind, req, PhaseAfter(CheckGrant(req.Auth(), grant, s.clock), Granted))];
  }

  lemma DoQueryBalance(env: Env, start: State, actions: seq<Action>, s: State, t: State,
                       i: nat, kind: Kind, req: PaymentRequest, balance: BalanceAnswer)
    returns (longer: seq<Action>, t': State)
    requires Exec(env, start, actions) == Some(t) && Moved(s, t, i, kind, req, Granted)
    ensures Exec(env, start, longer) == Some(t') && Alone(actions, longer, i)
    ensures Moved(s, t', i, kind, req, PhaseAfter(CheckBalance(req.Auth(), balance), Verified))
  {
    longer := Step(env, start, actions, t, QueryBalance(i, balance));
    t' := Judge(t, i, CheckBalance(req.Auth(), balance), Verified);
    assert t'.calls == s.calls[i := Call(kind, req, PhaseAfter(CheckBalance(req.Auth(), balance), Verified))];
  }

  /** The two chain queries, the clock having moved on since the store was read. */
  lemma DoQueries(env: Env, start: State, actions: seq<Action>, s: State, t: State, i: nat, kind: Kind,
                  req: PaymentRequest, grant: GrantAnswer, balance: BalanceAnswer)
    returns (longer: seq<Action>, t': State)
    requires Exec(env, start, actions) == Some(t) && Moved(s, t, i, kind, req, NonceUnseen)
    ensures Exec(env, start, longer) == Some(t') && Alone(actions, longer, i)
    ensures Moved(s, t', i, kind, req,
      PhaseAfter(Both(CheckGrant(req.Auth(), grant, s.clock), CheckBalance(req.Auth(), balance)), Verified))
  {
    longer, t' := DoQueryGrant(env, start, actions, s, t, i, kind, req, grant);
    if CheckGrant(req.Auth(), grant, s.clock).None? {
      longer, t' := DoQueryBalance(env, start, longer, s, t', i, kind, req, balance);
    }
  }

  /** The stages before the queries. */
  lemma DoLocalChecks(env: Env, start: State, actions: seq<Action>, s: State, i: nat, kind: Kind, req: PaymentRequest)
    returns (longer: seq<Action>, s': State)
    requires Exec(env, start, actions) == Some(s) && i !in s.calls
    ensures Exec(env, start, longer) == Some(s') && Alone(actions, longer, i)
    ensures Moved(s, s', i, kind, req,
      PhaseAfter(Both(FirstCheck(env, req, s.clock), SecondCheck(env, req, s.store)), NonceUnseen))
  {
    longer, s' := DoArriveAndSample(env, start, actions, s, i, kind, req);
    if FirstCheck(env, req, s.clock).None? {
      longer, s' := DoReadNonce(env, start, longer, s, s', i, kind, req);
    }
  }

  /**
   The stages of the transition system, with no other call in between, compute Verify, whatever time passes before the
   second clock reading, for /settle and /verify alike.
   */
  lemma SoloVerify(env: Env, start: State, actions: seq<Action>, s: State, i: nat, kind: Kind, req: PaymentRequest,
                   grant: GrantAnswer, grantClock: Instant, balance: BalanceAnswer)
    returns (longer: seq<Action>, s': State)
    requires Exec(env, start, actions) == Some(s) && i !in s.calls && s.clock <= grantClock
    ensures Exec(env, start, longer) == Some(s') && Alone(actions, longer, i)
    ensures Moved(s.(clock := grantClock), s', i, kind, req,
      match Verify(env, req, SoloObservations(s, req, grant, grantClock, balance))
        case Ok(_) => Verified
        case Err(e) => Done(Invalid(e.code)))
  {
    VerifyIsStaged(env, req, s, grant, grantClock, balance);
    longer, s' := DoLocalChecks(env, start, actions, s, i, kind, req);
    longer := Step(env, start, longer, s', Tick(grantClock));
    s' := s'.(clock := grantClock);
    if Both(FirstCheck(env, req, s.clock), SecondCheck(env, req, s.store)).None? {
      longer, s' := DoQueries(env, start, longer, s.(clock := grantClock), s', i, kind, req, grant, balance);
    }
  }

  /** A /verify call answers the verdict and leaves everything but the time as it was. */
  lemma SoloVerifyCall(env: Env, start: State, actions: seq<Action>, s: State, i: nat, req: PaymentRequest,
                       grant: GrantAnswer, grantClock: Instant, balance: BalanceAnswer)
    returns (longer: seq<Action>, s': State)
    requires Exec(env, start, actions) == Some(s) && i !in s.calls && s.clock <= grantClock
    ensures Exec(env, start, longer) == Some(s') && Alone(actions, longer, i)
    ensures Moved(s.(clock := grantClock), s', i, VerifyCall, req,
      Done(match Verify(env, req, SoloObservations(s, req, grant, grantClock, balance))
           case Ok(_) => Valid
           case Err(e) => Invalid(e.code)))
  {
    longer, s' := SoloVerify(env, start, actions, s, i, VerifyCall, req, grant, grantClock, balance);
    if s'.calls[i].phase == Verified {
      longer := Step(env, start, longer, s', Action.Reserve(i));
      var t := SetPhase(s', i, Done(Valid));
      assert t.calls == s.calls[i := Call(VerifyCall, req, Done(Valid))];
      s' := t;
    }
  }

  /** The request passes every check that does not look at the nonce store, with the clock standing at this reading. */
  predicate Acceptable(env: Env, req: PaymentRequest, clock: Instant, grant: GrantAnswer, balance: BalanceAnswer) {
    Verify(env, req, Observations(clock, Unseen, grant, clock, balance)).Ok?
  }

  lemma Prepare(env: Env, start: State, actions: seq<Action>, s: State,
                i: nat, req: PaymentRequest, grant: GrantAnswer, balance: BalanceAnswer)
    returns (longer: seq<Action>, s': State)
    requires Exec(env, start, actions) == Some(s) && i !in s.calls && KeyOf(req) !in s.store
    requires Acceptable(env, req, s.clock, grant, balance)
    ensures Exec(env, start, longer) == Some(s') && Alone(actions, longer, i)
    ensures Moved(s, s', i, SettleCall, req, Verified)
  {
    longer, s' := SoloVerify(env, start, actions, s, i, SettleCall, req, grant, s.clock, balance);
  }

  // ---- Reservation and broadcast ----

  lemma DoReserve(env: Env, start: State, actions: seq<Action>, s: State, i: nat, req: PaymentRequest)
    returns (longer: seq<Action>, s': State)
    requires Exec(env, start, actions) == Some(s) && i in s.calls && s.calls[i] == Call(SettleCall, req, Verified)
    requires KeyOf(req) !in s.store
    ensures Exec(env, start, longer) == Some(s') && Alone(actions, longer, i)
    ensures s' == s.(store := s.store[KeyOf(req) := Entry(false, "", Deadline(req.Auth().validBefore))],
                     calls := s.calls[i := Call(SettleCall, req, Phase.Reserved)])
  {
    longer := Step(env, start, actions, s, Action.Reserve(i));
    s' := Apply(env, s, Action.Reserve(i));
  }

  /** The node accepts the call's transaction. */
  lemma DoAccept(env: Env, start: State, actions: seq<Action>, s: State, i: nat, req: PaymentRequest, hash: string)
    returns (longer: seq<Action>, s': State)
    requires Exec(env, start, actions) == Some(s) && i in s.calls && s.calls[i] == Call(SettleCall, req, Phase.Reserved)
    requires TxFor(req.Auth(), hash).Some?
    ensures Exec(env, start, longer) == Some(s') && Alone(actions, longer, i)
    ensures s' == s.(txs := s.txs[i := TxFor(req.Auth(), hash).value],
                     calls := s.calls[i := Call(SettleCall, req, Submitted(hash))])
  {
    longer := Step(env, start, actions, s, AcceptTx(i, hash));
    s' := Apply(env, s, AcceptTx(i, hash));
  }

  /** The chain executes it, and the call sees that and commits. */
  lemma DoExecuteAndCommit(env: Env, start: State, actions: seq<Action>, s: State,
                           i: nat, req: PaymentRequest, hash: string)
    returns (longer: seq<Action>, s': State)
    requires Exec(env, start, actions) == Some(s)
    requires i in s.calls && s.calls[i] == Call(SettleCall, req, Submitted(hash))
    requires Enabled(s, Execute(i, true))
    ensures Exec(env, start, longer) == Some(s') && Alone(actions, longer, i)
    ensures s'.calls == s.calls[i := Call(SettleCall, req, Done(Success(hash)))]
    ensures s'.store == CommitSpec(s.store, KeyOf(req), hash).0
  {
    longer := Step(env, start, actions, s, Execute(i, true));
    var t := Apply(env, s, Execute(i, true));
    longer := Step(env, start, longer, t, SeeIncluded(i));
    var u := SetPhase(t, i, Phase.Landed(hash));
    longer := Step(env, start, longer, u, Action.Commit(i));
    s' := Apply(env, u, Action.Commit(i));
    assert s'.calls == s.calls[i := Call(SettleCall, req, Done(Success(hash)))];
  }

  /** The chain could execute what the request signed, now. */
  predicate Affordable(s: State, a: Authorization) {
    Sendable(s.ledger, a) && Covers(s.ledger, TxFor(a, "").value.account, TxFor(a, "").value.amount)
  }

  /** The outcome can come about: a node accepts what can be read, and a chain executes what can be afforded. */
  predicate Feasible(s: State, a: Authorization, outcome: Outcome) {
    match outcome
    case Confirmed(_) => Affordable(s, a)
    case NotAccepted => true
    case Unconfirmed(_) => TxFor(a, "").Some?
  }

  /** The broadcast fails before or after the node accepted, and the reservation is released. */
  lemma DoFailAndRelease(env: Env, start: State, actions: seq<Action>, s: State,
                         i: nat, req: PaymentRequest, fails: Action)
    returns (longer: seq<Action>, s': State)
    requires Exec(env, start, actions) == Some(s) && Enabled(s, fails)
    requires (fails.RejectTx? || fails.GiveUp?) && fails.i == i
    requires s.calls[i].kind == SettleCall && s.calls[i].req == req
    ensures Exec(env, start, longer) == Some(s') && Alone(actions, longer, i)
    ensures s' == s.(calls := s.calls[i := Call(SettleCall, req, Done(Refused(BroadcastFailed)))],
                     store := ReleaseSpec(s.store, KeyOf(req)).0)
  {
    longer := Step(env, start, actions, s, fails);
    var t := SetPhase(s, i, Failed);
    longer := Step(env, start, longer, t, Action.Release(i));
    s' := Apply(env, t, Action.Release(i));
    assert s'.calls == s.calls[i := Call(SettleCall, req, Done(Refused(BroadcastFailed)))];
  }

  lemma DoConfirm(env: Env, start: State, actions: seq<Action>, s: State, i: nat, req: PaymentRequest, hash: string)
    returns (longer: seq<Action>, s': State)
    requires Exec(env, start, actions) == Some(s) && i in s.calls && s.calls[i] == Call(SettleCall, req, Phase.Reserved)
    requires Affordable(s, req.Auth())
    ensures Exec(env, start, longer) == Some(s') && Alone(actions, longer, i)
    ensures s'.calls == s.calls[i := Call(SettleCall, req, Done(Success(hash)))]
    ensures s'.store == CommitSpec(s.store, KeyOf(req), hash).0
  {
    var t;
    longer, t := DoAccept(env, start, actions, s, i, req, hash);
    longer, s' := DoExecuteAndCommit(env, start, longer, t, i, req, hash);
  }

  /** All that a broadcast can come to: the store and the answer of a reserved call are those of SettleSpec. */
  lemma SoloBroadcast(env: Env, start: State, actions: seq<Action>, s: State,
                      i: nat, req: PaymentRequest, outcome: Outcome)
    returns (longer: seq<Action>, s': State)
    requires Exec(env, start, actions) == Some(s) && i in s.calls && s.calls[i] == Call(SettleCall, req, Phase.Reserved)
    requires Feasible(s, req.Auth(), outcome)
    ensures Exec(env, start, longer) == Some(s') && Alone(actions, longer, i)
    ensures s'.calls == s.calls[i := Call(SettleCall, req,
      Done(if outcome.Confirmed? then Success(outcome.txHash) else Refused(BroadcastFailed)))]
    ensures s'.store ==
      if outcome.Confirmed? then CommitSpec(s.store, KeyOf(req), outcome.txHash).0
      else ReleaseSpec(s.store, KeyOf(req)).0
  {
    match outcome {
      case Confirmed(txHash) =>
        longer, s' := DoConfirm(env, start, actions, s, i, req, txHash);
      case NotAccepted =>
        longer, s' := DoFailAndRelease(env, start, actions, s, i, req, RejectTx(i));
      case Unconfirmed(txHash) =>
        var t;
        longer, t := DoAccept(env, start, actions, s, i, req, txHash);
        longer, s' := DoFailAndRelease(env, start, longer, t, i, req, GiveUp(i));
        assert s'.calls == s.calls[i := Call(SettleCall, req, Done(Refused(BroadcastFailed)))];
    }
  }

  lemma SoloReserveAndBroadcast(env: Env, start: State, actions: seq<Action>, s: State, i: nat, req: PaymentRequest,
                                outcome: Outcome)
    returns (longer: seq<Action>, s': State)
    requires Exec(env, start, actions) == Some(s) && i in s.calls && s.calls[i] == Call(SettleCall, req, Verified)
    requires Feasible(s, req.Auth(), outcome)
    ensures Exec(env, start, longer) == Some(s') && Alone(actions, longer, i) && s'.calls.Keys == s.calls.Keys
    ensures s'.store == SettleSpec(s.store, req, Ok(req.Auth().from), outcome).0
    ensures Answers(s'.calls[i], SettleSpec(s.store, req, Ok(req.Auth().from), outcome).1)
  {
    if KeyOf(req) in s.store {
      longer := Step(env, start, actions, s, Action.Reserve(i));
      s' := Apply(env, s, Action.Reserve(i));
    } else {
      var t;
      longer, t := DoReserve(env, start, actions, s, i, req);
      longer, s' := SoloBroadcast(env, start, longer, t, i, req, outcome);
      SettledStore(s.store, req, outcome);
    }
  }

  lemma SettledStore(t: Table<string>, req: PaymentRequest, outcome: Outcome)
    requires KeyOf(req) !in t
    ensures var k, deadline := KeyOf(req), Deadline(req.Auth().validBefore);
      var reserved := ReserveSpec(t, k, deadline).0;
      SettleSpec(t, req, Ok(req.Auth().from), outcome).0 ==
        if outcome.Confirmed? then CommitSpec(reserved, k, outcome.txHash).0 else ReleaseSpec(reserved, k).0
  {
    var k := KeyOf(req);
    var reserved := ReserveSpec(t, k, Deadline(req.Auth().validBefore)).0;
    assert reserved - {k} == t;
  }

  lemma RefusalAnswers(t: Table<string>, req: PaymentRequest, e: VerifyError, outcome: Outcome)
    ensures SettleSpec(t, req, Err(e), outcome).0 == t
    ensures Answers(Call(SettleCall, req, Done(Invalid(e.code))), SettleSpec(t, req, Err(e), outcome).1)
  {
  }

  lemma VerdictPayer(env: Env, req: PaymentRequest, obs: Observations)
    ensures Verify(env, req, obs).Ok? ==> Verify(env, req, obs) == Ok(req.Auth().from)
  {
  }

  /** Run alone, the transition system does to the store and answers what the Settle method does and answers. */
  lemma SoloSettle(env: Env, start: State, actions: seq<Action>, s: State, i: nat, req: PaymentRequest,
                   grant: GrantAnswer, grantClock: Instant, balance: BalanceAnswer, outcome: Outcome)
    returns (longer: seq<Action>, s': State)
    requires Exec(env, start, actions) == Some(s) && i !in s.calls && s.clock <= grantClock
    requires Feasible(s, req.Auth(), outcome)
    ensures Exec(env, start, longer) == Some(s') && Alone(actions, longer, i) && s'.calls.Keys == s.calls.Keys + {i}
    ensures var verdict := Verify(env, req, SoloObservations(s, req, grant, grantClock, balance));
      && s'.store == SettleSpec(s.store, req, verdict, outcome).0
      && Answers(s'.calls[i], SettleSpec(s.store, req, verdict, outcome).1)
  {
    longer, s' := SoloVerify(env, start, actions, s, i, SettleCall, req, grant, grantClock, balance);
    var verdict := Verify(env, req, SoloObservations(s, req, grant, grantClock, balance));
    VerdictPayer(env, req, SoloObservations(s, req, grant, grantClock, balance));
    if verdict.Err? {
      RefusalAnswers(s.store, req, verdict.error, outcome);
    } else {
      longer, s' := SoloReserveAndBroadcast(env, start, longer, s', i, req, outcome);
    }
  }
}
