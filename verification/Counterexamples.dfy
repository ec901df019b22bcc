/** Runs from the start that show which hypotheses of exactly-once cannot be dropped, and that a payment can double. */
module Counterexamples {
  import opened Wrappers
  import opened Types
  import opened Decimals
  import opened Coins
  import opened NonceStore
  import opened Verifier
  import opened Settler
  import opened Protocol
  import opened ExactlyOnce
  import opened Conservation
  import opened Verdicts
  import opened Runs
  import opened Hazards
  import opened Retries

  /** One settle holds a reservation, and nothing else has happened but time. */
  lemma ReservedOnly(env: Env, s0: State, req: PaymentRequest, grant: GrantAnswer, balance: BalanceAnswer)
    returns (actions: seq<Action>, s: State)
    requires Initial(s0) && Acceptable(env, req, s0.clock, grant, balance)
    ensures Exec(env, s0, actions) == Some(s) && GcFree(actions)
    ensures s == s0.(calls := map[0 := Call(SettleCall, req, Phase.Reserved)],
                     store := map[KeyOf(req) := Entry(false, "", Deadline(req.Auth().validBefore))])
  {
    actions, s := Prepare(env, s0, [], s0, 0, req, grant, balance);
    actions, s := DoReserve(env, s0, actions, s, 0, req);
    assert s.calls == map[0 := Call(SettleCall, req, Phase.Reserved)];
  }

  lemma DoTick(env: Env, start: State, actions: seq<Action>, s: State, now: Instant)
    returns (longer: seq<Action>, s': State)
    requires Exec(env, start, actions) == Some(s) && s.clock <= now
    ensures Exec(env, start, longer) == Some(s') && Longer(actions, longer) && s' == s.(clock := now)
  {
    longer := Step(env, start, actions, s, Tick(now));
    s' := s.(clock := now);
  }

  // ---- Clear collections cannot be dropped ----

  /** Two calls of one request stand before their reservations. */
  lemma TwoVerified(env: Env, s0: State, req: PaymentRequest, grant: GrantAnswer, balance: BalanceAnswer,
                    i: nat, j: nat)
    returns (actions: seq<Action>, s: State)
    requires Initial(s0) && Acceptable(env, req, s0.clock, grant, balance) && i != j
    ensures Exec(env, s0, actions) == Some(s) && GcFree(actions)
    ensures s == s0.(calls := map[i := Call(SettleCall, req, Verified), j := Call(SettleCall, req, Verified)])
  {
    actions, s := Prepare(env, s0, [], s0, i, req, grant, balance);
    actions, s := Prepare(env, s0, actions, s, j, req, grant, balance);
  }

  lemma ReserveAndTick(env: Env, start: State, actions: seq<Action>, s: State, i: nat, req: PaymentRequest,
                       late: Instant)
    returns (longer: seq<Action>, s': State)
    requires Exec(env, start, actions) == Some(s) && i in s.calls && s.calls[i] == Call(SettleCall, req, Verified)
    requires s.store == map[] && s.clock <= late
    ensures Exec(env, start, longer) == Some(s') && Longer(actions, longer)
    ensures s' == s.(clock := late, calls := s.calls[i := Call(SettleCall, req, Phase.Reserved)],
                     store := map[KeyOf(req) := Entry(false, "", Deadline(req.Auth().validBefore))])
  {
    longer, s' := DoReserve(env, start, actions, s, i, req);
    longer, s' := DoTick(env, start, longer, s', late);
  }

  lemma OneRequest(s: State, t: State, req: PaymentRequest)
    requires SameRequests(s, t) && forall c | c in s.calls :: s.calls[c].req == req
    requires Deadline(req.Auth().validBefore) == req.Auth().validBefore
    ensures Fresh(t) && ExactDeadlines(t) && forall c | c in t.calls :: KeyAt(t, c) == KeyOf(req)
  {
  }

  lemma VerifiedCanReserve(env: Env, s0: State, s: State, j: nat, req: PaymentRequest)
    requires Sendable(s0.ledger, req.Auth()) && s.ledger == s0.ledger
    requires j in s.calls && s.calls[j] == Call(SettleCall, req, Verified)
    ensures CanReserve(env, s, j)
  {
  }

  /**
   Any acceptable request that can be sent settles twice when its reservation expires and is collected while a second
   call sits between its clock check and its own reservation.
   */
  lemma StraddledCollectionSettlesTwice(env: Env, s0: State, req: PaymentRequest, grant: GrantAnswer,
                                        balance: BalanceAnswer, late: Instant, hash: string, hash': string)
    returns (actions: seq<Action>, t: State)
    requires Initial(s0) && Acceptable(env, req, s0.clock, grant, balance)
    requires Deadline(req.Auth().validBefore) == req.Auth().validBefore
    requires s0.clock <= late && late > req.Auth().validBefore * NANOS
    requires Sendable(s0.ledger, req.Auth())
    ensures Exec(env, s0, actions) == Some(t) && Fresh(t) && ExactDeadlines(t)
    ensures Succeeded(t, 0) && Succeeded(t, 1) && KeyAt(t, 0) == KeyAt(t, 1) == KeyOf(req)
  {
    var s;
    actions, s := TwoVerified(env, s0, req, grant, balance, 0, 1);
    actions, s := ReserveAndTick(env, s0, actions, s, 0, req, late);
    AnewCanConfirm(s0, s, 0, req);
    VerifiedCanReserve(env, s0, s, 1, req);
    assert KeyAt(s, 0) == KeyOf(req) && KeyAt(s, 1) == KeyOf(req);
    actions, t := HazardousCollection(env, s0, actions, s, 0, 1, KeyOf(req), late, hash, hash');
    OneRequest(s, t, req);
  }

  lemma ThreeVerified(env: Env, s0: State, req: PaymentRequest, grant: GrantAnswer, balance: BalanceAnswer)
    returns (actions: seq<Action>, s: State)
    requires Initial(s0) && Acceptable(env, req, s0.clock, grant, balance)
    ensures Exec(env, s0, actions) == Some(s) && GcFree(actions)
    ensures s.calls.Keys == {0, 1, 2} && forall c | c in s.calls :: s.calls[c] == Call(SettleCall, req, Verified)
    ensures s == s0.(calls := s.calls)
  {
    actions, s := TwoVerified(env, s0, req, grant, balance, 1, 2);
    actions, s := Prepare(env, s0, actions, s, 0, req, grant, balance);
  }

  /** Call 0 has failed to broadcast, its reservation has expired, and calls 1 and 2 stand before their own. */
  lemma DoomedPrefix(env: Env, s0: State, req: PaymentRequest, grant: GrantAnswer, balance: BalanceAnswer,
                     late: Instant)
    returns (actions: seq<Action>, s: State)
    requires Initial(s0) && Acceptable(env, req, s0.clock, grant, balance) && s0.clock <= late
    ensures Exec(env, s0, actions) == Some(s) && s.clock == late
    ensures At(s, 0, Failed) && At(s, 1, Verified) && At(s, 2, Verified)
    ensures forall c | c in s.calls :: s.calls[c].req == req && s.calls[c].kind == SettleCall
    ensures s.store == map[KeyOf(req) := Entry(false, "", Deadline(req.Auth().validBefore))] && s.ledger == s0.ledger
  {
    actions, s := ThreeVerified(env, s0, req, grant, balance);
    actions, s := ReserveAndTick(env, s0, actions, s, 0, req, late);
    actions := Step(env, s0, actions, s, RejectTx(0));
    s := SetPhase(s, 0, Failed);
  }

  /** The same happens when the first broadcast fails and its Release deletes the second call's reservation. */
  lemma DeletedReservationSettlesTwice(env: Env, s0: State, req: PaymentRequest, grant: GrantAnswer,
                                       balance: BalanceAnswer, late: Instant, hash: string, hash': string)
    returns (actions: seq<Action>, t: State)
    requires Initial(s0) && Acceptable(env, req, s0.clock, grant, balance)
    requires Deadline(req.Auth().validBefore) == req.Auth().validBefore
    requires s0.clock <= late && late > req.Auth().validBefore * NANOS
    requires Sendable(s0.ledger, req.Auth())
    ensures Exec(env, s0, actions) == Some(t) && Fresh(t) && ExactDeadlines(t)
    ensures Succeeded(t, 1) && Succeeded(t, 2) && KeyAt(t, 1) == KeyAt(t, 2) == KeyOf(req)
  {
    var s;
    actions, s := DoomedPrefix(env, s0, req, grant, balance, late);
    VerifiedCanReserve(env, s0, s, 1, req);
    VerifiedCanReserve(env, s0, s, 2, req);
    actions, t := ReleaseFreesAnothersKey(env, s0, actions, s, 0, 1, 2, KeyOf(req), late, hash, hash');
    OneRequest(s, t, req);
  }

  // ---- Freshness and exact deadlines cannot be dropped ----

  /** A collection with one call around is clear. */
  lemma CollectedPrefix(env: Env, s0: State, req: PaymentRequest, grant: GrantAnswer, balance: BalanceAnswer,
                        late: Instant)
    returns (actions: seq<Action>, s: State)
    requires Initial(s0) && Acceptable(env, req, s0.clock, grant, balance)
    requires s0.clock <= late && late > Deadline(req.Auth().validBefore) * NANOS
    ensures Exec(env, s0, actions) == Some(s) && ClearRun(env, s0, actions)
    ensures s == s0.(calls := map[0 := Call(SettleCall, req, Phase.Reserved)], clock := late)
  {
    var front, t;
    front, t := ReservedOnly(env, s0, req, grant, balance);
    front, t := DoTick(env, s0, front, t, late);
    ClearLonger(env, s0, [], front);
    assert Clear(env, t, late);
    actions := Step(env, s0, front, t, Collect(late));
    assert actions[..|actions| - 1] == front;
    s := t.(store := CollectSpec(t.store, late));
    assert s.store == map[];
  }

  lemma ReservedAfterCollection(env: Env, s0: State, req: PaymentRequest, req': PaymentRequest,
                                grant: GrantAnswer, balance: BalanceAnswer,
                                grant': GrantAnswer, balance': BalanceAnswer,
                                late: Instant)
    returns (actions: seq<Action>, s: State)
    requires Initial(s0) && Acceptable(env, req, s0.clock, grant, balance)
    requires s0.clock <= late && late > Deadline(req.Auth().validBefore) * NANOS
    requires Acceptable(env, req', late, grant', balance') && KeyOf(req) == KeyOf(req')
    ensures Exec(env, s0, actions) == Some(s) && ClearRun(env, s0, actions)
    ensures s.calls == map[0 := Call(SettleCall, req, Phase.Reserved), 1 := Call(SettleCall, req', Phase.Reserved)]
    ensures s.ledger == s0.ledger
  {
    var front;
    front, s := CollectedPrefix(env, s0, req, grant, balance, late);
    actions, s := ReserveAnew(env, s0, front, s, 1, req', grant', balance');
    ClearLonger(env, s0, front, actions);
  }

  /** Reserved, expired, collected with no other call around, reserved again by a second call, and both paid. */
  lemma CollectedThenPaidTwice(env: Env, s0: State, req: PaymentRequest, req': PaymentRequest,
                               grant: GrantAnswer, balance: BalanceAnswer, grant': GrantAnswer, balance': BalanceAnswer,
                               late: Instant, hash: string, hash': string)
    returns (actions: seq<Action>, t: State)
    requires Initial(s0) && Acceptable(env, req, s0.clock, grant, balance)
    requires s0.clock <= late && late > Deadline(req.Auth().validBefore) * NANOS
    requires Acceptable(env, req', late, grant', balance') && KeyOf(req) == KeyOf(req')
    requires Sendable(s0.ledger, req.Auth()) && Sendable(s0.ledger, req'.Auth())
    ensures Exec(env, s0, actions) == Some(t) && ClearRun(env, s0, actions)
    ensures Succeeded(t, 0) && Succeeded(t, 1)
    ensures t.calls.Keys == {0, 1} && t.calls[0].req == req && t.calls[1].req == req'
  {
    var middle, s := ReservedAfterCollection(env, s0, req, req', grant, balance, grant', balance', late);
    AnewCanConfirm(s0, s, 0, req);
    AnewCanConfirm(s0, s, 1, req');
    actions, t := ConfirmBoth(env, s0, middle, s, 0, 1, hash, hash');
    ClearLonger(env, s0, middle, actions);
  }

  /** Exact deadlines cannot be dropped: beyond the bound a reservation is collected at once. */
  lemma InexactDeadlineSettlesTwice(env: Env, s0: State, req: PaymentRequest, grant: GrantAnswer,
                                    balance: BalanceAnswer, hash: string, hash': string)
    returns (actions: seq<Action>, t: State)
    requires Initial(s0) && Acceptable(env, req, s0.clock, grant, balance) && s0.clock >= 0
    requires req.Auth().validBefore >= TWO_TO_63 - UNIX_TO_INTERNAL
    requires Sendable(s0.ledger, req.Auth())
    ensures Exec(env, s0, actions) == Some(t) && ClearRun(env, s0, actions)
    ensures Succeeded(t, 0) && Succeeded(t, 1) && KeyAt(t, 0) == KeyAt(t, 1) == KeyOf(req) && Fresh(t)
  {
    DeadlineExact(req.Auth().validBefore);
    actions, t := CollectedThenPaidTwice(env, s0, req, req, grant, balance, grant, balance, s0.clock, hash, hash');
  }

  /** Freshness cannot be dropped: a nonce signed again with a later deadline settles a second time. */
  lemma ReusedNonceSettlesTwice(env: Env, s0: State, req: PaymentRequest, req': PaymentRequest,
                                grant: GrantAnswer, balance: BalanceAnswer,
                                grant': GrantAnswer, balance': BalanceAnswer,
                                late: Instant, hash: string, hash': string)
    returns (actions: seq<Action>, t: State)
    requires Initial(s0) && Acceptable(env, req, s0.clock, grant, balance)
    requires Deadline(req.Auth().validBefore) == req.Auth().validBefore
    requires Deadline(req'.Auth().validBefore) == req'.Auth().validBefore
    requires s0.clock <= late && late > req.Auth().validBefore * NANOS
    requires Acceptable(env, req', late, grant', balance') && KeyOf(req) == KeyOf(req')
    requires Sendable(s0.ledger, req.Auth()) && Sendable(s0.ledger, req'.Auth())
    ensures Exec(env, s0, actions) == Some(t) && ClearRun(env, s0, actions)
    ensures Succeeded(t, 0) && Succeeded(t, 1) && KeyAt(t, 0) == KeyAt(t, 1) == KeyOf(req) && ExactDeadlines(t)
  {
    actions, t := CollectedThenPaidTwice(env, s0, req, req', grant, balance, grant', balance', late, hash, hash');
  }

  // ---- The replay bound is tight ----

  lemma GiveUpSubmitted(env: Env, start: State, actions: seq<Action>, t: State, i: nat, req: PaymentRequest,
                        hash: string)
    returns (longer: seq<Action>, s: State)
    requires Exec(env, start, actions) == Some(t)
    requires i in t.calls && t.calls[i] == Call(SettleCall, req, Submitted(hash))
    ensures Exec(env, start, longer) == Some(s) && Longer(actions, longer)
    ensures s == t.(calls := t.calls[i := Call(SettleCall, req, Done(Refused(BroadcastFailed)))],
                    store := ReleaseSpec(t.store, KeyOf(req)).0)
  {
    longer, s := DoFailAndRelease(env, start, actions, t, i, req, GiveUp(i));
  }

  /** The node accepts the call's transaction, the call gives up on it, and the reservation is released. */
  lemma Lose(env: Env, start: State, actions: seq<Action>, t: State, i: nat, req: PaymentRequest, hash: string)
    returns (longer: seq<Action>, s: State)
    requires Exec(env, start, actions) == Some(t) && i in t.calls && t.calls[i] == Call(SettleCall, req, Phase.Reserved)
    requires TxFor(req.Auth(), hash).Some?
    ensures Exec(env, start, longer) == Some(s) && Longer(actions, longer)
    ensures s == t.(calls := t.calls[i := Call(SettleCall, req, Done(Refused(BroadcastFailed)))],
                    txs := t.txs[i := TxFor(req.Auth(), hash).value],
                    store := ReleaseSpec(t.store, KeyOf(req)).0)
  {
    var u;
    longer, u := DoAccept(env, start, actions, t, i, req, hash);
    longer, s := GiveUpSubmitted(env, start, longer, u, i, req, hash);
    assert s.calls == t.calls[i := Call(SettleCall, req, Done(Refused(BroadcastFailed)))];
  }

  lemma SentAgain(a: Authorization, hash: string)
    requires TxFor(a, "").Some?
    ensures TxFor(a, hash).Some?
  {
  }

  lemma SentIsViable(s: State, u: nat, a: Authorization, hash: string)
    requires Sendable(s.ledger, a) && u in s.txs && s.txs[u] == TxFor(a, hash).value
    ensures Viable(s, u)
  {
  }

  lemma LostBroadcast(env: Env, s0: State, req: PaymentRequest, grant: GrantAnswer, balance: BalanceAnswer,
                      hash: string)
    returns (actions: seq<Action>, s: State)
    requires Initial(s0) && Acceptable(env, req, s0.clock, grant, balance) && Sendable(s0.ledger, req.Auth())
    ensures Exec(env, s0, actions) == Some(s) && GcFree(actions) && Viable(s, 0)
    ensures s.calls == map[0 := Call(SettleCall, req, Done(Refused(BroadcastFailed)))] && s.store == map[]
    ensures s.ledger == s0.ledger && s.clock == s0.clock && s.txs.Keys == {0}
  {
    var t;
    actions, t := ReservedOnly(env, s0, req, grant, balance);
    SentAgain(req.Auth(), hash);
    actions, s := Lose(env, s0, actions, t, 0, req, hash);
    SentIsViable(s, 0, req.Auth(), hash);
    assert s.calls == map[0 := Call(SettleCall, req, Done(Refused(BroadcastFailed)))];
    assert s.store == map[];
  }

  /** Any acceptable request that can be sent, lost once and retried, can be paid twice with no collection. */
  lemma UnconfirmedBroadcastPaysTwice(env: Env, s0: State, req: PaymentRequest, grant: GrantAnswer,
                                      balance: BalanceAnswer, hash: string, hash': string)
    returns (actions: seq<Action>, t: State)
    requires Initial(s0) && Acceptable(env, req, s0.clock, grant, balance) && Sendable(s0.ledger, req.Auth())
    ensures Exec(env, s0, actions) == Some(t) && GcFree(actions)
    ensures UnconfirmedFor(t, KeyOf(req)) == {0} && SucceededFor(t, KeyOf(req)) == {1}
    ensures ExecutedFor(t, KeyOf(req)) == {0, 1}
  {
    var front, s;
    front, s := LostBroadcast(env, s0, req, grant, balance, hash);
    LostIsUnconfirmed(s, req);
    actions, t := RetryPaysTwice(env, s0, front, s, 0, 1, req, grant, balance, hash');
    OnlyTwo(t, KeyOf(req));
  }

  lemma LostIsUnconfirmed(s: State, req: PaymentRequest)
    requires s.calls == map[0 := Call(SettleCall, req, Done(Refused(BroadcastFailed)))] && s.txs.Keys == {0}
    ensures 0 in s.calls && KeyAt(s, 0) == KeyOf(req) && UnconfirmedFor(s, KeyOf(req)) == {0}
  {
  }

  lemma OnlyTwo(t: State, k: string)
    requires t.calls.Keys == {0, 1} && UnconfirmedFor(t, k) == {0} && Succeeded(t, 1)
    requires 0 in ExecutedFor(t, k) && 1 in ExecutedFor(t, k)
    ensures SucceededFor(t, k) == {1} && ExecutedFor(t, k) == {0, 1}
  {
    assert 0 in UnconfirmedFor(t, k);
  }

  // ---- Requests that meet the hypotheses ----

  /** One registered network, signatures taken as valid. */
  function PlainEnv(): Env {
    Env(map["cosmos:noble-1" := Client("noble-1", "noble")], (key, sig, a, prefix) => true)
  }

  function PlainRequest(validAfter: uint64, validBefore: uint64): PaymentRequest {
    var a := Authorization("noble1p", "noble1r", "uusdc", "1", "0x01", validAfter, validBefore, "r", "noble-1");
    PaymentRequest(
      PaymentPayload(2, SCHEME, "cosmos:noble-1", CosmosPayload("noble1p", "", "", a)),
      PaymentRequirements(SCHEME, "cosmos:noble-1", "1", "uusdc", "noble1r", "r", "", "", 0,
                          RequirementsExtra("noble1f", "noble-1", 6, "USDC")))
  }

  /** Nothing granted, nothing held, every account open. */
  function EmptyStart(clock: Instant): State {
    State(clock, map[], map[], map[], Ledger(map[], map[], map[], map[], map[], {}))
  }

  lemma PlainRequestChecks(validAfter: uint64, validBefore: uint64)
    ensures CheckRequest(PlainEnv(), PlainRequest(validAfter, validBefore)).None?
  {
    var network := "cosmos:noble-1";
    assert network[|"cosmos:"|..] == "noble-1";
  }

  lemma PlainRequestIsSendable(a: Authorization, clock: Instant)
    requires a.amount == "1" && a.denom == "uusdc"
    ensures Sendable(EmptyStart(clock).ledger, a)
  {
    ShortAmountInRange(a.amount);
    DigitsPayAsWritten(a.amount, a.denom);
    assert a.amount[..0] == "" && Value(a.amount) == 1;
  }

  lemma PlainGrantCovers(validAfter: uint64, validBefore: uint64, clock: Instant)
    ensures CheckGrant(PlainRequest(validAfter, validBefore).Auth(), Grant("1", None), clock).None?
  {
  }

  lemma PlainRequestIsAcceptable(validAfter: uint64, validBefore: uint64, clock: Instant)
    requires clock >= 0 && validAfter <= UnixSeconds(clock) < validBefore
    ensures Acceptable(PlainEnv(), PlainRequest(validAfter, validBefore), clock, Grant("1", None), BalanceFailure)
  {
    var req := PlainRequest(validAfter, validBefore);
    PlainRequestChecks(validAfter, validBefore);
    PlainGrantCovers(validAfter, validBefore, clock);
    WindowIsExact(req.Auth(), 0, UnixSeconds(clock));
    AllChecksVerify(PlainEnv(), req, Observations(clock, Unseen, Grant("1", None), clock, BalanceFailure));
  }

  lemma PlainKeys(req: PaymentRequest, req': PaymentRequest)
    requires req.Auth() == req'.Auth().(validAfter := req.Auth().validAfter, validBefore := req.Auth().validBefore)
    ensures KeyOf(req) == KeyOf(req')
  {
  }

  /** A request that InexactDeadlineSettlesTwice speaks of. */
  lemma InexactDeadlineInstance()
    ensures Acceptable(PlainEnv(), PlainRequest(0, TWO_TO_63), 0, Grant("1", None), BalanceFailure)
    ensures Initial(EmptyStart(0)) && Sendable(EmptyStart(0).ledger, PlainRequest(0, TWO_TO_63).Auth())
    ensures PlainRequest(0, TWO_TO_63).Auth().validBefore >= TWO_TO_63 - UNIX_TO_INTERNAL
  {
    PlainRequestIsAcceptable(0, TWO_TO_63, 0);
    PlainRequestIsSendable(PlainRequest(0, TWO_TO_63).Auth(), 0);
  }

  /** Two requests that ReusedNonceSettlesTwice speaks of, the second one acceptable when the first has expired. */
  lemma ReusedNonceInstance(first: uint64, second: uint64, start: Instant, late: Instant)
    requires first == 100 && second == 200 && start == 50 * NANOS && late == 150 * NANOS
    ensures var req, req' := PlainRequest(0, first), PlainRequest(first, second);
      && Initial(EmptyStart(start)) && KeyOf(req) == KeyOf(req')
      && Sendable(EmptyStart(start).ledger, req.Auth()) && Sendable(EmptyStart(start).ledger, req'.Auth())
      && Acceptable(PlainEnv(), req, start, Grant("1", None), BalanceFailure)
      && Acceptable(PlainEnv(), req', late, Grant("1", None), BalanceFailure)
    ensures Deadline(first) == first && Deadline(second) == second && late > first * NANOS
    ensures PlainRequest(0, first).Auth().validBefore == first
    ensures PlainRequest(first, second).Auth().validBefore == second
  {
    var req, req' := PlainRequest(0, first), PlainRequest(first, second);
    PlainRequestIsAcceptable(0, first, start);
    PlainRequestIsAcceptable(first, second, late);
    PlainRequestIsSendable(req.Auth(), start);
    PlainRequestIsSendable(req'.Auth(), start);
    PlainKeys(req, req');
    DeadlineExact(first);
    DeadlineExact(second);
  }
}
