/** Exactly when a collection, or a retry, lets one nonce key be paid twice. */
module Hazards {
  import opened Wrappers
  import opened Types
  import opened NonceStore
  import opened Verifier
  import opened Protocol
  import opened ExactlyOnce
  import opened Runs

  // ---- Going on with a call that can still win ----

  /** Call i stands in this phase now; other calls and their transactions are as they were. */
  ghost predicate Reaches(s: State, s': State, i: nat, phase: Phase)
    requires i in s.calls
  {
    && s'.calls == s.calls[i := s.calls[i].(phase := phase)]
    && s'.clock == s.clock && s'.store.Keys == s.store.Keys && s'.ledger.closed == s.ledger.closed
    && (forall j | j != i :: j in s.txs <==> j in s'.txs)
    && (forall j | j != i && j in s.txs :: s'.txs[j] == s.txs[j])
  }

  ghost predicate SameRequests(s: State, s': State) {
    s.calls.Keys == s'.calls.Keys && forall c | c in s.calls :: s'.calls[c].req == s.calls[c].req
  }

  lemma AdvanceToVerified(env: Env, start: State, actions: seq<Action>, s: State, j: nat)
    returns (longer: seq<Action>, s': State)
    requires Exec(env, start, actions) == Some(s) && CanPass(env, s, j) && KeyAt(s, j) !in s.store
    ensures Exec(env, start, longer) == Some(s') && Longer(actions, longer)
    ensures Moved(s, s', j, SettleCall, s.calls[j].req, Verified)
  {
    var req := s.calls[j].req;
    longer, s' := actions, s;
    assert Moved(s, s, j, SettleCall, req, s.calls[j].phase);
    if s'.calls[j].phase == InWindow {
      longer, s' := DoReadNonce(env, start, longer, s, s', j, SettleCall, req);
    }
    if s'.calls[j].phase == NonceUnseen {
      longer, s' := DoQueryGrant(env, start, longer, s, s', j, SettleCall, req, Grant(req.Auth().amount, None));
    }
    if s'.calls[j].phase == Granted {
      longer, s' := DoQueryBalance(env, start, longer, s, s', j, SettleCall, req, BalanceFailure);
    }
  }

  lemma Fund(env: Env, start: State, actions: seq<Action>, s: State, account: Account, amount: nat)
    returns (longer: seq<Action>, s': State)
    requires Exec(env, start, actions) == Some(s)
    ensures Exec(env, start, longer) == Some(s') && Longer(actions, longer)
    ensures s' == s.(ledger := s'.ledger) && Covers(s'.ledger, account, amount) && s'.ledger.closed == s.ledger.closed
  {
    longer := Step(env, start, actions, s, RaiseLimit(account, amount));
    s' := Apply(env, s, RaiseLimit(account, amount));
    longer := Step(env, start, longer, s', Deposit(account, amount));
    s' := Apply(env, s', Deposit(account, amount));
  }

  lemma ExecutePending(env: Env, start: State, actions: seq<Action>, s: State, i: nat)
    returns (longer: seq<Action>, s': State)
    requires Exec(env, start, actions) == Some(s) && i in s.txs && s.txs[i].status == Pending
    requires CanMove(s.ledger, s.txs[i])
    ensures Exec(env, start, longer) == Some(s') && Longer(actions, longer)
    ensures s' == s.(txs := s.txs[i := s.txs[i].(status := Executed)], ledger := s'.ledger)
    ensures s'.ledger.closed == s.ledger.closed
  {
    longer, s' := Fund(env, start, actions, s, s.txs[i].account, s.txs[i].amount);
    longer := Step(env, start, longer, s', Execute(i, true));
    s' := Apply(env, s', Execute(i, true));
  }

  lemma SubmittedLands(env: Env, start: State, actions: seq<Action>, s: State, i: nat)
    returns (longer: seq<Action>, s': State)
    requires Exec(env, start, actions) == Some(s) && CanConfirm(s, i) && s.calls[i].phase.Submitted?
    ensures Exec(env, start, longer) == Some(s') && Longer(actions, longer)
    ensures Reaches(s, s', i, Landed(s.calls[i].phase.hash))
  {
    longer, s' := actions, s;
    if s.txs[i].status == Pending {
      longer, s' := ExecutePending(env, start, longer, s', i);
    }
    longer := Step(env, start, longer, s', SeeIncluded(i));
    s' := Apply(env, s', SeeIncluded(i));
  }

  lemma ReservedSubmits(env: Env, start: State, actions: seq<Action>, s: State, i: nat, hash: string)
    returns (longer: seq<Action>, s': State)
    requires Exec(env, start, actions) == Some(s) && CanConfirm(s, i) && s.calls[i].phase == Phase.Reserved
    ensures Exec(env, start, longer) == Some(s') && Longer(actions, longer)
    ensures Reaches(s, s', i, Submitted(hash)) && CanConfirm(s', i)
  {
    longer := Step(env, start, actions, s, AcceptTx(i, hash));
    s' := Apply(env, s, AcceptTx(i, hash));
  }

  lemma LandedCommits(env: Env, start: State, actions: seq<Action>, s: State, i: nat)
    returns (longer: seq<Action>, s': State)
    requires Exec(env, start, actions) == Some(s) && i in s.calls && s.calls[i].phase.Landed?
    ensures Exec(env, start, longer) == Some(s') && Longer(actions, longer)
    ensures Reaches(s, s', i, Done(Success(s.calls[i].phase.hash)))
  {
    longer := Step(env, start, actions, s, Action.Commit(i));
    s' := Apply(env, s, Action.Commit(i));
  }

  lemma ReachesOn(s: State, t: State, u: State, i: nat, p: Phase, q: Phase)
    requires i in s.calls && Reaches(s, t, i, p) && Reaches(t, u, i, q)
    ensures Reaches(s, u, i, q)
  {
    assert u.calls == s.calls[i := s.calls[i].(phase := q)];
  }

  lemma SubmittedConfirms(env: Env, start: State, actions: seq<Action>, s: State, i: nat)
    returns (longer: seq<Action>, s': State)
    requires Exec(env, start, actions) == Some(s) && CanConfirm(s, i) && s.calls[i].phase.Submitted?
    ensures Exec(env, start, longer) == Some(s') && Longer(actions, longer)
    ensures Reaches(s, s', i, Done(Success(s.calls[i].phase.hash)))
  {
    var t;
    longer, t := SubmittedLands(env, start, actions, s, i);
    longer, s' := LandedCommits(env, start, longer, t, i);
    ReachesOn(s, t, s', i, t.calls[i].phase, s'.calls[i].phase);
  }

  lemma ReservedConfirms(env: Env, start: State, actions: seq<Action>, s: State, i: nat, hash: string)
    returns (longer: seq<Action>, s': State)
    requires Exec(env, start, actions) == Some(s) && CanConfirm(s, i) && s.calls[i].phase == Phase.Reserved
    ensures Exec(env, start, longer) == Some(s') && Longer(actions, longer)
    ensures Reaches(s, s', i, Done(Success(hash)))
  {
    var t;
    longer, t := ReservedSubmits(env, start, actions, s, i, hash);
    longer, s' := SubmittedConfirms(env, start, longer, t, i);
    ReachesOn(s, t, s', i, Submitted(hash), Done(Success(hash)));
  }

  lemma ConfirmHolder(env: Env, start: State, actions: seq<Action>, s: State, i: nat, hash: string)
    returns (longer: seq<Action>, s': State, h: string)
    requires Exec(env, start, actions) == Some(s) && CanConfirm(s, i)
    ensures Exec(env, start, longer) == Some(s') && Longer(actions, longer)
    ensures Reaches(s, s', i, Done(Success(h)))
  {
    if s.calls[i].phase == Phase.Reserved {
      longer, s' := ReservedConfirms(env, start, actions, s, i, hash);
      h := hash;
    } else if s.calls[i].phase.Submitted? {
      longer, s' := SubmittedConfirms(env, start, actions, s, i);
      h := s.calls[i].phase.hash;
    } else {
      longer, s' := LandedCommits(env, start, actions, s, i);
      h := s.calls[i].phase.hash;
    }
  }

  /** What can reserve and has reserved can confirm. */
  lemma ReservedCanConfirm(env: Env, t: State, s: State, j: nat)
    requires CanReserve(env, t, j) && At(s, j, Phase.Reserved) && s.ledger == t.ledger
    requires AuthAt(s, j) == AuthAt(t, j)
    ensures CanConfirm(s, j)
  {
  }

  lemma StillCanConfirm(s: State, s': State, i: nat)
    requires CanConfirm(s, i) && i in s'.calls && s'.calls[i] == s.calls[i]
    requires s'.ledger == s.ledger && s'.txs == s.txs
    ensures CanConfirm(s', i)
  {
  }

  lemma ConfirmBoth(env: Env, start: State, actions: seq<Action>, t: State, i: nat, j: nat, hash: string, hash': string)
    returns (longer: seq<Action>, s: State)
    requires Exec(env, start, actions) == Some(t) && CanConfirm(t, i) && CanConfirm(t, j) && i != j
    ensures Exec(env, start, longer) == Some(s) && Longer(actions, longer)
    ensures Succeeded(s, i) && Succeeded(s, j) && SameRequests(t, s)
  {
    var h, h', u;
    longer, u, h := ConfirmHolder(env, start, actions, t, i, hash);
    longer, s, h' := ConfirmHolder(env, start, longer, u, j, hash');
  }

  lemma DoCollect(env: Env, start: State, actions: seq<Action>, t: State, k: string, at: Instant)
    returns (longer: seq<Action>, s: State)
    requires Exec(env, start, actions) == Some(t) && Collects(t, k, at) && at <= t.clock
    ensures Exec(env, start, longer) == Some(s) && longer == actions + [Collect(at)]
    ensures s == t.(store := s.store) && k !in s.store
  {
    longer := Step(env, start, actions, t, Collect(at));
    s := t.(store := CollectSpec(t.store, at));
  }

  // ---- First hazard: the holder and one other ----

  lemma ReserveAgain(env: Env, start: State, actions: seq<Action>, t: State, i: nat, j: nat)
    returns (longer: seq<Action>, s: State)
    requires Exec(env, start, actions) == Some(t)
    requires CanConfirm(t, i) && CanReserve(env, t, j) && KeyAt(t, j) !in t.store
    ensures Exec(env, start, longer) == Some(s) && Longer(actions, longer)
    ensures CanConfirm(s, i) && CanConfirm(s, j) && i != j && SameRequests(t, s)
  {
    var u;
    longer, u := AdvanceToVerified(env, start, actions, t, j);
    longer, s := DoReserve(env, start, longer, u, j, t.calls[j].req);
    ReservedCanConfirm(env, t, s, j);
    StillCanConfirm(t, s, i);
  }

  /**
   In any state of any run: a collection that removes the entry of a call that can still be confirmed, while another
   settle of the same key can still reserve, lets both succeed, with no later collection and no new request.
   */
  lemma HazardousCollection(env: Env, start: State, actions: seq<Action>, t: State, i: nat, j: nat,
                            k: string, at: Instant, hash: string, hash': string)
    returns (longer: seq<Action>, s: State)
    requires Exec(env, start, actions) == Some(t) && Collects(t, k, at) && at <= t.clock
    requires CanConfirm(t, i) && CanReserve(env, t, j) && KeyAt(t, j) == k
    ensures Exec(env, start, longer) == Some(s) && Longer(actions + [Collect(at)], longer)
    ensures Succeeded(s, i) && Succeeded(s, j) && i != j && SameRequests(t, s)
  {
    var u, v;
    longer, u := DoCollect(env, start, actions, t, k, at);
    longer, v := ReserveAgain(env, start, longer, u, i, j);
    longer, s := ConfirmBoth(env, start, longer, v, i, j, hash, hash');
  }

  // ---- Second hazard: a doomed holder and two others ----

  /** The holder's broadcast has failed or can still fail. */
  predicate CanRelease(s: State, h: nat) {
    h in s.calls && (s.calls[h].phase == Failed || s.calls[h].phase == Phase.Reserved || s.calls[h].phase.Submitted?)
  }

  lemma BothReachReservation(env: Env, start: State, actions: seq<Action>, t: State, k: string, j: nat, l: nat)
    returns (longer: seq<Action>, s: State)
    requires Exec(env, start, actions) == Some(t) && k !in t.store && j != l
    requires CanPass(env, t, j) && CanPass(env, t, l) && KeyAt(t, j) == KeyAt(t, l) == k
    ensures Exec(env, start, longer) == Some(s) && Longer(actions, longer)
    ensures s == t.(calls := t.calls[j := Call(SettleCall, t.calls[j].req, Verified)]
                                    [l := Call(SettleCall, t.calls[l].req, Verified)])
  {
    var u;
    longer, u := AdvanceToVerified(env, start, actions, t, j);
    longer, s := AdvanceToVerified(env, start, longer, u, l);
  }

  lemma HolderFails(env: Env, start: State, actions: seq<Action>, t: State, h: nat)
    returns (longer: seq<Action>, s: State)
    requires Exec(env, start, actions) == Some(t) && CanRelease(t, h)
    ensures Exec(env, start, longer) == Some(s) && Longer(actions, longer)
    ensures s == t.(calls := t.calls[h := t.calls[h].(phase := Failed)])
  {
    longer, s := actions, t;
    if t.calls[h].phase != Failed {
      longer := Step(env, start, actions, t, if t.calls[h].phase.Submitted? then GiveUp(h) else RejectTx(h));
      s := SetPhase(t, h, Failed);
    }
    assert s.calls == t.calls[h := t.calls[h].(phase := Failed)];
  }

  /** Release never looks at whose reservation it deletes. */
  lemma ReleaseDeletesAnothers(env: Env, s: State, h: nat, j: nat)
    requires At(s, h, Failed) && At(s, j, Phase.Reserved) && KeyAt(s, h) == KeyAt(s, j)
    requires KeyAt(s, j) in s.store ==> !s.store[KeyAt(s, j)].committed
    ensures Apply(env, s, Action.Release(h)) ==
      s.(calls := s.calls[h := s.calls[h].(phase := Done(Refused(BroadcastFailed)))], store := s.store - {KeyAt(s, j)})
    ensures At(Apply(env, s, Action.Release(h)), j, Phase.Reserved)
  {
  }

  /** The settle reserves, and the failed call's Release frees the key again. */
  lemma ReserveThenRelease(env: Env, start: State, actions: seq<Action>, t: State, h: nat, j: nat)
    returns (longer: seq<Action>, s: State)
    requires Exec(env, start, actions) == Some(t) && At(t, h, Failed) && At(t, j, Verified)
    requires t.calls[j].kind == SettleCall && KeyAt(t, h) == KeyAt(t, j) && KeyAt(t, j) !in t.store
    ensures Exec(env, start, longer) == Some(s) && Longer(actions, longer)
    ensures s.calls == t.calls[j := t.calls[j].(phase := Phase.Reserved)]
                              [h := t.calls[h].(phase := Done(Refused(BroadcastFailed)))]
    ensures KeyAt(t, j) !in s.store && s.ledger == t.ledger
  {
    var u;
    longer, u := DoReserve(env, start, actions, t, j, t.calls[j].req);
    assert KeyAt(u, h) == KeyAt(t, h) && KeyAt(u, j) == KeyAt(t, j);
    ReleaseDeletesAnothers(env, u, h, j);
    longer := Step(env, start, longer, u, Action.Release(h));
    s := Apply(env, u, Action.Release(h));
  }

  /** From two settles at their reservation and a failed holder of the key: both reserve. */
  lemma ReserveReleaseReserve(env: Env, start: State, actions: seq<Action>, t: State, k: string, h: nat, j: nat, l: nat)
    returns (longer: seq<Action>, s: State)
    requires Exec(env, start, actions) == Some(t) && k !in t.store && j != l && At(t, h, Failed)
    requires At(t, j, Verified) && At(t, l, Verified) && t.calls[j].kind == t.calls[l].kind == SettleCall
    requires KeyAt(t, h) == KeyAt(t, j) == KeyAt(t, l) == k
    ensures Exec(env, start, longer) == Some(s) && Longer(actions, longer)
    ensures At(s, j, Phase.Reserved) && At(s, l, Phase.Reserved) && SameRequests(t, s) && s.ledger == t.ledger
  {
    var v;
    longer, v := ReserveThenRelease(env, start, actions, t, h, j);
    longer, s := DoReserve(env, start, longer, v, l, t.calls[l].req);
  }

  /** The holder has failed, and the two others stand at their reservation. */
  lemma ReachDeletion(env: Env, start: State, actions: seq<Action>, t: State, k: string, h: nat, j: nat, l: nat)
    returns (longer: seq<Action>, s: State)
    requires Exec(env, start, actions) == Some(t) && k !in t.store && j != l && CanRelease(t, h)
    requires CanPass(env, t, j) && CanPass(env, t, l) && KeyAt(t, h) == KeyAt(t, j) == KeyAt(t, l) == k
    ensures Exec(env, start, longer) == Some(s) && Longer(actions, longer)
    ensures At(s, h, Failed) && At(s, j, Verified) && At(s, l, Verified) && k !in s.store
    ensures s.calls[j].kind == s.calls[l].kind == SettleCall && SameRequests(t, s) && s.ledger == t.ledger
  {
    var u;
    longer, u := BothReachReservation(env, start, actions, t, k, j, l);
    longer, s := HolderFails(env, start, longer, u, h);
  }

  /** Collected, and with the failed holder's help both others hold a reservation. */
  lemma BothReserve(env: Env, start: State, actions: seq<Action>, t: State, h: nat, j: nat, l: nat,
                    k: string, at: Instant)
    returns (longer: seq<Action>, s: State)
    requires Exec(env, start, actions) == Some(t) && Collects(t, k, at) && at <= t.clock
    requires CanRelease(t, h) && KeyAt(t, h) == k && j != l
    requires CanPass(env, t, j) && CanPass(env, t, l) && KeyAt(t, j) == KeyAt(t, l) == k
    ensures Exec(env, start, longer) == Some(s) && Longer(actions + [Collect(at)], longer)
    ensures At(s, j, Phase.Reserved) && At(s, l, Phase.Reserved) && SameRequests(t, s) && s.ledger == t.ledger
  {
    var u, v;
    longer, u := DoCollect(env, start, actions, t, k, at);
    longer, v := ReachDeletion(env, start, longer, u, k, h, j, l);
    longer, s := ReserveReleaseReserve(env, start, longer, v, k, h, j, l);
  }

  /**
   In any state of any run: a collection removes the entry of a call whose broadcast fails; one settle of the key
   reserves, the failed call's Release deletes that reservation, another settle reserves, and both succeed.
   */
  lemma ReleaseFreesAnothersKey(env: Env, start: State, actions: seq<Action>, t: State, h: nat, j: nat, l: nat,
                                k: string, at: Instant, hash: string, hash': string)
    returns (longer: seq<Action>, s: State)
    requires Exec(env, start, actions) == Some(t) && Collects(t, k, at) && at <= t.clock
    requires CanRelease(t, h) && KeyAt(t, h) == k && j != l
    requires CanReserve(env, t, j) && CanReserve(env, t, l) && KeyAt(t, j) == KeyAt(t, l) == k
    ensures Exec(env, start, longer) == Some(s) && Longer(actions + [Collect(at)], longer)
    ensures Succeeded(s, j) && Succeeded(s, l) && SameRequests(t, s)
  {
    var v;
    longer, v := BothReserve(env, start, actions, t, h, j, l, k, at);
    ReservedCanConfirm(env, t, v, j);
    ReservedCanConfirm(env, t, v, l);
    longer, s := ConfirmBoth(env, start, longer, v, j, l, hash, hash');
  }

  // ---- Exactly when a collection breaks exactly-once ----

  ghost predicate TwoSuccesses(s: State, k: string) {
    exists i, j :: i != j && Succeeded(s, i) && Succeeded(s, j) && KeyAt(s, i) == KeyAt(s, j) == k
  }

  /** The continuation ends with two successes on the key, all its requests still fresh. */
  ghost predicate SettlesTwice(env: Env, t: State, more: seq<Action>, k: string) {
    Exec(env, t, more).Some? && Fresh(Exec(env, t, more).value) && TwoSuccesses(Exec(env, t, more).value, k)
  }

  lemma TameWinnersAreUndecided(env: Env, t: State, k: string, at: Instant, i: nat)
    requires Tame(t, k) && Collects(t, k, at) && PossibleWinner(env, t, k, i)
    ensures !Succeeded(t, i)
  {
    assert Succeeded(t, i) ==> ClaimsKey(t, i, k);
  }

  lemma TwoSucceeded(t: State, s: State, k: string, i: nat, j: nat)
    requires i in t.calls && j in t.calls && KeyAt(t, i) == KeyAt(t, j) == k && SameRequests(t, s)
    requires Succeeded(s, i) && Succeeded(s, j) && i != j
    ensures TwoSuccesses(s, k)
  {
    assert KeyAt(s, i) == k && KeyAt(s, j) == k;
  }

  /** The holder and one other. */
  lemma HolderAndOther(env: Env, t: State, k: string, at: Instant, i: nat, j: nat, hash: string)
    returns (more: seq<Action>, s: State)
    requires Collects(t, k, at) && at <= t.clock && CanConfirm(t, i) && CanReserve(env, t, j)
    requires KeyAt(t, i) == KeyAt(t, j) == k
    ensures Exec(env, t, more) == Some(s) && Longer([Collect(at)], more) && TwoSuccesses(s, k) && SameRequests(t, s)
  {
    assert [] + [Collect(at)] == [Collect(at)];
    more, s := HazardousCollection(env, t, [], t, i, j, k, at, hash, hash);
    TwoSucceeded(t, s, k, i, j);
  }

  lemma TwoOthers(env: Env, t: State, k: string, at: Instant, h: nat, i: nat, j: nat, hash: string)
    returns (more: seq<Action>, s: State)
    requires Collects(t, k, at) && at <= t.clock && CanRelease(t, h) && KeyAt(t, h) == k && i != j
    requires CanReserve(env, t, i) && CanReserve(env, t, j) && KeyAt(t, i) == KeyAt(t, j) == k
    ensures Exec(env, t, more) == Some(s) && Longer([Collect(at)], more) && TwoSuccesses(s, k) && SameRequests(t, s)
  {
    assert [] + [Collect(at)] == [Collect(at)];
    more, s := ReleaseFreesAnothersKey(env, t, [], t, h, i, j, k, at, hash, hash);
    TwoSucceeded(t, s, k, i, j);
  }

  lemma WinnersSettle(env: Env, t: State, k: string, at: Instant, i: nat, j: nat, hash: string)
    returns (more: seq<Action>, s: State)
    requires Tame(t, k) && Collects(t, k, at) && at <= t.clock && i != j
    requires PossibleWinner(env, t, k, i) && PossibleWinner(env, t, k, j)
    ensures Exec(env, t, more) == Some(s) && Longer([Collect(at)], more) && TwoSuccesses(s, k) && SameRequests(t, s)
  {
    TameWinnersAreUndecided(env, t, k, at, i);
    TameWinnersAreUndecided(env, t, k, at, j);
    var h :| ClaimsKey(t, h, k);
    assert Backed(t, h) && !Succeeded(t, h);
    if CanConfirm(t, i) {
      assert CanConfirm(t, j) ==> ClaimsKey(t, i, k) && ClaimsKey(t, j, k);
      more, s := HolderAndOther(env, t, k, at, i, j, hash);
    } else if CanConfirm(t, j) {
      more, s := HolderAndOther(env, t, k, at, j, i, hash);
    } else if CanConfirm(t, h) {
      more, s := HolderAndOther(env, t, k, at, h, i, hash);
    } else {
      more, s := TwoOthers(env, t, k, at, h, i, j, hash);
    }
  }

  /**
   After any disciplined run, a collection that removes an entry can be continued to two successes on its key if and
   only if two different calls could still win the key when it was collected.
   */
  lemma DoubleSettlementIff(env: Env, start: State, run: seq<Action>, t: State, k: string, at: Instant)
    requires Initial(start) && Exec(env, start, run) == Some(t) && Disciplined(env, start, run)
    requires Collects(t, k, at) && at <= t.clock
    ensures (exists more :: more != [] && more[0] == Collect(at) && SettlesTwice(env, t, more, k))
      <==> !LoneWinner(env, t, k)
  {
    RunKeepsInv(env, start, run, true);
    assert Tame(t, k) || (Past(t, k) && LoneWinner(env, t, k));
    if !LoneWinner(env, t, k) {
      var i, j :| PossibleWinner(env, t, k, i) && PossibleWinner(env, t, k, j) && i != j;
      var more, s := WinnersSettle(env, t, k, at, i, j, "");
      FreshKept(t, s);
      assert SettlesTwice(env, t, more, k);
    }
    if more :| more != [] && more[0] == Collect(at) && SettlesTwice(env, t, more, k) {
      if Tame(t, k) {
        CollectedIsPast(t, k, at);
      }
      TwoSuccessesHadTwoWinners(env, t, more, k);
    }
  }

  lemma FreshKept(t: State, s: State)
    requires Fresh(t) && SameRequests(t, s)
    ensures Fresh(s)
  {
    forall i, j | i in s.calls && j in s.calls && KeyAt(s, i) == KeyAt(s, j)
      ensures AuthAt(s, i).validBefore == AuthAt(s, j).validBefore
    {
      assert KeyAt(t, i) == KeyAt(t, j);
    }
  }

  lemma TwoSuccessesHadTwoWinners(env: Env, t: State, more: seq<Action>, k: string)
    requires SettlesTwice(env, t, more, k) && Past(t, k)
    ensures !LoneWinner(env, t, k)
  {
    var u := Exec(env, t, more).value;
    var i, j :| i != j && Succeeded(u, i) && Succeeded(u, j) && KeyAt(u, i) == KeyAt(u, j) == k;
    WinnersOnlyShrink(env, t, more, k, i);
    WinnersOnlyShrink(env, t, more, k, j);
  }
}
