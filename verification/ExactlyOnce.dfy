/** At most one successful settlement per key, in every run. */
module ExactlyOnce {
  import opened Types
  import opened NonceStore
  import opened Verifier
  import opened Protocol

  // ---- Who owns an entry ----

  /** The call has reserved and has neither committed nor released. */
  predicate Holds(s: State, i: nat) {
    i in s.calls && (s.calls[i].phase in {Reserved, Failed} || s.calls[i].phase.Submitted? || s.calls[i].phase.Landed?)
  }

  predicate Succeeded(s: State, i: nat) {
    i in s.calls && s.calls[i].phase.Done? && s.calls[i].phase.response.Success?
  }

  predicate Claims(s: State, i: nat) {
    Holds(s, i) || Succeeded(s, i)
  }

  predicate ClaimsKey(s: State, i: nat, k: string) {
    Claims(s, i) && KeyAt(s, i) == k
  }

  /** The store has the call's entry, committed with its hash exactly when the call succeeded. */
  predicate Backed(s: State, i: nat)
    requires i in s.calls
  {
    var k := KeyAt(s, i);
    k in s.store
    && s.store[k].deadline == Deadline(AuthAt(s, i).validBefore)
    && (s.store[k].committed <==> Succeeded(s, i))
    && (Succeeded(s, i) ==> s.store[k].txHash == s.calls[i].phase.response.transaction)
  }

  ghost predicate Owned(s: State, k: string) {
    exists i :: ClaimsKey(s, i, k)
  }

  ghost predicate UniqueClaim(s: State, k: string) {
    forall i, j | ClaimsKey(s, i, k) && ClaimsKey(s, j, k) :: i == j
  }

  /** At most one call claims the key, its claim is backed, and an entry has a claimant. */
  ghost predicate Tame(s: State, k: string) {
    && UniqueClaim(s, k)
    && (forall i | ClaimsKey(s, i, k) :: Backed(s, i))
    && (k in s.store ==> Owned(s, k))
  }

  // ---- Who can still succeed ----

  predicate Checking(s: State, i: nat) {
    i in s.calls && s.calls[i].phase in {InWindow, NonceUnseen, Granted, Verified}
  }

  /** A settle past its clock check and not yet at its reservation. */
  predicate Straddles(s: State, i: nat) {
    Checking(s, i) && s.calls[i].kind == SettleCall
  }

  /** The settle straddles, and the checks before its reservation can still pass. */
  predicate CanPass(env: Env, s: State, j: nat) {
    Straddles(s, j) && (s.calls[j].phase == InWindow ==> CheckSignature(env, s.calls[j].req).None?)
  }

  /** Such a settle, when what it signed can be sent. */
  predicate CanReserve(env: Env, s: State, j: nat) {
    CanPass(env, s, j) && Sendable(s.ledger, AuthAt(s, j))
  }

  /** The call holds a reservation, and its broadcast can still be confirmed. */
  predicate CanConfirm(s: State, i: nat) {
    i in s.calls && match s.calls[i].phase
      case Reserved => Sendable(s.ledger, AuthAt(s, i))
      case Submitted(_) =>
        i in s.txs && (s.txs[i].status == Executed || (s.txs[i].status == Pending && CanMove(s.ledger, s.txs[i])))
      case Landed(_) => true
      case _ => false
  }

  predicate PossibleWinner(env: Env, s: State, k: string, i: nat) {
    i in s.calls && KeyAt(s, i) == k && (Succeeded(s, i) || CanConfirm(s, i) || CanReserve(env, s, i))
  }

  ghost predicate LoneWinner(env: Env, s: State, k: string) {
    forall i, j | PossibleWinner(env, s, k, i) && PossibleWinner(env, s, k, j) :: i == j
  }

  /** The clock has passed the deadline of a call that carries the key. */
  ghost predicate Past(s: State, k: string) {
    exists i :: i in s.calls && KeyAt(s, i) == k && s.clock > AuthAt(s, i).validBefore * NANOS
  }

  /** A key is tame; or, with collection, expired and left to at most one possible winner. */
  ghost predicate Inv(env: Env, s: State, gc: bool) {
    forall k :: Tame(s, k) || (gc && Past(s, k) && LoneWinner(env, s, k))
  }

  // ---- Hypotheses that only runs with collection need ----

  /** Calls that share a key share the deadline; so it is when a key names one authorization. */
  ghost predicate Fresh(s: State) {
    forall i, j | i in s.calls && j in s.calls && KeyAt(s, i) == KeyAt(s, j) ::
      AuthAt(s, i).validBefore == AuthAt(s, j).validBefore
  }

  /** Deadlines are stored as signed. */
  ghost predicate ExactDeadlines(s: State) {
    forall i | i in s.calls :: Deadline(AuthAt(s, i).validBefore) == AuthAt(s, i).validBefore
  }

  /** A collection at this time removes the entry. */
  predicate Collects(s: State, k: string, at: Instant) {
    k in s.store && Expired(s.store[k], at)
  }

  /** Every key whose entry would be collected is left to at most one possible winner. */
  ghost predicate Clear(env: Env, s: State, at: Instant) {
    forall k | Collects(s, k, at) :: LoneWinner(env, s, k)
  }

  /** No settle for an entry about to be collected is between its clock check and its reservation. */
  ghost predicate NoStraddle(s: State, at: Instant) {
    forall k, j | Collects(s, k, at) && Straddles(s, j) :: KeyAt(s, j) != k
  }

  // ---- Calls persist ----

  /** Calls are never forgotten, and their requests never change. */
  ghost predicate Extends(s: State, s': State) {
    && s.clock <= s'.clock
    && forall j | j in s.calls ::
         j in s'.calls && s'.calls[j].req == s.calls[j].req && s'.calls[j].kind == s.calls[j].kind
  }

  /** The action is a step of one call, the numbered one. */
  predicate OfCall(a: Action) {
    a.SampleClock? || a.ReadNonce? || a.QueryGrant? || a.QueryBalance? || a.Reserve? || a.RejectTx? || a.AcceptTx?
    || a.SeeIncluded? || a.GiveUp? || a.Commit? || a.Release?
  }

  /** Where a step may take its call. */
  predicate Follows(a: Action, p: Phase, q: Phase) {
    match a
    case SampleClock(_) => p == Arrived && (q == InWindow || (q.Done? && q.response.Invalid?))
    case ReadNonce(_) => p == InWindow && (q == NonceUnseen || (q.Done? && q.response.Invalid?))
    case QueryGrant(_, _) => p == NonceUnseen && (q == Granted || (q.Done? && q.response.Invalid?))
    case QueryBalance(_, _) => p == Granted && (q == Verified || (q.Done? && q.response.Invalid?))
    case Reserve(_) => p == Verified && q in {Phase.Reserved, Done(Valid), Done(Refused(NonceAlreadyUsed))}
    case RejectTx(_) => p == Phase.Reserved && q == Failed
    case AcceptTx(_, hash) => p == Phase.Reserved && q == Submitted(hash)
    case SeeIncluded(_) => p.Submitted? && q == Landed(p.hash)
    case GiveUp(_) => p.Submitted? && q == Failed
    case Commit(_) => p.Landed? && q == Done(Success(p.hash))
    case Release(_) => p == Failed && q == Done(Refused(BroadcastFailed))
    case _ => false
  }

  /** A step of a call moves that call along its program and leaves clock and other calls alone. */
  lemma CallStep(env: Env, s: State, a: Action)
    requires Enabled(s, a) && OfCall(a)
    ensures a.i in s.calls && a.i in Apply(env, s, a).calls
    ensures var q := Apply(env, s, a).calls[a.i].phase;
      && Apply(env, s, a).calls == s.calls[a.i := s.calls[a.i].(phase := q)]
      && Apply(env, s, a).clock == s.clock
      && Follows(a, s.calls[a.i].phase, q)
  {
  }

  lemma OtherStep(env: Env, s: State, a: Action)
    requires Enabled(s, a) && !OfCall(a)
    ensures Extends(s, Apply(env, s, a))
    ensures forall j | j in s.calls :: Apply(env, s, a).calls[j] == s.calls[j]
    ensures forall j | j in Apply(env, s, a).calls && j !in s.calls :: At(Apply(env, s, a), j, Arrived)
  {
  }

  lemma StepExtends(env: Env, s: State, a: Action)
    requires Enabled(s, a)
    ensures Extends(s, Apply(env, s, a))
  {
    if OfCall(a) {
      CallStep(env, s, a);
    } else {
      OtherStep(env, s, a);
    }
  }

  lemma {:induction false} RunExtends(env: Env, s: State, actions: seq<Action>)
    requires Exec(env, s, actions).Some?
    ensures Extends(s, Exec(env, s, actions).value)
    decreases |actions|
  {
    if actions != [] {
      ExecPrefix(env, s, actions);
      var front := actions[..|actions| - 1];
      RunExtends(env, s, front);
      StepExtends(env, Exec(env, s, front).value, actions[|actions| - 1]);
    }
  }

  lemma HypothesesReachBack(s: State, s': State)
    requires Extends(s, s') && Fresh(s')
    ensures Fresh(s) && (ExactDeadlines(s') ==> ExactDeadlines(s))
  {
    forall i | i in s.calls && ExactDeadlines(s')
      ensures Deadline(AuthAt(s, i).validBefore) == AuthAt(s, i).validBefore
    {
      assert i in s'.calls && AuthAt(s', i) == AuthAt(s, i);
    }
    forall i, j | i in s.calls && j in s.calls && KeyAt(s, i) == KeyAt(s, j)
      ensures AuthAt(s, i).validBefore == AuthAt(s, j).validBefore
    {
      assert i in s'.calls && j in s'.calls && KeyAt(s', i) == KeyAt(s', j);
    }
  }

  // ---- Steps keep tame keys tame ----

  predicate SameEntry(s: State, s': State, k: string) {
    (k in s.store <==> k in s'.store) && (k in s.store ==> s'.store[k] == s.store[k])
  }

  /** The key's claims are the same calls with the same answers. */
  ghost predicate SameClaims(s: State, s': State, k: string) {
    forall j | j in s'.calls && KeyAt(s', j) == k ::
      && (Claims(s', j) <==> Claims(s, j))
      && (Succeeded(s', j) <==> Succeeded(s, j))
      && (Succeeded(s, j) ==> s'.calls[j].phase == s.calls[j].phase)
  }

  lemma TameKept(s: State, s': State, k: string)
    requires Tame(s, k) && Extends(s, s') && SameEntry(s, s', k) && SameClaims(s, s', k)
    ensures Tame(s', k)
  {
    if k in s'.store {
      var i :| ClaimsKey(s, i, k);
      assert ClaimsKey(s', i, k);
    }
    forall i | ClaimsKey(s', i, k) ensures Backed(s', i) {
      assert ClaimsKey(s, i, k);
    }
    forall i, j | ClaimsKey(s', i, k) && ClaimsKey(s', j, k) ensures i == j {
      assert ClaimsKey(s, i, k) && ClaimsKey(s, j, k);
    }
  }

  /** The step adds, decides or ends a claim of its call. */
  predicate MovesClaim(s: State, a: Action) {
    a.Commit? || a.Release?
    || (a.Reserve? && a.i in s.calls && s.calls[a.i].kind == SettleCall && KeyAt(s, a.i) !in s.store)
  }

  lemma StoreStep(env: Env, s: State, a: Action, k: string)
    requires Enabled(s, a)
    requires if a.Collect? then !Collects(s, k, a.at) else MovesClaim(s, a) ==> KeyAt(s, a.i) != k
    ensures SameEntry(s, Apply(env, s, a), k)
  {
  }

  /** A step that moves no claim leaves its call without a claim, or with the undecided claim it had. */
  lemma PhaseKeepsClaim(s: State, a: Action, q: Phase)
    requires OfCall(a) && a.i in s.calls && !MovesClaim(s, a) && Follows(a, s.calls[a.i].phase, q)
    requires a.Reserve? ==> q != Phase.Reserved
    ensures Claims(SetPhase(s, a.i, q), a.i) <==> Claims(s, a.i)
    ensures !Succeeded(SetPhase(s, a.i, q), a.i) && !Succeeded(s, a.i)
  {
  }

  lemma CallStepSameClaims(env: Env, s: State, a: Action, k: string)
    requires Enabled(s, a) && OfCall(a) && (MovesClaim(s, a) ==> KeyAt(s, a.i) != k)
    ensures SameClaims(s, Apply(env, s, a), k)
  {
    CallStep(env, s, a);
    if !MovesClaim(s, a) {
      PhaseKeepsClaim(s, a, Apply(env, s, a).calls[a.i].phase);
    }
  }

  lemma FrameKeepsTame(env: Env, s: State, a: Action, k: string)
    requires Tame(s, k) && Enabled(s, a)
    requires if a.Collect? then !Collects(s, k, a.at) else MovesClaim(s, a) ==> KeyAt(s, a.i) != k
    ensures Tame(Apply(env, s, a), k)
  {
    StoreStep(env, s, a, k);
    StepExtends(env, s, a);
    if OfCall(a) {
      CallStepSameClaims(env, s, a, k);
    } else {
      OtherStep(env, s, a);
    }
    TameKept(s, Apply(env, s, a), k);
  }

  lemma ReserveKeepsTame(env: Env, s: State, i: nat)
    requires Enabled(s, Action.Reserve(i)) && MovesClaim(s, Action.Reserve(i)) && Tame(s, KeyAt(s, i))
    ensures Tame(Apply(env, s, Action.Reserve(i)), KeyAt(s, i))
  {
    var s', k := Apply(env, s, Action.Reserve(i)), KeyAt(s, i);
    assert s'.calls == s.calls[i := s.calls[i].(phase := Phase.Reserved)];
    assert ClaimsKey(s', i, k) && Backed(s', i);
    forall j | ClaimsKey(s', j, k) ensures j == i {
      if j != i {
        assert ClaimsKey(s, j, k);
        assert false;
      }
    }
  }

  lemma CommitKeepsTame(env: Env, s: State, i: nat)
    requires Enabled(s, Action.Commit(i)) && Tame(s, KeyAt(s, i))
    ensures Tame(Apply(env, s, Action.Commit(i)), KeyAt(s, i))
  {
    var s', k := Apply(env, s, Action.Commit(i)), KeyAt(s, i);
    CallStep(env, s, Action.Commit(i));
    assert ClaimsKey(s, i, k) && Backed(s, i);
    assert ClaimsKey(s', i, k) && Backed(s', i);
    forall j | ClaimsKey(s', j, k) ensures j == i {
      assert ClaimsKey(s, j, k);
    }
  }

  lemma ReleaseKeepsTame(env: Env, s: State, i: nat)
    requires Enabled(s, Action.Release(i)) && Tame(s, KeyAt(s, i))
    ensures Tame(Apply(env, s, Action.Release(i)), KeyAt(s, i))
  {
    var s', k := Apply(env, s, Action.Release(i)), KeyAt(s, i);
    CallStep(env, s, Action.Release(i));
    assert ClaimsKey(s, i, k) && Backed(s, i);
    assert k !in s'.store;
    forall j ensures !ClaimsKey(s', j, k) {
      if ClaimsKey(s', j, k) {
        assert ClaimsKey(s, j, k);
      }
    }
  }

  lemma StepKeepsTame(env: Env, s: State, a: Action, k: string)
    requires Tame(s, k) && Enabled(s, a) && !(a.Collect? && Collects(s, k, a.at))
    ensures Tame(Apply(env, s, a), k)
  {
    if MovesClaim(s, a) && KeyAt(s, a.i) == k {
      if a.Commit? {
        CommitKeepsTame(env, s, a.i);
      } else if a.Release? {
        ReleaseKeepsTame(env, s, a.i);
      } else {
        ReserveKeepsTame(env, s, a.i);
      }
    } else {
      FrameKeepsTame(env, s, a, k);
    }
  }

  // ---- Past the deadline nobody new can win ----

  lemma PastKept(s: State, s': State, k: string)
    requires Past(s, k) && Extends(s, s')
    ensures Past(s', k)
  {
    var i :| i in s.calls && KeyAt(s, i) == k && s.clock > AuthAt(s, i).validBefore * NANOS;
    assert i in s'.calls && KeyAt(s', i) == k;
  }

  /** The clock check turns away every call that shares a deadline which has passed. */
  lemma PastIsNotInWindow(env: Env, s: State, i: nat)
    requires Enabled(s, SampleClock(i)) && Fresh(s) && Past(s, KeyAt(s, i))
    ensures Apply(env, s, SampleClock(i)).calls[i].phase != InWindow
  {
    var l :| l in s.calls && KeyAt(s, l) == KeyAt(s, i) && s.clock > AuthAt(s, l).validBefore * NANOS;
    var now := UnixSeconds(s.clock);
    assert now >= AuthAt(s, i).validBefore;
    WindowIsExact(AuthAt(s, i), s.calls[i].req.requirements.maxTimeoutSeconds, now);
  }

  lemma OtherStepWinners(env: Env, s: State, a: Action, k: string, j: nat)
    requires Enabled(s, a) && !OfCall(a) && PossibleWinner(env, Apply(env, s, a), k, j)
    ensures PossibleWinner(env, s, k, j)
  {
    OtherStep(env, s, a);
  }

  lemma TransactionsOf(env: Env, s: State, a: Action, j: nat)
    requires Enabled(s, a) && OfCall(a) && j != a.i
    ensures j in Apply(env, s, a).txs <==> j in s.txs
    ensures j in s.txs ==> Apply(env, s, a).txs[j] == s.txs[j]
  {
  }

  lemma OtherCallWinners(env: Env, s: State, a: Action, k: string, j: nat)
    requires Enabled(s, a) && OfCall(a) && j != a.i && PossibleWinner(env, Apply(env, s, a), k, j)
    ensures PossibleWinner(env, s, k, j)
  {
    CallStep(env, s, a);
    TransactionsOf(env, s, a, j);
  }

  lemma ReadNonceWinner(env: Env, s: State, i: nat)
    requires Enabled(s, ReadNonce(i)) && CanReserve(env, Apply(env, s, ReadNonce(i)), i)
    ensures CanReserve(env, s, i)
  {
    assert Both(CheckNonce(NonceAnswerOf(s, i)), CheckSignature(env, s.calls[i].req)).None?;
  }

  lemma AcceptedWinner(env: Env, s: State, i: nat, hash: string)
    requires Enabled(s, AcceptTx(i, hash)) && CanConfirm(Apply(env, s, AcceptTx(i, hash)), i)
    ensures CanConfirm(s, i)
  {
  }

  lemma SeenWinner(env: Env, s: State, i: nat)
    requires Enabled(s, SeeIncluded(i))
    ensures CanConfirm(s, i)
  {
  }

  lemma ReservedWinner(env: Env, s: State, i: nat)
    requires Enabled(s, Action.Reserve(i)) && CanConfirm(Apply(env, s, Action.Reserve(i)), i)
    ensures CanReserve(env, s, i)
  {
  }

  /** The other checks of a straddling settle. */
  lemma QueriedWinner(env: Env, s: State, a: Action)
    requires Enabled(s, a) && (a.QueryGrant? || a.QueryBalance?) && CanReserve(env, Apply(env, s, a), a.i)
    ensures CanReserve(env, s, a.i)
  {
  }

  /** A winner's step was a step of one that could win, unless the step passed the clock check. */
  lemma WinnersStep(env: Env, s: State, a: Action, k: string)
    requires Enabled(s, a) && OfCall(a) && !a.SampleClock? && PossibleWinner(env, Apply(env, s, a), k, a.i)
    ensures PossibleWinner(env, s, k, a.i)
  {
    CallStep(env, s, a);
    match a {
      case ReadNonce(i) => ReadNonceWinner(env, s, i);
      case QueryGrant(_, _) => QueriedWinner(env, s, a);
      case QueryBalance(_, _) => QueriedWinner(env, s, a);
      case Reserve(i) => ReservedWinner(env, s, i);
      case AcceptTx(i, hash) => AcceptedWinner(env, s, i, hash);
      case SeeIncluded(i) => SeenWinner(env, s, i);
      case _ =>
    }
  }

  lemma OwnStepWinner(env: Env, s: State, a: Action, k: string)
    requires Enabled(s, a) && OfCall(a) && PossibleWinner(env, Apply(env, s, a), k, a.i)
    requires Past(s, k) && Fresh(s)
    ensures PossibleWinner(env, s, k, a.i)
  {
    if a.SampleClock? {
      CallStep(env, s, a);
      PastIsNotInWindow(env, s, a.i);
    } else {
      WinnersStep(env, s, a, k);
    }
  }

  lemma StepWinners(env: Env, s: State, a: Action, k: string, j: nat)
    requires Enabled(s, a) && Past(s, k) && Fresh(s) && PossibleWinner(env, Apply(env, s, a), k, j)
    ensures PossibleWinner(env, s, k, j)
  {
    if !OfCall(a) {
      OtherStepWinners(env, s, a, k, j);
    } else if j == a.i {
      OwnStepWinner(env, s, a, k);
    } else {
      OtherCallWinners(env, s, a, k, j);
    }
  }

  /** In every continuation, later collections included, a key past its deadline only loses possible winners. */
  lemma {:induction false} WinnersOnlyShrink(env: Env, s: State, more: seq<Action>, k: string, j: nat)
    requires Exec(env, s, more).Some? && Fresh(Exec(env, s, more).value) && Past(s, k)
    requires PossibleWinner(env, Exec(env, s, more).value, k, j)
    ensures PossibleWinner(env, s, k, j)
    decreases |more|
  {
    if more != [] {
      ExecPrefix(env, s, more);
      var front, last := more[..|more| - 1], more[|more| - 1];
      var t := Exec(env, s, front).value;
      StepExtends(env, t, last);
      HypothesesReachBack(t, Apply(env, t, last));
      RunExtends(env, s, front);
      PastKept(s, t, k);
      StepWinners(env, t, last, k, j);
      WinnersOnlyShrink(env, s, front, k, j);
    }
  }

  // ---- The invariant ----

  lemma CollectedIsPast(s: State, k: string, at: Instant)
    requires Tame(s, k) && ExactDeadlines(s) && Collects(s, k, at) && at <= s.clock
    ensures Past(s, k)
  {
    var i :| ClaimsKey(s, i, k);
    assert Backed(s, i);
  }

  lemma StepKeepsKey(env: Env, s: State, a: Action, k: string, gc: bool)
    requires Tame(s, k) || (gc && Past(s, k) && LoneWinner(env, s, k))
    requires Enabled(s, a)
    requires a.Collect? ==> gc && Clear(env, s, a.at)
    requires gc ==> Fresh(s) && ExactDeadlines(s)
    ensures var s' := Apply(env, s, a);
      Tame(s', k) || (gc && Past(s', k) && LoneWinner(env, s', k))
  {
    var s' := Apply(env, s, a);
    if Tame(s, k) && !(a.Collect? && Collects(s, k, a.at)) {
      StepKeepsTame(env, s, a, k);
    } else {
      if Tame(s, k) {
        CollectedIsPast(s, k, a.at);
      }
      StepExtends(env, s, a);
      PastKept(s, s', k);
      forall i, j | PossibleWinner(env, s', k, i) && PossibleWinner(env, s', k, j) ensures i == j {
        StepWinners(env, s, a, k, i);
        StepWinners(env, s, a, k, j);
      }
    }
  }

  lemma StepKeepsInv(env: Env, s: State, a: Action, gc: bool)
    requires Inv(env, s, gc) && Enabled(s, a)
    requires a.Collect? ==> gc && Clear(env, s, a.at)
    requires gc ==> Fresh(s) && ExactDeadlines(s)
    ensures Inv(env, Apply(env, s, a), gc)
  {
    var s' := Apply(env, s, a);
    forall k ensures Tame(s', k) || (gc && Past(s', k) && LoneWinner(env, s', k)) {
      StepKeepsKey(env, s, a, k, gc);
    }
  }

  /** Without straddling calls every collection is clear. */
  lemma NoStraddleIsClear(env: Env, s: State, at: Instant, gc: bool)
    requires Inv(env, s, gc) && NoStraddle(s, at)
    ensures Clear(env, s, at)
  {
    forall k | Collects(s, k, at) ensures LoneWinner(env, s, k) {
      if Tame(s, k) {
        forall i, j | PossibleWinner(env, s, k, i) && PossibleWinner(env, s, k, j) ensures i == j {
          assert ClaimsKey(s, i, k) && ClaimsKey(s, j, k);
        }
      }
    }
  }

  // ---- Whole runs ----

  /** Every collection of the run is clear. */
  ghost predicate ClearRun(env: Env, s: State, actions: seq<Action>) {
    actions != [] ==>
      var front, last := actions[..|actions| - 1], actions[|actions| - 1];
      && ClearRun(env, s, front)
      && (last.Collect? && Exec(env, s, front).Some? ==> Clear(env, Exec(env, s, front).value, last.at))
  }

  ghost predicate NoStraddleRun(env: Env, s: State, actions: seq<Action>) {
    actions != [] ==>
      var front, last := actions[..|actions| - 1], actions[|actions| - 1];
      && NoStraddleRun(env, s, front)
      && (last.Collect? && Exec(env, s, front).Some? ==> NoStraddle(Exec(env, s, front).value, last.at))
  }

  /** The three hypotheses of a run with collection. Calls are never forgotten, so two of them speak of its end. */
  ghost predicate Disciplined(env: Env, s: State, actions: seq<Action>)
    requires Exec(env, s, actions).Some?
  {
    && Fresh(Exec(env, s, actions).value)
    && ExactDeadlines(Exec(env, s, actions).value)
    && ClearRun(env, s, actions)
  }

  lemma {:induction false} RunKeepsInv(env: Env, s: State, actions: seq<Action>, gc: bool)
    requires Initial(s) && Exec(env, s, actions).Some?
    requires if gc then Disciplined(env, s, actions) else GcFree(actions)
    ensures Inv(env, Exec(env, s, actions).value, gc)
    decreases |actions|
  {
    if actions != [] {
      ExecPrefix(env, s, actions);
      var front, last := actions[..|actions| - 1], actions[|actions| - 1];
      var t := Exec(env, s, front).value;
      if gc {
        StepExtends(env, t, last);
        HypothesesReachBack(t, Apply(env, t, last));
      }
      RunKeepsInv(env, s, front, gc);
      StepKeepsInv(env, t, last, gc);
    }
  }

  /** No straddling call at any collection is one way to meet the third hypothesis. */
  lemma {:induction false} NoStraddleDisciplines(env: Env, s: State, actions: seq<Action>)
    requires Initial(s) && Exec(env, s, actions).Some? && NoStraddleRun(env, s, actions)
    requires Fresh(Exec(env, s, actions).value) && ExactDeadlines(Exec(env, s, actions).value)
    ensures Disciplined(env, s, actions)
    decreases |actions|
  {
    if actions != [] {
      ExecPrefix(env, s, actions);
      var front, last := actions[..|actions| - 1], actions[|actions| - 1];
      var t := Exec(env, s, front).value;
      StepExtends(env, t, last);
      HypothesesReachBack(t, Apply(env, t, last));
      NoStraddleDisciplines(env, s, front);
      if last.Collect? {
        RunKeepsInv(env, s, front, true);
        NoStraddleIsClear(env, t, last.at, true);
      }
    }
  }

  /** At most one success per key: in every run without collection, and in every disciplined run with it. */
  lemma SettledOnce(env: Env, s: State, actions: seq<Action>, i: nat, j: nat)
    requires Initial(s) && Exec(env, s, actions).Some?
    requires GcFree(actions) || Disciplined(env, s, actions)
    ensures var t := Exec(env, s, actions).value;
      Succeeded(t, i) && Succeeded(t, j) && KeyAt(t, i) == KeyAt(t, j) ==> i == j
  {
    RunKeepsInv(env, s, actions, !GcFree(actions));
    var t := Exec(env, s, actions).value;
    if Succeeded(t, i) && Succeeded(t, j) && KeyAt(t, i) == KeyAt(t, j) {
      var k := KeyAt(t, i);
      assert ClaimsKey(t, i, k) && ClaimsKey(t, j, k);
      assert PossibleWinner(env, t, k, i) && PossibleWinner(env, t, k, j);
      assert Tame(t, k) || LoneWinner(env, t, k);
    }
  }

  predicate SameTriple(a: Authorization, b: Authorization) {
    a.from == b.from && a.chainId == b.chainId && a.nonce == b.nonce
  }

  /** The same on (payer, chain id, nonce) triples, whatever characters they hold. */
  lemma SettledOncePerTriple(env: Env, s: State, actions: seq<Action>, i: nat, j: nat)
    requires Initial(s) && Exec(env, s, actions).Some?
    requires GcFree(actions) || Disciplined(env, s, actions)
    ensures var t := Exec(env, s, actions).value;
      Succeeded(t, i) && Succeeded(t, j) && SameTriple(AuthAt(t, i), AuthAt(t, j)) ==> i == j
  {
    SettledOnce(env, s, actions, i, j);
  }

  // ---- Without collection every key is tame ----

  /** Without collection a pending entry belongs to exactly one call in flight, and only that call can end it. */
  lemma OwnershipWithoutGc(env: Env, s: State, actions: seq<Action>)
    requires Initial(s) && Exec(env, s, actions).Some? && GcFree(actions)
    ensures var t := Exec(env, s, actions).value;
      && (forall k | k in t.store :: !t.store[k].committed <==> exists i :: Holds(t, i) && KeyAt(t, i) == k)
      && (forall i, j | Holds(t, i) && Holds(t, j) && KeyAt(t, i) == KeyAt(t, j) :: i == j)
      && (forall i | Holds(t, i) :: KeyAt(t, i) in t.store && !t.store[KeyAt(t, i)].committed)
  {
    RunKeepsInv(env, s, actions, false);
    var t := Exec(env, s, actions).value;
    forall i, j | Holds(t, i) && Holds(t, j) && KeyAt(t, i) == KeyAt(t, j) ensures i == j {
      assert Tame(t, KeyAt(t, i)) && ClaimsKey(t, i, KeyAt(t, i)) && ClaimsKey(t, j, KeyAt(t, i));
    }
    forall i | Holds(t, i) ensures KeyAt(t, i) in t.store && !t.store[KeyAt(t, i)].committed {
      HolderIsBacked(env, t, i);
    }
    forall k | k in t.store ensures !t.store[k].committed <==> exists i :: Holds(t, i) && KeyAt(t, i) == k {
      assert Tame(t, k);
      var i :| ClaimsKey(t, i, k);
      assert Backed(t, i);
    }
  }

  lemma HolderIsBacked(env: Env, t: State, i: nat)
    requires Inv(env, t, false) && Holds(t, i)
    ensures KeyAt(t, i) in t.store && !t.store[KeyAt(t, i)].committed
  {
    assert Tame(t, KeyAt(t, i)) && ClaimsKey(t, i, KeyAt(t, i));
    assert Backed(t, i);
  }

  /** Hence Commit never fails, Release removes the caller's own pending entry, and committed entries are final. */
  lemma StoreCallsWithoutGc(env: Env, s: State, actions: seq<Action>, a: Action)
    requires Initial(s) && Exec(env, s, actions).Some? && GcFree(actions)
    requires Enabled(Exec(env, s, actions).value, a) && !a.Collect?
    ensures var t := Exec(env, s, actions).value;
      && (a.Commit? ==> CommitSpec(t.store, KeyAt(t, a.i), t.calls[a.i].phase.hash).1)
      && (a.Commit? ==> !t.store[KeyAt(t, a.i)].committed)
      && (a.Release? ==> KeyAt(t, a.i) in t.store && ReleaseSpec(t.store, KeyAt(t, a.i)).1)
      && forall k | k in t.store && t.store[k].committed ::
           k in Apply(env, t, a).store && Apply(env, t, a).store[k] == t.store[k]
  {
    RunKeepsInv(env, s, actions, false);
    var t := Exec(env, s, actions).value;
    if a.Commit? || a.Release? {
      HolderIsBacked(env, t, a.i);
    }
    forall k | k in t.store && t.store[k].committed
      ensures k in Apply(env, t, a).store && Apply(env, t, a).store[k] == t.store[k]
    {
      StoreStep(env, t, a, k);
    }
  }

  /** With nothing in flight, the store's entries are exactly the successes, each with its transaction hash. */
  lemma QuiescentAccounting(env: Env, s: State, actions: seq<Action>)
    requires Initial(s) && Exec(env, s, actions).Some? && GcFree(actions)
    requires forall i :: !Holds(Exec(env, s, actions).value, i)
    ensures var t := Exec(env, s, actions).value;
      && (forall i | Succeeded(t, i) :: KeyAt(t, i) in t.store
            && t.store[KeyAt(t, i)].txHash == t.calls[i].phase.response.transaction)
      && (forall k | k in t.store :: t.store[k].committed && exists i :: Succeeded(t, i) && KeyAt(t, i) == k)
      && (forall i, j | Succeeded(t, i) && Succeeded(t, j) && KeyAt(t, i) == KeyAt(t, j) :: i == j)
  {
    RunKeepsInv(env, s, actions, false);
    QuiescentStore(env, Exec(env, s, actions).value);
  }

  lemma QuiescentStore(env: Env, t: State)
    requires Inv(env, t, false) && forall i :: !Holds(t, i)
    ensures forall i | Succeeded(t, i) ::
      KeyAt(t, i) in t.store && t.store[KeyAt(t, i)].txHash == t.calls[i].phase.response.transaction
    ensures forall k | k in t.store :: t.store[k].committed && exists i :: Succeeded(t, i) && KeyAt(t, i) == k
    ensures forall i, j | Succeeded(t, i) && Succeeded(t, j) && KeyAt(t, i) == KeyAt(t, j) :: i == j
  {
    forall i | Succeeded(t, i) ensures Backed(t, i) {
      assert Tame(t, KeyAt(t, i)) && ClaimsKey(t, i, KeyAt(t, i));
    }
    forall i, j | Succeeded(t, i) && Succeeded(t, j) && KeyAt(t, i) == KeyAt(t, j) ensures i == j {
      assert Tame(t, KeyAt(t, i)) && ClaimsKey(t, i, KeyAt(t, i)) && ClaimsKey(t, j, KeyAt(t, i));
    }
    forall k | k in t.store ensures t.store[k].committed && exists i :: Succeeded(t, i) && KeyAt(t, i) == k {
      assert Tame(t, k);
      var i :| ClaimsKey(t, i, k);
      assert Succeeded(t, i) && Backed(t, i);
    }
  }
}
