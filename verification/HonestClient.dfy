/** A client that answers a demand honestly is verified, is never refused as used, and is served. */
module HonestClient {
  import opened Wrappers
  import opened Types
  import opened Decimals
  import opened Utf8
  import opened Base64
  import opened SignBytes
  import opened NonceStore
  import opened Verifier
  import opened Protocol
  import opened ExactlyOnce
  import opened Verdicts
  import opened Middleware
  import opened EndToEnd
  import opened Runs
  import opened Hazards

  /** The client's answer to a demand, signed at its own second t. */
  function BuildAuthorization(pr: PaymentRequirements, from: string, nonce: string, t: int): Authorization {
    Authorization(from, pr.payTo, pr.asset, pr.maxAmountRequired, nonce,
                  (t - 5) % TWO_TO_64, (t + 30) % TWO_TO_64, pr.resource, pr.extra.chainId)
  }

  function BuildPayload(pr: PaymentRequirements, a: Authorization, key: seq<byte>, sig: seq<byte>): PaymentPayload {
    PaymentPayload(2, SCHEME, pr.network, CosmosPayload(a.from, Encode64(key), Encode64(sig), a))
  }

  /** What a client sends passes the source's check exactly when its key signed the document and is the payer's. */
  lemma OwnSignatureAccepted(scheme: Scheme, key: seq<byte>, sig: seq<byte>, a: Authorization, prefix: string)
    requires |key| == 33 && |sig| == 64
    ensures Adr036Check(scheme)(Encode64(key), Encode64(sig), a, prefix) <==>
      scheme.verify(key, SignedBytes(a), sig) && scheme.address(prefix, key) == Some(a.from)
  {
    DecodeOfEncode(key);
    DecodeOfEncode(sig);
    PreimageWireText(a);
    AcceptedOver(scheme, Encode64(key), Encode64(sig), a, prefix, SignedBytes(a));
  }

  /** Grant and balance answers that cover the amount. */
  predicate Funded(a: Authorization, obs: Observations) {
    && obs.grant.Grant? && CmpAmounts(obs.grant.limit, a.amount) >= 0
    && (obs.grant.expiration.Some? ==> obs.grantClock < obs.grant.expiration.value)
    && (obs.balance.Balance? ==> CmpAmounts(obs.balance.amount, a.amount) >= 0)
  }

  lemma BuiltRequestPasses(env: Env, cfg: Config, http: HttpRequest, a: Authorization, key: seq<byte>, sig: seq<byte>)
    requires var pr := BuildRequirements(cfg, http);
      a.to == pr.payTo && a.denom == pr.asset && a.amount == pr.maxAmountRequired && a.resource == pr.resource
      && a.chainId == pr.extra.chainId
    requires cfg.network in env.chains && env.chains[cfg.network].chainId == TrimPrefix(cfg.network, "cosmos:")
    requires cfg.network != "cosmos:"
    ensures var pr := BuildRequirements(cfg, http);
      CheckRequest(env, PaymentRequest(BuildPayload(pr, a, key, sig), pr)).None?
  {
    ChainIdAgrees(cfg, http);
    assert CmpAmounts(a.amount, a.amount) == 0;
  }

  /** With all other checks passed, the window decides. */
  lemma WindowDecidesAlone(env: Env, req: PaymentRequest, obs: Observations)
    requires CheckRequest(env, req).None? && CheckSignature(env, req).None? && obs.nonce == Unseen
    requires CheckGrant(req.Auth(), obs.grant, obs.grantClock).None? && CheckBalance(req.Auth(), obs.balance).None?
    ensures Verify(env, req, obs) ==
      match CheckWindow(req.Auth(), req.requirements.maxTimeoutSeconds, UnixSeconds(obs.clock))
      case None => Ok(req.Auth().from)
      case Some(e) => Err(e)
  {
  }

  /** The client's side of the bargain: its signature is accepted, it can pay, and its nonce is new. */
  ghost predicate Honest(env: Env, cfg: Config, a: Authorization, key: seq<byte>, sig: seq<byte>, obs: Observations) {
    && cfg.network in env.chains
    && env.signed(Encode64(key), Encode64(sig), a, env.chains[cfg.network].prefix)
    && Funded(a, obs) && obs.nonce == Unseen
  }

  /** The operator's side: the network is registered under its own chain id, which is not empty. */
  predicate Registered(env: Env, cfg: Config) {
    && cfg.network in env.chains && env.chains[cfg.network].chainId == TrimPrefix(cfg.network, "cosmos:")
    && cfg.network != "cosmos:"
  }

  /** A built request of an honest client is left to the window check. */
  lemma HonestLeftToWindow(env: Env, cfg: Config, http: HttpRequest, from: string, nonce: string, t: int,
                           key: seq<byte>, sig: seq<byte>, obs: Observations)
    requires Registered(env, cfg)
    requires Honest(env, cfg, BuildAuthorization(BuildRequirements(cfg, http), from, nonce, t), key, sig, obs)
    ensures var pr := BuildRequirements(cfg, http);
      var a := BuildAuthorization(pr, from, nonce, t);
      Verify(env, PaymentRequest(BuildPayload(pr, a, key, sig), pr), obs) ==
        match CheckWindow(a, cfg.maxTimeoutSeconds, UnixSeconds(obs.clock))
        case None => Ok(from)
        case Some(e) => Err(e)
  {
    var pr := BuildRequirements(cfg, http);
    var a := BuildAuthorization(pr, from, nonce, t);
    BuiltRequestPasses(env, cfg, http, a, key, sig);
    WindowDecidesAlone(env, PaymentRequest(BuildPayload(pr, a, key, sig), pr), obs);
  }

  /** The client's window of 35 seconds against the clock and the configured bound. */
  lemma ClientWindow(a: Authorization, t: int, max: uint64, now: int64)
    requires 5 <= t < TWO_TO_63 - 30 && now >= 0
    requires a.validAfter == (t - 5) % TWO_TO_64 && a.validBefore == (t + 30) % TWO_TO_64
    ensures CheckWindow(a, max, now) == None <==> ((max == 0 || max >= 35) && t - 5 <= now < t + 30)
  {
    WindowIsExact(a, max, now);
  }

  /**
   Everything else being in order, the demand of a registered network is met by the honest client exactly when the
   configured window admits its 35 seconds (or is left to the default) and the facilitator's clock is within
   [t - 5, t + 30).
   */
  lemma HonestClientIsVerified(env: Env, cfg: Config, http: HttpRequest, from: string, nonce: string, t: int,
                               key: seq<byte>, sig: seq<byte>, obs: Observations)
    requires 5 <= t < TWO_TO_63 - 30 && obs.clock >= 0 && Registered(env, cfg)
    requires var a := BuildAuthorization(BuildRequirements(WithDefaults(cfg), http), from, nonce, t);
      Honest(env, cfg, a, key, sig, obs)
    ensures var pr := BuildRequirements(WithDefaults(cfg), http);
      var a := BuildAuthorization(pr, from, nonce, t);
      var verdict := Verify(env, PaymentRequest(BuildPayload(pr, a, key, sig), pr), obs);
      && (verdict == Ok(from) || verdict.Err?)
      && (verdict == Ok(from) <==>
           ((cfg.maxTimeoutSeconds == 0 || cfg.maxTimeoutSeconds >= 35) && t - 5 <= UnixSeconds(obs.clock) < t + 30))
  {
    var full := WithDefaults(cfg);
    var a := BuildAuthorization(BuildRequirements(full, http), from, nonce, t);
    HonestLeftToWindow(env, full, http, from, nonce, t, key, sig, obs);
    ClientWindow(a, t, full.maxTimeoutSeconds, UnixSeconds(obs.clock));
  }

  // ---- Among concurrent calls ----

  /** No other call carries the key of call i. */
  ghost predicate AloneOnKey(s: State, i: nat)
    requires i in s.calls
  {
    forall j | j in s.calls && j != i :: KeyAt(s, j) != KeyAt(s, i)
  }

  /** Before its reservation the call's key is free, and it has not been refused as used. */
  ghost predicate KeyIsFree(s: State, i: nat)
    requires i in s.calls
  {
    && (s.calls[i].phase in {Arrived, InWindow, NonceUnseen, Granted, Verified} ==> KeyAt(s, i) !in s.store)
    && s.calls[i].phase !in {Done(Refused(NonceAlreadyUsed)), Done(Invalid(NonceAlreadyUsed))}
  }

  lemma AloneReachesBack(s: State, s': State, i: nat)
    requires Extends(s, s') && i in s.calls && AloneOnKey(s', i)
    ensures AloneOnKey(s, i)
  {
    forall j | j in s.calls && j != i ensures KeyAt(s, j) != KeyAt(s, i) {
      assert j in s'.calls && KeyAt(s', j) == KeyAt(s, j);
    }
  }

  lemma CodesOfChecks(env: Env, req: PaymentRequest, obs: Observations)
    ensures CheckRequest(env, req).Some? ==> CheckRequest(env, req).value.code != NonceAlreadyUsed
    ensures var window := CheckWindow(req.Auth(), req.requirements.maxTimeoutSeconds, UnixSeconds(obs.clock));
      window.Some? ==> window.value.code != NonceAlreadyUsed
    ensures CheckSignature(env, req).Some? ==> CheckSignature(env, req).value.code != NonceAlreadyUsed
    ensures var grant := CheckGrant(req.Auth(), obs.grant, obs.grantClock);
      grant.Some? ==> grant.value.code != NonceAlreadyUsed
    ensures CheckBalance(req.Auth(), obs.balance).Some? ==>
      CheckBalance(req.Auth(), obs.balance).value.code != NonceAlreadyUsed
  {
  }

  lemma OwnStepKeepsKeyFree(env: Env, s: State, a: Action)
    requires Enabled(s, a) && OfCall(a) && KeyIsFree(s, a.i)
    ensures a.i in Apply(env, s, a).calls && KeyIsFree(Apply(env, s, a), a.i)
  {
    var grant := if a.QueryGrant? then a.grant else NoGrant;
    var balance := if a.QueryBalance? then a.balance else BalanceFailure;
    CodesOfChecks(env, s.calls[a.i].req, Observations(s.clock, Unseen, grant, s.clock, balance));
    CallStep(env, s, a);
    if !a.Reserve? && !a.Commit? && !a.Release? {
      StoreStep(env, s, a, KeyAt(s, a.i));
    }
  }

  lemma OtherStepKeepsKeyFree(env: Env, s: State, a: Action, i: nat)
    requires Enabled(s, a) && i in s.calls && AloneOnKey(s, i) && KeyIsFree(s, i) && !(OfCall(a) && a.i == i)
    ensures i in Apply(env, s, a).calls && KeyIsFree(Apply(env, s, a), i)
  {
    var k := KeyAt(s, i);
    if OfCall(a) {
      CallStep(env, s, a);
    } else {
      OtherStep(env, s, a);
    }
    if !a.Collect? || !Collects(s, k, a.at) {
      StoreStep(env, s, a, k);
    }
  }

  /** In every run, collections included, a call that is alone on its key is never refused because of its nonce. */
  lemma {:induction false} AloneIsNeverUsed(env: Env, s: State, run: seq<Action>, i: nat)
    requires Initial(s) && Exec(env, s, run).Some? && i in Exec(env, s, run).value.calls
    requires AloneOnKey(Exec(env, s, run).value, i)
    ensures KeyIsFree(Exec(env, s, run).value, i)
    decreases |run|
  {
    if run != [] {
      ExecPrefix(env, s, run);
      var front, last := run[..|run| - 1], run[|run| - 1];
      var t := Exec(env, s, front).value;
      StepExtends(env, t, last);
      if i in t.calls {
        AloneReachesBack(t, Apply(env, t, last), i);
        AloneIsNeverUsed(env, s, front, i);
        if OfCall(last) && last.i == i {
          OwnStepKeepsKeyFree(env, t, last);
        } else {
          OtherStepKeepsKeyFree(env, t, last, i);
        }
      } else {
        ArrivalFindsKeyFree(env, s, front, t, last, i);
      }
    }
  }

  /** An entry belongs to a call that carries its key. */
  lemma {:induction false} EntriesHaveCalls(env: Env, s: State, run: seq<Action>, k: string)
    requires Initial(s) && Exec(env, s, run).Some? && k in Exec(env, s, run).value.store
    ensures exists j :: j in Exec(env, s, run).value.calls && KeyAt(Exec(env, s, run).value, j) == k
    decreases |run|
  {
    ExecPrefix(env, s, run);
    var front, last := run[..|run| - 1], run[|run| - 1];
    var t := Exec(env, s, front).value;
    StepExtends(env, t, last);
    if k in t.store {
      EntriesHaveCalls(env, s, front, k);
      var j :| j in t.calls && KeyAt(t, j) == k;
      assert j in Apply(env, t, last).calls && KeyAt(Apply(env, t, last), j) == k;
    } else {
      EntryAppears(env, t, last, k);
    }
  }

  lemma EntryAppears(env: Env, t: State, a: Action, k: string)
    requires Enabled(t, a) && k !in t.store && k in Apply(env, t, a).store
    ensures a.Reserve? && a.i in Apply(env, t, a).calls && KeyAt(Apply(env, t, a), a.i) == k
  {
  }

  lemma ArrivalFindsKeyFree(env: Env, s: State, front: seq<Action>, t: State, a: Action, i: nat)
    requires Initial(s) && Exec(env, s, front) == Some(t) && Enabled(t, a)
    requires i !in t.calls && i in Apply(env, t, a).calls && AloneOnKey(Apply(env, t, a), i)
    ensures KeyIsFree(Apply(env, t, a), i)
  {
    var t' := Apply(env, t, a);
    if OfCall(a) {
      CallStep(env, t, a);
    } else {
      OtherStep(env, t, a);
    }
    if KeyAt(t', i) in t.store {
      EntriesHaveCalls(env, s, front, KeyAt(t', i));
    }
  }

  // ---- Never refused, and served ----

  /** Every check the run makes for call i passes, and its broadcast does not fail. */
  ghost predicate Favours(env: Env, s: State, run: seq<Action>, i: nat, req: PaymentRequest) {
    && CheckRequest(env, req).None? && CheckSignature(env, req).None?
    && (forall clock | Took(env, s, run, SampleClock(i), clock) ::
          CheckWindow(req.Auth(), req.requirements.maxTimeoutSeconds, UnixSeconds(clock)).None?)
    && (forall grant, clock | Took(env, s, run, QueryGrant(i, grant), clock) ::
          CheckGrant(req.Auth(), grant, clock).None?)
    && (forall balance | QueryBalance(i, balance) in run :: CheckBalance(req.Auth(), balance).None?)
    && RejectTx(i) !in run && GiveUp(i) !in run
  }

  lemma FavoursPrefix(env: Env, s: State, run: seq<Action>, i: nat, req: PaymentRequest)
    requires run != [] && Favours(env, s, run, i, req)
    ensures Favours(env, s, run[..|run| - 1], i, req)
  {
  }

  /** Neither refused nor on the way to it; a /settle call is not answered as a /verify call either. */
  predicate Unrefused(call: Call) {
    && call.phase != Failed
    && (call.phase.Done? ==> call.phase.response.Success? || (call.phase.response.Valid? && call.kind == VerifyCall))
  }

  /** One more step of call i in its favour. */
  lemma FavouredStep(env: Env, s: State, front: seq<Action>, a: Action, t: State)
    requires Exec(env, s, front) == Some(t) && Enabled(t, a) && OfCall(a)
    requires Favours(env, s, front + [a], a.i, t.calls[a.i].req)
    requires KeyIsFree(t, a.i) && Unrefused(t.calls[a.i])
    ensures a.i in Apply(env, t, a).calls && Unrefused(Apply(env, t, a).calls[a.i])
  {
    TookLast(env, s, front, a);
    CallStep(env, t, a);
    var run := front + [a];
    assert run[|front|] == a;
    assert !a.RejectTx? && !a.GiveUp?;
  }

  lemma UnrefusedStep(env: Env, s: State, front: seq<Action>, a: Action, t: State, i: nat)
    requires Exec(env, s, front) == Some(t) && Enabled(t, a) && i in Apply(env, t, a).calls
    requires i in t.calls ==> Favours(env, s, front + [a], i, t.calls[i].req)
    requires i in t.calls ==> KeyIsFree(t, i) && Unrefused(t.calls[i])
    ensures Unrefused(Apply(env, t, a).calls[i])
  {
    if OfCall(a) && a.i == i {
      FavouredStep(env, s, front, a, t);
    } else if OfCall(a) {
      CallStep(env, t, a);
    } else {
      OtherStep(env, t, a);
    }
  }

  lemma PrefixIsFavoured(env: Env, s: State, run: seq<Action>, t: State, i: nat)
    requires run != [] && Exec(env, s, run).Some? && Exec(env, s, run[..|run| - 1]) == Some(t) && i in t.calls
    requires Extends(t, Exec(env, s, run).value) && AloneOnKey(Exec(env, s, run).value, i)
    requires Favours(env, s, run, i, Exec(env, s, run).value.calls[i].req)
    ensures AloneOnKey(t, i) && Favours(env, s, run[..|run| - 1], i, t.calls[i].req)
  {
    AloneReachesBack(t, Exec(env, s, run).value, i);
    FavoursPrefix(env, s, run, i, t.calls[i].req);
  }

  /** In every run that favours it, a call alone on its key is not refused: a finished settle is a success. */
  lemma {:induction false} FavouredIsNotRefused(env: Env, s: State, run: seq<Action>, i: nat)
    requires Initial(s) && Exec(env, s, run).Some? && i in Exec(env, s, run).value.calls
    requires var t := Exec(env, s, run).value; AloneOnKey(t, i) && Favours(env, s, run, i, t.calls[i].req)
    ensures Unrefused(Exec(env, s, run).value.calls[i])
    decreases |run|
  {
    if run != [] {
      ExecPrefix(env, s, run);
      var front, last := run[..|run| - 1], run[|run| - 1];
      var t := Exec(env, s, front).value;
      StepExtends(env, t, last);
      if i in t.calls {
        PrefixIsFavoured(env, s, run, t, i);
        FavouredIsNotRefused(env, s, front, i);
        AloneIsNeverUsed(env, s, front, i);
      }
      assert front + [last] == run;
      UnrefusedStep(env, s, front, last, t, i);
    }
  }

  lemma ReserverReserves(env: Env, start: State, run: seq<Action>, t: State, i: nat)
    returns (longer: seq<Action>, s: State)
    requires Exec(env, start, run) == Some(t) && CanPass(env, t, i) && KeyAt(t, i) !in t.store
    ensures Exec(env, start, longer) == Some(s) && Longer(run, longer)
    ensures At(s, i, Phase.Reserved) && SameRequests(t, s) && s.ledger == t.ledger
  {
    var u;
    longer, u := AdvanceToVerified(env, start, run, t, i);
    longer, s := DoReserve(env, start, longer, u, i, t.calls[i].req);
  }

  lemma ReserverSucceeds(env: Env, start: State, run: seq<Action>, t: State, i: nat, hash: string)
    returns (longer: seq<Action>, s: State)
    requires Exec(env, start, run) == Some(t) && CanReserve(env, t, i) && KeyAt(t, i) !in t.store
    ensures Exec(env, start, longer) == Some(s) && Longer(run, longer) && Succeeded(s, i) && SameRequests(t, s)
  {
    var v, h;
    longer, v := ReserverReserves(env, start, run, t, i);
    ReservedCanConfirm(env, t, v, i);
    longer, s, h := ConfirmHolder(env, start, longer, v, i, hash);
  }

  lemma ArrivalSucceeds(env: Env, start: State, run: seq<Action>, t: State, i: nat, hash: string)
    returns (longer: seq<Action>, s: State)
    requires Exec(env, start, run) == Some(t) && At(t, i, Arrived) && t.calls[i].kind == SettleCall
    requires FirstCheck(env, t.calls[i].req, t.clock).None? && CheckSignature(env, t.calls[i].req).None?
    requires KeyAt(t, i) !in t.store
    requires Sendable(t.ledger, AuthAt(t, i))
    ensures Exec(env, start, longer) == Some(s) && Longer(run, longer) && Succeeded(s, i) && SameRequests(t, s)
  {
    longer := Step(env, start, run, t, SampleClock(i));
    longer, s := ReserverSucceeds(env, start, longer, SetPhase(t, i, InWindow), i, hash);
  }

  /** Such a call is also never stuck: from any state of the run it can still succeed. */
  lemma UnrefusedCanSucceed(env: Env, start: State, run: seq<Action>, t: State, i: nat, hash: string)
    returns (longer: seq<Action>, s: State)
    requires Exec(env, start, run) == Some(t) && i in t.calls && t.calls[i].kind == SettleCall
    requires Unrefused(t.calls[i]) && KeyIsFree(t, i) && CheckSignature(env, t.calls[i].req).None?
    requires At(t, i, Arrived) ==> FirstCheck(env, t.calls[i].req, t.clock).None?
    requires t.calls[i].phase.Submitted? ==> CanConfirm(t, i)
    requires Checking(t, i) || At(t, i, Arrived) || At(t, i, Phase.Reserved) ==> Sendable(t.ledger, AuthAt(t, i))
    ensures Exec(env, start, longer) == Some(s) && Longer(run, longer) && Succeeded(s, i) && SameRequests(t, s)
  {
    if At(t, i, Arrived) {
      longer, s := ArrivalSucceeds(env, start, run, t, i, hash);
    } else if CanReserve(env, t, i) {
      longer, s := ReserverSucceeds(env, start, run, t, i, hash);
    } else if CanConfirm(t, i) {
      var h;
      longer, s, h := ConfirmHolder(env, start, run, t, i, hash);
    } else {
      longer, s := run, t;
    }
  }

  /** The gate's request was paid by an honest client at its second `time`. */
  ghost predicate PaidHonestly(env: Env, gate: Gate, from: string, nonce: string, time: int,
                               key: seq<byte>, sig: seq<byte>)
  {
    var pr := BuildRequirements(WithDefaults(gate.cfg), gate.http);
    var a := BuildAuthorization(pr, from, nonce, time);
    && Registered(env, gate.cfg) && (gate.cfg.maxTimeoutSeconds == 0 || gate.cfg.maxTimeoutSeconds >= 35)
    && 5 <= time < TWO_TO_63 - 30 && gate.payload == BuildPayload(pr, a, key, sig)
    && env.signed(Encode64(key), Encode64(sig), a, env.chains[gate.cfg.network].prefix)
  }

  /** The clock is read within the client's window, the chain's answers cover the amount, no broadcast fails. */
  ghost predicate FairRun(env: Env, s: State, run: seq<Action>, i: nat, a: Authorization, time: int) {
    && (forall clock | Took(env, s, run, SampleClock(i), clock) :: time - 5 <= UnixSeconds(clock) < time + 30)
    && (forall grant, clock | Took(env, s, run, QueryGrant(i, grant), clock) :: CheckGrant(a, grant, clock).None?)
    && (forall balance | QueryBalance(i, balance) in run :: CheckBalance(a, balance).None?)
    && RejectTx(i) !in run && GiveUp(i) !in run
  }

  lemma HonestIsFavoured(env: Env, s: State, run: seq<Action>, i: nat, gate: Gate, from: string, nonce: string,
                         time: int, key: seq<byte>, sig: seq<byte>)
    requires PaidHonestly(env, gate, from, nonce, time, key, sig)
    requires FairRun(env, s, run, i, gate.payload.payload.authorization, time)
    ensures Favours(env, s, run, i, SettleRequestOf(gate.cfg, gate.http, gate.payload))
  {
    var full := WithDefaults(gate.cfg);
    var a := gate.payload.payload.authorization;
    BuiltRequestPasses(env, full, gate.http, a, key, sig);
    forall clock | Took(env, s, run, SampleClock(i), clock)
      ensures CheckWindow(a, full.maxTimeoutSeconds, UnixSeconds(clock)).None?
    {
      ClientWindow(a, time, full.maxTimeoutSeconds, UnixSeconds(clock));
    }
  }

  /**
   In every gated run, among any other calls and collections, a gate that an honest client paid with a nonce of its own
   is never denied by the facilitator: its settle ends in success, any answer of it opens the gate, and a denial means
   that the gate did not wait for the answer.
   */
  lemma HonestClientIsServed(env: Env, s: GatedState, actions: seq<GatedAction>, g: nat, from: string, nonce: string,
                             time: int, key: seq<byte>, sig: seq<byte>)
    requires Initial(s.sys) && s.gates == map[] && GatedExec(env, s, actions).Some?
    requires var t := GatedExec(env, s, actions).value;
      && g in t.gates && PaidHonestly(env, t.gates[g], from, nonce, time, key, sig)
      && (t.gates[g].call in t.sys.calls ==> AloneOnKey(t.sys, t.gates[g].call))
      && FairRun(env, s.sys, Projection(actions), t.gates[g].call, t.gates[g].payload.payload.authorization, time)
    ensures var t := GatedExec(env, s, actions).value;
      var gate := t.gates[g];
      && gate.call in t.sys.calls
      && (t.sys.calls[gate.call].phase.Done? ==> Succeeded(t.sys, gate.call))
      && (forall resp | Answers(t.sys.calls[gate.call], resp) :: Conclude(gate, Some(resp)) == Served(resp))
      && (gate.status.Served? ==> Answers(t.sys.calls[gate.call], gate.status.receipt))
      && (gate.status.Served? ==> gate.status.receipt.payer == from)
      && (gate.status.Denied? ==> gate.status == Conclude(gate, None))
  {
    GatedRunKeepsGates(env, s, actions);
    GatedRunProjects(env, s, actions);
    var t := GatedExec(env, s, actions).value;
    var gate, run := t.gates[g], Projection(actions);
    assert GateOk(t, g);
    HonestIsFavoured(env, s.sys, run, gate.call, gate, from, nonce, time, key, sig);
    FavouredIsNotRefused(env, s.sys, run, gate.call);
    SucceededGate(t.sys, gate);
  }

  lemma SucceededGate(s: State, gate: Gate)
    requires gate.call in s.calls && s.calls[gate.call].kind == SettleCall && Unrefused(s.calls[gate.call])
    requires gate.payload.scheme == SCHEME && Decided(s, gate)
    requires s.calls[gate.call].req == SettleRequestOf(gate.cfg, gate.http, gate.payload)
    ensures s.calls[gate.call].phase.Done? ==> Succeeded(s, gate.call)
    ensures forall resp | Answers(s.calls[gate.call], resp) :: Conclude(gate, Some(resp)) == Served(resp)
    ensures gate.status.Served? ==>
      Answers(s.calls[gate.call], gate.status.receipt)
      && gate.status.receipt.payer == gate.payload.payload.authorization.from
    ensures gate.status.Denied? ==> gate.status == Conclude(gate, None)
  {
    forall resp | Answers(s.calls[gate.call], resp) ensures Conclude(gate, Some(resp)) == Served(resp) {
      ConcludedByAnswer(s.calls[gate.call], gate, resp);
    }
  }
}
