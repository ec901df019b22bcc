/** In every run, a call that got past verification was verified on what it read itself, in the order it read it. */
module Verdicts {
  import opened Wrappers
  import opened Types
  import opened Decimals
  import opened NonceStore
  import opened Utf8
  import opened SignBytes
  import opened Verifier
  import opened Settler
  import opened Protocol
  import opened ExactlyOnce

  /** Some step of the run is this action, taken with the clock at this reading. */
  ghost predicate Took(env: Env, s: State, actions: seq<Action>, a: Action, clock: Instant) {
    actions != [] &&
    var front := actions[..|actions| - 1];
    Took(env, s, front, a, clock)
    || (a == actions[|actions| - 1] && Exec(env, s, front).Some? && Exec(env, s, front).value.clock == clock)
  }

  /** Some step of the run is call i reading the store while it does not hold the key. */
  ghost predicate SawUnseen(env: Env, s: State, actions: seq<Action>, i: nat, k: string) {
    actions != [] &&
    var front := actions[..|actions| - 1];
    SawUnseen(env, s, front, i, k)
    || (actions[|actions| - 1] == ReadNonce(i) && Exec(env, s, front).Some? && k !in Exec(env, s, front).value.store)
  }

  /** Number of checks a call in this phase has behind it; nothing is said of calls that fail one. */
  function ChecksPassed(p: Phase): nat {
    match p
    case Arrived => 0
    case InWindow => 1
    case NonceUnseen => 2
    case Granted => 3
    case Done(Invalid(_)) => 0
    case _ => 4
  }

  /** The observations were made by call i in the run, and the first n checks pass on them. */
  ghost predicate Witnesses(env: Env, s: State, actions: seq<Action>, i: nat, req: PaymentRequest, n: nat,
                            obs: Observations)
  {
    var a := req.Auth();
    && obs.nonce == Unseen && obs.clock <= obs.grantClock
    && (n >= 1 ==> Took(env, s, actions, SampleClock(i), obs.clock) && CheckRequest(env, req).None?)
    && (n >= 1 ==> CheckWindow(a, req.requirements.maxTimeoutSeconds, UnixSeconds(obs.clock)).None?)
    && (n >= 2 ==> SawUnseen(env, s, actions, i, KeyOf(req)) && CheckSignature(env, req).None?)
    && (n >= 3 ==> Took(env, s, actions, QueryGrant(i, obs.grant), obs.grantClock))
    && (n >= 3 ==> CheckGrant(a, obs.grant, obs.grantClock).None?)
    && (n >= 4 ==> QueryBalance(i, obs.balance) in actions && CheckBalance(a, obs.balance).None?)
  }

  ghost predicate Witnessed(env: Env, s: State, actions: seq<Action>, t: State, i: nat)
    requires i in t.calls
  {
    var n := ChecksPassed(t.calls[i].phase);
    n == 0 || exists obs ::
      && Witnesses(env, s, actions, i, t.calls[i].req, n, obs)
      && obs.clock <= t.clock && (n >= 3 ==> obs.grantClock <= t.clock)
  }

  lemma TookLonger(env: Env, s: State, front: seq<Action>, last: Action, a: Action, clock: Instant)
    requires Took(env, s, front, a, clock)
    ensures Took(env, s, front + [last], a, clock)
  {
    assert (front + [last])[..|front|] == front;
  }

  lemma TookLast(env: Env, s: State, front: seq<Action>, a: Action)
    requires Exec(env, s, front).Some?
    ensures Took(env, s, front + [a], a, Exec(env, s, front).value.clock)
  {
    assert (front + [a])[..|front|] == front;
  }

  lemma WitnessLonger(env: Env, s: State, front: seq<Action>, last: Action, i: nat, req: PaymentRequest, n: nat, m: nat,
                      obs: Observations)
    requires Witnesses(env, s, front, i, req, n, obs) && m <= n
    ensures Witnesses(env, s, front + [last], i, req, m, obs)
  {
    if n >= 1 {
      TookLonger(env, s, front, last, SampleClock(i), obs.clock);
    }
    assert (front + [last])[..|front|] == front;
    if n >= 3 {
      TookLonger(env, s, front, last, QueryGrant(i, obs.grant), obs.grantClock);
    }
  }

  /** A step that makes no check leaves a witness a witness. */
  lemma UncheckedStep(env: Env, s: State, front: seq<Action>, last: Action, t: State, i: nat)
    requires Exec(env, s, front) == Some(t) && Enabled(t, last) && i in Apply(env, t, last).calls
    requires i in t.calls ==> Witnessed(env, s, front, t, i)
    requires OfCall(last) && last.i == i ==>
      ChecksPassed(Apply(env, t, last).calls[i].phase) <= ChecksPassed(t.calls[i].phase)
    ensures Witnessed(env, s, front + [last], Apply(env, t, last), i)
  {
    var t' := Apply(env, t, last);
    StepExtends(env, t, last);
    if OfCall(last) {
      CallStep(env, t, last);
    } else {
      OtherStep(env, t, last);
    }
    var m := ChecksPassed(t'.calls[i].phase);
    if m > 0 {
      var n := ChecksPassed(t.calls[i].phase);
      var obs :| Witnesses(env, s, front, i, t.calls[i].req, n, obs) && obs.clock <= t.clock
        && (n >= 3 ==> obs.grantClock <= t.clock);
      WitnessLonger(env, s, front, last, i, t.calls[i].req, n, m, obs);
    }
  }

  lemma SampledWitness(env: Env, s: State, front: seq<Action>, t: State, i: nat)
    requires Exec(env, s, front) == Some(t) && Enabled(t, SampleClock(i))
    requires At(Apply(env, t, SampleClock(i)), i, InWindow)
    ensures Witnessed(env, s, front + [SampleClock(i)], Apply(env, t, SampleClock(i)), i)
  {
    TookLast(env, s, front, SampleClock(i));
    var obs := Observations(t.clock, Unseen, NoGrant, t.clock, BalanceFailure);
    assert Witnesses(env, s, front + [SampleClock(i)], i, t.calls[i].req, 1, obs);
  }

  lemma UnseenWitness(env: Env, s: State, front: seq<Action>, t: State, i: nat)
    requires Exec(env, s, front) == Some(t) && Enabled(t, ReadNonce(i)) && Witnessed(env, s, front, t, i)
    requires At(Apply(env, t, ReadNonce(i)), i, NonceUnseen)
    ensures Witnessed(env, s, front + [ReadNonce(i)], Apply(env, t, ReadNonce(i)), i)
  {
    var req := t.calls[i].req;
    var obs :| Witnesses(env, s, front, i, req, 1, obs) && obs.clock <= t.clock;
    WitnessLonger(env, s, front, ReadNonce(i), i, req, 1, 1, obs);
    assert (front + [ReadNonce(i)])[..|front|] == front;
    assert Both(CheckNonce(NonceAnswerOf(t, i)), CheckSignature(env, req)).None?;
    assert Witnesses(env, s, front + [ReadNonce(i)], i, req, 2, obs);
  }

  lemma GrantedWitness(env: Env, s: State, front: seq<Action>, t: State, i: nat, grant: GrantAnswer)
    requires Exec(env, s, front) == Some(t) && Enabled(t, QueryGrant(i, grant)) && Witnessed(env, s, front, t, i)
    requires At(Apply(env, t, QueryGrant(i, grant)), i, Granted)
    ensures Witnessed(env, s, front + [QueryGrant(i, grant)], Apply(env, t, QueryGrant(i, grant)), i)
  {
    var req, a := t.calls[i].req, QueryGrant(i, grant);
    var obs :| Witnesses(env, s, front, i, req, 2, obs) && obs.clock <= t.clock;
    WitnessLonger(env, s, front, a, i, req, 2, 2, obs);
    TookLast(env, s, front, a);
    assert Witnesses(env, s, front + [a], i, req, 3, obs.(grant := grant, grantClock := t.clock));
  }

  lemma VerifiedWitness(env: Env, s: State, front: seq<Action>, t: State, i: nat, balance: BalanceAnswer)
    requires Exec(env, s, front) == Some(t) && Enabled(t, QueryBalance(i, balance)) && Witnessed(env, s, front, t, i)
    requires At(Apply(env, t, QueryBalance(i, balance)), i, Verified)
    ensures Witnessed(env, s, front + [QueryBalance(i, balance)], Apply(env, t, QueryBalance(i, balance)), i)
  {
    var req, a := t.calls[i].req, QueryBalance(i, balance);
    var obs :| Witnesses(env, s, front, i, req, 3, obs) && obs.clock <= t.clock && obs.grantClock <= t.clock;
    WitnessLonger(env, s, front, a, i, req, 3, 3, obs);
    assert Witnesses(env, s, front + [a], i, req, 4, obs.(balance := balance));
  }

  lemma StepKeepsWitness(env: Env, s: State, front: seq<Action>, last: Action, t: State, i: nat)
    requires Exec(env, s, front) == Some(t) && Enabled(t, last) && i in Apply(env, t, last).calls
    requires i in t.calls ==> Witnessed(env, s, front, t, i)
    ensures Witnessed(env, s, front + [last], Apply(env, t, last), i)
  {
    var t' := Apply(env, t, last);
    if OfCall(last) && last.i == i {
      CallStep(env, t, last);
      var p := t'.calls[i].phase;
      if p == InWindow {
        SampledWitness(env, s, front, t, i);
      } else if p == NonceUnseen {
        UnseenWitness(env, s, front, t, i);
      } else if p == Granted {
        GrantedWitness(env, s, front, t, i, last.grant);
      } else if p == Verified {
        VerifiedWitness(env, s, front, t, i, last.balance);
      } else {
        UncheckedStep(env, s, front, last, t, i);
      }
    } else {
      UncheckedStep(env, s, front, last, t, i);
    }
  }

  lemma {:induction false} RunKeepsWitness(env: Env, s: State, actions: seq<Action>, i: nat)
    requires Initial(s) && Exec(env, s, actions).Some? && i in Exec(env, s, actions).value.calls
    ensures Witnessed(env, s, actions, Exec(env, s, actions).value, i)
    decreases |actions|
  {
    if actions != [] {
      ExecPrefix(env, s, actions);
      var front, last := actions[..|actions| - 1], actions[|actions| - 1];
      var t := Exec(env, s, front).value;
      if i in t.calls {
        RunKeepsWitness(env, s, front, i);
      }
      StepKeepsWitness(env, s, front, last, t, i);
      assert front + [last] == actions;
    }
  }

  /** The call is past verification: verified, holding, failed or refused after it, settled, or answered as valid. */
  predicate PastVerification(s: State, i: nat) {
    i in s.calls && ChecksPassed(s.calls[i].phase) == 4
  }

  /** What a call read in the run, with the clock readings in order. */
  ghost predicate ReadBy(env: Env, s: State, actions: seq<Action>, i: nat, obs: Observations)
    requires Exec(env, s, actions).Some? && i in Exec(env, s, actions).value.calls
  {
    && obs.nonce == Unseen && obs.clock <= obs.grantClock <= Exec(env, s, actions).value.clock
    && Took(env, s, actions, SampleClock(i), obs.clock)
    && SawUnseen(env, s, actions, i, KeyAt(Exec(env, s, actions).value, i))
    && Took(env, s, actions, QueryGrant(i, obs.grant), obs.grantClock)
    && QueryBalance(i, obs.balance) in actions
  }

  /**
   In every run each call past verification, of /settle and /verify alike, has observations of its own on which Verify
   accepts; so with digit-string amounts the demand, the grant and the balance it was told of cover its payment.
   */
  lemma VerdictInEveryRun(env: Env, s: State, actions: seq<Action>, i: nat) returns (obs: Observations)
    requires Initial(s) && Exec(env, s, actions).Some? && PastVerification(Exec(env, s, actions).value, i)
    ensures ReadBy(env, s, actions, i, obs)
    ensures var req := Exec(env, s, actions).value.calls[i].req;
      && Verify(env, req, obs) == Ok(req.Auth().from)
      && (WellFormedAmounts(req, obs) && obs.clock >= 0 ==>
            && Value(req.Auth().amount) <= Value(req.requirements.maxAmountRequired)
            && obs.grant.Grant? && Value(req.Auth().amount) <= Value(obs.grant.limit)
            && (obs.balance.Balance? ==> Value(req.Auth().amount) <= Value(obs.balance.amount)))
  {
    RunKeepsWitness(env, s, actions, i);
    var t := Exec(env, s, actions).value;
    var req := t.calls[i].req;
    obs :| Witnesses(env, s, actions, i, req, 4, obs) && obs.clock <= t.clock && obs.grantClock <= t.clock;
    AllChecksVerify(env, req, obs);
    if WellFormedAmounts(req, obs) && obs.clock >= 0 {
      SuccessIsCovered(env, req, obs);
    }
  }

  /** The key and signature the request came with, over its own authorization and for its own network. */
  ghost predicate SignedRequest(scheme: Scheme, env: Env, req: PaymentRequest, key: seq<byte>, sig: seq<byte>) {
    var p := req.payload.payload;
    && req.payload.network in env.chains
    && Signs(scheme, p.publicKey, p.signature, p.authorization, env.chains[req.payload.network].prefix, key, sig)
  }

  lemma VerifiedIsSigned(scheme: Scheme, env: Env, req: PaymentRequest) returns (key: seq<byte>, sig: seq<byte>)
    requires req.payload.network in env.chains && env.signed == Adr036Check(scheme)
    requires var p := req.payload.payload;
      env.signed(p.publicKey, p.signature, p.authorization, env.chains[req.payload.network].prefix)
    ensures SignedRequest(scheme, env, req, key, sig)
  {
    var p := req.payload.payload;
    key, sig := SignerOf(scheme, env.signed, p.publicKey, p.signature, p.authorization,
                         env.chains[req.payload.network].prefix);
  }

  lemma PastChecks(env: Env, s: State, actions: seq<Action>, i: nat)
    requires Initial(s) && Exec(env, s, actions).Some? && PastVerification(Exec(env, s, actions).value, i)
    ensures var req := Exec(env, s, actions).value.calls[i].req;
      var p := req.payload.payload;
      && req.payload.network in env.chains
      && env.signed(p.publicKey, p.signature, p.authorization, env.chains[req.payload.network].prefix)
  {
    RunKeepsWitness(env, s, actions, i);
    assert CheckSignature(env, Exec(env, s, actions).value.calls[i].req).None?;
  }

  /**
   Under the source's signature check, each call past verification carries a key of 33 bytes and a signature of 64 that
   the scheme accepts over the document of its own authorization, and the key's address on the network is the payer.
   */
  lemma SignedInEveryRun(scheme: Scheme, env: Env, s: State, actions: seq<Action>, i: nat)
    returns (key: seq<byte>, sig: seq<byte>)
    requires Initial(s) && Exec(env, s, actions).Some? && PastVerification(Exec(env, s, actions).value, i)
    requires env.signed == Adr036Check(scheme)
    ensures SignedRequest(scheme, env, Exec(env, s, actions).value.calls[i].req, key, sig)
  {
    PastChecks(env, s, actions, i);
    key, sig := VerifiedIsSigned(scheme, env, Exec(env, s, actions).value.calls[i].req);
  }

  lemma AllChecksVerify(env: Env, req: PaymentRequest, obs: Observations)
    requires CheckRequest(env, req).None? && CheckSignature(env, req).None? && obs.nonce == Unseen
    requires CheckWindow(req.Auth(), req.requirements.maxTimeoutSeconds, UnixSeconds(obs.clock)).None?
    requires CheckGrant(req.Auth(), obs.grant, obs.grantClock).None? && CheckBalance(req.Auth(), obs.balance).None?
    ensures Verify(env, req, obs) == Ok(req.Auth().from)
  {
  }
}
