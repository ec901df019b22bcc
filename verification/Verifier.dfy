/** The verification cascade of facilitator/verify.go over the answers of clock, nonce store and chain. */
module Verifier {
  import opened Wrappers
  import opened Types
  import opened Decimals
  import opened Utf8
  import opened SignBytes
  import opened NonceStore

  datatype Client = Client(chainId: string, prefix: string)

  /** Public key text, signature text, what was signed, account prefix. */
  type SignatureCheck = (string, string, Authorization, string) -> bool

  /** Chain clients by network name, and the check of steps 9 and 10. */
  datatype Env = Env(chains: map<string, Client>, signed: SignatureCheck)

  /** The signature check of the source. */
  function Adr036Check(scheme: Scheme): SignatureCheck {
    (publicKey, signature, a, prefix) => VerifyAdr036(scheme, publicKey, signature, a, prefix).Some?
  }

  /** It accepts exactly a key and a signature over the document that names the key's own address as the payer. */
  lemma Adr036CheckIff(scheme: Scheme, publicKey: string, signature: string, a: Authorization, prefix: string)
    ensures (Adr036Check(scheme)(publicKey, signature, a, prefix)
      <==> exists key, sig :: Signs(scheme, publicKey, signature, a, prefix, key, sig))
  {
    AcceptedIffSigned(scheme, publicKey, signature, a, prefix);
  }

  lemma SignerOf(scheme: Scheme, check: SignatureCheck, publicKey: string, signature: string, a: Authorization,
                 prefix: string)
    returns (key: seq<byte>, sig: seq<byte>)
    requires check == Adr036Check(scheme) && check(publicKey, signature, a, prefix)
    ensures Signs(scheme, publicKey, signature, a, prefix, key, sig)
  {
    Adr036CheckIff(scheme, publicKey, signature, a, prefix);
    key, sig :| Signs(scheme, publicKey, signature, a, prefix, key, sig);
  }

  datatype NonceAnswer = Unseen | Seen | StoreFailure

  /** No expiration stands for the zero time. */
  datatype GrantAnswer = Grant(limit: string, expiration: Option<Instant>) | NoGrant | GrantFailure

  datatype BalanceAnswer = Balance(amount: string) | BalanceFailure

  /** What one Verify call reads; the clock is read twice. */
  datatype Observations = Observations(
    clock: Instant,
    nonce: NonceAnswer,
    grant: GrantAnswer,
    grantClock: Instant,
    balance: BalanceAnswer)

  datatype VerifyError = VerifyError(code: ErrorCode, message: string)

  function TrimPrefix(s: string, prefix: string): string {
    if prefix <= s then s[|prefix|..] else s
  }

  /** A request for an unregistered network never gets past the first stage. */
  function ClientOf(env: Env, req: PaymentRequest): Client {
    if req.payload.network in env.chains then env.chains[req.payload.network] else Client("", "")
  }

  // ---- The stages, in order. None means passed. ----

  function CheckRequest(env: Env, req: PaymentRequest): Option<VerifyError> {
    var pp, pr, a := req.payload, req.requirements, req.Auth();
    if pp.scheme != SCHEME || pr.scheme != SCHEME then Some(VerifyError(InvalidAuthorization, "scheme mismatch"))
    else if pp.network != pr.network then Some(VerifyError(InvalidAuthorization, "network mismatch"))
    else if pp.network !in env.chains then Some(VerifyError(InvalidAuthorization, "unsupported network"))
    else if a.to != pr.payTo then Some(VerifyError(InvalidAuthorization, "to/payTo mismatch"))
    else if a.denom != pr.asset then Some(VerifyError(InvalidAuthorization, "denom/asset mismatch"))
    else if CmpAmounts(a.amount, pr.maxAmountRequired) > 0 then
      Some(VerifyError(InvalidAuthorization, "amount exceeds maxAmountRequired"))
    else if a.resource != pr.resource then Some(VerifyError(InvalidAuthorization, "resource mismatch"))
    else if a.chainId != TrimPrefix(pp.network, "cosmos:") || a.chainId != env.chains[pp.network].chainId then
      Some(VerifyError(InvalidAuthorization, "chainId mismatch"))
    else None
  }

  const NON_POSITIVE_WINDOW := "non-positive validity window"

  function CheckWindow(a: Authorization, maxTimeoutSeconds: uint64, now: int64): Option<VerifyError> {
    if ToUint64(now) < a.validAfter then Some(VerifyError(ExpiredAuthorization, "not yet valid"))
    else if ToUint64(now) >= a.validBefore then Some(VerifyError(ExpiredAuthorization, "expired"))
    else if a.validBefore <= a.validAfter then Some(VerifyError(InvalidAuthorization, NON_POSITIVE_WINDOW))
    else if maxTimeoutSeconds > 0 && Sub64(a.validBefore, a.validAfter) > maxTimeoutSeconds then
      Some(VerifyError(InvalidAuthorization, "validity window exceeds maxTimeoutSeconds"))
    else None
  }

  function CheckNonce(answer: NonceAnswer): Option<VerifyError> {
    match answer
    case StoreFailure => Some(VerifyError(Unexpected, "nonce store error"))
    case Seen => Some(VerifyError(NonceAlreadyUsed, "nonce already observed"))
    case Unseen => None
  }

  function CheckSignature(env: Env, req: PaymentRequest): Option<VerifyError> {
    var p := req.payload.payload;
    if env.signed(p.publicKey, p.signature, req.Auth(), ClientOf(env, req).prefix) then None
    else Some(VerifyError(InvalidSignature, "signature"))
  }

  function CheckGrant(a: Authorization, answer: GrantAnswer, now: Instant): Option<VerifyError> {
    match answer
    case NoGrant => Some(VerifyError(InsufficientGrant, "no SendAuthorization for facilitator"))
    case GrantFailure => Some(VerifyError(Unexpected, "grant query"))
    case Grant(limit, expiration) =>
      if CmpAmounts(limit, a.amount) < 0 then Some(VerifyError(InsufficientGrant, "grant limit < amount"))
      else if expiration.Some? && expiration.value <= now then Some(VerifyError(InsufficientGrant, "grant expired"))
      else None
  }

  /** A failed balance query is ignored. */
  function CheckBalance(a: Authorization, answer: BalanceAnswer): Option<VerifyError> {
    if answer.Balance? && CmpAmounts(answer.amount, a.amount) < 0 then
      Some(VerifyError(InsufficientFunds, "balance < amount"))
    else None
  }

  function Verify(env: Env, req: PaymentRequest, obs: Observations): Result<string, VerifyError> {
    var a := req.Auth();
    var request := CheckRequest(env, req);
    if request.Some? then Err(request.value)
    else
      var window := CheckWindow(a, req.requirements.maxTimeoutSeconds, UnixSeconds(obs.clock));
      if window.Some? then Err(window.value)
      else
        var nonce := CheckNonce(obs.nonce);
        if nonce.Some? then Err(nonce.value)
        else
          var signature := CheckSignature(env, req);
          if signature.Some? then Err(signature.value)
          else
            var grant := CheckGrant(a, obs.grant, obs.grantClock);
            if grant.Some? then Err(grant.value)
            else
              var balance := CheckBalance(a, obs.balance);
              if balance.Some? then Err(balance.value) else Ok(a.from)
  }

  // ---- The specification's rules, on mathematical numbers ----

  datatype Rule = Rule(holds: bool, code: ErrorCode)

  /** The integers the texts denote are in order; text that denotes none is compared with nothing. */
  predicate AtMost(x: string, y: string) {
    var m, n := ParseInteger(x), ParseInteger(y);
    m.Some? && n.Some? ==> m.value <= n.value
  }

  /** Rules 1 to 6: the request against its requirements. */
  function RequestRules(env: Env, req: PaymentRequest): seq<Rule> {
    var pp, pr, a := req.payload, req.requirements, req.Auth();
    [
      Rule(pp.scheme == "exact_cosmos_authz" && pr.scheme == "exact_cosmos_authz", InvalidAuthorization),
      Rule(pp.network == pr.network && pp.network in env.chains, InvalidAuthorization),
      Rule(a.to == pr.payTo, InvalidAuthorization),
      Rule(a.denom == pr.asset, InvalidAuthorization),
      Rule(AtMost(a.amount, pr.maxAmountRequired), InvalidAuthorization),
      Rule(a.resource == pr.resource, InvalidAuthorization),
      Rule(pp.network in env.chains && a.chainId == env.chains[pp.network].chainId, InvalidAuthorization),
      Rule(pp.network == "cosmos:" + a.chainId || (pp.network == a.chainId && !("cosmos:" <= pp.network)),
           InvalidAuthorization)
    ]
  }

  /** Rule 7. */
  function WindowRules(req: PaymentRequest, now: int): seq<Rule> {
    var a, max := req.Auth(), req.requirements.maxTimeoutSeconds;
    [
      Rule(a.validAfter <= now < a.validBefore, ExpiredAuthorization),
      Rule(max == 0 || a.validBefore - a.validAfter <= max, InvalidAuthorization)
    ]
  }

  /** Rules 8 to 10. */
  function ProofRules(env: Env, req: PaymentRequest, obs: Observations): seq<Rule> {
    var p := req.payload.payload;
    [
      Rule(obs.nonce != StoreFailure, Unexpected),
      Rule(obs.nonce == Unseen, NonceAlreadyUsed),
      Rule(req.payload.network in env.chains ==>
        env.signed(p.publicKey, p.signature, req.Auth(), env.chains[req.payload.network].prefix), InvalidSignature)
    ]
  }

  /** Rule 11 and the balance rule. */
  function FundsRules(req: PaymentRequest, obs: Observations): seq<Rule> {
    var a := req.Auth();
    [
      Rule(obs.grant != GrantFailure, Unexpected),
      Rule(obs.grant.Grant? && AtMost(a.amount, obs.grant.limit)
        && (obs.grant.expiration.Some? ==> obs.grantClock < obs.grant.expiration.value), InsufficientGrant),
      Rule(obs.balance.Balance? ==> AtMost(a.amount, obs.balance.amount), InsufficientFunds)
    ]
  }

  function Rules(env: Env, req: PaymentRequest, obs: Observations): seq<Rule> {
    RequestRules(env, req) + (WindowRules(req, obs.clock / NANOS) + (ProofRules(env, req, obs) + FundsRules(req, obs)))
  }

  function FirstFailure(rules: seq<Rule>): Option<ErrorCode> {
    if rules == [] then None
    else if !rules[0].holds then Some(rules[0].code)
    else FirstFailure(rules[1..])
  }

  lemma {:induction false} FirstFailureConcat(x: seq<Rule>, y: seq<Rule>)
    ensures FirstFailure(x + y) == if FirstFailure(x).Some? then FirstFailure(x) else FirstFailure(y)
  {
    if x == [] {
      assert x + y == y;
    } else {
      assert (x + y)[1..] == x[1..] + y;
      FirstFailureConcat(x[1..], y);
    }
  }

  lemma {:induction false} AcceptedIffAllHold(rules: seq<Rule>)
    ensures FirstFailure(rules).None? <==> forall i | 0 <= i < |rules| :: rules[i].holds
  {
    if rules != [] {
      AcceptedIffAllHold(rules[1..]);
      if forall i | 0 <= i < |rules| :: rules[i].holds {
        assert forall i | 0 <= i < |rules[1..]| :: rules[1..][i].holds;
      } else if rules[0].holds {
        var i :| 0 <= i < |rules| && !rules[i].holds;
        assert !rules[1..][i - 1].holds;
      }
    }
  }

  function CodeOf(check: Option<VerifyError>): Option<ErrorCode> {
    if check.Some? then Some(check.value.code) else None
  }

  lemma AmountRule(x: string, y: string)
    ensures IsAmount(x) && IsAmount(y) ==> (AtMost(x, y) <==> Value(x) <= Value(y))
    ensures CmpAmounts(x, y) > 0 <==> !AtMost(x, y)
    ensures CmpAmounts(y, x) < 0 <==> !AtMost(x, y)
  {
  }

  /** The chain id is the network without the prefix, if that is there. */
  lemma ChainIdRule(network: string, chainId: string)
    ensures (chainId == TrimPrefix(network, "cosmos:")
      <==> network == "cosmos:" + chainId || (network == chainId && !("cosmos:" <= network)))
  {
    var prefix := "cosmos:";
    assert prefix <= network ==> network == prefix + network[|prefix|..];
    assert (prefix + chainId)[|prefix|..] == chainId;
  }

  lemma RequestPasses(env: Env, req: PaymentRequest)
    ensures var pp, pr, a := req.payload, req.requirements, req.Auth();
      CheckRequest(env, req).None? <==>
        && pp.scheme == "exact_cosmos_authz" && pr.scheme == "exact_cosmos_authz"
        && pp.network == pr.network && pp.network in env.chains
        && a.to == pr.payTo && a.denom == pr.asset && CmpAmounts(a.amount, pr.maxAmountRequired) <= 0
        && a.resource == pr.resource && a.chainId == env.chains[pp.network].chainId
        && a.chainId == TrimPrefix(pp.network, "cosmos:")
    ensures CheckRequest(env, req).Some? ==> CheckRequest(env, req).value.code == InvalidAuthorization
  {
  }

  lemma EightHold(rules: seq<Rule>)
    requires |rules| == 8
    ensures FirstFailure(rules).None? <==>
      && rules[0].holds && rules[1].holds && rules[2].holds && rules[3].holds
      && rules[4].holds && rules[5].holds && rules[6].holds && rules[7].holds
  {
    AcceptedIffAllHold(rules);
  }

  lemma RequestRulesHold(env: Env, req: PaymentRequest)
    ensures FirstFailure(RequestRules(env, req)).None? <==> CheckRequest(env, req).None?
  {
    RequestPasses(env, req);
    AmountRule(req.Auth().amount, req.requirements.maxAmountRequired);
    ChainIdRule(req.payload.network, req.Auth().chainId);
    EightHold(RequestRules(env, req));
  }

  lemma RequestDecides(env: Env, req: PaymentRequest)
    ensures CodeOf(CheckRequest(env, req)) == FirstFailure(RequestRules(env, req))
  {
    RequestPasses(env, req);
    RequestRulesHold(env, req);
    SameCode(RequestRules(env, req), InvalidAuthorization);
  }

  lemma FirstOfThree(r: Rule, s: Rule, t: Rule)
    ensures FirstFailure([r, s]) == if !r.holds then Some(r.code) else if !s.holds then Some(s.code) else None
    ensures FirstFailure([r, s, t]) ==
      if !r.holds then Some(r.code) else if !s.holds then Some(s.code) else if !t.holds then Some(t.code) else None
  {
    assert [r, s, t][1..] == [s, t] && [r, s][1..] == [s] && [s, t][1..] == [t];
    assert FirstFailure([t]) == if t.holds then None else Some(t.code);
    assert FirstFailure([s]) == if s.holds then None else Some(s.code);
  }

  lemma {:induction false} SameCode(rules: seq<Rule>, code: ErrorCode)
    requires forall i | 0 <= i < |rules| :: rules[i].code == code
    ensures FirstFailure(rules).Some? ==> FirstFailure(rules).value == code
  {
    if rules != [] {
      SameCode(rules[1..], code);
    }
  }

  lemma WindowDecides(req: PaymentRequest, now: int64)
    requires now >= 0
    ensures CodeOf(CheckWindow(req.Auth(), req.requirements.maxTimeoutSeconds, now))
      == FirstFailure(WindowRules(req, now))
  {
    var rules := WindowRules(req, now);
    FirstOfThree(rules[0], rules[1], rules[1]);
  }

  lemma ProofDecides(env: Env, req: PaymentRequest, obs: Observations)
    requires req.payload.network in env.chains
    ensures CodeOf(if CheckNonce(obs.nonce).Some? then CheckNonce(obs.nonce) else CheckSignature(env, req))
      == FirstFailure(ProofRules(env, req, obs))
  {
    var rules := ProofRules(env, req, obs);
    FirstOfThree(rules[0], rules[1], rules[2]);
  }

  lemma FundsDecide(req: PaymentRequest, obs: Observations)
    ensures CodeOf(if CheckGrant(req.Auth(), obs.grant, obs.grantClock).Some?
                   then CheckGrant(req.Auth(), obs.grant, obs.grantClock)
                   else CheckBalance(req.Auth(), obs.balance))
      == FirstFailure(FundsRules(req, obs))
  {
    var rules := FundsRules(req, obs);
    FirstOfThree(rules[0], rules[1], rules[2]);
    if obs.grant.Grant? {
      AmountRule(req.Auth().amount, obs.grant.limit);
    }
    if obs.balance.Balance? {
      AmountRule(req.Auth().amount, obs.balance.amount);
    }
  }

  /** Verify is the decision procedure of the rules: it accepts when all hold, else reports the first that fails. */
  lemma VerifyDecides(env: Env, req: PaymentRequest, obs: Observations)
    requires obs.clock >= 0
    ensures match FirstFailure(Rules(env, req, obs))
      case None => Verify(env, req, obs) == Ok(req.Auth().from)
      case Some(code) => Verify(env, req, obs).Err? && Verify(env, req, obs).error.code == code
    ensures Verify(env, req, obs).Ok? <==> forall i | 0 <= i < |Rules(env, req, obs)| :: Rules(env, req, obs)[i].holds
  {
    var request, window := RequestRules(env, req), WindowRules(req, obs.clock / NANOS);
    var proof, funds := ProofRules(env, req, obs), FundsRules(req, obs);
    FirstFailureConcat(request, window + (proof + funds));
    FirstFailureConcat(window, proof + funds);
    FirstFailureConcat(proof, funds);
    AcceptedIffAllHold(Rules(env, req, obs));
    RequestDecides(env, req);
    WindowDecides(req, UnixSeconds(obs.clock));
    if CheckRequest(env, req).None? {
      ProofDecides(env, req, obs);
      FundsDecide(req, obs);
    }
  }

  /** An amount passes under every digit-string demand exactly when it is no integer, or at most 0. */
  lemma DemandNeverRejectsIff(amount: string)
    ensures (forall demand | IsAmount(demand) :: CmpAmounts(amount, demand) <= 0) <==>
      (ParseInteger(amount).None? || ParseInteger(amount).value <= 0)
  {
    var zero := "0";
    assert IsAmount(zero) && Value(zero) == 0;
    if ParseInteger(amount).Some? && ParseInteger(amount).value > 0 {
      assert CmpAmounts(amount, zero) > 0;
    }
  }

  ghost predicate WellFormedAmounts(req: PaymentRequest, obs: Observations) {
    && IsAmount(req.Auth().amount)
    && IsAmount(req.requirements.maxAmountRequired)
    && (obs.grant.Grant? ==> IsAmount(obs.grant.limit))
    && (obs.balance.Balance? ==> IsAmount(obs.balance.amount))
  }

  /** A success is covered three times over: by the demand, by the grant, and by the balance if it was known. */
  lemma SuccessIsCovered(env: Env, req: PaymentRequest, obs: Observations)
    requires WellFormedAmounts(req, obs) && obs.clock >= 0 && Verify(env, req, obs).Ok?
    ensures Value(req.Auth().amount) <= Value(req.requirements.maxAmountRequired)
    ensures obs.grant.Grant? && Value(req.Auth().amount) <= Value(obs.grant.limit)
    ensures obs.balance.Balance? ==> Value(req.Auth().amount) <= Value(obs.balance.amount)
  {
    AmountRule(req.Auth().amount, req.requirements.maxAmountRequired);
    if obs.grant.Grant? {
      AmountRule(req.Auth().amount, obs.grant.limit);
    }
    if obs.balance.Balance? {
      AmountRule(req.Auth().amount, obs.balance.amount);
    }
  }

  // ---- Window arithmetic ----

  /** For every clock, also a negative one that the conversion wraps. */
  lemma WindowIsExact(a: Authorization, maxTimeoutSeconds: uint64, now: int64)
    ensures CheckWindow(a, maxTimeoutSeconds, now) == None <==>
      a.validAfter <= now % 0x1_0000_0000_0000_0000 < a.validBefore
      && (maxTimeoutSeconds == 0 || a.validBefore - a.validAfter <= maxTimeoutSeconds)
    ensures CheckWindow(a, maxTimeoutSeconds, now).Some? ==>
      CheckWindow(a, maxTimeoutSeconds, now).value.message != NON_POSITIVE_WINDOW
  {
    var r := CheckWindow(a, maxTimeoutSeconds, now);
    if r.Some? {
      assert |r.value.message| != |NON_POSITIVE_WINDOW|;
    }
  }

  /** A success bounds the deadline, the subtraction did not wrap, and the deadline Settle stores is the signed one. */
  lemma SuccessBoundsDeadline(env: Env, req: PaymentRequest, obs: Observations)
    requires Verify(env, req, obs).Ok? && obs.clock >= 0
    ensures var a, max, now := req.Auth(), req.requirements.maxTimeoutSeconds, UnixSeconds(obs.clock);
      && a.validAfter <= now < a.validBefore
      && Sub64(a.validBefore, a.validAfter) == a.validBefore - a.validAfter
      && (max > 0 ==> a.validBefore <= now + max)
      && (max > 0 && now + max < TWO_TO_63 - UNIX_TO_INTERNAL ==> Deadline(a.validBefore) == a.validBefore)
  {
    WindowIsExact(req.Auth(), req.requirements.maxTimeoutSeconds, UnixSeconds(obs.clock));
    DeadlineExact(req.Auth().validBefore);
  }

  /**
   Past the deadline by full-precision time means expired by floored seconds: once a reservation has been collected,
   no verification that reads its clock then or later accepts an authorization with that deadline.
   */
  lemma CollectedIsExpired(env: Env, req: PaymentRequest, obs: Observations, collected: Instant)
    requires Deadline(req.Auth().validBefore) == req.Auth().validBefore
    requires Expired(Entry(false, "", Deadline(req.Auth().validBefore)), collected) && collected <= obs.clock
    ensures Verify(env, req, obs).Err?
    ensures CheckRequest(env, req).None? ==> Verify(env, req, obs).error.code == ExpiredAuthorization
  {
    assert obs.clock / NANOS >= req.Auth().validBefore;
    assert CheckWindow(req.Auth(), req.requirements.maxTimeoutSeconds, UnixSeconds(obs.clock)).Some?;
  }
}
