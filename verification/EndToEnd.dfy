/** Gates beside the facilitator: whoever is served has paid. */
module EndToEnd {
  import opened Wrappers
  import opened Types
  import opened Decimals
  import opened Coins
  import opened Utf8
  import opened SignBytes
  import opened Verifier
  import opened Protocol
  import opened ExactlyOnce
  import opened Conservation
  import opened Verdicts
  import opened Middleware

  datatype GateStatus = Waiting | Served(receipt: SettleResponse) | Denied(code: Option<ErrorCode>)

  /** One gated HTTP request that came with a decodable payment, and the number of the settle call it made. */
  datatype Gate = Gate(cfg: Config, http: HttpRequest, payload: PaymentPayload, call: nat, status: GateStatus)

  datatype GatedState = GatedState(sys: State, gates: map<nat, Gate>)

  datatype GatedAction =
    | Inner(a: Action)
    | Open(g: nat, call: nat, cfg: Config, http: HttpRequest, header: SignatureHeader)
    | Answer(g: nat, resp: Option<SettleResponse>)

  function SettleRequestOf(cfg: Config, http: HttpRequest, payload: PaymentPayload): PaymentRequest {
    PaymentRequest(payload, BuildRequirements(WithDefaults(cfg), http))
  }

  /** What the gate does with the answer to its settle request, None if none came in time: the outcome of Paid. */
  function Conclude(gate: Gate, resp: Option<SettleResponse>): GateStatus {
    var settle: Facilitator := req => resp;
    match Receipt(gate.cfg, gate.http, Present(gate.payload), settle)
    case Some(receipt) => Served(receipt)
    case None => Denied(RefusalCode(gate.cfg, gate.http, Present(gate.payload), settle))
  }

  /** An answer is that of the gate's own call; the HTTP client may give up at any time. */
  predicate GatedEnabled(s: GatedState, a: GatedAction) {
    match a
    case Inner(b) => Enabled(s.sys, b)
    case Open(g, call, _, _, header) => g !in s.gates && call !in s.sys.calls && DecodePayload(header).Some?
    case Answer(g, resp) =>
      && g in s.gates && s.gates[g].status == Waiting
      && (resp.Some? ==> s.gates[g].call in s.sys.calls && Answers(s.sys.calls[s.gates[g].call], resp.value))
  }

  function GatedApply(env: Env, s: GatedState, a: GatedAction): GatedState
    requires GatedEnabled(s, a)
  {
    match a
    case Inner(b) => s.(sys := Apply(env, s.sys, b))
    case Open(g, call, cfg, http, header) =>
      var payload := DecodePayload(header).value;
      GatedState(Apply(env, s.sys, Arrive(call, SettleCall, SettleRequestOf(cfg, http, payload))),
                 s.gates[g := Gate(cfg, http, payload, call, Waiting)])
    case Answer(g, resp) => s.(gates := s.gates[g := s.gates[g].(status := Conclude(s.gates[g], resp))])
  }

  function GatedExec(env: Env, s: GatedState, actions: seq<GatedAction>): Option<GatedState> {
    if actions == [] then Some(s)
    else
      var before :- GatedExec(env, s, actions[..|actions| - 1]);
      var a := actions[|actions| - 1];
      if GatedEnabled(before, a) then Some(GatedApply(env, before, a)) else None
  }

  /** The facilitator's part of a gated run. */
  function Projection(actions: seq<GatedAction>): seq<Action> {
    if actions == [] then []
    else
      var front := Projection(actions[..|actions| - 1]);
      match actions[|actions| - 1]
      case Inner(a) => front + [a]
      case Open(_, call, cfg, http, header) =>
        if DecodePayload(header).Some? then
          front + [Arrive(call, SettleCall, SettleRequestOf(cfg, http, DecodePayload(header).value))]
        else front
      case _ => front
  }

  lemma {:induction false} GatedRunProjects(env: Env, s: GatedState, actions: seq<GatedAction>)
    requires GatedExec(env, s, actions).Some?
    ensures Exec(env, s.sys, Projection(actions)) == Some(GatedExec(env, s, actions).value.sys)
    decreases |actions|
  {
    if actions != [] {
      var front, last := actions[..|actions| - 1], actions[|actions| - 1];
      GatedRunProjects(env, s, front);
      match last {
        case Inner(a) => ExecAppend(env, s.sys, Projection(front), a);
        case Open(_, call, cfg, http, header) =>
          ExecAppend(env, s.sys, Projection(front),
                     Arrive(call, SettleCall, SettleRequestOf(cfg, http, DecodePayload(header).value)));
        case _ =>
      }
    }
  }

  // ---- A gate decides as its call was answered ----

  /** The status is what Paid makes of the call's answer, or of none. */
  ghost predicate Decided(s: State, gate: Gate) {
    gate.status == Waiting || gate.status == Conclude(gate, None)
    || (gate.call in s.calls
        && exists resp :: Answers(s.calls[gate.call], resp) && gate.status == Conclude(gate, Some(resp)))
  }

  ghost predicate GateOk(s: GatedState, g: nat)
    requires g in s.gates
  {
    var gate := s.gates[g];
    && gate.call in s.sys.calls && s.sys.calls[gate.call].kind == SettleCall
    && s.sys.calls[gate.call].req == SettleRequestOf(gate.cfg, gate.http, gate.payload)
    && gate.payload.scheme == SCHEME && Decided(s.sys, gate)
  }

  ghost predicate GatesInv(s: GatedState) {
    && (forall g | g in s.gates :: GateOk(s, g))
    && (forall g, h | g in s.gates && h in s.gates && s.gates[g].call == s.gates[h].call :: g == h)
  }

  /** An answered call keeps its answer: no step revokes it. */
  lemma DoneIsFinal(env: Env, s: State, a: Action, i: nat)
    requires Enabled(s, a) && i in s.calls && s.calls[i].phase.Done?
    ensures i in Apply(env, s, a).calls && Apply(env, s, a).calls[i] == s.calls[i]
  {
    if OfCall(a) {
      CallStep(env, s, a);
    } else {
      OtherStep(env, s, a);
    }
  }

  lemma InnerKeepsGates(env: Env, s: GatedState, a: Action)
    requires GatesInv(s) && Enabled(s.sys, a)
    ensures GatesInv(s.(sys := Apply(env, s.sys, a)))
  {
    var s' := s.(sys := Apply(env, s.sys, a));
    StepExtends(env, s.sys, a);
    forall g | g in s'.gates ensures GateOk(s', g) {
      assert GateOk(s, g);
      if s.sys.calls[s.gates[g].call].phase.Done? {
        DoneIsFinal(env, s.sys, a, s.gates[g].call);
      }
      assert Decided(s'.sys, s.gates[g]);
    }
  }

  lemma OpenKeepsGates(env: Env, s: GatedState, a: GatedAction)
    requires GatesInv(s) && a.Open? && GatedEnabled(s, a)
    ensures GatesInv(GatedApply(env, s, a))
  {
    var s' := GatedApply(env, s, a);
    forall g | g in s'.gates ensures GateOk(s', g) && (g != a.g ==> s'.gates[g].call != a.call) {
      assert g in s.gates ==> GateOk(s, g) && Decided(s'.sys, s.gates[g]);
    }
  }

  lemma AnswerKeepsGates(env: Env, s: GatedState, a: GatedAction)
    requires GatesInv(s) && a.Answer? && GatedEnabled(s, a)
    ensures GatesInv(GatedApply(env, s, a))
  {
    var s' := GatedApply(env, s, a);
    var gate := s.gates[a.g];
    assert Conclude(gate.(status := Conclude(gate, a.resp)), a.resp) == Conclude(gate, a.resp);
    forall g | g in s'.gates ensures GateOk(s', g) && s'.gates[g].call == s.gates[g].call {
      assert GateOk(s, g);
    }
  }

  lemma {:induction false} GatedRunKeepsGates(env: Env, s: GatedState, actions: seq<GatedAction>)
    requires s.gates == map[] && GatedExec(env, s, actions).Some?
    ensures GatesInv(GatedExec(env, s, actions).value)
    decreases |actions|
  {
    if actions != [] {
      var front, last := actions[..|actions| - 1], actions[|actions| - 1];
      GatedRunKeepsGates(env, s, front);
      var t := GatedExec(env, s, front).value;
      if last.Inner? {
        InnerKeepsGates(env, t, last.a);
      } else if last.Open? {
        OpenKeepsGates(env, t, last);
      } else {
        AnswerKeepsGates(env, t, last);
      }
    }
  }

  /** Paid opens exactly on the answer of a success, and otherwise refuses with the answer's code. */
  lemma ConcludedByAnswer(call: Call, gate: Gate, resp: SettleResponse)
    requires gate.payload.scheme == SCHEME && Answers(call, resp)
    ensures Conclude(gate, Some(resp)) == match call.phase.response
      case Success(_) => Served(resp)
      case Invalid(code) => Denied(Some(code))
      case Refused(code) => Denied(Some(code))
      case Valid => Denied(None)
    ensures Conclude(gate, None) == Denied(Some(Unexpected))
  {
  }

  predicate RefusedWith(s: State, i: nat, code: ErrorCode) {
    At(s, i, Done(Invalid(code))) || At(s, i, Done(Refused(code)))
  }

  /**
   In every gated run an answered gate stands as Paid leaves it for the answer of its own call: served, with that call's
   receipt, only after a success; denied only with the call's own refusal code, or as unexpected when no answer came.
   */
  lemma GateDecidesAsPaid(env: Env, s: GatedState, actions: seq<GatedAction>, g: nat)
    requires Initial(s.sys) && s.gates == map[] && GatedExec(env, s, actions).Some?
    requires g in GatedExec(env, s, actions).value.gates
    ensures var t := GatedExec(env, s, actions).value;
      var gate := t.gates[g];
      && gate.call in t.sys.calls
      && match gate.status
         case Waiting => true
         case Served(receipt) => Succeeded(t.sys, gate.call) && Answers(t.sys.calls[gate.call], receipt)
           && Receipt(gate.cfg, gate.http, Present(gate.payload), _ => Some(receipt)) == Some(receipt)
         case Denied(code) =>
           code == Some(Unexpected) || (code.Some? && RefusedWith(t.sys, gate.call, code.value))
  {
    GatedRunKeepsGates(env, s, actions);
    var t := GatedExec(env, s, actions).value;
    var gate := t.gates[g];
    assert GateOk(t, g);
    if gate.status != Waiting {
      if gate.status != Conclude(gate, None) {
        var resp :| Answers(t.sys.calls[gate.call], resp) && gate.status == Conclude(gate, Some(resp));
        ConcludedByAnswer(t.sys.calls[gate.call], gate, resp);
      }
    }
  }

  // ---- Served implies settled ----

  /**
   The signed terms meet the gate's, and the chain moved what the signed amount and denom, read together, say, from the
   payer to the configured recipient. A digit string of a valid asset is the signed number of the configured asset, at
   most the demand; any other amount that was paid is no integer, so it was compared with nothing.
   */
  ghost predicate PaidFor(env: Env, s: State, gate: Gate)
    requires gate.call in s.calls
  {
    var a, i := AuthAt(s, gate.call), gate.call;
    && Succeeded(s, i)
    && TermsMeet(a, gate.cfg, gate.http)
    && CheckSignature(env, s.calls[i].req).None?
    && i in s.txs && s.txs[i].status == Executed && s.txs[i].amount > 0
    && s.txs[i].account.address == a.from && s.txs[i].to.address == gate.cfg.payTo
    && ParsePayment(a.amount + gate.cfg.asset) == Some(Payment(s.txs[i].to.denom, s.txs[i].amount))
    && (IsAmount(a.amount) && ValidDenom(gate.cfg.asset) ==> PaidAsDemanded(s, gate))
    && (!IsAmount(a.amount) ==> ParseInteger(a.amount).None?)
  }

  /** What was signed names the gate's recipient and asset, and this request's resource. */
  predicate TermsMeet(a: Authorization, cfg: Config, r: HttpRequest) {
    && a.to == cfg.payTo && a.denom == cfg.asset
    && a.resource == (if r.tls || r.forwardedProto == "https" then "https://" else "http://") + r.host + r.path
  }

  lemma CheckedTermsMeet(env: Env, cfg: Config, r: HttpRequest, payload: PaymentPayload)
    requires CheckRequest(env, SettleRequestOf(cfg, r, payload)).None?
    ensures TermsMeet(payload.payload.authorization, cfg, r)
  {
    var scheme := if r.tls || r.forwardedProto == "https" then "https://" else "http://";
    assert ResourceOf(r) == scheme + r.host + r.path;
  }

  /** The configured asset moved, by the signed number, within the demand. */
  predicate PaidAsDemanded(s: State, gate: Gate)
    requires gate.call in s.calls && gate.call in s.txs && IsAmount(AuthAt(s, gate.call).amount)
  {
    var a, tx := AuthAt(s, gate.call), s.txs[gate.call];
    && tx.account == PayerAccount(a) && tx.to.denom == gate.cfg.asset && tx.amount == Value(a.amount)
    && (IsAmount(gate.cfg.amount) ==> tx.amount <= Value(gate.cfg.amount))
  }

  lemma DemandCovers(env: Env, req: PaymentRequest)
    requires CheckRequest(env, req).None?
    requires IsAmount(req.Auth().amount) && IsAmount(req.requirements.maxAmountRequired)
    ensures Value(req.Auth().amount) <= Value(req.requirements.maxAmountRequired)
  {
    AmountRule(req.Auth().amount, req.requirements.maxAmountRequired);
  }

  lemma SucceededIsPaidFor(env: Env, s: State, run: seq<Action>, gate: Gate)
    requires Initial(s) && Exec(env, s, run).Some? && Succeeded(Exec(env, s, run).value, gate.call)
    requires Exec(env, s, run).value.calls[gate.call].req == SettleRequestOf(gate.cfg, gate.http, gate.payload)
    ensures PaidFor(env, Exec(env, s, run).value, gate)
  {
    var t := Exec(env, s, run).value;
    var obs := VerdictInEveryRun(env, s, run, gate.call);
    SuccessIsExecuted(env, s, run, gate.call);
    var a := AuthAt(t, gate.call);
    SentIntegersAreDigits(a.amount, a.denom);
    CheckedTermsMeet(env, gate.cfg, gate.http, gate.payload);
    if IsAmount(a.amount) && ValidDenom(a.denom) {
      DigitsPayAsWritten(a.amount, a.denom);
      if IsAmount(gate.cfg.amount) {
        DemandCovers(env, t.calls[gate.call].req);
      }
    }
  }

  /**
   In every run each served request has its own settlement of its own terms, executed on chain; where settlement is
   exactly-once, two served requests also have different keys.
   */
  lemma ServedImpliesSettled(env: Env, s: GatedState, actions: seq<GatedAction>, g: nat, h: nat)
    requires Initial(s.sys) && s.gates == map[] && GatedExec(env, s, actions).Some?
    requires var t := GatedExec(env, s, actions).value;
      g in t.gates && t.gates[g].status.Served? && h in t.gates && t.gates[h].status.Served?
    ensures var t := GatedExec(env, s, actions).value;
      && t.gates[g].call in t.sys.calls && t.gates[h].call in t.sys.calls
      && PaidFor(env, t.sys, t.gates[g]) && Answers(t.sys.calls[t.gates[g].call], t.gates[g].status.receipt)
      && (g != h ==> t.gates[g].call != t.gates[h].call)
      && Exec(env, s.sys, Projection(actions)) == Some(t.sys)
      && (g != h && (GcFree(Projection(actions)) || Disciplined(env, s.sys, Projection(actions))) ==>
            KeyAt(t.sys, t.gates[g].call) != KeyAt(t.sys, t.gates[h].call))
  {
    var t := GatedExec(env, s, actions).value;
    GatedRunKeepsGates(env, s, actions);
    GatedRunProjects(env, s, actions);
    assert GateOk(t, g) && GateOk(t, h);
    GateDecidesAsPaid(env, s, actions, g);
    GateDecidesAsPaid(env, s, actions, h);
    var run := Projection(actions);
    SucceededIsPaidFor(env, s.sys, run, t.gates[g]);
    if GcFree(run) || Disciplined(env, s.sys, run) {
      SettledOnce(env, s.sys, run, t.gates[g].call, t.gates[h].call);
    }
  }

  /** The key signed for the gate's terms, and its address is the account the gate was paid from. */
  ghost predicate SignedFor(scheme: Scheme, env: Env, s: State, gate: Gate, key: seq<byte>, sig: seq<byte>) {
    && SignedRequest(scheme, env, SettleRequestOf(gate.cfg, gate.http, gate.payload), key, sig)
    && TermsMeet(gate.payload.payload.authorization, gate.cfg, gate.http)
    && gate.call in s.txs
    && scheme.address(env.chains[gate.payload.network].prefix, key) == Some(s.txs[gate.call].account.address)
  }

  lemma PaidFromPayer(env: Env, s: State, run: seq<Action>, gate: Gate)
    requires Initial(s) && Exec(env, s, run).Some? && Succeeded(Exec(env, s, run).value, gate.call)
    requires Exec(env, s, run).value.calls[gate.call].req == SettleRequestOf(gate.cfg, gate.http, gate.payload)
    ensures var t, a := Exec(env, s, run).value, gate.payload.payload.authorization;
      TermsMeet(a, gate.cfg, gate.http) && gate.call in t.txs && t.txs[gate.call].account.address == a.from
  {
    SucceededIsPaidFor(env, s, run, gate);
  }

  lemma SettledIsSigned(scheme: Scheme, env: Env, s: State, run: seq<Action>, gate: Gate)
    returns (key: seq<byte>, sig: seq<byte>)
    requires Initial(s) && Exec(env, s, run).Some? && Succeeded(Exec(env, s, run).value, gate.call)
    requires Exec(env, s, run).value.calls[gate.call].req == SettleRequestOf(gate.cfg, gate.http, gate.payload)
    requires env.signed == Adr036Check(scheme)
    ensures SignedFor(scheme, env, Exec(env, s, run).value, gate, key, sig)
  {
    PaidFromPayer(env, s, run, gate);
    key, sig := SignedInEveryRun(scheme, env, s, run, gate.call);
  }

  lemma ServedSucceeded(env: Env, s: GatedState, actions: seq<GatedAction>, g: nat)
    requires Initial(s.sys) && s.gates == map[] && GatedExec(env, s, actions).Some?
    requires g in GatedExec(env, s, actions).value.gates
    requires GatedExec(env, s, actions).value.gates[g].status.Served?
    ensures var t := GatedExec(env, s, actions).value;
      var gate := t.gates[g];
      && Exec(env, s.sys, Projection(actions)) == Some(t.sys) && Succeeded(t.sys, gate.call)
      && t.sys.calls[gate.call].req == SettleRequestOf(gate.cfg, gate.http, gate.payload)
  {
    GatedRunKeepsGates(env, s, actions);
    GatedRunProjects(env, s, actions);
    assert GateOk(GatedExec(env, s, actions).value, g);
    GateDecidesAsPaid(env, s, actions, g);
  }

  /**
   Under the source's signature check, the account a served request was paid from is the address of a key that signed
   the document naming the gate's recipient, asset and resource.
   */
  lemma ServedIsSigned(scheme: Scheme, env: Env, s: GatedState, actions: seq<GatedAction>, g: nat)
    returns (key: seq<byte>, sig: seq<byte>)
    requires Initial(s.sys) && s.gates == map[] && GatedExec(env, s, actions).Some?
    requires g in GatedExec(env, s, actions).value.gates
    requires GatedExec(env, s, actions).value.gates[g].status.Served?
    requires env.signed == Adr036Check(scheme)
    ensures SignedFor(scheme, env, GatedExec(env, s, actions).value.sys, GatedExec(env, s, actions).value.gates[g],
                      key, sig)
  {
    ServedSucceeded(env, s, actions, g);
    key, sig := SettledIsSigned(scheme, env, s.sys, Projection(actions), GatedExec(env, s, actions).value.gates[g]);
  }
}
