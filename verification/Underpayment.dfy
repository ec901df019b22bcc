/** A payment that is no number: the gate serves, and nothing of the configured asset moves. */
module Underpayment {
  import opened Wrappers
  import opened Types
  import opened Decimals
  import opened Coins
  import opened Utf8
  import opened Base64
  import opened NonceStore
  import opened Verifier
  import opened Protocol
  import opened ExactlyOnce
  import opened Conservation
  import opened Middleware
  import opened Runs
  import opened Hazards
  import opened EndToEnd
  import opened HonestClient
  import opened Counterexamples

  // ---- Gated runs from runs of the facilitator ----

  function Lift(more: seq<Action>): seq<GatedAction> {
    if more == [] then [] else Lift(more[..|more| - 1]) + [Inner(more[|more| - 1])]
  }

  lemma GatedAppend(env: Env, s: GatedState, front: seq<GatedAction>, a: GatedAction)
    requires GatedExec(env, s, front).Some? && GatedEnabled(GatedExec(env, s, front).value, a)
    ensures GatedExec(env, s, front + [a]) == Some(GatedApply(env, GatedExec(env, s, front).value, a))
  {
    assert (front + [a])[..|front|] == front;
  }

  lemma {:induction false} LiftedRun(env: Env, s: GatedState, front: seq<GatedAction>, t: GatedState, more: seq<Action>)
    requires GatedExec(env, s, front) == Some(t) && Exec(env, t.sys, more).Some?
    ensures GatedExec(env, s, front + Lift(more)) == Some(t.(sys := Exec(env, t.sys, more).value))
    decreases |more|
  {
    if more == [] {
      assert front + Lift(more) == front;
    } else {
      ExecPrefix(env, t.sys, more);
      var init, last := more[..|more| - 1], more[|more| - 1];
      LiftedRun(env, s, front, t, init);
      GatedAppend(env, s, front + Lift(init), Inner(last));
      assert front + Lift(more) == front + Lift(init) + [Inner(last)];
    }
  }

  // ---- The request ----

  /** The honest client's authorization, but for an amount that is no number. */
  function OddAuthorization(pr: PaymentRequirements, from: string, nonce: string, time: int): Authorization {
    BuildAuthorization(pr, from, nonce, time).(amount := "1a/")
  }

  lemma OddAmountPassesDemand(amount: string, other: string)
    requires ParseInteger(amount).None?
    ensures CmpAmounts(amount, other) == 0 && CmpAmounts(other, amount) == 0
  {
  }

  lemma OddRequestPasses(env: Env, cfg: Config, http: HttpRequest, a: Authorization, key: seq<byte>, sig: seq<byte>)
    requires Registered(env, cfg) && ParseInteger(a.amount).None?
    requires var pr := BuildRequirements(cfg, http);
      a.to == pr.payTo && a.denom == pr.asset && a.resource == pr.resource && a.chainId == pr.extra.chainId
    ensures var pr := BuildRequirements(cfg, http);
      CheckRequest(env, PaymentRequest(BuildPayload(pr, a, key, sig), pr)).None?
  {
    ChainIdAgrees(cfg, http);
    OddAmountPassesDemand(a.amount, cfg.amount);
  }

  /** What it takes: a gate as any other, a payer who signs, and a recipient that can receive the other denom. */
  ghost predicate OddlyPaid(env: Env, s0: State, cfg: Config, http: HttpRequest, a: Authorization,
                            from: string, nonce: string, time: int, key: seq<byte>, sig: seq<byte>)
  {
    && Initial(s0) && Registered(env, cfg) && (cfg.maxTimeoutSeconds == 0 || cfg.maxTimeoutSeconds >= 35)
    && 5 <= time < TWO_TO_63 - 30 && s0.clock >= 0 && time - 5 <= UnixSeconds(s0.clock) < time + 30
    && ValidDenom(cfg.asset) && |cfg.asset| <= 126
    && a == OddAuthorization(BuildRequirements(WithDefaults(cfg), http), from, nonce, time)
    && env.signed(Encode64(key), Encode64(sig), a, env.chains[cfg.network].prefix)
    && Account(a.chainId, cfg.payTo, "a/" + cfg.asset) !in s0.ledger.closed
  }

  function OddPayload(cfg: Config, http: HttpRequest, a: Authorization, key: seq<byte>, sig: seq<byte>)
    : PaymentPayload
  {
    BuildPayload(BuildRequirements(WithDefaults(cfg), http), a, key, sig)
  }

  lemma OddRequestCanSucceed(env: Env, s0: State, cfg: Config, http: HttpRequest, a: Authorization,
                             from: string, nonce: string, time: int, key: seq<byte>, sig: seq<byte>)
    requires OddlyPaid(env, s0, cfg, http, a, from, nonce, time, key, sig)
    ensures var req := SettleRequestOf(cfg, http, OddPayload(cfg, http, a, key, sig));
      && req.Auth() == a && FirstCheck(env, req, s0.clock).None? && CheckSignature(env, req).None?
      && Sendable(s0.ledger, a)
    ensures ParsePayment(a.amount + a.denom) == Some(Payment("a/" + cfg.asset, 1))
  {
    OtherDenomIsSent(cfg.asset);
    OddRequestPasses(env, WithDefaults(cfg), http, a, key, sig);
    ClientWindow(a, time, WithDefaults(cfg).maxTimeoutSeconds, UnixSeconds(s0.clock));
  }

  // ---- The run ----

  lemma OnlyTransaction(env: Env, s0: State, run: seq<Action>, t: State, req: PaymentRequest)
    requires Initial(s0) && Exec(env, s0, run) == Some(t) && Succeeded(t, 0)
    requires t.calls.Keys == {0} && t.calls[0].req == req
    ensures t.txs.Keys == {0} && t.txs[0].status == Executed
    ensures TxFor(req.Auth(), t.txs[0].hash) == Some(t.txs[0].(status := Pending))
  {
    SuccessIsExecuted(env, s0, run, 0);
    RunKeepsBooks(env, s0, run);
  }

  /** From its arrival the settle succeeds, and its transaction is the only one. */
  lemma OddSettle(env: Env, s0: State, s1: State, req: PaymentRequest, hash: string)
    returns (more: seq<Action>, t: State)
    requires Initial(s0) && Exec(env, s0, [Arrive(0, SettleCall, req)]) == Some(s1)
    requires s1 == s0.(calls := map[0 := Call(SettleCall, req, Arrived)])
    requires FirstCheck(env, req, s0.clock).None? && CheckSignature(env, req).None? && Sendable(s0.ledger, req.Auth())
    ensures Exec(env, s1, more) == Some(t) && Succeeded(t, 0) && SameRequests(s1, t) && t.calls[0].kind == SettleCall
    ensures t.txs.Keys == {0} && t.txs[0].status == Executed
    ensures TxFor(req.Auth(), t.txs[0].hash) == Some(t.txs[0].(status := Pending))
  {
    more, t := UnrefusedCanSucceed(env, s1, [], s1, 0, hash);
    var run := [Arrive(0, SettleCall, req)];
    ExecConcat(env, s0, run, more);
    RunExtends(env, s1, more);
    OnlyTransaction(env, s0, run + more, t, req);
  }

  /** In words of the ledger: the chain took nothing of the configured asset from the payer. */
  lemma NothingOfTheAsset(t: State, a: Authorization)
    requires t.txs.Keys == {0} && t.txs[0].account.denom != a.denom
    ensures Spent(t, PayerAccount(a)) == 0
  {
    assert ExecutedFrom(t, PayerAccount(a)) == {};
  }

  /**
   For every gate with a valid asset of at most 126 characters, whatever it demands: a payer who signs the amount "1a/"
   is served, the chain moves one unit of another denom, and nothing of the configured asset.
   */
  lemma ServedWithoutPaying(env: Env, s0: State, cfg: Config, http: HttpRequest, a: Authorization,
                            from: string, nonce: string, time: int, key: seq<byte>, sig: seq<byte>, hash: string)
    returns (actions: seq<GatedAction>, t: GatedState)
    requires OddlyPaid(env, s0, cfg, http, a, from, nonce, time, key, sig)
    ensures GatedExec(env, GatedState(s0, map[]), actions) == Some(t)
    ensures 0 in t.gates && t.gates[0].cfg == cfg && t.gates[0].status.Served?
    ensures t.gates[0].payload.payload.authorization == a
    ensures t.sys.txs.Keys == {0} && t.sys.txs[0].account == Account(a.chainId, from, "a/" + cfg.asset)
    ensures t.sys.txs[0].amount == 1 && Spent(t.sys, PayerAccount(a)) == 0
  {
    OddRequestCanSucceed(env, s0, cfg, http, a, from, nonce, time, key, sig);
    var payload := OddPayload(cfg, http, a, key, sig);
    var req := SettleRequestOf(cfg, http, payload);
    var g0, open := GatedState(s0, map[]), Open(0, 0, cfg, http, Present(payload));
    var s1 := s0.(calls := map[0 := Call(SettleCall, req, Arrived)]);
    assert Exec(env, s0, []) == Some(s0);
    ExecAppend(env, s0, [], Arrive(0, SettleCall, req));
    assert [] + [Arrive(0, SettleCall, req)] == [Arrive(0, SettleCall, req)];
    var more, u := OddSettle(env, s0, s1, req, hash);
    NothingOfTheAsset(u, a);
    assert GatedExec(env, g0, []) == Some(g0);
    GatedAppend(env, g0, [], open);
    var g1 := GatedApply(env, g0, open);
    assert g1.sys == s1;
    LiftedRun(env, g0, [] + [open], g1, more);
    actions, t := AnswerSuccess(env, g0, [] + [open] + Lift(more), g1.(sys := u));
  }

  /** The facilitator's answer reaches the gate. */
  lemma AnswerSuccess(env: Env, s: GatedState, front: seq<GatedAction>, t: GatedState)
    returns (actions: seq<GatedAction>, t': GatedState)
    requires GatedExec(env, s, front) == Some(t) && 0 in t.gates && t.gates[0].status == Waiting
    requires t.gates[0].call == 0 && t.gates[0].payload.scheme == SCHEME && Succeeded(t.sys, 0)
    ensures GatedExec(env, s, actions) == Some(t') && t'.sys == t.sys && 0 in t'.gates
    ensures t'.gates[0].status.Served? && t'.gates[0] == t.gates[0].(status := t'.gates[0].status)
  {
    var call := t.sys.calls[0];
    var resp := SettleResponse(true, None, call.phase.response.transaction, call.req.payload.network,
                               call.req.Auth().from);
    ConcludedByAnswer(call, t.gates[0], resp);
    var a := Answer(0, Some(resp));
    GatedAppend(env, s, front, a);
    actions := front + [a];
    t' := GatedApply(env, t, a);
  }

  // ---- A gate, a client and a start as supposed ----

  function PlainConfig(): Config {
    Config("noble1r", "uusdc", "7", "cosmos:noble-1", "noble1f", 0, "", "", 6, "USDC")
  }

  lemma PlainGateIsRegistered(env: Env, cfg: Config)
    requires env == PlainEnv() && cfg == PlainConfig()
    ensures Registered(env, cfg) && ValidDenom(cfg.asset) && |cfg.asset| <= 126
  {
    var network := "cosmos:noble-1";
    assert network[|"cosmos:"|..] == "noble-1";
  }

  lemma OddlyPaidInstance(cfg: Config, http: HttpRequest, from: string, nonce: string, time: int, clock: Instant,
                          key: seq<byte>, sig: seq<byte>)
    requires cfg == PlainConfig() && time == 100 && clock == 100 * NANOS
    ensures var a := OddAuthorization(BuildRequirements(WithDefaults(cfg), http), from, nonce, time);
      OddlyPaid(PlainEnv(), EmptyStart(clock), cfg, http, a, from, nonce, time, key, sig)
  {
    PlainGateIsRegistered(PlainEnv(), cfg);
  }
}
