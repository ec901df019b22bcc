/** Settlement of one request, facilitator/settle.go: verify, reserve, broadcast, then commit or release. */
module Settler {
  import opened Wrappers
  import opened Types
  import opened NonceStore
  import opened Verifier

  /** The three ends of a broadcast; the caller cannot tell the last two apart. */
  datatype Outcome = Confirmed(txHash: string) | NotAccepted | Unconfirmed(txHash: string)

  function KeyOf(req: PaymentRequest): string {
    var a := req.Auth();
    NonceKey(a.from, a.chainId, a.nonce)
  }

  /**
   Net effect of settling with the given verdict on a store that other requests may have changed since the verdict.
   Only a confirmed broadcast leaves a trace, a committed entry carrying the transaction hash.
   */
  function SettleSpec(t: Table<string>, req: PaymentRequest, verdict: Result<string, VerifyError>, outcome: Outcome)
    : (Table<string>, SettleResponse)
  {
    match verdict
    case Err(e) => (t, SettleResponse(false, Some(e.code), "", req.payload.network, ""))
    case Ok(payer) =>
      if KeyOf(req) in t then (t, SettleResponse(false, Some(NonceAlreadyUsed), "", req.payload.network, payer))
      else match outcome
        case Confirmed(txHash) =>
          (t[KeyOf(req) := Entry(true, txHash, Deadline(req.Auth().validBefore))],
           SettleResponse(true, None, txHash, req.payload.network, payer))
        case _ => (t, SettleResponse(false, Some(BroadcastFailed), "", req.payload.network, payer))
  }

  class Settler {
    const nonces: MemoryNonceStore

    constructor (nonces: MemoryNonceStore)
      ensures this.nonces == nonces
    {
      this.nonces := nonces;
    }

    /**
     The calls after verification, which other requests may have overtaken since the verdict. A failed verdict names no
     payer; after a passed one every answer does.
     */
    method SettleVerified(req: PaymentRequest, verdict: Result<string, VerifyError>, outcome: Outcome)
      returns (resp: SettleResponse)
      requires nonces.Valid()
      modifies nonces, nonces.m.Values
      ensures nonces.Valid()
      ensures nonces.View() == SettleSpec(old(nonces.View()), req, verdict, outcome).0
      ensures resp == SettleSpec(old(nonces.View()), req, verdict, outcome).1
      ensures var k := NonceKey(req.Auth().from, req.Auth().chainId, req.Auth().nonce);
        var settles := verdict.Ok? && k !in old(nonces.View()) && outcome.Confirmed?;
        nonces.View() == if !settles then old(nonces.View())
          else old(nonces.View())[k := Entry(true, outcome.txHash, Deadline(req.Auth().validBefore))]
      ensures resp.network == req.payload.network
      ensures verdict.Err? ==>
        !resp.success && resp.errorReason == Some(verdict.error.code) && resp.transaction == "" && resp.payer == ""
      ensures verdict.Ok? ==> resp.payer == verdict.value
      ensures var k := NonceKey(req.Auth().from, req.Auth().chainId, req.Auth().nonce);
        verdict.Ok? && k in old(nonces.View()) ==>
          !resp.success && resp.errorReason == Some(NonceAlreadyUsed) && resp.transaction == ""
      ensures var k := NonceKey(req.Auth().from, req.Auth().chainId, req.Auth().nonce);
        verdict.Ok? && k !in old(nonces.View()) ==>
          if outcome.Confirmed? then resp.success && resp.errorReason == None && resp.transaction == outcome.txHash
          else !resp.success && resp.errorReason == Some(BroadcastFailed) && resp.transaction == ""
    {
      var a, network := req.Auth(), req.payload.network;
      if verdict.Err? {
        return SettleResponse(false, Some(verdict.error.code), "", network, "");
      }
      var payer := verdict.value;

      var err := nonces.Reserve(a.from, a.chainId, a.nonce, Deadline(a.validBefore));
      if err.Some? {
        var code := if err.value == NonceUsed then NonceAlreadyUsed else Unexpected;
        return SettleResponse(false, Some(code), "", network, payer);
      }

      if !outcome.Confirmed? {
        var _ := nonces.Release(a.from, a.chainId, a.nonce);
        assert nonces.View() == old(nonces.View());
        return SettleResponse(false, Some(BroadcastFailed), "", network, payer);
      }

      var _ := nonces.Commit(a.from, a.chainId, a.nonce, outcome.txHash);
      return SettleResponse(true, None, outcome.txHash, network, payer);
    }

    /** A whole settle with nothing in between, given what the clock and the chain answer it. */
    method Settle(env: Env, req: PaymentRequest, clock: Instant, grant: GrantAnswer, grantClock: Instant,
                  balance: BalanceAnswer, outcome: Outcome)
      returns (resp: SettleResponse)
      requires nonces.Valid()
      modifies nonces, nonces.m.Values
      ensures nonces.Valid()
      ensures var before := old(nonces.View());
        var nonce := if KeyOf(req) in before then Seen else Unseen;
        var verdict := Verify(env, req, Observations(clock, nonce, grant, grantClock, balance));
        && nonces.View() == SettleSpec(before, req, verdict, outcome).0
        && resp == SettleSpec(before, req, verdict, outcome).1
        && resp.network == req.payload.network
        && (verdict.Err? ==> resp.errorReason == Some(verdict.error.code))
        && (verdict.Ok? && !outcome.Confirmed? ==> resp.errorReason == Some(BroadcastFailed))
        && resp.payer == (if verdict.Err? then "" else req.Auth().from)
        && resp.transaction == (if resp.success then outcome.txHash else "")
        && (resp.success <==> verdict.Ok? && outcome.Confirmed?) && (resp.success <==> resp.errorReason == None)
    {
      var a := req.Auth();
      var found := nonces.Exists(a.from, a.chainId, a.nonce);
      var obs := Observations(clock, if found then Seen else Unseen, grant, grantClock, balance);
      resp := SettleVerified(req, Verify(env, req, obs), outcome);
    }
  }
}
