/** The payment gate of middleware/middleware.go: what it demands, and when it lets a request through. */
module Middleware {
  import opened Wrappers
  import opened Types
  import opened Verifier

  datatype Config = Config(
    payTo: string,
    asset: string,
    amount: string,
    network: string,
    facilitatorAddr: string,
    maxTimeoutSeconds: uint64,
    description: string,
    mimeType: string,
    decimals: nat,
    symbol: string)

  datatype HttpRequest = HttpRequest(tls: bool, forwardedProto: string, host: string, path: string)

  /** The PAYMENT-SIGNATURE header after base64 and JSON decoding. */
  datatype SignatureHeader = Absent | Undecodable | Present(payload: PaymentPayload)

  const DEFAULT_TIMEOUT: uint64 := 60

  function WithDefaults(cfg: Config): Config {
    if cfg.maxTimeoutSeconds == 0 then cfg.(maxTimeoutSeconds := DEFAULT_TIMEOUT) else cfg
  }

  function ResourceOf(r: HttpRequest): string {
    (if r.tls || r.forwardedProto == "https" then "https" else "http") + "://" + r.host + r.path
  }

  function BuildRequirements(cfg: Config, r: HttpRequest): PaymentRequirements {
    var chainId :=
      if |cfg.network| > 7 && cfg.network[..7] == "cosmos:" then cfg.network[7..] else cfg.network;
    PaymentRequirements(SCHEME, cfg.network, cfg.amount, cfg.asset, cfg.payTo, ResourceOf(r), cfg.description,
                        cfg.mimeType, cfg.maxTimeoutSeconds,
                        RequirementsExtra(cfg.facilitatorAddr, chainId, cfg.decimals, cfg.symbol))
  }

  function DecodePayload(header: SignatureHeader): Option<PaymentPayload> {
    if header.Present? && header.payload.scheme == SCHEME then Some(header.payload) else None
  }

  /** The chain id handed to clients is the one Verify expects, except for the bare network "cosmos:". */
  lemma ChainIdAgrees(cfg: Config, r: HttpRequest)
    ensures BuildRequirements(cfg, r).extra.chainId == TrimPrefix(cfg.network, "cosmos:") <==> cfg.network != "cosmos:"
  {
    var n := cfg.network;
    if "cosmos:" <= n {
      assert n[..7] == "cosmos:";
      if |n| == 7 {
        assert n == n[..7];
      }
    }
  }

  // ---- What a resource names ----

  predicate Https(r: HttpRequest) {
    r.tls || r.forwardedProto == "https"
  }

  /** The resource starts with the scheme, https exactly for TLS or a forwarded https, and ends with the path. */
  lemma ResourceReads(r: HttpRequest)
    ensures "https://" <= ResourceOf(r) <==> r.tls || r.forwardedProto == "https"
    ensures "http://" <= ResourceOf(r) <==> !(r.tls || r.forwardedProto == "https")
    ensures |ResourceOf(r)| == (if Https(r) then 8 else 7) + |r.host| + |r.path|
    ensures ResourceOf(r)[|ResourceOf(r)| - |r.path|..] == r.path
    ensures ResourceOf(r)[if Https(r) then 8 else 7..][..|r.host|] == r.host
  {
    var scheme := if Https(r) then "https://" else "http://";
    assert ResourceOf(r) == scheme + r.host + r.path;
    assert ResourceOf(r)[|scheme|..] == r.host + r.path;
    assert scheme[4] == ResourceOf(r)[4];
  }

  /** No slash in the host, and a path that is empty or starts with one. */
  predicate WellSplit(r: HttpRequest) {
    '/' !in r.host && (r.path == "" || r.path[0] == '/')
  }

  lemma HostEnds(host: string, path: string, host': string, path': string)
    requires '/' !in host && (path == "" || path[0] == '/') && '/' !in host' && (path' == "" || path'[0] == '/')
    requires host + path == host' + path'
    ensures host == host' && path == path'
  {
    var s, s' := host + path, host' + path';
    assert s[..|host|] == host && s[|host|..] == path;
    assert s'[..|host'|] == host' && s'[|host'|..] == path';
    assert |host| < |s| ==> s[|host|] == '/';
    assert |host'| < |s'| ==> s'[|host'|] == '/';
    assert forall i | 0 <= i < |host| :: s[i] in host;
    assert forall i | 0 <= i < |host'| :: s'[i] in host';
  }

  /** Equal resources name one scheme, host and path. */
  lemma ResourceDetermines(r: HttpRequest, r': HttpRequest)
    requires WellSplit(r) && WellSplit(r') && ResourceOf(r) == ResourceOf(r')
    ensures Https(r) == Https(r') && r.host == r'.host && r.path == r'.path
  {
    ResourceReads(r);
    ResourceReads(r');
    var n := if Https(r) then 8 else 7;
    assert ResourceOf(r)[n..] == r.host + r.path;
    assert ResourceOf(r')[n..] == r'.host + r'.path;
    HostEnds(r.host, r.path, r'.host, r'.path);
  }

  /** What is signed for one gate's resource is refused at every gate of another scheme, host or path. */
  lemma OtherResourceIsRefused(env: Env, r: HttpRequest, cfg: Config, r': HttpRequest, payload: PaymentPayload)
    requires WellSplit(r) && WellSplit(r') && payload.payload.authorization.resource == ResourceOf(r)
    requires Https(r) != Https(r') || r.host != r'.host || r.path != r'.path
    ensures var check := CheckRequest(env, PaymentRequest(payload, BuildRequirements(cfg, r')));
      check.Some? && check.value.code == InvalidAuthorization
  {
    if ResourceOf(r) == ResourceOf(r') {
      ResourceDetermines(r, r');
    }
  }

  const PAYMENT_REQUIRED := 402

  /** What the gate writes before, or instead of, the inner handler. */
  class ResponseWriter {
    var status: Option<int>
    var required: Option<PaymentRequirements>
    var response: Option<SettleResponse>
    var served: nat

    constructor ()
      ensures status == None && required == None && response == None && served == 0
    {
      status, required, response, served := None, None, None, 0;
    }

    method WriteRequired(req: PaymentRequirements)
      modifies this
      ensures status == Some(PAYMENT_REQUIRED) && required == Some(req)
      ensures response == old(response) && served == old(served)
    {
      required := Some(req);
      status := Some(PAYMENT_REQUIRED);
    }

    method WriteFailure(req: PaymentRequirements, code: Option<ErrorCode>)
      modifies this
      ensures status == Some(PAYMENT_REQUIRED) && required == Some(req)
      ensures response == Some(SettleResponse(false, code, "", req.network, "")) && served == old(served)
    {
      required := Some(req);
      response := Some(SettleResponse(false, code, "", req.network, ""));
      status := Some(PAYMENT_REQUIRED);
    }

    method SetResponseHeader(resp: SettleResponse)
      modifies this
      ensures response == Some(resp)
      ensures status == old(status) && required == old(required) && served == old(served)
    {
      response := Some(resp);
    }

    method Serve()
      modifies this`served
      ensures served == old(served) + 1
    {
      served := served + 1;
    }
  }

  /** The facilitator's answer to a settle request; None when the call fails. */
  type Facilitator = PaymentRequest -> Option<SettleResponse>

  /** The receipt that opens the gate, if there is one. */
  function Receipt(cfg: Config, r: HttpRequest, header: SignatureHeader, settle: Facilitator): Option<SettleResponse> {
    var payload :- DecodePayload(header);
    var resp :- settle(PaymentRequest(payload, BuildRequirements(WithDefaults(cfg), r)));
    if resp.success then Some(resp) else None
  }

  /** The code a client that did send a header is refused with. */
  function RefusalCode(cfg: Config, r: HttpRequest, header: SignatureHeader, settle: Facilitator): Option<ErrorCode> {
    match DecodePayload(header)
    case None => Some(InvalidAuthorization)
    case Some(payload) =>
      match settle(PaymentRequest(payload, BuildRequirements(WithDefaults(cfg), r)))
      case None => Some(Unexpected)
      case Some(resp) => resp.errorReason
  }

  /** The chain id is the network, without "cosmos:" in front of something. */
  predicate NamesChain(network: string, chainId: string) {
    if network == "cosmos:" || !("cosmos:" <= network) then chainId == network else network == "cosmos:" + chainId
  }

  /** What a demand says, field by field. */
  predicate Demands(demand: PaymentRequirements, cfg: Config, r: HttpRequest) {
    && demand.scheme == "exact_cosmos_authz" && demand.network == cfg.network && demand.asset == cfg.asset
    && demand.maxAmountRequired == cfg.amount && demand.payTo == cfg.payTo
    && demand.resource == (if r.tls || r.forwardedProto == "https" then "https://" else "http://") + r.host + r.path
    && demand.maxTimeoutSeconds == (if cfg.maxTimeoutSeconds == 0 then 60 else cfg.maxTimeoutSeconds)
    && demand.description == cfg.description && demand.mimeType == cfg.mimeType
    && demand.extra.facilitator == cfg.facilitatorAddr
    && demand.extra.decimals == cfg.decimals && demand.extra.symbol == cfg.symbol
    && NamesChain(cfg.network, demand.extra.chainId)
  }

  /** The settle call a gate makes succeeded. */
  predicate Settled(cfg: Config, r: HttpRequest, header: SignatureHeader, settle: Facilitator) {
    header.Present? && header.payload.scheme == "exact_cosmos_authz" &&
    var resp := settle(PaymentRequest(header.payload, BuildRequirements(WithDefaults(cfg), r)));
    resp.Some? && resp.value.success
  }

  /**
   The inner handler runs exactly after a success, and the receipt is exposed; otherwise the answer is 402 with the
   demand, spelled out, and with the code that fits.
   */
  method Paid(cfg: Config, r: HttpRequest, header: SignatureHeader, settle: Facilitator, w: ResponseWriter)
    requires w.status == None
    modifies w
    ensures Settled(cfg, r, header, settle) <==> Receipt(cfg, r, header, settle).Some?
    ensures w.served == old(w.served) + (if Settled(cfg, r, header, settle) then 1 else 0)
    ensures Settled(cfg, r, header, settle) ==>
      w.status == None && w.required == old(w.required) && w.response == Receipt(cfg, r, header, settle)
    ensures !Settled(cfg, r, header, settle) ==>
      w.status == Some(402) && w.required.Some? && Demands(w.required.value, cfg, r)
    ensures header.Absent? ==> w.response == old(w.response)
    ensures header.Undecodable? || (header.Present? && header.payload.scheme != "exact_cosmos_authz") ==>
      w.response == Some(SettleResponse(false, Some(InvalidAuthorization), "", cfg.network, ""))
    ensures header.Present? && header.payload.scheme == "exact_cosmos_authz" && !Settled(cfg, r, header, settle) ==>
      var resp := settle(PaymentRequest(header.payload, BuildRequirements(WithDefaults(cfg), r)));
      var code := if resp.None? then Some(Unexpected) else resp.value.errorReason;
      && w.response == Some(SettleResponse(false, code, "", cfg.network, ""))
      && code == RefusalCode(cfg, r, header, settle)
  {
    var requirements := BuildRequirements(WithDefaults(cfg), r);
    ChainIdAgrees(WithDefaults(cfg), r);
    ChainIdRule(cfg.network, requirements.extra.chainId);
    if header.Absent? {
      w.WriteRequired(requirements);
      return;
    }
    var payload := DecodePayload(header);
    if payload.None? {
      w.WriteFailure(requirements, Some(InvalidAuthorization));
      return;
    }
    var resp := settle(PaymentRequest(payload.value, requirements));
    if resp.None? {
      w.WriteFailure(requirements, Some(Unexpected));
      return;
    }
    if !resp.value.success {
      w.WriteFailure(requirements, resp.value.errorReason);
      return;
    }
    w.SetResponseHeader(resp.value);
    w.Serve();
  }
}
