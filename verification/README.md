# x402 on Cosmos: a verified model of the settlement facilitator

A resource server demands a payment (HTTP 402), a client signs an authorization with an ADR-036 signature, and a
facilitator verifies it, reserves its nonce, broadcasts a `MsgExec(MsgSend)` on the payer's authz grant, and commits or
releases the nonce. This project models that path and proves what it guarantees: for every input, every interleaving of
concurrent requests with garbage collection and the chain, and every configuration of the gate.

`dafny verify dfyconfig.toml` checks everything.

## Modules

| module | contents |
|---|---|
| `Wrappers`, `Types` | result types; the wire types of `facilitator/types.go`, with 64-bit conversions written out |
| `Decimals`, `Coins`, `Float64` | decimal text and amount comparison; what a broadcast sends for amount and denom read together; integers through an IEEE double and back |
| `Json`, `CanonicalJson`, `Utf8`, `Base64` | printer and reader as in encoding/json, key sorting, UTF-8, base64 |
| `SignBytes` | canonical authorization, ADR-036 document, signature verification over an abstract scheme |
| `NonceStore` | the store as a class over a mutable map of mutable entries; its refinement of a store on triples |
| `Verifier`, `Settler`, `ChainClient`, `Middleware` | the cascade, one settlement, the deciding parts of the chain client, the gate |
| `Protocol` | concurrent calls, collection, clock and chain as a transition system with one action per atomic step |
| `ExactlyOnce`, `Conservation`, `Verdicts` | invariants over all runs of that system: who can succeed, what the chain moved, what was verified |
| `Runs` | runs built step by step; a call that nothing interrupts is the sequential program |
| `Hazards`, `Retries`, `Counterexamples` | exactly when a collection, or a retry, pays a key twice; runs from the start that do |
| `Overdraft` | when the account of a verified settle has stopped covering it |
| `EndToEnd`, `HonestClient`, `Underpayment` | gates beside the facilitator, the honest client among concurrent calls, and a payment that is no number |

## Hypotheses of exactly-once

In runs without garbage collection, none. With collection, three, collected in `ExactlyOnce.Disciplined`:

- **Freshness**: calls that share a nonce key share their deadline. The code does not enforce it.
- **Exact deadlines**: `time.Unix(int64(validBefore), 0)` denotes `validBefore`. `NonceStore.DeadlineExact` proves that
  this holds exactly for `validBefore < 2^63 - 62135596800`; above the bound the stored deadline lies before 1970.
- **Clear collections**: when a collection removes an entry, at most one call can still succeed on its key. A call can
  when its broadcast can still be confirmed, or when it is a settle between its clock check and its reservation with a
  signature that verifies and an amount and denom that can be sent. That no settle for the key stands there is one way to meet this
  (`ExactlyOnce.NoStraddleDisciplines`). The code enforces neither.

The third is exact: after any disciplined run, a collection that removes an entry can be continued to two successes on
its key if and only if two different calls could still win it (`Hazards.DoubleSettlementIff`). There are two ways to get
there: the holder confirms over the reservation of one other call, which confirms too; or the holder fails and
its Release, which does not look at whose reservation it deletes, frees the key between two others
(`Hazards.ReleaseFreesAnothersKey`). `Counterexamples` builds runs from the start, for every acceptable request that can
be sent, that break exactly-once with each hypothesis dropped and the other two kept. The continuations that pay twice may include
raised grants and deposits, so they ask nothing of the ledger.

## Where the code and its documentation differ

The model follows the code.

- `facilitator/store.go:39` calls the store "sync.Map-backed"; it is a plain map under a mutex.
- `facilitator/store.go:19` and `specs/scheme_exact_cosmos_authz.md:186` release the nonce on failure so that the payer
  can retry. A broadcast that the node accepted but that was not seen in time also counts as a failure, so the payment
  can be executed twice with one success reported. `Conservation.ReplayBound` is the bound that does hold, and
  `Retries.PaidTwiceIff` says exactly when a retry pays again.
- `facilitator/verify.go:152` says that unparseable amounts are rejected elsewhere. They compare as equal to everything
  (`Decimals.OrderIffParseable`), and an amount passes under every demand exactly when it is no integer or at most 0
  (`Verifier.DemandNeverRejectsIff`). The broadcast reads amount and denom as one text, so some of these are sent: the
  amount "1a/" before the denom "uusdc" sends one "a/uusdc", and the gate serves (`Underpayment.ServedWithoutPaying`).
  What is sent is the signed number of the signed denom exactly for a digit string before a valid denom
  (`Coins.SentAsSignedIff`).
- `specs/scheme_exact_cosmos_authz.md:167` bounds the window by `maxTimeoutSeconds`; the code skips that for zero.
- `facilitator/adr036.go:43` promises canonical JSON. `sdk.SortJSON` passes numbers through a double, so timestamps from
  2^53 up are signed rounded (`SignBytes.PreimageDetermines`, `SignBytes.PreimageCollision`).
- `middleware/middleware.go:92` strips "cosmos:" only from longer names, `facilitator/verify.go:64` always. They differ
  on the bare network "cosmos:" and nowhere else (`Middleware.ChainIdAgrees`).

## Model

| member | source | states |
|---|---|---|
| ExactlyOnce.SettledOnce | facilitator/settle.go:19-72 | In any run of concurrent /settle and /verify calls, ticks and chain steps, at most one call per nonce key ends in success: without collection under no hypothesis, with collection when the run is disciplined. |
| ExactlyOnce.SettledOncePerTriple | facilitator/store.go:10-20 | The same per (payer, chain id, nonce) triple, whatever characters the three hold. |
| ExactlyOnce.StepKeepsInv | facilitator/settle.go:33-64 | Every single step keeps, for each key: at most one call claims it, the claim is backed by an entry with its deadline, state and hash, and an entry has a claimant; or, with clear collections, the deadline has passed and at most one call can still succeed. |
| ExactlyOnce.WinnersOnlyShrink | facilitator/verify.go:69-76 | Past the deadline of a key no step of any continuation, later collections included, makes a call a possible winner of it that was not one before. |
| ExactlyOnce.NoStraddleDisciplines | facilitator/store.go:101-112 | A fresh run with exact deadlines in which no collection meets a settle for a removed entry between clock check and reservation is disciplined, so it settles each key once. |
| Hazards.DoubleSettlementIff | facilitator/cmd/main.go:35-43 | After any disciplined run, a collection that removes an entry has a fresh continuation with two successes on its key if and only if two different calls could still win the key: a holder that can be confirmed, or a settle past its clock check with a signature that verifies and a payment that can be sent. |
| Hazards.HazardousCollection | facilitator/settle.go:59-64 | In any state of any run: a collection removes the entry of a call that can still be confirmed while another settle of the key can still reserve and be sent; without new requests or collections both succeed, the first committing the other's reservation. |
| Hazards.ReleaseFreesAnothersKey | facilitator/settle.go:49-50 | In any state of any run: a collection removes the entry of a call whose broadcast fails; its Release then deletes another call's reservation, a third call reserves, and both of these, which can be sent, succeed. |
| ExactlyOnce.OwnershipWithoutGc | facilitator/store.go:54-91 | Without collection an entry is pending exactly when one call in flight holds its key; no two calls hold one key. |
| ExactlyOnce.StoreCallsWithoutGc | facilitator/settle.go:50-64 | Without collection Commit never fails and never meets a committed entry, Release always removes the caller's own pending entry, and no step changes a committed entry, so its hash is written once. |
| ExactlyOnce.QuiescentAccounting | facilitator/settle.go:59-71 | With no settle in flight the store holds no pending entry, and its entries correspond one to one to the successes, with their transaction hashes. |
| Conservation.Conserved | specs/scheme_exact_cosmos_authz.md:194-200 | In every run, collection included, for every account: what was executed from it plus its remaining limit is its first limit plus the grants of the run; what was executed from it plus its balance is its first balance plus the deposits of the run plus what was executed in its favour; and the successes whose signed text sends from it sum to at most the executed ones. |
| Conservation.SuccessIsExecuted | facilitator/settle.go:47-71 | Every reported success is a transaction executed on chain with the reported hash that moved what the signed amount and denom, read together, say; that is the signed number from the account of the signed denom if and only if the amount is a digit string and the denom valid. |
| Conservation.ReplayBound | facilitator/chain_noble.go:297-311 | Without collection and in disciplined runs the sends executed for a key number at most its successes, broadcasts in flight, and broadcasts accepted but reported as failed; at most one of them is not of the last kind. |
| Retries.PaidTwiceIff | facilitator/settle.go:47-57 | After any run without collection, or disciplined and staying so, with a key free and one more acceptable request for it that can be sent: a continuation without collection or further failed broadcast executes two sends for the key if and only if an earlier broadcast for it, reported as failed, has a transaction that was or can still be executed. |
| Retries.RetryPaysTwice | facilitator/chain_noble.go:308-311 | In any state of any run, with any limits and balances: after such a broadcast one more acceptable request that can be sent leads to both transactions executed and one success. |
| Counterexamples.StraddledCollectionSettlesTwice | facilitator/cmd/main.go:35-43 | Clear collections are needed: for any acceptable request that can be sent, with an exact deadline, there is a run from the start that settles it twice, by a collection between another call's clock check and its reservation. |
| Counterexamples.DeletedReservationSettlesTwice | facilitator/settle.go:49-50 | The same by a failed broadcast whose Release deletes another call's reservation. |
| Counterexamples.ReusedNonceSettlesTwice | facilitator/store.go:101-112 | Freshness is needed: for any acceptable request and a second one on its key with a later deadline, both of which can be sent, there is a run, with clear collections and exact deadlines, that settles both. |
| Counterexamples.InexactDeadlineSettlesTwice | facilitator/settle.go:33-34 | Exact deadlines are needed: for any acceptable request that can be sent, beyond the exact range, there is a run, fresh and with clear collections, that settles it twice. |
| Counterexamples.UnconfirmedBroadcastPaysTwice | facilitator/settle.go:47-57 | The replay bound is tight: for any acceptable request that can be sent there is a run from the start, without collection, that executes two sends with one success. |
| Counterexamples.InexactDeadlineInstance | facilitator/settle.go:33-34 | A concrete request meets the hypotheses of the run without exact deadlines: validBefore 2^63, no configured bound. |
| Counterexamples.ReusedNonceInstance | facilitator/store.go:101-112 | Two concrete requests meet the hypotheses of the run without freshness: deadlines 100 and 200, verified at 50 and 150. |
| Overdraft.LimitIsSpentByOthers | facilitator/verify.go:99-112 | In every run whose chain answers are the ledger's: a verified settle was covered by the limit when it asked, and stops being covered if and only if more was spent from its account since than that left over and new grants brought; then another call's transaction was executed since. |
| Overdraft.BalanceIsSpentByOthers | facilitator/verify.go:114-120 | The same for the balance, when that query was answered. |
| Overdraft.CrowdedOutIff | specs/scheme_exact_cosmos_authz.md:198-200 | Of two transactions from one account that could each execute, the first leaves the second executable if and only if limit and balance cover both together. |
| Verdicts.VerdictInEveryRun | facilitator/verify.go:34-123 | In every run each call past verification, of /settle and /verify alike, has observations that it made itself in that run, with clock readings in order, on which Verify succeeds; so on digit strings the demand, grant and balance it was told of cover its payment. |
| Verdicts.SignedInEveryRun | facilitator/adr036.go:86-124 | In every run under the source's signature check, each call past verification came with base64 of a 33-byte key and of a 64-byte signature; the scheme accepts that signature over the document of the call's own authorization, and the key's address with the network's prefix is the payer. |
| Runs.SoloVerify | facilitator/verify.go:34-123 | A call of either kind that nothing interrupts ends with exactly the verdict of the cascade, whatever time passes between its two clock readings. |
| Runs.SoloVerifyCall | facilitator/cmd/main.go:59-77 | A /verify call that nothing interrupts answers that verdict and leaves store, chain and other calls as they were. |
| Runs.SoloSettle | facilitator/settle.go:19-72 | A settle that nothing interrupts leaves the store and gives the answer that the Settle method does, for all three ends of a broadcast that can come about: accepted only if the payment can be read, confirmed only if the account covers it. |
| Settler.Settler.Settle | facilitator/settle.go:19-72 | Verdict, reservation, broadcast and commit or release in sequence: the new store and every field of the answer, in terms of the old store; a success exactly when the verdict is one and the broadcast is confirmed, and the payer named exactly when the verdict is one. |
| Settler.Settler.SettleVerified | facilitator/settle.go:32-71 | The same from the verdict on, when other requests may have changed the store since, field by field: a failed verdict is answered with its code and no payer; a key taken meanwhile is refused as used, a failed broadcast as such, both with the payer; a confirmed one leaves a committed entry with hash and deadline. |
| NonceStore.MemoryNonceStore.constructor | facilitator/store.go:46-48 | The new store is empty. |
| NonceStore.MemoryNonceStore.Reserve | facilitator/store.go:54-63 | Adds a pending entry with the deadline, or refuses and changes nothing when the key is present, pending or committed. |
| NonceStore.MemoryNonceStore.Commit | facilitator/store.go:65-76 | Marks the entry committed with the hash, keeps its deadline and every other entry; fails exactly on an absent key. |
| NonceStore.MemoryNonceStore.Release | facilitator/store.go:78-91 | Removes a pending entry, accepts an absent one, refuses a committed one; every other entry stays. |
| NonceStore.CommittedCannotBeReleased | facilitator/store.go:65-91 | After a commit of a key both a release and a new reservation of it fail and leave the store as it was. |
| NonceStore.MemoryNonceStore.Exists | facilitator/store.go:93-98 | Answers whether the key is present in either state. |
| NonceStore.MemoryNonceStore.GC | facilitator/store.go:101-112 | Keeps exactly the entries that are committed or not past their deadline, and counts the removed ones. |
| NonceStore.StoreRefinesTriples | facilitator/store.go:50-112 | On payers and chain ids without a bar every operation on text keys answers as, and then represents, the operation on triples; collection removes equally many. |
| NonceStore.NonceKeyInjective | facilitator/store.go:50-52 | The key text determines payer, chain id and nonce when the first two hold no bar. |
| NonceStore.NonceKeyAmbiguous | facilitator/store.go:50-52 | A bar moved between payer and chain id always gives two triples one key. |
| NonceStore.DeadlineExact | facilitator/settle.go:33 | The stored deadline is the signed one if and only if validBefore is below 2^63 - 62135596800; otherwise it lies before 1970. It is always the one representable second that agrees with the signed one modulo 2^64. |
| Verifier.VerifyDecides | facilitator/verify.go:34-123 | On a non-negative clock, for all amounts, Verify succeeds with the payer if and only if all rules of the specification hold on mathematical numbers, a rule on amounts being that any integers they denote are in order; otherwise it reports the code of the first rule that fails. |
| Verifier.Adr036CheckIff | facilitator/adr036.go:86-124 | The signature check passes if and only if key and signature are base64 of 33 and 64 bytes, the scheme accepts the signature over the ADR-036 document of the authorization, spelled out, and the key's address with the prefix is the payer. |
| Verifier.SuccessIsCovered | facilitator/verify.go:58-120 | A success means amount <= demanded maximum, amount <= grant limit, and amount <= balance when that query answered. |
| Verifier.DemandNeverRejectsIff | facilitator/verify.go:58-60 | An amount passes under every digit-string demand if and only if it is no integer, or at most 0. |
| Coins.DigitsPayAsWritten | facilitator/chain_noble.go:214-217 | A digit string before a valid denom sends that number of that denom, and nothing only when it is out of range. |
| Coins.PaymentIff | facilitator/chain_noble.go:214-217 | Amount and denom together are sent as a payment if and only if they spell one: white space, digits, at most 18 places after a point, white space, a valid denom, white space, in range; what is sent is the number before the point. |
| Coins.SentAsSignedIff | facilitator/chain_noble.go:214-217 | Of what is sent at all, amount and denom are sent as signed if and only if the amount is a digit string and the denom valid. |
| Coins.SentIntegersAreDigits | facilitator/verify.go:148-156 | Of what is sent at all, the amounts that the comparison reads as integers are exactly the digit strings. |
| Verifier.WindowIsExact | facilitator/verify.go:69-82 | For every 64-bit clock the window check passes if and only if the clock lies in the window and the window fits the configured bound; the subtraction never wraps and the non-positive branch is unreachable. |
| Verifier.SuccessBoundsDeadline | facilitator/verify.go:69-82 | With a configured bound a success implies validBefore <= now + bound, and the deadline stored by Settle is exact while now + bound stays in range. |
| Verifier.CollectedIsExpired | facilitator/store.go:101-112 | Once GC may remove a reservation by full-precision time, every verification of an authorization with that deadline that reads the clock then or later fails, as expired unless the request itself is inconsistent. |
| Decimals.CmpAmountsIsTextOrder | facilitator/verify.go:146-156 | On digit strings of any length the comparison is the order of the values, and equals: strip zeros, then compare length, then text. |
| Decimals.CmpAmountsPreorder | facilitator/verify.go:146-156 | On text that parses it is antisymmetric up to value, transitive and total. |
| Decimals.IntegersRead | facilitator/verify.go:149-150 | The texts that read as integers are digits with at most one sign in front, and read as that number. |
| Decimals.OrderIffParseable | facilitator/verify.go:149-154 | Text is unparseable if and only if it compares equal to both 0 and 1. |
| SignBytes.PreimageDetermines | facilitator/adr036.go:132-155 | Signed bytes exist for every authorization, and two authorizations have the same ones if and only if they agree in seven fields and in both timestamps as doubles. |
| SignBytes.PreimageInjective | facilitator/adr036.go:132-155 | With timestamps below 2^53 equal signed bytes mean equal authorizations, in all nine fields and for all strings. |
| SignBytes.PreimageCollision | facilitator/adr036.go:52-53 | The bound cannot be raised: 2^53 and 2^53 + 1 are signed as the same bytes. |
| SignBytes.PreimageWireText | specs/scheme_exact_cosmos_authz.md:128-147 | Signed bytes exist, and are exactly the ADR-036 document in key order at every level, each constant spelled out, around the base64 of the canonical authorization standing unescaped and the payer quoted as JSON. |
| SignBytes.CanonicalText | facilitator/adr036_test.go:27-33 | The canonical text is exactly the nine fields in key order without whitespace. |
| SignBytes.CanonicalRoundTrip | facilitator/adr036_test.go:35-43 | Reading the canonical text gives the authorization back, for all strings, with timestamps as the double reprints them, hence unchanged below 2^53. |
| SignBytes.AcceptedIffSigned | facilitator/adr036.go:77-124 | Verification of a signature answers the payer if and only if a key and a signature of the right sizes, encoded as sent, sign the document for the key's own address, and otherwise fails. |
| SignBytes.SignedIsAccepted | facilitator/adr036.go:86-124 | A key's signature over the shared preimage is accepted if and only if the key's address is the claimed payer, and the answer is that address. |
| SignBytes.OneSignatureOneAuthorization | facilitator/adr036.go:77-124 | If a signature is valid for one message only, then all authorizations it is accepted for agree up to timestamp rounding. |
| Json.ParseOfPrint | facilitator/adr036.go:47-58 | Reading what was printed gives the tree back, with every escape: quotes, backslashes, control and HTML characters, U+2028 and U+2029. |
| Json.NamedEscapes | facilitator/adr036.go:47-58 | Quotes, backslashes, the five control characters with letters of their own, '<', '>', '&', U+2028 and U+2029 are escaped as these literals. |
| Json.OtherEscapes | facilitator/adr036.go:47-58 | Every other control character is written as two hexadecimal digits after \u00, and every other character as it is. |
| Json.EscapedInPlace | facilitator/adr036.go:47-58 | In any text each character is escaped in its place. |
| Json.PrintInjective | facilitator/adr036.go:150 | Different trees print as different text. |
| CanonicalJson.SortJsonIsNormalForm | facilitator/adr036.go:43-58 | On documents whose numbers, as doubles, are below 10^21: sorting printed text never fails, is idempotent, and gives two trees the same text if and only if they agree up to member order, shadowed duplicates and number rounding at every level. |
| CanonicalJson.SortDecidesSame | facilitator/types.go:54-56 | Sorted trees are equal if and only if the trees agree key by key at every level. |
| CanonicalJson.SortIdempotent | facilitator/adr036.go:52-53 | Sorting a sorted tree changes nothing. |
| CanonicalJson.ReorderedSorts | facilitator/types.go:54-56 | Reordering the members of objects with distinct keys, at any nesting levels, does not change the sorted tree. |
| Float64.ReprintSmall | facilitator/adr036.go:52-53 | Below 2^53 the passage through a double and back to shortest decimal text is the identity. |
| Float64.ReprintMerges | facilitator/adr036.go:52-53 | Two numbers become the same text if and only if they round to the same double. |
| Float64.NearestDouble | facilitator/adr036.go:52-53 | The double a number becomes is a significand of 53 bits times a power of two; no such number is nearer, and of two equally near ones it is the even multiple. |
| Float64.ReprintIsShortest | facilitator/adr036.go:52-53 | Of the numbers that read as the same double none ends in more zeros than the one printed, and of those that end in as many none is nearer to the double. |
| Utf8.ShortestForm | facilitator/adr036.go:137 | Each character is encoded in the shortest of the four forms, lead byte in its range, the other bytes in 0x80..0xBF, together carrying the code point. |
| Utf8.EncodedInPlace | facilitator/adr036.go:137 | In any text each character is encoded in its place. |
| Utf8.EncodeInjective | facilitator/adr036.go:137 | The UTF-8 bytes determine the text. |
| Base64.EncodeByBits | facilitator/adr036.go:137 | The encoding of n bytes has (n + 2) / 3 * 4 symbols; the one at position k is the one that the alphabet of RFC 4648, written out, has for bits 6k to 6k + 5 of the bytes, followed by zeros, and '=' beyond the bytes. |
| Base64.DecodesIff | facilitator/adr036.go:87-99 | A text decodes to b if and only if, without its line breaks, it is the encoding of b up to the bits beyond the last byte. |
| Base64.BreaksAreSkipped | facilitator/adr036.go:87-99 | Carriage returns and line feeds are skipped wherever they stand, and nothing else is. |
| Base64.DecodeOfEncode | facilitator/adr036.go:137-146 | Decoding undoes encoding on all byte strings, and JSON escaping leaves base64 text unchanged. |
| ChainClient.QuerySendAuthorization | facilitator/chain_noble.go:156-193 | The answer is the first coin of the denom in scan order over send authorizations, with its grant's expiration; no grant if and only if there is none. A query error is no grant if and only if its text holds "authorization not found" or "NotFound", and a failure otherwise. |
| ChainClient.WaitForTx | facilitator/chain_noble.go:329-352 | Terminates within timeout + 2 polls; the result belongs to the first poll that ends the waiting, and success means that poll showed positive height and code 0. |
| ChainClient.BroadcastAuthzSend | facilitator/chain_noble.go:213-312 | Tells the three ends apart: no hash when amount and denom cannot be read together or the node did not accept, else the hash, with success if and only if some poll showed an included transaction with code 0 and no poll before it was past 30 seconds, cancelled, or showed it included. |
| Middleware.Paid | middleware/middleware.go:43-83 | The inner handler is called once if and only if the facilitator reports success for this request's own requirements; otherwise the answer is 402 with those requirements, each field in terms of configuration and request (the window 60 seconds by default), and the right refusal code. |
| Middleware.ResourceReads | middleware/middleware.go:85-90 | The demanded resource starts with https:// if and only if the request came by TLS or a forwarded https, else with http://, then names the host and ends with the path. |
| Middleware.ResourceDetermines | middleware/middleware.go:85-90 | For hosts without a slash and paths that are empty or start with one, equal resources mean equal scheme, host and path. |
| Middleware.OtherResourceIsRefused | facilitator/verify.go:61-63 | An authorization for one gate's resource is refused at every gate of another scheme, host or path. |
| Middleware.ChainIdAgrees | middleware/middleware.go:85-114 | The chain id given to clients is the one verification expects if and only if the network is not the bare "cosmos:". |
| EndToEnd.GateDecidesAsPaid | middleware/middleware.go:51-83 | In every gated run an answered gate stands as Paid leaves it for the answer of its own settle call: served, with that call's receipt, only after a success; denied only with the call's own code, or as unexpected when no answer came. |
| EndToEnd.ConcludedByAnswer | middleware/middleware.go:67-81 | Paid opens for the answer of a successful call, and refuses with the call's own code for that of a refused one. |
| EndToEnd.ServedImpliesSettled | middleware/middleware.go:51-83 | In every gated run each served request has its own successful settle call, whose signed authorization names this request's resource and the configured recipient and asset, passed the signature check, and was executed on chain to that recipient as its amount and asset, read together, say; for a digit string and a valid asset that is the signed number of the configured asset, at most the configured amount, and any other amount was no integer; where settlement is exactly-once, two served requests have different keys. |
| EndToEnd.ServedIsSigned | facilitator/verify.go:94-97 | In every gated run under the source's signature check, the account that a served request was paid from is the address of a key that signed the document naming the gate's recipient, asset and resource. |
| Underpayment.ServedWithoutPaying | facilitator/verify.go:149-154 | For every gate with a valid asset of at most 126 characters, whatever it demands: a payer who signs the amount "1a/" has a gated run in which the gate serves, one unit of another denom moves, and nothing of the configured asset. |
| Underpayment.OddlyPaidInstance | facilitator/chain_noble.go:214-217 | A concrete gate that demands "7" of "uusdc" and its surroundings meet the hypotheses of that run. |
| HonestClient.HonestClientIsVerified | examples/client/main.go:72-96 | Everything else being in order, the client's authorization for a built demand verifies if and only if the configured window is the default or at least 35 seconds and the facilitator's clock is in [t - 5, t + 30). |
| HonestClient.AloneIsNeverUsed | facilitator/verify.go:84-91 | In every run, with any other calls and collections, a call that is alone on its key finds the key free until it reserves and is never refused as used. |
| HonestClient.FavouredIsNotRefused | facilitator/settle.go:19-72 | In every run in which the checks made for such a call pass and its broadcast does not fail, a finished settle is a success. |
| HonestClient.UnrefusedCanSucceed | facilitator/settle.go:19-72 | Such a call is never stuck: while its clock check can still pass and what it signed can be sent, or its transaction was or can still be executed, it can still succeed. |
| HonestClient.HonestClientIsServed | middleware/middleware.go:67-81 | In every gated run, a gate paid by an honest client with a nonce of its own is never denied by the facilitator: its settle ends in success, any answer of it opens the gate with that receipt, and a denial means that the gate did not wait. |
| HonestClient.OwnSignatureAccepted | examples/client/main.go:98-114 | What a client sends, a key and signature of the right sizes in base64, passes the signature check if and only if the signature is one of that key over the document and the key's address is the payer it names. |

## Left out

- gRPC and RPC dialing, codecs, transaction building and signing, fees, mnemonic and key derivation, environment and flags, `tools/*`: I/O or library calls. Failure of any of them before submission is the parameter `built`.
- SHA-256, secp256k1 and bech32: an abstract scheme. Unforgeability is not claimed; what a signature covers is.
- `sdk.ParseCoinNormalized` is not part of the repository; `Coins` follows the format of Cosmos SDK 0.50, which `go.mod` asks for, with no denom registered as a unit of another.
- Why the chain refuses a recipient or denom: accounts that cannot receive are a set in the ledger, and a zero amount is never executed.
- HTTP transport, headers and JSON bodies of requests and answers: typed messages. JSON text is modelled only for the signed bytes.
- Go strings that are not valid UTF-8, which the encoder would replace: strings are sequences of Unicode characters.
- JSON null, booleans, negative and fractional numbers, whitespace between tokens, nesting limits, and case-insensitive field names in the reader: the canonical text contains none.
- CanonicalJson.SortJsonIsNormalForm: numbers whose double is 10^21 or more are excluded, because they are printed with an exponent, and beyond the double range decoding fails; timestamps stay below 2^64.
- `outputSchema` of the requirements: it is not compared with anything.
- Texts of error messages: the codes are modelled, and the failures of the signature check are one failure.
- Checks that the code does not make, so nothing is claimed of them: `payload.from`, `x402Version`, the nonce's format, and that `extra.facilitator` is the broadcasting address.
- Durability across restarts: the in-memory store promises none.
- Store failures on Exists and other nonce stores behind the interface: only the in-memory store, whose Exists never fails, takes part in runs; `Verify` itself covers the failure.
- `/supported`, `/healthz` and logging.
- Verifier.VerifyDecides: the clock is not before 1970; `Verifier.WindowIsExact` covers every clock.
- Verifier.SuccessIsCovered: amounts are digit strings, which `facilitator/verify.go:147` asks for, and the clock is not before 1970; text that is no integer is compared with nothing (`Decimals.OrderIffParseable`).
- Settler.Settler.Settle: sequential, with the clock, the chain and the broadcast as parameters; interleavings are the subject of `Protocol`.
- EndToEnd.ServedImpliesSettled: the converse fails, because a gate's HTTP client may time out, so a settled request need not be served.
- Conservation.Conserved: limits and balances move only through the facilitator's own sends, raised grants and deposits; lowered or revoked grants and other spending by the payer are not modelled.
