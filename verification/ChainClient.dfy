/** The parts of facilitator/chain_noble.go that decide: grant scan, inclusion polling, and the end of a broadcast. */
module ChainClient {
  import opened Wrappers
  import opened Coins
  import opened NonceStore
  import opened Verifier

  // ---- Grant scan ----

  datatype Coin = Coin(denom: string, amount: string)

  /** An unpacked grant: only send authorizations carry a limit. */
  datatype Authz = Send(spendLimit: seq<Coin>) | OtherAuthorization | Unreadable

  datatype GrantRecord = GrantRecord(authorization: Authz, expiration: Option<Instant>)

  predicate Contains(s: string, part: string) {
    exists i | 0 <= i <= |s| :: part <= s[i..]
  }

  lemma ContainsSplits(s: string, part: string)
    ensures Contains(s, part) <==> exists p: string, q: string :: s == p + part + q
  {
    if i :| 0 <= i <= |s| && part <= s[i..] {
      assert s == s[..i] + part + s[i + |part|..];
    }
    if p: string, q: string :| s == p + part + q {
      assert s[|p|..] == part + q;
    }
  }

  predicate SaysNotFound(error: string) {
    Contains(error, "authorization not found") || Contains(error, "NotFound")
  }

  /** Position (g, c) holds a coin of the denom in a send authorization. */
  predicate Matches(grants: seq<GrantRecord>, denom: string, g: nat, c: nat) {
    g < |grants| && grants[g].authorization.Send? && c < |grants[g].authorization.spendLimit|
    && grants[g].authorization.spendLimit[c].denom == denom
  }

  predicate Earlier(g: nat, c: nat, g': nat, c': nat) {
    g < g' || (g == g' && c < c')
  }

  /** The answer is the first match in scan order; without one, or when the node says so, there is no grant. */
  method QuerySendAuthorization(response: Result<seq<GrantRecord>, string>, denom: string)
    returns (answer: GrantAnswer, ghost g: nat, ghost c: nat)
    ensures response.Err? ==> answer.NoGrant? || answer.GrantFailure?
    ensures response.Err? ==>
      (answer.NoGrant? <==> exists p: string, q: string ::
        response.error == p + "authorization not found" + q || response.error == p + "NotFound" + q)
    ensures response.Ok? ==> !answer.GrantFailure?
    ensures response.Ok? ==>
      (answer.NoGrant? <==> forall i: nat, j: nat :: !Matches(response.value, denom, i, j))
    ensures response.Ok? && answer.Grant? ==>
      && Matches(response.value, denom, g, c)
      && answer == Grant(response.value[g].authorization.spendLimit[c].amount, response.value[g].expiration)
      && forall i: nat, j: nat | Earlier(i, j, g, c) :: !Matches(response.value, denom, i, j)
  {
    g, c := 0, 0;
    if response.Err? {
      ContainsSplits(response.error, "authorization not found");
      ContainsSplits(response.error, "NotFound");
      if SaysNotFound(response.error) {
        return NoGrant, 0, 0;
      }
      return GrantFailure, 0, 0;
    }
    var grants := response.value;
    for i := 0 to |grants|
      invariant forall p: nat, q: nat | p < i :: !Matches(grants, denom, p, q)
    {
      if grants[i].authorization.Send? {
        var limit := grants[i].authorization.spendLimit;
        for j := 0 to |limit|
          invariant forall q: nat | q < j :: !Matches(grants, denom, i, q)
        {
          if limit[j].denom != denom {
            continue;
          }
          assert Matches(grants, denom, i, j);
          return Grant(limit[j].amount, grants[i].expiration), i, j;
        }
      }
    }
    return NoGrant, 0, 0;
  }

  // ---- Waiting for inclusion ----

  /** One answer of Tx(hash): nothing yet (or an error), or the included transaction's result code. */
  datatype Poll = NotFound | Included(height: int, code: nat)

  /** What the k-th round of the loop meets: the poll, the clock after it, and whether the context was cancelled. */
  datatype Round = Round(poll: Poll, elapsed: nat, cancelled: bool)

  datatype WaitResult = Landed | FailedOnChain | TimedOut | Cancelled

  predicate Settles(r: Round) {
    r.poll.Included? && r.poll.height > 0
  }

  /** The loop passes round r and waits for the next tick. */
  predicate Continues(r: Round, timeout: nat) {
    !Settles(r) && r.elapsed <= timeout && !r.cancelled
  }

  /** Tick k cannot arrive before k seconds have passed. */
  ghost predicate TickerRuns(rounds: nat -> Round) {
    forall k: nat :: rounds(k).elapsed >= k * NANOS
  }

  /**
   The result belongs to the first round that does not continue. That round comes within timeout + 2 polls
   (timeout in seconds), and success means that it saw an included transaction with code 0.
   */
  method WaitForTx(rounds: nat -> Round, timeoutSeconds: nat) returns (result: WaitResult, polls: nat)
    requires TickerRuns(rounds)
    ensures 1 <= polls <= timeoutSeconds + 2
    ensures forall k: nat | k < polls - 1 :: Continues(rounds(k), timeoutSeconds * NANOS)
    ensures var last := rounds(polls - 1);
      var included := last.poll.Included? && last.poll.height > 0;
      && !Continues(last, timeoutSeconds * NANOS)
      && (result == Landed <==> included && last.poll.code == 0)
      && (result == FailedOnChain <==> included && last.poll.code != 0)
      && (result == TimedOut <==> !included && last.elapsed > timeoutSeconds * NANOS)
      && (result == Cancelled ==> last.cancelled)
    ensures forall k: nat | k < polls - 1 :: var r := rounds(k);
      !(r.poll.Included? && r.poll.height > 0) && r.elapsed <= timeoutSeconds * 1_000_000_000 && !r.cancelled
  {
    polls := 0;
    while true
      invariant polls <= timeoutSeconds + 1
      invariant forall k: nat | k < polls :: Continues(rounds(k), timeoutSeconds * NANOS)
      decreases timeoutSeconds + 2 - polls
    {
      var round := rounds(polls);
      polls := polls + 1;
      if round.poll.Included? && round.poll.height > 0 {
        return if round.poll.code != 0 then FailedOnChain else Landed, polls;
      }
      if round.elapsed > timeoutSeconds * NANOS {
        return TimedOut, polls;
      }
      if round.cancelled {
        return Cancelled, polls;
      }
    }
  }

  // ---- Broadcast ----

  const INCLUSION_TIMEOUT := 30

  /** What the node says to BroadcastTxSync. */
  datatype Submission = RpcError | CheckTxCode(code: nat, txHash: string)

  /** Poll k is the one that ends the waiting. */
  ghost predicate DecidedBy(rounds: nat -> Round, k: nat) {
    !Continues(rounds(k), INCLUSION_TIMEOUT * NANOS)
    && forall j: nat | j < k :: Continues(rounds(j), INCLUSION_TIMEOUT * NANOS)
  }

  /**
   Poll k shows the transaction included with code 0; no earlier poll did, none came after 30 s, and none was
   cancelled.
   */
  ghost predicate SeenInTime(rounds: nat -> Round, k: nat) {
    && rounds(k).poll.Included? && rounds(k).poll.height > 0 && rounds(k).poll.code == 0
    && forall j: nat | j < k :: var r := rounds(j);
         !(r.poll.Included? && r.poll.height > 0) && r.elapsed <= 30_000_000_000 && !r.cancelled
  }

  lemma SeenInTimeIff(rounds: nat -> Round, k: nat)
    requires DecidedBy(rounds, k)
    ensures (exists j: nat :: SeenInTime(rounds, j)) <==> Settles(rounds(k)) && rounds(k).poll.code == 0
  {
    var limit: nat := INCLUSION_TIMEOUT * NANOS;
    if j: nat :| SeenInTime(rounds, j) {
      assert j < k ==> Continues(rounds(j), limit);
      assert k < j ==> Continues(rounds(k), limit);
    }
    if Settles(rounds(k)) && rounds(k).poll.code == 0 {
      assert SeenInTime(rounds, k);
    }
  }

  /** `built` covers everything else before submission: account, signing and encoding. */
  predicate Accepted(amount: string, denom: string, built: bool, submission: Submission) {
    ParsePayment(amount + denom).Some? && built && submission.CheckTxCode? && submission.code == 0
  }

  /** Hash and success: confirmed. Hash without success: accepted but unconfirmed. Neither: not accepted. */
  method BroadcastAuthzSend(amount: string, denom: string, built: bool, submission: Submission, rounds: nat -> Round)
    returns (txHash: string, ok: bool)
    requires TickerRuns(rounds)
    ensures !Accepted(amount, denom, built, submission) ==> txHash == "" && !ok
    ensures Accepted(amount, denom, built, submission) ==>
      && txHash == submission.txHash
      && exists k: nat :: k < INCLUSION_TIMEOUT + 2 && DecidedBy(rounds, k)
           && (ok <==> Settles(rounds(k)) && rounds(k).poll.code == 0)
    ensures ok <==> Accepted(amount, denom, built, submission) && exists k: nat :: SeenInTime(rounds, k)
  {
    var coin := ParsePayment(amount + denom);
    if coin.None? {
      return "", false;
    }
    if !built {
      return "", false;
    }
    if submission.RpcError? {
      return "", false;
    }
    if submission.code != 0 {
      return "", false;
    }
    var result, polls := WaitForTx(rounds, INCLUSION_TIMEOUT);
    SeenInTimeIff(rounds, polls - 1);
    assert DecidedBy(rounds, polls - 1);
    if result != Landed {
      return submission.txHash, false;
    }
    return submission.txHash, true;
  }
}
