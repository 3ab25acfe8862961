/**
 * The governance-token balance kept by `useVGOVBalance`: the balance and token details of
 * the connected account, refreshed at most every five seconds unless a refresh is forced,
 * and forced again when a transfer involving the account is seen.
 */
module GovBalance {
  import opened Wrappers
  import opened Strings
  import opened Chain

  /** The details `getTokenInfo` reads once. */
  datatype TokenInfo = TokenInfo(name: string, symbol: string, decimals: nat, totalSupply: string)

  /** The hook's state. `lastUpdate` is the `Date.now()` of the last successful fetch, in ms. */
  datatype BalanceState = BalanceState(balance: string, tokenInfo: Option<TokenInfo>, loading: bool, lastUpdate: int)

  const Initial := BalanceState("0", None, false, 0)

  /** The minimum time between two fetches that are not forced, in ms. */
  const MinInterval := 5000

  /**
   * What one fetch reads: whether the wallet is connected with a signer and an address,
   * whether the token contract handle can be built, the `balanceOf` answer formatted in
   * ether, and the `getTokenInfo` answer.
   */
  datatype Reads = Reads(connected: bool, hasContract: bool,
                         balance: Result<string, ChainError>, info: Result<TokenInfo, ChainError>)

  /** Whether the fetch is skipped because the last success is too recent. */
  predicate Throttled(s: BalanceState, force: bool, now: int) {
    !force && now - s.lastUpdate < MinInterval
  }

  /**
   * Whether both reads of `Promise.all` succeed; the token details are read only while
   * none are known.
   */
  predicate ReadsSucceed(s: BalanceState, r: Reads) {
    r.hasContract && r.balance.Success? && (s.tokenInfo.Some? || r.info.Success?)
  }

  /** The state after `fetchBalance(force)` at time `now`. */
  function Fetch(s: BalanceState, r: Reads, force: bool, now: int): (t: BalanceState)
    ensures !r.connected ==> t == s.(balance := "0", tokenInfo := None, lastUpdate := 0)
    ensures r.connected && Throttled(s, force, now) ==> t == s
    ensures r.connected && !Throttled(s, force, now) ==> !t.loading
    ensures r.connected && !Throttled(s, force, now) && ReadsSucceed(s, r) ==>
      && t.balance == r.balance.value && t.lastUpdate == now
      && t.tokenInfo == (if s.tokenInfo.Some? then s.tokenInfo else Some(r.info.value))
    ensures r.connected && !ReadsSucceed(s, r) ==>
      t.balance == s.balance && t.tokenInfo == s.tokenInfo && t.lastUpdate == s.lastUpdate
  {
    if !r.connected then s.(balance := "0", tokenInfo := None, lastUpdate := 0)
    else if Throttled(s, force, now) then s
    else if ReadsSucceed(s, r) then
      var info := if s.tokenInfo.Some? then s.tokenInfo else Some(r.info.value);
      BalanceState(r.balance.value, info, false, now)
    else s.(loading := false)
  }

  /** Once a fetch succeeds, fetches that are not forced change nothing for five seconds. */
  lemma ThrottleWindow(s: BalanceState, r: Reads, force: bool, now: int, r2: Reads, later: int)
    requires r.connected && r2.connected && !Throttled(s, force, now) && ReadsSucceed(s, r)
    requires now <= later < now + MinInterval
    ensures Fetch(Fetch(s, r, force, now), r2, false, later) == Fetch(s, r, force, now)
  {
  }

  /**
   * A disconnection clears the throttle: the first fetch after reconnecting, from the
   * fifth second of the clock on, reads again even when not forced.
   */
  lemma DisconnectClearsThrottle(s: BalanceState, off: Reads, r: Reads, force: bool, before: int, now: int)
    requires !off.connected && r.connected && ReadsSucceed(Fetch(s, off, force, before), r) && now >= MinInterval
    ensures Fetch(Fetch(s, off, force, before), r, false, now).balance == r.balance.value
    ensures Fetch(Fetch(s, off, force, before), r, false, now).tokenInfo == Some(r.info.value)
  {
  }

  /** The hook's state as a mutable object. */
  class GovBalanceHook {
    var balance: string
    var tokenInfo: Option<TokenInfo>
    var loading: bool
    var lastUpdate: int

    function State(): BalanceState
      reads this
    {
      BalanceState(balance, tokenInfo, loading, lastUpdate)
    }

    constructor ()
      ensures State() == Initial
    {
      balance := "0";
      tokenInfo := None;
      loading := false;
      lastUpdate := 0;
    }

    /** `fetchBalance(force)` */
    method FetchBalance(r: Reads, force: bool, now: int)
      modifies this
      ensures State() == Fetch(old(State()), r, force, now)
    {
      if !r.connected {
        balance := "0";
        tokenInfo := None;
        lastUpdate := 0;
        return;
      }
      if !force && now - lastUpdate < MinInterval {
        return;
      }
      loading := true;
      if r.hasContract && r.balance.Success? && (tokenInfo.Some? || r.info.Success?) {
        balance := r.balance.value;
        if tokenInfo.None? {
          tokenInfo := Some(r.info.value);
        }
        lastUpdate := now;
      }
      loading := false;
    }

    /** `refreshBalance`: a forced fetch. */
    method RefreshBalance(r: Reads, now: int)
      modifies this
      ensures State() == Fetch(old(State()), r, true, now)
      ensures r.connected && ReadsSucceed(old(State()), r) ==> balance == r.balance.value && lastUpdate == now
    {
      FetchBalance(r, true, now);
    }
  }

  /** The Transfer listener's test: the account sends or receives, ignoring letter case. */
  predicate TransferConcernsUser(from: string, to: string, user: string) {
    ToLower(from) == ToLower(user) || ToLower(to) == ToLower(user)
  }

  lemma LowerOfUpper(s: string)
    ensures ToLower(ToUpper(s)) == ToLower(s)
  {
    assert forall i :: 0 <= i < |s| ==> LowerChar(UpperChar(s[i])) == LowerChar(s[i]);
  }

  /**
   * The test does not depend on how the addresses are written: an upper-cased sender,
   * recipient or account gives the same answer as the checksummed form.
   */
  lemma TransferCaseInsensitive(from: string, to: string, user: string)
    ensures TransferConcernsUser(ToUpper(from), ToUpper(to), ToUpper(user)) <==> TransferConcernsUser(from, to, user)
    ensures TransferConcernsUser(ToLower(from), ToLower(to), ToLower(user)) <==> TransferConcernsUser(from, to, user)
  {
    LowerOfUpper(from);
    LowerOfUpper(to);
    LowerOfUpper(user);
    LowerIdempotent(from);
    LowerIdempotent(to);
    LowerIdempotent(user);
  }

  lemma LowerIdempotent(s: string)
    ensures ToLower(ToLower(s)) == ToLower(s)
  {
  }

  /** The listener's action: a forced refresh when the transfer concerns the account. */
  method HandleTransfer(hook: GovBalanceHook, from: string, to: string, user: string, r: Reads, now: int)
    modifies hook
    ensures TransferConcernsUser(from, to, user) ==> hook.State() == Fetch(old(hook.State()), r, true, now)
    ensures !TransferConcernsUser(from, to, user) ==> hook.State() == old(hook.State())
  {
    if ToLower(from) == ToLower(user) || ToLower(to) == ToLower(user) {
      hook.RefreshBalance(r, now);
    }
  }
}
