/**
 * The governance service: the proposal listing, the checks and gas buffer of proposal
 * creation, the vote dispatch and its error messages, the read helpers that fall back to
 * a default instead of throwing, and the state and vote-type tables.
 */
module DaoService {
  import opened Wrappers
  import opened Strings
  import opened Chain
  import Sorting

  /** A proposal as the contract's `proposals(id)` returns it. */
  datatype RawProposal = RawProposal(proposer: string, targets: seq<string>, calldatas: seq<string>,
                                     description: string, voteStart: nat, voteEnd: nat,
                                     executed: bool, canceled: bool)

  /** The three vote totals, already rendered as ether strings. */
  datatype Tally = Tally(againstVotes: string, forVotes: string, abstainVotes: string)

  /** A listed proposal: its fields, its state and its tally. */
  datatype Proposal = Proposal(id: nat, proposer: string, description: string, voteStart: nat, voteEnd: nat,
                               state: int, votes: Tally)

  /** The governor's read methods, as oracles. */
  datatype GovernorReads = GovernorReads(
    proposalCount: Result<nat, ChainError>,
    proposal: nat -> Result<RawProposal, ChainError>,
    state: nat -> Result<int, ChainError>,
    votes: nat -> Result<Tally, ChainError>,
    hasVoted: (nat, string) -> Result<bool, ChainError>,
    votingPower: string -> Result<string, ChainError>,
    deadline: nat -> Result<nat, ChainError>,
    quorum: Result<string, ChainError>,
    threshold: Result<string, ChainError>)

  // ---------------------------------------------------------------- tables

  /** `PROPOSAL_STATES`: the labels of OpenZeppelin Governor's eight proposal states. */
  const ProposalStates: map<int, string> := map[
    0 := "En attente", 1 := "Actif", 2 := "Annulé", 3 := "Défait",
    4 := "Réussi", 5 := "En file", 6 := "Expiré", 7 := "Exécuté"]

  /** `VOTE_TYPES` */
  const VoteTypes: map<string, nat> := map["AGAINST" := 0, "FOR" := 1, "ABSTAIN" := 2]

  /** The state table has exactly the keys 0..7, with eight different labels. */
  lemma ProposalStatesTable()
    ensures forall s :: s in ProposalStates <==> 0 <= s <= 7
    ensures forall s, t :: s in ProposalStates && t in ProposalStates && s != t ==> ProposalStates[s] != ProposalStates[t]
  {
  }

  /** The vote types are Against = 0, For = 1, Abstain = 2: a bijection onto 0..2. */
  lemma VoteTypesTable()
    ensures VoteTypes.Keys == {"AGAINST", "FOR", "ABSTAIN"}
    ensures VoteTypes["AGAINST"] == 0 && VoteTypes["FOR"] == 1 && VoteTypes["ABSTAIN"] == 2
    ensures forall k, l :: k in VoteTypes && l in VoteTypes && k != l ==> VoteTypes[k] != VoteTypes[l]
  {
  }

  // ---------------------------------------------------------------- read fallbacks

  /** `getProposalCount`: 0 when the read fails or the count overflows a number. */
  function ProposalCount(governor: GovernorReads): (n: nat)
    ensures governor.proposalCount.Failure? ==> n == 0
    ensures governor.proposalCount.Success? && governor.proposalCount.value <= MaxSafeInteger ==> n == governor.proposalCount.value
    ensures governor.proposalCount.Success? && governor.proposalCount.value > MaxSafeInteger ==> n == 0
    ensures n <= MaxSafeInteger
  {
    match governor.proposalCount
    case Failure(_) => 0
    case Success(c) => ToNumber(c).GetOr(0)
  }

  /** `getProposalState`: a failed read reads as Canceled (2). */
  function ProposalState(governor: GovernorReads, id: nat): (s: int)
    ensures governor.state(id).Failure? ==> s == 2
    ensures governor.state(id).Success? ==> s == governor.state(id).value
  {
    governor.state(id).GetOrValue(2)
  }

  const NoVotes := Tally("0", "0", "0")

  /** `getProposalVotes`: a failed read reads as no votes at all. */
  function ProposalVotes(governor: GovernorReads, id: nat): (t: Tally)
    ensures governor.votes(id).Failure? ==> t == NoVotes
    ensures governor.votes(id).Success? ==> t == governor.votes(id).value
  {
    governor.votes(id).GetOrValue(NoVotes)
  }

  /** `hasVoted`: a failed read reads as not voted. */
  function HasVoted(governor: GovernorReads, id: nat, account: string): (voted: bool)
    ensures governor.hasVoted(id, account).Failure? ==> !voted
    ensures governor.hasVoted(id, account).Success? ==> voted == governor.hasVoted(id, account).value
  {
    governor.hasVoted(id, account).GetOrValue(false)
  }

  /** `getVotingPower`: '0' on failure. */
  function VotingPower(governor: GovernorReads, account: string): (power: string)
    ensures governor.votingPower(account).Failure? ==> power == "0"
    ensures governor.votingPower(account).Success? ==> power == governor.votingPower(account).value
  {
    governor.votingPower(account).GetOrValue("0")
  }

  /** `getProposalDeadline`: 0 on failure or overflow. */
  function ProposalDeadline(governor: GovernorReads, id: nat): (deadline: nat)
    ensures governor.deadline(id).Failure? ==> deadline == 0
    ensures governor.deadline(id).Success? && governor.deadline(id).value <= MaxSafeInteger ==>
      deadline == governor.deadline(id).value
    ensures governor.deadline(id).Success? && governor.deadline(id).value > MaxSafeInteger ==> deadline == 0
  {
    match governor.deadline(id)
    case Failure(_) => 0
    case Success(d) => ToNumber(d).GetOr(0)
  }

  /** `getQuorum`: '0' on failure. */
  function Quorum(governor: GovernorReads): (q: string)
    ensures governor.quorum.Failure? ==> q == "0"
    ensures governor.quorum.Success? ==> q == governor.quorum.value
  {
    governor.quorum.GetOrValue("0")
  }

  /** `getProposalThreshold`: '0' on failure. */
  function ProposalThreshold(governor: GovernorReads): (threshold: string)
    ensures governor.threshold.Failure? ==> threshold == "0"
    ensures governor.threshold.Success? ==> threshold == governor.threshold.value
  {
    governor.threshold.GetOrValue("0")
  }

  // ---------------------------------------------------------------- listing

  /** `getProposalById`: throws (here `None`) when the read fails or a block number overflows. */
  function ProposalById(governor: GovernorReads, id: nat): (p: Option<Proposal>)
    ensures governor.proposal(id).Failure? ==> p.None?
    ensures governor.proposal(id).Success? ==>
      var raw := governor.proposal(id).value;
      && (raw.voteStart > MaxSafeInteger || raw.voteEnd > MaxSafeInteger ==> p.None?)
      && (raw.voteStart <= MaxSafeInteger && raw.voteEnd <= MaxSafeInteger ==>
            p == Some(Proposal(id, raw.proposer, raw.description, raw.voteStart, raw.voteEnd,
                               ProposalState(governor, id), ProposalVotes(governor, id))))
  {
    match governor.proposal(id)
    case Failure(_) => None
    case Success(raw) =>
      if raw.voteStart <= MaxSafeInteger && raw.voteEnd <= MaxSafeInteger then
        Some(Proposal(id, raw.proposer, raw.description, raw.voteStart, raw.voteEnd,
                      ProposalState(governor, id), ProposalVotes(governor, id)))
      else None
  }

  /** The readable proposals among ids 1..n, in id order. */
  function ReadableUpTo(governor: GovernorReads, n: nat): seq<Proposal>
  {
    if n == 0 then []
    else
      var front := ReadableUpTo(governor, n - 1);
      match ProposalById(governor, n)
      case None => front
      case Some(p) => front + [p]
  }

  /** Exactly the proposals whose read succeeds among ids 1..n are listed. */
  lemma {:induction false} ReadableUpToContents(governor: GovernorReads, n: nat)
    ensures forall p :: p in ReadableUpTo(governor, n) ==> 1 <= p.id <= n && ProposalById(governor, p.id) == Some(p)
    ensures forall id :: 1 <= id <= n && ProposalById(governor, id).Some? ==>
      ProposalById(governor, id).value in ReadableUpTo(governor, n)
  {
    if n > 0 {
      ReadableUpToContents(governor, n - 1);
    }
  }

  /** `(a, b) => b.voteStart - a.voteStart`: the latest start first. */
  function LatestStartFirst(a: Proposal, b: Proposal): int {
    b.voteStart - a.voteStart
  }

  lemma LatestStartFirstConsistent()
    ensures Sorting.Consistent(LatestStartFirst)
  {
  }

  /** `proposals.sort((a, b) => b.voteStart - a.voteStart)` */
  function SortLatestFirst(list: seq<Proposal>): (r: seq<Proposal>)
    ensures multiset(r) == multiset(list)
    ensures Sorting.SortedBy(r, LatestStartFirst)
  {
    LatestStartFirstConsistent();
    Sorting.SortSorts(list, LatestStartFirst);
    Sorting.Sort(list, LatestStartFirst)
  }

  /**
   * `getAllProposals`: every readable proposal among ids 1..count, each exactly as
   * often as it is read, sorted by start block, latest first.
   */
  method AllProposals(governor: GovernorReads) returns (proposals: seq<Proposal>)
    ensures multiset(proposals) == multiset(ReadableUpTo(governor, ProposalCount(governor)))
    ensures Sorting.SortedBy(proposals, LatestStartFirst)
    ensures governor.proposalCount.Failure? ==> proposals == []
  {
    var count := ProposalCount(governor);
    var list: seq<Proposal> := [];
    var i := 1;
    while i <= count
      invariant 1 <= i <= count + 1
      invariant list == ReadableUpTo(governor, i - 1)
    {
      var p := ProposalById(governor, i);
      if p.Some? {
        list := list + [p.value];
      }
      i := i + 1;
    }
    assert list == ReadableUpTo(governor, count);
    proposals := SortLatestFirst(list);
    if count == 0 {
      assert multiset(proposals) == multiset{};
    }
  }

  // ---------------------------------------------------------------- creation

  /** `v || '0'` */
  function OrZero(v: string): (r: string)
    ensures r != "" && (v != "" ==> r == v)
  {
    if v == "" then "0" else v
  }

  /** The position of the first element failing `ok`, if any. */
  function FirstFailing(xs: seq<string>, ok: string -> bool): (r: Option<nat>)
    ensures r.Some? ==> r.value < |xs| && !ok(xs[r.value]) && forall j :: 0 <= j < r.value ==> ok(xs[j])
    ensures r.None? <==> forall j :: 0 <= j < |xs| ==> ok(xs[j])
    decreases |xs|
  {
    if |xs| == 0 then None
    else if !ok(xs[0]) then Some(0)
    else
      match FirstFailing(xs[1..], ok)
      case None => None
      case Some(k) => Some(k + 1)
  }

  /** The gas-limit buffer: `estimate * 150 / 100` in integer arithmetic. */
  function GasLimit(estimate: nat): (limit: nat)
    ensures limit == estimate + estimate / 2
    ensures estimate <= limit && 2 * limit <= 3 * estimate
  {
    estimate * 150 / 100
  }

  const FallbackGasEstimate: nat := 1_000_000

  /** A contract interaction `createProposal` performs, in order. */
  datatype Call = VotingPowerCheck | StaticPropose | EstimateGas | Propose(gasLimit: nat)

  /** What the signer's contract answers to each step of `createProposal`. */
  datatype ProposeOracle = ProposeOracle(
    isAddress: string -> bool,
    parsesAsEther: string -> bool,
    votingCheck: Result<(nat, nat), ChainError>,
    staticCall: Option<ChainError>,
    gasEstimate: Result<nat, ChainError>,
    propose: nat -> Option<ChainError>)

  function Plain(message: string): ChainError {
    ChainError(message, "", "", "")
  }

  /** `error.reason || error.message` */
  function ReasonOrMessage(e: ChainError): (m: string)
    ensures e.reason != "" ==> m == e.reason
    ensures e.reason == "" ==> m == e.message
  {
    if e.reason != "" then e.reason else e.message
  }

  /** The friendlier messages of `createProposal`'s final catch, tried in order. */
  function ProposalMessage(m: string): (r: string)
    ensures Contains(m, "Governor: proposer votes below proposal threshold") ==>
      r == "Votre pouvoir de vote est insuffisant pour créer une proposition"
    ensures (&& !Contains(m, "Governor: proposer votes below proposal threshold")
             && Contains(m, "Governor: identical proposal action already active")) ==>
      r == "Une proposition identique est déjà en cours"
    ensures (&& !Contains(m, "Governor: proposer votes below proposal threshold")
             && !Contains(m, "Governor: identical proposal action already active")
             && Contains(m, "execution reverted")) ==>
      r == "La transaction a été rejetée par le contrat"
    ensures (&& !Contains(m, "Governor: proposer votes below proposal threshold")
             && !Contains(m, "Governor: identical proposal action already active")
             && !Contains(m, "execution reverted")) ==> r == m
  {
    if Contains(m, "Governor: proposer votes below proposal threshold") then
      "Votre pouvoir de vote est insuffisant pour créer une proposition"
    else if Contains(m, "Governor: identical proposal action already active") then
      "Une proposition identique est déjà en cours"
    else if Contains(m, "execution reverted") then
      "La transaction a été rejetée par le contrat"
    else m
  }

  /** The message `createProposal` throws when the signer's votes are below the threshold. */
  const InsufficientPower := "Voting power insuffisant"

  /** The voting-power check lets creation go on: enough votes, or a technical read failure. */
  predicate VotingCheckPasses(check: Result<(nat, nat), ChainError>) {
    match check
    case Success(pair) => pair.0 >= pair.1
    case Failure(e) => Contains(e.message, "call revert exception") || Contains(e.message, "CALL_EXCEPTION")
  }

  /**
   * The message the voting-power check throws: too few votes, or a read failure that is
   * not a technical one; `None` when creation goes on.
   */
  function VotingCheckError(check: Result<(nat, nat), ChainError>): (e: Option<string>)
    ensures e.None? <==> VotingCheckPasses(check)
    ensures check.Success? && e.Some? ==> e.value == InsufficientPower
    ensures check.Failure? && e.Some? ==> e.value == ReasonOrMessage(check.error)
  {
    match check
    case Success(pair) => if pair.0 < pair.1 then Some(InsufficientPower) else None
    case Failure(e) =>
      if Contains(e.message, "call revert exception") || Contains(e.message, "CALL_EXCEPTION") then None
      else Some(ReasonOrMessage(e))
  }

  /** The checks `createProposal` makes before any contract call. */
  predicate InputsValid(oracle: ProposeOracle, targets: seq<string>, values: seq<string>, calldatas: seq<string>) {
    && |targets| > 0 && |targets| == |values| == |calldatas|
    && (forall j :: 0 <= j < |values| ==> oracle.parsesAsEther(OrZero(values[j])))
    && (forall j :: 0 <= j < |targets| ==> oracle.isAddress(targets[j]))
  }

  /** The messages of the synchronous checks. */
  const NoTargets := "Au moins une adresse cible est requise"
  const LengthMismatch := "Les tableaux targets, values et calldatas doivent avoir la même longueur"
  const InvalidValue := "Valeur invalide: "
  const InvalidTarget := "Adresse cible invalide: "

  /**
   * The synchronous checks at the top of `createProposal`: the message of the first
   * one that throws, or `None` when all pass.
   */
  function ValidationError(oracle: ProposeOracle, targets: seq<string>, values: seq<string>,
                           calldatas: seq<string>): (e: Option<string>)
    ensures e.None? <==> InputsValid(oracle, targets, values, calldatas)
    ensures |targets| == 0 ==> e == Some(NoTargets)
    ensures |targets| > 0 && (|targets| != |values| || |targets| != |calldatas|) ==>
      e == Some(LengthMismatch)
    ensures (&& |targets| > 0 && |targets| == |values| == |calldatas|
             && exists k :: 0 <= k < |values| && !oracle.parsesAsEther(OrZero(values[k]))) ==>
      exists k ::
        && 0 <= k < |values| && !oracle.parsesAsEther(OrZero(values[k]))
        && (forall j :: 0 <= j < k ==> oracle.parsesAsEther(OrZero(values[j])))
        && e == Some(InvalidValue + values[k])
    ensures (&& |targets| > 0 && |targets| == |values| == |calldatas|
             && (forall j :: 0 <= j < |values| ==> oracle.parsesAsEther(OrZero(values[j])))
             && exists k :: 0 <= k < |targets| && !oracle.isAddress(targets[k])) ==>
      exists k ::
        && 0 <= k < |targets| && !oracle.isAddress(targets[k])
        && (forall j :: 0 <= j < k ==> oracle.isAddress(targets[j]))
        && e == Some(InvalidTarget + targets[k])
  {
    if |targets| == 0 then Some(NoTargets)
    else if |targets| != |values| || |targets| != |calldatas| then
      Some(LengthMismatch)
    else
      ContentError(oracle, targets, values)
  }

  /** The value checks, then the target checks: the message naming the first that fails. */
  function ContentError(oracle: ProposeOracle, targets: seq<string>, values: seq<string>): (e: Option<string>)
    ensures e.None? <==>
      && (forall j :: 0 <= j < |values| ==> oracle.parsesAsEther(OrZero(values[j])))
      && (forall j :: 0 <= j < |targets| ==> oracle.isAddress(targets[j]))
    ensures (exists k :: 0 <= k < |values| && !oracle.parsesAsEther(OrZero(values[k]))) ==>
      exists k ::
        && 0 <= k < |values| && !oracle.parsesAsEther(OrZero(values[k]))
        && (forall j :: 0 <= j < k ==> oracle.parsesAsEther(OrZero(values[j])))
        && e == Some(InvalidValue + values[k])
    ensures (&& (forall j :: 0 <= j < |values| ==> oracle.parsesAsEther(OrZero(values[j])))
             && exists k :: 0 <= k < |targets| && !oracle.isAddress(targets[k])) ==>
      exists k ::
        && 0 <= k < |targets| && !oracle.isAddress(targets[k])
        && (forall j :: 0 <= j < k ==> oracle.isAddress(targets[j]))
        && e == Some(InvalidTarget + targets[k])
  {
    match FirstFailing(values, v => oracle.parsesAsEther(OrZero(v)))
    case Some(k) =>
      assert !oracle.parsesAsEther(OrZero(values[k])) && forall j :: 0 <= j < k ==> oracle.parsesAsEther(OrZero(values[j]));
      Some(InvalidValue + values[k])
    case None =>
      assert forall j :: 0 <= j < |values| ==> oracle.parsesAsEther(OrZero(values[j]));
      match FirstFailing(targets, oracle.isAddress)
      case Some(k) =>
        assert !oracle.isAddress(targets[k]) && forall j :: 0 <= j < k ==> oracle.isAddress(targets[j]);
        Some(InvalidTarget + targets[k])
      case None => None
  }
  /**
   * Once the arrays have the right shape, the error names an offending value or target;
   * the value checks come first.
   */
  lemma ValidationErrorNames(oracle: ProposeOracle, targets: seq<string>, values: seq<string>, calldatas: seq<string>)
    requires |targets| > 0 && |targets| == |values| == |calldatas|
    ensures var e := ValidationError(oracle, targets, values, calldatas);
      e.Some? ==>
        || (exists k :: 0 <= k < |values| && e.value == InvalidValue + values[k]
                     && !oracle.parsesAsEther(OrZero(values[k])))
        || (exists k :: 0 <= k < |targets| && e.value == InvalidTarget + targets[k]
                     && !oracle.isAddress(targets[k])
                     && forall j :: 0 <= j < |values| ==> oracle.parsesAsEther(OrZero(values[j])))
  {
  }


  /** The message thrown when the static call of `propose` reverts. */
  const WouldFail := "La proposition échouerait: "

  function StaticCallFailure(e: ChainError): (m: string)
    ensures |m| == |WouldFail| + |ReasonOrMessage(e)|
    ensures m[..|WouldFail|] == WouldFail && m[|WouldFail|..] == ReasonOrMessage(e)
  {
    WouldFail + ReasonOrMessage(e)
  }

  /**
   * The part of `createProposal` after the voting-power check: the static call, the gas
   * estimate with its fallback and 50% buffer, and the transaction.
   */
  /** The gas limit `propose` is sent with: the estimate, or the fallback, plus 50%. */
  function BufferedGas(oracle: ProposeOracle): (gas: nat)
    ensures oracle.gasEstimate.Success? ==> gas == GasLimit(oracle.gasEstimate.value)
    ensures oracle.gasEstimate.Failure? ==> gas == GasLimit(FallbackGasEstimate)
  {
    GasLimit(if oracle.gasEstimate.Success? then oracle.gasEstimate.value else FallbackGasEstimate)
  }

  method SendChecked(oracle: ProposeOracle) returns (outcome: Result<nat, string>, calls: seq<Call>)
    ensures |calls| >= 1 && calls[0] == StaticPropose
    ensures oracle.staticCall.Some? ==>
      && outcome == Failure(ProposalMessage(StaticCallFailure(oracle.staticCall.value)))
      && calls == [StaticPropose]
    ensures oracle.staticCall.None? ==>
      && calls == [StaticPropose, EstimateGas, Propose(BufferedGas(oracle))]
      && (oracle.propose(BufferedGas(oracle)).None? ==> outcome == Success(BufferedGas(oracle)))
      && (oracle.propose(BufferedGas(oracle)).Some? ==>
            outcome == Failure(ProposalMessage(ReasonOrMessage(oracle.propose(BufferedGas(oracle)).value))))
  {
    calls := [StaticPropose];
    if oracle.staticCall.Some? {
      outcome := Failure(ProposalMessage(StaticCallFailure(oracle.staticCall.value)));
      return;
    }
    var gasLimit := BufferedGas(oracle);
    calls := calls + [EstimateGas, Propose(gasLimit)];
    var sent := oracle.propose(gasLimit);
    if sent.Some? {
      outcome := Failure(ProposalMessage(ReasonOrMessage(sent.value)));
    } else {
      outcome := Success(gasLimit);
    }
  }

  /**
   * `createProposal`: the gas limit of the submitted transaction, or the message of the
   * error it throws; `calls` lists the contract interactions made, in order.
   */
  method CreateProposal(oracle: ProposeOracle, targets: seq<string>, values: seq<string>,
                        calldatas: seq<string>, description: string)
    returns (outcome: Result<nat, string>, calls: seq<Call>)
    ensures ValidationError(oracle, targets, values, calldatas).Some? ==>
      && outcome == Failure(ProposalMessage(ValidationError(oracle, targets, values, calldatas).value))
      && calls == []
    ensures InputsValid(oracle, targets, values, calldatas) ==> |calls| >= 1 && calls[0] == VotingPowerCheck
    ensures outcome.Success? ==>
      && InputsValid(oracle, targets, values, calldatas)
      && VotingCheckPasses(oracle.votingCheck)
      && oracle.staticCall.None?
      && outcome.value == BufferedGas(oracle)
      && calls == [VotingPowerCheck, StaticPropose, EstimateGas, Propose(outcome.value)]
    ensures (InputsValid(oracle, targets, values, calldatas) && VotingCheckError(oracle.votingCheck).Some?) ==>
      && outcome == Failure(ProposalMessage(VotingCheckError(oracle.votingCheck).value))
      && calls == [VotingPowerCheck]
    ensures (&& InputsValid(oracle, targets, values, calldatas)
             && VotingCheckPasses(oracle.votingCheck) && oracle.staticCall.Some?) ==>
      && outcome == Failure(ProposalMessage(StaticCallFailure(oracle.staticCall.value)))
      && calls == [VotingPowerCheck, StaticPropose]
    ensures (&& InputsValid(oracle, targets, values, calldatas) && VotingCheckPasses(oracle.votingCheck)
             && oracle.staticCall.None? && oracle.propose(BufferedGas(oracle)).Some?) ==>
      && outcome == Failure(ProposalMessage(ReasonOrMessage(oracle.propose(BufferedGas(oracle)).value)))
      && calls == [VotingPowerCheck, StaticPropose, EstimateGas, Propose(BufferedGas(oracle))]
  {
    calls := [];
    var invalid := ValidationError(oracle, targets, values, calldatas);
    if invalid.Some? {
      outcome := Failure(ProposalMessage(invalid.value));
      return;
    }
    calls := [VotingPowerCheck];
    var refused := VotingCheckError(oracle.votingCheck);
    if refused.Some? {
      outcome := Failure(ProposalMessage(refused.value));
      return;
    }
    var sent;
    outcome, sent := SendChecked(oracle);
    if oracle.staticCall.Some? {
      calls := [VotingPowerCheck, StaticPropose];
    } else {
      calls := [VotingPowerCheck, StaticPropose, EstimateGas, Propose(BufferedGas(oracle))];
    }
  }

  // ---------------------------------------------------------------- voting

  /** The transaction `castVote` sends. */
  datatype VoteCall =
    | CastVote(proposalId: nat, support: nat)
    | CastVoteWithReason(proposalId: nat, support: nat, reason: string)

  /** `castVoteWithReason` exactly when a reason is given, else `castVote`. */
  function VoteCallFor(proposalId: nat, support: nat, reason: string): (call: VoteCall)
    ensures call.CastVoteWithReason? <==> reason != ""
    ensures call.proposalId == proposalId && call.support == support
    ensures call.CastVoteWithReason? ==> call.reason == reason
  {
    if reason != "" then CastVoteWithReason(proposalId, support, reason) else CastVote(proposalId, support)
  }

  /** The message `castVote` throws for a failed vote. */
  function VoteMessage(e: ChainError): (r: string)
    ensures Contains(ReasonOrMessage(e), "Governor: vote not currently active") ==>
      r == "Le vote n'est pas actif pour cette proposition"
    ensures (!Contains(ReasonOrMessage(e), "Governor: vote not currently active")
             && Contains(ReasonOrMessage(e), "Governor: already voted")) ==>
      r == "Vous avez déjà voté pour cette proposition"
    ensures (!Contains(ReasonOrMessage(e), "Governor: vote not currently active")
             && !Contains(ReasonOrMessage(e), "Governor: already voted")) ==> r == ReasonOrMessage(e)
  {
    var m := ReasonOrMessage(e);
    if Contains(m, "Governor: vote not currently active") then "Le vote n'est pas actif pour cette proposition"
    else if Contains(m, "Governor: already voted") then "Vous avez déjà voté pour cette proposition"
    else m
  }

  /** `castVote`: the call sent, or the translated message when it fails. */
  function CastVoteOutcome(proposalId: nat, support: nat, reason: string, send: VoteCall -> Option<ChainError>): (r: Result<VoteCall, string>)
    ensures r.Success? <==> send(VoteCallFor(proposalId, support, reason)).None?
    ensures r.Success? ==> r.value == VoteCallFor(proposalId, support, reason)
    ensures r.Failure? ==> r.error == VoteMessage(send(VoteCallFor(proposalId, support, reason)).value)
  {
    var call := VoteCallFor(proposalId, support, reason);
    match send(call)
    case None => Success(call)
    case Some(e) => Failure(VoteMessage(e))
  }
}
