/**
 * The governance screen: how a proposal's description is composed from a title and a
 * body and split back, how the action arrays of the creation form are normalised before
 * submission, the state badge, the remaining-time text and the vote-button gate.
 */
module DaoGovernance {
  import opened Wrappers
  import opened Strings
  import opened Chain
  import opened DaoService
  import Blockchain

  // ---------------------------------------------------------------- description

  const NoTitle := "Sans titre"
  const NoBody := "Aucune description détaillée"

  /** The description submitted on chain: the title, an empty line, then the body. */
  function ComposeDescription(title: string, body: string): string {
    title + "\n\n" + body
  }

  /** `extractTitleFromDescription`: the first line, or a placeholder when it is empty. */
  function ExtractTitle(description: string): (title: string)
    ensures title != ""
  {
    var lines := Split(description, "\n");
    if lines[0] != "" then lines[0] else NoTitle
  }

  /** `extractDescriptionFromDescription`: the lines from the third on, or a placeholder. */
  function ExtractBody(description: string): (body: string)
    ensures body != ""
  {
    var lines := Split(description, "\n");
    var rest := Join(if |lines| >= 2 then lines[2..] else [], "\n");
    if rest != "" then rest else NoBody
  }

  /** A one-line description is all title: the body shows the placeholder. */
  lemma OneLineDescription(description: string)
    requires '\n' !in description
    ensures description != "" ==> ExtractTitle(description) == description
    ensures description == "" ==> ExtractTitle(description) == NoTitle
    ensures ExtractBody(description) == NoBody
  {
    SplitNoSep(description, '\n');
  }

  /**
   * Composing then extracting gives back the title and the body, for a one-line,
   * non-empty title and a non-empty body (both are required by the form).
   */
  lemma DescriptionRoundTrip(title: string, body: string)
    requires title != "" && '\n' !in title && body != ""
    ensures ExtractTitle(ComposeDescription(title, body)) == title
    ensures ExtractBody(ComposeDescription(title, body)) == body
  {
    var d := ComposeDescription(title, body);
    assert d == title + ['\n'] + ("" + ['\n'] + body);
    SplitAtFirst(title, '\n', "" + ['\n'] + body);
    SplitAtFirst("", '\n', body);
    var lines := Split(d, "\n");
    assert lines == [title] + ([""] + Split(body, "\n"));
    assert lines[2..] == Split(body, "\n");
    JoinSplit(body, "\n");
  }

  // ---------------------------------------------------------------- action arrays

  /** The three parallel arrays `propose` takes. */
  datatype Actions = Actions(targets: seq<string>, values: seq<string>, calldatas: seq<string>)

  /** `targets.filter(t => t && t.trim() !== '')`, order kept. */
  function NonBlank(targets: seq<string>): (r: seq<string>)
    ensures |r| <= |targets|
    ensures forall i :: 0 <= i < |r| ==> Trim(r[i]) != "" && r[i] != ""
    decreases |targets|
  {
    if |targets| == 0 then []
    else if Trim(targets[0]) != "" then [targets[0]] + NonBlank(targets[1..])
    else NonBlank(targets[1..])
  }

  /** The filter keeps exactly the targets that are not blank. */
  lemma {:induction false} NonBlankKeeps(targets: seq<string>)
    ensures forall t :: t in NonBlank(targets) <==> t in targets && Trim(t) != ""
    decreases |targets|
  {
    if |targets| > 0 {
      NonBlankKeeps(targets[1..]);
      assert targets == [targets[0]] + targets[1..];
    }
  }

  /** Filtering a concatenation filters each part in place: order and repetitions are kept. */
  lemma {:induction false} NonBlankAppend(a: seq<string>, b: seq<string>)
    ensures NonBlank(a + b) == NonBlank(a) + NonBlank(b)
    decreases |a|
  {
    if |a| > 0 {
      assert (a + b)[1..] == a[1..] + b;
      NonBlankAppend(a[1..], b);
    } else {
      assert a + b == b;
    }
  }

  /** A single target is kept exactly when it is not blank. */
  lemma NonBlankOne(t: string)
    ensures NonBlank([t]) == if Trim(t) != "" then [t] else []
  {
    assert [t][1..] == [];
  }

  /** `calldatas.filter(c => c && c !== '0x')`, order kept. */
  function Meaningful(calldatas: seq<string>): (r: seq<string>)
    ensures |r| <= |calldatas|
    ensures forall i :: 0 <= i < |r| ==> r[i] != "" && r[i] != "0x"
    decreases |calldatas|
  {
    if |calldatas| == 0 then []
    else if calldatas[0] != "" && calldatas[0] != "0x" then [calldatas[0]] + Meaningful(calldatas[1..])
    else Meaningful(calldatas[1..])
  }

  /** The filter keeps exactly the calldatas other than '' and '0x'. */
  lemma {:induction false} MeaningfulKeeps(calldatas: seq<string>)
    ensures forall c :: c in Meaningful(calldatas) <==> c in calldatas && c != "" && c != "0x"
    decreases |calldatas|
  {
    if |calldatas| > 0 {
      MeaningfulKeeps(calldatas[1..]);
      assert calldatas == [calldatas[0]] + calldatas[1..];
    }
  }

  /** Filtering a concatenation filters each part in place: order and repetitions are kept. */
  lemma {:induction false} MeaningfulAppend(a: seq<string>, b: seq<string>)
    ensures Meaningful(a + b) == Meaningful(a) + Meaningful(b)
    decreases |a|
  {
    if |a| > 0 {
      assert (a + b)[1..] == a[1..] + b;
      MeaningfulAppend(a[1..], b);
    } else {
      assert a + b == b;
    }
  }

  /** A single calldata is kept exactly when it is neither '' nor '0x'. */
  lemma MeaningfulOne(c: string)
    ensures Meaningful([c]) == if c != "" && c != "0x" then [c] else []
  {
    assert [c][1..] == [];
  }

  /** `values.map(v => v || '0')` */
  function ZeroDefaults(values: seq<string>): (r: seq<string>)
    ensures |r| == |values|
    ensures forall i :: 0 <= i < |r| ==> r[i] == OrZero(values[i])
  {
    seq(|values|, i requires 0 <= i < |values| => OrZero(values[i]))
  }

  /** `Array(n).fill('').map((_, i) => xs[i] || d)` */
  function Pad(xs: seq<string>, n: nat, d: string): (r: seq<string>)
    ensures |r| == n
    ensures forall i :: 0 <= i < n ==> r[i] == (if i < |xs| && xs[i] != "" then xs[i] else d)
  {
    seq(n, i requires 0 <= i < n => if i < |xs| && xs[i] != "" then xs[i] else d)
  }

  function Max3(a: nat, b: nat, c: nat): nat {
    if a >= b && a >= c then a else if b >= c then b else c
  }

  /**
   * The arrays `handleCreateProposal` submits for the form's arrays, `dao` standing for the
   * configured governor address: blank targets and empty calldata are dropped, empty
   * values become '0', a form without a target becomes the single no-op action on the
   * governor, and every array is padded to the longest with the defaults.
   */
  function NormalizeActions(targets: seq<string>, values: seq<string>, calldatas: seq<string>, dao: string): (a: Actions)
    ensures |a.targets| == |a.values| == |a.calldatas| >= 1
    ensures |NonBlank(targets)| > 0 ==>
      |NonBlank(targets)| <= |a.targets| && |values| <= |a.values| && |Meaningful(calldatas)| <= |a.calldatas|
    ensures |NonBlank(targets)| == 0 ==> a == Actions([dao], ["0"], ["0x"])
    ensures forall i :: 0 <= i < |a.values| ==> a.values[i] != ""
    ensures forall i :: 0 <= i < |a.calldatas| ==> a.calldatas[i] != ""
  {
    var t0 := NonBlank(targets);
    var v0 := ZeroDefaults(values);
    var c0 := Meaningful(calldatas);
    var t1 := if |t0| == 0 then [dao] else t0;
    var v1 := if |t0| == 0 then ["0"] else v0;
    var c1 := if |t0| == 0 then ["0x"] else c0;
    var n := Max3(|t1|, |v1|, |c1|);
    var a := Actions(Pad(t1, n, dao), Pad(v1, n, "0"), Pad(c1, n, "0x"));
    assert |t0| == 0 ==> a == Actions([dao], ["0"], ["0x"]);
    a
  }

  /**
   * With at least one target, every array is padded to the longest of the three: the
   * kept targets then the governor, each value or '0', the kept calldata then '0x'.
   */
  lemma NormalizeActionsContents(targets: seq<string>, values: seq<string>, calldatas: seq<string>, dao: string)
    requires |NonBlank(targets)| > 0
    ensures var a := NormalizeActions(targets, values, calldatas, dao);
      && |a.targets| == Max3(|NonBlank(targets)|, |values|, |Meaningful(calldatas)|)
      && a.targets[..|NonBlank(targets)|] == NonBlank(targets)
      && (forall i :: |NonBlank(targets)| <= i < |a.targets| ==> a.targets[i] == dao)
      && (forall i :: 0 <= i < |a.values| ==> a.values[i] == if i < |values| then OrZero(values[i]) else "0")
      && a.calldatas[..|Meaningful(calldatas)|] == Meaningful(calldatas)
      && (forall i :: |Meaningful(calldatas)| <= i < |a.calldatas| ==> a.calldatas[i] == "0x")
  {
    var t0, v0, c0 := NonBlank(targets), ZeroDefaults(values), Meaningful(calldatas);
    var n := Max3(|t0|, |v0|, |c0|);
    var a := NormalizeActions(targets, values, calldatas, dao);
    assert a == Actions(Pad(t0, n, dao), Pad(v0, n, "0"), Pad(c0, n, "0x"));
    PadKeeps(t0, n, dao);
    PadKeeps(v0, n, "0");
    PadKeeps(c0, n, "0x");
  }

  /** Padding keeps a list of non-empty entries as its prefix and fills the rest. */
  lemma PadKeeps(xs: seq<string>, n: nat, d: string)
    requires |xs| <= n && forall i :: 0 <= i < |xs| ==> xs[i] != ""
    ensures Pad(xs, n, d)[..|xs|] == xs
    ensures forall i :: |xs| <= i < n ==> Pad(xs, n, d)[i] == d
  {
  }

  /**
   * The form offers one target, one value and one calldata field; for that shape the
   * submission is that single row with defaults, or the governor no-op when the target is
   * blank.
   */
  lemma SingleRowActions(t: string, v: string, c: string, dao: string)
    ensures Trim(t) != "" ==>
      NormalizeActions([t], [v], [c], dao) == Actions([t], [OrZero(v)], [if c == "" || c == "0x" then "0x" else c])
    ensures Trim(t) == "" ==> NormalizeActions([t], [v], [c], dao) == Actions([dao], ["0"], ["0x"])
  {
    assert [t][1..] == [];
    assert [c][1..] == [];
    if Trim(t) != "" {
      assert NonBlank([t]) == [t];
      var cd := if c == "" || c == "0x" then "0x" else c;
      assert Meaningful([c]) == if c == "" || c == "0x" then [] else [c];
      var a := NormalizeActions([t], [v], [c], dao);
      assert |a.targets| == 1;
      assert a.targets == a.targets[..1] == [t];
      assert a.values == [a.values[0]] && a.values[0] == OrZero(v);
      assert a.calldatas == [a.calldatas[0]] && a.calldatas[0] == cd;
    } else {
      assert NonBlank([t]) == [];
    }
  }

  /**
   * The normalised arrays always pass `createProposal`'s emptiness and length checks: the
   * only validation errors left are an invalid value or target address.
   */
  lemma NormalizedShapeAccepted(oracle: ProposeOracle, targets: seq<string>, values: seq<string>,
                                calldatas: seq<string>, dao: string)
    ensures var a := NormalizeActions(targets, values, calldatas, dao);
      var e := ValidationError(oracle, a.targets, a.values, a.calldatas);
      || e.None?
      || (exists k :: 0 <= k < |a.values| && e.value == InvalidValue + a.values[k])
      || (exists k :: 0 <= k < |a.targets| && e.value == InvalidTarget + a.targets[k])
  {
    var a := NormalizeActions(targets, values, calldatas, dao);
    ValidationErrorNames(oracle, a.targets, a.values, a.calldatas);
  }

  // ---------------------------------------------------------------- the creation form

  /** The toast shown when `createProposal` throws `message`. */
  function CreationErrorToast(message: string): (toast: string)
    ensures Contains(message, InsufficientPower) ==> toast == InsufficientPowerToast
    ensures (!Contains(message, InsufficientPower) && Contains(message, "Transaction reverted")) ==>
      toast == "La transaction a été rejetée par le contrat"
    ensures (&& !Contains(message, InsufficientPower) && !Contains(message, "Transaction reverted")
             && Contains(message, "gas")) ==> toast == "Erreur de gas. Vérifiez que vous avez suffisamment de fonds."
    ensures (&& !Contains(message, InsufficientPower) && !Contains(message, "Transaction reverted")
             && !Contains(message, "gas")) ==> toast == "Échec de la création: " + message
  {
    if Contains(message, InsufficientPower) then InsufficientPowerToast
    else if Contains(message, "Transaction reverted") then "La transaction a été rejetée par le contrat"
    else if Contains(message, "gas") then "Erreur de gas. Vérifiez que vous avez suffisamment de fonds."
    else "Échec de la création: " + message
  }

  const InsufficientPowerToast := "Voting power insuffisant pour créer une proposition"
  const MissingFields := "Veuillez remplir tous les champs requis"
  const BelowThreshold := "Seuil de proposition non atteint"
  const Created := "Proposition créée avec succès"

  /**
   * The `try` block of `handleCreateProposal` once the arrays are normalised: the proposal
   * is created, and `createProposal`'s outcome becomes the toast shown, a thrown message
   * going through the catch's four toasts.
   */
  method SubmitProposal(oracle: ProposeOracle, actions: Actions, text: string)
    returns (toast: Result<string, string>, outcome: Result<nat, string>, calls: seq<Call>)
    ensures toast.Success? <==> outcome.Success?
    ensures outcome.Success? ==>
      && toast.value == Created
      && InputsValid(oracle, actions.targets, actions.values, actions.calldatas)
      && outcome.value == BufferedGas(oracle)
      && calls == [VotingPowerCheck, StaticPropose, EstimateGas, Propose(BufferedGas(oracle))]
    ensures outcome.Failure? ==> toast == Failure(CreationErrorToast(outcome.error))
    ensures ValidationError(oracle, actions.targets, actions.values, actions.calldatas).Some? ==>
      && outcome == Failure(ProposalMessage(ValidationError(oracle, actions.targets, actions.values, actions.calldatas).value))
      && calls == []
    ensures (InputsValid(oracle, actions.targets, actions.values, actions.calldatas)
             && VotingCheckError(oracle.votingCheck).Some?) ==>
      && outcome == Failure(ProposalMessage(VotingCheckError(oracle.votingCheck).value))
      && calls == [VotingPowerCheck]
    ensures (&& InputsValid(oracle, actions.targets, actions.values, actions.calldatas)
             && oracle.votingCheck.Success? && oracle.votingCheck.value.0 < oracle.votingCheck.value.1) ==>
      && toast == Failure(InsufficientPowerToast)
      && calls == [VotingPowerCheck]
    ensures (&& InputsValid(oracle, actions.targets, actions.values, actions.calldatas)
             && VotingCheckPasses(oracle.votingCheck) && oracle.staticCall.Some?) ==>
      && outcome == Failure(ProposalMessage(StaticCallFailure(oracle.staticCall.value)))
      && calls == [VotingPowerCheck, StaticPropose]
    ensures (&& InputsValid(oracle, actions.targets, actions.values, actions.calldatas)
             && VotingCheckPasses(oracle.votingCheck)
             && oracle.staticCall.None? && oracle.propose(BufferedGas(oracle)).Some?) ==>
      && outcome == Failure(ProposalMessage(ReasonOrMessage(oracle.propose(BufferedGas(oracle)).value)))
      && calls == [VotingPowerCheck, StaticPropose, EstimateGas, Propose(BufferedGas(oracle))]
  {
    outcome, calls := CreateProposal(oracle, actions.targets, actions.values, actions.calldatas, text);
    if outcome.Success? {
      toast := Success(Created);
    } else {
      toast := Failure(CreationErrorToast(outcome.error));
      if InputsValid(oracle, actions.targets, actions.values, actions.calldatas)
         && oracle.votingCheck.Success? && oracle.votingCheck.value.0 < oracle.votingCheck.value.1 {
        RefusalToast();
      }
    }
  }

  /**
   * Too little voting power reaches the form as 'Voting power insuffisant', untouched by
   * the service's friendlier messages, and shows the dedicated toast.
   */
  lemma RefusalToast()
    ensures CreationErrorToast(ProposalMessage(InsufficientPower)) == InsufficientPowerToast
  {
    var m := InsufficientPower;
    assert |m| < 40 && 'x' !in m;
    RefusalMessageKept(m);
    ContainsSelf(m);
  }

  /** A short message without an 'x' matches none of the service's friendlier messages. */
  lemma RefusalMessageKept(m: string)
    requires |m| < 40 && 'x' !in m
    ensures ProposalMessage(m) == m
  {
    NotContained(m, "Governor: proposer votes below proposal threshold", 'G');
    NotContained(m, "Governor: identical proposal action already active", 'G');
    assert "execution reverted"[1] == 'x';
    NotContained(m, "execution reverted", 'x');
  }

  class ProposalForm {
    var title: string
    var description: string
    var targets: seq<string>
    var values: seq<string>
    var calldatas: seq<string>

    /** The form as first shown and as reset after a successful creation. */
    predicate Blank()
      reads this
    {
      title == "" && description == "" && targets == [""] && values == ["0"] && calldatas == ["0x"]
    }

    constructor ()
      ensures Blank()
    {
      title := "";
      description := "";
      targets := [""];
      values := ["0"];
      calldatas := ["0x"];
    }

    /** `setProposalForm` back to the blank form after a successful creation. */
    method Reset()
      modifies this
      ensures Blank()
    {
      title := "";
      description := "";
      targets := [""];
      values := ["0"];
      calldatas := ["0x"];
    }

    /**
     * `handleCreateProposal`. `hasSigner` is whether a wallet is connected,
     * `belowThreshold` the outcome of the voting-power comparison with the threshold and
     * `dao` the governor address setting, from which the contract handle is built.
     * Returns the toast shown, the arrays and description submitted (if any), the outcome
     * of `createProposal` (if it was called) and the contract calls made.
     */
    method HandleCreateProposal(hasSigner: bool, belowThreshold: bool, dao: Option<string>, oracle: ProposeOracle)
      returns (toast: Result<string, string>, submitted: Option<(Actions, string)>,
               outcome: Option<Result<nat, string>>, calls: seq<Call>)
      modifies this
      ensures (!hasSigner || old(title) == "" || old(description) == "") ==>
        toast == Failure(MissingFields) && submitted.None? && calls == []
      ensures (hasSigner && old(title) != "" && old(description) != "" && belowThreshold) ==>
        toast == Failure(BelowThreshold) && submitted.None? && calls == []
      ensures (&& hasSigner && old(title) != "" && old(description) != "" && !belowThreshold
               && (dao.None? || dao.value == "")) ==>
        toast == Failure(CreationErrorToast(MissingParameters.message)) && submitted.None? && calls == []
      ensures (&& hasSigner && old(title) != "" && old(description) != "" && !belowThreshold
               && dao.Some? && dao.value != "") ==>
        submitted == Some((NormalizeActions(old(targets), old(values), old(calldatas), dao.value),
                           ComposeDescription(old(title), old(description))))
      ensures outcome.Some? <==> submitted.Some?
      ensures outcome.Some? ==> (toast.Success? <==> outcome.value.Success?)
      ensures outcome.Some? && outcome.value.Failure? ==> toast == Failure(CreationErrorToast(outcome.value.error))
      ensures toast.Success? ==> toast.value == Created && Blank()
      ensures toast.Success? ==>
        && submitted.Some?
        && InputsValid(oracle, submitted.value.0.targets, submitted.value.0.values, submitted.value.0.calldatas)
        && calls == [VotingPowerCheck, StaticPropose, EstimateGas, Propose(BufferedGas(oracle))]
      ensures toast.Failure? ==> unchanged(this)
    {
      calls := [];
      submitted := None;
      outcome := None;
      if !hasSigner || title == "" || description == "" {
        toast := Failure(MissingFields);
        return;
      }
      if belowThreshold {
        toast := Failure(BelowThreshold);
        return;
      }
      var handle := Blockchain.GetContract(dao, true, hasSigner);
      if handle.Failure? {
        toast := Failure(CreationErrorToast(handle.error.message));
        return;
      }
      var actions := NormalizeActions(targets, values, calldatas, dao.value);
      var text := ComposeDescription(title, description);
      submitted := Some((actions, text));
      var created;
      toast, created, calls := SubmitProposal(oracle, actions, text);
      outcome := Some(created);
      if toast.Success? {
        Reset();
      }
    }
  }

  // ---------------------------------------------------------------- badges, time, voting

  /** `getStateBadge`: the label of a proposal state, state 0's label for unknown values. */
  function StateLabel(state: int): (badge: string)
    ensures state in ProposalStates ==> badge == ProposalStates[state]
    ensures state !in ProposalStates ==> badge == ProposalStates[0]
  {
    if state == 0 then "En attente"
    else if state == 1 then "Actif"
    else if state == 2 then "Annulé"
    else if state == 3 then "Défait"
    else if state == 4 then "Réussi"
    else if state == 5 then "En file"
    else if state == 6 then "Expiré"
    else if state == 7 then "Exécuté"
    else "En attente"
  }

  /** The eight states get eight different badges; only unknown values share state 0's. */
  lemma StateLabelsDistinct(s: int, t: int)
    requires 0 <= s <= 7 && 0 <= t <= 7 && s != t
    ensures StateLabel(s) != StateLabel(t)
  {
    ProposalStatesTable();
  }

  const DayMs: nat := 1000 * 60 * 60 * 24
  const HourMs: nat := 1000 * 60 * 60

  /**
   * The whole days and remaining whole hours until `deadline`, or `None` once it has
   * passed: the largest `days` and then `hours` whose span fits in what remains.
   */
  function Remaining(deadline: int, now: int): (r: Option<(nat, nat)>)
    ensures r.None? <==> deadline <= now
    ensures r.Some? ==>
      && r.value.1 < 24
      && r.value.0 * DayMs + r.value.1 * HourMs <= deadline - now < r.value.0 * DayMs + (r.value.1 + 1) * HourMs
  {
    var diff := deadline - now;
    if diff <= 0 then None
    else
      var days := diff / DayMs;
      var hours := (diff % DayMs) / HourMs;
      Some((days, hours))
  }

  /** Days and hours are determined by the remaining time: no other split fits it. */
  lemma RemainingUnique(deadline: int, now: int, days: nat, hours: nat)
    requires deadline > now && hours < 24
    requires days * DayMs + hours * HourMs <= deadline - now < days * DayMs + (hours + 1) * HourMs
    ensures Remaining(deadline, now) == Some((days, hours))
  {
    var r := Remaining(deadline, now);
    var (d, h) := r.value;
    var x := days * 24 + hours;
    var y := d * 24 + h;
    assert x * HourMs <= deadline - now < (x + 1) * HourMs;
    assert y * HourMs <= deadline - now < (y + 1) * HourMs;
    assert x == y;
  }

  /** `formatTimeRemaining` with `Date.now()` as `now`. */
  function FormatTimeRemaining(deadline: int, now: int): (text: string)
    ensures deadline <= now ==> text == "Expiré"
    ensures deadline > now ==>
      var (days, hours) := Remaining(deadline, now).value;
      && (days > 0 ==> text == ToBase(days, 10) + "j " + ToBase(hours, 10) + "h restantes")
      && (days == 0 ==> text == ToBase(hours, 10) + "h restantes")
  {
    match Remaining(deadline, now)
    case None => "Expiré"
    case Some((days, hours)) =>
      if days > 0 then ToBase(days, 10) + "j " + ToBase(hours, 10) + "h restantes"
      else ToBase(hours, 10) + "h restantes"
  }

  /** A running proposal's text always ends with the hours and never reads as expired. */
  lemma TimeRemainingShape(deadline: int, now: int)
    requires deadline > now
    ensures var text := FormatTimeRemaining(deadline, now);
      && text != "Expiré"
      && |text| > 11 && text[|text| - 11..] == "h restantes"
  {
    var r := Remaining(deadline, now).value;
    var head := if r.0 > 0 then ToBase(r.0, 10) + "j " + ToBase(r.1, 10) else ToBase(r.1, 10);
    var text := head + "h restantes";
    assert FormatTimeRemaining(deadline, now) == text;
    assert text[|head|..] == "h restantes";
  }


  /**
   * The vote buttons are shown for an active proposal the user has not voted on, when
   * the user's voting power (read as a number) is positive.
   */
  predicate VoteGate(state: int, hasVoted: bool, votingPower: real) {
    state == 1 && !hasVoted && votingPower > 0.0
  }

  /** Whenever the vote buttons show, the proposal's badge reads 'Actif'. */
  lemma VoteGateActive(state: int, hasVoted: bool, votingPower: real)
    requires VoteGate(state, hasVoted, votingPower)
    ensures StateLabel(state) == "Actif"
    ensures forall s :: 0 <= s <= 7 && s != state ==> StateLabel(s) != "Actif"
  {
    forall s | 0 <= s <= 7 && s != state
      ensures StateLabel(s) != "Actif"
    {
      StateLabelsDistinct(s, state);
    }
  }
}
