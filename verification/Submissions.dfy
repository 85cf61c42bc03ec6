/** The submission desk: proposals, the critic's verdicts, the forced accept, and the salvage. */
module Submissions {
  import opened Options
  import opened ToolResults

  type Payload = string   // the text of a JSON object

  datatype Source = Source(url: string, whatItProvided: string)

  // `structured` is absent when the submitted result is no JSON object.
  datatype Proposal = Proposal(answer: string, structured: Option<Payload>, sources: seq<Source>)

  const NO_PROPOSAL := Proposal("", None, [])

  // `schema` says that the caller asked for structured output.
  datatype Rules = Rules(schema: bool, passScore: real, maxRejects: nat)

  // `log` is not kept by the agent: what was submitted in which turn, with the verdict and the reply.
  datatype Submission = Submission(turn: nat, proposal: Proposal, critic: Critic, reply: ToolResult)

  datatype Desk = Desk(
    attempts: nat,
    accepted: bool,
    last: Proposal,
    lastCritic: Option<Critic>,
    final: Proposal,
    finalCritic: Option<Critic>,
    log: seq<Submission>)

  const EMPTY_DESK := Desk(0, false, NO_PROPOSAL, None, NO_PROPOSAL, None, [])

  // The submitted arguments, in the selected mode.
  function Offered(rules: Rules, args: Proposal): Proposal {
    if rules.schema then Proposal("", args.structured, args.sources) else Proposal(args.answer, None, args.sources)
  }

  // The "last proposal" variables of the selected mode are overwritten, the others kept.
  function Overwritten(rules: Rules, last: Proposal, args: Proposal): Proposal {
    if rules.schema then last.(structured := args.structured, sources := args.sources)
    else last.(answer := args.answer, sources := args.sources)
  }

  predicate Passes(rules: Rules, critic: Critic, attempts: nat) {
    critic.score >= rules.passScore || critic.verdict == "pass" || attempts >= rules.maxRejects + 1
  }

  function Reply(rules: Rules, critic: Critic, attempts: nat): ToolResult {
    if Passes(rules, critic, attempts)
    then Accepted(critic, attempts >= rules.maxRejects + 1 && critic.score < rules.passScore)
    else Rejected(critic, if rules.maxRejects + 1 <= attempts then 0 else rules.maxRejects + 1 - attempts)
  }

  function AfterSubmit(desk: Desk, rules: Rules, turn: nat, args: Proposal, critic: Critic): Desk {
    var attempts := desk.attempts + 1;
    var last := Overwritten(rules, desk.last, args);
    var reply := Reply(rules, critic, attempts);
    var ok := Passes(rules, critic, attempts);
    Desk(attempts, desk.accepted || ok, last, Some(critic),
         if ok then last else desk.final, if ok then Some(critic) else desk.finalCritic,
         desk.log + [Submission(turn, Offered(rules, args), critic, reply)])
  }

  // ----- the invariant -----

  // The last submission that was accepted.
  function LastAccepted(log: seq<Submission>): Option<Submission> {
    if log == [] then None
    else if log[|log| - 1].reply.Accepted? then Some(log[|log| - 1])
    else LastAccepted(log[..|log| - 1])
  }

  ghost predicate IsLastAccepted(log: seq<Submission>, k: int) {
    0 <= k < |log| && log[k].reply.Accepted? && forall j :: k < j < |log| ==> !log[j].reply.Accepted?
  }

  lemma {:induction false} LastAcceptedIsLast(log: seq<Submission>)
    ensures LastAccepted(log) == None ==> forall j :: 0 <= j < |log| ==> !log[j].reply.Accepted?
    ensures LastAccepted(log).Some? ==> exists k :: IsLastAccepted(log, k) && log[k] == LastAccepted(log).value
  {
    if log != [] {
      var shorter := log[..|log| - 1];
      LastAcceptedIsLast(shorter);
      if log[|log| - 1].reply.Accepted? {
        assert IsLastAccepted(log, |log| - 1);
      } else if k :| IsLastAccepted(shorter, k) && shorter[k] == LastAccepted(shorter).value {
        assert IsLastAccepted(log, k);
      }
    }
  }

  ghost predicate RepliesOk(desk: Desk, rules: Rules) {
    && desk.attempts == |desk.log|
    && forall k :: 0 <= k < |desk.log| ==>
      && desk.log[k].reply == Reply(rules, desk.log[k].critic, k + 1)
      && OfMode(rules, desk.log[k].proposal)
  }

  predicate OfMode(rules: Rules, p: Proposal) {
    if rules.schema then p.answer == "" else p.structured == None
  }

  /** What is held is what was last submitted, and what was last accepted. */
  ghost predicate HoldersOk(desk: Desk, rules: Rules) {
    && OfMode(rules, desk.last)
    && (if desk.log == [] then desk.last == NO_PROPOSAL && desk.lastCritic == None
        else desk.last == desk.log[|desk.log| - 1].proposal && desk.lastCritic == Some(desk.log[|desk.log| - 1].critic))
    && desk.accepted == LastAccepted(desk.log).Some?
    && match LastAccepted(desk.log)
       case None => desk.final == NO_PROPOSAL && desk.finalCritic == None
       case Some(s) => desk.final == s.proposal && desk.finalCritic == Some(s.critic)
  }

  ghost predicate DeskOk(desk: Desk, rules: Rules) {
    RepliesOk(desk, rules) && HoldersOk(desk, rules)
  }

  lemma SubmitKeepsReplies(desk: Desk, rules: Rules, turn: nat, args: Proposal, critic: Critic)
    requires RepliesOk(desk, rules)
    ensures RepliesOk(AfterSubmit(desk, rules, turn, args, critic), rules)
  {
    var after := AfterSubmit(desk, rules, turn, args, critic);
    forall k | 0 <= k < |after.log|
      ensures after.log[k].reply == Reply(rules, after.log[k].critic, k + 1) && OfMode(rules, after.log[k].proposal)
    {
      if k < |desk.log| {
        assert after.log[k] == desk.log[k];
      }
    }
  }

  lemma SubmitKeepsHolders(desk: Desk, rules: Rules, turn: nat, args: Proposal, critic: Critic)
    requires HoldersOk(desk, rules)
    ensures HoldersOk(AfterSubmit(desk, rules, turn, args, critic), rules)
  {
    var log := AfterSubmit(desk, rules, turn, args, critic).log;
    assert log[..|log| - 1] == desk.log;
    assert log[|log| - 1] == Submission(turn, Offered(rules, args), critic, Reply(rules, critic, desk.attempts + 1));
  }

  /** A submission is turned down exactly when its score is below the pass score, its verdict is not "pass",
      and fewer than `maxRejects` submissions came before; an acceptance is called forced exactly when the
      rejects are used up and the score is below. Every reply carries the submission's own critic. */
  lemma RejectedExactlyWhen(desk: Desk, rules: Rules, k: nat)
    requires DeskOk(desk, rules) && k < |desk.log|
    ensures var x := desk.log[k];
            && (x.reply.Accepted? || x.reply.Rejected?) && x.reply.critic == x.critic
            && (x.reply.Rejected? <==>
                  x.critic.score < rules.passScore && x.critic.verdict != "pass" && k < rules.maxRejects)
            && (x.reply.Accepted? ==>
                  (x.reply.forced <==> k >= rules.maxRejects && x.critic.score < rules.passScore))
  {
    assert desk.log[k].reply == Reply(rules, desk.log[k].critic, k + 1);
  }

  /** What is logged is what was submitted, in the selected mode. */
  lemma SubmissionIsLogged(desk: Desk, rules: Rules, turn: nat, args: Proposal, critic: Critic)
    ensures var log := AfterSubmit(desk, rules, turn, args, critic).log;
            && |log| == |desk.log| + 1 && log[..|desk.log|] == desk.log
            && log[|desk.log|].turn == turn && log[|desk.log|].critic == critic
            && log[|desk.log|].proposal.sources == args.sources
            && (rules.schema ==> log[|desk.log|].proposal.structured == args.structured)
            && (!rules.schema ==> log[|desk.log|].proposal.answer == args.answer)
  {
  }

  /** At most `maxRejects` submissions are rejected, each of the first few, and the countdown told to
      the k-th is exact: that many submissions later one is accepted whatever the critic says of it,
      and no earlier one is forced. */
  lemma CountdownIsExact(desk: Desk, rules: Rules, k: nat)
    requires DeskOk(desk, rules) && k < |desk.log| && desk.log[k].reply.Rejected?
    ensures k < rules.maxRejects
    ensures desk.log[k].reply.remaining == rules.maxRejects - k > 0
    ensures forall j :: k + desk.log[k].reply.remaining <= j < |desk.log| ==> desk.log[j].reply.Accepted?
    ensures forall j :: k < j < k + desk.log[k].reply.remaining && j < |desk.log| && desk.log[j].reply.Accepted? ==>
              desk.log[j].critic.score >= rules.passScore || desk.log[j].critic.verdict == "pass"
  {
    assert desk.log[k].reply == Reply(rules, desk.log[k].critic, k + 1);
  }

  function Rejections(log: seq<Submission>): nat {
    if log == [] then 0 else Rejections(log[..|log| - 1]) + (if log[|log| - 1].reply.Rejected? then 1 else 0)
  }

  lemma {:induction false} RejectionsAreBounded(desk: Desk, rules: Rules, k: nat)
    requires DeskOk(desk, rules) && k <= |desk.log|
    ensures Rejections(desk.log[..k]) <= if k <= rules.maxRejects then k else rules.maxRejects
  {
    if k > 0 {
      RejectionsAreBounded(desk, rules, k - 1);
      var log := desk.log[..k];
      assert log[..|log| - 1] == desk.log[..k - 1] && log[|log| - 1] == desk.log[k - 1];
      assert desk.log[k - 1].reply == Reply(rules, desk.log[k - 1].critic, k);
    }
  }

  /** A critic that cannot be reached or understood never blocks a submission. */
  lemma CriticOutageAccepts(desk: Desk, rules: Rules, turn: nat, args: Proposal, r: CriticReply)
    requires !r.Review?
    ensures var after := AfterSubmit(desk, rules, turn, args, CriticOf(r));
            after.accepted && after.log[|desk.log|].reply.Accepted? && after.finalCritic == Some(CriticOf(r))
  {
  }

  // ----- after the loop -----

  predicate NothingProposed(rules: Rules, last: Proposal) {
    if rules.schema then last.structured == None else last.answer == ""
  }

  datatype Report = Report(accepted: bool, result: Proposal, critic: Option<Critic>, attempts: nat)

  predicate Salvages(desk: Desk, rules: Rules) {
    !desk.accepted && NothingProposed(rules, desk.last)
  }

  // `forced` is what the forced submission call yielded, if it is made.
  function Concluded(desk: Desk, rules: Rules, forced: Option<Proposal>): Report {
    if desk.accepted then Report(true, desk.final, desk.finalCritic, desk.attempts)
    else if Salvages(desk, rules) && forced.Some?
    then Report(false, Overwritten(rules, desk.last, forced.value), desk.lastCritic, desk.attempts + 1)
    else Report(false, desk.last, desk.lastCritic, desk.attempts)
  }

  /** Where a report comes from: always one submission. The critic is that submission's own, except
      after a salvage, when it is the one of the empty proposal before it. */
  lemma ReportIsOneSubmission(desk: Desk, rules: Rules, forced: Option<Proposal>)
    requires DeskOk(desk, rules)
    ensures var report := Concluded(desk, rules, forced);
            && OfMode(rules, report.result)
            && report.accepted == LastAccepted(desk.log).Some?
            && (report.accepted ==> report.result == LastAccepted(desk.log).value.proposal
                                    && report.critic == Some(LastAccepted(desk.log).value.critic))
            && (!report.accepted && desk.log != [] && !NothingProposed(rules, desk.log[|desk.log| - 1].proposal) ==>
                  report.result == desk.log[|desk.log| - 1].proposal
                      && report.critic == Some(desk.log[|desk.log| - 1].critic))
            && (!report.accepted && (desk.log == [] || NothingProposed(rules, desk.log[|desk.log| - 1].proposal)) ==>
                  && report.critic == (if desk.log == [] then None else Some(desk.log[|desk.log| - 1].critic))
                  && report.result == match forced {
                                        case Some(args) => Offered(rules, args)
                                        case None => if desk.log == [] then NO_PROPOSAL
                                            else desk.log[|desk.log| - 1].proposal
                                      })
  {
    LastAcceptedIsLast(desk.log);
  }

  /** A forced result is reported only when the last submission's payload was empty or there was none, and
      nothing was accepted; every submission made is counted. */
  lemma SalvageNeverOverwrites(desk: Desk, rules: Rules, forced: Option<Proposal>)
    requires DeskOk(desk, rules)
    ensures var report, n := Concluded(desk, rules, forced), |desk.log|;
            var proposed := n > 0 && (if rules.schema then desk.log[n - 1].proposal.structured.Some?
                                      else desk.log[n - 1].proposal.answer != "");
            var accepted := exists k :: 0 <= k < n && desk.log[k].reply.Accepted?;
            && report.accepted == accepted
            && (!accepted && proposed ==> report.result == desk.log[n - 1].proposal)
            && (!accepted && !proposed && forced.Some? ==>
                  && report.result.sources == forced.value.sources
                  && (if rules.schema then report.result.structured == forced.value.structured
                      else report.result.answer == forced.value.answer))
            && report.attempts == n + (if !accepted && !proposed && forced.Some? then 1 else 0)
  {
    LastAcceptedIsLast(desk.log);
    ReportIsOneSubmission(desk, rules, forced);
  }

  // ----- whose critic is reported -----

  // The submissions of a run by number: those of the loop, then the forced one if its result is taken.
  predicate TakesForced(desk: Desk, rules: Rules, forced: Option<Proposal>) {
    Salvages(desk, rules) && forced.Some?
  }

  function Submitted(desk: Desk, rules: Rules, forced: Option<Proposal>, n: nat): Proposal
    requires n < |desk.log| || (n == |desk.log| && TakesForced(desk, rules, forced))
  {
    if n < |desk.log| then desk.log[n].proposal else Offered(rules, forced.value)
  }

  function LastAcceptedAt(log: seq<Submission>): (r: Option<nat>)
    ensures r.Some? ==> IsLastAccepted(log, r.value)
    ensures r.None? ==> forall j :: 0 <= j < |log| ==> !log[j].reply.Accepted?
  {
    if log == [] then None
    else if log[|log| - 1].reply.Accepted? then Some(|log| - 1)
    else LastAcceptedAt(log[..|log| - 1])
  }

  // The submission whose critic is reported: the accepted one, or the last of the loop.
  function CriticFrom(desk: Desk): (r: Option<nat>)
    ensures r.Some? ==> r.value < |desk.log|
  {
    if desk.accepted && LastAcceptedAt(desk.log).Some? then LastAcceptedAt(desk.log)
    else if desk.log == [] then None
    else Some(|desk.log| - 1)
  }

  // The submission whose result is reported.
  function ResultFrom(desk: Desk, rules: Rules, forced: Option<Proposal>): (r: Option<nat>)
    ensures r.Some? ==> r.value < |desk.log| || (r.value == |desk.log| && TakesForced(desk, rules, forced))
  {
    if TakesForced(desk, rules, forced) then Some(|desk.log|) else CriticFrom(desk)
  }

  lemma {:induction false} LastAcceptedThere(log: seq<Submission>)
    ensures LastAccepted(log) == match LastAcceptedAt(log) { case None => None case Some(k) => Some(log[k]) }
  {
    if log != [] {
      LastAcceptedThere(log[..|log| - 1]);
    }
  }

  /** Result and critic of a report are those of the submissions named here. */
  lemma OriginsAreTrue(desk: Desk, rules: Rules, forced: Option<Proposal>)
    requires DeskOk(desk, rules)
    ensures var report, from := Concluded(desk, rules, forced), ResultFrom(desk, rules, forced);
            report.result == if from.Some? then Submitted(desk, rules, forced, from.value) else NO_PROPOSAL
    ensures var report, from := Concluded(desk, rules, forced), CriticFrom(desk);
            report.critic == if from.Some? then Some(desk.log[from.value].critic) else None
  {
    LastAcceptedThere(desk.log);
  }

  /** The reported critic judged another submission than the reported one exactly when a forced result
      replaced an earlier, empty proposal; whoever reads the report sees it unless the forced result
      is the same as that proposal. */
  lemma CriticIsForeignExactlyWhen(desk: Desk, rules: Rules, forced: Option<Proposal>)
    requires DeskOk(desk, rules)
    ensures CriticFrom(desk).Some? && CriticFrom(desk) != ResultFrom(desk, rules, forced) <==>
            Salvages(desk, rules) && forced.Some? && desk.log != []
    ensures var from := CriticFrom(desk);
            from.Some? && Concluded(desk, rules, forced).result != desk.log[from.value].proposal <==>
            && Salvages(desk, rules) && forced.Some? && desk.log != []
            && Offered(rules, forced.value) != desk.log[|desk.log| - 1].proposal
  {
    LastAcceptedThere(desk.log);
    OriginsAreTrue(desk, rules, forced);
  }

  /** Such a run: an empty answer is turned down, and the forced answer is reported with the critic of
      the empty one. */
  lemma ForeignCriticReported(rules: Rules, critic: Critic, sources: seq<Source>)
    requires !rules.schema && !Passes(rules, critic, 1)
    ensures var desk := AfterSubmit(EMPTY_DESK, rules, 1, Proposal("", None, []), critic);
            var report := Concluded(desk, rules, Some(Proposal("answer", None, sources)));
            && DeskOk(desk, rules) && desk.log[0].reply.Rejected?
            && report.result == Proposal("answer", None, sources) && report.critic == Some(critic)
  {
    SubmitKeepsReplies(EMPTY_DESK, rules, 1, Proposal("", None, []), critic);
    SubmitKeepsHolders(EMPTY_DESK, rules, 1, Proposal("", None, []), critic);
  }
}
