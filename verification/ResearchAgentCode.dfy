/** `run_research` as it runs: one object's variables updated turn by turn, equal to the functions of
    ResearchAgent at every step. */
module ResearchAgentCode {
  import opened Options
  import opened ChatHistory
  import opened ToolResults
  import opened AgentBooks
  import opened Submissions
  import opened ResearchAgent
  import AgentLaws

  class ResearchRun {
    const cfg: Config
    const state: AgentState
    var messages: seq<Message>
    var toolCallCount: map<string, nat>
    var promptTokens: nat
    var completionTokens: nat
    var lastPrompt: nat
    var perfLlm: seq<LlmCall>
    var turnsDone: nat
    var accepted: bool
    var lastAnswer: string
    var lastStructured: Option<Payload>
    var lastSources: seq<Source>
    var lastCritic: Option<Critic>
    var finalAnswer: string
    var finalStructured: Option<Payload>
    var finalSources: seq<Source>
    var finalCritic: Option<Critic>
    ghost var log: seq<Submission>
    ghost var sent: seq<seq<Message>>

    constructor (cfg: Config)
      ensures this.cfg == cfg && fresh(state) && Snapshot() == Start(cfg)
    {
      this.cfg := cfg;
      state := new AgentState();
      messages := [System(cfg.system), User(cfg.question)];
      toolCallCount, promptTokens, completionTokens, lastPrompt := map[], 0, 0, 0;
      perfLlm, turnsDone, accepted := [], 0, false;
      lastAnswer, lastStructured, lastSources, lastCritic := "", None, [], None;
      finalAnswer, finalStructured, finalSources, finalCritic := "", None, [], None;
      log, sent := [], [];
    }

    ghost function ToDesk(): Desk
      reads this, state
    {
      Desk(state.submitAttempts, accepted, Proposal(lastAnswer, lastStructured, lastSources), lastCritic,
           Proposal(finalAnswer, finalStructured, finalSources), finalCritic, log)
    }

    ghost function Snapshot(): Run
      reads this, state
    {
      Run(messages, state.ToBooks(), toolCallCount, ToDesk(), state.compactionCount,
          Usage(promptTokens, completionTokens, lastPrompt), perfLlm, turnsDone, sent)
    }

    method SoftElide(turn: nat) returns (elided: nat)
      modifies this`messages
      ensures Snapshot() == old(Snapshot()).(messages := Elided(old(messages), turn - cfg.elideAfter,
                                                                cfg.wording.notice))
      ensures elided == ElidableIn(old(messages), turn - cfg.elideAfter, |old(messages)|)
    {
      var cutoff := turn - cfg.elideAfter;
      elided := 0;
      for k := 0 to |messages|
        invariant |messages| == |old(messages)|
        invariant elided == ElidableIn(old(messages), cutoff, k)
        invariant forall i :: 0 <= i < k ==> messages[i] == ElidedOne(old(messages)[i], cutoff, cfg.wording.notice)
        invariant forall i :: k <= i < |messages| ==> messages[i] == old(messages)[i]
      {
        var m := messages[k];
        if !m.Tool? || m.name != "web_scrape" {
          continue;
        }
        if m.turn > cutoff || m.elided {
          continue;
        }
        if |m.content| <= ELIDE_ABOVE {
          continue;
        }
        messages := messages[k := m.(content := cfg.wording.notice(m.content), elided := true)];
        elided := elided + 1;
      }
      assert messages == Elided(old(messages), cutoff, cfg.wording.notice);
    }

    method CompactContext(hard: bool, digest: Option<string>)
      requires |messages| >= 2
      modifies this`messages, this`perfLlm, state`compactionCount
      ensures Snapshot() == Compacted(cfg, old(Snapshot()), hard, digest)
    {
      if digest.None? {
        perfLlm := perfLlm + [Compact(hard, false)];
        return;
      }
      perfLlm := perfLlm + [Compact(hard, true)];
      state.compactionCount := state.compactionCount + 1;
      var remaining := cfg.maxCompactions - state.compactionCount;
      messages := [messages[0], messages[1],
                   Assistant(cfg.wording.digest(state.compactionCount, digest.value), []),
                   User(cfg.wording.note(remaining))];
    }

    // The selected mode's "last proposal" variables take the submitted arguments.
    method TakeProposal(submitted: Proposal)
      modifies this`lastAnswer, this`lastStructured, this`lastSources, state`submitAttempts
      ensures state.ToBooks() == old(state.ToBooks())
      ensures ToDesk() == old(ToDesk()).(attempts := old(state.submitAttempts) + 1,
                                         last := Overwritten(cfg.rules, old(ToDesk()).last, submitted))
    {
      state.submitAttempts := state.submitAttempts + 1;
      if !cfg.rules.schema {
        lastAnswer, lastSources := submitted.answer, submitted.sources;
      } else {
        lastStructured, lastSources := submitted.structured, submitted.sources;
      }
    }

    method Submit(turn: nat, submitted: Proposal, critic: Critic) returns (result: ToolResult)
      modifies this`lastAnswer, this`lastStructured, this`lastSources, this`lastCritic, state`submitAttempts
      modifies this`accepted, this`finalAnswer, this`finalStructured, this`finalSources, this`finalCritic, this`log
      ensures state.ToBooks() == old(state.ToBooks())
      ensures ToDesk() == AfterSubmit(old(ToDesk()), cfg.rules, turn, submitted, critic)
      ensures result == Reply(cfg.rules, critic, old(state.submitAttempts) + 1)
    {
      TakeProposal(submitted);
      lastCritic := Some(critic);
      var forceAccept := state.submitAttempts >= cfg.rules.maxRejects + 1;
      if critic.score >= cfg.rules.passScore || critic.verdict == "pass" || forceAccept {
        accepted := true;
        finalAnswer := lastAnswer;
        finalStructured := lastStructured;
        finalSources := submitted.sources;
        finalCritic := Some(critic);
        result := Accepted(critic, forceAccept && critic.score < cfg.rules.passScore);
      } else {
        var left := cfg.rules.maxRejects - state.submitAttempts + 1;
        result := Rejected(critic, if left < 0 then 0 else left);
      }
      log := log + [Submission(turn, Offered(cfg.rules, submitted), critic, result)];
    }

    method CountCall(name: string)
      modifies this`toolCallCount
      ensures Snapshot() == old(Snapshot()).(toolCalls := Bumped(old(toolCallCount), name))
    {
      toolCallCount := toolCallCount[name := CountOf(toolCallCount, name) + 1];
    }

    method Judge(turn: nat, c: CallInput) returns (result: ToolResult)
      modifies this`lastAnswer, this`lastStructured, this`lastSources, this`lastCritic, state`submitAttempts
      modifies this`accepted, this`finalAnswer, this`finalStructured, this`finalSources, this`finalCritic, this`log
      ensures Snapshot() == old(Snapshot()).(desk := AfterSubmit(old(ToDesk()), cfg.rules, turn, c.submitted,
                                                                 CriticOf(c.critic)))
      ensures result == Reply(cfg.rules, CriticOf(c.critic), old(state.submitAttempts) + 1)
    {
      result := Submit(turn, c.submitted, CriticOf(c.critic));
    }

    method SearchWeb(c: CallInput) returns (result: ToolResult)
      modifies state
      ensures Snapshot() == old(Snapshot()).(books := AfterSearch(old(state.ToBooks()), cfg.limits, c.query))
      ensures result == SearchAnswer(old(state.ToBooks()), cfg.limits, c.query, c.found,
                                     CountOf(toolCallCount, "web_scrape"))
    {
      result := state.WebSerp(cfg.limits, c.query, c.found, CountOf(toolCallCount, "web_scrape"));
    }

    method ScrapePage(c: CallInput) returns (result: ToolResult)
      modifies state
      ensures Snapshot() == old(Snapshot()).(books := AfterScrape(old(state.ToBooks()), cfg.limits, c.url, c.ok))
      ensures result == ScrapeAnswer(old(state.ToBooks()), cfg.limits, c.url, c.ok, c.text)
    {
      result := state.WebScrape(cfg.limits, c.url, c.ok, c.text);
    }

    method TryCall(turn: nat, c: CallInput) returns (result: ToolResult)
      modifies this, state
      ensures (Snapshot(), result) == Tried(cfg, old(Snapshot()), turn, c)
    {
      var name := c.call.name;
      CountCall(name);
      if name == "web_serp" {
        result := SearchWeb(c);
      } else if name == "web_scrape" {
        result := ScrapePage(c);
      } else if name == cfg.submitName {
        result := Judge(turn, c);
      } else {
        result := UnknownTool(name);
      }
    }

    method HandleCall(turn: nat, c: CallInput)
      modifies this, state
      ensures Snapshot() == HandledOne(cfg, old(Snapshot()), turn, c)
    {
      var result := TryCall(turn, c);
      messages := messages + [Tool(c.call.id, c.call.name, Cut(cfg.wording.reply(result)), turn, false)];
    }

    method HandleCalls(turn: nat, calls: seq<CallInput>)
      modifies this, state
      ensures Snapshot() == Handled(cfg, old(Snapshot()), turn, calls, |calls|)
    {
      for k := 0 to |calls|
        invariant Snapshot() == Handled(cfg, old(Snapshot()), turn, calls, k)
      {
        HandleCall(turn, calls[k]);
      }
    }

    method Ask(turn: nat)
      modifies this`messages, this`sent
      ensures Snapshot() == Asked(cfg, old(Snapshot()), turn)
    {
      var elided := SoftElide(turn);
      sent := sent + [StripMeta(messages)];
    }

    method AddUsage(prompt: nat, completion: nat)
      modifies this`promptTokens, this`completionTokens
      ensures Snapshot() == old(Snapshot()).(usage := Usage(old(promptTokens) + prompt,
                                                            old(completionTokens) + completion, lastPrompt))
    {
      promptTokens := promptTokens + prompt;
      completionTokens := completionTokens + completion;
    }

    method Charge(prompt: nat, completion: nat)
      modifies this`turnsDone, this`promptTokens, this`completionTokens, this`lastPrompt, this`perfLlm
      ensures Snapshot() == Charged(old(Snapshot()), prompt, completion)
    {
      turnsDone := turnsDone + 1;
      AddUsage(prompt, completion);
      lastPrompt := prompt;
      perfLlm := perfLlm + [Main(prompt, completion)];
    }

    // One iteration of the loop; the result says whether the loop is left.
    method RunTurn(turn: nat, input: TurnInput) returns (stopped: bool)
      requires |messages| >= 2
      modifies this, state
      ensures Outcome(Snapshot(), stopped) == Turn(cfg, old(Snapshot()), turn, input)
    {
      if input.pastDeadline {
        return true;
      }
      Ask(turn);
      if input.main.Raised? {
        perfLlm := perfLlm + [MainFailed];
        return true;
      }
      Charge(input.main.prompt, input.main.completion);
      stopped := Act(turn, input.main.content, input.main.calls, input);
    }

    // The rest of an iteration, once the model has replied.
    method Act(turn: nat, content: string, calls: seq<CallInput>, input: TurnInput) returns (stopped: bool)
      requires |messages| >= 2
      modifies this, state
      ensures Outcome(Snapshot(), stopped) == Acted(cfg, old(Snapshot()), turn, content, calls, input)
    {
      ghost var charged := Snapshot();
      messages := messages + [Assistant(content, CallsOf(calls))];
      if lastPrompt >= cfg.compactTrigger && state.compactionCount < cfg.maxCompactions {
        messages := messages[..|messages| - 1];
        assert messages == charged.messages;
        CompactContext(true, input.digest);
        return false;
      }
      if calls == [] {
        return true;
      }
      stopped := UseTools(turn, content, calls, input.postDigest, charged);
    }

    method UseTools(turn: nat, content: string, calls: seq<CallInput>, digest: Option<string>, ghost charged: Run)
      returns (stopped: bool)
      requires |charged.messages| >= 2
      requires Snapshot() == charged.(messages := charged.messages + [Assistant(content, CallsOf(calls))])
      modifies this, state
      ensures Outcome(Snapshot(), stopped) == Worked(cfg, charged, turn, content, calls, digest)
    {
      HandledGrows(cfg, Snapshot(), turn, calls, |calls|);
      HandleCalls(turn, calls);
      if accepted {
        return true;
      }
      if lastPrompt >= PostTrigger(cfg) && state.compactionCount < cfg.maxCompactions {
        CompactContext(false, digest);
      }
      stopped := promptTokens + completionTokens >= cfg.tokenCap;
    }

    method RunLoop(env: Env)
      requires Snapshot() == Start(cfg)
      modifies this, state
      ensures Snapshot() == Turns(cfg, env, cfg.turnsCap).run
    {
      for turn := 1 to cfg.turnsCap + 1
        invariant Outcome(Snapshot(), false) == Turns(cfg, env, turn - 1)
      {
        var stopped := RunTurn(turn, env.turns(turn));
        if stopped {
          StoppedStays(cfg, env, turn, cfg.turnsCap);
          break;
        }
      }
    }

    // The forced submission call; None unless it yields submitted arguments.
    method ForcedSubmit(forced: ForcedReply) returns (submitted: Option<Proposal>)
      requires Salvages(ToDesk(), cfg.rules)
      modifies this`sent, this`perfLlm, this`promptTokens, this`completionTokens
      ensures Snapshot() == Salvaged(cfg, old(Snapshot()), forced)
      ensures submitted == SubmittedBy(forced)
    {
      sent := sent + [StripMeta(messages) + [User(cfg.wording.force)]];
      if forced.ForcedRaised? {
        perfLlm := perfLlm + [ForcedFailed];
        return None;
      }
      AddUsage(forced.prompt, forced.completion);
      perfLlm := perfLlm + [Forced(forced.prompt, forced.completion)];
      return forced.submitted;
    }

    // What the forced submission leaves as the last proposal.
    method Salvage(forced: ForcedReply)
      modifies this`sent, this`perfLlm, this`promptTokens, this`completionTokens
      modifies this`lastAnswer, this`lastStructured, this`lastSources, state`submitAttempts
      ensures Snapshot().(desk := old(ToDesk())) == Salvaged(cfg, old(Snapshot()), forced)
      ensures ToDesk() == if Salvages(old(ToDesk()), cfg.rules) && SubmittedBy(forced).Some?
                          then old(ToDesk()).(attempts := old(state.submitAttempts) + 1,
                                              last := Overwritten(cfg.rules, old(ToDesk()).last,
                                                                  SubmittedBy(forced).value))
                          else old(ToDesk())
    {
      var schemaEmpty := cfg.rules.schema && lastStructured == None;
      var freeEmpty := !cfg.rules.schema && lastAnswer == "";
      if !accepted && (schemaEmpty || freeEmpty) {
        var submitted := ForcedSubmit(forced);
        if submitted.Some? {
          TakeProposal(submitted.value);
        }
      }
    }

    method Conclude() returns (report: Report)
      modifies this`finalAnswer, this`finalStructured, this`finalSources, this`finalCritic
      ensures var desk := old(ToDesk());
              report == if accepted then Report(true, desk.final, desk.finalCritic, desk.attempts)
                        else Report(false, desk.last, desk.lastCritic, desk.attempts)
      ensures Snapshot().(desk := old(ToDesk())) == old(Snapshot())
    {
      if !accepted {
        finalAnswer, finalStructured, finalSources, finalCritic := lastAnswer, lastStructured, lastSources, lastCritic;
      }
      report := Report(accepted, Proposal(finalAnswer, finalStructured, finalSources), finalCritic,
                       state.submitAttempts);
    }
  }

  /** `run_research`: the whole run, from an empty history to the report. Every list it sent to the model
      was well formed, the result is one submission's and few were turned down, and its tokens stayed
      within the cost wall. */
  method RunResearch(cfg: Config, env: Env) returns (report: Report, usage: Usage, compactions: nat, ghost end: Run)
    ensures end == Finished(cfg, env) && usage == end.usage && compactions == end.compactions
    ensures report == ReportOf(cfg, env)
    ensures forall i :: 0 <= i < |end.sent| ==> WellFormed(end.sent[i], cfg.system, cfg.question)
    ensures AccountsOk(end, cfg)
    ensures Rejections(end.desk.log) <= cfg.rules.maxRejects && OfMode(cfg.rules, report.result)
    ensures report.accepted ==> exists k :: IsLastAccepted(end.desk.log, k)
                                            && report.result == end.desk.log[k].proposal
                                            && report.critic == Some(end.desk.log[k].critic)
    ensures cfg.tokenCap > 0 ==> forall most: nat :: NoneAbove(end.calls, most) ==> CostsBounded(end, cfg, most)
    ensures forall k :: 0 <= k <= cfg.turnsCap && Turns(cfg, env, k).run.desk.accepted ==> end == Turns(cfg, env, k).run
    ensures forall i, j :: 0 <= i < j < |end.desk.log| && end.desk.log[i].turn < end.desk.log[j].turn ==>
              end.desk.log[i].reply.Rejected?
  {
    var run := new ResearchRun(cfg);
    run.RunLoop(env);
    run.Salvage(env.forced);
    report := run.Conclude();
    usage := Usage(run.promptTokens, run.completionTokens, run.lastPrompt);
    compactions := run.state.compactionCount;
    end := Finished(cfg, env);
    RunIsGood(cfg, env);
    AcceptanceEnds(cfg, env);
  }

  lemma AcceptanceEnds(cfg: Config, env: Env)
    ensures var end := Finished(cfg, env);
            && (forall k :: 0 <= k <= cfg.turnsCap && Turns(cfg, env, k).run.desk.accepted ==>
                end == Turns(cfg, env, k).run)
            && (forall i, j :: 0 <= i < j < |end.desk.log| && end.desk.log[i].turn < end.desk.log[j].turn ==>
                  end.desk.log[i].reply.Rejected?)
  {
    var end := Finished(cfg, env);
    forall k | 0 <= k <= cfg.turnsCap && Turns(cfg, env, k).run.desk.accepted ensures end == Turns(cfg, env, k).run {
      AgentLaws.AcceptanceEndsRun(cfg, env, k);
    }
    forall i, j | 0 <= i < j < |end.desk.log| && end.desk.log[i].turn < end.desk.log[j].turn
      ensures end.desk.log[i].reply.Rejected?
    {
      AgentLaws.EarlierTurnsRejected(cfg, env, i, j);
    }
  }

  lemma RunIsGood(cfg: Config, env: Env)
    ensures var end, report := Finished(cfg, env), ReportOf(cfg, env);
            && (forall i :: 0 <= i < |end.sent| ==> WellFormed(end.sent[i], cfg.system, cfg.question))
            && AccountsOk(end, cfg)
            && Rejections(end.desk.log) <= cfg.rules.maxRejects && OfMode(cfg.rules, report.result)
            && (report.accepted ==> exists k :: IsLastAccepted(end.desk.log, k)
                                                && report.result == end.desk.log[k].proposal
                                                && report.critic == Some(end.desk.log[k].critic))
            && (cfg.tokenCap > 0 ==> forall most: nat :: NoneAbove(end.calls, most) ==> CostsBounded(end, cfg, most))
  {
    var end := Finished(cfg, env);
    forall i | 0 <= i < |end.sent| ensures WellFormed(end.sent[i], cfg.system, cfg.question) {
      EveryCallIsWellFormed(cfg, env, i);
    }
    AccountsInv(cfg, env, cfg.turnsCap);
    ReturnedResultIsOneSubmission(cfg, env);
    if cfg.tokenCap > 0 {
      forall most: nat | NoneAbove(end.calls, most) ensures CostsBounded(end, cfg, most) {
        CostWall(cfg, env, most);
      }
    }
  }
}
