/** The agent loop of `run_research` as a function of what the model, the critic and the tools
    answer, and what holds over every run of it. */
module ResearchAgent {
  import opened Options
  import opened ChatHistory
  import opened ToolResults
  import opened AgentBooks
  import opened Submissions

  // How texts are rendered; `reply` is the JSON of a tool's result.
  datatype Wording = Wording(
    reply: ToolResult -> string,
    notice: string -> string,
    digest: (nat, string) -> string,
    note: int -> string,
    force: string)

  datatype Config = Config(
    system: string,
    question: string,
    submitName: string,
    turnsCap: nat,
    tokenCap: nat,
    compactTrigger: nat,
    maxCompactions: nat,
    elideAfter: nat,
    limits: Limits,
    rules: Rules,
    wording: Wording)

  const REPLY_MAX: nat := 8000

  function PostTrigger(cfg: Config): nat {
    cfg.compactTrigger * 85 / 100
  }

  function Cut(s: string): string {
    if |s| <= REPLY_MAX then s else s[..REPLY_MAX]
  }

  // ----- what the outside world answers -----

  // One tool call with its parsed arguments, and what the tool or the critic will say.
  datatype CallInput = CallInput(
    call: ToolCall,
    query: string,
    found: string,
    url: Url,
    ok: bool,
    text: string,
    submitted: Proposal,
    critic: CriticReply)

  datatype MainReply = Raised | Replied(prompt: nat, completion: nat, content: string, calls: seq<CallInput>)

  // `digest` and `postDigest` answer the compaction calls a turn may make; None when the call fails.
  datatype TurnInput = TurnInput(pastDeadline: bool, main: MainReply, digest: Option<string>,
                                 postDigest: Option<string>)

  datatype ForcedReply = ForcedRaised | ForcedReplied(prompt: nat, completion: nat, submitted: Option<Proposal>)

  datatype Env = Env(turns: nat -> TurnInput, forced: ForcedReply)

  // ----- the agent's state -----

  datatype Usage = Usage(prompt: nat, completion: nat, lastPrompt: nat)

  // The performance log, without the critic's and the rephraser's calls.
  datatype LlmCall =
    | Main(prompt: nat, completion: nat)
    | MainFailed
    | Compact(hard: bool, ok: bool)
    | Forced(prompt: nat, completion: nat)
    | ForcedFailed

  // `sent` is not kept by the agent: every message list given to the model.
  datatype Run = Run(
    messages: seq<Message>,
    books: Books,
    toolCalls: map<string, nat>,
    desk: Desk,
    compactions: nat,
    usage: Usage,
    calls: seq<LlmCall>,
    turnsDone: nat,
    sent: seq<seq<Message>>)

  function Start(cfg: Config): Run {
    Run([System(cfg.system), User(cfg.question)], NO_BOOKS, map[], EMPTY_DESK, 0, Usage(0, 0, 0), [], 0, [])
  }

  // ----- tool calls -----

  // The state with the call's effects, and the tool's result.
  function Tried(cfg: Config, s: Run, turn: nat, c: CallInput): (Run, ToolResult) {
    var name := c.call.name;
    var t := s.(toolCalls := Bumped(s.toolCalls, name));
    if name == "web_serp" then
      (t.(books := AfterSearch(t.books, cfg.limits, c.query)),
       SearchAnswer(t.books, cfg.limits, c.query, c.found, CountOf(t.toolCalls, "web_scrape")))
    else if name == "web_scrape" then
      (t.(books := AfterScrape(t.books, cfg.limits, c.url, c.ok)),
       ScrapeAnswer(t.books, cfg.limits, c.url, c.ok, c.text))
    else if name == cfg.submitName then
      (t.(desk := AfterSubmit(t.desk, cfg.rules, turn, c.submitted, CriticOf(c.critic))),
       Reply(cfg.rules, CriticOf(c.critic), t.desk.attempts + 1))
    else (t, UnknownTool(name))
  }

  function ToolMessage(cfg: Config, turn: nat, c: CallInput, result: ToolResult): Message {
    Tool(c.call.id, c.call.name, Cut(cfg.wording.reply(result)), turn, false)
  }

  function HandledOne(cfg: Config, s: Run, turn: nat, c: CallInput): Run {
    var (t, result) := Tried(cfg, s, turn, c);
    t.(messages := t.messages + [ToolMessage(cfg, turn, c, result)])
  }

  // The first `k` calls of a turn, in order.
  function Handled(cfg: Config, s: Run, turn: nat, calls: seq<CallInput>, k: nat): Run
    requires k <= |calls|
  {
    if k == 0 then s else HandledOne(cfg, Handled(cfg, s, turn, calls, k - 1), turn, calls[k - 1])
  }

  // ----- compaction -----

  function Compacted(cfg: Config, s: Run, hard: bool, digest: Option<string>): (r: Run)
    requires |s.messages| >= 2
    ensures |r.messages| >= 2
  {
    match digest
    case None => s.(calls := s.calls + [Compact(hard, false)])
    case Some(text) =>
      var n := s.compactions + 1;
      s.(messages := [s.messages[0], s.messages[1], Assistant(cfg.wording.digest(n, text), []),
                      User(cfg.wording.note(cfg.maxCompactions - n))],
         compactions := n,
         calls := s.calls + [Compact(hard, true)])
  }

  // ----- one turn -----

  datatype Outcome = Outcome(run: Run, stopped: bool)

  function CallsOf(cs: seq<CallInput>): (r: seq<ToolCall>)
    ensures |r| == |cs| && forall i :: 0 <= i < |cs| ==> r[i] == cs[i].call
  {
    seq(|cs|, i requires 0 <= i < |cs| => cs[i].call)
  }

  // Elided, stripped and sent.
  function Asked(cfg: Config, s: Run, turn: nat): Run {
    var ms := Elided(s.messages, turn - cfg.elideAfter, cfg.wording.notice);
    s.(messages := ms, sent := s.sent + [StripMeta(ms)])
  }

  function Charged(s: Run, prompt: nat, completion: nat): Run {
    s.(usage := Usage(s.usage.prompt + prompt, s.usage.completion + completion, prompt),
       calls := s.calls + [Main(prompt, completion)],
       turnsDone := s.turnsDone + 1)
  }

  function WithRounds(cfg: Config, s: Run, turn: nat, content: string, calls: seq<CallInput>): Run {
    Handled(cfg, s.(messages := s.messages + [Assistant(content, CallsOf(calls))]), turn, calls, |calls|)
  }

  function AfterTools(cfg: Config, s: Run, digest: Option<string>): (r: Run)
    requires |s.messages| >= 2
    ensures |r.messages| >= 2
  {
    if s.usage.lastPrompt >= PostTrigger(cfg) && s.compactions < cfg.maxCompactions
    then Compacted(cfg, s, false, digest) else s
  }

  // What follows a reply that made tool calls and triggered no hard compaction.
  function Worked(cfg: Config, s: Run, turn: nat, content: string, calls: seq<CallInput>,
                  digest: Option<string>): (r: Outcome)
    requires |s.messages| >= 2
    ensures |r.run.messages| >= 2
  {
    var t := WithRounds(cfg, s, turn, content, calls);
    HandledGrows(cfg, s.(messages := s.messages + [Assistant(content, CallsOf(calls))]), turn, calls, |calls|);
    if t.desk.accepted then Outcome(t, true)
    else
      var u := AfterTools(cfg, t, digest);
      Outcome(u, u.usage.prompt + u.usage.completion >= cfg.tokenCap)
  }

  // What follows a reply: hard compaction drops it, otherwise it is kept and its calls are made.
  function Acted(cfg: Config, s: Run, turn: nat, content: string, calls: seq<CallInput>, input: TurnInput): (r: Outcome)
    requires |s.messages| >= 2
    ensures |r.run.messages| >= 2
  {
    if s.usage.lastPrompt >= cfg.compactTrigger && s.compactions < cfg.maxCompactions
    then Outcome(Compacted(cfg, s, true, input.digest), false)
    else if calls == []
    then Outcome(s.(messages := s.messages + [Assistant(content, [])]), true)
    else Worked(cfg, s, turn, content, calls, input.postDigest)
  }

  function Turn(cfg: Config, s: Run, turn: nat, input: TurnInput): (r: Outcome)
    requires |s.messages| >= 2
    ensures |r.run.messages| >= 2
  {
    if input.pastDeadline then Outcome(s, true)
    else
      var a := Asked(cfg, s, turn);
      match input.main
      case Raised => Outcome(a.(calls := a.calls + [MainFailed]), true)
      case Replied(prompt, completion, content, calls) =>
        Acted(cfg, Charged(a, prompt, completion), turn, content, calls, input)
  }

  // The first `k` turns; nothing happens after a stop.
  function Turns(cfg: Config, env: Env, k: nat): (r: Outcome)
    ensures |r.run.messages| >= 2
  {
    if k == 0 then Outcome(Start(cfg), false)
    else
      var o := Turns(cfg, env, k - 1);
      if o.stopped then o else Turn(cfg, o.run, k, env.turns(k))
  }

  // ----- after the loop -----

  // The forced submission, made when nothing usable was proposed.
  function Salvaged(cfg: Config, s: Run, forced: ForcedReply): Run {
    if !Salvages(s.desk, cfg.rules) then s
    else
      var asked := s.(sent := s.sent + [StripMeta(s.messages) + [User(cfg.wording.force)]]);
      match forced
      case ForcedRaised => asked.(calls := asked.calls + [ForcedFailed])
      case ForcedReplied(prompt, completion, _) =>
        asked.(calls := asked.calls + [Forced(prompt, completion)],
               usage := Usage(s.usage.prompt + prompt, s.usage.completion + completion, s.usage.lastPrompt))
  }

  function SubmittedBy(forced: ForcedReply): Option<Proposal> {
    if forced.ForcedReplied? then forced.submitted else None
  }

  function Finished(cfg: Config, env: Env): Run {
    Salvaged(cfg, Turns(cfg, env, cfg.turnsCap).run, env.forced)
  }

  function ReportOf(cfg: Config, env: Env): Report {
    Concluded(Turns(cfg, env, cfg.turnsCap).run.desk, cfg.rules, SubmittedBy(env.forced))
  }

  // ----- induction over a run -----

  /** What holds at the start and is kept by every turn holds after any number of turns. */
  lemma {:induction false} TurnsPreserve(cfg: Config, env: Env, k: nat, holds: Run -> bool)
    requires holds(Start(cfg))
    requires forall s, turn: nat, input :: holds(s) && |s.messages| >= 2 ==> holds(Turn(cfg, s, turn, input).run)
    ensures holds(Turns(cfg, env, k).run)
  {
    if k > 0 {
      TurnsPreserve(cfg, env, k - 1, holds);
    }
  }

  lemma {:induction false} StoppedStays(cfg: Config, env: Env, j: nat, k: nat)
    requires j <= k && Turns(cfg, env, j).stopped
    ensures Turns(cfg, env, k) == Turns(cfg, env, j)
    decreases k - j
  {
    if j < k {
      StoppedStays(cfg, env, j + 1, k);
    }
  }

  // ----- what tool calls leave alone -----

  lemma {:induction false} HandledGrows(cfg: Config, s: Run, turn: nat, calls: seq<CallInput>, k: nat)
    requires k <= |calls|
    ensures |Handled(cfg, s, turn, calls, k).messages| == |s.messages| + k
  {
    if k > 0 {
      HandledGrows(cfg, s, turn, calls, k - 1);
    }
  }

  lemma {:induction false} HandledFrame(cfg: Config, s: Run, turn: nat, calls: seq<CallInput>, k: nat)
    requires k <= |calls|
    ensures var t := Handled(cfg, s, turn, calls, k);
            t.compactions == s.compactions && t.usage == s.usage && t.calls == s.calls && t.turnsDone == s.turnsDone
                && t.sent == s.sent
  {
    if k > 0 {
      HandledFrame(cfg, s, turn, calls, k - 1);
    }
  }

  // ----- the history -----

  ghost predicate HistoryOk(s: Run, cfg: Config) {
    && WellFormed(s.messages, cfg.system, cfg.question)
    && forall i :: 0 <= i < |s.sent| ==> WellFormed(s.sent[i], cfg.system, cfg.question)
  }

  lemma AnswersOneMore(calls: seq<ToolCall>, k: nat, replies: seq<Message>, m: Message)
    requires k < |calls| && Answers(calls[..k], replies)
    requires m.Tool? && m.callId == calls[k].id && m.name == calls[k].name
    ensures Answers(calls[..k + 1], replies + [m])
  {
    assert calls[..k + 1] == calls[..k] + [calls[k]];
  }

  lemma {:induction false} HandledReplies(cfg: Config, s: Run, turn: nat, calls: seq<CallInput>, k: nat)
    returns (replies: seq<Message>)
    requires k <= |calls|
    ensures Handled(cfg, s, turn, calls, k).messages == s.messages + replies
    ensures Answers(CallsOf(calls)[..k], replies)
  {
    replies := [];
    if k > 0 {
      var earlier := HandledReplies(cfg, s, turn, calls, k - 1);
      var m := OneReply(cfg, Handled(cfg, s, turn, calls, k - 1), turn, calls[k - 1]);
      replies := earlier + [m];
      AnswersOneMore(CallsOf(calls), k - 1, earlier, m);
      assert (s.messages + earlier) + [m] == s.messages + replies;
    }
  }

  lemma OneReply(cfg: Config, s: Run, turn: nat, c: CallInput) returns (m: Message)
    ensures HandledOne(cfg, s, turn, c).messages == s.messages + [m]
    ensures m.Tool? && m.callId == c.call.id && m.name == c.call.name
  {
    m := ToolMessage(cfg, turn, c, Tried(cfg, s, turn, c).1);
  }

  lemma RoundsKeepWellFormed(cfg: Config, s: Run, turn: nat, content: string, calls: seq<CallInput>)
    requires WellFormed(s.messages, cfg.system, cfg.question)
    ensures WellFormed(WithRounds(cfg, s, turn, content, calls).messages, cfg.system, cfg.question)
  {
    var asst := Assistant(content, CallsOf(calls));
    var asked := s.(messages := s.messages + [asst]);
    var replies := HandledReplies(cfg, asked, turn, calls, |calls|);
    assert CallsOf(calls)[..|calls|] == CallsOf(calls);
    OneRound(content, CallsOf(calls), replies);
    WellFormedExtends(s.messages, [asst] + replies, cfg.system, cfg.question);
    assert s.messages + ([asst] + replies) == asked.messages + replies;
  }

  lemma RoundsKeepHistory(cfg: Config, s: Run, turn: nat, content: string, calls: seq<CallInput>)
    requires HistoryOk(s, cfg)
    ensures HistoryOk(WithRounds(cfg, s, turn, content, calls), cfg)
  {
    RoundsKeepWellFormed(cfg, s, turn, content, calls);
    HandledFrame(cfg, s.(messages := s.messages + [Assistant(content, CallsOf(calls))]), turn, calls, |calls|);
  }

  lemma CompactionKeepsHistory(cfg: Config, s: Run, hard: bool, digest: Option<string>)
    requires HistoryOk(s, cfg)
    ensures HistoryOk(Compacted(cfg, s, hard, digest), cfg)
  {
    if digest.Some? {
      var ms := Compacted(cfg, s, hard, digest).messages;
      OneRound(ms[2].content, [], []);
      assert [ms[2]] + [] == [ms[2]] && [ms[3]][1..] == [];
      RoundsConcat([ms[2]], [ms[3]]);
      assert ms[2..] == [ms[2]] + [ms[3]];
    }
  }

  lemma AskingKeepsHistory(cfg: Config, s: Run, turn: nat)
    requires HistoryOk(s, cfg)
    ensures HistoryOk(Asked(cfg, s, turn), cfg)
  {
    var ms := Elided(s.messages, turn - cfg.elideAfter, cfg.wording.notice);
    WellFormedAlike(s.messages, ms, cfg.system, cfg.question);
    WellFormedAlike(ms, StripMeta(ms), cfg.system, cfg.question);
  }

  lemma TurnKeepsHistory(cfg: Config, s: Run, turn: nat, input: TurnInput)
    requires HistoryOk(s, cfg)
    ensures HistoryOk(Turn(cfg, s, turn, input).run, cfg)
  {
    var a := Asked(cfg, s, turn);
    AskingKeepsHistory(cfg, s, turn);
    if !input.pastDeadline && input.main.Replied? {
      var m := input.main;
      var b := Charged(a, m.prompt, m.completion);
      if m.prompt >= cfg.compactTrigger && b.compactions < cfg.maxCompactions {
        CompactionKeepsHistory(cfg, b, true, input.digest);
      } else if m.calls == [] {
        OneRound(m.content, [], []);
        assert [Assistant(m.content, [])] + [] == [Assistant(m.content, [])];
        WellFormedExtends(b.messages, [Assistant(m.content, [])], cfg.system, cfg.question);
      } else {
        RoundsKeepHistory(cfg, b, turn, m.content, m.calls);
        var t := WithRounds(cfg, b, turn, m.content, m.calls);
        CompactionKeepsHistory(cfg, t, false, input.postDigest);
      }
    }
  }

  lemma HistoryInv(cfg: Config, env: Env, k: nat)
    ensures HistoryOk(Turns(cfg, env, k).run, cfg)
  {
    forall s, turn: nat, input | HistoryOk(s, cfg) && |s.messages| >= 2
        ensures HistoryOk(Turn(cfg, s, turn, input).run, cfg) {
      TurnKeepsHistory(cfg, s, turn, input);
    }
    TurnsPreserve(cfg, env, k, s => HistoryOk(s, cfg));
  }

  lemma SalvageKeepsHistory(cfg: Config, s: Run, forced: ForcedReply)
    requires HistoryOk(s, cfg)
    ensures HistoryOk(Salvaged(cfg, s, forced), cfg)
  {
    var bare, force := StripMeta(s.messages), [User(cfg.wording.force)];
    WellFormedAlike(s.messages, bare, cfg.system, cfg.question);
    assert force[1..] == [];
    WellFormedExtends(bare, force, cfg.system, cfg.question);
  }

  /** Every list sent to the model, the forced submission's included, starts with the original system
      and user messages and pairs every tool call with its reply. */
  lemma EveryCallIsWellFormed(cfg: Config, env: Env, i: nat)
    requires i < |Finished(cfg, env).sent|
    ensures WellFormed(Finished(cfg, env).sent[i], cfg.system, cfg.question)
  {
    HistoryInv(cfg, env, cfg.turnsCap);
    SalvageKeepsHistory(cfg, Turns(cfg, env, cfg.turnsCap).run, env.forced);
  }

  // ----- the books and the desk -----

  ghost predicate AccountsOk(s: Run, cfg: Config) {
    BooksOk(s.books, cfg.limits) && DeskOk(s.desk, cfg.rules)
  }

  lemma CallKeepsAccounts(cfg: Config, s: Run, turn: nat, c: CallInput)
    requires AccountsOk(s, cfg)
    ensures AccountsOk(HandledOne(cfg, s, turn, c), cfg)
  {
    SearchKeepsBooks(s.books, cfg.limits, c.query);
    ScrapeKeepsBooks(s.books, cfg.limits, c.url, c.ok);
    SubmitKeepsReplies(s.desk, cfg.rules, turn, c.submitted, CriticOf(c.critic));
    SubmitKeepsHolders(s.desk, cfg.rules, turn, c.submitted, CriticOf(c.critic));
  }

  lemma {:induction false} CallsKeepAccounts(cfg: Config, s: Run, turn: nat, calls: seq<CallInput>, k: nat)
    requires AccountsOk(s, cfg) && k <= |calls|
    ensures AccountsOk(Handled(cfg, s, turn, calls, k), cfg)
  {
    if k > 0 {
      CallsKeepAccounts(cfg, s, turn, calls, k - 1);
      CallKeepsAccounts(cfg, Handled(cfg, s, turn, calls, k - 1), turn, calls[k - 1]);
    }
  }

  lemma TurnKeepsAccounts(cfg: Config, s: Run, turn: nat, input: TurnInput)
    requires AccountsOk(s, cfg) && |s.messages| >= 2
    ensures AccountsOk(Turn(cfg, s, turn, input).run, cfg)
  {
    if !input.pastDeadline && input.main.Replied? {
      var m := input.main;
      var b := Charged(Asked(cfg, s, turn), m.prompt, m.completion);
      CallsKeepAccounts(cfg, b.(messages := b.messages + [Assistant(m.content, CallsOf(m.calls))]), turn, m.calls,
                        |m.calls|);
    }
  }

  /** Visit, failure and query accounts are exact, and the submission desk is in order, after every
      turn of every run. */
  lemma AccountsInv(cfg: Config, env: Env, k: nat)
    ensures AccountsOk(Turns(cfg, env, k).run, cfg)
  {
    NoBooksOk(cfg.limits);
    forall s, turn: nat, input | AccountsOk(s, cfg) && |s.messages| >= 2
        ensures AccountsOk(Turn(cfg, s, turn, input).run, cfg) {
      TurnKeepsAccounts(cfg, s, turn, input);
    }
    TurnsPreserve(cfg, env, k, s => AccountsOk(s, cfg));
  }

  /** What a run returns comes from one submission of it, with that submission's critic if it was
      accepted; no more than `maxRejects` submissions were turned down. */
  lemma ReturnedResultIsOneSubmission(cfg: Config, env: Env)
    ensures var desk, report := Turns(cfg, env, cfg.turnsCap).run.desk, ReportOf(cfg, env);
            && Rejections(desk.log) <= cfg.rules.maxRejects
            && OfMode(cfg.rules, report.result)
            && (report.accepted ==> exists k :: IsLastAccepted(desk.log, k) && report.result == desk.log[k].proposal
                                                && report.critic == Some(desk.log[k].critic))
            && (report.accepted || report.result == NO_PROPOSAL
                || (desk.log != [] && report.result == desk.log[|desk.log| - 1].proposal)
                || (Salvages(desk, cfg.rules) && SubmittedBy(env.forced).Some?
                    && report.result == Offered(cfg.rules, SubmittedBy(env.forced).value)))
  {
    AccountsInv(cfg, env, cfg.turnsCap);
    var desk := Turns(cfg, env, cfg.turnsCap).run.desk;
    RejectionsAreBounded(desk, cfg.rules, |desk.log|);
    assert desk.log[..|desk.log|] == desk.log;
    ReportIsOneSubmission(desk, cfg.rules, SubmittedBy(env.forced));
    LastAcceptedIsLast(desk.log);
  }

  // ----- the cost wall -----

  function Tokens(c: LlmCall): nat {
    match c
    case Main(p, q) => p + q
    case Forced(p, q) => p + q
    case _ => 0
  }

  function Spent(calls: seq<LlmCall>): nat {
    if calls == [] then 0 else Spent(calls[..|calls| - 1]) + Tokens(calls[|calls| - 1])
  }

  function Count(calls: seq<LlmCall>, wanted: LlmCall): nat {
    if calls == [] then 0 else Count(calls[..|calls| - 1], wanted) + (if calls[|calls| - 1] == wanted then 1 else 0)
  }

  function HardTurns(calls: seq<LlmCall>): nat {
    Count(calls, Compact(true, true)) + Count(calls, Compact(true, false))
  }

  function FailedCompactions(calls: seq<LlmCall>): nat {
    Count(calls, Compact(true, false)) + Count(calls, Compact(false, false))
  }

  ghost predicate NoneAbove(calls: seq<LlmCall>, most: nat) {
    forall i :: 0 <= i < |calls| ==> Tokens(calls[i]) <= most
  }

  lemma Logged(calls: seq<LlmCall>, c: LlmCall)
    ensures Spent(calls + [c]) == Spent(calls) + Tokens(c)
    ensures forall wanted :: Count(calls + [c], wanted) == Count(calls, wanted) + (if c == wanted then 1 else 0)
  {
    assert (calls + [c])[..|calls|] == calls;
  }

  // Token counters and the compaction counter agree with the log.
  ghost predicate MetersOk(s: Run, cfg: Config) {
    && s.usage.prompt + s.usage.completion == Spent(s.calls)
    && s.compactions == Count(s.calls, Compact(true, true)) + Count(s.calls, Compact(false, true))
    && s.compactions <= cfg.maxCompactions
  }

  lemma CompactionKeepsMeters(cfg: Config, s: Run, hard: bool, digest: Option<string>)
    requires MetersOk(s, cfg) && |s.messages| >= 2 && s.compactions < cfg.maxCompactions
    ensures var t := Compacted(cfg, s, hard, digest);
            && MetersOk(t, cfg)
            && t.calls == s.calls + [Compact(hard, digest.Some?)]
            && Spent(t.calls) == Spent(s.calls)
            && HardTurns(t.calls) == HardTurns(s.calls) + (if hard then 1 else 0)
            && t.usage == s.usage
  {
    Logged(s.calls, Compact(hard, digest.Some?));
  }

  lemma ChargeKeepsMeters(cfg: Config, s: Run, turn: nat, prompt: nat, completion: nat)
    requires MetersOk(s, cfg)
    ensures var t := Charged(Asked(cfg, s, turn), prompt, completion);
            && MetersOk(t, cfg)
            && t.calls == s.calls + [Main(prompt, completion)]
            && Spent(t.calls) == Spent(s.calls) + prompt + completion
            && HardTurns(t.calls) == HardTurns(s.calls)
            && t.compactions == s.compactions
  {
    Logged(s.calls, Main(prompt, completion));
  }

  lemma RoundsKeepMeters(cfg: Config, s: Run, turn: nat, content: string, calls: seq<CallInput>)
    requires MetersOk(s, cfg)
    ensures var t := WithRounds(cfg, s, turn, content, calls);
            MetersOk(t, cfg) && t.calls == s.calls && t.usage == s.usage && t.compactions == s.compactions
  {
    HandledFrame(cfg, s.(messages := s.messages + [Assistant(content, CallsOf(calls))]), turn, calls, |calls|);
  }

  // How a turn moves the log: it appends; it costs at most one main call; a turn that goes on is a
  // hard compaction or ends below the token cap.
  ghost predicate TurnCost(cfg: Config, s: Run, o: Outcome, most: nat) {
    && MetersOk(o.run, cfg)
    && Spent(o.run.calls) <= Spent(s.calls) + most
    && HardTurns(s.calls) <= HardTurns(o.run.calls)
    && (!o.stopped ==> HardTurns(o.run.calls) == HardTurns(s.calls) + 1 || Spent(o.run.calls) < cfg.tokenCap)
  }

  ghost predicate Extends(longer: seq<LlmCall>, shorter: seq<LlmCall>) {
    |shorter| <= |longer| && longer[..|shorter|] == shorter
  }

  lemma WorkedCost(cfg: Config, s: Run, turn: nat, content: string, calls: seq<CallInput>, digest: Option<string>)
    requires MetersOk(s, cfg) && |s.messages| >= 2
    ensures var o := Worked(cfg, s, turn, content, calls, digest);
            && MetersOk(o.run, cfg)
            && Extends(o.run.calls, s.calls)
            && Spent(o.run.calls) == Spent(s.calls)
            && HardTurns(o.run.calls) == HardTurns(s.calls)
            && (!o.stopped ==> Spent(o.run.calls) < cfg.tokenCap)
  {
    RoundsKeepMeters(cfg, s, turn, content, calls);
    var t := WithRounds(cfg, s, turn, content, calls);
    HandledGrows(cfg, s.(messages := s.messages + [Assistant(content, CallsOf(calls))]), turn, calls, |calls|);
    if t.compactions < cfg.maxCompactions {
      CompactionKeepsMeters(cfg, t, false, digest);
    }
  }

  lemma ActedCost(cfg: Config, s: Run, turn: nat, content: string, calls: seq<CallInput>, input: TurnInput)
    requires MetersOk(s, cfg) && |s.messages| >= 2
    ensures var o := Acted(cfg, s, turn, content, calls, input);
            && MetersOk(o.run, cfg)
            && Extends(o.run.calls, s.calls)
            && Spent(o.run.calls) == Spent(s.calls)
            && HardTurns(s.calls) <= HardTurns(o.run.calls)
            && (!o.stopped ==> HardTurns(o.run.calls) == HardTurns(s.calls) + 1 || Spent(o.run.calls) < cfg.tokenCap)
  {
    if s.usage.lastPrompt >= cfg.compactTrigger && s.compactions < cfg.maxCompactions {
      CompactionKeepsMeters(cfg, s, true, input.digest);
    } else if calls != [] {
      WorkedCost(cfg, s, turn, content, calls, input.postDigest);
    }
  }

  lemma LoggedCall(longer: seq<LlmCall>, calls: seq<LlmCall>, c: LlmCall)
    requires Extends(longer, calls + [c])
    ensures Extends(longer, calls) && longer[|calls|] == c
  {
    assert longer[..|calls| + 1][..|calls|] == longer[..|calls|];
    assert longer[..|calls| + 1][|calls|] == longer[|calls|];
  }

  // A turn appends to the log, and its first entry is the main call.
  lemma TurnExtendsLog(cfg: Config, s: Run, turn: nat, input: TurnInput)
    requires MetersOk(s, cfg) && |s.messages| >= 2
    ensures var calls := Turn(cfg, s, turn, input).run.calls;
            && Extends(calls, s.calls)
            && (!input.pastDeadline && input.main.Replied? ==>
                  |s.calls| < |calls| && calls[|s.calls|] == Main(input.main.prompt, input.main.completion))
  {
    if !input.pastDeadline && input.main.Replied? {
      var m := input.main;
      ChargeKeepsMeters(cfg, s, turn, m.prompt, m.completion);
      ActedCost(cfg, Charged(Asked(cfg, s, turn), m.prompt, m.completion), turn, m.content, m.calls, input);
      LoggedCall(Turn(cfg, s, turn, input).run.calls, s.calls, Main(m.prompt, m.completion));
    }
  }

  lemma TurnCosts(cfg: Config, s: Run, turn: nat, input: TurnInput, most: nat)
    requires MetersOk(s, cfg) && |s.messages| >= 2
    requires NoneAbove(Turn(cfg, s, turn, input).run.calls, most)
    ensures TurnCost(cfg, s, Turn(cfg, s, turn, input), most)
  {
    if !input.pastDeadline {
      if input.main.Raised? {
        Logged(s.calls, MainFailed);
      } else {
        var m := input.main;
        TurnExtendsLog(cfg, s, turn, input);
        assert Tokens(Turn(cfg, s, turn, input).run.calls[|s.calls|]) <= most;
        ChargeKeepsMeters(cfg, s, turn, m.prompt, m.completion);
        ActedCost(cfg, Charged(Asked(cfg, s, turn), m.prompt, m.completion), turn, m.content, m.calls, input);
      }
    }
  }

  lemma MetersInv(cfg: Config, env: Env, k: nat)
    ensures MetersOk(Turns(cfg, env, k).run, cfg)
  {
    forall s, turn: nat, input | MetersOk(s, cfg) && |s.messages| >= 2
        ensures MetersOk(Turn(cfg, s, turn, input).run, cfg) {
      TurnHasMeters(cfg, s, turn, input);
    }
    TurnsPreserve(cfg, env, k, s => MetersOk(s, cfg));
  }

  lemma TurnHasMeters(cfg: Config, s: Run, turn: nat, input: TurnInput)
    requires MetersOk(s, cfg) && |s.messages| >= 2
    ensures MetersOk(Turn(cfg, s, turn, input).run, cfg)
  {
    var most := Highest(Turn(cfg, s, turn, input).run.calls);
    TurnCosts(cfg, s, turn, input, most);
  }

  lemma {:induction false} Highest(calls: seq<LlmCall>) returns (most: nat)
    ensures NoneAbove(calls, most)
  {
    most := 0;
    if calls != [] {
      var earlier := Highest(calls[..|calls| - 1]);
      var last := Tokens(calls[|calls| - 1]);
      most := if earlier < last then last else earlier;
      forall i | 0 <= i < |calls| ensures Tokens(calls[i]) <= most {
        assert i < |calls| - 1 ==> calls[..|calls| - 1][i] == calls[i];
      }
    }
  }

  // `cap` plus `n` times `most`.
  function Budget(cap: nat, n: nat, most: nat): nat {
    if n == 0 then cap else Budget(cap, n - 1, most) + most
  }

  lemma {:induction false} BudgetGrows(cap: nat, n: nat, m: nat, most: nat)
    requires n <= m
    ensures Budget(cap, n, most) <= Budget(cap, m, most)
    decreases m
  {
    if n < m {
      BudgetGrows(cap, n, m - 1, most);
    }
  }

  lemma {:induction false} BudgetIsProduct(cap: nat, n: nat, most: nat)
    ensures Budget(cap, n, most) == cap + n * most
  {
    if n > 0 {
      BudgetIsProduct(cap, n - 1, most);
      assert n * most == (n - 1) * most + most;
    }
  }

  // One main call may follow the last turn that ended below the cap.
  ghost predicate Within(calls: seq<LlmCall>, cap: nat, extra: nat, most: nat) {
    Spent(calls) < Budget(cap, HardTurns(calls) + extra, most)
  }

  lemma BudgetStep(cap: nat, most: nat, hard: nat, spent: nat, hard': nat, spent': nat, stopped: bool)
    requires spent < Budget(cap, hard, most) && spent' <= spent + most && hard <= hard'
    requires !stopped ==> hard' == hard + 1 || spent' < cap
    ensures spent' < Budget(cap, hard' + (if stopped then 1 else 0), most)
  {
    BudgetGrows(cap, hard, hard', most);
    BudgetGrows(cap, 0, hard', most);
  }

  lemma NoneAbovePrefix(longer: seq<LlmCall>, shorter: seq<LlmCall>, most: nat)
    requires Extends(longer, shorter) && NoneAbove(longer, most)
    ensures NoneAbove(shorter, most)
  {
    forall i | 0 <= i < |shorter| ensures Tokens(shorter[i]) <= most {
      assert longer[..|shorter|][i] == longer[i];
    }
  }

  // From one outcome of a run to the next.
  ghost predicate IsStep(cfg: Config, o: Outcome, o': Outcome) {
    if o.stopped then o' == o
    else
      && MetersOk(o.run, cfg)
      && Extends(o'.run.calls, o.run.calls)
      && forall most: nat :: NoneAbove(o'.run.calls, most) ==> TurnCost(cfg, o.run, o', most)
  }

  ghost predicate StepAt(cfg: Config, outs: nat -> Outcome, k: nat) {
    IsStep(cfg, outs(k), outs(k + 1))
  }

  lemma TurnIsStep(cfg: Config, s: Run, turn: nat, input: TurnInput)
    requires MetersOk(s, cfg) && |s.messages| >= 2
    ensures IsStep(cfg, Outcome(s, false), Turn(cfg, s, turn, input))
  {
    TurnExtendsLog(cfg, s, turn, input);
    forall most: nat | NoneAbove(Turn(cfg, s, turn, input).run.calls, most)
      ensures TurnCost(cfg, s, Turn(cfg, s, turn, input), most)
    {
      TurnCosts(cfg, s, turn, input, most);
    }
  }

  lemma TurnsAreSteps(cfg: Config, env: Env, k: nat)
    ensures IsStep(cfg, Turns(cfg, env, k), Turns(cfg, env, k + 1))
  {
    var o := Turns(cfg, env, k);
    if !o.stopped {
      MetersInv(cfg, env, k);
      TurnIsStep(cfg, o.run, k + 1, env.turns(k + 1));
      assert o == Outcome(o.run, false);
    }
  }

  lemma StepStaysWithin(cfg: Config, o: Outcome, o': Outcome, most: nat)
    requires !o.stopped && Within(o.run.calls, cfg.tokenCap, 0, most) && TurnCost(cfg, o.run, o', most)
    ensures Within(o'.run.calls, cfg.tokenCap, if o'.stopped then 1 else 0, most)
  {
    BudgetStep(cfg.tokenCap, most, HardTurns(o.run.calls), Spent(o.run.calls), HardTurns(o'.run.calls),
               Spent(o'.run.calls), o'.stopped);
  }

  lemma {:induction false} CostOfSteps(cfg: Config, outs: nat -> Outcome, k: nat, most: nat)
    requires cfg.tokenCap > 0 && NoneAbove(outs(k).run.calls, most)
    requires outs(0) == Outcome(Start(cfg), false)
    requires forall j: nat :: StepAt(cfg, outs, j)
    ensures Within(outs(k).run.calls, cfg.tokenCap, if outs(k).stopped then 1 else 0, most)
  {
    if k > 0 {
      assert StepAt(cfg, outs, k - 1);
      var o := outs(k - 1);
      if o.stopped {
        CostOfSteps(cfg, outs, k - 1, most);
      } else {
        NoneAbovePrefix(outs(k).run.calls, o.run.calls, most);
        CostOfSteps(cfg, outs, k - 1, most);
        StepStaysWithin(cfg, o, outs(k), most);
      }
    }
  }

  lemma CostInv(cfg: Config, env: Env, k: nat, most: nat)
    requires cfg.tokenCap > 0
    ensures var o := Turns(cfg, env, k);
            NoneAbove(o.run.calls, most) ==> Within(o.run.calls, cfg.tokenCap, if o.stopped then 1 else 0, most)
  {
    var outs: nat -> Outcome := (j: nat) => Turns(cfg, env, j);
    forall j: nat ensures StepAt(cfg, outs, j) { TurnsAreSteps(cfg, env, j); }
    if NoneAbove(outs(k).run.calls, most) {
      CostOfSteps(cfg, outs, k, most);
    }
  }

  lemma OneCallMore(calls: seq<LlmCall>, c: LlmCall, cap: nat, extra: nat, most: nat)
    requires Within(calls, cap, extra, most) && extra <= 1
    ensures Within(calls, cap, 2, most)
    ensures Tokens(c) <= most && !c.Compact? ==> Within(calls + [c], cap, 2, most)
  {
    Logged(calls, c);
    BudgetGrows(cap, HardTurns(calls) + extra, HardTurns(calls) + 1, most);
  }

  lemma SalvageKeepsMeters(cfg: Config, s: Run, forced: ForcedReply) returns (c: LlmCall)
    requires MetersOk(s, cfg)
    ensures !c.Compact?
    ensures var t := Salvaged(cfg, s, forced);
            && MetersOk(t, cfg)
            && Extends(t.calls, s.calls)
            && (t.calls == s.calls || t.calls == s.calls + [c])
  {
    c := match forced case ForcedRaised => ForcedFailed case ForcedReplied(p, q, _) => Forced(p, q);
    Logged(s.calls, c);
  }

  lemma SalvageStaysWithin(calls: seq<LlmCall>, calls': seq<LlmCall>, c: LlmCall, cap: nat, extra: nat, most: nat)
    requires !c.Compact? && (calls' == calls || calls' == calls + [c])
    requires Within(calls, cap, extra, most) && extra <= 1 && NoneAbove(calls', most)
    ensures Within(calls', cap, 2, most)
  {
    if calls' != calls {
      assert calls'[|calls|] == c;
    }
    OneCallMore(calls, c, cap, extra, most);
  }

  ghost predicate CostsBounded(s: Run, cfg: Config, most: nat) {
    && s.usage.prompt + s.usage.completion == Spent(s.calls)
    && Spent(s.calls) < cfg.tokenCap + (HardTurns(s.calls) + 2) * most
    && HardTurns(s.calls) <= cfg.maxCompactions + FailedCompactions(s.calls)
    && s.compactions <= cfg.maxCompactions
  }

  lemma SalvageCost(cfg: Config, o: Outcome, forced: ForcedReply, most: nat)
    requires MetersOk(o.run, cfg) && NoneAbove(Salvaged(cfg, o.run, forced).calls, most)
    requires NoneAbove(o.run.calls, most) ==> Within(o.run.calls, cfg.tokenCap, if o.stopped then 1 else 0, most)
    ensures CostsBounded(Salvaged(cfg, o.run, forced), cfg, most)
  {
    var s := Salvaged(cfg, o.run, forced);
    var c := SalvageKeepsMeters(cfg, o.run, forced);
    NoneAbovePrefix(s.calls, o.run.calls, most);
    SalvageStaysWithin(o.run.calls, s.calls, c, cfg.tokenCap, if o.stopped then 1 else 0, most);
    BudgetIsProduct(cfg.tokenCap, HardTurns(s.calls) + 2, most);
  }

  /** The cost wall: over a whole run, main tokens stay below the cap plus one largest call for each
      hard-compaction turn and two more; those turns are at most `maxCompactions` plus the failed
      compaction calls, and no more than `maxCompactions` compactions succeed. */
  lemma CostWall(cfg: Config, env: Env, most: nat)
    requires cfg.tokenCap > 0 && NoneAbove(Finished(cfg, env).calls, most)
    ensures CostsBounded(Finished(cfg, env), cfg, most)
  {
    MetersInv(cfg, env, cfg.turnsCap);
    CostInv(cfg, env, cfg.turnsCap, most);
    SalvageCost(cfg, Turns(cfg, env, cfg.turnsCap), env.forced, most);
  }

  // ----- the cost wall is attained -----

  function Used(s: Run): nat {
    s.usage.prompt + s.usage.completion
  }

  /** The only way past the cap: a turn goes on with the cap reached exactly when its own reply triggered
      a hard compaction and brought the tokens to the cap. */
  lemma GoesOnAboveCapExactlyWhen(cfg: Config, s: Run, turn: nat, input: TurnInput)
    requires |s.messages| >= 2
    ensures var o := Turn(cfg, s, turn, input);
            !o.stopped && Used(o.run) >= cfg.tokenCap <==>
            && !input.pastDeadline && input.main.Replied?
            && input.main.prompt >= cfg.compactTrigger && s.compactions < cfg.maxCompactions
            && Used(s) + input.main.prompt + input.main.completion >= cfg.tokenCap
  {
    if !input.pastDeadline && input.main.Replied? {
      var b := Charged(Asked(cfg, s, turn), input.main.prompt, input.main.completion);
      var asked := b.(messages := b.messages + [Assistant(input.main.content, CallsOf(input.main.calls))]);
      HandledFrame(cfg, asked, turn, input.main.calls, |input.main.calls|);
    }
  }

  // A search that goes on, a hard compaction that fails, a reply without tool calls.
  const ONE_SEARCH: CallInput :=
    CallInput(ToolCall("1", "web_serp", "{}"), "", "", "", false, "", NO_PROPOSAL, Unreachable(""))

  function Cheap(tokens: nat): TurnInput {
    TurnInput(false, Replied(0, tokens, "", [ONE_SEARCH]), None, None)
  }

  function Overrun(tokens: nat): TurnInput {
    TurnInput(false, Replied(tokens, 0, "", []), None, None)
  }

  function Closing(tokens: nat): TurnInput {
    TurnInput(false, Replied(0, tokens, "", []), None, None)
  }

  // A cheap turn just below the cap, `hard` overruns, a closing turn, and the forced submission.
  function Costliest(cfg: Config, hard: nat, most: nat): Env
    requires cfg.tokenCap > 0
  {
    Env((k: nat) => if k <= 1 then Cheap(cfg.tokenCap - 1) else if k <= hard + 1 then Overrun(most) else Closing(most),
        ForcedReplied(0, most, None))
  }

  ghost predicate SpentExactly(s: Run, cfg: Config, hard: nat, tokens: nat, most: nat) {
    && MetersOk(s, cfg) && NoneAbove(s.calls, most)
    && Spent(s.calls) == tokens
    && HardTurns(s.calls) == hard
    && s.compactions == 0
    && s.desk == EMPTY_DESK
    && |s.messages| >= 2
  }

  lemma NoneAboveOneMore(calls: seq<LlmCall>, c: LlmCall, most: nat)
    requires NoneAbove(calls, most) && Tokens(c) <= most
    ensures NoneAbove(calls + [c], most)
  {
  }

  // What handling one search leaves alone.
  lemma SearchHandled(cfg: Config, s: Run, turn: nat)
    ensures var t := Handled(cfg, s, turn, [ONE_SEARCH], 1);
            && t.desk == s.desk && t.compactions == s.compactions && t.usage == s.usage && t.calls == s.calls
            && |t.messages| == |s.messages| + 1
  {
    HandledFrame(cfg, s, turn, [ONE_SEARCH], 1);
    HandledGrows(cfg, s, turn, [ONE_SEARCH], 1);
    assert Handled(cfg, s, turn, [ONE_SEARCH], 0) == s;
    assert Handled(cfg, s, turn, [ONE_SEARCH], 1) == HandledOne(cfg, s, turn, ONE_SEARCH);
  }

  // A search after a cheap reply triggers nothing and does not end the run below the cap.
  lemma CheapWork(cfg: Config, s: Run, turn: nat)
    requires |s.messages| >= 2 && s.desk == EMPTY_DESK && s.usage.lastPrompt == 0
    requires cfg.compactTrigger > 1 && Used(s) < cfg.tokenCap
    ensures var o := Worked(cfg, s, turn, "", [ONE_SEARCH], None);
            && !o.stopped && o.run.calls == s.calls && o.run.usage == s.usage && o.run.compactions == s.compactions
            && o.run.desk == s.desk
  {
    SearchHandled(cfg, s.(messages := s.messages + [Assistant("", CallsOf([ONE_SEARCH]))]), turn);
  }

  lemma CheapTurn(cfg: Config, most: nat)
    requires cfg.tokenCap > 0 && most >= cfg.tokenCap - 1 && cfg.compactTrigger > 1 && cfg.maxCompactions > 0
    ensures var o := Turn(cfg, Start(cfg), 1, Cheap(cfg.tokenCap - 1));
            !o.stopped && SpentExactly(o.run, cfg, 0, cfg.tokenCap - 1, most)
  {
    var tokens := cfg.tokenCap - 1;
    ChargeKeepsMeters(cfg, Start(cfg), 1, 0, tokens);
    NoneAboveOneMore([], Main(0, tokens), most);
    CheapWork(cfg, Charged(Asked(cfg, Start(cfg), 1), 0, tokens), 1);
  }

  lemma OverrunTurn(cfg: Config, s: Run, turn: nat, hard: nat, tokens: nat, most: nat)
    requires SpentExactly(s, cfg, hard, tokens, most) && most >= cfg.compactTrigger && cfg.maxCompactions > 0
    ensures var o := Turn(cfg, s, turn, Overrun(most));
            !o.stopped && SpentExactly(o.run, cfg, hard + 1, tokens + most, most)
  {
    var b := Charged(Asked(cfg, s, turn), most, 0);
    ChargeKeepsMeters(cfg, s, turn, most, 0);
    NoneAboveOneMore(s.calls, Main(most, 0), most);
    CompactionKeepsMeters(cfg, b, true, None);
    NoneAboveOneMore(b.calls, Compact(true, false), most);
  }

  lemma ClosingTurn(cfg: Config, s: Run, turn: nat, hard: nat, tokens: nat, most: nat)
    requires SpentExactly(s, cfg, hard, tokens, most) && cfg.compactTrigger > 0
    ensures var o := Turn(cfg, s, turn, Closing(most));
            o.stopped && SpentExactly(o.run, cfg, hard, tokens + most, most)
  {
    ChargeKeepsMeters(cfg, s, turn, 0, most);
    NoneAboveOneMore(s.calls, Main(0, most), most);
  }

  lemma {:induction false} OverrunTurns(cfg: Config, hard: nat, most: nat, k: nat)
    requires cfg.tokenCap > 0 && most >= cfg.tokenCap - 1 && 1 < cfg.compactTrigger <= most && cfg.maxCompactions > 0
    requires k <= hard
    ensures var o := Turns(cfg, Costliest(cfg, hard, most), k + 1);
            !o.stopped && SpentExactly(o.run, cfg, k, Budget(cfg.tokenCap - 1, k, most), most)
  {
    var env := Costliest(cfg, hard, most);
    if k == 0 {
      CheapTurn(cfg, most);
      assert Turns(cfg, env, 0) == Outcome(Start(cfg), false);
      assert env.turns(1) == Cheap(cfg.tokenCap - 1);
    } else {
      OverrunTurns(cfg, hard, most, k - 1);
      OverrunTurn(cfg, Turns(cfg, env, k).run, k + 1, k - 1, Budget(cfg.tokenCap - 1, k - 1, most), most);
      assert env.turns(k + 1) == Overrun(most);
    }
  }

  lemma LastTurn(cfg: Config, hard: nat, most: nat)
    requires cfg.tokenCap > 0 && most >= cfg.tokenCap - 1 && 1 < cfg.compactTrigger <= most && cfg.maxCompactions > 0
    ensures SpentExactly(Turns(cfg, Costliest(cfg, hard, most), hard + 2).run, cfg, hard,
                         Budget(cfg.tokenCap - 1, hard + 1, most), most)
  {
    var env := Costliest(cfg, hard, most);
    OverrunTurns(cfg, hard, most, hard);
    ClosingTurn(cfg, Turns(cfg, env, hard + 1).run, hard + 2, hard, Budget(cfg.tokenCap - 1, hard, most), most);
    assert env.turns(hard + 2) == Closing(most);
  }

  /** The bound of the cost wall is attained, for any number of hard-compaction turns. */
  lemma CostWallIsAttained(cfg: Config, hard: nat, most: nat)
    requires cfg.tokenCap > 0 && most >= cfg.tokenCap - 1 && 1 < cfg.compactTrigger <= most && cfg.maxCompactions > 0
    requires cfg.turnsCap == hard + 2
    ensures var s := Finished(cfg, Costliest(cfg, hard, most));
            && NoneAbove(s.calls, most) && HardTurns(s.calls) == hard
            && Used(s) == cfg.tokenCap + (hard + 2) * most - 1
  {
    LastTurn(cfg, hard, most);
    SalvageSpends(cfg, Turns(cfg, Costliest(cfg, hard, most), hard + 2).run, hard,
                  Budget(cfg.tokenCap - 1, hard + 1, most), most);
    BudgetIsProduct(cfg.tokenCap - 1, hard + 2, most);
  }

  lemma SalvageSpends(cfg: Config, s: Run, hard: nat, tokens: nat, most: nat)
    requires SpentExactly(s, cfg, hard, tokens, most)
    ensures var t := Salvaged(cfg, s, ForcedReplied(0, most, None));
            NoneAbove(t.calls, most) && HardTurns(t.calls) == hard && Used(t) == tokens + most
  {
    SalvageLogs(cfg, s, most);
    ForcedIsNotHard(s.calls, most);
    NoneAboveOneMore(s.calls, Forced(0, most), most);
  }

  lemma SalvageLogs(cfg: Config, s: Run, most: nat)
    requires s.desk == EMPTY_DESK
    ensures var t := Salvaged(cfg, s, ForcedReplied(0, most, None));
            t.calls == s.calls + [Forced(0, most)] && Used(t) == Used(s) + most
  {
  }

  lemma ForcedIsNotHard(calls: seq<LlmCall>, most: nat)
    ensures HardTurns(calls + [Forced(0, most)]) == HardTurns(calls)
  {
    Logged(calls, Forced(0, most));
  }
}
