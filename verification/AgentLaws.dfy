/** What a turn of the agent does, read off its inputs: when it ends the run, what it costs, what it sends,
    what it keeps of the history, and what each tool call changes. */
module AgentLaws {
  import opened Options
  import opened ChatHistory
  import opened ToolResults
  import opened AgentBooks
  import opened Submissions
  import opened ResearchAgent

  // The turn's reply triggered a hard compaction.
  predicate HardCompacts(cfg: Config, s: Run, input: TurnInput) {
    input.main.Replied? && input.main.prompt >= cfg.compactTrigger && s.compactions < cfg.maxCompactions
  }

  // The history with the model's reply, before its tool calls are handled.
  function WithReply(cfg: Config, s: Run, turn: nat, m: MainReply): Run
    requires m.Replied?
  {
    var b := Charged(Asked(cfg, s, turn), m.prompt, m.completion);
    b.(messages := b.messages + [Assistant(m.content, CallsOf(m.calls))])
  }

  // ----- ends and costs -----

  /** A run ends with this turn exactly when the deadline has passed, the call failed, or a reply that
      triggered no hard compaction made no tool call, left a submission accepted, or reached the token cap. */
  lemma StopsExactlyWhen(cfg: Config, s: Run, turn: nat, input: TurnInput)
    requires |s.messages| >= 2
    ensures var o, m := Turn(cfg, s, turn, input), input.main;
            o.stopped <==>
              || input.pastDeadline || m.Raised?
              || (!HardCompacts(cfg, s, input) &&
                  (m.calls == [] || o.run.desk.accepted || Used(s) + m.prompt + m.completion >= cfg.tokenCap))
  {
    if !input.pastDeadline && input.main.Replied? {
      HandledFrame(cfg, WithReply(cfg, s, turn, input.main), turn, input.main.calls, |input.main.calls|);
    }
  }

  /** Only a reply is charged, once, and the last prompt is its prompt. */
  lemma TurnCharges(cfg: Config, s: Run, turn: nat, input: TurnInput)
    requires |s.messages| >= 2
    ensures var t, m := Turn(cfg, s, turn, input).run, input.main;
            if input.pastDeadline || m.Raised? then t.usage == s.usage && t.turnsDone == s.turnsDone
            else
              && t.usage.prompt == s.usage.prompt + m.prompt
              && t.usage.completion == s.usage.completion + m.completion
              && t.usage.lastPrompt == m.prompt
              && t.turnsDone == s.turnsDone + 1
  {
    if !input.pastDeadline && input.main.Replied? {
      HandledFrame(cfg, WithReply(cfg, s, turn, input.main), turn, input.main.calls, |input.main.calls|);
    }
  }

  // ----- what is sent -----

  // A list sent is the history, without private keys; old, long scrape results not elided before are notices.
  ghost predicate SendsHistory(cfg: Config, history: seq<Message>, turn: nat, list: seq<Message>) {
    && AllAlike(history, list)
    && forall i :: 0 <= i < |history| && history[i].Tool? ==>
         && !list[i].elided && list[i].turn == 0
         && var m := history[i];
            list[i].content == if m.name == "web_scrape" && m.turn + cfg.elideAfter <= turn && !m.elided
                && |m.content| > 400
                               then cfg.wording.notice(m.content) else m.content
  }

  lemma AskedSendsHistory(cfg: Config, s: Run, turn: nat)
    ensures var t := Asked(cfg, s, turn);
            && |t.sent| == |s.sent| + 1 && t.sent[..|s.sent|] == s.sent
            && SendsHistory(cfg, s.messages, turn, t.sent[|s.sent|])
            && AllAlike(s.messages, t.messages)
            && forall i :: 0 <= i < |t.messages| ==>
                 && t.messages[i].content == t.sent[|s.sent|][i].content
                 && (t.messages[i].content != s.messages[i].content ==> t.messages[i].Tool? && t.messages[i].elided)
  {
  }

  /** Before the deadline each turn sends one list, the history; after it none. */
  lemma TurnSendsHistory(cfg: Config, s: Run, turn: nat, input: TurnInput)
    requires |s.messages| >= 2
    ensures var t := Turn(cfg, s, turn, input).run;
            if input.pastDeadline then t.sent == s.sent
            else |t.sent| == |s.sent| + 1 && t.sent[..|s.sent|] == s.sent
                 && SendsHistory(cfg, s.messages, turn, t.sent[|s.sent|])
  {
    AskedSendsHistory(cfg, s, turn);
    if !input.pastDeadline && input.main.Replied? {
      HandledFrame(cfg, WithReply(cfg, s, turn, input.main), turn, input.main.calls, |input.main.calls|);
    }
  }

  /** The forced submission sends the history and the forcing message. */
  lemma SalvageSendsHistory(cfg: Config, s: Run, forced: ForcedReply)
    requires !s.desk.accepted
    requires if cfg.rules.schema then s.desk.last.structured == None else s.desk.last.answer == ""
    ensures var t := Salvaged(cfg, s, forced);
            && |t.sent| == |s.sent| + 1 && t.sent[..|s.sent|] == s.sent
            && var list, n := t.sent[|s.sent|], |s.messages|;
               && |list| == n + 1 && list[n] == User(cfg.wording.force) && AllAlike(s.messages, list[..n])
               && forall i :: 0 <= i < n ==> list[i].content == s.messages[i].content
  {
    var bare := StripMeta(s.messages);
    assert (bare + [User(cfg.wording.force)])[..|s.messages|] == bare;
  }

  // ----- what is kept -----

  ghost predicate KeepsPrefix(before: seq<Message>, after: seq<Message>) {
    |before| <= |after| && forall i :: 0 <= i < |before| ==> Alike(before[i], after[i])
  }

  lemma HandledKeepsPrefix(cfg: Config, s: Run, turn: nat, calls: seq<CallInput>)
    ensures KeepsPrefix(s.messages, Handled(cfg, s, turn, calls, |calls|).messages)
  {
    var replies := HandledReplies(cfg, s, turn, calls, |calls|);
  }

  /** Nothing leaves the history except by a successful compaction: system, user and assistant messages stay
      word for word, digests of earlier compactions included, and tool replies keep their place and call. */
  lemma TurnKeepsPrefix(cfg: Config, s: Run, turn: nat, input: TurnInput)
    requires |s.messages| >= 2
    ensures Turn(cfg, s, turn, input).run.compactions == s.compactions ==>
              KeepsPrefix(s.messages, Turn(cfg, s, turn, input).run.messages)
  {
    AskedSendsHistory(cfg, s, turn);
    if !input.pastDeadline && input.main.Replied? {
      var m := input.main;
      ActedKeepsPrefix(cfg, Charged(Asked(cfg, s, turn), m.prompt, m.completion), turn, m.content, m.calls, input);
    }
  }

  lemma ActedKeepsPrefix(cfg: Config, s: Run, turn: nat, content: string, calls: seq<CallInput>, input: TurnInput)
    requires |s.messages| >= 2
    ensures var t := Acted(cfg, s, turn, content, calls, input).run;
            t.compactions == s.compactions ==> KeepsPrefix(s.messages, t.messages)
  {
    var asked := s.(messages := s.messages + [Assistant(content, CallsOf(calls))]);
    assert KeepsPrefix(s.messages, asked.messages);
    HandledFrame(cfg, asked, turn, calls, |calls|);
    HandledKeepsPrefix(cfg, asked, turn, calls);
    PrefixOfPrefix(s.messages, asked.messages, Handled(cfg, asked, turn, calls, |calls|).messages);
  }

  lemma PrefixOfPrefix(a: seq<Message>, b: seq<Message>, c: seq<Message>)
    requires KeepsPrefix(a, b) && KeepsPrefix(b, c)
    ensures KeepsPrefix(a, c)
  {
    forall i | 0 <= i < |a| ensures Alike(a[i], c[i]) { assert Alike(a[i], b[i]) && Alike(b[i], c[i]); }
  }

  // The digest a turn's successful compaction works with, if there is one.
  function DigestUsed(cfg: Config, s: Run, input: TurnInput, accepted: bool): Option<string> {
    if input.pastDeadline || input.main.Raised? || s.compactions >= cfg.maxCompactions then None
    else if input.main.prompt >= cfg.compactTrigger then input.digest
    else if input.main.calls != [] && !accepted && input.main.prompt * 100 + 99 >= cfg.compactTrigger * 85
        then input.postDigest
    else None
  }

  /** When a turn compacts and what is left then: the two first messages, the digest, and a note. */
  lemma CompactsExactlyWhen(cfg: Config, s: Run, turn: nat, input: TurnInput)
    requires WellFormed(s.messages, cfg.system, cfg.question)
    ensures var t := Turn(cfg, s, turn, input).run;
            var digest := DigestUsed(cfg, s, input, t.desk.accepted);
            if digest.None? then t.compactions == s.compactions
            else
              && t.compactions == s.compactions + 1
              && t.messages == [System(cfg.system), User(cfg.question),
                                Assistant(cfg.wording.digest(t.compactions, digest.value), []),
                                User(cfg.wording.note(cfg.maxCompactions - t.compactions))]
  {
    var a := Asked(cfg, s, turn);
    AskedSendsHistory(cfg, s, turn);
    WellFormedAlike(s.messages, a.messages, cfg.system, cfg.question);
    if !input.pastDeadline && input.main.Replied? {
      var m := input.main;
      ActedCompacts(cfg, Charged(a, m.prompt, m.completion), turn, m.content, m.calls, input);
    }
  }

  // What two messages and a digest make of a history.
  ghost predicate IsDigested(cfg: Config, t: Run, digest: string) {
    t.messages == [System(cfg.system), User(cfg.question), Assistant(cfg.wording.digest(t.compactions, digest), []),
                   User(cfg.wording.note(cfg.maxCompactions - t.compactions))]
  }

  lemma CompactedIsDigested(cfg: Config, s: Run, hard: bool, digest: Option<string>)
    requires WellFormed(s.messages, cfg.system, cfg.question)
    ensures var t := Compacted(cfg, s, hard, digest);
            t.desk == s.desk && if digest.None? then t.compactions == s.compactions
                                else t.compactions == s.compactions + 1 && IsDigested(cfg, t, digest.value)
  {
  }

  lemma WorkedCompacts(cfg: Config, s: Run, turn: nat, content: string, calls: seq<CallInput>, digest: Option<string>)
    requires WellFormed(s.messages, cfg.system, cfg.question) && s.compactions < cfg.maxCompactions
    ensures var t := Worked(cfg, s, turn, content, calls, digest).run;
            if t.desk.accepted || s.usage.lastPrompt * 100 + 99 < cfg.compactTrigger * 85 || digest.None?
            then t.compactions == s.compactions
            else t.compactions == s.compactions + 1 && IsDigested(cfg, t, digest.value)
  {
    var asked := s.(messages := s.messages + [Assistant(content, CallsOf(calls))]);
    var t := Handled(cfg, asked, turn, calls, |calls|);
    HandledFrame(cfg, asked, turn, calls, |calls|);
    RoundsKeepWellFormed(cfg, s, turn, content, calls);
    CompactedIsDigested(cfg, t, false, digest);
  }

  lemma ActedCompacts(cfg: Config, s: Run, turn: nat, content: string, calls: seq<CallInput>, input: TurnInput)
    requires WellFormed(s.messages, cfg.system, cfg.question)
    requires !input.pastDeadline && input.main.Replied?
    requires input.main.prompt == s.usage.lastPrompt && input.main.content == content && input.main.calls == calls
    ensures var t := Acted(cfg, s, turn, content, calls, input).run;
            var digest := DigestUsed(cfg, s, input, t.desk.accepted);
            if digest.None? then t.compactions == s.compactions
            else t.compactions == s.compactions + 1 && IsDigested(cfg, t, digest.value)
  {
    if HardCompacts(cfg, s, input) {
      CompactedIsDigested(cfg, s, true, input.digest);
    } else if calls != [] {
      if s.compactions < cfg.maxCompactions {
        WorkedCompacts(cfg, s, turn, content, calls, input.postDigest);
      } else {
        HandledFrame(cfg, s.(messages := s.messages + [Assistant(content, CallsOf(calls))]), turn, calls, |calls|);
      }
    }
  }

  // ----- what a tool call does -----

  /** A search touches only the queries, a scrape only the pages, a submission only the desk, and an unknown
      tool nothing; every reply carries the result, cut to 8000 characters. */
  lemma EachToolDoesItsWork(cfg: Config, s: Run, turn: nat, c: CallInput)
    ensures var t, name := HandledOne(cfg, s, turn, c), c.call.name;
            var result, n := Tried(cfg, s, turn, c).1, |s.messages|;
            && t.toolCalls == s.toolCalls[name := CountOf(s.toolCalls, name) + 1]
            && (if name == "web_serp" then
                  && t.books.queries == s.books.queries + [c.query] && t.books.visited == s.books.visited
                  && t.desk == s.desk && (result.Searched? || result.DuplicateQuery?) && result.query == c.query
                else if name == "web_scrape" then
                  && t.books.queries == s.books.queries && t.books.visited <= s.books.visited + {c.url}
                      && t.desk == s.desk
                  && (result.Scraped? || result.DuplicatePage? || result.DomainExhausted?) && result.url == c.url
                else if name == cfg.submitName then
                  && t.books == s.books && |t.desk.log| == |s.desk.log| + 1
                  && result == t.desk.log[|s.desk.log|].reply
                else t.books == s.books && t.desk == s.desk && result == UnknownTool(name))
            && t.messages[..n] == s.messages && |t.messages| == n + 1
            && var m := t.messages[n];
               && m == Tool(c.call.id, name, m.content, turn, false)
               && m.content <= cfg.wording.reply(result)
               && (if |cfg.wording.reply(result)| <= 8000 then m.content == cfg.wording.reply(result)
                   else |m.content| == 8000)
  {
  }

  function CallsNamed(calls: seq<CallInput>, name: string, k: nat): nat
    requires k <= |calls|
  {
    if k == 0 then 0 else CallsNamed(calls, name, k - 1) + (if calls[k - 1].call.name == name then 1 else 0)
  }

  /** Calls are counted by name, and every submission of the turn is logged under it. */
  lemma {:induction false} CallsAreCounted(cfg: Config, s: Run, turn: nat, calls: seq<CallInput>, k: nat, name: string)
    requires k <= |calls|
    ensures var t := Handled(cfg, s, turn, calls, k);
            && CountOf(t.toolCalls, name) == CountOf(s.toolCalls, name) + CallsNamed(calls, name, k)
            && |s.desk.log| <= |t.desk.log| && t.desk.log[..|s.desk.log|] == s.desk.log
            && forall i :: |s.desk.log| <= i < |t.desk.log| ==> t.desk.log[i].turn == turn
  {
    if k > 0 {
      CallsAreCounted(cfg, s, turn, calls, k - 1, name);
      NextCallIsCounted(cfg, Handled(cfg, s, turn, calls, k - 1), turn, calls[k - 1], name);
    }
  }

  lemma NextCallIsCounted(cfg: Config, s: Run, turn: nat, c: CallInput, name: string)
    ensures var t := HandledOne(cfg, s, turn, c);
            && CountOf(t.toolCalls, name) == CountOf(s.toolCalls, name) + (if c.call.name == name then 1 else 0)
            && (t.desk.log == s.desk.log || (exists x: Submission :: t.desk.log == s.desk.log + [x] && x.turn == turn))
  {
  }

  // ----- an acceptance ends the run -----

  // The log after `k` turns: only the last turn that submitted anything may hold an acceptance, and then the
  // run has ended.
  ghost predicate InOrder(o: Outcome, k: nat) {
    var log := o.run.desk.log;
    && (forall i :: 0 <= i < |log| ==> log[i].turn <= k)
    && (forall i, j :: 0 <= i < j < |log| && log[i].turn < log[j].turn ==> log[i].reply.Rejected?)
    && (!o.stopped ==> !o.run.desk.accepted)
  }

  lemma AcceptedMeansLogged(desk: Desk, rules: Rules)
    requires DeskOk(desk, rules) && !desk.accepted
    ensures forall i :: 0 <= i < |desk.log| ==> desk.log[i].reply.Rejected?
  {
    LastAcceptedIsLast(desk.log);
    forall i | 0 <= i < |desk.log| ensures desk.log[i].reply.Rejected? {
      RejectedExactlyWhen(desk, rules, i);
    }
  }

  lemma LogOfTurn(cfg: Config, s: Run, turn: nat, input: TurnInput)
    requires |s.messages| >= 2
    ensures var log := Turn(cfg, s, turn, input).run.desk.log;
            && |s.desk.log| <= |log| && log[..|s.desk.log|] == s.desk.log
            && forall i :: |s.desk.log| <= i < |log| ==> log[i].turn == turn
  {
    if !input.pastDeadline && input.main.Replied? {
      LogOfActed(cfg, Charged(Asked(cfg, s, turn), input.main.prompt, input.main.completion), turn, input);
    }
  }

  lemma LogOfActed(cfg: Config, s: Run, turn: nat, input: TurnInput)
    requires |s.messages| >= 2 && input.main.Replied?
    ensures var log := Acted(cfg, s, turn, input.main.content, input.main.calls, input).run.desk.log;
            && |s.desk.log| <= |log| && log[..|s.desk.log|] == s.desk.log
            && forall i :: |s.desk.log| <= i < |log| ==> log[i].turn == turn
  {
    var asked := s.(messages := s.messages + [Assistant(input.main.content, CallsOf(input.main.calls))]);
    CallsAreCounted(cfg, asked, turn, input.main.calls, |input.main.calls|, "");
  }

  lemma TurnKeepsOrder(cfg: Config, s: Run, turn: nat, input: TurnInput)
    requires |s.messages| >= 2 && AccountsOk(s, cfg) && !s.desk.accepted
    requires forall i :: 0 <= i < |s.desk.log| ==> s.desk.log[i].turn < turn
    ensures InOrder(Turn(cfg, s, turn, input), turn)
  {
    LogOfTurn(cfg, s, turn, input);
    AcceptedMeansLogged(s.desk, cfg.rules);
    var o := Turn(cfg, s, turn, input);
    forall i | 0 <= i < |s.desk.log| ensures o.run.desk.log[i] == s.desk.log[i] {
      assert o.run.desk.log[..|s.desk.log|][i] == o.run.desk.log[i];
    }
    StopsExactlyWhen(cfg, s, turn, input);
  }

  lemma OrderStep(cfg: Config, o: Outcome, k: nat, input: TurnInput)
    requires InOrder(o, k) && AccountsOk(o.run, cfg) && |o.run.messages| >= 2
    ensures if o.stopped then InOrder(o, k + 1) else InOrder(Turn(cfg, o.run, k + 1, input), k + 1)
  {
    if !o.stopped {
      TurnKeepsOrder(cfg, o.run, k + 1, input);
    }
  }

  ghost predicate KeepsOrder(outs: nat -> Outcome, k: nat) {
    InOrder(outs(k), k) ==> InOrder(outs(k + 1), k + 1)
  }

  lemma TurnsKeepOrder(cfg: Config, env: Env, k: nat)
    ensures InOrder(Turns(cfg, env, k), k) ==> InOrder(Turns(cfg, env, k + 1), k + 1)
  {
    if InOrder(Turns(cfg, env, k), k) {
      AccountsInv(cfg, env, k);
      OrderStep(cfg, Turns(cfg, env, k), k, env.turns(k + 1));
    }
  }

  lemma {:induction false} OrderOfSteps(outs: nat -> Outcome, k: nat)
    requires InOrder(outs(0), 0) && forall j: nat :: KeepsOrder(outs, j)
    ensures InOrder(outs(k), k)
  {
    if k > 0 {
      OrderOfSteps(outs, k - 1);
      assert KeepsOrder(outs, k - 1);
    }
  }

  lemma OrderInv(cfg: Config, env: Env, k: nat)
    ensures InOrder(Turns(cfg, env, k), k)
  {
    var outs: nat -> Outcome := (j: nat) => Turns(cfg, env, j);
    forall j: nat ensures KeepsOrder(outs, j) { TurnsKeepOrder(cfg, env, j); }
    OrderOfSteps(outs, k);
  }

  /** Once a turn has left a submission accepted, the run ends with it: no turn follows, nothing is salvaged. */
  lemma AcceptanceEndsRun(cfg: Config, env: Env, k: nat)
    requires k <= cfg.turnsCap && Turns(cfg, env, k).run.desk.accepted
    ensures Turns(cfg, env, k).stopped && Finished(cfg, env) == Turns(cfg, env, k).run
  {
    OrderInv(cfg, env, k);
    StoppedStays(cfg, env, k, cfg.turnsCap);
  }

  /** Over a whole run, every submission of an earlier turn than the last submitting one was turned down. */
  lemma EarlierTurnsRejected(cfg: Config, env: Env, i: nat, j: nat)
    requires i < j < |Finished(cfg, env).desk.log|
    requires Finished(cfg, env).desk.log[i].turn < Finished(cfg, env).desk.log[j].turn
    ensures Finished(cfg, env).desk.log[i].reply.Rejected?
  {
    OrderInv(cfg, env, cfg.turnsCap);
  }
}
