/** What the agent's tools answer, and the critic whose verdict a submission gets. */
module ToolResults {
  import opened Options

  // `feedback` stands for all the critic's prose.
  datatype Critic = Critic(score: real, verdict: string, feedback: string)

  datatype ToolResult =
    | DuplicateQuery(query: string, recent: seq<string>)
    | Searched(query: string, found: string, blocked: set<string>, reminder: bool)
    | DuplicatePage(url: string)
    | DomainExhausted(url: string, domain: string)
    | Scraped(url: string, ok: bool, text: string)
    | Accepted(critic: Critic, forced: bool)
    | Rejected(critic: Critic, remaining: nat)
    | UnknownTool(name: string)

  // The critic's call: it failed, answered no JSON object, one with unusable fields, or a review.
  datatype CriticReply = Unreachable(error: string) | NotJson | Malformed |
      Review(score: Option<real>, verdict: Option<string>, feedback: string)

  function CriticOf(r: CriticReply): Critic {
    match r
    case Unreachable(e) => Critic(10.0, "pass", "critic unreachable: " + e)
    case NotJson => Critic(7.0, "pass", "critic returned non-JSON; passing")
    case Malformed => Critic(7.0, "pass", "critic parse fail; passing")
    case Review(score, verdict, feedback) =>
      Critic(if score.Some? then score.value else 7.0,
             if verdict.Some? then verdict.value else "pass",
             if |feedback| <= 300 then feedback else feedback[..300])
  }

  /** A review is taken as given, a missing score as 7 and a missing verdict as "pass"; without a usable review
      the critic passes, with full marks if it could not be reached at all. */
  lemma ReviewTakenAsGiven(r: CriticReply)
    ensures match r
            case Review(score, verdict, feedback) =>
              && CriticOf(r).score == (match score case Some(x) => x case None => 7.0)
              && CriticOf(r).verdict == (match verdict case Some(v) => v case None => "pass")
              && CriticOf(r).feedback <= feedback && |CriticOf(r).feedback| <= 300
            case Unreachable(_) => CriticOf(r).verdict == "pass" && CriticOf(r).score == 10.0
            case _ => CriticOf(r).verdict == "pass" && CriticOf(r).score == 7.0
  {
  }
}
