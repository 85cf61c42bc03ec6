/** What the agent remembers of its searches and page visits (`AgentState`), and what its two
    tools do with it. */
module AgentBooks {
  import opened Sets
  import opened ToolResults

  type Url = string
  type Domain = string

  // `norm` and `netloc` stand for `_norm_query` and `urlparse(...).netloc`.
  datatype Limits = Limits(visitCap: nat, failThreshold: nat, neverBlock: set<Domain>, norm: string -> string,
                           netloc: Url -> Domain)

  // `failed` is not kept by the agent: the visited pages whose scrape failed.
  datatype Books = Books(
    queries: seq<string>,
    searches: nat,
    seen: set<string>,
    visited: set<Url>,
    failed: set<Url>,
    fails: map<Domain, nat>,
    visits: map<Domain, nat>)

  const NO_BOOKS := Books([], 0, {}, {}, {}, map[], map[])

  function CountOf(counts: map<Domain, nat>, d: Domain): nat {
    if d in counts then counts[d] else 0
  }

  function Bumped(counts: map<Domain, nat>, d: Domain): map<Domain, nat> {
    counts[d := CountOf(counts, d) + 1]
  }

  function On(urls: set<Url>, limits: Limits, d: Domain): set<Url> {
    set u | u in urls && limits.netloc(u) == d
  }

  // ----- the invariant -----

  ghost predicate QueriesOk(b: Books, limits: Limits) {
    && b.searches == |b.queries|
    && forall n :: n in b.seen <==> n != "" && exists i :: 0 <= i < |b.queries| && limits.norm(b.queries[i]) == n
  }

  /** Both counters are exact, per domain, and the cap holds. */
  ghost predicate VisitsOk(b: Books, limits: Limits) {
    && b.failed <= b.visited
    && "" !in b.visits
    && forall d: Domain :: d != "" ==>
      && CountOf(b.visits, d) == |On(b.visited, limits, d)| <= limits.visitCap
      && CountOf(b.fails, d) == if d in limits.neverBlock then 0 else |On(b.failed, limits, d)|
  }

  ghost predicate FailKeysOk(b: Books, limits: Limits) {
    forall d :: d in b.fails ==> d != "" && d !in limits.neverBlock && b.fails[d] > 0
  }

  ghost predicate BooksOk(b: Books, limits: Limits) {
    QueriesOk(b, limits) && VisitsOk(b, limits) && FailKeysOk(b, limits)
  }

  function Blocked(b: Books, limits: Limits): set<Domain> {
    set d | d in b.fails && b.fails[d] >= limits.failThreshold
  }

  lemma NoBooksOk(limits: Limits)
    ensures BooksOk(NO_BOOKS, limits)
  {
    forall d ensures On({}, limits, d) == {} {}
  }

  /** A domain never fails more often than it was visited, and one that is blocked under a threshold
      no lower than the visit cap has spent its whole cap, every visit a failure. */
  lemma BlockedDomainsAreSpent(b: Books, limits: Limits, d: Domain)
    requires BooksOk(b, limits)
    ensures CountOf(b.fails, d) <= CountOf(b.visits, d)
    ensures d in limits.neverBlock ==> d !in Blocked(b, limits)
    ensures d in Blocked(b, limits) && limits.failThreshold >= limits.visitCap ==>
              && CountOf(b.visits, d) == limits.visitCap
              && On(b.visited, limits, d) == On(b.failed, limits, d)
  {
    if d != "" {
      SubsetIsSmaller(On(b.failed, limits, d), On(b.visited, limits, d));
    } else {
      assert d !in b.fails;
    }
  }

  // ----- web_serp -----

  function LastEight(queries: seq<string>): seq<string> {
    if |queries| <= 8 then queries else queries[|queries| - 8..]
  }

  predicate IsRepeat(b: Books, limits: Limits, q: string) {
    limits.norm(q) != "" && limits.norm(q) in b.seen
  }

  function AfterSearch(b: Books, limits: Limits, q: string): Books {
    b.(queries := b.queries + [q], searches := b.searches + 1,
       seen := if limits.norm(q) != "" then b.seen + {limits.norm(q)} else b.seen)
  }

  function SearchAnswer(b: Books, limits: Limits, q: string, found: string, scrapes: nat): ToolResult {
    var after := AfterSearch(b, limits, q);
    if IsRepeat(b, limits, q) then DuplicateQuery(q, LastEight(after.queries))
    else Searched(q, found, Blocked(b, limits), after.searches >= 4 && scrapes * 2 < after.searches)
  }

  lemma SearchKeepsBooks(b: Books, limits: Limits, q: string)
    requires BooksOk(b, limits)
    ensures BooksOk(AfterSearch(b, limits, q), limits)
  {
    var after := AfterSearch(b, limits, q);
    forall n
      ensures n in after.seen <==> n != "" && exists i :: 0 <= i < |after.queries| && limits.norm(after.queries[i]) == n
    {
      if n == limits.norm(q) {
        assert after.queries[|b.queries|] == q;
      }
      if i :| 0 <= i < |b.queries| && limits.norm(b.queries[i]) == n {
        assert after.queries[i] == b.queries[i];
      }
      if i :| 0 <= i < |after.queries| && limits.norm(after.queries[i]) == n {
        assert i < |b.queries| ==> after.queries[i] == b.queries[i];
      }
    }
  }

  /** A search is refused exactly when an earlier one normalises to the same non-empty text. */
  lemma RefusedExactlyWhenRepeated(b: Books, limits: Limits, q: string, found: string, scrapes: nat)
    requires BooksOk(b, limits)
    ensures SearchAnswer(b, limits, q, found, scrapes).DuplicateQuery? <==>
            limits.norm(q) != "" && exists i :: 0 <= i < |b.queries| && limits.norm(b.queries[i]) == limits.norm(q)
  {
  }

  /** What a search answers: the up to eight latest queries, this one last, when it repeats one; otherwise the
      domains with too many failed pages, and a reminder from the fourth query on while fewer than half as many
      pages were asked for. */
  lemma SearchAnswerSays(b: Books, limits: Limits, q: string, found: string, scrapes: nat)
    requires BooksOk(b, limits) && limits.failThreshold > 0
    ensures match SearchAnswer(b, limits, q, found, scrapes)
            case DuplicateQuery(query, recent) =>
              && query == q && 0 < |recent| <= 8 && recent[|recent| - 1] == q
              && (|recent| == 8 || |recent| == |b.queries| + 1)
              && forall i :: 0 <= i < |recent| ==> recent[i] == (b.queries + [q])[|b.queries| + 1 - |recent| + i]
            case Searched(query, text, blocked, reminder) =>
              && query == q && text == found
              && (reminder <==> |b.queries| >= 3 && scrapes + scrapes < |b.queries| + 1)
              && forall d: Domain :: d in blocked <==>
                   d != "" && d !in limits.neverBlock && |On(b.failed, limits, d)| >= limits.failThreshold
            case _ => false
  {
    forall d: Domain
      ensures d in Blocked(b, limits) <==>
              d != "" && d !in limits.neverBlock && |On(b.failed, limits, d)| >= limits.failThreshold
    {
      assert d != "" ==> CountOf(b.fails, d) == if d in limits.neverBlock then 0 else |On(b.failed, limits, d)|;
    }
  }

  // ----- web_scrape -----

  predicate MayFetch(b: Books, limits: Limits, url: Url) {
    var d := limits.netloc(url);
    url !in b.visited && (d == "" || CountOf(b.visits, d) < limits.visitCap)
  }

  function AfterScrape(b: Books, limits: Limits, url: Url, ok: bool): Books {
    var d := limits.netloc(url);
    if !MayFetch(b, limits, url) then b
    else b.(visited := b.visited + {url},
            failed := if ok then b.failed else b.failed + {url},
            visits := if d == "" then b.visits else Bumped(b.visits, d),
            fails := if ok || d == "" || d in limits.neverBlock then b.fails else Bumped(b.fails, d))
  }

  function ScrapeAnswer(b: Books, limits: Limits, url: Url, ok: bool, text: string): ToolResult {
    if url in b.visited then DuplicatePage(url)
    else if !MayFetch(b, limits, url) then DomainExhausted(url, limits.netloc(url))
    else Scraped(url, ok, text)
  }

  /** A page is fetched exactly when it was not before and its domain has visits left; it is then visited, and
      failed exactly if the scrape failed. Otherwise the books do not change. */
  lemma ScrapeAnswersExactly(b: Books, limits: Limits, url: Url, ok: bool, text: string)
    requires BooksOk(b, limits)
    ensures var answer, after, d := ScrapeAnswer(b, limits, url, ok, text), AfterScrape(b, limits, url, ok),
            limits.netloc(url);
            && (answer == DuplicatePage(url) <==> url in b.visited)
            && (answer == DomainExhausted(url, d) <==>
                  url !in b.visited && d != "" && |On(b.visited, limits, d)| >= limits.visitCap)
            && (answer == Scraped(url, ok, text) <==>
                  url !in b.visited && (d == "" || |On(b.visited, limits, d)| < limits.visitCap))
            && (if answer.Scraped? then
                  after.visited == b.visited + {url} && after.failed == b.failed + (if ok then {} else {url})
                else after == b)
  {
  }

  lemma OnePageMore(urls: set<Url>, limits: Limits, url: Url, d: Domain)
    requires url !in urls
    ensures |On(urls + {url}, limits, d)| == |On(urls, limits, d)| + (if limits.netloc(url) == d then 1 else 0)
  {
    if limits.netloc(url) == d {
      assert On(urls + {url}, limits, d) == On(urls, limits, d) + {url};
    } else {
      assert On(urls + {url}, limits, d) == On(urls, limits, d);
    }
  }

  lemma ScrapeKeepsBooks(b: Books, limits: Limits, url: Url, ok: bool)
    requires BooksOk(b, limits)
    ensures BooksOk(AfterScrape(b, limits, url, ok), limits)
  {
    var after := AfterScrape(b, limits, url, ok);
    if MayFetch(b, limits, url) {
      forall d: Domain | d != ""
        ensures CountOf(after.visits, d) == |On(after.visited, limits, d)| <= limits.visitCap
        ensures CountOf(after.fails, d) == if d in limits.neverBlock then 0 else |On(after.failed, limits, d)|
      {
        OnePageMore(b.visited, limits, url, d);
        OnePageMore(b.failed, limits, url, d);
      }
    }
  }

  // ----- the object the agent updates -----

  class AgentState {
    var serpCallCount: nat
    var queriesHistory: seq<string>
    var serpSeen: set<string>
    var visitedUrls: set<Url>
    var domainFailCount: map<Domain, nat>
    var domainVisitCount: map<Domain, nat>
    var compactionCount: nat
    var submitAttempts: nat
    ghost var failedUrls: set<Url>

    constructor ()
      ensures ToBooks() == NO_BOOKS && compactionCount == 0 && submitAttempts == 0
    {
      serpCallCount, queriesHistory, serpSeen, visitedUrls := 0, [], {}, {};
      domainFailCount, domainVisitCount, failedUrls := map[], map[], {};
      compactionCount, submitAttempts := 0, 0;
    }

    ghost function ToBooks(): Books
      reads this
    {
      Books(queriesHistory, serpCallCount, serpSeen, visitedUrls, failedUrls, domainFailCount, domainVisitCount)
    }

    method WebSerp(limits: Limits, q: string, found: string, scrapes: nat) returns (result: ToolResult)
      modifies this
      ensures ToBooks() == AfterSearch(old(ToBooks()), limits, q)
      ensures result == SearchAnswer(old(ToBooks()), limits, q, found, scrapes)
      ensures compactionCount == old(compactionCount) && submitAttempts == old(submitAttempts)
    {
      queriesHistory := queriesHistory + [q];
      serpCallCount := serpCallCount + 1;
      var norm := limits.norm(q);
      if norm != "" && norm in serpSeen {
        assert serpSeen + {norm} == serpSeen;
        var first := if |queriesHistory| <= 8 then 0 else |queriesHistory| - 8;
        result := DuplicateQuery(q, queriesHistory[first..]);
      } else {
        if norm != "" {
          serpSeen := serpSeen + {norm};
        }
        var blocked := set d | d in domainFailCount && domainFailCount[d] >= limits.failThreshold;
        result := Searched(q, found, blocked, serpCallCount >= 4 && scrapes * 2 < serpCallCount);
      }
    }

    method WebScrape(limits: Limits, url: Url, ok: bool, text: string) returns (result: ToolResult)
      modifies this
      ensures ToBooks() == AfterScrape(old(ToBooks()), limits, url, ok)
      ensures result == ScrapeAnswer(old(ToBooks()), limits, url, ok, text)
      ensures compactionCount == old(compactionCount) && submitAttempts == old(submitAttempts)
    {
      var dom := limits.netloc(url);
      if url in visitedUrls {
        result := DuplicatePage(url);
      } else if dom != "" && CountOf(domainVisitCount, dom) >= limits.visitCap {
        result := DomainExhausted(url, dom);
      } else {
        visitedUrls := visitedUrls + {url};
        if dom != "" {
          domainVisitCount := domainVisitCount[dom := CountOf(domainVisitCount, dom) + 1];
        }
        if !ok {
          failedUrls := failedUrls + {url};
          if dom != "" && dom !in limits.neverBlock {
            domainFailCount := domainFailCount[dom := CountOf(domainFailCount, dom) + 1];
          }
        }
        result := Scraped(url, ok, text);
      }
    }
  }
}
