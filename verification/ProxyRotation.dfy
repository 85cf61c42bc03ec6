/** Sequential proxy rotation: a modular cursor over the (http-only, when there are any) pool, and an
    in-process memory of dead proxies that are skipped for a while. */
module ProxyRotation {
  import opened Options

  type Time = nat

  const DEAD_TTL: Time := 60

  // urlparse is not modelled: how a raw proxy line becomes a proxy URL is an input.
  type Render = string -> string

  predicate IsHttp(p: string) {
    "http://" <= p
  }

  function HttpOnly(proxies: seq<string>): (r: seq<string>)
    ensures |r| <= |proxies|
    ensures forall p :: p in r <==> p in proxies && IsHttp(p)
  {
    if proxies == [] then []
    else if IsHttp(proxies[0]) then [proxies[0]] + HttpOnly(proxies[1..])
    else HttpOnly(proxies[1..])
  }

  // Chromium cannot authenticate to SOCKS5 proxies, so http ones are preferred.
  function Pool(proxies: seq<string>): (r: seq<string>)
    ensures |r| <= |proxies| && (r == [] <==> proxies == [])
    ensures proxies != [] && (exists p :: p in proxies && IsHttp(p)) ==> forall p :: p in r ==> IsHttp(p)
  {
    if HttpOnly(proxies) != [] then HttpOnly(proxies) else proxies
  }

  /** The pool is all http proxies, or all proxies if none is http. */
  lemma PoolIs(proxies: seq<string>, p: string)
    ensures p in Pool(proxies) <==> p in proxies && ("http://" <= p || forall q :: q in proxies ==> !("http://" <= q))
  {
    assert p in HttpOnly(proxies) <==> p in proxies && IsHttp(p);
    if HttpOnly(proxies) != [] {
      assert HttpOnly(proxies)[0] in HttpOnly(proxies);
    } else {
      forall q | q in proxies ensures !IsHttp(q) { assert q !in HttpOnly(proxies); }
    }
  }

  class ProxyProvider {
    var proxies: seq<string>
    var idx: nat

    constructor (lines: seq<string>)
      ensures proxies == lines && idx == 0
    {
      proxies, idx := lines, 0;
    }

    method GetProxy() returns (p: Option<string>)
      modifies this`idx
      ensures proxies == [] ==> p == None && idx == old(idx)
      ensures proxies != [] ==> p == Some(Pool(proxies)[old(idx) % |Pool(proxies)|]) && idx == old(idx) + 1
    {
      if proxies == [] {
        return None;
      }
      var pool := Pool(proxies);
      p := Some(pool[idx % |pool|]);
      idx := idx + 1;
    }
  }

  // ----- what a rotation step promises -----

  predicate Benched(dead: map<string, Time>, url: string, now: Time) {
    url in dead && dead[url] > now
  }

  // The cursor only ever grows; this is the URL at one of its places.
  function At(pool: seq<string>, render: Render, place: nat): string
    requires pool != []
  {
    render(pool[place % |pool|])
  }

  ghost predicate AllBenched(pool: seq<string>, render: Render, dead: map<string, Time>, now: Time) {
    forall p :: p in pool ==> Benched(dead, render(p), now)
  }

  predicate BenchedBetween(pool: seq<string>, render: Render, dead: map<string, Time>, now: Time, from: nat, to: nat)
    requires pool != []
  {
    forall i :: from <= i < to ==> Benched(dead, At(pool, render, i), now)
  }

  lemma CyclicOffset(cursor: nat, j: nat, m: nat) returns (k: nat)
    requires j < m
    ensures k < m && (cursor + k) % m == j
  {
    var q, r := cursor / m, cursor % m;
    assert cursor == m * q + r;
    if r <= j {
      k := j - r;
      assert cursor + k == m * q + j;
      MultiplePlus(m, q, j);
    } else {
      k := j + m - r;
      assert cursor + k == m * q + m + j == m * (q + 1) + j;
      MultiplePlus(m, q + 1, j);
    }
  }

  lemma MultiplePlus(m: nat, q: nat, j: nat)
    requires j < m
    ensures (m * q + j) % m == j
  {
    var x := m * q + j;
    var d, r := x / m, x % m;
    assert x == m * d + r;
    assert m * (q - d) == r - j;
    Multiples(m, q - d);
  }

  // A multiple of m that is smaller than m in size is zero.
  lemma Multiples(m: nat, k: int)
    ensures 0 - m < m * k < m ==> k == 0
  {
    if k >= 1 {
      assert m * k == m * (k - 1) + m && m * (k - 1) >= 0;
    } else if k <= -1 {
      assert m * k == m * (k + 1) - m && m * (-(k + 1)) >= 0 && m * (k + 1) == -(m * (-(k + 1)));
    }
  }

  /** Probing as many places as the pool has entries misses no entry, wherever the cursor is. */
  lemma FullTurnSeesAll(pool: seq<string>, render: Render, dead: map<string, Time>, now: Time, from: nat, to: nat)
    requires pool != [] && from + |pool| <= to
    ensures BenchedBetween(pool, render, dead, now, from, to) <==> AllBenched(pool, render, dead, now)
  {
    if BenchedBetween(pool, render, dead, now, from, to) {
      forall p | p in pool ensures Benched(dead, render(p), now) {
        var j :| 0 <= j < |pool| && pool[j] == p;
        var k := CyclicOffset(from, j, |pool|);
        assert Benched(dead, At(pool, render, from + k), now);
      }
    }
  }

  /** The choice of `_next_proxy_url`: nothing from an empty pool; the first live entry in cyclic
      order from the cursor when there is one; an entry of the pool even when all are benched. */
  ghost predicate IsChoice(proxies: seq<string>, render: Render, dead: map<string, Time>, now: Time,
                           cursor: nat, cursor': nat, choice: Option<string>)
  {
    var pool := Pool(proxies);
    if pool == [] then choice.None? && cursor' == cursor
    else
      && cursor < cursor'
      && choice == Some(At(pool, render, cursor' - 1))
      && BenchedBetween(pool, render, dead, now, cursor, cursor' - 1)
      && (Benched(dead, choice.value, now) ==> AllBenched(pool, render, dead, now) && cursor' == cursor + |proxies|)
  }

  lemma LastChoice(proxies: seq<string>, render: Render, dead: map<string, Time>, now: Time, cursor: nat)
    requires proxies != [] && BenchedBetween(Pool(proxies), render, dead, now, cursor, cursor + |proxies|)
    ensures var last := cursor + |proxies|;
            IsChoice(proxies, render, dead, now, cursor, last, Some(At(Pool(proxies), render, last - 1)))
  {
    FullTurnSeesAll(Pool(proxies), render, dead, now, cursor, cursor + |proxies|);
  }

  // What a probing loop knows at a place: everything before it was benched, and was the last fallback.
  ghost predicate Probed(proxies: seq<string>, render: Render, dead: map<string, Time>, now: Time,
                         cursor: nat, place: nat, fallback: Option<string>)
  {
    && cursor <= place
    && (place == cursor || Pool(proxies) != [])
    && (place > cursor ==>
          && fallback == Some(At(Pool(proxies), render, place - 1))
          && BenchedBetween(Pool(proxies), render, dead, now, cursor, place))
  }

  lemma ProbedOneMore(proxies: seq<string>, render: Render, dead: map<string, Time>, now: Time,
                      cursor: nat, place: nat, fallback: Option<string>)
    requires proxies != [] && Probed(proxies, render, dead, now, cursor, place, fallback)
    ensures var u := At(Pool(proxies), render, place);
            if Benched(dead, u, now)
            then Probed(proxies, render, dead, now, cursor, place + 1, Some(u))
            else IsChoice(proxies, render, dead, now, cursor, place + 1, Some(u))
  {
  }

  function Marked(dead: map<string, Time>, url: Option<string>, now: Time): map<string, Time> {
    if url.Some? && url.value != "" then dead[url.value := now + DEAD_TTL] else dead
  }

  datatype Outcome = Response(status: nat) | ConnectFailed | InfraError | OtherError

  datatype Result = Got(status: nat) | AllProxiesFailed | Raised

  const RETRY_STATUS: set<nat> := {407, 500, 502, 503, 504}

  class RotatingHTTPClient {
    const provider: ProxyProvider
    const render: Render
    const maxRetries: nat
    var dead: map<string, Time>

    constructor (provider: ProxyProvider, render: Render, maxRetries: nat)
      ensures this.provider == provider && this.render == render && this.maxRetries == maxRetries && dead == map[]
    {
      this.provider, this.render, this.maxRetries, dead := provider, render, maxRetries, map[];
    }

    method NextProxyUrl(now: Time) returns (url: Option<string>)
      modifies provider`idx
      ensures IsChoice(provider.proxies, render, dead, now, old(provider.idx), provider.idx, url)
    {
      var n := if |provider.proxies| >= 1 then |provider.proxies| else 1;
      ghost var cursor := provider.idx;
      var fallback: Option<string> := None;
      for k := 0 to n
        invariant provider.idx == cursor + k
        invariant Probed(provider.proxies, render, dead, now, cursor, cursor + k, fallback)
      {
        var p := provider.GetProxy();
        if p.None? {
          return None;
        }
        ProbedOneMore(provider.proxies, render, dead, now, cursor, cursor + k, fallback);
        var u := render(p.value);
        fallback := Some(u);
        if (if u in dead then dead[u] else 0) <= now {
          return Some(u);
        }
      }
      url := fallback;
      LastChoice(provider.proxies, render, dead, now, cursor);
    }

    method MarkDead(url: Option<string>, now: Time)
      modifies this`dead
      ensures dead == Marked(old(dead), url, now)
      ensures url.Some? && url.value != "" ==>
                forall t: Time :: t < now + 60 <==> Benched(dead, url.value, t)
      ensures forall u :: url != Some(u) ==> (u in dead <==> u in old(dead)) && (u in dead ==> dead[u] == old(dead)[u])
    {
      if url.Some? && url.value != "" {
        dead := dead[url.value := now + DEAD_TTL];
      }
    }

    // One attempt: a proxy is chosen, and marked dead when it cannot be connected to.
    method Attempt(outcome: Outcome, now: Time, end: Time) returns (proxy: Option<string>)
      modifies this`dead, provider`idx
      ensures IsChoice(provider.proxies, render, old(dead), now, old(provider.idx), provider.idx, proxy)
      ensures dead == AfterAttempt(old(dead), outcome, proxy, end)
    {
      proxy := NextProxyUrl(now);
      if outcome.ConnectFailed? {
        MarkDead(proxy, end);
      }
    }

    /** One request: the attempts rotate through the pool until one gives a usable answer; `tried`
        lists their proxies ("" for a direct attempt, when there is no pool). Whatever the attempts ran
        into, no place the cursor passed was left out unless benched from the start; so when every
        attempt fails and there may be as many as the pool has entries, every proxy that was live at
        the start was tried. */
    method Request(outcome: nat -> Outcome, starts: nat -> Time, ends: nat -> Time)
      returns (r: Result, ghost tried: seq<string>)
      requires forall k: nat :: starts(0) <= starts(k)
      modifies this`dead, provider`idx
      ensures |tried| <= Tries(provider.proxies, maxRetries)
      ensures forall k :: 0 <= k < |tried| - 1 ==> Retried(outcome(k))
      ensures r.Got? ==> |tried| > 0 && outcome(|tried| - 1) == Response(r.status) && !Retried(outcome(|tried| - 1))
      ensures r.Raised? ==> |tried| > 0 && outcome(|tried| - 1) == OtherError
      ensures r.AllProxiesFailed? ==>
                |tried| == Tries(provider.proxies, maxRetries) && forall k :: 0 <= k < |tried| ==> Retried(outcome(k))
      ensures Rotated(provider.proxies, render, outcome, starts, ends, old(dead), dead, old(provider.idx),
                      provider.idx, tried)
      ensures r.AllProxiesFailed? && maxRetries >= |Pool(provider.proxies)| ==>
                LiveOnesTried(Pool(provider.proxies), render, old(dead), starts(0), tried)
    {
      r, tried := Rotate(Tries(provider.proxies, maxRetries), outcome, starts, ends);
      if r.AllProxiesFailed? {
        RotatedAll(provider.proxies, render, outcome, starts, ends, old(dead), dead, old(provider.idx), provider.idx,
                   tried, maxRetries);
      }
    }

    // The loop over the attempts.
    method Rotate(tries: nat, outcome: nat -> Outcome, starts: nat -> Time, ends: nat -> Time)
      returns (r: Result, ghost tried: seq<string>)
      requires forall k: nat :: starts(0) <= starts(k)
      modifies this`dead, provider`idx
      ensures |tried| <= tries && forall k :: 0 <= k < |tried| - 1 ==> Retried(outcome(k))
      ensures match r
              case Got(status) => |tried| > 0 && outcome(|tried| - 1) == Response(status)
                  && !Retried(outcome(|tried| - 1))
              case Raised => |tried| > 0 && outcome(|tried| - 1) == OtherError
              case AllProxiesFailed => |tried| == tries && forall k :: 0 <= k < tries ==> Retried(outcome(k))
      ensures Rotated(provider.proxies, render, outcome, starts, ends, old(dead), dead, old(provider.idx),
                      provider.idx, tried)
    {
      tried := [];
      for attempt := 0 to tries
        invariant |tried| == attempt
        invariant forall k :: 0 <= k < attempt ==> Retried(outcome(k))
        invariant Rotated(provider.proxies, render, outcome, starts, ends, old(dead), dead, old(provider.idx),
                          provider.idx, tried)
      {
        ghost var cursor, before := provider.idx, dead;
        var proxy := Attempt(outcome(attempt), starts(attempt), ends(attempt));
        RotatedFurther(provider.proxies, render, outcome, starts, ends, old(dead), before, old(provider.idx), cursor,
                       provider.idx, tried, proxy);
        tried := tried + [UrlOf(proxy)];
        match outcome(attempt)
        case Response(status) =>
          if status !in RETRY_STATUS {
            return Got(status), tried;
          }
        case OtherError =>
          return Raised, tried;
        case _ =>
      }
      r := AllProxiesFailed;
    }
  }

  // "" for an attempt without a proxy.
  function UrlOf(proxy: Option<string>): string {
    if proxy.Some? then proxy.value else ""
  }

  function AfterAttempt(dead: map<string, Time>, outcome: Outcome, proxy: Option<string>, end: Time)
    : map<string, Time>
  {
    if outcome.ConnectFailed? then Marked(dead, proxy, end) else dead
  }

  // The dead marks after the first n attempts.
  function AfterAttempts(dead: map<string, Time>, outcome: nat -> Outcome, ends: nat -> Time, tried: seq<string>,
                         n: nat)
    : map<string, Time>
    requires n <= |tried|
  {
    if n == 0 then dead
    else AfterAttempt(AfterAttempts(dead, outcome, ends, tried, n - 1), outcome(n - 1), Some(tried[n - 1]), ends(n - 1))
  }

  lemma {:induction false} AttemptsBefore(dead: map<string, Time>, outcome: nat -> Outcome, ends: nat -> Time,
                                          tried: seq<string>, url: string, n: nat)
    requires n <= |tried|
    ensures AfterAttempts(dead, outcome, ends, tried + [url], n) == AfterAttempts(dead, outcome, ends, tried, n)
  {
    if n > 0 {
      AttemptsBefore(dead, outcome, ends, tried, url, n - 1);
    }
  }

  /** As many attempts as there are proxies, one without any, but never more than allowed. */
  lemma TriesAre(proxies: seq<string>, maxRetries: nat)
    ensures var wanted := if proxies == [] then 1 else |proxies|;
            Tries(proxies, maxRetries) <= wanted && Tries(proxies, maxRetries) <= maxRetries
            && (Tries(proxies, maxRetries) == wanted || Tries(proxies, maxRetries) == maxRetries)
  {
  }

  function Tries(proxies: seq<string>, maxRetries: nat): nat {
    var n := if |proxies| >= 1 then |proxies| else 1;
    if maxRetries < n then maxRetries else n
  }

  predicate Retried(o: Outcome) {
    o.ConnectFailed? || o.InfraError? || (o.Response? && o.status in RETRY_STATUS)
  }

  /** An attempt ends the rotation exactly when it brought a page whose status is not one of the five that
      speak of a bad hop, or an error that is not the proxy's. */
  lemma EndsRotationExactlyWhen(o: Outcome)
    ensures !Retried(o) <==>
            || o == OtherError
            || (o.Response? && o.status != 407 && o.status != 500 && o.status != 502 && o.status != 503
                && o.status != 504)
  {
  }

  // The dead marks of the URLs that were not tried are as they were.
  ghost predicate OnlyTriedMarked(dead0: map<string, Time>, dead: map<string, Time>, tried: seq<string>) {
    forall u :: u !in tried ==> (u in dead <==> u in dead0) && (u in dead ==> dead[u] == dead0[u])
  }

  // The places the cursor passed, at least one for each attempt, were tried or benched from the start.
  ghost predicate Covered(pool: seq<string>, render: Render, dead0: map<string, Time>, dead: map<string, Time>,
                          start: Time, from: nat, cursor: nat, tried: seq<string>)
    requires pool != []
  {
    && from + |tried| <= cursor
    && OnlyTriedMarked(dead0, dead, tried)
    && forall i :: from <= i < cursor ==> At(pool, render, i) in tried || Benched(dead0, At(pool, render, i), start)
  }

  // One more attempt, whether it marks its proxy dead or not.
  lemma CoveredFurther(proxies: seq<string>, render: Render, dead0: map<string, Time>, dead: map<string, Time>,
                       start: Time, from: nat, cursor: nat, cursor': nat, tried: seq<string>,
                       now: Time, choice: Option<string>, outcome: Outcome, end: Time)
    requires proxies != [] && Covered(Pool(proxies), render, dead0, dead, start, from, cursor, tried) && start <= now
    requires IsChoice(proxies, render, dead, now, cursor, cursor', choice)
    ensures choice.Some?
    ensures Covered(Pool(proxies), render, dead0, AfterAttempt(dead, outcome, choice, end), start, from, cursor',
                    tried + [choice.value])
  {
    var pool, all := Pool(proxies), tried + [choice.value];
    forall i | from <= i < cursor' ensures At(pool, render, i) in all || Benched(dead0, At(pool, render, i), start) {
      var u := At(pool, render, i);
      if i < cursor {
        assert u in tried || Benched(dead0, u, start);
      } else if i < cursor' - 1 {
        assert Benched(dead, u, now);
      } else {
        assert all[|tried|] == u;
      }
    }
  }

  // Every proxy of the pool that was live at the start.
  ghost predicate LiveOnesTried(pool: seq<string>, render: Render, dead0: map<string, Time>, start: Time,
                                tried: seq<string>) {
    forall p :: p in pool && !Benched(dead0, render(p), start) ==> render(p) in tried
  }

  // What the attempts so far did: connect failures are marked, and the pool is covered in order.
  ghost predicate Rotated(proxies: seq<string>, render: Render, outcome: nat -> Outcome, starts: nat -> Time,
                          ends: nat -> Time,
                          dead0: map<string, Time>, dead: map<string, Time>, from: nat, cursor: nat, tried: seq<string>)
  {
    && dead == AfterAttempts(dead0, outcome, ends, tried, |tried|)
    && (proxies != [] ==> Covered(Pool(proxies), render, dead0, dead, starts(0), from, cursor, tried))
  }

  lemma RotatedFurther(proxies: seq<string>, render: Render, outcome: nat -> Outcome, starts: nat -> Time,
                       ends: nat -> Time,
                       dead0: map<string, Time>, dead: map<string, Time>, from: nat, cursor: nat, cursor': nat,
                       tried: seq<string>, choice: Option<string>)
    requires Rotated(proxies, render, outcome, starts, ends, dead0, dead, from, cursor, tried)
    requires starts(0) <= starts(|tried|)
    requires IsChoice(proxies, render, dead, starts(|tried|), cursor, cursor', choice)
    ensures Rotated(proxies, render, outcome, starts, ends, dead0,
                    AfterAttempt(dead, outcome(|tried|), choice, ends(|tried|)), from, cursor', tried + [UrlOf(choice)])
  {
    if proxies != [] {
      CoveredFurther(proxies, render, dead0, dead, starts(0), from, cursor, cursor', tried, starts(|tried|), choice,
                     outcome(|tried|), ends(|tried|));
    }
    AttemptsBefore(dead0, outcome, ends, tried, UrlOf(choice), |tried|);
  }

  lemma CoveredAll(pool: seq<string>, render: Render, dead0: map<string, Time>, dead: map<string, Time>,
                   start: Time, from: nat, cursor: nat, tried: seq<string>)
    requires pool != [] && Covered(pool, render, dead0, dead, start, from, cursor, tried) && |tried| >= |pool|
    ensures LiveOnesTried(pool, render, dead0, start, tried)
  {
    forall p | p in pool && !Benched(dead0, render(p), start) ensures render(p) in tried {
      var j :| 0 <= j < |pool| && pool[j] == p;
      var k := CyclicOffset(from, j, |pool|);
      assert At(pool, render, from + k) == render(p);
    }
  }

  lemma RotatedAll(proxies: seq<string>, render: Render, outcome: nat -> Outcome, starts: nat -> Time,
                   ends: nat -> Time,
                   dead0: map<string, Time>, dead: map<string, Time>, from: nat, cursor: nat, tried: seq<string>,
                   maxRetries: nat)
    requires Rotated(proxies, render, outcome, starts, ends, dead0, dead, from, cursor, tried)
    requires |tried| == Tries(proxies, maxRetries)
    ensures maxRetries >= |Pool(proxies)| ==> LiveOnesTried(Pool(proxies), render, dead0, starts(0), tried)
  {
    if proxies != [] && maxRetries >= |Pool(proxies)| {
      CoveredAll(Pool(proxies), render, dead0, dead, starts(0), from, cursor, tried);
    }
  }

  // ----- benching over a whole history -----

  datatype Mark = Mark(url: string, at: Time)

  // The dead marks after these, on top of earlier ones.
  function DeadAfter(dead: map<string, Time>, marks: seq<Mark>): map<string, Time> {
    if marks == [] then dead
    else
      var last := marks[|marks| - 1];
      Marked(DeadAfter(dead, marks[..|marks| - 1]), Some(last.url), last.at)
  }

  // In time order, and of proxies.
  ghost predicate AreMarks(marks: seq<Mark>) {
    && (forall i :: 0 <= i < |marks| ==> marks[i].url != "")
    && (forall a, b :: 0 <= a < b < |marks| ==> marks[a].at <= marks[b].at)
  }

  /** A mark keeps its proxy benched for 60 s, whatever is marked after it. */
  lemma {:induction false} MarksLast(dead: map<string, Time>, marks: seq<Mark>, i: nat, t: Time)
    requires i < |marks| && AreMarks(marks) && t < marks[i].at + 60
    ensures Benched(DeadAfter(dead, marks), marks[i].url, t)
  {
    if i < |marks| - 1 {
      MarksLast(dead, marks[..|marks| - 1], i, t);
    }
  }

  /** A proxy marked dead is not chosen again before its time is up, unless the whole pool is benched. */
  lemma BenchedIsSkipped(dead: map<string, Time>, marks: seq<Mark>, i: nat, proxies: seq<string>, render: Render,
                         now: Time,
                         cursor: nat, cursor': nat, choice: Option<string>)
    requires i < |marks| && AreMarks(marks) && now < marks[i].at + 60
    requires IsChoice(proxies, render, DeadAfter(dead, marks), now, cursor, cursor', choice)
    requires choice == Some(marks[i].url)
    ensures AllBenched(Pool(proxies), render, DeadAfter(dead, marks), now)
  {
    MarksLast(dead, marks, i, now);
  }

  // The marks that the first n attempts of a request make: one for each proxy that could not be connected to.
  function MarksOf(outcome: nat -> Outcome, ends: nat -> Time, tried: seq<string>, n: nat): seq<Mark>
    requires n <= |tried|
  {
    if n == 0 then []
    else
      MarksOf(outcome, ends, tried, n - 1) +
      (if outcome(n - 1) == ConnectFailed && tried[n - 1] != "" then [Mark(tried[n - 1], ends(n - 1))] else [])
  }

  /** The marks a request leaves are those of its connect failures. */
  lemma {:induction false} RequestMarks(dead: map<string, Time>, outcome: nat -> Outcome, ends: nat -> Time,
                                        tried: seq<string>, n: nat)
    requires n <= |tried|
    ensures AfterAttempts(dead, outcome, ends, tried, n) == DeadAfter(dead, MarksOf(outcome, ends, tried, n))
  {
    if n > 0 {
      RequestMarks(dead, outcome, ends, tried, n - 1);
      var marks := MarksOf(outcome, ends, tried, n - 1);
      if outcome(n - 1) == ConnectFailed && tried[n - 1] != "" {
        var m := Mark(tried[n - 1], ends(n - 1));
        assert (marks + [m])[..|marks|] == marks;
      } else {
        assert marks + [] == marks;
      }
    }
  }

  lemma {:induction false} MarksAreMarks(outcome: nat -> Outcome, ends: nat -> Time, tried: seq<string>, n: nat)
    requires n <= |tried| && forall j: nat, k: nat :: j <= k ==> ends(j) <= ends(k)
    ensures AreMarks(MarksOf(outcome, ends, tried, n))
    ensures forall i :: 0 <= i < |MarksOf(outcome, ends, tried, n)| ==>
              exists k: nat :: k < n && MarksOf(outcome, ends, tried, n)[i].at == ends(k)
  {
    if n > 0 {
      MarksAreMarks(outcome, ends, tried, n - 1);
    }
  }

  lemma {:induction false} FailureIsMarked(outcome: nat -> Outcome, ends: nat -> Time, tried: seq<string>, n: nat,
                                           k: nat)
    requires k < n <= |tried| && outcome(k) == ConnectFailed && tried[k] != ""
    ensures Mark(tried[k], ends(k)) in MarksOf(outcome, ends, tried, n)
  {
    if k < n - 1 {
      FailureIsMarked(outcome, ends, tried, n - 1, k);
    }
  }

  /** A proxy that a request could not connect to stays benched for 60 s after that attempt, by the marks the
      request leaves; so `BenchedIsSkipped` is about them. */
  lemma RequestBenches(dead: map<string, Time>, outcome: nat -> Outcome, ends: nat -> Time, tried: seq<string>, k: nat,
                       t: Time)
    requires forall i: nat, j: nat :: i <= j ==> ends(i) <= ends(j)
    requires k < |tried| && outcome(k) == ConnectFailed && tried[k] != "" && t < ends(k) + 60
    ensures Benched(AfterAttempts(dead, outcome, ends, tried, |tried|), tried[k], t)
  {
    var marks := MarksOf(outcome, ends, tried, |tried|);
    RequestMarks(dead, outcome, ends, tried, |tried|);
    MarksAreMarks(outcome, ends, tried, |tried|);
    FailureIsMarked(outcome, ends, tried, |tried|, k);
    var i :| 0 <= i < |marks| && marks[i] == Mark(tried[k], ends(k));
    MarksLast(dead, marks, i, t);
  }
}
