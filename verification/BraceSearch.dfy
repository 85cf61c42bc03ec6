/** The brace counters that ignore strings: the balanced-span search for JSON in a model's answer, and
    the scan that cuts the application state out of a vacancy page. */
module BraceSearch {
  import opened Options
  import opened TextSearch
  import opened JsonText
  import opened JsObjectScanner

  function Weight(ch: char, opener: char, closer: char): int {
    if ch == opener then 1 else if ch == closer then -1 else 0
  }

  // Openers minus closers, strings or not.
  function Net(t: string, opener: char, closer: char): int {
    if t == "" then 0 else Net(t[..|t| - 1], opener, closer) + Weight(t[|t| - 1], opener, closer)
  }

  lemma NetNext(body: string, from: nat, k: nat, opener: char, closer: char)
    requires from <= k < |body|
    ensures Net(body[from..k + 1], opener, closer) == Net(body[from..k], opener, closer) +
            Weight(body[k], opener, closer)
  {
    assert body[from..k + 1][..k - from] == body[from..k];
  }

  /** The balance is a difference of counts, for any pair of brackets. */
  lemma {:induction false} NetIsCountDifference(t: string, opener: char, closer: char)
    requires opener != closer
    ensures Net(t, opener, closer) == multiset(t)[opener] as int - multiset(t)[closer] as int
  {
    if t != "" {
      NetIsCountDifference(t[..|t| - 1], opener, closer);
      assert t == t[..|t| - 1] + [t[|t| - 1]];
    }
  }

  /** The minimal balanced span from `start`: balanced, and open at every point before its end. */
  ghost predicate IsSpan(body: string, start: int, end: int, opener: char, closer: char) {
    && 0 <= start < end <= |body| && body[start] == opener
    && Net(body[start..end], opener, closer) == 0
    && forall k :: start < k < end ==> Net(body[start..k], opener, closer) > 0
  }

  lemma SpanIsUnique(body: string, start: int, e1: int, e2: int, opener: char, closer: char)
    requires IsSpan(body, start, e1, opener, closer) && IsSpan(body, start, e2, opener, closer)
    ensures e1 == e2
  {
    assert Net(body[start..e1], opener, closer) == Net(body[start..e2], opener, closer);
  }

  // ----- extract_json -----

  method SpanFrom(body: string, start: nat, opener: char, closer: char) returns (end: Option<nat>)
    requires start < |body| && body[start] == opener && opener != closer
    ensures end.Some? ==> IsSpan(body, start, end.value, opener, closer)
    ensures end.None? ==> forall e :: !IsSpan(body, start, e, opener, closer)
  {
    var depth := 0;
    assert body[start..start] == "";
    for i := start to |body|
      invariant depth == Net(body[start..i], opener, closer)
      invariant forall k :: start < k <= i ==> Net(body[start..k], opener, closer) > 0
    {
      NetNext(body, start, i, opener, closer);
      if body[i] == opener {
        depth := depth + 1;
      } else if body[i] == closer {
        depth := depth - 1;
        if depth == 0 {
          return Some(i + 1);
        }
      }
    }
    end := None;
  }

  // Some balanced span from `start` parses.
  ghost predicate Parses<V>(body: string, start: int, opener: char, closer: char, loads: string -> Option<V>) {
    exists e :: IsSpan(body, start, e, opener, closer) && loads(body[start..e]).Some?
  }

  // r is the parse of the span from the earliest start whose span parses.
  ghost predicate EarliestParse<V>(body: string, opener: char, closer: char, loads: string -> Option<V>, r: Option<V>) {
    exists s, e ::
      && IsSpan(body, s, e, opener, closer) && loads(body[s..e]).Some? && r == loads(body[s..e])
      && forall s' :: 0 <= s' < s ==> !Parses(body, s', opener, closer, loads)
  }

  method SearchSpans<V>(body: string, opener: char, closer: char, loads: string -> Option<V>) returns (r: Option<V>)
    requires opener != closer
    ensures r.Some? ==> EarliestParse(body, opener, closer, loads, r)
    ensures r.None? ==> forall s :: !Parses(body, s, opener, closer, loads)
  {
    var start := Find(body, [opener], 0);
    OnlyOpenersStart(body, opener, closer, loads);
    while start.Some?
      invariant start.Some? ==> start.value < |body| && body[start.value] == opener
      invariant forall s :: 0 <= s && (start.Some? ==> s < start.value) ==> !Parses(body, s, opener, closer, loads)
      decreases if start.Some? then |body| - start.value else 0
    {
      var s := start.value;
      var end := SpanFrom(body, s, opener, closer);
      if end.Some? {
        var parsed := loads(body[s..end.value]);
        if parsed.Some? {
          return parsed;
        }
        assert !Parses(body, s, opener, closer, loads) by {
          forall e | IsSpan(body, s, e, opener, closer) ensures e == end.value {
            SpanIsUnique(body, s, e, end.value, opener, closer);
          }
        }
      }
      start := Find(body, [opener], s + 1);
    }
    r := None;
  }

  lemma OnlyOpenersStart<V>(body: string, opener: char, closer: char, loads: string -> Option<V>)
    ensures forall s: nat :: !OccursAt(body, [opener], s) ==> !Parses(body, s, opener, closer, loads)
  {
    forall s: nat | Parses(body, s, opener, closer, loads) ensures OccursAt(body, [opener], s) {
      assert s < |body| && body[s..s + 1] == [body[s]];
    }
  }

  lemma EarliestParses<V>(body: string, opener: char, closer: char, loads: string -> Option<V>, r: Option<V>)
    requires EarliestParse(body, opener, closer, loads, r)
    ensures r.Some? && exists s :: Parses(body, s, opener, closer, loads)
  {
    var s, e :| && IsSpan(body, s, e, opener, closer) && loads(body[s..e]).Some? && r == loads(body[s..e]);
    assert Parses(body, s, opener, closer, loads);
  }

  // No fenced block parses before the k-th.
  predicate NoFenceBefore<V>(fences: seq<string>, k: nat, loads: string -> Option<V>) {
    forall i :: 0 <= i < k && i < |fences| ==> loads(fences[i]).None?
  }

  /** `extract_json`, given the response without its reasoning and the code fences found in it: the
      first fence that parses; else the earliest object span that parses; else the earliest array span
      that parses; and None exactly when nothing of all this parses. */
  method ExtractJson<V>(fences: seq<string>, body: string, loads: string -> Option<V>) returns (r: Option<V>)
    ensures r.Some? ==>
              || (exists k: nat :: k < |fences| && r == loads(fences[k]) && NoFenceBefore(fences, k, loads))
              || (NoFenceBefore(fences, |fences|, loads) && EarliestParse(body, '{', '}', loads, r))
              || (&& NoFenceBefore(fences, |fences|, loads)
                  && (forall s :: !Parses(body, s, '{', '}', loads))
                  && EarliestParse(body, '[', ']', loads, r))
    ensures r.None? <==>
              && NoFenceBefore(fences, |fences|, loads)
              && (forall s :: !Parses(body, s, '{', '}', loads))
              && (forall s :: !Parses(body, s, '[', ']', loads))
  {
    for k := 0 to |fences|
      invariant NoFenceBefore(fences, k, loads)
    {
      r := loads(fences[k]);
      if r.Some? {
        return;
      }
    }
    r := SearchSpans(body, '{', '}', loads);
    if r.Some? {
      EarliestParses(body, '{', '}', loads, r);
      return;
    }
    r := SearchSpans(body, '[', ']', loads);
    if r.Some? {
      EarliestParses(body, '[', ']', loads, r);
    }
  }

  // ----- the application-state cut -----

  // The cut is at `end`: the first place past the first character where the count is back to zero.
  ghost predicate IsCut(raw: string, end: int) {
    && 2 <= end <= |raw| && Net(raw[0..end], '{', '}') == 0
    && forall k :: 2 <= k < end ==> Net(raw[0..k], '{', '}') != 0
  }

  method StateEnd(raw: string) returns (end: nat)
    ensures end != 0 ==> IsCut(raw, end)
    ensures end == 0 ==> forall k :: !IsCut(raw, k)
  {
    var depth := 0;
    end := 0;
    assert raw[0..0] == "";
    for i := 0 to |raw|
      invariant depth == Net(raw[0..i], '{', '}')
      invariant forall k :: 2 <= k <= i ==> Net(raw[0..k], '{', '}') != 0
    {
      NetNext(raw, 0, i, '{', '}');
      if raw[i] == '{' {
        depth := depth + 1;
      } else if raw[i] == '}' {
        depth := depth - 1;
      }
      if depth == 0 && i > 0 {
        end := i + 1;
        return;
      }
    }
  }

  // ----- the naive counters against the string-aware scanner -----

  // Net count of the braces that the scanner sees inside strings.
  function StringNet(t: string): int {
    if t == "" then 0
    else
      var shorter := t[..|t| - 1];
      StringNet(shorter) + if FeedAll(START, shorter).inStr then Weight(t[|t| - 1], '{', '}') else 0
  }

  lemma {:induction false} NetSplits(t: string)
    ensures Net(t, '{', '}') == FeedAll(START, t).depth + StringNet(t)
    decreases |t|
  {
    if t != "" {
      var shorter, last := t[..|t| - 1], t[|t| - 1];
      NetSplits(shorter);
      assert t == shorter + [last] && [last][1..] == "";
      ScanConcat(START, shorter, [last]);
      assert FeedAll(START, t) == Feed(FeedAll(START, shorter), last);
    }
  }

  lemma {:induction false} StaysOpen(s: Scan, t: string)
    requires s.depth >= 1 && Quiet(s, t)
    ensures FeedAll(s, t).depth >= 1
    decreases |t|
  {
    if t != "" {
      StaysOpen(Feed(s, t[0]), t[1..]);
    }
  }

  // Before its first close, the scan of a text that starts with a brace is at depth one or more.
  lemma OpenBeforeClose(t: string, k: nat)
    requires t != "" && t[0] == '{' && 0 < k <= |t|
    requires FirstClose(START, t).Some? ==> k <= FirstClose(START, t).value
    ensures FeedAll(START, t[..k]).depth >= 1
  {
    assert t == t[..k] + t[k..];
    ScanConcat(START, t[..k], t[k..]);
    assert t[..k][0] == '{';
    StaysOpen(Feed(START, '{'), t[..k][1..]);
  }

  lemma ClosedAtClose(t: string)
    requires FirstClose(START, t).Some?
    ensures FeedAll(START, t[..FirstClose(START, t).value + 1]).depth == 0
  {
    var e := FirstClose(START, t).value;
    FirstCloseIsFirst(START, t);
    assert t[..e + 1] == t[..e] + [t[e]] && [t[e]][1..] == "";
    ScanConcat(START, t[..e], [t[e]]);
    assert FeedAll(START, t[..e + 1]) == Feed(FeedAll(START, t[..e]), t[e]);
  }

  lemma NetAtScan(t: string, k: nat)
    requires k <= |t|
    ensures Net(t[0..k], '{', '}') == FeedAll(START, t[..k]).depth + StringNet(t[..k])
  {
    assert t[0..k] == t[..k];
    NetSplits(t[..k]);
  }

  // While the count was never zero it is positive: it starts at one and moves by one.
  lemma {:induction false} NeverZeroStaysOpen(t: string, e: nat)
    requires 0 < e <= |t| && t[0] == '{'
    requires forall k :: 2 <= k <= e ==> Net(t[0..k], '{', '}') != 0
    ensures Net(t[0..e], '{', '}') > 0
  {
    NetNext(t, 0, e - 1, '{', '}');
    if e == 1 {
      assert t[0..0] == "";
    } else {
      NeverZeroStaysOpen(t, e - 1);
    }
  }

  /** On text that opens with a brace the two string-blind counters are one: the cut is the span's end. */
  lemma SpanIsCut(t: string, e: int)
    requires t != "" && t[0] == '{'
    ensures IsSpan(t, 0, e, '{', '}') <==> IsCut(t, e)
  {
    NeverZeroStaysOpen(t, 1);
    if IsCut(t, e) {
      forall k | 0 < k < e ensures Net(t[0..k], '{', '}') > 0 {
        NeverZeroStaysOpen(t, k);
      }
    }
  }

  // Inside strings the braces cancel out by the scanner's close, and wherever a closer comes before it,
  // inside a string or not, at least two braces are open to the counter.
  predicate StringsCancel(t: string, e: nat)
    requires e < |t|
  {
    && StringNet(t[..e + 1]) == 0
    && forall k :: 0 < k < e && t[k] == '}' ==> FeedAll(START, t[..k]).depth + StringNet(t[..k]) >= 2
  }

  // The count can only reach zero at a closer.
  lemma {:induction false} ClosersDecide(t: string, e: nat, k: nat)
    requires 0 < k <= e < |t| && t[0] == '{'
    requires forall j :: 0 < j < e && t[j] == '}' ==> Net(t[0..j], '{', '}') >= 2
    ensures Net(t[0..k], '{', '}') > 0
  {
    NetNext(t, 0, k - 1, '{', '}');
    if k == 1 {
      assert t[0..0] == "";
    } else {
      ClosersDecide(t, e, k - 1);
    }
  }

  /** The span counter stops where the string-aware scanner does exactly when the braces inside strings
      cancel out and no closer before the scanner's own meets a count below two. */
  lemma NaiveAgreesExactlyWhen(t: string)
    requires t != "" && t[0] == '{' && FirstClose(START, t).Some?
    ensures var e := FirstClose(START, t).value; IsSpan(t, 0, e + 1, '{', '}') <==> StringsCancel(t, e)
  {
    var e := FirstClose(START, t).value;
    ClosedAtClose(t);
    NetAtScan(t, e + 1);
    if StringsCancel(t, e) {
      forall k | 0 < k < e && t[k] == '}' ensures Net(t[0..k], '{', '}') >= 2 { NetAtScan(t, k); }
      forall k | 0 < k <= e ensures Net(t[0..k], '{', '}') > 0 { ClosersDecide(t, e, k); }
    }
    if IsSpan(t, 0, e + 1, '{', '}') {
      forall k | 0 < k < e && t[k] == '}' ensures FeedAll(START, t[..k]).depth + StringNet(t[..k]) >= 2 {
        NetNext(t, 0, k, '{', '}');
        NetAtScan(t, k);
      }
    }
  }

  predicate NoBraces(gap: string) {
    forall k :: 0 <= k < |gap| ==> gap[k] != '{' && gap[k] != '}'
  }

  lemma {:induction false} NetAfterGap(gap: string, t: string, k: nat)
    requires NoBraces(gap) && k <= |gap| + |t|
    ensures Net((gap + t)[0..k], '{', '}') == if k <= |gap| then 0 else Net(t[0..k - |gap|], '{', '}')
  {
    if k == 0 {
      assert (gap + t)[0..0] == "";
    } else {
      NetAfterGap(gap, t, k - 1);
      NetNext(gap + t, 0, k - 1, '{', '}');
      if k > |gap| {
        NetNext(t, 0, k - 1 - |gap|, '{', '}');
        assert (gap + t)[k - 1] == t[k - 1 - |gap|];
        assert t[0..0] == "";
      }
    }
  }

  /** The vacancy-page scan, fed `gap` and then text that opens with a brace, cuts at that text's span end
      if and only if at most one character comes first; after two it stops right there. */
  lemma CutAfterGap(gap: string, t: string, e: int)
    requires NoBraces(gap) && t != "" && t[0] == '{' && 0 < e
    ensures IsCut(gap + t, |gap| + e) <==> |gap| <= 1 && IsSpan(t, 0, e, '{', '}')
    ensures |gap| >= 2 ==> IsCut(gap + t, 2)
  {
    var raw := gap + t;
    if |gap| >= 2 {
      NetAfterGap(gap, t, 2);
    } else {
      forall k | 0 <= k <= |raw| ensures Net(raw[0..k], '{', '}') == if k <= |gap| then 0
          else Net(t[0..k - |gap|], '{', '}') {
        NetAfterGap(gap, t, k);
      }
      SpanIsCut(t, e);
      if |gap| == 1 {
        NeverZeroStaysOpen(t, 1);
        if IsCut(raw, 1 + e) {
          forall k | 2 <= k < e ensures Net(t[0..k], '{', '}') != 0 {
            assert Net(raw[0..k + 1], '{', '}') != 0;
          }
        }
      } else {
        assert raw == t;
      }
    }
  }

  predicate NoOpeners(gap: string) {
    forall k :: 0 <= k < |gap| ==> gap[k] != '{'
  }

  lemma {:induction false} ClosersCountDown(raw: string, k: nat)
    requires k <= |raw| && NoOpeners(raw[..k])
    ensures Net(raw[0..k], '{', '}') <= 0
    ensures !NoBraces(raw[..k]) ==> Net(raw[0..k], '{', '}') < 0
  {
    if k == 0 {
      assert raw[0..0] == "";
    } else {
      assert raw[..k] == raw[..k - 1] + [raw[k - 1]];
      ClosersCountDown(raw, k - 1);
      NetNext(raw, 0, k - 1, '{', '}');
    }
  }

  // A count that is negative and never zero again stays negative, since it moves by one.
  lemma {:induction false} StaysNegative(raw: string, from: nat, k: nat)
    requires from <= k <= |raw| && Net(raw[0..from], '{', '}') < 0
    requires forall j :: from < j <= k ==> Net(raw[0..j], '{', '}') != 0
    ensures Net(raw[0..k], '{', '}') < 0
  {
    if from < k {
      StaysNegative(raw, from, k - 1);
      NetNext(raw, 0, k - 1, '{', '}');
    }
  }

  // After a stray closer the scan never cuts at a closer that the object opened: it would have met zero before.
  lemma StrayCloserSpoilsCut(gap: string, t: string, e: nat)
    requires NoOpeners(gap) && !NoBraces(gap) && e < |t| && t[e] == '}'
    ensures !IsCut(gap + t, |gap| + e + 1)
  {
    var raw, end := gap + t, |gap| + e + 1;
    assert raw[..|gap|] == gap && raw[end - 1] == t[e];
    ClosersCountDown(raw, |gap|);
    NetNext(raw, 0, end - 1, '{', '}');
    if IsCut(raw, end) {
      StaysNegative(raw, |gap|, end - 1);
    }
  }

  /** When the vacancy-page cut is the string-aware scanner's. A page text is `gap` up to its first opening
      brace and `t` from there on; the two agree exactly when at most one character precedes, which is no
      closing brace, the braces in strings cancel out, and no closer comes too soon. */
  lemma CutAgreesExactlyWhen(gap: string, t: string)
    requires NoOpeners(gap) && t != "" && t[0] == '{' && FirstClose(START, t).Some?
    ensures var e := FirstClose(START, t).value;
            IsCut(gap + t, |gap| + e + 1) <==> |gap| <= 1 && NoBraces(gap) && StringsCancel(t, e)
  {
    var e := FirstClose(START, t).value;
    if NoBraces(gap) {
      CutAfterGap(gap, t, e + 1);
      NaiveAgreesExactlyWhen(t);
    } else {
      FirstCloseIsFirst(START, t);
      StrayCloserSpoilsCut(gap, t, e);
    }
  }

  // No brace inside a string, up to the n-th character.
  predicate CleanStrings(t: string, n: nat)
    requires n <= |t|
  {
    forall k :: 0 <= k < n && FeedAll(START, t[..k]).inStr ==> t[k] != '{' && t[k] != '}'
  }

  lemma {:induction false} CleanCancels(t: string, n: nat)
    requires n <= |t| && CleanStrings(t, n)
    ensures StringNet(t[..n]) == 0
    decreases n
  {
    if n > 0 {
      CleanCancels(t, n - 1);
      assert t[..n][..n - 1] == t[..n - 1];
    }
  }

  /** With no brace inside a string, every counter agrees with the scanner: same end, or no end at all. */
  lemma CleanTextAgrees(t: string)
    requires t != "" && t[0] == '{'
    requires CleanStrings(t, if FirstClose(START, t).Some? then FirstClose(START, t).value + 1 else |t|)
    ensures FirstClose(START, t).Some? ==> IsSpan(t, 0, FirstClose(START, t).value + 1, '{', '}')
    ensures FirstClose(START, t).None? ==> forall e :: !IsSpan(t, 0, e, '{', '}')
    ensures forall e :: IsSpan(t, 0, e, '{', '}') <==> IsCut(t, e)
  {
    var close := FirstClose(START, t);
    var n := if close.Some? then close.value + 1 else |t|;
    forall k | 0 <= k <= n ensures Net(t[0..k], '{', '}') == FeedAll(START, t[..k]).depth {
      assert CleanStrings(t, k);
      CleanCancels(t, k);
      NetSplits(t[..k]);
    }
    forall k | 0 < k <= |t| && (close.Some? ==> k <= close.value) ensures Net(t[0..k], '{', '}') >= 1 {
      OpenBeforeClose(t, k);
    }
    if close.Some? {
      ClosedAtClose(t);
    }
    assert t[..1] == "{" && Net(t[..1], '{', '}') == 1;
    assert forall k :: 0 <= k <= |t| ==> t[0..k] == t[..k];
  }

  /** A JSON object with no brace inside its strings is cut out whole by all three, whatever follows. */
  lemma CleanObjectSelected(pad: string, ms: seq<Member>, suffix: string)
    requires WellFormed(Object(pad, ms))
    requires CleanStrings(Print(Object(pad, ms)) + suffix, |Print(Object(pad, ms))|)
    ensures var t := Print(Object(pad, ms)) + suffix;
            IsSpan(t, 0, |Print(Object(pad, ms))|, '{', '}') && IsCut(t, |Print(Object(pad, ms))|)
  {
    ObjectCloses(pad, ms, suffix);
    CleanTextAgrees(Print(Object(pad, ms)) + suffix);
  }

  /** Such an object is cut out whole by the vacancy-page scan if and only if at most one character comes
      between the anchor and the object, and that is no closing brace. */
  lemma CleanObjectCutExactlyWhen(gap: string, pad: string, ms: seq<Member>, suffix: string)
    requires NoOpeners(gap) && WellFormed(Object(pad, ms))
    requires CleanStrings(Print(Object(pad, ms)) + suffix, |Print(Object(pad, ms))|)
    ensures var printed := Print(Object(pad, ms));
            IsCut(gap + (printed + suffix), |gap| + |printed|) <==> |gap| <= 1 && NoBraces(gap)
  {
    var printed := Print(Object(pad, ms));
    if NoBraces(gap) {
      CleanObjectSelected(pad, ms, suffix);
      CutAfterGap(gap, printed + suffix, |printed|);
    } else {
      StrayCloserSpoilsCut(gap, printed + suffix, |printed| - 1);
    }
  }

  // ----- objects inside an answer -----

  lemma SpanAfterPrefix(prefix: string, body: string, e: int, opener: char, closer: char)
    ensures IsSpan(prefix + body, |prefix|, |prefix| + e, opener, closer) <==> IsSpan(body, 0, e, opener, closer)
  {
    var whole, n := prefix + body, |prefix|;
    forall k | 0 <= k <= |body| ensures whole[n..n + k] == body[0..k] {}
    if IsSpan(whole, n, n + e, opener, closer) {
      forall k | 0 < k < e ensures Net(body[0..k], opener, closer) > 0 {
        assert Net(whole[n..n + k], opener, closer) > 0;
      }
    }
    if IsSpan(body, 0, e, opener, closer) {
      forall k | n < k < n + e ensures Net(whole[n..k], opener, closer) > 0 {
        assert whole[n..n + (k - n)] == body[0..k - n];
      }
    }
  }

  // What `SearchSpans` promises.
  ghost predicate IsSearchResult<V>(body: string, opener: char, closer: char, loads: string -> Option<V>,
                                    r: Option<V>) {
    if r.Some? then EarliestParse(body, opener, closer, loads, r)
    else forall s :: !Parses(body, s, opener, closer, loads)
  }

  lemma FirstSpanFound<V>(body: string, n: nat, end: nat, loads: string -> Option<V>, r: Option<V>)
    requires IsSpan(body, n, end, '{', '}') && loads(body[n..end]).Some?
    requires forall k :: 0 <= k < n ==> body[k] != '{'
    requires IsSearchResult(body, '{', '}', loads, r)
    ensures r == loads(body[n..end])
  {
    assert Parses(body, n, '{', '}', loads);
    var s, e :| && IsSpan(body, s, e, '{', '}') && loads(body[s..e]).Some? && r == loads(body[s..e])
                && forall s' :: 0 <= s' < s ==> !Parses(body, s', '{', '}', loads);
    SpanIsUnique(body, n, e, end, '{', '}');
  }

  /** An object that parses and has no brace in its strings is what the balanced-span search returns, wherever
      it stands in an answer that opens no brace before it. */
  lemma EmbeddedObjectFound<V>(prefix: string, pad: string, ms: seq<Member>, suffix: string,
                               loads: string -> Option<V>, r: Option<V>)
    requires NoOpeners(prefix) && WellFormed(Object(pad, ms)) && loads(Print(Object(pad, ms))).Some?
    requires CleanStrings(Print(Object(pad, ms)) + suffix, |Print(Object(pad, ms))|)
    requires IsSearchResult(prefix + (Print(Object(pad, ms)) + suffix), '{', '}', loads, r)
    ensures r == loads(Print(Object(pad, ms)))
  {
    CleanObjectSelected(pad, ms, suffix);
    FoundInside(prefix, Print(Object(pad, ms)), suffix, loads, r);
  }

  lemma FoundInside<V>(prefix: string, printed: string, suffix: string, loads: string -> Option<V>, r: Option<V>)
    requires NoOpeners(prefix) && loads(printed).Some? && IsSpan(printed + suffix, 0, |printed|, '{', '}')
    requires IsSearchResult(prefix + (printed + suffix), '{', '}', loads, r)
    ensures r == loads(printed)
  {
    SpanAfterPrefix(prefix, printed + suffix, |printed|, '{', '}');
    EmbeddedText(prefix, printed, suffix);
    FirstSpanFound(prefix + (printed + suffix), |prefix|, |prefix| + |printed|, loads, r);
  }

  lemma EmbeddedText(prefix: string, printed: string, suffix: string)
    ensures var body := prefix + (printed + suffix);
            body[|prefix|..|prefix| + |printed|] == printed && forall k :: 0 <= k < |prefix| ==> body[k] == prefix[k]
  {
  }

  /** Two spaces before an empty object: the scan cuts at the spaces. */
  lemma LeadingSpacesAreCut()
    ensures IsCut("  {}", 2) && !IsCut("  {}", 4) && Print(Object("", [])) == "{}" && FirstClose(START, "{}") == Some(1)
  {
    ObjectCloses("", [], "");
    assert Print(Object("", [])) == "{}" && "{}" + "" == "{}";
    assert "  " + "{}" == "  {}";
    CutAfterGap("  ", "{}", 2);
  }

  /** A closing brace before an empty object: the scan cuts after the object's first brace. */
  lemma StrayCloserIsCut()
    ensures IsCut("}{}", 2) && !IsCut("}{}", 3) && FirstClose(START, "{}") == Some(1) && StringsCancel("{}", 1)
  {
    LeadingSpacesAreCut();
    CutAgreesExactlyWhen("", "{}");
    CleanObjectCutExactlyWhen("", "", [], "");
    assert Print(Object("", [])) == "{}" && "{}" + "" == "{}" && "" + "{}" == "{}";
    assert "}" + "{}" == "}{}";
    CutAgreesExactlyWhen("}", "{}");
    var raw := "}{}";
    assert raw[0..0] == "";
    NetNext(raw, 0, 0, '{', '}');
    NetNext(raw, 0, 1, '{', '}');
  }

  /** With a brace inside a string the counters can cut a valid object short: {"}":0} ends at its third
      character for them, at its last one for the scanner. */
  lemma NaiveCutsShort()
    ensures var member := Member("", [Plain('}')], "", "", Scalar("0"), "");
            var t := Print(Object("", [member]));
            && WellFormed(Object("", [member])) && t == "{\"}\":0}"
            && IsSpan(t, 0, 3, '{', '}') && IsCut(t, 3) && FirstClose(START, t) == Some(6)
  {
    var member := Member("", [Plain('}')], "", "", Scalar("0"), "");
    var t := Print(Object("", [member]));
    assert [member][1..] == [] && [Plain('}')][1..] == [];
    assert PrintPieces([Plain('}')]) == "}";
    assert PrintMember(member) == "\"}\":0";
    assert PrintMembers([member]) == PrintMember(member) + "";
    assert PrintBody("", [member]) == "\"}\":0";
    assert t == "{" + "\"}\":0" + "}";
    ObjectCloses("", [member], "");
    assert t + "" == t;
    StopsAtThird(t);
  }

  lemma StopsAtThird(t: string)
    requires t == "{\"}\":0}"
    ensures IsSpan(t, 0, 3, '{', '}') && IsCut(t, 3)
  {
    NetNext(t, 0, 0, '{', '}');
    NetNext(t, 0, 1, '{', '}');
    NetNext(t, 0, 2, '{', '}');
    assert t[0..0] == "";
    SpanIsCut(t, 3);
  }
}
