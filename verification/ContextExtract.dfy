/** The goal-conditioned extract: padded match spans are merged and the covered text is cut to a
    budget. Where the patterns match is an input. */
module ContextExtract {

  // A pattern match in the text and the context to keep around it.
  datatype Match = Match(start: nat, end: nat, pad: nat)

  datatype Span = Span(s: nat, e: nat)

  // Spans at most this far apart are merged.
  const BRIDGE: nat := 50

  const SEPARATOR := " || "

  predicate MatchIn(m: Match, text: string) {
    m.start <= m.end <= |text|
  }

  function Padded(m: Match, size: nat): Span {
    Span(if m.pad <= m.start then m.start - m.pad else 0,
         if m.end + m.pad <= size then m.end + m.pad else size)
  }

  function PaddedAll(ms: seq<Match>, size: nat): seq<Span> {
    if ms == [] then [] else PaddedAll(ms[..|ms| - 1], size) + [Padded(ms[|ms| - 1], size)]
  }

  lemma {:induction false} PaddedFits(ms: seq<Match>, text: string)
    requires forall i :: 0 <= i < |ms| ==> MatchIn(ms[i], text)
    ensures forall x :: x in PaddedAll(ms, |text|) ==> x.s <= x.e <= |text|
    ensures |PaddedAll(ms, |text|)| == |ms|
  {
    if ms != [] {
      PaddedFits(ms[..|ms| - 1], text);
    }
  }

  // ----- sorting -----

  // Tuple order: by start, then by end.
  predicate AtMost(a: Span, b: Span) {
    a.s < b.s || (a.s == b.s && a.e <= b.e)
  }

  predicate Sorted(spans: seq<Span>) {
    forall i, j :: 0 <= i < j < |spans| ==> AtMost(spans[i], spans[j])
  }

  function Insert(x: Span, spans: seq<Span>): seq<Span> {
    if spans == [] || AtMost(x, spans[0]) then [x] + spans else [spans[0]] + Insert(x, spans[1..])
  }

  function Sort(spans: seq<Span>): seq<Span> {
    if spans == [] then [] else Insert(spans[0], Sort(spans[1..]))
  }

  lemma {:induction false} InsertPermutes(x: Span, spans: seq<Span>)
    ensures multiset(Insert(x, spans)) == multiset(spans) + multiset{x}
  {
    if spans == [] || AtMost(x, spans[0]) {
      assert multiset([x] + spans) == multiset(spans) + multiset{x};
    } else {
      InsertPermutes(x, spans[1..]);
      assert spans == [spans[0]] + spans[1..];
    }
  }

  lemma {:induction false} InsertSorts(x: Span, spans: seq<Span>)
    requires Sorted(spans)
    ensures Sorted(Insert(x, spans))
  {
    if !(spans == [] || AtMost(x, spans[0])) {
      InsertSorts(x, spans[1..]);
      var rest := Insert(x, spans[1..]);
      forall i | 0 <= i < |rest| ensures AtMost(spans[0], rest[i]) {
        InsertPermutes(x, spans[1..]);
        assert rest[i] in multiset(rest);
        assert rest[i] in spans[1..] || rest[i] == x;
      }
    }
  }

  /** Sorting yields a sorted permutation. */
  lemma {:induction false} SortSorts(spans: seq<Span>)
    ensures Sorted(Sort(spans)) && multiset(Sort(spans)) == multiset(spans)
  {
    if spans != [] {
      SortSorts(spans[1..]);
      InsertSorts(spans[0], Sort(spans[1..]));
      InsertPermutes(spans[0], Sort(spans[1..]));
      assert spans == [spans[0]] + spans[1..];
    }
  }

  // ----- merging -----

  predicate Proper(spans: seq<Span>) {
    forall i :: 0 <= i < |spans| ==> spans[i].s <= spans[i].e
  }

  ghost predicate Covers(spans: seq<Span>, p: int) {
    exists i :: 0 <= i < |spans| && spans[i].s <= p < spans[i].e
  }

  // p lies in a gap of at most BRIDGE characters between the end of one span and the start of another.
  ghost predicate Bridged(spans: seq<Span>, p: int) {
    exists i, j :: 0 <= i < |spans| && 0 <= j < |spans| &&
      spans[i].e <= p < spans[j].s && spans[j].s <= spans[i].e + BRIDGE
  }

  predicate Separated(spans: seq<Span>) {
    forall i, j :: 0 <= i < j < |spans| ==> spans[i].e + BRIDGE < spans[j].s
  }

  function Starts(spans: seq<Span>): set<nat> {
    set i | 0 <= i < |spans| :: spans[i].s
  }

  function Ends(spans: seq<Span>): set<nat> {
    set i | 0 <= i < |spans| :: spans[i].e
  }

  ghost predicate SameCoverage(merged: seq<Span>, spans: seq<Span>) {
    forall p: int :: Covers(merged, p) <==> Covers(spans, p) || Bridged(spans, p)
  }

  /** What merging promises: separated intervals that cover the spans and the bridged gaps, and
      nothing else, each running from some span's start to some span's end. */
  ghost predicate IsMerge(merged: seq<Span>, spans: seq<Span>) {
    && Proper(merged) && Separated(merged) && SameCoverage(merged, spans)
    && Starts(merged) <= Starts(spans) && Ends(merged) <= Ends(spans)
    && (merged == [] <==> spans == [])
  }

  // The last merged interval reaches as far as any span so far.
  predicate ReachesAll(merged: seq<Span>, spans: seq<Span>) {
    forall i :: 0 <= i < |spans| ==> merged != [] && spans[i].e <= merged[|merged| - 1].e
  }

  predicate StartsBy(spans: seq<Span>, s: nat) {
    forall i :: 0 <= i < |spans| ==> spans[i].s <= s
  }

  lemma OneMoreSpan(spans: seq<Span>, x: Span)
    ensures Starts(spans + [x]) == Starts(spans) + {x.s} && Ends(spans + [x]) == Ends(spans) + {x.e}
    ensures forall p: int :: Covers(spans + [x], p) <==> Covers(spans, p) || x.s <= p < x.e
  {
    var all := spans + [x];
    assert all[|spans|] == x;
    assert forall i :: 0 <= i < |spans| ==> all[i] == spans[i];
    forall p: int ensures Covers(all, p) <==> Covers(spans, p) || x.s <= p < x.e {
      if Covers(spans, p) {
        var i :| 0 <= i < |spans| && spans[i].s <= p < spans[i].e;
        assert all[i].s <= p < all[i].e;
      }
      if x.s <= p < x.e {
        assert all[|spans|].s <= p < all[|spans|].e;
      }
    }
  }

  // p lies in a gap of at most BRIDGE characters that ends where x starts.
  ghost predicate BridgedTo(spans: seq<Span>, x: Span, p: int) {
    exists i :: 0 <= i < |spans| && spans[i].e <= p < x.s && x.s <= spans[i].e + BRIDGE
  }

  lemma OneMoreBridge(spans: seq<Span>, x: Span, p: int)
    requires x.s <= x.e && StartsBy(spans, x.s)
    ensures Bridged(spans + [x], p) <==> Bridged(spans, p) || BridgedTo(spans, x, p)
  {
    var all := spans + [x];
    assert forall i :: 0 <= i < |spans| ==> all[i] == spans[i];
    if Bridged(spans, p) {
      var i, j :| 0 <= i < |spans| && 0 <= j < |spans| && spans[i].e <= p < spans[j].s
          && spans[j].s <= spans[i].e + BRIDGE;
      assert all[i].e <= p < all[j].s && all[j].s <= all[i].e + BRIDGE;
    }
    if BridgedTo(spans, x, p) {
      var i :| 0 <= i < |spans| && spans[i].e <= p < x.s && x.s <= spans[i].e + BRIDGE;
      assert all[i].e <= p < all[|spans|].s && all[|spans|].s <= all[i].e + BRIDGE;
    }
  }

  // The last interval, widened to x's end.
  function Widened(merged: seq<Span>, x: Span): seq<Span>
    requires merged != []
  {
    var n := |merged| - 1;
    merged[n := Span(merged[n].s, if merged[n].e >= x.e then merged[n].e else x.e)]
  }

  lemma WidenedCovers(merged: seq<Span>, x: Span, p: int)
    requires merged != [] && Proper(merged)
    ensures Covers(Widened(merged, x), p) <==> Covers(merged, p) || merged[|merged| - 1].e <= p < x.e
  {
    var n, m := |merged| - 1, Widened(merged, x);
    if Covers(merged, p) {
      var k :| 0 <= k < |merged| && merged[k].s <= p < merged[k].e;
      assert m[k].s <= p < m[k].e;
    }
    if merged[n].e <= p < x.e {
      assert m[n].s <= p < m[n].e;
    }
    if Covers(m, p) && !(merged[n].e <= p < x.e) {
      var k :| 0 <= k < |m| && m[k].s <= p < m[k].e;
      assert merged[k].s <= p < merged[k].e;
    }
  }

  // A gap that x closes lies past the last interval or was covered already.
  lemma BridgeBeyond(merged: seq<Span>, spans: seq<Span>, x: Span, p: int)
    requires IsMerge(merged, spans) && merged != [] && Proper(spans) && StartsBy(spans, x.s)
    requires BridgedTo(spans, x, p) && p < merged[|merged| - 1].e
    ensures Covers(merged, p)
  {
    var last := merged[|merged| - 1];
    var i :| 0 <= i < |spans| && spans[i].e <= p < x.s && x.s <= spans[i].e + BRIDGE;
    if last.s <= p {
      assert merged[|merged| - 1].s <= p < merged[|merged| - 1].e;
    } else {
      assert last.s in Starts(merged);
      var f :| 0 <= f < |spans| && spans[f].s == last.s;
      assert spans[i].e <= p < spans[f].s && spans[f].s <= spans[i].e + BRIDGE;
      assert Bridged(spans, p);
    }
  }

  lemma WidenedCoverage(merged: seq<Span>, spans: seq<Span>, x: Span, p: int)
    requires IsMerge(merged, spans) && ReachesAll(merged, spans) && Proper(spans)
    requires x.s <= x.e && StartsBy(spans, x.s)
    requires merged != [] && x.s <= merged[|merged| - 1].e + BRIDGE
    ensures Covers(Widened(merged, x), p) <==> Covers(spans + [x], p) || Bridged(spans + [x], p)
  {
    var last := merged[|merged| - 1];
    WidenedCovers(merged, x, p);
    OneMoreSpan(spans, x);
    OneMoreBridge(spans, x, p);
    assert last.e in Ends(merged) && last.s in Starts(merged);
    var f :| 0 <= f < |spans| && spans[f].s == last.s;
    if last.e <= p < x.s {
      var i :| 0 <= i < |spans| && spans[i].e == last.e;
      assert BridgedTo(spans, x, p);
    }
    if x.s <= p < last.e {
      assert merged[|merged| - 1].s <= p < merged[|merged| - 1].e;
    }
    if BridgedTo(spans, x, p) && p < last.e {
      BridgeBeyond(merged, spans, x, p);
    }
  }

  lemma MergeWidens(merged: seq<Span>, spans: seq<Span>, x: Span)
    requires IsMerge(merged, spans) && ReachesAll(merged, spans) && Proper(spans)
    requires x.s <= x.e && StartsBy(spans, x.s)
    requires merged != [] && x.s <= merged[|merged| - 1].e + BRIDGE
    ensures IsMerge(Widened(merged, x), spans + [x]) && ReachesAll(Widened(merged, x), spans + [x])
  {
    var m, n := Widened(merged, x), |merged| - 1;
    forall p: int ensures Covers(m, p) <==> Covers(spans + [x], p) || Bridged(spans + [x], p) {
      WidenedCoverage(merged, spans, x, p);
    }
    OneMoreSpan(spans, x);
    forall k | 0 <= k < |m| ensures m[k].s in Starts(spans) && m[k].e in Ends(spans) + {x.e} {
      assert merged[k].s in Starts(merged) && merged[k].e in Ends(merged);
    }
  }

  lemma MergeOpens(merged: seq<Span>, spans: seq<Span>, x: Span)
    requires IsMerge(merged, spans) && ReachesAll(merged, spans)
    requires x.s <= x.e && StartsBy(spans, x.s)
    requires merged != [] ==> x.s > merged[|merged| - 1].e + BRIDGE
    ensures IsMerge(merged + [x], spans + [x]) && ReachesAll(merged + [x], spans + [x])
  {
    OneMoreSpan(spans, x);
    OneMoreSpan(merged, x);
    forall p: int ensures Covers(merged + [x], p) <==> Covers(spans + [x], p) || Bridged(spans + [x], p) {
      OneMoreBridge(spans, x, p);
    }
    LastEndsLast(merged);
  }

  lemma LastEndsLast(merged: seq<Span>)
    requires Proper(merged) && Separated(merged)
    ensures forall i :: 0 <= i < |merged| ==> merged[i].e <= merged[|merged| - 1].e
  {
  }

  // Each span lies whole within one merged interval.
  ghost predicate Holds(merged: seq<Span>, x: Span) {
    exists j :: 0 <= j < |merged| && merged[j].s <= x.s && x.e <= merged[j].e
  }

  ghost predicate HoldsAll(merged: seq<Span>, spans: seq<Span>) {
    forall i :: 0 <= i < |spans| ==> Holds(merged, spans[i])
  }

  lemma HoldsWhenWidened(merged: seq<Span>, spans: seq<Span>, x: Span)
    requires merged != [] && HoldsAll(merged, spans) && Starts(merged) <= Starts(spans) && StartsBy(spans, x.s)
    ensures HoldsAll(Widened(merged, x), spans + [x])
  {
    var m, n := Widened(merged, x), |merged| - 1;
    assert merged[n].s in Starts(merged);
    assert m[n].s <= x.s && x.e <= m[n].e;
    forall i | 0 <= i < |spans| ensures Holds(m, (spans + [x])[i]) {
      var j :| 0 <= j < |merged| && merged[j].s <= spans[i].s && spans[i].e <= merged[j].e;
      assert m[j].s <= spans[i].s && spans[i].e <= m[j].e;
    }
  }

  lemma HoldsWhenOpened(merged: seq<Span>, spans: seq<Span>, x: Span)
    requires HoldsAll(merged, spans)
    ensures HoldsAll(merged + [x], spans + [x])
  {
    var m := merged + [x];
    assert m[|merged|] == x;
    forall i | 0 <= i < |spans| ensures Holds(m, (spans + [x])[i]) {
      var j :| 0 <= j < |merged| && merged[j].s <= spans[i].s && spans[i].e <= merged[j].e;
      assert m[j] == merged[j];
    }
  }

  method MergeSpans(spans: seq<Span>) returns (merged: seq<Span>)
    requires Sorted(spans) && Proper(spans)
    ensures IsMerge(merged, spans) && HoldsAll(merged, spans)
  {
    merged := [];
    for n := 0 to |spans|
      invariant IsMerge(merged, spans[..n]) && ReachesAll(merged, spans[..n]) && HoldsAll(merged, spans[..n])
    {
      var x := spans[n];
      assert spans[..n + 1] == spans[..n] + [x];
      var last := |merged| - 1;
      if merged != [] && x.s <= merged[last].e + BRIDGE {
        MergeWidens(merged, spans[..n], x);
        HoldsWhenWidened(merged, spans[..n], x);
        merged := merged[last := Span(merged[last].s, if merged[last].e >= x.e then merged[last].e else x.e)];
      } else {
        MergeOpens(merged, spans[..n], x);
        HoldsWhenOpened(merged, spans[..n], x);
        merged := merged + [x];
      }
    }
    assert spans[..|spans|] == spans;
  }

  // ----- cutting to the budget -----

  function StripLeft(t: string, isSpace: char -> bool): string {
    if t == "" || !isSpace(t[0]) then t else StripLeft(t[1..], isSpace)
  }

  function StripRight(t: string, isSpace: char -> bool): string {
    if t == "" || !isSpace(t[|t| - 1]) then t else StripRight(t[..|t| - 1], isSpace)
  }

  function Strip(t: string, isSpace: char -> bool): string {
    StripRight(StripLeft(t, isSpace), isSpace)
  }

  function Slice(text: string, x: Span): string {
    if x.s <= x.e <= |text| then text[x.s..x.e] else ""
  }

  // The non-empty stripped chunks, in order.
  function Chunks(text: string, spans: seq<Span>, isSpace: char -> bool): seq<string> {
    if spans == [] then [] else ChunkOf(text, spans[0], isSpace) + Chunks(text, spans[1..], isSpace)
  }

  function Join(parts: seq<string>): string {
    if parts == [] then ""
    else if |parts| == 1 then parts[0]
    else parts[0] + SEPARATOR + Join(parts[1..])
  }

  function Take(t: string, n: nat): (r: string)
    ensures r <= t && |r| == if |t| <= n then |t| else n
  {
    if |t| <= n then t else t[..n]
  }

  function TotalLength(parts: seq<string>): nat {
    if parts == [] then 0 else |parts[0]| + TotalLength(parts[1..])
  }

  lemma {:induction false} JoinAtLeast(parts: seq<string>)
    ensures |Join(parts)| >= TotalLength(parts)
  {
    if parts != [] {
      JoinAtLeast(parts[1..]);
      assert |parts| == 1 ==> parts[1..] == [];
    }
  }

  lemma {:induction false} JoinIsPrefix(parts: seq<string>, more: seq<string>)
    requires parts != []
    ensures Join(parts) <= Join(parts + more)
  {
    if more == [] {
      assert parts + more == parts;
    } else if |parts| == 1 {
      assert (parts + more)[1..] == more && (parts + more)[0] == parts[0];
    } else {
      JoinIsPrefix(parts[1..], more);
      assert (parts + more)[1..] == parts[1..] + more && (parts + more)[0] == parts[0];
    }
  }

  /** Chunks past the budget cannot show: the early stop loses nothing. */
  lemma EarlyStopIsLossless(parts: seq<string>, more: seq<string>, budget: nat)
    requires TotalLength(parts) >= budget && parts != []
    ensures Take(Join(parts + more), budget) == Take(Join(parts), budget)
  {
    JoinAtLeast(parts);
    JoinIsPrefix(parts, more);
  }

  lemma {:induction false} TotalOneMore(parts: seq<string>, p: string)
    ensures TotalLength(parts + [p]) == TotalLength(parts) + |p|
  {
    if parts == [] {
      assert [] + [p] == [p] && [p][1..] == [];
    } else {
      assert (parts + [p])[0] == parts[0] && (parts + [p])[1..] == parts[1..] + [p];
      TotalOneMore(parts[1..], p);
    }
  }

  function ChunkOf(text: string, x: Span, isSpace: char -> bool): seq<string> {
    var chunk := Strip(Slice(text, x), isSpace);
    if chunk == "" then [] else [chunk]
  }

  // ----- what a chunk is -----

  predicate AllIn(spans: seq<Span>, size: nat) {
    forall i :: 0 <= i < |spans| ==> spans[i].s <= spans[i].e <= size
  }

  predicate Blank(text: string, x: Span, isSpace: char -> bool)
    requires x.s <= x.e <= |text|
  {
    forall i :: x.s <= i < x.e ==> isSpace(text[i])
  }

  // The text from a to b within x, from its first character that is no space to its last.
  ghost predicate IsTrim(text: string, x: Span, chunk: string, isSpace: char -> bool)
    requires x.s <= x.e <= |text|
  {
    exists a: nat, b: nat ::
      && x.s <= a < b <= x.e && chunk == text[a..b]
      && !isSpace(text[a]) && !isSpace(text[b - 1])
      && (forall i :: x.s <= i < a || b <= i < x.e ==> isSpace(text[i]))
  }

  lemma {:induction false} StripLeftSays(t: string, isSpace: char -> bool) returns (n: nat)
    ensures n <= |t| && StripLeft(t, isSpace) == t[n..]
    ensures (forall i :: 0 <= i < n ==> isSpace(t[i])) && (n < |t| ==> !isSpace(t[n]))
  {
    n := 0;
    if t != "" && isSpace(t[0]) {
      var rest := StripLeftSays(t[1..], isSpace);
      n := rest + 1;
      assert t[1..][rest..] == t[n..];
      assert forall i :: 1 <= i < n ==> t[i] == t[1..][i - 1];
    }
  }

  lemma {:induction false} StripRightSays(t: string, isSpace: char -> bool) returns (n: nat)
    ensures n <= |t| && StripRight(t, isSpace) == t[..n]
    ensures (forall i :: n <= i < |t| ==> isSpace(t[i])) && (n > 0 ==> !isSpace(t[n - 1]))
  {
    n := |t|;
    if t != "" && isSpace(t[|t| - 1]) {
      n := StripRightSays(t[..|t| - 1], isSpace);
      assert t[..|t| - 1][..n] == t[..n];
    }
  }

  lemma StripSays(t: string, isSpace: char -> bool) returns (n: nat, m: nat)
    ensures n <= m <= |t| && Strip(t, isSpace) == t[n..m]
    ensures forall i :: 0 <= i < n || m <= i < |t| ==> isSpace(t[i])
    ensures n < m ==> !isSpace(t[n]) && !isSpace(t[m - 1])
  {
    n := StripLeftSays(t, isSpace);
    var u := t[n..];
    var k := StripRightSays(u, isSpace);
    m := n + k;
    assert u[..k] == t[n..m];
    assert forall i :: 0 <= i < |u| ==> u[i] == t[n + i];
    forall i | m <= i < |t| ensures isSpace(t[i]) { assert t[i] == u[i - n]; }
    assert k > 0 ==> u[0] == t[n] && u[k - 1] == t[m - 1];
  }

  lemma SliceOfSlice(text: string, s: nat, e: nat, n: nat, m: nat)
    requires s <= e <= |text| && n <= m <= e - s
    ensures text[s..e][n..m] == text[s + n..s + m]
    ensures forall i :: s <= i < e ==> text[i] == text[s..e][i - s]
  {
    var t := text[s..e];
    assert |t[n..m]| == |text[s + n..s + m]|;
    forall i | 0 <= i < m - n ensures t[n..m][i] == text[s + n..s + m][i] {
      assert t[n..m][i] == t[n + i] == text[s + n + i];
    }
  }

  /** An interval gives no chunk exactly when it is all spaces; otherwise its chunk is its own text without
      the spaces at both ends. */
  lemma ChunkSays(text: string, x: Span, isSpace: char -> bool)
    requires x.s <= x.e <= |text|
    ensures if Blank(text, x, isSpace) then ChunkOf(text, x, isSpace) == []
            else |ChunkOf(text, x, isSpace)| == 1 && IsTrim(text, x, ChunkOf(text, x, isSpace)[0], isSpace)
  {
    var t := text[x.s..x.e];
    assert Slice(text, x) == t;
    var n, m := StripSays(t, isSpace);
    SliceOfSlice(text, x.s, x.e, n, m);
    var a, b := x.s + n, x.s + m;
    forall i | x.s <= i < a || b <= i < x.e ensures isSpace(text[i]) {
      assert text[i] == t[i - x.s];
    }
    if n < m {
      assert text[a] == t[n] && text[b - 1] == t[m - 1];
      assert IsTrim(text, x, text[a..b], isSpace);
    } else {
      assert Blank(text, x, isSpace);
    }
  }

  // The intervals that are not all spaces, in order.
  function NonBlank(text: string, spans: seq<Span>, isSpace: char -> bool): seq<Span>
    requires AllIn(spans, |text|)
  {
    if spans == [] then []
    else (if Blank(text, spans[0], isSpace) then [] else [spans[0]]) + NonBlank(text, spans[1..], isSpace)
  }

  ghost predicate AreTrims(text: string, spans: seq<Span>, parts: seq<string>, isSpace: char -> bool)
    requires AllIn(spans, |text|)
  {
    |parts| == |spans| && forall k :: 0 <= k < |spans| ==> IsTrim(text, spans[k], parts[k], isSpace)
  }

  /** The chunks are the trimmed texts of the merged intervals that are not all spaces, one each, in order. */
  lemma {:induction false} ChunksSay(text: string, spans: seq<Span>, isSpace: char -> bool)
    requires AllIn(spans, |text|)
    ensures AllIn(NonBlank(text, spans, isSpace), |text|)
    ensures AreTrims(text, NonBlank(text, spans, isSpace), Chunks(text, spans, isSpace), isSpace)
  {
    if spans != [] {
      ChunksSay(text, spans[1..], isSpace);
      ChunkSays(text, spans[0], isSpace);
      var more, rest := NonBlank(text, spans[1..], isSpace), Chunks(text, spans[1..], isSpace);
      if Blank(text, spans[0], isSpace) {
        assert [] + more == more && [] + rest == rest;
      } else {
        OneMoreTrim(text, spans[0], more, ChunkOf(text, spans[0], isSpace), rest, isSpace);
      }
    }
  }

  lemma OneMoreTrim(text: string, x: Span, more: seq<Span>, c: seq<string>, rest: seq<string>, isSpace: char -> bool)
    requires x.s <= x.e <= |text| && AllIn(more, |text|) && AreTrims(text, more, rest, isSpace)
    requires |c| == 1 && IsTrim(text, x, c[0], isSpace)
    ensures AllIn([x] + more, |text|) && AreTrims(text, [x] + more, c + rest, isSpace)
  {
    var xs, cs := [x] + more, c + rest;
    forall k | 0 <= k < |xs| ensures IsTrim(text, xs[k], cs[k], isSpace) {
      if k > 0 {
        assert xs[k] == more[k - 1] && cs[k] == rest[k - 1];
      }
    }
  }

  /** Where the parts stand in the joined text: each whole, with " || " before the next. */
  lemma {:induction false} JoinAt(parts: seq<string>, k: nat) returns (at: nat)
    requires k < |parts|
    ensures at == TotalLength(parts[..k]) + 4 * k
    ensures at + |parts[k]| <= |Join(parts)| && Join(parts)[at..at + |parts[k]|] == parts[k]
    ensures if k == |parts| - 1 then at + |parts[k]| == |Join(parts)|
            else at + |parts[k]| + 4 <= |Join(parts)| && Join(parts)[at + |parts[k]|..at + |parts[k]| + 4] == " || "
  {
    at := 0;
    if k > 0 {
      var rest := JoinAt(parts[1..], k - 1);
      var joined := Join(parts[1..]);
      var head := parts[0] + SEPARATOR;
      at := rest + |head|;
      assert Join(parts) == head + joined;
      assert parts[..k][0] == parts[0] && parts[..k][1..] == parts[1..][..k - 1];
      forall i, j | 0 <= i <= j <= |joined| ensures (head + joined)[|head| + i..|head| + j] == joined[i..j] {}
    } else if |parts| > 1 {
      assert Join(parts) == parts[0] + (SEPARATOR + Join(parts[1..]));
    }
  }

  // ----- what is covered -----

  /** The context of a match: the characters of the text that are at most its pad away. */
  ghost predicate InContext(m: Match, size: nat, p: int) {
    0 <= p < size && m.start - m.pad <= p < m.end + m.pad
  }

  lemma PaddedIsContext(m: Match, size: nat, p: int)
    requires m.start <= m.end <= size
    ensures Padded(m, size).s <= p < Padded(m, size).e <==> InContext(m, size, p)
  {
  }

  lemma {:induction false} PaddedAt(ms: seq<Match>, size: nat, i: nat)
    requires i < |ms|
    ensures |PaddedAll(ms, size)| == |ms| && PaddedAll(ms, size)[i] == Padded(ms[i], size)
  {
    var shorter := ms[..|ms| - 1];
    if i < |ms| - 1 {
      PaddedAt(shorter, size, i);
    } else if shorter != [] {
      PaddedAt(shorter, size, 0);
    }
  }

  /** Every match lies with its whole context in one merged interval. */
  ghost predicate KeepsMatches(merged: seq<Span>, ms: seq<Match>, size: nat) {
    forall i :: 0 <= i < |ms| ==>
      exists j :: 0 <= j < |merged| && forall p :: InContext(ms[i], size, p) ==> merged[j].s <= p < merged[j].e
  }

  /** And nothing else is covered but bridged gaps: a merged position is in some match's context, or between. */
  lemma OnlyMatchesCovered(ms: seq<Match>, size: nat, p: int)
    requires forall i :: 0 <= i < |ms| ==> ms[i].start <= ms[i].end <= size
    ensures Covers(Sort(PaddedAll(ms, size)), p) <==> exists i :: 0 <= i < |ms| && InContext(ms[i], size, p)
  {
    var spans := PaddedAll(ms, size);
    SortSorts(spans);
    SameMembers(spans);
    if i :| 0 <= i < |ms| && InContext(ms[i], size, p) {
      PaddedAt(ms, size, i);
      PaddedIsContext(ms[i], size, p);
      var k :| 0 <= k < |Sort(spans)| && Sort(spans)[k] == spans[i];
    }
    if k :| 0 <= k < |Sort(spans)| && Sort(spans)[k].s <= p < Sort(spans)[k].e {
      var i :| 0 <= i < |spans| && spans[i] == Sort(spans)[k];
      if ms == [] {
        assert false;
      }
      PaddedAt(ms, size, 0);
      PaddedAt(ms, size, i);
      PaddedIsContext(ms[i], size, p);
    }
  }

  lemma SameMembers(spans: seq<Span>)
    ensures forall i :: 0 <= i < |spans| ==> spans[i] in Sort(spans)
    ensures forall k :: 0 <= k < |Sort(spans)| ==> Sort(spans)[k] in spans
  {
    SortSorts(spans);
    forall i | 0 <= i < |spans| ensures spans[i] in Sort(spans) { assert spans[i] in multiset(spans); }
    forall k | 0 <= k < |Sort(spans)|
        ensures Sort(spans)[k] in spans { assert Sort(spans)[k] in multiset(Sort(spans)); }
  }

  lemma MergeKeepsMatches(merged: seq<Span>, ms: seq<Match>, size: nat)
    requires HoldsAll(merged, Sort(PaddedAll(ms, size)))
    requires forall i :: 0 <= i < |ms| ==> ms[i].start <= ms[i].end <= size
    ensures KeepsMatches(merged, ms, size)
  {
    var spans := PaddedAll(ms, size);
    SameMembers(spans);
    forall i | 0 <= i < |ms|
      ensures exists j :: 0 <= j < |merged| && forall p :: InContext(ms[i], size, p) ==> merged[j].s <= p < merged[j].e
    {
      PaddedAt(ms, size, i);
      var k :| 0 <= k < |Sort(spans)| && Sort(spans)[k] == spans[i];
      assert Holds(merged, Sort(spans)[k]);
      var j :| 0 <= j < |merged| && merged[j].s <= spans[i].s && spans[i].e <= merged[j].e;
      forall p | InContext(ms[i], size, p) ensures merged[j].s <= p < merged[j].e { PaddedIsContext(ms[i], size, p); }
    }
  }

  lemma MergeStaysIn(merged: seq<Span>, spans: seq<Span>, size: nat)
    requires IsMerge(merged, spans) && forall x :: x in spans ==> x.e <= size
    ensures AllIn(merged, size)
  {
    forall i | 0 <= i < |merged| ensures merged[i].e <= size {
      assert merged[i].e in Ends(merged);
    }
  }

  // Walking one interval further along the merged list.
  lemma NextChunk(text: string, merged: seq<Span>, i: nat, parts: seq<string>, all: seq<string>, isSpace: char -> bool)
    requires i < |merged| && parts + Chunks(text, merged[i..], isSpace) == all
    ensures parts + ChunkOf(text, merged[i], isSpace) + Chunks(text, merged[i + 1..], isSpace) == all
  {
    assert merged[i..][0] == merged[i] && merged[i..][1..] == merged[i + 1..];
    var c, rest := ChunkOf(text, merged[i], isSpace), Chunks(text, merged[i + 1..], isSpace);
    assert parts + c + rest == parts + (c + rest);
  }

  // What the loop over the intervals has collected: everything, or enough to fill the budget.
  ghost predicate Collected(parts: seq<string>, all: seq<string>, budget: nat) {
    parts == all || (parts != [] && parts <= all && TotalLength(parts) >= budget)
  }

  method CollectChunks(text: string, merged: seq<Span>, budget: nat, isSpace: char -> bool) returns (parts: seq<string>)
    ensures Collected(parts, Chunks(text, merged, isSpace), budget)
  {
    parts := [];
    var total := 0;
    ghost var all := Chunks(text, merged, isSpace);
    assert merged[0..] == merged && [] + all == all;
    for i := 0 to |merged|
      invariant total == TotalLength(parts)
      invariant parts + Chunks(text, merged[i..], isSpace) == all
    {
      NextChunk(text, merged, i, parts, all, isSpace);
      var chunk := Strip(Slice(text, merged[i]), isSpace);
      if chunk == "" {
        assert parts + [] == parts;
        continue;
      }
      TotalOneMore(parts, chunk);
      parts := parts + [chunk];
      total := total + |chunk|;
      if total >= budget {
        break;
      }
    }
    assert merged[|merged|..] == [] && parts + [] == parts;
  }

  method CutChunks(text: string, merged: seq<Span>, budget: nat, isSpace: char -> bool) returns (r: string)
    ensures r == Take(Join(Chunks(text, merged, isSpace)), budget)
  {
    var parts := CollectChunks(text, merged, budget, isSpace);
    ghost var all := Chunks(text, merged, isSpace);
    if parts != all {
      assert all == parts + all[|parts|..];
      EarlyStopIsLossless(parts, all[|parts|..], budget);
    }
    r := Take(Join(parts), budget);
  }

  /** `goal_conditioned_extract`: the head of the text when nothing matched, otherwise the chunks of
      the merged spans, joined and cut; never longer than the budget. */
  method GoalConditionedExtract(text: string, matches: seq<Match>, budget: nat, isSpace: char -> bool)
    returns (r: string, ghost merged: seq<Span>)
    requires forall i :: 0 <= i < |matches| ==> MatchIn(matches[i], text)
    ensures |r| <= budget
    ensures AllIn(merged, |text|) && (text != "" ==> KeepsMatches(merged, matches, |text|))
    ensures AllIn(NonBlank(text, merged, isSpace), |text|)
    ensures AreTrims(text, NonBlank(text, merged, isSpace), Chunks(text, merged, isSpace), isSpace)
    ensures text == "" ==> r == ""
    ensures matches == [] ==> r == Take(text, budget)
    ensures text != "" && matches != [] ==>
              && IsMerge(merged, Sort(PaddedAll(matches, |text|)))
              && r == Take(Join(Chunks(text, merged, isSpace)), budget)
  {
    merged := [];
    if text == "" {
      return "", [];
    }
    var spans := PadMatches(matches, |text|);
    PaddedFits(matches, text);
    if spans == [] {
      return Take(text, budget), [];
    }
    SortedStaysProper(spans);
    var all := MergeSpans(Sort(spans));
    r := CutChunks(text, all, budget, isSpace);
    merged := all;
    ExtractIsRight(text, matches, merged, isSpace);
  }

  lemma ExtractIsRight(text: string, matches: seq<Match>, merged: seq<Span>, isSpace: char -> bool)
    requires forall i :: 0 <= i < |matches| ==> MatchIn(matches[i], text)
    requires var spans := Sort(PaddedAll(matches, |text|)); IsMerge(merged, spans) && HoldsAll(merged, spans)
    ensures AllIn(merged, |text|) && KeepsMatches(merged, matches, |text|)
    ensures AllIn(NonBlank(text, merged, isSpace), |text|)
    ensures AreTrims(text, NonBlank(text, merged, isSpace), Chunks(text, merged, isSpace), isSpace)
  {
    var spans := PaddedAll(matches, |text|);
    PaddedFits(matches, text);
    SameMembers(spans);
    MergeStaysIn(merged, Sort(spans), |text|);
    MergeKeepsMatches(merged, matches, |text|);
    ChunksSay(text, merged, isSpace);
  }

  method PadMatches(matches: seq<Match>, size: nat) returns (spans: seq<Span>)
    ensures spans == PaddedAll(matches, size)
  {
    spans := [];
    for i := 0 to |matches|
      invariant spans == PaddedAll(matches[..i], size)
    {
      assert matches[..i + 1][..i] == matches[..i];
      spans := spans + [Padded(matches[i], size)];
    }
    assert matches[..|matches|] == matches;
  }

  lemma SortedStaysProper(spans: seq<Span>)
    requires forall x :: x in spans ==> x.s <= x.e
    ensures Sorted(Sort(spans)) && Proper(Sort(spans))
  {
    SortSorts(spans);
    var sorted := Sort(spans);
    forall i | 0 <= i < |sorted| ensures sorted[i].s <= sorted[i].e {
      assert sorted[i] in multiset(sorted);
      assert sorted[i] in spans;
    }
  }
}
