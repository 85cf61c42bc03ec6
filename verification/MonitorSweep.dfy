/** The scheduled monitor sweep: per source, the collected items that match the keywords and were not
    seen before are emitted, once. */
module MonitorSweep {
  import opened Options
  import opened TextSearch

  type Source = string
  type Id = string

  // `hay` is the lower-cased title and description the keywords are looked up in.
  datatype Item = Item(id: Id, hay: string, payload: nat)

  const NEW_MAX: nat := 500

  predicate Contains(hay: string, needle: string) {
    exists i: nat :: i <= |hay| && OccursAt(hay, needle, i)
  }

  predicate Matches(it: Item, keywords: seq<string>) {
    keywords == [] || exists k :: k in keywords && Contains(it.hay, k)
  }

  /** An item matches when there is nothing to look for, or its text has a keyword somewhere in it. */
  lemma MatchesExactlyWhen(it: Item, keywords: seq<string>)
    ensures Matches(it, keywords) <==>
            keywords == [] || exists kw, before, after :: kw in keywords && it.hay == before + kw + after
  {
    if keywords != [] && Matches(it, keywords) {
      var kw :| kw in keywords && Contains(it.hay, kw);
      var i: nat :| i <= |it.hay| && OccursAt(it.hay, kw, i);
      assert it.hay == it.hay[..i] + kw + it.hay[i + |kw|..];
    }
    if kw, before, after :| kw in keywords && it.hay == before + kw + after {
      assert it.hay[|before|..|before| + |kw|] == kw;
      assert OccursAt(it.hay, kw, |before|);
      assert Contains(it.hay, kw);
    }
  }

  type Seen = map<Source, set<Id>>

  function SeenOf(seen: Seen, src: Source): set<Id> {
    if src in seen then seen[src] else {}
  }

  function Matching(items: seq<Item>, keywords: seq<string>): seq<Item> {
    if items == [] then []
    else (if Matches(items[0], keywords) then [items[0]] else []) + Matching(items[1..], keywords)
  }

  function Ids(items: seq<Item>): (r: seq<Id>)
    ensures |r| == |items| && forall i :: 0 <= i < |items| ==> r[i] == items[i].id
  {
    if items == [] then [] else [items[0].id] + Ids(items[1..])
  }

  // Order-preserving: the non-empty ids outside `seen`.
  function Unseen(ids: seq<Id>, seen: set<Id>): seq<Id> {
    if ids == [] then []
    else (if ids[0] != "" && ids[0] !in seen then [ids[0]] else []) + Unseen(ids[1..], seen)
  }

  lemma {:induction false} UnseenMembers(ids: seq<Id>, seen: set<Id>, i: Id)
    ensures i in Unseen(ids, seen) <==> i in ids && i != "" && i !in seen
  {
    if ids != [] {
      UnseenMembers(ids[1..], seen, i);
      assert ids == [ids[0]] + ids[1..];
    }
  }

  // One more id filtered.
  lemma UnseenFrom(found: seq<Id>, ids: seq<Id>, seen: set<Id>, k: nat)
    requires k < |ids| && found + Unseen(ids[k..], seen) == Unseen(ids, seen)
    ensures var more := if ids[k] != "" && ids[k] !in seen then found + [ids[k]] else found;
            more + Unseen(ids[k + 1..], seen) == Unseen(ids, seen)
  {
    assert ids[k..][0] == ids[k] && ids[k..][1..] == ids[k + 1..];
  }

  function WithIdIn(items: seq<Item>, ids: set<Id>): seq<Item> {
    if items == [] then []
    else (if items[0].id in ids then [items[0]] else []) + WithIdIn(items[1..], ids)
  }

  // What is left of `all` after leaving some out, in the same order.
  ghost predicate IsSubsequence<T>(some: seq<T>, all: seq<T>)
    decreases |all|
  {
    some == [] || (all != [] && (IsSubsequence(some, all[1..])
                                 || (some[0] == all[0] && IsSubsequence(some[1..], all[1..]))))
  }

  /** Matching, picking by id and filtering the seen keep the order of what was collected. */
  lemma {:induction false} OrderIsKept(items: seq<Item>, keywords: seq<string>, ids: set<Id>)
    ensures IsSubsequence(Matching(items, keywords), items) && IsSubsequence(WithIdIn(items, ids), items)
  {
    if items != [] {
      OrderIsKept(items[1..], keywords, ids);
      var m, w := Matching(items[1..], keywords), WithIdIn(items[1..], ids);
      assert ([items[0]] + m)[1..] == m && ([items[0]] + w)[1..] == w && [] + m == m && [] + w == w;
    }
  }

  lemma {:induction false} UnseenInOrder(ids: seq<Id>, seen: set<Id>)
    ensures IsSubsequence(Unseen(ids, seen), ids)
  {
    if ids != [] {
      UnseenInOrder(ids[1..], seen);
      var u := Unseen(ids[1..], seen);
      assert ([ids[0]] + u)[1..] == u && [] + u == u;
    }
  }

  function Reversed(items: seq<Item>): seq<Item> {
    if items == [] then [] else Reversed(items[1..]) + [items[0]]
  }

  function Newest(items: seq<Item>): seq<Item> {
    if |items| <= NEW_MAX then items else items[..NEW_MAX]
  }

  function NonEmpty(ids: seq<Id>): set<Id> {
    set i | i in ids && i != ""
  }

  function Marked(seen: Seen, src: Source, ids: seq<Id>): (r: Seen)
    ensures forall other :: SeenOf(r, other) == SeenOf(seen, other) + (if other == src then NonEmpty(ids) else {})
  {
    if NonEmpty(ids) == {} then seen else seen[src := SeenOf(seen, src) + NonEmpty(ids)]
  }

  class MonitorStore {
    var seen: Seen
    var recent: seq<Item>

    constructor ()
      ensures seen == map[] && recent == []
    {
      seen, recent := map[], [];
    }

    method FilterNew(src: Source, ids: seq<Id>) returns (unseen: seq<Id>)
      ensures unseen == Unseen(ids, SeenOf(seen, src))
    {
      unseen := [];
      assert ids[0..] == ids;
      for k := 0 to |ids|
        invariant unseen + Unseen(ids[k..], SeenOf(seen, src)) == Unseen(ids, SeenOf(seen, src))
      {
        UnseenFrom(unseen, ids, SeenOf(seen, src), k);
        if ids[k] != "" && !(src in seen && ids[k] in seen[src]) {
          unseen := unseen + [ids[k]];
        }
      }
    }

    method MarkSeen(src: Source, ids: seq<Id>)
      modifies this`seen
      ensures seen == Marked(old(seen), src, ids)
    {
      var marked := set i | i in ids && i != "";
      if marked != {} {
        seen := seen[src := (if src in seen then seen[src] else {}) + marked];
      }
    }

    // LPUSH of the whole batch, then LTRIM.
    method RecordNew(items: seq<Item>)
      modifies this`recent
      ensures recent == if items == [] then old(recent) else Newest(Reversed(items) + old(recent))
    {
      if items == [] {
        return;
      }
      assert items[0..] == items;
      for k := 0 to |items|
        invariant Reversed(items[k..]) + recent == Reversed(items) + old(recent)
      {
        assert items[k..][0] == items[k] && items[k..][1..] == items[k + 1..];
        recent := [items[k]] + recent;
      }
      if |recent| > NEW_MAX {
        recent := recent[..NEW_MAX];
      }
    }
  }

  // ----- one source's turn, and whole histories -----

  // One source's turn of a sweep: what it collected, None when its scraper raised, and the keywords of that
  // sweep, which are read afresh each time.
  datatype Turn = Turn(src: Source, collected: Option<seq<Item>>, keywords: seq<string>)

  function MatchedBy(t: Turn): seq<Item> {
    if t.collected.Some? then Matching(t.collected.value, t.keywords) else []
  }

  // What is remembered after a history of turns, and for one source.
  function SeenMap(turns: seq<Turn>): Seen {
    if turns == [] then map[]
    else
      var last := turns[|turns| - 1];
      Marked(SeenMap(turns[..|turns| - 1]), last.src, Ids(MatchedBy(last)))
  }

  function SeenAfter(turns: seq<Turn>, src: Source): set<Id> {
    SeenOf(SeenMap(turns), src)
  }

  function Emitted(matched: seq<Item>, seen: set<Id>): seq<Item> {
    WithIdIn(matched, NonEmpty(Unseen(Ids(matched), seen)))
  }

  // What a turn emits after a history of turns.
  function EmittedBy(before: seq<Turn>, t: Turn): seq<Item> {
    Emitted(MatchedBy(t), SeenAfter(before, t.src))
  }

  // What the k-th turn of a history emits.
  function EmittedAt(turns: seq<Turn>, k: nat): seq<Item>
    requires k < |turns|
  {
    EmittedBy(turns[..k], turns[k])
  }

  function AllEmitted(turns: seq<Turn>): seq<Item> {
    if turns == [] then []
    else AllEmitted(turns[..|turns| - 1]) + EmittedAt(turns, |turns| - 1)
  }

  function Occurrences(items: seq<Item>, i: Id): nat {
    if items == [] then 0 else (if items[0].id == i then 1 else 0) + Occurrences(items[1..], i)
  }

  ghost predicate Matched(t: Turn, src: Source, i: Id) {
    t.src == src && i in Ids(MatchedBy(t))
  }

  // The id was matched for this source in some turn before the k-th.
  ghost predicate MatchedBefore(turns: seq<Turn>, k: nat, src: Source, i: Id)
    requires k <= |turns|
  {
    exists j :: 0 <= j < k && Matched(turns[j], src, i)
  }

  lemma SeenOneMore(turns: seq<Turn>, k: nat, src: Source, i: Id)
    requires k < |turns|
    ensures i in SeenAfter(turns[..k + 1], src) <==>
            i in SeenAfter(turns[..k], src) || (i != "" && Matched(turns[k], src, i))
  {
    var shorter := turns[..k + 1];
    assert shorter[..|shorter| - 1] == turns[..k] && shorter[|shorter| - 1] == turns[k];
  }

  lemma {:induction false} SeenMeansMatchedEarlier(turns: seq<Turn>, k: nat, src: Source, i: Id)
    requires k <= |turns|
    ensures i in SeenAfter(turns[..k], src) <==> i != "" && MatchedBefore(turns, k, src, i)
  {
    if k > 0 {
      SeenMeansMatchedEarlier(turns, k - 1, src, i);
      SeenOneMore(turns, k - 1, src, i);
    }
  }

  lemma {:induction false} OccurrencesKept(items: seq<Item>, ids: set<Id>, i: Id)
    ensures Occurrences(WithIdIn(items, ids), i) == if i in ids then Occurrences(items, i) else 0
  {
    if items != [] {
      OccurrencesKept(items[1..], ids, i);
      if items[0].id in ids {
        assert WithIdIn(items, ids)[1..] == WithIdIn(items[1..], ids);
      } else {
        assert WithIdIn(items, ids) == WithIdIn(items[1..], ids);
      }
    }
  }

  lemma {:induction false} OccursMeansListed(items: seq<Item>, i: Id)
    ensures Occurrences(items, i) > 0 <==> i in Ids(items)
  {
    if items != [] {
      OccursMeansListed(items[1..], i);
    }
  }

  /** Over any history of turns, an id is emitted for its source exactly in the first turn that
      collects it with a match, as often as that turn collected it; empty ids never are. */
  lemma EmittedExactlyOnce(turns: seq<Turn>, k: nat, i: Id)
    requires k < |turns|
    ensures Occurrences(EmittedAt(turns, k), i) ==
            if i != "" && !MatchedBefore(turns, k, turns[k].src, i)
            then Occurrences(MatchedBy(turns[k]), i) else 0
  {
    var matched := MatchedBy(turns[k]);
    var seen := SeenAfter(turns[..k], turns[k].src);
    OccurrencesKept(matched, NonEmpty(Unseen(Ids(matched), seen)), i);
    UnseenMembers(Ids(matched), seen, i);
    SeenMeansMatchedEarlier(turns, k, turns[k].src, i);
    OccursMeansListed(matched, i);
  }

  /** No two turns of one source emit the same id. */
  lemma NeverEmittedTwice(turns: seq<Turn>, j: nat, k: nat, i: Id)
    requires j < k < |turns| && turns[j].src == turns[k].src
    requires i in Ids(EmittedAt(turns, j))
    ensures i !in Ids(EmittedAt(turns, k))
  {
    EmittedExactlyOnce(turns, j, i);
    EmittedExactlyOnce(turns, k, i);
    OccursMeansListed(EmittedAt(turns, j), i);
    OccursMeansListed(EmittedAt(turns, k), i);
    OccursMeansListed(MatchedBy(turns[j]), i);
    assert Matched(turns[j], turns[k].src, i);
  }

  function OwnTurns(turns: seq<Turn>, src: Source): seq<Turn> {
    if turns == [] then []
    else
      var last := turns[|turns| - 1];
      OwnTurns(turns[..|turns| - 1], src) + (if last.src == src && last.collected.Some? then [last] else [])
  }

  /** A source's failed turns, and everything the other sources do, make no difference to it. */
  lemma {:induction false} OtherTurnsDoNotMatter(turns: seq<Turn>, src: Source)
    ensures SeenAfter(turns, src) == SeenAfter(OwnTurns(turns, src), src)
  {
    if turns != [] {
      var shorter, last := turns[..|turns| - 1], turns[|turns| - 1];
      OtherTurnsDoNotMatter(shorter, src);
      var own := OwnTurns(turns, src);
      if last.src == src && last.collected.Some? {
        assert own[..|own| - 1] == OwnTurns(shorter, src);
      } else {
        assert own == OwnTurns(shorter, src);
        assert last.collected.None? ==> Ids(MatchedBy(last)) == [];
      }
    }
  }

  // ----- the sweep -----

  datatype Summary = Failed | Swept(collected: nat, matched: nat, unseen: nat)

  function SummaryOf(before: seq<Turn>, t: Turn): Summary {
    if t.collected.None? then Failed
    else Swept(|t.collected.value|, |MatchedBy(t)|, |EmittedBy(before, t)|)
  }

  // A source swept twice keeps its later summary.
  function Summaries(before: seq<Turn>, turns: seq<Turn>, k: nat): map<Source, Summary>
    requires k <= |turns|
  {
    if k == 0 then map[]
    else
      var last := turns[k - 1];
      Summaries(before, turns, k - 1)[last.src := SummaryOf(Extended(before, turns, k - 1), last)]
  }

  // The history after the first `k` turns of a sweep.
  function Extended(before: seq<Turn>, turns: seq<Turn>, k: nat): seq<Turn>
    requires k <= |turns|
  {
    if k == 0 then before else Extended(before, turns, k - 1) + [turns[k - 1]]
  }

  lemma {:induction false} ExtendedIsConcat(before: seq<Turn>, turns: seq<Turn>, k: nat)
    requires k <= |turns|
    ensures Extended(before, turns, k) == before + turns[..k]
  {
    if k > 0 {
      ExtendedIsConcat(before, turns, k - 1);
      assert turns[..k] == turns[..k - 1] + [turns[k - 1]];
    }
  }

  lemma ExtendedAll(before: seq<Turn>, turns: seq<Turn>)
    ensures Extended(before, turns, |turns|) == before + turns
  {
    ExtendedIsConcat(before, turns, |turns|);
    assert turns[..|turns|] == turns;
  }

  // The store is what a history of turns made it.
  ghost predicate Follows(store: MonitorStore, turns: seq<Turn>)
    reads store
  {
    && store.seen == SeenMap(turns)
    && store.recent == RecentAfter(turns)
  }

  function RecentAfter(turns: seq<Turn>): seq<Item> {
    Newest(Reversed(AllEmitted(turns)))
  }

  lemma {:induction false} ReversedAt(items: seq<Item>, i: nat)
    requires i < |items|
    ensures |Reversed(items)| == |items| && Reversed(items)[i] == items[|items| - 1 - i]
  {
    if |items| == 1 {
      assert items[1..] == [];
    } else if i < |items| - 1 {
      ReversedAt(items[1..], i);
    } else {
      ReversedAt(items[1..], 0);
    }
  }

  /** The inspection list: the latest emitted items, at most 500, newest first. */
  lemma RecentIsNewestFirst(turns: seq<Turn>)
    ensures var all, recent := AllEmitted(turns), RecentAfter(turns);
            && |recent| == (if |all| <= 500 then |all| else 500)
            && forall i :: 0 <= i < |recent| ==> recent[i] == all[|all| - 1 - i]
  {
    var all := AllEmitted(turns);
    if all != [] {
      ReversedAt(all, 0);
    }
    forall i | 0 <= i < |all| ensures Reversed(all)[i] == all[|all| - 1 - i] { ReversedAt(all, i); }
  }

  lemma {:induction false} FewerMatch(items: seq<Item>, keywords: seq<string>, ids: set<Id>)
    ensures |Matching(items, keywords)| <= |items| && |WithIdIn(items, ids)| <= |items|
  {
    if items != [] {
      FewerMatch(items[1..], keywords, ids);
    }
  }

  /** Of the turns a source had in a sweep, the last one's summary is kept; it says failed exactly if the
      scraper raised. */
  lemma {:induction false} LatestSummaryKept(before: seq<Turn>, turns: seq<Turn>, k: nat, j: nat)
    requires j < k <= |turns| && forall i :: j < i < k ==> turns[i].src != turns[j].src
    ensures turns[j].src in Summaries(before, turns, k)
    ensures Summaries(before, turns, k)[turns[j].src] == SummaryOf(before + turns[..j], turns[j])
    ensures Summaries(before, turns, k)[turns[j].src].Failed? <==> turns[j].collected.None?
  {
    if j < k - 1 {
      LatestSummaryKept(before, turns, k - 1, j);
    } else {
      ExtendedIsConcat(before, turns, j);
    }
  }

  /** A summary's numbers: what was collected, at most that many matched, at most that many new. */
  lemma SummaryCounts(before: seq<Turn>, t: Turn)
    requires t.collected.Some?
    ensures var s := SummaryOf(before, t);
            s.Swept? && s.collected == |t.collected.value| >= s.matched >= s.unseen == |EmittedBy(before, t)|
  {
    var matched := MatchedBy(t);
    FewerMatch(t.collected.value, t.keywords, {});
    FewerMatch(matched, t.keywords, NonEmpty(Unseen(Ids(matched), SeenAfter(before, t.src))));
  }

  lemma {:induction false} ReversedConcat(a: seq<Item>, b: seq<Item>)
    ensures Reversed(a + b) == Reversed(b) + Reversed(a)
  {
    if a == [] {
      assert a + b == b;
    } else {
      assert (a + b)[1..] == a[1..] + b;
      ReversedConcat(a[1..], b);
    }
  }

  // Trimming what is already trimmed, after more was pushed in front.
  lemma NewestOfTrimmed(a: seq<Item>, b: seq<Item>)
    ensures Newest(a + Newest(b)) == Newest(a + b)
  {
  }

  lemma OneMoreTurn(before: seq<Turn>, t: Turn)
    ensures AllEmitted(before + [t]) == AllEmitted(before) + EmittedBy(before, t)
  {
    var all := before + [t];
    assert all[..|all| - 1] == before && all[|all| - 1] == t;
  }

  lemma StoreAfterTurn(before: seq<Turn>, t: Turn)
    ensures SeenMap(before + [t]) == Marked(SeenMap(before), t.src, Ids(MatchedBy(t)))
    ensures var items := EmittedBy(before, t);
            RecentAfter(before + [t]) ==
            if items == [] then RecentAfter(before)
            else Newest(Reversed(items) + RecentAfter(before))
  {
    var all, items := before + [t], EmittedBy(before, t);
    assert all[..|all| - 1] == before && all[|all| - 1] == t;
    ReversedConcat(AllEmitted(before), items);
    NewestOfTrimmed(Reversed(items), Reversed(AllEmitted(before)));
    if items == [] {
      assert AllEmitted(before) + items == AllEmitted(before);
    }
  }

  lemma EmptyTurn(before: seq<Turn>, t: Turn)
    requires MatchedBy(t) == []
    ensures NonEmpty(Ids(MatchedBy(t))) == {} && EmittedBy(before, t) == []
  {
  }

  lemma {:induction false} UnseenAreNonEmpty(ids: seq<Id>, seen: set<Id>)
    ensures (set i | i in Unseen(ids, seen)) == NonEmpty(Unseen(ids, seen))
  {
    forall i | i in Unseen(ids, seen) ensures i != "" { UnseenMembers(ids, seen, i); }
  }

  // One source's turn.
  method SweepSource(store: MonitorStore, t: Turn, ghost before: seq<Turn>)
    returns (summary: Summary)
    requires Follows(store, before)
    modifies store
    ensures Follows(store, before + [t])
    ensures summary == SummaryOf(before, t)
  {
    StoreAfterTurn(before, t);
    if t.collected.None? {
      EmptyTurn(before, t);
      return Failed;
    }
    var items := t.collected.value;
    var matched := Matching(items, t.keywords);
    var ids := Ids(matched);
    var unseen := store.FilterNew(t.src, ids);
    var newItems := WithIdIn(matched, set i | i in unseen);
    UnseenAreNonEmpty(ids, SeenOf(store.seen, t.src));
    assert newItems == EmittedBy(before, t);
    store.MarkSeen(t.src, ids);
    if newItems != [] {
      store.RecordNew(newItems);
    }
    summary := Swept(|items|, |matched|, |newItems|);
  }

  function NewIn(s: Summary): nat {
    if s.Swept? then s.unseen else 0
  }

  lemma OneMoreCount(before: seq<Turn>, t: Turn)
    ensures |AllEmitted(before + [t])| == |AllEmitted(before)| +
            NewIn(SummaryOf(before, t))
  {
    OneMoreTurn(before, t);
    if t.collected.None? {
      EmptyTurn(before, t);
    }
  }

  // What a sweep meets at one source.
  datatype Collection = Collection(src: Source, items: Option<seq<Item>>)

  function TurnsOf(collections: seq<Collection>, keywords: seq<string>): (r: seq<Turn>)
    ensures |r| == |collections|
  {
    seq(|collections|, k requires 0 <= k < |collections| => Turn(collections[k].src, collections[k].items, keywords))
  }

  /** `run_monitor_sweep`: each source has its turn with the sweep's keywords, a failing one included, and the
      store and the summaries are what the turns of the whole history make them. */
  method RunMonitorSweep(store: MonitorStore, collections: seq<Collection>, keywords: seq<string>,
                         ghost before: seq<Turn>)
    returns (summaries: map<Source, Summary>, newTotal: nat)
    requires Follows(store, before)
    modifies store
    ensures var turns := TurnsOf(collections, keywords);
            && Follows(store, before + turns)
            && summaries == Summaries(before, turns, |turns|)
            && |AllEmitted(before + turns)| == |AllEmitted(before)| + newTotal
  {
    summaries, newTotal := map[], 0;
    ghost var turns := TurnsOf(collections, keywords);
    ghost var history := before;
    for k := 0 to |collections|
      invariant history == Extended(before, turns, k)
      invariant Follows(store, history)
      invariant summaries == Summaries(before, turns, k)
      invariant |AllEmitted(history)| == |AllEmitted(before)| + newTotal
    {
      var s := SweepSource(store, Turn(collections[k].src, collections[k].items, keywords), history);
      OneMoreCount(history, turns[k]);
      history := history + [turns[k]];
      summaries := summaries[collections[k].src := s];
      newTotal := newTotal + NewIn(s);
    }
    ExtendedAll(before, turns);
  }
}
