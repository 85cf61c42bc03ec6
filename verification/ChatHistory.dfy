/** The message list the agent keeps, and when a chat endpoint accepts it. */
module ChatHistory {
  datatype ToolCall = ToolCall(id: string, name: string, arguments: string)

  // `turn` and `elided` are the private keys `_turn` and `_elided`; absent they read 0 and false.
  datatype Message =
    | System(content: string)
    | User(content: string)
    | Assistant(content: string, calls: seq<ToolCall>)
    | Tool(callId: string, name: string, content: string, turn: nat, elided: bool)

  const ELIDE_ABOVE: nat := 400

  // ----- well-formedness -----

  ghost predicate Answers(calls: seq<ToolCall>, replies: seq<Message>) {
    && |replies| == |calls|
    && forall i :: 0 <= i < |calls| ==>
         replies[i].Tool? && replies[i].callId == calls[i].id && replies[i].name == calls[i].name
  }

  /** User messages, and assistant messages each followed by its own tool replies and no others. */
  ghost predicate Rounds(ms: seq<Message>) {
    ms == [] ||
    match ms[0]
    case User(_) => Rounds(ms[1..])
    case Assistant(_, calls) =>
      && |calls| < |ms|
      && Answers(calls, ms[1..1 + |calls|])
      && Rounds(ms[1 + |calls|..])
    case _ => false
  }

  ghost predicate WellFormed(ms: seq<Message>, system: string, question: string) {
    && |ms| >= 2
    && ms[0] == System(system)
    && ms[1] == User(question)
    && Rounds(ms[2..])
  }

  /** Read by position: an assistant message with n calls is followed by exactly n replies, in order. */
  lemma {:induction false} RoundsAreExact(ms: seq<Message>, i: nat)
    requires Rounds(ms) && i < |ms| && ms[i].Assistant?
    ensures i + |ms[i].calls| < |ms|
    ensures Answers(ms[i].calls, ms[i + 1..i + 1 + |ms[i].calls|])
    ensures i + 1 + |ms[i].calls| < |ms| ==> !ms[i + 1 + |ms[i].calls|].Tool?
    decreases |ms|
  {
    var n := if ms[0].Assistant? then 1 + |ms[0].calls| else 1;
    if i >= n {
      RoundsAreExact(ms[n..], i - n);
      assert ms[n..][i - n + 1..i - n + 1 + |ms[i].calls|] == ms[i + 1..i + 1 + |ms[i].calls|];
    } else if i > 0 {
      assert false;
    }
  }

  /** No stray reply: a tool message lies in the round of an assistant message before it. */
  lemma {:induction false} EveryReplyHasItsCall(ms: seq<Message>, i: nat) returns (j: nat)
    requires Rounds(ms) && i < |ms| && ms[i].Tool?
    ensures j < i && ms[j].Assistant? && i - j - 1 < |ms[j].calls|
    ensures ms[j].calls[i - j - 1].id == ms[i].callId
    decreases |ms|
  {
    var n := if ms[0].Assistant? then 1 + |ms[0].calls| else 1;
    if i >= n {
      var rest := EveryReplyHasItsCall(ms[n..], i - n);
      j := rest + n;
    } else {
      j := 0;
      assert ms[1..n][i - 1] == ms[i];
    }
  }

  lemma {:induction false} RoundsConcat(a: seq<Message>, b: seq<Message>)
    requires Rounds(a) && Rounds(b)
    ensures Rounds(a + b)
    decreases |a|
  {
    if a == [] {
      assert a + b == b;
    } else {
      var n := if a[0].Assistant? then 1 + |a[0].calls| else 1;
      RoundsConcat(a[n..], b);
      assert (a + b)[n..] == a[n..] + b;
      assert (a + b)[1..n] == a[1..n];
      assert (a + b)[0] == a[0];
    }
  }

  lemma OneRound(content: string, calls: seq<ToolCall>, replies: seq<Message>)
    requires Answers(calls, replies)
    ensures Rounds([Assistant(content, calls)] + replies)
  {
    var ms := [Assistant(content, calls)] + replies;
    assert ms[1..1 + |calls|] == replies && ms[1 + |calls|..] == [];
  }

  lemma PastTheHead(ms: seq<Message>, more: seq<Message>)
    requires |ms| >= 2
    ensures (ms + more)[2..] == ms[2..] + more
    ensures (ms + more)[0] == ms[0] && (ms + more)[1] == ms[1]
  {
  }

  lemma WellFormedExtends(ms: seq<Message>, more: seq<Message>, system: string, question: string)
    requires WellFormed(ms, system, question) && Rounds(more)
    ensures WellFormed(ms + more, system, question)
  {
    RoundsConcat(ms[2..], more);
    PastTheHead(ms, more);
  }

  // ----- what stripping and eliding may change -----

  ghost predicate Alike(m: Message, n: Message) {
    if m.Tool? then n.Tool? && n.callId == m.callId && n.name == m.name else n == m
  }

  ghost predicate AllAlike(a: seq<Message>, b: seq<Message>) {
    |a| == |b| && forall i :: 0 <= i < |a| ==> Alike(a[i], b[i])
  }

  lemma {:induction false} RoundsAlike(a: seq<Message>, b: seq<Message>)
    requires Rounds(a) && AllAlike(a, b)
    ensures Rounds(b)
    decreases |a|
  {
    if a != [] {
      assert Alike(a[0], b[0]);
      var n := if a[0].Assistant? then 1 + |a[0].calls| else 1;
      assert AllAlike(a[n..], b[n..]) by {
        forall i | 0 <= i < |a[n..]| ensures Alike(a[n..][i], b[n..][i]) { assert Alike(a[n + i], b[n + i]); }
      }
      RoundsAlike(a[n..], b[n..]);
      if a[0].Assistant? {
        forall i | 0 <= i < n - 1
          ensures b[1..n][i].Tool? && b[1..n][i].callId == a[0].calls[i].id && b[1..n][i].name == a[0].calls[i].name
        {
          assert a[1..n][i] == a[i + 1] && Alike(a[i + 1], b[i + 1]);
        }
      }
    }
  }

  lemma WellFormedAlike(a: seq<Message>, b: seq<Message>, system: string, question: string)
    requires WellFormed(a, system, question) && AllAlike(a, b)
    ensures WellFormed(b, system, question)
  {
    assert Alike(a[0], b[0]) && Alike(a[1], b[1]);
    forall i | 0 <= i < |a[2..]| ensures Alike(a[2..][i], b[2..][i]) { assert Alike(a[i + 2], b[i + 2]); }
    RoundsAlike(a[2..], b[2..]);
  }

  // ----- _strip_meta -----

  function Bare(m: Message): Message {
    if m.Tool? then m.(turn := 0, elided := false) else m
  }

  function StripMeta(ms: seq<Message>): (r: seq<Message>)
    ensures AllAlike(ms, r)
    ensures forall i :: 0 <= i < |r| ==> r[i].content == ms[i].content
  {
    seq(|ms|, i requires 0 <= i < |ms| => Bare(ms[i]))
  }

  // ----- soft_elide -----

  predicate Elidable(m: Message, cutoff: int) {
    m.Tool? && m.name == "web_scrape" && m.turn <= cutoff && !m.elided && |m.content| > ELIDE_ABOVE
  }

  function ElidedOne(m: Message, cutoff: int, notice: string -> string): Message {
    if Elidable(m, cutoff) then m.(content := notice(m.content), elided := true) else m
  }

  function Elided(ms: seq<Message>, cutoff: int, notice: string -> string): (r: seq<Message>)
    ensures AllAlike(ms, r)
  {
    seq(|ms|, i requires 0 <= i < |ms| => ElidedOne(ms[i], cutoff, notice))
  }

  function ElidableIn(ms: seq<Message>, cutoff: int, k: nat): nat
    requires k <= |ms|
  {
    if k == 0 then 0 else ElidableIn(ms, cutoff, k - 1) + (if Elidable(ms[k - 1], cutoff) then 1 else 0)
  }

  /** Eliding again at the same cutoff changes nothing, whatever the notice says. */
  lemma ElidesOnce(ms: seq<Message>, cutoff: int, notice: string -> string)
    ensures var once := Elided(ms, cutoff, notice);
            Elided(once, cutoff, notice) == once && ElidableIn(once, cutoff, |once|) == 0
  {
    var once := Elided(ms, cutoff, notice);
    NothingElidable(once, cutoff, |once|);
  }

  lemma {:induction false} NothingElidable(ms: seq<Message>, cutoff: int, k: nat)
    requires k <= |ms| && forall i :: 0 <= i < k ==> !Elidable(ms[i], cutoff)
    ensures ElidableIn(ms, cutoff, k) == 0
  {
    if k > 0 {
      NothingElidable(ms, cutoff, k - 1);
    }
  }
}
