/** The string- and escape-aware balanced scanner that pulls an object literal out of page text, and
    the proof that it selects exactly the text of any JSON object a page embeds. */
module JsObjectScanner {
  import opened Options
  import opened TextSearch
  import opened JsonText

  // ----- the scanner, one character at a time -----

  datatype Scan = Scan(depth: int, inStr: bool, esc: bool, quote: char)

  const START := Scan(0, false, false, '\0')

  function Feed(s: Scan, ch: char): Scan {
    if s.inStr then
      if s.esc then s.(esc := false)
      else if ch == '\\' then s.(esc := true)
      else if ch == s.quote then s.(inStr := false)
      else s
    else if ch == '"' || ch == '\'' then s.(inStr := true, quote := ch)
    else if ch == '{' then s.(depth := s.depth + 1)
    else if ch == '}' then s.(depth := s.depth - 1)
    else s
  }

  // The character that brings the depth back to zero.
  predicate Closes(s: Scan, ch: char) {
    !s.inStr && ch == '}' && s.depth == 1
  }

  function FeedAll(s: Scan, t: string): Scan
    decreases |t|
  {
    if t == "" then s else FeedAll(Feed(s, t[0]), t[1..])
  }

  // Where the scan first comes back to depth zero.
  function FirstClose(s: Scan, t: string): (r: Option<nat>)
    ensures r.Some? ==> r.value < |t|
    decreases |t|
  {
    if t == "" then None
    else if Closes(s, t[0]) then Some(0)
    else
      var rest := FirstClose(Feed(s, t[0]), t[1..]);
      if rest.Some? then Some(rest.value + 1) else None
  }

  // The text handed to json.loads.
  function Selected(text: string, anchor: string): Option<string> {
    var a := Find(text, anchor, 0);
    if a.None? then None else
      var i := Find(text, "{", a.value);
      if i.None? then None else
        var e := FirstClose(START, text[i.value..]);
        if e.None? then None else Some(text[i.value..i.value + e.value + 1])
  }

  // The scan of the text from `start` has reached `j` in state `s`, with no close so far.
  ghost predicate Reached(text: string, start: nat, j: nat, s: Scan) {
    && start <= j <= |text|
    && FirstClose(START, text[start..]) == Shifted(FirstClose(s, text[j..]), j - start)
  }

  function Shifted(e: Option<nat>, n: nat): Option<nat> {
    if e.Some? then Some(e.value + n) else None
  }

  lemma OneCharacter(text: string, start: nat, j: nat, s: Scan)
    requires Reached(text, start, j, s) && j < |text|
    ensures if Closes(s, text[j]) then FirstClose(START, text[start..]) == Some(j - start)
            else Reached(text, start, j + 1, Feed(s, text[j]))
  {
    assert text[j..][0] == text[j] && text[j..][1..] == text[j + 1..];
  }

  method ExtractJsObject<V>(text: string, anchor: string, loads: string -> Option<V>) returns (r: Option<V>)
    ensures r == if Selected(text, anchor).Some? then loads(Selected(text, anchor).value) else None
  {
    var a := Find(text, anchor, 0);
    if a.None? {
      return None;
    }
    var i := Find(text, "{", a.value);
    if i.None? {
      return None;
    }
    var end := ScanFrom(text, i.value);
    if end.Some? {
      return loads(text[i.value..end.value]);
    }
    r := None;
  }

  // The scanning loop: the end of the object that starts here.
  method ScanFrom(text: string, start: nat) returns (end: Option<nat>)
    requires start <= |text|
    ensures end == Shifted(FirstClose(START, text[start..]), start + 1)
  {
    var depth, inStr, esc, quote := 0, false, false, '\0';
    for j := start to |text|
      invariant Reached(text, start, j, Scan(depth, inStr, esc, quote))
    {
      var ch := text[j];
      OneCharacter(text, start, j, Scan(depth, inStr, esc, quote));
      if inStr {
        if esc {
          esc := false;
        } else if ch == '\\' {
          esc := true;
        } else if ch == quote {
          inStr := false;
        }
      } else {
        if ch == '"' || ch == '\'' {
          inStr, quote := true, ch;
        } else if ch == '{' {
          depth := depth + 1;
        } else if ch == '}' {
          depth := depth - 1;
          if depth == 0 {
            return Some(j + 1);
          }
        }
      }
    }
    end := None;
  }

  // ----- composing scans -----

  // The scan of t stays away from depth zero.
  predicate Quiet(s: Scan, t: string) {
    FirstClose(s, t).None?
  }

  predicate Outside(s: Scan, d: int) {
    !s.inStr && !s.esc && s.depth == d
  }

  // t is scanned from outside any string at depth d back to the same place.
  predicate Passes(s: Scan, t: string, d: int) {
    Quiet(s, t) && Outside(FeedAll(s, t), d)
  }

  lemma {:induction false} ScanConcat(s: Scan, t: string, u: string)
    ensures FeedAll(s, t + u) == FeedAll(FeedAll(s, t), u)
    ensures FirstClose(s, t).Some? ==> FirstClose(s, t + u) == FirstClose(s, t)
    ensures Quiet(s, t) ==>
              var e := FirstClose(FeedAll(s, t), u);
              FirstClose(s, t + u) == if e.Some? then Some(e.value + |t|) else None
    decreases |t|
  {
    if t == "" {
      assert t + u == u;
    } else {
      assert (t + u)[0] == t[0] && (t + u)[1..] == t[1..] + u;
      ScanConcat(Feed(s, t[0]), t[1..], u);
    }
  }

  lemma PassesBoth(s: Scan, t: string, u: string, d: int)
    requires Passes(s, t, d) && Passes(FeedAll(s, t), u, d)
    ensures Passes(s, t + u, d)
  {
    ScanConcat(s, t, u);
  }

  /** The scan stops at the first position where a `}` outside every string meets depth one, and
      nowhere when there is no such position. */
  lemma {:induction false} FirstCloseIsFirst(s: Scan, t: string)
    ensures var e := FirstClose(s, t);
            && (forall k :: 0 <= k < |t| && (e.Some? ==> k < e.value) ==> !Closes(FeedAll(s, t[..k]), t[k]))
            && (e.Some? ==> Closes(FeedAll(s, t[..e.value]), t[e.value]))
    decreases |t|
  {
    if t != "" && !Closes(s, t[0]) {
      FirstCloseIsFirst(Feed(s, t[0]), t[1..]);
      assert forall k :: 0 < k <= |t| ==> t[..k][0] == t[0] && t[..k][1..] == t[1..][..k - 1];
      assert forall k :: 0 < k <= |t| ==> FeedAll(s, t[..k]) == FeedAll(Feed(s, t[0]), t[1..][..k - 1]);
    }
  }

  // ----- JS string literals pass, in either kind of quote -----

  // What may stand between two quotes q: escapes, and characters that are neither q nor a backslash.
  predicate IsLiteralBody(body: string, q: char)
    decreases |body|
  {
    if body == "" then true
    else if body[0] == '\\' then |body| >= 2 && IsLiteralBody(body[2..], q)
    else body[0] != q && IsLiteralBody(body[1..], q)
  }

  lemma {:induction false} LiteralBodyStaysIn(s: Scan, body: string, q: char)
    requires s.inStr && !s.esc && s.quote == q && IsLiteralBody(body, q)
    ensures Quiet(s, body) && FeedAll(s, body) == s
    decreases |body|
  {
    if body != "" {
      if body[0] == '\\' {
        var escaped := Feed(s, '\\');
        assert body[1..][0] == body[1] && body[1..][1..] == body[2..];
        assert Feed(escaped, body[1]) == s;
        LiteralBodyStaysIn(s, body[2..], q);
        assert Quiet(escaped, body[1..]) && FeedAll(escaped, body[1..]) == s;
      } else {
        LiteralBodyStaysIn(s, body[1..], q);
      }
    }
  }

  /** A string literal in single or double quotes leaves depth and quoting as they were, whatever braces or
      quotes of the other kind it holds. */
  lemma LiteralPasses(s: Scan, q: char, body: string, d: int)
    requires Outside(s, d) && (q == '"' || q == '\'') && IsLiteralBody(body, q)
    ensures Passes(s, [q] + body + [q], d)
  {
    var entered := Feed(s, q);
    LiteralBodyStaysIn(entered, body, q);
    ScanConcat(entered, body, [q]);
    assert [q][1..] == "";
    assert FeedAll(entered, [q]) == Feed(entered, q) && Quiet(entered, [q]);
    var t := [q] + body + [q];
    assert t[0] == q && t[1..] == body + [q];
  }

  // ----- printed JSON passes -----

  predicate IsBare(ch: char) {
    ch != '"' && ch != '\'' && ch != '{' && ch != '}'
  }

  lemma {:induction false} BarePasses(s: Scan, t: string, d: int)
    requires Outside(s, d) && forall k :: 0 <= k < |t| ==> IsBare(t[k])
    ensures Passes(s, t, d)
    decreases |t|
  {
    if t != "" {
      BarePasses(Feed(s, t[0]), t[1..], d);
    }
  }

  // Inside a double-quoted string at depth d.
  predicate Inside(s: Scan, d: int) {
    s.inStr && !s.esc && s.quote == '"' && s.depth == d
  }

  lemma PieceStaysInside(s: Scan, p: Piece, d: int)
    requires Inside(s, d) && IsPiece(p)
    ensures Quiet(s, PrintPiece(p)) && Inside(FeedAll(s, PrintPiece(p)), d)
  {
    if p.Escape? {
      var s1 := Feed(s, '\\');
      assert PrintPiece(p)[1..] == [p.c] && [p.c][1..] == "";
      assert FeedAll(s1, [p.c]) == FeedAll(Feed(s1, p.c), "") && Quiet(s1, [p.c]);
    } else {
      assert [p.c][1..] == "";
    }
  }

  lemma {:induction false} PiecesStayInside(s: Scan, ps: seq<Piece>, d: int)
    requires Inside(s, d) && IsText(ps)
    ensures Quiet(s, PrintPieces(ps)) && Inside(FeedAll(s, PrintPieces(ps)), d)
  {
    if ps != [] {
      var p := PrintPiece(ps[0]);
      PieceStaysInside(s, ps[0], d);
      PiecesStayInside(FeedAll(s, p), ps[1..], d);
      ScanConcat(s, p, PrintPieces(ps[1..]));
    }
  }

  lemma TextPasses(s: Scan, ps: seq<Piece>, d: int)
    requires Outside(s, d) && IsText(ps)
    ensures Passes(s, PrintText(ps), d)
  {
    var entered := Feed(s, '"');
    PiecesStayInside(entered, ps, d);
    ScanConcat(entered, PrintPieces(ps), "\"");
    var inner := PrintPieces(ps) + "\"";
    assert PrintText(ps)[0] == '"' && PrintText(ps)[1..] == inner;
  }

  lemma {:induction false} ValuePasses(s: Scan, v: Value, d: int)
    requires WellFormed(v) && Outside(s, d) && d >= 1
    ensures Passes(s, Print(v), d)
    decreases v, 2
  {
    match v
    case Scalar(t) => BarePasses(s, t, d);
    case Text(ps) => TextPasses(s, ps, d);
    case Array(pad, items) => ArrayPasses(s, pad, items, d);
    case Object(pad, ms) => ObjectPasses(s, pad, ms, d);
  }

  lemma ObjectPasses(s: Scan, pad: string, ms: seq<Member>, d: int)
    requires IsSpace(pad) && AllMembers(ms) && Outside(s, d) && d >= 1
    ensures Passes(s, Print(Object(pad, ms)), d)
    decreases ms, 2
  {
    var body := PrintBody(pad, ms);
    var s1 := Feed(s, '{');
    BodyPasses(s1, pad, ms, d + 1);
    ScanConcat(s1, body, "}");
    assert Print(Object(pad, ms))[0] == '{' && Print(Object(pad, ms))[1..] == body + "}";
  }

  lemma ArrayPasses(s: Scan, pad: string, items: seq<Item>, d: int)
    requires IsSpace(pad) && AllItems(items) && Outside(s, d) && d >= 1
    ensures Passes(s, Print(Array(pad, items)), d)
    decreases items, 1
  {
    var body := if items == [] then pad else PrintItems(items);
    BarePasses(s, "[", d);
    var s1 := FeedAll(s, "[");
    if items == [] {
      BarePasses(s1, pad, d);
    } else {
      ItemsPass(s1, items, d);
    }
    PassesBoth(s, "[", body, d);
    BarePasses(FeedAll(s, "[" + body), "]", d);
    PassesBoth(s, "[" + body, "]", d);
  }

  lemma BodyPasses(s: Scan, pad: string, ms: seq<Member>, d: int)
    requires IsSpace(pad) && AllMembers(ms) && Outside(s, d) && d >= 1
    ensures Passes(s, PrintBody(pad, ms), d)
    decreases ms, 1
  {
    if ms == [] {
      BarePasses(s, pad, d);
    } else {
      MembersPass(s, ms, d);
    }
  }

  lemma {:induction false} ItemsPass(s: Scan, items: seq<Item>, d: int)
    requires AllItems(items) && Outside(s, d) && d >= 1
    ensures Passes(s, PrintItems(items), d)
    decreases items, 0
  {
    if items != [] {
      var i := items[0];
      var head := i.before + Print(i.value) + i.after;
      BarePasses(s, i.before, d);
      ValuePasses(FeedAll(s, i.before), i.value, d);
      PassesBoth(s, i.before, Print(i.value), d);
      BarePasses(FeedAll(s, i.before + Print(i.value)), i.after, d);
      PassesBoth(s, i.before + Print(i.value), i.after, d);
      if |items| == 1 {
        assert PrintItems(items) == head + "" == head;
      } else {
        BarePasses(FeedAll(s, head), ",", d);
        ItemsPass(FeedAll(FeedAll(s, head), ","), items[1..], d);
        PassesBoth(FeedAll(s, head), ",", PrintItems(items[1..]), d);
        PassesBoth(s, head, "," + PrintItems(items[1..]), d);
      }
    }
  }

  lemma MemberPasses(s: Scan, m: Member, d: int)
    requires AllMembers([m]) && Outside(s, d) && d >= 1
    ensures Passes(s, PrintMember(m), d)
    decreases m, 3
  {
    assert [m][0] == m;
    var t1 := m.before + PrintText(m.key);
    BarePasses(s, m.before, d);
    TextPasses(FeedAll(s, m.before), m.key, d);
    PassesBoth(s, m.before, PrintText(m.key), d);
    BarePasses(FeedAll(s, t1), m.afterKey, d);
    PassesBoth(s, t1, m.afterKey, d);
    var t2 := t1 + m.afterKey;
    BarePasses(FeedAll(s, t2), ":", d);
    PassesBoth(s, t2, ":", d);
    var t3 := t2 + ":";
    BarePasses(FeedAll(s, t3), m.beforeValue, d);
    PassesBoth(s, t3, m.beforeValue, d);
    var t4 := t3 + m.beforeValue;
    ValuePasses(FeedAll(s, t4), m.value, d);
    PassesBoth(s, t4, Print(m.value), d);
    var t5 := t4 + Print(m.value);
    BarePasses(FeedAll(s, t5), m.after, d);
    PassesBoth(s, t5, m.after, d);
  }

  lemma {:induction false} MembersPass(s: Scan, ms: seq<Member>, d: int)
    requires AllMembers(ms) && Outside(s, d) && d >= 1
    ensures Passes(s, PrintMembers(ms), d)
    decreases ms, 0
  {
    if ms != [] {
      var head := PrintMember(ms[0]);
      MemberPasses(s, ms[0], d);
      if |ms| == 1 {
        assert PrintMembers(ms) == head + "" == head;
      } else {
        BarePasses(FeedAll(s, head), ",", d);
        MembersPass(FeedAll(FeedAll(s, head), ","), ms[1..], d);
        PassesBoth(FeedAll(s, head), ",", PrintMembers(ms[1..]), d);
        PassesBoth(s, head, "," + PrintMembers(ms[1..]), d);
      }
    }
  }

  // ----- the round trip -----

  /** The scan of an object's text, with anything after it, first closes at the object's last brace. */
  lemma ObjectCloses(pad: string, ms: seq<Member>, suffix: string)
    requires WellFormed(Object(pad, ms))
    ensures FirstClose(START, Print(Object(pad, ms)) + suffix) == Some(|Print(Object(pad, ms))| - 1)
  {
    var body, text := PrintBody(pad, ms), Print(Object(pad, ms)) + suffix;
    var s1 := Feed(START, '{');
    BodyPasses(s1, pad, ms, 1);
    ScanConcat(s1, body, "}" + suffix);
    assert ("}" + suffix)[0] == '}';
    assert text[0] == '{' && text[1..] == body + ("}" + suffix);
  }

  /** Wherever a JSON object is embedded after the first occurrence of the anchor, with no other brace
      opened in between, the extractor hands exactly the object's own text to the parser. */
  lemma ExtractorSelectsPrintedObject(prefix: string, anchor: string, gap: string, pad: string, ms: seq<Member>,
                                      suffix: string)
    requires WellFormed(Object(pad, ms))
    requires var text := prefix + anchor + gap + Print(Object(pad, ms)) + suffix;
             Find(text, anchor, 0) == Some(|prefix|)
    requires '{' !in anchor + gap
    ensures Selected(prefix + anchor + gap + Print(Object(pad, ms)) + suffix, anchor) == Some(Print(Object(pad, ms)))
  {
    var obj := Print(Object(pad, ms));
    var text := prefix + anchor + gap + obj + suffix;
    var at := |prefix + anchor + gap|;
    assert text[at..] == obj + suffix;
    assert OccursAt(text, "{", at);
    forall k | |prefix| <= k < at ensures !OccursAt(text, "{", k) {
      assert text[k] == (anchor + gap)[k - |prefix|];
    }
    assert Find(text, "{", |prefix|) == Some(at);
    ObjectCloses(pad, ms, suffix);
    assert text[at..at + |obj|] == obj;
  }
}
