/** JSON text as sections 2, 4, 5 and 7 of RFC 8259 lay it out: a syntax tree that remembers every
    choice a printer has (escapes, white space), and its text. The strings may hold any escape and
    any unescaped character other than a quote and a backslash, so every JSON text has such a tree. */
module JsonText {

  // A piece of a string: an unescaped character, or a backslash and the character after it.
  datatype Piece = Plain(c: char) | Escape(c: char)

  datatype Item = Item(before: string, value: Value, after: string)
  datatype Member = Member(before: string, key: seq<Piece>, afterKey: string, beforeValue: string, value: Value,
                           after: string)

  // `pad` is the white space inside an empty array or object.
  datatype Value =
    | Scalar(text: string)
    | Text(pieces: seq<Piece>)
    | Array(pad: string, items: seq<Item>)
    | Object(pad: string, members: seq<Member>)

  predicate IsSpace(t: string) {
    forall k :: 0 <= k < |t| ==> t[k] in " \t\n\r"
  }

  // The three literal names, and (at least) every number.
  predicate IsScalar(t: string) {
    t in {"true", "false", "null"} || forall k :: 0 <= k < |t| ==> t[k] in "+-.0123456789eE"
  }

  predicate IsPiece(p: Piece) {
    p.Plain? ==> p.c != '"' && p.c != '\\'
  }

  predicate IsText(ps: seq<Piece>) {
    forall k :: 0 <= k < |ps| ==> IsPiece(ps[k])
  }

  predicate WellFormed(v: Value)
    decreases v, 1
  {
    match v
    case Scalar(t) => IsScalar(t)
    case Text(ps) => IsText(ps)
    case Array(pad, items) => IsSpace(pad) && AllItems(items)
    case Object(pad, members) => IsSpace(pad) && AllMembers(members)
  }

  predicate AllItems(items: seq<Item>)
    decreases items, 0
  {
    items == [] ||
    (IsSpace(items[0].before) && IsSpace(items[0].after) && WellFormed(items[0].value) && AllItems(items[1..]))
  }

  predicate AllMembers(ms: seq<Member>)
    decreases ms, 0
  {
    ms == [] ||
    (var m := ms[0];
     && IsSpace(m.before) && IsText(m.key) && IsSpace(m.afterKey)
     && IsSpace(m.beforeValue) && WellFormed(m.value) && IsSpace(m.after)
     && AllMembers(ms[1..]))
  }

  function PrintPiece(p: Piece): string {
    if p.Plain? then [p.c] else ['\\', p.c]
  }

  function PrintPieces(ps: seq<Piece>): string {
    if ps == [] then "" else PrintPiece(ps[0]) + PrintPieces(ps[1..])
  }

  function PrintText(ps: seq<Piece>): string {
    "\"" + PrintPieces(ps) + "\""
  }

  function Print(v: Value): string
    decreases v, 1
  {
    match v
    case Scalar(t) => t
    case Text(ps) => PrintText(ps)
    case Array(pad, items) => "[" + (if items == [] then pad else PrintItems(items)) + "]"
    case Object(pad, members) => "{" + PrintBody(pad, members) + "}"
  }

  function PrintBody(pad: string, ms: seq<Member>): string
    decreases ms, 1
  {
    if ms == [] then pad else PrintMembers(ms)
  }

  function PrintItems(items: seq<Item>): string
    decreases items, 0
  {
    if items == [] then ""
    else
      items[0].before + Print(items[0].value) + items[0].after +
      (if |items| == 1 then "" else "," + PrintItems(items[1..]))
  }

  function PrintMember(m: Member): string
    decreases m, 0
  {
    m.before + PrintText(m.key) + m.afterKey + ":" + m.beforeValue + Print(m.value) + m.after
  }

  function PrintMembers(ms: seq<Member>): string
    decreases ms, 0
  {
    if ms == [] then ""
    else PrintMember(ms[0]) + (if |ms| == 1 then "" else "," + PrintMembers(ms[1..]))
  }
}
