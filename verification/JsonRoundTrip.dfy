/** The parser inverts printing: on the RFC 8259 text of a value, in any whitespace layout
    and any way of writing its strings, it returns that value and stops exactly after it. */
module JsonRoundTrip {
  import opened Strings
  import opened JsonStrings
  import opened JsonParser

  /** A JSON text with its layout.  A number is any run of the characters that make up
      numbers, which includes every RFC 8259 number. */
  datatype Doc =
    | DNull
    | DBool(b: bool)
    | DNumber(token: string)
    | DString(ps: seq<Piece>)
    | DArray(lead: string, items: Items)
    | DObject(lead: string, members: Members)

  /** `after` follows the value; `next` follows the comma, if there is one. */
  datatype Items = NoItems | MoreItems(doc: Doc, after: string, next: string, rest: Items)

  datatype Members =
    | NoMembers
    | MoreMembers(key: seq<Piece>, beforeColon: string, afterColon: string,
                  doc: Doc, after: string, next: string, rest: Members)

  function Text(d: Doc): string {
    match d
    case DNull => "null"
    case DBool(b) => if b then "true" else "false"
    case DNumber(token) => token
    case DString(ps) => "\"" + (WrittenAll(ps) + "\"")
    case DArray(lead, items) => "[" + (lead + (ItemsText(items) + "]"))
    case DObject(lead, members) => "{" + (lead + (MembersText(members) + "}"))
  }

  function ItemsText(items: Items): string {
    match items
    case NoItems => ""
    case MoreItems(doc, after, next, rest) => Text(doc) + ((after + Comma(rest.NoItems?, next)) + ItemsText(rest))
  }

  function Comma(last: bool, next: string): string {
    if last then "" else "," + next
  }

  function MembersText(members: Members): string {
    match members
    case NoMembers => ""
    case MoreMembers(key, beforeColon, afterColon, doc, after, next, rest) =>
      ("\"" + (WrittenAll(key) + "\"")) + ((beforeColon + (":" + afterColon)) +
      (Text(doc) + ((after + Comma(rest.NoMembers?, next)) + MembersText(rest))))
  }

  /** The value a text stands for, its strings read by `read`. */
  function ValueOf(d: Doc, read: seq<Piece> -> string): JsonValue {
    match d
    case DNull => Null
    case DBool(b) => Bool(b)
    case DNumber(token) => Number(token)
    case DString(ps) => String(read(ps))
    case DArray(_, items) => Array(ItemsValue(items, read))
    case DObject(_, members) => Object(MembersValue(members, read))
  }

  function ItemsValue(items: Items, read: seq<Piece> -> string): seq<JsonValue> {
    match items
    case NoItems => []
    case MoreItems(doc, _, _, rest) => [ValueOf(doc, read)] + ItemsValue(rest, read)
  }

  function MembersValue(members: Members, read: seq<Piece> -> string): seq<Entry> {
    match members
    case NoMembers => []
    case MoreMembers(key, _, _, doc, _, _, rest) => [Entry(read(key), ValueOf(doc, read))] + MembersValue(rest, read)
  }

  predicate AllWs(w: string) {
    forall i :: 0 <= i < |w| ==> IsWs(w[i])
  }

  predicate NumberToken(t: string) {
    t != "" && forall i :: 0 <= i < |t| ==> NumChar(t[i])
  }

  predicate ValidDoc(d: Doc) {
    match d
    case DNumber(token) => NumberToken(token)
    case DString(ps) => ValidPieces(ps)
    case DArray(lead, items) => AllWs(lead) && ValidItems(items)
    case DObject(lead, members) => AllWs(lead) && ValidMembers(members)
    case _ => true
  }

  predicate ValidItems(items: Items) {
    match items
    case NoItems => true
    case MoreItems(doc, after, next, rest) => ValidDoc(doc) && AllWs(after) && AllWs(next) && ValidItems(rest)
  }

  predicate ValidMembers(members: Members) {
    match members
    case NoMembers => true
    case MoreMembers(key, beforeColon, afterColon, doc, after, next, rest) =>
      && ValidPieces(key) && AllWs(beforeColon) && AllWs(afterColon)
      && ValidDoc(doc) && AllWs(after) && AllWs(next) && ValidMembers(rest)
  }

  /** `stod` converts every number of the text. */
  predicate Readable(d: Doc) {
    match d
    case DNumber(token) => Convertible(token)
    case DArray(_, items) => ItemsReadable(items)
    case DObject(_, members) => MembersReadable(members)
    case _ => true
  }

  predicate ItemsReadable(items: Items) {
    items.MoreItems? ==> Readable(items.doc) && ItemsReadable(items.rest)
  }

  predicate MembersReadable(m: Members) {
    m.MoreMembers? ==> Readable(m.doc) && MembersReadable(m.rest)
  }

  // ------------------------------------------------------------ whitespace and numbers

  lemma {:induction false} SkipWsAt(s: string, pos: nat, w: string)
    requires At(s, pos, w) && AllWs(w)
    requires pos + |w| < |s| ==> !IsWs(s[pos + |w|])
    ensures SkipWs(s, pos) == pos + |w|
    decreases |w|
  {
    if w != "" {
      AtSplit(s, pos, [w[0]], w[1..]);
      assert w == [w[0]] + w[1..];
      AtChar(s, pos, w, 0);
      SkipWsAt(s, pos + 1, w[1..]);
    }
  }

  lemma {:induction false} NumEndAt(s: string, pos: nat, t: string)
    requires At(s, pos, t) && forall i :: 0 <= i < |t| ==> NumChar(t[i])
    requires pos + |t| < |s| ==> !NumChar(s[pos + |t|])
    ensures NumEnd(s, pos) == pos + |t|
    decreases |t|
  {
    if t != "" {
      AtSplit(s, pos, [t[0]], t[1..]);
      assert t == [t[0]] + t[1..];
      AtChar(s, pos, t, 0);
      NumEndAt(s, pos + 1, t[1..]);
    }
  }

  /** A value never starts with whitespace or a closing bracket. */
  lemma FirstChar(d: Doc)
    requires ValidDoc(d)
    ensures Text(d) != "" && !IsWs(Text(d)[0]) && Text(d)[0] !in ",:]}"
  {
  }

  lemma ValueAfterWs(s: string, pos: nat)
    ensures ParseValue(s, pos) == ParseValue(s, SkipWs(s, pos))
  {
    hide ParseMembers, ParseElements, StringLiteral, SkipWs, NumEnd, Convertible;
    assert SkipWs(s, SkipWs(s, pos)) == SkipWs(s, pos);
  }

  /** What follows a value does not extend it. */
  predicate Ends(s: string, d: Doc, end: nat) {
    d.DNumber? && end < |s| ==> !NumChar(s[end])
  }

  // ------------------------------------------------------------ parsing a text

  lemma {:induction false} ParseDoc(s: string, pos: nat, d: Doc)
    requires ValidDoc(d) && At(s, pos, Text(d)) && Ends(s, d, pos + |Text(d)|)
    ensures ParseValue(s, pos) == if Readable(d) then Value(ValueOf(d, ProducedAll), pos + |Text(d)|) else Thrown
    decreases d, 0
  {
    hide ParseValue, ParseMembers, ParseElements, ItemsText, MembersText, At, SkipWs, NumberToken, AllWs, ValidPieces,
      ValidItems, ValidMembers, WrittenAll, ProducedAll;
    match d {
      case DNull => ParseLiteral(s, pos, d);
      case DBool(b) => ParseLiteral(s, pos, d);
      case DNumber(token) => ParseNumber(s, pos, token);
      case DString(ps) => ParseString(s, pos, ps);
      case DArray(lead, items) =>
        BracketBody(s, pos, "[", lead, ItemsText(items) + "]");
        ItemsStart(s, pos + 1 + |lead|, items);
        ParseItems(s, pos + 1 + |lead|, items, []);
        if Readable(d) {
          ArrayRead(s, pos, lead, items);
        } else {
          BracketThrown(s, pos, lead);
        }
      case DObject(lead, members) =>
        BracketBody(s, pos, "{", lead, MembersText(members) + "}");
        MembersStart(s, pos + 1 + |lead|, members);
        ParseMembersOf(s, pos + 1 + |lead|, members, []);
        if Readable(d) {
          ObjectRead(s, pos, lead, members);
        } else {
          BracketThrown(s, pos, lead);
        }
    }
  }

  lemma ParseLiteral(s: string, pos: nat, d: Doc)
    requires (d.DNull? || d.DBool?) && At(s, pos, Text(d))
    ensures ParseValue(s, pos) == Value(ValueOf(d, ProducedAll), pos + |Text(d)|)
  {
    hide ParseMembers, ParseElements, StringLiteral, NumEnd;
    AtChar(s, pos, Text(d), 0);
  }

  lemma ParseNumber(s: string, pos: nat, token: string)
    requires NumberToken(token) && At(s, pos, token)
    requires pos + |token| < |s| ==> !NumChar(s[pos + |token|])
    ensures ParseValue(s, pos) == if Convertible(token) then Value(Number(token), pos + |token|) else Thrown
  {
    hide ParseMembers, ParseElements, StringLiteral, NumEnd, Convertible;
    NumberStart(token);
    AtChar(s, pos, token, 0);
    NumEndAt(s, pos, token);
  }

  lemma ParseString(s: string, pos: nat, ps: seq<Piece>)
    requires ValidPieces(ps) && At(s, pos, "\"" + (WrittenAll(ps) + "\""))
    ensures ParseValue(s, pos) == Value(String(ProducedAll(ps)), pos + |WrittenAll(ps)| + 2)
  {
    hide ParseMembers, ParseElements, StringLiteral, NumEnd, Convertible;
    KeyAt(s, pos, ps);
    AtChar(s, pos, "\"" + (WrittenAll(ps) + "\""), 0);
  }

  lemma BracketBody(s: string, pos: nat, open: string, lead: string, body: string)
    requires |open| == 1 && At(s, pos, open + (lead + body))
    ensures pos < |s| && s[pos] == open[0]
    ensures At(s, pos + 1, lead) && At(s, pos + 1 + |lead|, body)
  {
    AtSplit(s, pos, open, lead + body);
    AtSplit(s, pos + 1, lead, body);
    AtChar(s, pos, open, 0);
  }

  lemma BracketSkip(s: string, pos: nat, lead: string)
    requires AllWs(lead) && At(s, pos + 1, lead) && pos + 1 + |lead| < |s| && !IsWs(s[pos + 1 + |lead|])
    ensures SkipWs(s, pos + 1) == pos + 1 + |lead|
  {
    SkipWsAt(s, pos + 1, lead);
  }

  /** An array whose elements have been read is read. */
  lemma ArrayRead(s: string, pos: nat, lead: string, items: Items)
    requires pos < |s| && s[pos] == '[' && AllWs(lead) && At(s, pos + 1, lead)
    requires var p := pos + 1 + |lead|;
      p < |s| && !IsWs(s[p]) && ParseElements(s, p, []) == Value(Array([] + ItemsValue(items, ProducedAll)),
          p + |ItemsText(items)| + 1)
    ensures ParseValue(s, pos) == Value(ValueOf(DArray(lead, items), ProducedAll), pos + |Text(DArray(lead, items))|)
  {
    hide ParseValue, ParseElements, Text, ValueOf, ItemsText, ItemsValue, At, SkipWs, AllWs, IsWs;
    BracketSkip(s, pos, lead);
    BracketValue(s, pos);
    ArrayText(lead, items);
    assert [] + ItemsValue(items, ProducedAll) == ItemsValue(items, ProducedAll);
  }

  lemma ObjectRead(s: string, pos: nat, lead: string, members: Members)
    requires pos < |s| && s[pos] == '{' && AllWs(lead) && At(s, pos + 1, lead)
    requires var p := pos + 1 + |lead|;
      p < |s| && !IsWs(s[p]) && ParseMembers(s, p, []) == Value(Object([] + MembersValue(members, ProducedAll)),
          p + |MembersText(members)| + 1)
    ensures ParseValue(s, pos) == Value(ValueOf(DObject(lead, members), ProducedAll),
      pos + |Text(DObject(lead, members))|)
  {
    hide ParseValue, ParseMembers, Text, ValueOf, MembersText, MembersValue, At, SkipWs, AllWs, IsWs;
    BracketSkip(s, pos, lead);
    BracketValue(s, pos);
    ObjectText(lead, members);
    assert [] + MembersValue(members, ProducedAll) == MembersValue(members, ProducedAll);
  }

  /** An exception within the brackets is the answer for the whole. */
  lemma BracketThrown(s: string, pos: nat, lead: string)
    requires pos < |s| && s[pos] in "[{" && AllWs(lead) && At(s, pos + 1, lead)
    requires var p := pos + 1 + |lead|; p < |s| && !IsWs(s[p])
    requires var p := pos + 1 + |lead|;
      if s[pos] == '[' then ParseElements(s, p, []).Thrown? else ParseMembers(s, p, []).Thrown?
    ensures ParseValue(s, pos).Thrown?
  {
    hide ParseValue, ParseElements, ParseMembers, At, SkipWs, AllWs, IsWs;
    BracketSkip(s, pos, lead);
    BracketValue(s, pos);
  }

  lemma ArrayText(lead: string, items: Items)
    ensures |Text(DArray(lead, items))| == |lead| + |ItemsText(items)| + 2
    ensures ValueOf(DArray(lead, items), ProducedAll) == Array(ItemsValue(items, ProducedAll))
  {
    hide ItemsText, ItemsValue;
  }

  lemma ObjectText(lead: string, members: Members)
    ensures |Text(DObject(lead, members))| == |lead| + |MembersText(members)| + 2
    ensures ValueOf(DObject(lead, members), ProducedAll) == Object(MembersValue(members, ProducedAll))
  {
    hide MembersText, MembersValue;
  }

  lemma BracketValue(s: string, pos: nat)
    requires pos < |s|
    ensures s[pos] == '[' ==> ParseValue(s, pos) == ParseElements(s, SkipWs(s, pos + 1), [])
    ensures s[pos] == '{' ==> ParseValue(s, pos) == ParseMembers(s, SkipWs(s, pos + 1), [])
  {
    hide ParseMembers, ParseElements, StringLiteral, NumEnd, Convertible;
  }

  lemma NumberStart(token: string)
    requires NumberToken(token)
    ensures token != "" && token[0] !in "\"{[tfn"
  {
  }

  lemma ItemsStart(s: string, pos: nat, items: Items)
    requires ValidItems(items) && At(s, pos, ItemsText(items) + "]")
    ensures pos < |s| && !IsWs(s[pos]) && (s[pos] == ']' <==> items.NoItems?) && s[pos] != ','
  {
    AtChar(s, pos, ItemsText(items) + "]", 0);
    if items.MoreItems? {
      FirstChar(items.doc);
    }
  }

  lemma MembersStart(s: string, pos: nat, members: Members)
    requires ValidMembers(members) && At(s, pos, MembersText(members) + "}")
    ensures pos < |s| && s[pos] == if members.NoMembers? then '}' else '"'
  {
    AtChar(s, pos, MembersText(members) + "}", 0);
  }

  /** What separates two elements: whitespace, a comma unless this was the last, and
      whitespace again. */
  lemma SkipSeparator(s: string, pos: nat, after: string, last: bool, next: string)
    requires AllWs(after) && AllWs(next) && At(s, pos, after + Comma(last, next))
    requires var p := pos + |after + Comma(last, next)|; p < |s| && !IsWs(s[p]) && s[p] != ','
    ensures SkipWs(s, PastChar(s, SkipWs(s, pos), ',')) == pos + |after + Comma(last, next)|
    ensures s[pos] == ',' || IsWs(s[pos]) || (after == "" && last)
  {
    hide At, AllWs, SkipWs;
    AtSplit(s, pos, after, Comma(last, next));
    var p := pos + |after|;
    if !last {
      AtSplit(s, p, ",", next);
      AtChar(s, p, ",", 0);
      SkipWsAt(s, p + 1, next);
    }
    SkipWsAt(s, pos, after);
    if after != "" {
      AtChar(s, pos, after, 0);
    }
  }

  lemma RegroupThree(a: string, b: string, c: string, d: string)
    ensures (a + (b + c)) + d == a + (b + (c + d))
  {
    assert (b + c) + d == b + (c + d);
  }

  lemma MoreItemsText(items: Items)
    requires items.MoreItems?
    ensures ItemsText(items) ==
      Text(items.doc) + ((items.after + Comma(items.rest.NoItems?, items.next)) + ItemsText(items.rest))
  {
  }

  /** Where the parts of an element stand, and where the loop turns next. */
  lemma ItemParts(s: string, pos: nat, items: Items) returns (p: nat)
    requires ValidItems(items) && items.MoreItems? && At(s, pos, ItemsText(items) + "]")
    ensures At(s, pos, Text(items.doc)) && Ends(s, items.doc, pos + |Text(items.doc)|)
    ensures p == SkipWs(s, PastChar(s, SkipWs(s, pos + |Text(items.doc)|), ','))
    ensures At(s, p, ItemsText(items.rest) + "]")
    ensures pos + |ItemsText(items)| == p + |ItemsText(items.rest)|
  {
    hide ItemsText, Text, Comma, At, SkipWs, ValidDoc, AllWs;
    var MoreItems(doc, after, next, rest) := items;
    var sep := after + Comma(rest.NoItems?, next);
    var tail := ItemsText(rest) + "]";
    MoreItemsText(items);
    RegroupThree(Text(doc), sep, ItemsText(rest), "]");
    AtSplit(s, pos, Text(doc), sep + tail);
    var e := pos + |Text(doc)|;
    AtSplit(s, e, sep, tail);
    p := e + |sep|;
    ItemsStart(s, p, rest);
    SkipSeparator(s, e, after, rest.NoItems?, next);
    EndsBefore(s, doc, e, after, rest.NoItems?, next);
  }

  /** No number runs on into what separates it from the next element. */
  lemma EndsBefore(s: string, d: Doc, e: nat, after: string, last: bool, next: string)
    requires AllWs(after) && At(s, e, after + Comma(last, next))
    requires after + Comma(last, next) == "" ==> e < |s| && s[e] in "]}"
    ensures Ends(s, d, e)
  {
    if after + Comma(last, next) != "" {
      AtChar(s, e, after + Comma(last, next), 0);
    }
  }

  lemma {:induction false} ParseItems(s: string, pos: nat, items: Items, acc: seq<JsonValue>)
    requires ValidItems(items) && At(s, pos, ItemsText(items) + "]")
    requires pos < |s| ==> !IsWs(s[pos])
    ensures ParseElements(s, pos, acc) ==
      if ItemsReadable(items) then Value(Array(acc + ItemsValue(items, ProducedAll)), pos + |ItemsText(items)| + 1)
      else Thrown
    decreases items, 0
  {
    hide ParseValue, ParseElements, Text, ValueOf, At, SkipWs, PastChar, ValidDoc, AllWs, IsWs, ItemsText, ProducedAll;
    ItemsStart(s, pos, items);
    match items {
      case NoItems =>
        assert |ItemsText(items)| == 0 by { NoItemsText(); }
        assert acc + [] == acc;
        ElementsStop(s, pos, acc);
      case MoreItems(doc, after, next, rest) =>
        var p := ItemParts(s, pos, items);
        ItemsStart(s, p, rest);
        ParseDoc(s, pos, doc);
        ElementsTurn(s, pos, acc);
        if Readable(doc) {
          ParseItems(s, p, rest, acc + [ValueOf(doc, ProducedAll)]);
        }
        assert acc + [ValueOf(doc, ProducedAll)] + ItemsValue(rest, ProducedAll)
            == acc + ItemsValue(items, ProducedAll);
    }
  }

  lemma NoItemsText()
    ensures ItemsText(NoItems) == "" && MembersText(NoMembers) == ""
  {
  }

  lemma Regroup(a: string, b: string, c: string, d: string, e: string, f: string)
    ensures (a + (b + (c + (d + e)))) + f == a + (b + (c + (d + (e + f))))
  {
    RegroupThree(c, d, e, f);
    assert (b + (c + (d + e))) + f == b + ((c + (d + e)) + f);
  }

  lemma MoreMembersText(m: Members)
    requires m.MoreMembers?
    ensures MembersText(m) ==
      ("\"" + (WrittenAll(m.key) + "\"")) + ((m.beforeColon + (":" + m.afterColon)) +
      (Text(m.doc) + ((m.after + Comma(m.rest.NoMembers?, m.next)) + MembersText(m.rest))))
  {
  }

  /** Where the parts of a member stand. */
  lemma MemberParts(s: string, pos: nat, m: Members) returns (k: nat, v: nat, e: nat, p: nat)
    requires ValidMembers(m) && m.MoreMembers? && At(s, pos, MembersText(m) + "}")
    ensures At(s, pos, "\"" + (WrittenAll(m.key) + "\"")) && k == pos + |WrittenAll(m.key)| + 2
    ensures At(s, k, m.beforeColon + (":" + m.afterColon)) && v == k + |m.beforeColon| + 1 + |m.afterColon|
    ensures At(s, v, Text(m.doc)) && e == v + |Text(m.doc)|
    ensures At(s, e, m.after + Comma(m.rest.NoMembers?, m.next))
      && p == e + |m.after + Comma(m.rest.NoMembers?, m.next)|
    ensures At(s, p, MembersText(m.rest) + "}")
    ensures pos + |MembersText(m)| == p + |MembersText(m.rest)|
  {
    hide MembersText, Text, Comma, At, ValidDoc, WrittenAll;
    var MoreMembers(key, beforeColon, afterColon, doc, after, next, rest) := m;
    var lit := "\"" + (WrittenAll(key) + "\"");
    var colon := beforeColon + (":" + afterColon);
    var sep := after + Comma(rest.NoMembers?, next);
    var tail := MembersText(rest) + "}";
    Regroup(lit, colon, Text(doc), sep, MembersText(rest), "}");
    MoreMembersText(m);
    AtSplit(s, pos, lit, colon + (Text(doc) + (sep + tail)));
    k := pos + |lit|;
    AtSplit(s, k, colon, Text(doc) + (sep + tail));
    v := k + |colon|;
    AtSplit(s, v, Text(doc), sep + tail);
    e := v + |Text(doc)|;
    AtSplit(s, e, sep, tail);
    p := e + |sep|;
  }

  lemma SkipColon(s: string, k: nat, beforeColon: string, afterColon: string)
    requires AllWs(beforeColon) && At(s, k, beforeColon + (":" + afterColon))
    ensures PastChar(s, SkipWs(s, k), ':') == k + |beforeColon| + 1
    ensures At(s, k + |beforeColon| + 1, afterColon)
  {
    AtSplit(s, k, beforeColon, ":" + afterColon);
    AtSplit(s, k + |beforeColon|, ":", afterColon);
    AtChar(s, k + |beforeColon|, ":", 0);
    SkipWsAt(s, k, beforeColon);
  }

  /** What the loop finds on a member's text: the key, the value's place and the place of
      the next turn. */
  lemma MemberFacts(s: string, pos: nat, m: Members) returns (c: nat, e: nat, p: nat)
    requires ValidMembers(m) && m.MoreMembers? && At(s, pos, MembersText(m) + "}")
    ensures pos < |s| && s[pos] == '"' && StringLiteral(s, pos).0 == ProducedAll(m.key)
    ensures c == PastChar(s, SkipWs(s, StringLiteral(s, pos).1), ':')
    ensures At(s, c, m.afterColon + Text(m.doc)) && e == c + |m.afterColon + Text(m.doc)| && Ends(s, m.doc, e)
    ensures p == SkipWs(s, PastChar(s, SkipWs(s, e), ','))
    ensures At(s, p, MembersText(m.rest) + "}") && (p < |s| ==> !IsWs(s[p]))
    ensures pos + |MembersText(m)| == p + |MembersText(m.rest)|
  {
    hide Text, At, SkipWs, PastChar, StringLiteral, ValidDoc, AllWs, IsWs, MembersText, ProducedAll,
      WrittenAll, ValidPieces, Comma, Ends;
    MembersStart(s, pos, m);
    var k, v;
    k, v, e, p := MemberParts(s, pos, m);
    c := k + |m.beforeColon| + 1;
    KeyAt(s, pos, m.key);
    SkipColon(s, k, m.beforeColon, m.afterColon);
    MembersStart(s, p, m.rest);
    SkipToMember(s, e, m.after, m.rest.NoMembers?, m.next);
    EndsBeforeMember(s, m.doc, e, m.after, m.rest.NoMembers?, m.next);
    AtJoin(s, c, m.afterColon, Text(m.doc));
  }

  /** One turn of the loop over a member's text. */
  lemma ParseMember(s: string, pos: nat, m: Members, acc: seq<Entry>) returns (p: nat)
    requires ValidMembers(m) && m.MoreMembers? && At(s, pos, MembersText(m) + "}")
    requires pos < |s| ==> !IsWs(s[pos])
    ensures At(s, p, MembersText(m.rest) + "}") && (p < |s| ==> !IsWs(s[p]))
    ensures pos + |MembersText(m)| == p + |MembersText(m.rest)|
    ensures ParseMembers(s, pos, acc) ==
      if Readable(m.doc) then ParseMembers(s, p, acc + [Entry(ProducedAll(m.key), ValueOf(m.doc, ProducedAll))])
      else Thrown
    decreases m, 0
  {
    hide ParseValue, ParseMembers, Text, ValueOf, At, SkipWs, PastChar, StringLiteral, ValidDoc, AllWs, IsWs,
      MembersText, ProducedAll, Ends;
    var c, e, q := MemberFacts(s, pos, m);
    p := q;
    ParseDocAfterWs(s, c, m.afterColon, m.doc);
    MembersTurn(s, pos, acc);
  }

  lemma {:induction false} ParseMembersOf(s: string, pos: nat, members: Members, acc: seq<Entry>)
    requires ValidMembers(members) && At(s, pos, MembersText(members) + "}")
    requires pos < |s| ==> !IsWs(s[pos])
    ensures ParseMembers(s, pos, acc) ==
      if MembersReadable(members)
      then Value(Object(acc + MembersValue(members, ProducedAll)), pos + |MembersText(members)| + 1)
      else Thrown
    decreases members, 1
  {
    hide ParseMembers, ValueOf, At, ValidDoc, AllWs, IsWs, MembersText, ProducedAll, ValidPieces, MembersValue;
    MembersValueStep(members, acc);
    if members.NoMembers? {
      MembersStart(s, pos, members);
      assert |MembersText(members)| == 0 by { NoItemsText(); }
      MembersEnd(s, pos, acc);
    } else {
      var p := ParseMember(s, pos, members, acc);
      if Readable(members.doc) {
        ParseMembersOf(s, p, members.rest, acc + [Entry(ProducedAll(members.key), ValueOf(members.doc, ProducedAll))]);
      }
    }
  }

  lemma MembersValueStep(m: Members, acc: seq<Entry>)
    ensures m.NoMembers? ==> acc + MembersValue(m, ProducedAll) == acc
    ensures m.MoreMembers? ==>
      (acc + [Entry(ProducedAll(m.key), ValueOf(m.doc, ProducedAll))]) + MembersValue(m.rest, ProducedAll)
      == acc + MembersValue(m, ProducedAll)
  {
  }

  lemma MembersEnd(s: string, pos: nat, acc: seq<Entry>)
    requires pos < |s| && s[pos] == '}'
    ensures ParseMembers(s, pos, acc) == Value(Object(acc), pos + 1)
  {
  }

  lemma AtJoin(s: string, i: nat, a: string, b: string)
    requires At(s, i, a) && At(s, i + |a|, b)
    ensures At(s, i, a + b)
  {
    AtSplit(s, i, a, b);
  }

  lemma SkipToMember(s: string, e: nat, after: string, last: bool, next: string)
    requires AllWs(after) && AllWs(next) && At(s, e, after + Comma(last, next))
    requires var p := e + |after + Comma(last, next)|; p < |s| && s[p] in "}\""
    ensures SkipWs(s, PastChar(s, SkipWs(s, e), ',')) == e + |after + Comma(last, next)|
    ensures !IsWs(s[e + |after + Comma(last, next)|])
  {
    hide SkipWs, PastChar, Comma;
    SkipSeparator(s, e, after, last, next);
  }

  lemma EndsBeforeMember(s: string, d: Doc, e: nat, after: string, last: bool, next: string)
    requires AllWs(after) && At(s, e, after + Comma(last, next))
    requires var p := e + |after + Comma(last, next)|; p < |s| && s[p] in "}\""
    ensures Ends(s, d, e)
  {
    if after + Comma(last, next) != "" {
      AtChar(s, e, after + Comma(last, next), 0);
    }
  }

  lemma KeyAt(s: string, pos: nat, key: seq<Piece>)
    requires ValidPieces(key) && At(s, pos, "\"" + (WrittenAll(key) + "\""))
    ensures pos < |s| && StringLiteral(s, pos) == (ProducedAll(key), pos + |WrittenAll(key)| + 2)
  {
    hide Decode, At, WrittenAll, ProducedAll, ValidPieces;
    AtSplit(s, pos, "\"", WrittenAll(key) + "\"");
    DecodeWritten(s, pos + 1, key);
    AtSplit(s, pos + 1, WrittenAll(key), "\"");
    AtChar(s, pos + 1 + |WrittenAll(key)|, "\"", 0);
  }

  lemma ParseDocAfterWs(s: string, pos: nat, w: string, d: Doc)
    requires AllWs(w) && ValidDoc(d) && At(s, pos, w + Text(d)) && Ends(s, d, pos + |w + Text(d)|)
    ensures ParseValue(s, pos) ==
      if Readable(d) then Value(ValueOf(d, ProducedAll), pos + |w + Text(d)|) else Thrown
    decreases d, 1
  {
    hide ParseValue, Text, ValueOf, At, AllWs, SkipWs, ValidDoc, Readable;
    AtSplit(s, pos, w, Text(d));
    FirstChar(d);
    AtChar(s, pos + |w|, Text(d), 0);
    SkipWsAt(s, pos, w);
    ValueAfterWs(s, pos);
    ParseDoc(s, pos + |w|, d);
  }

  // ------------------------------------------------------------ the value meant

  predicate DocSupported(d: Doc) {
    match d
    case DString(ps) => AllSupported(ps)
    case DArray(_, items) => ItemsSupported(items)
    case DObject(_, members) => MembersSupported(members)
    case _ => true
  }

  predicate ItemsSupported(items: Items) {
    items.MoreItems? ==> DocSupported(items.doc) && ItemsSupported(items.rest)
  }

  predicate MembersSupported(m: Members) {
    m.MoreMembers? ==> AllSupported(m.key) && DocSupported(m.doc) && MembersSupported(m.rest)
  }

  /** What the parser reads is what RFC 8259 means, if and only if no string in the text
      uses \b, \f or \u. */
  lemma {:induction false} MeansIff(d: Doc)
    requires ValidDoc(d)
    ensures ValueOf(d, ProducedAll) == ValueOf(d, MeaningAll) <==> DocSupported(d)
    decreases d
  {
    match d {
      case DNull =>
      case DBool(b) =>
      case DNumber(token) =>
      case DString(ps) => MeaningRecovered(ps);
      case DArray(lead, items) => ItemsMeanIff(items);
      case DObject(lead, members) => MembersMeanIff(members);
    }
  }

  lemma {:induction false} ItemsMeanIff(items: Items)
    requires ValidItems(items)
    ensures ItemsValue(items, ProducedAll) == ItemsValue(items, MeaningAll) <==> ItemsSupported(items)
    decreases items
  {
    if items.MoreItems? {
      hide ValueOf, DocSupported, ValidDoc;
      MeansIff(items.doc);
      ItemsMeanIff(items.rest);
      var a, b := ItemsValue(items, ProducedAll), ItemsValue(items, MeaningAll);
      assert a[1..] == ItemsValue(items.rest, ProducedAll) && b[1..] == ItemsValue(items.rest, MeaningAll);
      assert a == [a[0]] + a[1..] && b == [b[0]] + b[1..];
    }
  }

  lemma {:induction false} MembersMeanIff(m: Members)
    requires ValidMembers(m)
    ensures MembersValue(m, ProducedAll) == MembersValue(m, MeaningAll) <==> MembersSupported(m)
    decreases m
  {
    if m.MoreMembers? {
      hide ValueOf, DocSupported, ValidDoc, AllSupported, ProducedAll, MeaningAll;
      MeansIff(m.doc);
      MeaningRecovered(m.key);
      MembersMeanIff(m.rest);
      var a, b := MembersValue(m, ProducedAll), MembersValue(m, MeaningAll);
      assert a[1..] == MembersValue(m.rest, ProducedAll) && b[1..] == MembersValue(m.rest, MeaningAll);
      assert a == [a[0]] + a[1..] && b == [b[0]] + b[1..];
    }
  }

  /** The parser on a value's text, in any layout and with anything behind it that does
      not extend a number: it throws if and only if some number does not convert, and
      otherwise stops exactly after the text, and returns the value meant if and only if the
      text keeps to the supported escapes. */
  lemma ParserInvertsPrinter(lead: string, d: Doc, suf: string)
    requires AllWs(lead) && ValidDoc(d)
    requires d.DNumber? && suf != "" ==> !NumChar(suf[0])
    ensures var r := ParseValue(lead + Text(d) + suf, 0);
      && (r.Value? <==> Readable(d))
      && (r.Value? ==> r.pos == |lead| + |Text(d)| && (r.v == ValueOf(d, MeaningAll) <==> DocSupported(d)))
  {
    hide ParseValue, Text, ValueOf, DocSupported, ValidDoc, Readable;
    var s := lead + Text(d) + suf;
    AtHere("", lead + Text(d), suf);
    assert "" + (lead + Text(d)) + suf == s;
    ParseDocAfterWs(s, 0, lead, d);
    MeansIff(d);
  }

  // ------------------------------------------------------------ a printer for every value

  /** The plainest text of a value: no whitespace, only the escapes that are needed. */
  function Print(v: JsonValue): Doc
    decreases v
  {
    match v
    case Null => DNull
    case Bool(b) => DBool(b)
    case Number(token) => DNumber(token)
    case String(str) => DString(EscapePieces(str))
    case Array(arr) => DArray("", PrintItems(arr))
    case Object(obj) => DObject("", PrintMembers(obj))
  }

  function PrintItems(arr: seq<JsonValue>): Items
    decreases arr
  {
    if arr == [] then NoItems else MoreItems(Print(arr[0]), "", "", PrintItems(arr[1..]))
  }

  function PrintMembers(obj: seq<Entry>): Members
    decreases obj
  {
    if obj == [] then NoMembers
    else MoreMembers(EscapePieces(obj[0].key), "", "", Print(obj[0].value), "", "", PrintMembers(obj[1..]))
  }

  /** Numbers are tokens `stod` converts, and \n, \r and \t are the only control characters
      in strings and keys. */
  predicate Printable(v: JsonValue)
    decreases v
  {
    match v
    case Number(token) => NumberToken(token) && Convertible(token)
    case String(str) => PlainControls(str)
    case Array(arr) => PrintableItems(arr)
    case Object(obj) => PrintableMembers(obj)
    case _ => true
  }

  predicate PrintableItems(arr: seq<JsonValue>)
    decreases arr
  {
    arr != [] ==> Printable(arr[0]) && PrintableItems(arr[1..])
  }

  predicate PrintableMembers(obj: seq<Entry>)
    decreases obj
  {
    obj != [] ==> PlainControls(obj[0].key) && Printable(obj[0].value) && PrintableMembers(obj[1..])
  }

  lemma EscapeIsSupported(s: string)
    requires PlainControls(s)
    ensures AllSupported(EscapePieces(s))
  {
  }

  lemma {:induction false} PrintMeans(v: JsonValue)
    requires Printable(v)
    ensures ValidDoc(Print(v)) && DocSupported(Print(v)) && ValueOf(Print(v), MeaningAll) == v && Readable(Print(v))
    decreases v
  {
    match v {
      case Null =>
      case Bool(b) =>
      case Number(token) =>
      case String(str) => EscapeMeans(str); EscapeIsSupported(str);
      case Array(arr) => PrintItemsMean(arr);
      case Object(obj) => PrintMembersMean(obj);
    }
  }

  lemma {:induction false} PrintItemsMean(arr: seq<JsonValue>)
    requires PrintableItems(arr)
    ensures ValidItems(PrintItems(arr)) && ItemsSupported(PrintItems(arr)) && ItemsReadable(PrintItems(arr))
    ensures ItemsValue(PrintItems(arr), MeaningAll) == arr
    decreases arr
  {
    if arr != [] {
      PrintMeans(arr[0]);
      PrintItemsMean(arr[1..]);
    }
  }

  lemma {:induction false} PrintMembersMean(obj: seq<Entry>)
    requires PrintableMembers(obj)
    ensures ValidMembers(PrintMembers(obj)) && MembersSupported(PrintMembers(obj)) && MembersReadable(PrintMembers(obj))
    ensures MembersValue(PrintMembers(obj), MeaningAll) == obj
    decreases obj
  {
    if obj != [] {
      EscapeMeans(obj[0].key);
      EscapeIsSupported(obj[0].key);
      PrintMeans(obj[0].value);
      PrintMembersMean(obj[1..]);
    }
  }

  /** Every printable value survives printing and parsing. */
  lemma PrintParse(v: JsonValue, suf: string)
    requires Printable(v) && (v.Number? && suf != "" ==> !NumChar(suf[0]))
    ensures ParseValue(Text(Print(v)) + suf, 0) == Value(v, |Text(Print(v))|)
  {
    hide ParseValue, Text, ValueOf, DocSupported, ValidDoc, Printable, Readable;
    PrintMeans(v);
    assert "" + Text(Print(v)) + suf == Text(Print(v)) + suf;
    ParserInvertsPrinter("", Print(v), suf);
  }

  // ------------------------------------------------------------ RFC 8259 numbers

  predicate Digits(t: string) {
    forall i :: 0 <= i < |t| ==> IsDigit(t[i])
  }

  /** number = [ "-" ] int [ "." 1*DIGIT ] [ e [ "-" / "+" ] 1*DIGIT ] */
  predicate RfcNumber(minus: bool, whole: string, frac: string, exp: string) {
    && Digits(whole) && whole != "" && (whole[0] == '0' ==> |whole| == 1)
    && (frac == "" || (|frac| >= 2 && frac[0] == '.' && Digits(frac[1..])))
    && (exp == "" || (|exp| >= 2 && exp[0] in "eE" &&
          (Digits(exp[1..]) || (exp[1] in "+-" && |exp| >= 3 && Digits(exp[2..])))))
  }

  /** Every number of RFC 8259, section 6, is a token the parser takes whole. */
  lemma RfcNumberIsToken(minus: bool, whole: string, frac: string, exp: string)
    requires RfcNumber(minus, whole, frac, exp)
    ensures var t := (if minus then "-" else "") + whole + frac + exp; NumberToken(t) && Convertible(t)
  {
    assert forall i :: 0 < i < |frac| ==> frac[i] == frac[1..][i - 1];
    assert forall i :: 0 < i < |exp| ==> exp[i] == exp[1..][i - 1];
    assert forall i :: 1 < i < |exp| ==> exp[i] == exp[2..][i - 2];
  }

  /** A decimal number as `stod` takes it, before any exponent: a sign or none, digits, and
      digits after a point, at least one digit in all. */
  ghost predicate Decimal(sign: string, whole: string, frac: string) {
    && (sign == "" || sign == "+" || sign == "-") && Digits(whole)
    && (frac == "" || (frac[0] == '.' && Digits(frac[1..])))
    && (whole != "" || |frac| >= 2)
  }

  ghost predicate StartsDecimal(token: string) {
    exists sign, whole, frac :: Decimal(sign, whole, frac) && sign + whole + frac <= token
  }

  /** `stod` converts exactly the tokens that start with a decimal number. */
  lemma ConvertibleIff(token: string)
    ensures Convertible(token) <==> StartsDecimal(token)
  {
    if Convertible(token) {
      var sign := if token[0] == '-' || token[0] == '+' then token[..1] else "";
      var t := token[|sign|..];
      var whole := if IsDigit(t[0]) then t[..1] else "";
      var frac := if IsDigit(t[0]) then "" else t[..2];
      assert frac != "" ==> frac[1..] == [t[1]];
      assert Decimal(sign, whole, frac);
      assert sign + whole + frac <= token;
    }
    if sign, whole, frac :| Decimal(sign, whole, frac) && sign + whole + frac <= token {
      var n := sign + whole + frac;
      assert forall i :: 0 <= i < |n| ==> token[i] == n[i];
      assert whole != "" ==> n[|sign|] == whole[0];
      assert whole == "" ==> n[|sign|] == frac[0] && n[|sign| + 1] == frac[1] == frac[1..][0];
      assert sign != "" ==> n[0] == sign[0];
    }
  }
}
