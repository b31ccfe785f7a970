/** What the audio editor's scan makes of a reply written as JSON: each command with its type,
    its listed sources and its segments. */
module EditReplies {
  import opened Strings
  import opened JsonStrings
  import opened JsonParser
  import opened JsonRoundTrip
  import opened EditCommands
  import opened Counting

  // ------------------------------------------------------------ braces in a text

  /** Every closing brace of the text has an opening one before it, and there are as many. */
  ghost predicate Closed(t: string) {
    Depth(t, 0, |t|) == 0 && forall i :: 0 <= i <= |t| ==> Depth(t, 0, i) >= 0
  }

  predicate NoBrace(t: string) {
    forall i :: 0 <= i < |t| ==> t[i] != '{' && t[i] != '}'
  }

  lemma {:induction false} DepthAt(s: string, p: nat, t: string, i: nat)
    requires At(s, p, t) && i <= |t|
    ensures p + i <= |s| && Depth(s, p, p + i) == Depth(t, 0, i)
    decreases i
  {
    if i > 0 {
      DepthAt(s, p, t, i - 1);
      AtChar(s, p, t, i - 1);
    }
  }

  lemma {:induction false} NoBraceFlat(t: string, i: nat)
    requires NoBrace(t) && i <= |t|
    ensures Depth(t, 0, i) == 0
  {
    if i > 0 {
      NoBraceFlat(t, i - 1);
    }
  }

  lemma NoBraceClosed(t: string)
    requires NoBrace(t)
    ensures Closed(t)
  {
    hide NoBrace;
    forall i | 0 <= i <= |t| ensures Depth(t, 0, i) == 0 {
      NoBraceFlat(t, i);
    }
  }

  lemma ClosedConcat(a: string, b: string)
    requires Closed(a) && Closed(b)
    ensures Closed(a + b)
  {
    hide Depth;
    var t := a + b;
    AtHere("", a, b);
    AtHere(a, b, "");
    assert "" + a + b == t && a + b + "" == t;
    forall i | 0 <= i <= |t| ensures Depth(t, 0, i) >= 0 {
      if i <= |a| {
        DepthAt(t, 0, a, i);
      } else {
        DepthAt(t, |a|, b, i - |a|);
        DepthAt(t, 0, a, |a|);
        DepthSplit(t, 0, |a|, i);
      }
    }
    DepthAt(t, |a|, b, |b|);
    DepthAt(t, 0, a, |a|);
    DepthSplit(t, 0, |a|, |t|);
  }

  /** A closed text between braces is an object that closes at the last of them. */
  lemma BracesBalance(body: string)
    requires Closed(body)
    ensures var t := "{" + (body + "}"); Balanced(t, 0, |t| - 1) && Closed(t)
  {
    hide Depth;
    var t := "{" + (body + "}");
    var n := |body|;
    AtHere("{", body, "}");
    assert "{" + body + "}" == t;
    assert t[0] == '{' && t[n + 1] == '}';
    assert Depth(t, 0, 1) == 1 by { DepthNext(t, 0); DepthNone(t); }
    forall i | 1 <= i <= n + 1 ensures Depth(t, 0, i) > 0 && (i == n + 1 ==> Depth(t, 0, i) == 1) {
      DepthAt(t, 1, body, i - 1);
      DepthSplit(t, 0, 1, i);
    }
    DepthNext(t, n + 1);
    DepthNone(t);
  }

  lemma DepthNext(t: string, i: nat)
    requires i < |t|
    ensures Depth(t, 0, i + 1) == Depth(t, 0, i) + Delta(t[i])
  {
  }

  lemma DepthNone(t: string)
    ensures Depth(t, 0, 0) == 0
  {
  }

  // ------------------------------------------------------------ documents without braces in strings

  predicate BraceFree(d: Doc) {
    match d
    case DString(ps) => NoBrace(WrittenAll(ps))
    case DArray(_, items) => ItemsBraceFree(items)
    case DObject(_, members) => MembersBraceFree(members)
    case _ => true
  }

  predicate ItemsBraceFree(items: Items) {
    items.MoreItems? ==> BraceFree(items.doc) && ItemsBraceFree(items.rest)
  }

  predicate MembersBraceFree(m: Members) {
    m.MoreMembers? ==> NoBrace(WrittenAll(m.key)) && BraceFree(m.doc) && MembersBraceFree(m.rest)
  }

  lemma WsNoBrace(w: string)
    requires AllWs(w)
    ensures NoBrace(w)
  {
  }

  lemma CommaNoBrace(after: string, last: bool, next: string)
    requires AllWs(after) && AllWs(next)
    ensures NoBrace(after + Comma(last, next))
  {
  }

  /** In a value's text every brace closes. */
  lemma {:induction false} TextCloses(d: Doc)
    requires ValidDoc(d) && BraceFree(d)
    ensures Closed(Text(d))
    decreases d
  {
    hide Closed, NoBrace, AllWs;
    match d {
      case DNull => NoBraceClosed(Text(d)) by { LiteralNoBrace(d); }
      case DBool(b) => NoBraceClosed(Text(d)) by { LiteralNoBrace(d); }
      case DNumber(token) => NoBraceClosed(Text(d)) by { NumberNoBrace(token); }
      case DString(ps) => NoBraceClosed(Text(d)) by { QuotesNoBrace(WrittenAll(ps)); }
      case DArray(lead, items) =>
        ItemsClose(items);
        BodyCloses(lead, ItemsText(items));
        BracketsClose(lead + ItemsText(items));
        assert Text(d) == "[" + ((lead + ItemsText(items)) + "]");
      case DObject(lead, members) =>
        ObjectCloses(lead, members);
    }
  }

  /** An object's text closes at its last brace. */
  lemma {:induction false} ObjectCloses(lead: string, members: Members)
    requires ValidDoc(DObject(lead, members)) && BraceFree(DObject(lead, members))
    ensures var t := Text(DObject(lead, members)); Closed(t) && Balanced(t, 0, |t| - 1)
    decreases members, 1
  {
    hide Closed, NoBrace, AllWs, Balanced, MembersText;
    MembersClose(members);
    BodyCloses(lead, MembersText(members));
    BracesBalance(lead + MembersText(members));
    assert Text(DObject(lead, members)) == "{" + ((lead + MembersText(members)) + "}");
  }

  lemma {:induction false} ItemsClose(items: Items)
    requires ValidItems(items) && ItemsBraceFree(items)
    ensures Closed(ItemsText(items))
    decreases items
  {
    hide Closed, NoBrace, AllWs, Text, Comma;
    if items.NoItems? {
      NoBraceClosed("") by { EmptyNoBrace(); }
    } else {
      var sep := items.after + Comma(items.rest.NoItems?, items.next);
      TextCloses(items.doc);
      ItemsClose(items.rest);
      NoBraceClosed(sep) by { CommaNoBrace(items.after, items.rest.NoItems?, items.next); }
      ClosedConcat(sep, ItemsText(items.rest));
      ClosedConcat(Text(items.doc), sep + ItemsText(items.rest));
    }
  }

  lemma {:induction false} MembersClose(m: Members)
    requires ValidMembers(m) && MembersBraceFree(m)
    ensures Closed(MembersText(m))
    decreases m, 0
  {
    hide Closed, NoBrace, AllWs, Text, Comma;
    if m.NoMembers? {
      NoBraceClosed("") by { EmptyNoBrace(); }
    } else {
      var key := "\"" + (WrittenAll(m.key) + "\"");
      var colon := m.beforeColon + (":" + m.afterColon);
      var sep := m.after + Comma(m.rest.NoMembers?, m.next);
      TextCloses(m.doc);
      MembersClose(m.rest);
      NoBraceClosed(key) by { QuotesNoBrace(WrittenAll(m.key)); }
      NoBraceClosed(colon) by { ColonNoBrace(m.beforeColon, m.afterColon); }
      NoBraceClosed(sep) by { CommaNoBrace(m.after, m.rest.NoMembers?, m.next); }
      ClosedConcat(sep, MembersText(m.rest));
      ClosedConcat(Text(m.doc), sep + MembersText(m.rest));
      ClosedConcat(colon, Text(m.doc) + (sep + MembersText(m.rest)));
      ClosedConcat(key, colon + (Text(m.doc) + (sep + MembersText(m.rest))));
    }
  }

  lemma LiteralNoBrace(d: Doc)
    requires d.DNull? || d.DBool?
    ensures NoBrace(Text(d))
  {
  }

  lemma NumberNoBrace(token: string)
    requires NumberToken(token)
    ensures NoBrace(token)
  {
  }

  lemma QuotesNoBrace(t: string)
    requires NoBrace(t)
    ensures NoBrace("\"" + (t + "\""))
  {
  }

  lemma ColonNoBrace(before: string, after: string)
    requires AllWs(before) && AllWs(after)
    ensures NoBrace(before + (":" + after))
  {
  }

  lemma EmptyNoBrace()
    ensures NoBrace("")
  {
  }

  lemma BodyCloses(lead: string, body: string)
    requires AllWs(lead) && Closed(body)
    ensures Closed(lead + body)
  {
    hide Closed;
    NoBraceClosed(lead) by { WsNoBrace(lead); }
    ClosedConcat(lead, body);
  }

  lemma BracketsClose(body: string)
    requires Closed(body)
    ensures Closed("[" + (body + "]"))
  {
    hide Closed;
    NoBraceClosed("[");
    NoBraceClosed("]");
    ClosedConcat(body, "]");
    ClosedConcat("[", body + "]");
  }

  /** Wherever an object's text stands, the object closes at the end of it. */
  lemma ObjectBalanced(s: string, p: nat, d: Doc)
    requires d.DObject? && ValidDoc(d) && BraceFree(d) && At(s, p, Text(d))
    ensures Balanced(s, p, p + |Text(d)| - 1)
  {
    hide Text, ValidDoc, BraceFree, Depth, Closed;
    ObjectCloses(d.lead, d.members);
    var t := Text(d);
    AtChar(s, p, t, 0);
    forall i | p < i <= p + |t| ensures Depth(s, p, i) == Depth(t, 0, i - p) {
      DepthAt(s, p, t, i - p);
    }
  }

  // ------------------------------------------------------------ reading a list

  /** The item is one that the loop takes up at `start`, or one that it passes over. */
  ghost predicate Taken(d: Doc, start: char) {
    Text(d) != "" && Text(d)[0] == start
  }

  ghost predicate PassedOver(t: string, start: char) {
    forall i :: 0 <= i < |t| ==> t[i] != start && t[i] != ']'
  }

  ghost predicate Listed(items: Items, start: char) {
    items.MoreItems? ==> (Taken(items.doc, start) || PassedOver(Text(items.doc), start)) && Listed(items.rest, start)
  }

  /** Where the items taken up begin and end, in a list whose first item begins at `p`. */
  ghost function SpansOf(items: Items, p: nat, start: char): seq<Span> {
    match items
    case NoItems => []
    case MoreItems(doc, after, next, rest) =>
      var e := p + |Text(doc)|;
      (if Taken(doc, start) then [Span(p, e)] else [])
      + SpansOf(rest, e + |after + Comma(rest.NoItems?, next)|, start)
  }

  predicate Opener(start: char) {
    start == '"' || start == '{'
  }

  lemma WsPassed(w: string, start: char)
    requires AllWs(w) && Opener(start)
    ensures PassedOver(w, start)
  {
  }

  lemma CommaPassed(after: string, last: bool, next: string, start: char)
    requires AllWs(after) && AllWs(next) && Opener(start)
    ensures PassedOver(after + Comma(last, next), start)
  {
  }

  /** The loop passes over a text without items and brackets. */
  lemma ReadsOver(s: string, from: nat, spans: seq<Span>, p: nat, t: string, start: char)
    requires Reads(s, from, spans, p, start) && At(s, p, t) && PassedOver(t, start)
    ensures Reads(s, from, spans, p + |t|, start)
  {
    hide Reads, At;
    AtFits(s, p, t);
    forall i | p <= i < p + |t| ensures s[i] != start && s[i] != ']' {
      AtChar(s, p, t, i - p);
    }
    ReadsPast(s, from, spans, p, p + |t|, start);
  }

  /** One item, taken up or passed over. */
  lemma ItemRead(s: string, from: nat, spans: seq<Span>, p: nat, doc: Doc, start: char)
    requires Reads(s, from, spans, p, start) && At(s, p, Text(doc))
    requires Taken(doc, start) || PassedOver(Text(doc), start)
    ensures Reads(s, from, spans + if Taken(doc, start) then [Span(p, p + |Text(doc)|)] else [], p + |Text(doc)|, start)
  {
    hide Reads, At, Text;
    if Taken(doc, start) {
      AtFits(s, p, Text(doc));
      AtChar(s, p, Text(doc), 0);
      ReadsItem(s, from, spans, Span(p, p + |Text(doc)|), start);
    } else {
      ReadsOver(s, from, spans, p, Text(doc), start);
      assert spans + [] == spans;
    }
  }

  /** The loop reads a list item by item. */
  lemma {:induction false} ListRead(s: string, from: nat, spans: seq<Span>, p: nat, items: Items, start: char)
    requires Reads(s, from, spans, p, start) && At(s, p, ItemsText(items)) && ValidItems(items)
    requires Listed(items, start) && Opener(start)
    ensures Reads(s, from, spans + SpansOf(items, p, start), p + |ItemsText(items)|, start)
    decreases items
  {
    hide Reads, At, Text, Taken, PassedOver, Comma, AllWs, ValidDoc;
    match items {
      case NoItems => assert spans + [] == spans;
      case MoreItems(doc, after, next, rest) =>
        var sep := after + Comma(rest.NoItems?, next);
        var e := p + |Text(doc)|;
        var one := if Taken(doc, start) then [Span(p, e)] else [];
        AtSplit(s, p, Text(doc), sep + ItemsText(rest));
        AtSplit(s, e, sep, ItemsText(rest));
        ItemRead(s, from, spans, p, doc, start);
        CommaPassed(after, rest.NoItems?, next, start);
        ReadsOver(s, from, spans + one, e, sep, start);
        ListRead(s, from, spans + one, e + |sep|, rest, start);
        assert spans + SpansOf(items, p, start) == (spans + one) + SpansOf(rest, e + |sep|, start);
    }
  }

  /** A whole list whose opening bracket stands at `q`. */
  lemma ArrayTextRead(s: string, q: nat, lead: string, items: Items, start: char)
    requires At(s, q, Text(DArray(lead, items))) && ValidDoc(DArray(lead, items))
    requires Listed(items, start) && Opener(start)
    ensures var p := q + 1 + |lead|;
      var stop := p + |ItemsText(items)|;
      && stop + 1 == q + |Text(DArray(lead, items))| <= |s| && s[q] == '[' && s[stop] == ']'
      && At(s, p, ItemsText(items)) && Reads(s, q + 1, SpansOf(items, p, start), stop, start)
  {
    hide Reads, At, Listed, SpansOf, AllWs, ItemsText;
    var t := ItemsText(items);
    AtFits(s, q, Text(DArray(lead, items)));
    AtParts(s, q, "[", lead, t, "]");
    AtChar(s, q, "[", 0);
    AtChar(s, q + 1 + |lead| + |t|, "]", 0);
    NothingTaken(s, q + 1, start);
    WsPassed(lead, start);
    ReadsOver(s, q + 1, [], q + 1, lead, start);
    ListRead(s, q + 1, [], q + 1 + |lead|, items, start);
    assert [] + SpansOf(items, q + 1 + |lead|, start) == SpansOf(items, q + 1 + |lead|, start);
  }

  lemma NothingTaken(s: string, from: nat, start: char)
    requires from <= |s|
    ensures Reads(s, from, [], from, start)
  {
  }

  // ------------------------------------------------------------ what a list holds

  /** The strings of a list, as the parsers read them. */
  ghost function Literals(items: Items): seq<string> {
    match items
    case NoItems => []
    case MoreItems(doc, _, _, rest) => (if doc.DString? then [ProducedAll(doc.ps)] else []) + Literals(rest)
  }

  lemma TakenIs(d: Doc)
    requires ValidDoc(d)
    ensures Taken(d, '"') <==> d.DString?
    ensures Taken(d, '{') <==> d.DObject?
  {
    if d.DNumber? {
      NumberStart(d.token);
    }
  }

  lemma DecodedConcat(s: string, close: nat, a: seq<Span>, x: seq<string>, b: seq<Span>, y: seq<string>)
    requires close < |s| && Decoded(s, close, a, x) && Decoded(s, close, b, y)
    ensures Decoded(s, close, a + b, x + y)
  {
    hide StringLiteral;
  }

  lemma LiteralDecoded(s: string, p: nat, ps: seq<Piece>, close: nat)
    requires ValidPieces(ps) && At(s, p, Text(DString(ps))) && p + |Text(DString(ps))| <= close < |s|
    ensures Decoded(s, close, [Span(p, p + |Text(DString(ps))|)], [ProducedAll(ps)])
  {
    hide StringLiteral, At, ValidPieces, WrittenAll, ProducedAll;
    KeyAt(s, p, ps);
  }

  /** Each string taken up decodes to what it produces. */
  lemma {:induction false} LiteralsDecoded(s: string, p: nat, items: Items, close: nat)
    requires ValidItems(items) && At(s, p, ItemsText(items)) && p + |ItemsText(items)| <= close < |s|
    ensures Decoded(s, close, SpansOf(items, p, '"'), Literals(items))
    decreases items
  {
    hide Decoded, At, Text, Taken, Comma, AllWs, ValidDoc;
    match items {
      case NoItems => NothingDecoded(s, close);
      case MoreItems(doc, after, next, rest) =>
        var sep := after + Comma(rest.NoItems?, next);
        var e := p + |Text(doc)|;
        AtSplit(s, p, Text(doc), sep + ItemsText(rest));
        AtSplit(s, e, sep, ItemsText(rest));
        LiteralsDecoded(s, e + |sep|, rest, close);
        TakenIs(doc);
        var span, text := [Span(p, e)], if doc.DString? then [ProducedAll(doc.ps)] else [];
        if doc.DString? {
          LiteralDecoded(s, p, doc.ps, close) by { StringValid(doc); }
          DecodedConcat(s, close, span, text, SpansOf(rest, e + |sep|, '"'), Literals(rest));
        } else {
          assert [] + Literals(rest) == Literals(rest);
          assert [] + SpansOf(rest, e + |sep|, '"') == SpansOf(rest, e + |sep|, '"');
        }
    }
  }

  lemma StringValid(d: Doc)
    requires d.DString? && ValidDoc(d)
    ensures ValidPieces(d.ps) && Text(d) == Text(DString(d.ps))
  {
  }

  lemma NothingDecoded(s: string, close: nat)
    requires close < |s|
    ensures Decoded(s, close, [], [])
  {
  }

  /** Each object taken up closes at its end. */
  lemma {:induction false} SpansBalanced(s: string, p: nat, items: Items, limit: nat)
    requires ValidItems(items) && ItemsBraceFree(items) && At(s, p, ItemsText(items)) && p + |ItemsText(items)| <= limit
    ensures AllBalanced(s, SpansOf(items, p, '{'), limit)
    decreases items
  {
    hide Balanced, At, Text, Taken, Comma, AllWs, ValidDoc, BraceFree;
    match items {
      case NoItems =>
      case MoreItems(doc, after, next, rest) =>
        var sep := after + Comma(rest.NoItems?, next);
        var e := p + |Text(doc)|;
        AtSplit(s, p, Text(doc), sep + ItemsText(rest));
        AtSplit(s, e, sep, ItemsText(rest));
        SpansBalanced(s, e + |sep|, rest, limit);
        TakenIs(doc);
        if doc.DObject? {
          ObjectBalanced(s, p, doc);
          FirstChar(doc);
        }
    }
  }

  // ------------------------------------------------------------ fields

  /** From `open` on, the quoted key first stands where `q` follows it. */
  ghost predicate KeyThen(s: string, open: nat, key: string, q: nat) {
    exists i: nat :: FirstAt(s, open, key, i) && Follows(s, i, key, q)
  }

  /** The quoted key does not begin between `a` and `b`. */
  ghost predicate NoKeyIn(s: string, a: nat, b: nat, key: string) {
    forall k :: a <= k < b ==> !At(s, k, Quoted(key))
  }

  lemma FieldFound(s: string, open: nat, key: string, q: nat)
    requires KeyThen(s, open, key, q)
    ensures FindKey(s, open, key) == q
  {
    hide FindKey, FirstAt, Follows;
    FindKeyIff(s, open, key, q);
  }

  /** A string after the key is what the field reads. */
  lemma StringField(s: string, open: nat, key: string, q: nat, ps: seq<Piece>)
    requires KeyThen(s, open, key, q) && ValidPieces(ps) && At(s, q, Text(DString(ps)))
    ensures StrField(s, open, key) == ProducedAll(ps)
  {
    hide FindKey, KeyThen, StringLiteral, At, ValidPieces, WrittenAll, ProducedAll;
    FieldFound(s, open, key, q);
    KeyAt(s, q, ps);
    AtChar(s, q, Text(DString(ps)), 0);
  }

  /** Without the key, or with anything else after it, the field is empty. */
  lemma EmptyField(s: string, open: nat, key: string)
    requires NoKey(s, open, key) || exists q: nat :: KeyThen(s, open, key, q) && (q < |s| ==> s[q] != '"')
    ensures StrField(s, open, key) == ""
  {
    hide FindKey, FirstAt, Follows, NoKey;
    if NoKey(s, open, key) {
      FindKeyIff(s, open, key, NPOS);
    } else {
      var q: nat :| KeyThen(s, open, key, q) && (q < |s| ==> s[q] != '"');
      FieldFound(s, open, key, q);
    }
  }

  lemma SourcesRead(s: string, open: nat, close: nat, q: nat, lead: string, items: Items)
    requires KeyThen(s, open, "sources", q) && At(s, q, Text(DArray(lead, items)))
    requires ValidDoc(DArray(lead, items)) && Listed(items, '"') && q + |Text(DArray(lead, items))| <= close < |s|
    ensures SourcesOf(s, open, close, Literals(items))
  {
    hide FindKey, KeyThen, Reads, Decoded, At, Listed, SpansOf, Literals, ItemsText, AllWs;
    FieldFound(s, open, "sources", q);
    ArrayTextRead(s, q, lead, items, '"');
    var p := q + 1 + |lead|;
    LiteralsDecoded(s, p, items, close) by { ArrayLength(lead, items); }
    assert ListEnd(s, p + |ItemsText(items)|, close);
  }

  lemma SegmentsRead(s: string, open: nat, close: nat, q: nat, lead: string, items: Items)
    requires KeyThen(s, open, "segments", q) && At(s, q, Text(DArray(lead, items)))
    requires ValidDoc(DArray(lead, items)) && Listed(items, '{') && q + |Text(DArray(lead, items))| <= close < |s|
    requires ItemsBraceFree(items)
    ensures SegmentsOf(s, open, close, SpansOf(items, q + 1 + |lead|, '{'))
  {
    hide FindKey, KeyThen, Reads, AllBalanced, At, Listed, SpansOf, ItemsText, AllWs, ItemsBraceFree;
    FieldFound(s, open, "segments", q);
    ArrayTextRead(s, q, lead, items, '{');
    var p := q + 1 + |lead|;
    SpansBalanced(s, p, items, close) by { ArrayLength(lead, items); }
    assert ListEnd(s, p + |ItemsText(items)|, close);
  }

  lemma ArrayLength(lead: string, items: Items)
    ensures |Text(DArray(lead, items))| == |lead| + |ItemsText(items)| + 2
  {
  }

  /** Without the key in the object, or with anything but a list after it, the list is empty. */
  lemma ListElsewhere(s: string, open: nat, close: nat, key: string)
    requires open <= close < |s|
    requires NoKeyIn(s, open, close, key) || exists q: nat :: KeyThen(s, open, key, q) && (q >= close || s[q] != '[')
    ensures ListStart(s, open, close, key) == NPOS
  {
    hide At, SkipWs, KeyThen, FindKey;
    KeyFound(s, open, key);
    if q: nat :| KeyThen(s, open, key, q) && (q >= close || s[q] != '[') {
      FieldFound(s, open, key, q);
    } else {
      AfterItsKey(s, open, key);
    }
  }

  lemma AfterItsKey(s: string, open: nat, key: string)
    ensures FindKey(s, open, key) == NPOS || FindKey(s, open, key) >= Find(s, Quoted(key), open) >= open
  {
    hide At;
  }

  // ------------------------------------------------------------ commands

  /** A member whose key is written `name` has its key at `k` and its value at `q`, in a list
      of members that begins at `p`. */
  ghost predicate FieldAt(m: Members, p: nat, name: string, k: nat, doc: Doc, q: nat) {
    m.MoreMembers? &&
    var colon := p + |WrittenAll(m.key)| + 2;
    var value := colon + |m.beforeColon + (":" + m.afterColon)|;
    || (WrittenAll(m.key) == name && k == p && doc == m.doc && q == value)
    || FieldAt(m.rest, value + |Text(m.doc)| + |m.after + Comma(m.rest.NoMembers?, m.next)|, name, k, doc, q)
  }

  lemma AtParts(s: string, p: nat, a: string, b: string, c: string, d: string)
    requires At(s, p, a + (b + (c + d)))
    ensures At(s, p, a) && At(s, p + |a|, b) && At(s, p + |a| + |b|, c) && At(s, p + |a| + |b| + |c|, d)
    ensures |a + (b + (c + d))| == |a| + |b| + |c| + |d|
  {
    hide At;
    AtSplit(s, p, a, b + (c + d));
    AtSplit(s, p + |a|, b, c + d);
    AtSplit(s, p + |a| + |b|, c, d);
  }

  lemma QuotedIs(key: string)
    ensures "\"" + (key + "\"") == Quoted(key) && |Quoted(key)| == |key| + 2
  {
  }

  lemma MembersForm(m: Members)
    requires m.MoreMembers?
    ensures MembersText(m) == Quoted(WrittenAll(m.key)) + ((m.beforeColon + (":" + m.afterColon))
      + (Text(m.doc) + ((m.after + Comma(m.rest.NoMembers?, m.next)) + MembersText(m.rest))))
  {
    hide Quoted, WrittenAll, Text, Comma;
    QuotedIs(WrittenAll(m.key));
  }

  lemma MemberSplit(s: string, p: nat, m: Members)
    requires m.MoreMembers? && At(s, p, MembersText(m))
    ensures var colon := p + |WrittenAll(m.key)| + 2;
      var value := colon + |m.beforeColon + (":" + m.afterColon)|;
      var sep := m.after + Comma(m.rest.NoMembers?, m.next);
      && At(s, p, Quoted(WrittenAll(m.key))) && At(s, colon, m.beforeColon + (":" + m.afterColon))
      && At(s, value, Text(m.doc)) && At(s, value + |Text(m.doc)| + |sep|, MembersText(m.rest))
      && p + |MembersText(m)| == value + |Text(m.doc)| + |sep| + |MembersText(m.rest)|
  {
    hide At, Text, Comma, WrittenAll, MembersText, Quoted;
    var key := Quoted(WrittenAll(m.key));
    var colon := m.beforeColon + (":" + m.afterColon);
    var sep := m.after + Comma(m.rest.NoMembers?, m.next);
    MembersForm(m);
    QuotedIs(WrittenAll(m.key));
    AtParts(s, p, key, colon, Text(m.doc), sep + MembersText(m.rest));
    AtSplit(s, p + |key| + |colon| + |Text(m.doc)|, sep, MembersText(m.rest));
  }

  /** The key of a member is followed by the member's value. */
  lemma {:induction false} FieldStands(s: string, m: Members, p: nat, name: string, k: nat, doc: Doc, q: nat)
    requires At(s, p, MembersText(m)) && ValidMembers(m) && FieldAt(m, p, name, k, doc, q)
    ensures At(s, k, Quoted(name)) && Follows(s, k, name, q)
    ensures At(s, q, Text(doc)) && ValidDoc(doc) && p <= k < q && q + |Text(doc)| <= p + |MembersText(m)|
    decreases m
  {
    hide At, Text, Comma, AllWs, ValidDoc, Follows, MembersText, WrittenAll;
    MemberSplit(s, p, m);
    var colon := p + |WrittenAll(m.key)| + 2;
    var value := colon + |m.beforeColon + (":" + m.afterColon)|;
    if WrittenAll(m.key) == name && k == p && doc == m.doc && q == value {
      ValueFollows(s, k, name, m.beforeColon, m.afterColon, doc);
    } else {
      FieldStands(s, m.rest, value + |Text(m.doc)| + |m.after + Comma(m.rest.NoMembers?, m.next)|, name, k, doc, q);
    }
  }

  lemma ValueFollows(s: string, k: nat, name: string, before: string, after: string, doc: Doc)
    requires AllWs(before) && AllWs(after) && ValidDoc(doc) && At(s, k, Quoted(name))
    requires At(s, KeyEnd(k, name), before + (":" + after))
    requires At(s, KeyEnd(k, name) + |before + (":" + after)|, Text(doc))
    ensures Follows(s, k, name, KeyEnd(k, name) + |before + (":" + after)|)
  {
    hide At, Text, ValidDoc, AllWs, Spaces;
    var e := KeyEnd(k, name);
    var q := e + |before|;
    var r := q + 1 + |after|;
    AtSplit(s, e, before, ":" + after);
    AtSplit(s, q, ":", after);
    AtChar(s, q, ":", 0);
    FirstChar(doc);
    AtChar(s, r, Text(doc), 0);
    WsSpaces(s, e, before);
    WsSpaces(s, q + 1, after);
    assert Colon(s, e, q, r);
  }

  lemma WsSpaces(s: string, a: nat, w: string)
    requires AllWs(w) && At(s, a, w) && (a + |w| < |s| ==> !IsWs(s[a + |w|]))
    ensures Spaces(s, a, a + |w|)
  {
    hide At;
    AtFits(s, a, w);
    forall i | a <= i < a + |w| ensures IsWs(s[i]) {
      AtChar(s, a, w, i - a);
    }
  }

  /** The object `d` at `open` has a member `name`, and the quoted name does not stand before
      its key; the value `doc` stands at `q`. */
  ghost predicate HasField(s: string, open: nat, d: Doc, name: string, doc: Doc, q: nat) {
    d.DObject? && exists k: nat ::
      FieldAt(d.members, open + 1 + |d.lead|, name, k, doc, q) && FirstAt(s, open, name, k)
  }

  lemma HasFieldStands(s: string, open: nat, d: Doc, name: string, doc: Doc, q: nat)
    requires HasField(s, open, d, name, doc, q) && ValidDoc(d) && At(s, open, Text(d))
    ensures KeyThen(s, open, name, q) && At(s, q, Text(doc)) && ValidDoc(doc)
    ensures open < q && q + |Text(doc)| <= open + |Text(d)| - 1
  {
    hide At, ValidMembers, AllWs, FieldAt, FirstAt, Follows, MembersText, ValidDoc;
    var k: nat :| FieldAt(d.members, open + 1 + |d.lead|, name, k, doc, q) && FirstAt(s, open, name, k);
    AtSplit(s, open, "{", d.lead + (MembersText(d.members) + "}")) by { ObjectForm(d); }
    AtSplit(s, open + 1, d.lead, MembersText(d.members) + "}");
    AtSplit(s, open + 1 + |d.lead|, MembersText(d.members), "}");
    ObjectForm(d);
    FieldStands(s, d.members, open + 1 + |d.lead|, name, k, doc, q);
  }

  lemma ObjectForm(d: Doc)
    requires d.DObject?
    ensures Text(d) == "{" + (d.lead + (MembersText(d.members) + "}"))
    ensures ValidDoc(d) ==> ValidMembers(d.members)
  {
  }

  /** The first quoted "type" in the text from `open` on has the string `kind` after it. */
  ghost predicate TypeFollows(s: string, open: nat, kind: string) {
    exists ps, q: nat ::
      KeyThen(s, open, "type", q) && At(s, q, Text(DString(ps))) && ValidPieces(ps) && kind == ProducedAll(ps)
  }

  /** The type of the object `d` at `open`: its own, or, when the quoted "type" does not
      stand in it, that of whatever follows it in the text. */
  ghost predicate SaysType(s: string, open: nat, d: Doc, kind: string) {
    || (exists ps, q: nat :: HasField(s, open, d, "type", DString(ps), q) && kind == ProducedAll(ps))
    || (NoKeyIn(s, open, open + |Text(d)|, "type") && TypeFollows(s, open, kind))
    || (NoKey(s, open, "type") && kind == "")
  }

  ghost predicate SaysSources(s: string, open: nat, d: Doc, sources: seq<string>) {
    || (exists lead, items, q: nat ::
          HasField(s, open, d, "sources", DArray(lead, items), q) && Listed(items, '"') && sources == Literals(items))
    || (NoKeyIn(s, open, open + |Text(d)|, "sources") && sources == [])
  }

  ghost predicate SaysSegments(s: string, open: nat, d: Doc, segments: seq<Span>) {
    || (exists lead, items, q: nat ::
          && HasField(s, open, d, "segments", DArray(lead, items), q) && Listed(items, '{') && ItemsBraceFree(items)
          && segments == SpansOf(items, q + 1 + |lead|, '{'))
    || (NoKeyIn(s, open, open + |Text(d)|, "segments") && segments == [])
  }

  /** The object `d`, which stands at `open`, is a command written as JSON. */
  ghost predicate SaysCommand(s: string, open: nat, d: Doc, cmd: EditCommand) {
    && d.DObject? && BraceFree(d)
    && SaysType(s, open, d, cmd.kind)
    && SaysSources(s, open, d, cmd.sources)
    && SaysSegments(s, open, d, cmd.segments)
  }

  lemma TypeRead(s: string, open: nat, d: Doc, kind: string)
    requires ValidDoc(d) && At(s, open, Text(d)) && SaysType(s, open, d, kind)
    ensures StrField(s, open, "type") == kind
  {
    hide At, HasField, StrField, KeyThen, ProducedAll, NoKey, NoKeyIn, Text, ValidDoc;
    if NoKey(s, open, "type") && kind == "" {
      EmptyField(s, open, "type");
    } else if TypeFollows(s, open, kind) {
      var ps, q: nat :|
        KeyThen(s, open, "type", q) && At(s, q, Text(DString(ps))) && ValidPieces(ps) && kind == ProducedAll(ps);
      StringField(s, open, "type", q, ps);
    } else {
      var ps, q: nat :| HasField(s, open, d, "type", DString(ps), q) && kind == ProducedAll(ps);
      HasFieldStands(s, open, d, "type", DString(ps), q);
      StringValid(DString(ps));
      StringField(s, open, "type", q, ps);
    }
  }

  lemma SaidSources(s: string, open: nat, d: Doc, sources: seq<string>)
    requires ValidDoc(d) && At(s, open, Text(d)) && SaysSources(s, open, d, sources) && d.DObject?
    ensures SourcesOf(s, open, open + |Text(d)| - 1, sources)
  {
    hide At, HasField, KeyThen, Literals, Listed, ListStart, NoKeyIn, Text, ValidDoc;
    AtFits(s, open, Text(d));
    FirstChar(d);
    var close := open + |Text(d)| - 1;
    if NoKeyIn(s, open, open + |Text(d)|, "sources") && sources == [] {
      ListElsewhere(s, open, close, "sources") by { Fewer(s, open, close, "sources"); }
    } else {
      var lead, items, q: nat :|
        HasField(s, open, d, "sources", DArray(lead, items), q) && Listed(items, '"') && sources == Literals(items);
      HasFieldStands(s, open, d, "sources", DArray(lead, items), q);
      SourcesRead(s, open, close, q, lead, items);
    }
  }

  lemma Fewer(s: string, a: nat, b: nat, key: string)
    requires NoKeyIn(s, a, b + 1, key)
    ensures NoKeyIn(s, a, b, key)
  {
  }

  lemma SaidSegments(s: string, open: nat, d: Doc, segments: seq<Span>)
    requires ValidDoc(d) && At(s, open, Text(d)) && SaysSegments(s, open, d, segments) && d.DObject?
    ensures SegmentsOf(s, open, open + |Text(d)| - 1, segments)
  {
    hide At, HasField, KeyThen, SpansOf, Listed, ListStart, NoKeyIn, Text, ValidDoc, ItemsBraceFree;
    AtFits(s, open, Text(d));
    FirstChar(d);
    var close := open + |Text(d)| - 1;
    if NoKeyIn(s, open, open + |Text(d)|, "segments") && segments == [] {
      ListElsewhere(s, open, close, "segments") by { Fewer(s, open, close, "segments"); }
    } else {
      var lead, items, q: nat :|
        && HasField(s, open, d, "segments", DArray(lead, items), q) && Listed(items, '{') && ItemsBraceFree(items)
        && segments == SpansOf(items, q + 1 + |lead|, '{');
      HasFieldStands(s, open, d, "segments", DArray(lead, items), q);
      SegmentsRead(s, open, close, q, lead, items);
    }
  }

  /** A command object written as JSON is read with its type, its sources and its segments. */
  lemma CommandRead(s: string, open: nat, d: Doc, cmd: EditCommand)
    requires ValidDoc(d) && At(s, open, Text(d)) && SaysCommand(s, open, d, cmd)
    ensures CommandOf(s, Span(open, open + |Text(d)|), cmd)
  {
    hide At, Text, ValidDoc, SaysType, SaysSources, SaysSegments, SourcesOf, SegmentsOf, StrField, Balanced, BraceFree;
    FirstChar(d);
    ObjectBalanced(s, open, d);
    TypeRead(s, open, d, cmd.kind);
    SaidSources(s, open, d, cmd.sources);
    SaidSegments(s, open, d, cmd.segments);
  }

  /** The objects of a list that begins at `p` are these commands. */
  ghost predicate SaysCommands(s: string, p: nat, items: Items, cmds: seq<EditCommand>)
    decreases items
  {
    match items
    case NoItems => cmds == []
    case MoreItems(doc, after, next, rest) =>
      var e := p + |Text(doc)| + |after + Comma(rest.NoItems?, next)|;
      if doc.DObject? then cmds != [] && SaysCommand(s, p, doc, cmds[0]) && SaysCommands(s, e, rest, cmds[1..])
      else SaysCommands(s, e, rest, cmds)
  }

  lemma {:induction false} CommandsSaid(s: string, p: nat, items: Items, cmds: seq<EditCommand>)
    requires ValidItems(items) && At(s, p, ItemsText(items)) && SaysCommands(s, p, items, cmds)
    ensures CommandsOf(s, SpansOf(items, p, '{'), cmds)
    decreases items
  {
    hide CommandOf, SaysCommand, At, Text, Taken, Comma, AllWs, ValidDoc;
    match items {
      case NoItems =>
      case MoreItems(doc, after, next, rest) =>
        var sep := after + Comma(rest.NoItems?, next);
        var e := p + |Text(doc)|;
        AtSplit(s, p, Text(doc), sep + ItemsText(rest));
        AtSplit(s, e, sep, ItemsText(rest));
        TakenIs(doc);
        if doc.DObject? {
          CommandRead(s, p, doc, cmds[0]);
          CommandsSaid(s, e + |sep|, rest, cmds[1..]);
        } else {
          CommandsSaid(s, e + |sep|, rest, cmds);
        }
    }
  }

  /** `q` is the first opening bracket after the first quoted "edit_commands". */
  ghost predicate ArrayAt(s: string, q: nat) {
    exists i: nat :: FirstAt(s, 0, "edit_commands", i) && i <= q < |s| && s[q] == '['
      && forall k :: i <= k < q ==> s[k] != '['
  }

  /** A reply whose command list is written as JSON gives exactly the commands listed, in
      order, those without a type left out. */
  lemma ReplyRead(s: string, q: nat, lead: string, items: Items, all: seq<EditCommand>, cmds: seq<EditCommand>)
    requires ArrayAt(s, q) && At(s, q, Text(DArray(lead, items))) && ValidDoc(DArray(lead, items)) && Listed(items, '{')
    requires SaysCommands(s, q + 1 + |lead|, items, all)
    ensures ParsesTo(s, cmds) <==> cmds == Typed(all)
  {
    hide At, Reads, Listed, SpansOf, Text, CommandsOf, Typed, SaysCommands, ArrayAt, ValidItems, AllWs;
    var p := q + 1 + |lead|;
    ArrayStarts(s, q);
    ArrayTextRead(s, q, lead, items, '{');
    CommandsSaid(s, p, items, all);
    var spans, stop := SpansOf(items, p, '{'), p + |ItemsText(items)|;
    assert CommandsRead(s, spans, all, stop);
    assert ParsesTo(s, Typed(all));
    if ParsesTo(s, cmds) {
      ParseDetermined(s, cmds, Typed(all));
    }
  }

  lemma ArrayStarts(s: string, q: nat)
    requires ArrayAt(s, q)
    ensures ArrayStart(s) == q + 1
  {
    hide At;
    var i: nat :| FirstAt(s, 0, "edit_commands", i) && i <= q < |s| && s[q] == '['
      && forall k :: i <= k < q ==> s[k] != '[';
    assert Quoted("edit_commands") == "\"edit_commands\"";
    assert Find(s, "\"edit_commands\"", 0) == i;
    assert At(s, q, "[") by { BracketAt(s, q); }
    forall k | i <= k < q ensures !At(s, k, "[") {
      if At(s, k, "[") {
        AtChar(s, k, "[", 0);
      }
    }
  }

  lemma BracketAt(s: string, q: nat)
    requires q < |s| && s[q] == '['
    ensures At(s, q, "[")
  {
  }

  ghost function TypedPlaces(all: seq<EditCommand>): set<int> {
    set i | 0 <= i < |all| && all[i].kind != ""
  }

  lemma NothingChosen(chosen: set<int>)
    requires chosen == {}
    ensures Enumerates([], chosen)
  {
  }

  /** The commands with a type, in order and none besides: what `Typed` keeps. */
  lemma {:induction false} TypedKept(all: seq<EditCommand>) returns (idx: seq<int>)
    ensures Enumerates(idx, TypedPlaces(all))
    ensures |idx| == |Typed(all)|
    ensures forall k :: 0 <= k < |idx| ==> 0 <= idx[k] < |all| && Typed(all)[k] == all[idx[k]]
  {
    hide Enumerates;
    if all == [] {
      idx := [];
      NothingChosen(TypedPlaces(all));
    } else {
      var n := |all| - 1;
      var places := TypedPlaces(all[..n]);
      idx := TypedKept(all[..n]);
      MembersBelow(idx, places, n);
      if all[n].kind != "" {
        EnumeratesMore(idx, places, n);
        assert TypedPlaces(all) == places + {n};
        idx := idx + [n];
      } else {
        assert TypedPlaces(all) == places;
      }
    }
  }

  // ------------------------------------------------------------ an example

  function Plainly(t: string): seq<Piece> {
    seq(|t|, i requires 0 <= i < |t| => Plain(t[i]))
  }

  lemma {:induction false} PlainlyWritten(t: string)
    ensures WrittenAll(Plainly(t)) == t && ProducedAll(Plainly(t)) == t
  {
    if t != "" {
      assert Plainly(t)[1..] == Plainly(t[1..]);
      PlainlyWritten(t[1..]);
      assert t == [t[0]] + t[1..];
    }
  }

  lemma NoQuote(s: string, k: nat, key: string)
    requires k < |s| ==> s[k] != '"'
    ensures !At(s, k, Quoted(key))
  {
    if At(s, k, Quoted(key)) {
      AtChar(s, k, Quoted(key), 0);
    }
  }

  /** A key whose first letter does not occur is not there. */
  lemma NoLetter(s: string, open: nat, key: string)
    requires key != "" && forall k :: open <= k < |s| ==> s[k] != key[0]
    ensures NoKey(s, open, key)
  {
    forall k | open <= k ensures !At(s, k, Quoted(key)) {
      if At(s, k, Quoted(key)) {
        AtChar(s, k, Quoted(key), 1);
      }
    }
  }

  const HEAD := "{\"edit_commands\":"
  const CUT := "{" + ("" + ((Quoted("type") + (":" + Quoted("cut"))) + "}"))

  lemma HeadFound(s: string, rest: string)
    requires s == HEAD + ("[" + rest)
    ensures ArrayAt(s, |HEAD|)
  {
    var key := Quoted("edit_commands");
    assert key == "\"edit_commands\"";
    assert HEAD == "{" + key + ":";
    AtHere("{", key, ":" + ("[" + rest));
    assert "{" + key + (":" + ("[" + rest)) == s;
    assert s[0] == '{' && s[|HEAD|] == '[';
    NoQuote(s, 0, "edit_commands");
    assert FirstAt(s, 0, "edit_commands", 1);
    forall k | 1 <= k < |HEAD| ensures s[k] != '[' {
      assert s[k] == HEAD[k];
    }
  }

  function CutDoc(): Doc {
    DObject("", MoreMembers(Plainly("type"), "", "", DString(Plainly("cut")), "", "", NoMembers))
  }

  lemma PlainlyValid(t: string)
    requires NoBrace(t) && forall i :: 0 <= i < |t| ==> t[i] != '"' && t[i] != '\\'
    ensures ValidPieces(Plainly(t)) && NoBrace(t)
  {
  }

  lemma NoMembersForm()
    ensures MembersText(NoMembers) == ""
  {
  }

  lemma NoSpaces(a: string, b: string)
    ensures a + (("" + (":" + "")) + (b + (("" + Comma(true, "")) + ""))) == a + (":" + b)
  {
  }

  lemma StringForm(ps: seq<Piece>)
    ensures Text(DString(ps)) == Quoted(WrittenAll(ps))
  {
    hide WrittenAll;
    QuotedIs(WrittenAll(ps));
  }

  lemma CutValid()
    ensures ValidDoc(CutDoc()) && BraceFree(CutDoc())
  {
    hide Plainly, WrittenAll, ValidPieces, NoBrace;
    PlainlyWritten("cut");
    PlainlyWritten("type");
    PlainlyValid("cut");
    PlainlyValid("type");
  }

  lemma CutText()
    ensures Text(CutDoc()) == CUT
  {
    hide Plainly, WrittenAll, MembersText, Text, Comma, Quoted;
    PlainlyWritten("cut");
    PlainlyWritten("type");
    MembersForm(CutDoc().members);
    NoMembersForm();
    StringForm(Plainly("cut"));
    NoSpaces(Quoted("type"), Quoted("cut"));
    ObjectForm(CutDoc());
  }

  /** After the command there are two closing brackets. */
  predicate CutAt(s: string, open: nat) {
    At(s, open, CUT) && open + |CUT| + 2 == |s| && s[|s| - 2] == ']' && s[|s| - 1] == '}'
  }

  lemma CutLetters(s: string, open: nat)
    requires CutAt(s, open)
    ensures NoKey(s, open, "sources") && NoKey(s, open, "segments")
  {
    hide At, NoKey;
    forall k | open <= k < |s| ensures s[k] != 's' {
      if k < |s| - 2 {
        AtChar(s, open, CUT, k - open);
      }
    }
    NoLetter(s, open, "sources");
    NoLetter(s, open, "segments");
  }

  lemma CutKey(s: string, open: nat, more: string)
    requires At(s, open, "{" + ("" + ((Quoted("type") + more) + "}")))
    ensures open < |s| && s[open] == '{' && At(s, open + 1, Quoted("type"))
  {
    hide At, Quoted;
    AtParts(s, open, "{", "", Quoted("type") + more, "}");
    AtSplit(s, open + 1, Quoted("type"), more);
    AtChar(s, open, "{", 0);
  }

  lemma CutType(s: string, open: nat)
    requires CutAt(s, open)
    ensures HasField(s, open, CutDoc(), "type", DString(Plainly("cut")), open + 8)
  {
    hide At, Follows, Plainly, Text;
    var more := ":" + Quoted("cut");
    PlainlyWritten("type");
    CutKey(s, open, more);
    NoQuote(s, open, "type");
    assert FirstAt(s, open, "type", open + 1);
    assert FieldAt(CutDoc().members, open + 1, "type", open + 1, DString(Plainly("cut")), open + 8);
  }

  lemma CutFound(s: string, open: nat)
    requires CutAt(s, open)
    ensures SaysCommand(s, open, CutDoc(), EditCommand("cut", [], []))
  {
    hide CutAt, At, HasField, Plainly;
    PlainlyWritten("cut");
    CutText();
    CutValid();
    CutLetters(s, open);
    CutType(s, open);
  }

  /** The shortest reply with a command: {"edit_commands":[{"type":"cut"}]}. */
  lemma OneCommand(s: string, cmds: seq<EditCommand>)
    requires s == HEAD + ("[" + (CUT + "]}"))
    ensures ParsesTo(s, cmds) <==> cmds == [EditCommand("cut", [], [])]
  {
    hide ArrayAt, SaysCommand, SaysCommands, ParsesTo, At, CutDoc, ValidDoc, Text, Listed;
    var items := MoreItems(CutDoc(), "", "", NoItems);
    var cmd := EditCommand("cut", [], []);
    HeadFound(s, CUT + "]}");
    CutStands(s);
    CutFound(s, |HEAD| + 1);
    CutList(items);
    CutSaid(s, |HEAD| + 1, items, cmd);
    ReplyRead(s, |HEAD|, "", items, [cmd], cmds);
    OneKept(cmd);
  }

  lemma CutStands(s: string)
    requires s == HEAD + ("[" + (CUT + "]}"))
    ensures CutAt(s, |HEAD| + 1) && At(s, |HEAD|, "[" + (CUT + "]"))
  {
    hide At;
    AtHere(HEAD + "[", CUT, "]}");
    assert (HEAD + "[") + CUT + "]}" == s;
    AtHere(HEAD, "[" + (CUT + "]"), "}");
    assert HEAD + ("[" + (CUT + "]")) + "}" == s;
  }

  lemma CutSaid(s: string, p: nat, items: Items, cmd: EditCommand)
    requires items == MoreItems(CutDoc(), "", "", NoItems) && SaysCommand(s, p, CutDoc(), cmd)
    ensures SaysCommands(s, p, items, [cmd])
  {
    hide SaysCommand, Text;
  }

  lemma CutList(items: Items)
    requires items == MoreItems(CutDoc(), "", "", NoItems)
    ensures Text(DArray("", items)) == "[" + (CUT + "]") && ValidDoc(DArray("", items)) && Listed(items, '{')
  {
    hide CutDoc;
    CutText();
    CutValid();
    assert CutDoc().DObject? by { CutIsObject(); }
    TakenIs(CutDoc());
  }

  lemma CutIsObject()
    ensures CutDoc().DObject?
  {
  }

  lemma OneKept(cmd: EditCommand)
    requires cmd.kind != ""
    ensures Typed([cmd]) == [cmd]
  {
    assert [cmd][..0] == [];
  }
}
