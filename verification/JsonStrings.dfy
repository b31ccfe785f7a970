/** JSON string literals: the decoding loop that all three parsers of the repository share,
    the escaper of the text analyzer, and what they recover of each other (RFC 8259,
    section 7). */
module JsonStrings {
  import opened Strings

  /** The character a backslash and `c` stand for, as the parsers read it. */
  function Unescape(c: char): (r: char)
    ensures r == if c == 'n' then 10 as char else if c == 'r' then 13 as char else if c == 't' then 9 as char else c
  {
    match c
    case 'n' => '\n'
    case 'r' => '\r'
    case 't' => '\t'
    case _ => c
  }

  /** The decoding loop from `pos`: the text read, and where the loop stops, which is at
      the first quote that no backslash escapes or at the end of the input. */
  function Decode(s: string, pos: nat): (r: (string, nat))
    ensures r.1 >= pos && (pos <= |s| ==> r.1 <= |s|)
    ensures r.1 < |s| ==> s[r.1] == '"'
    ensures |r.0| <= r.1 - pos
    decreases |s| - pos
  {
    if pos >= |s| || s[pos] == '"' then ("", pos)
    else if s[pos] == '\\' && pos + 1 < |s| then
      var rest := Decode(s, pos + 2);
      ([Unescape(s[pos + 1])] + rest.0, rest.1)
    else
      var rest := Decode(s, pos + 1);
      ([s[pos]] + rest.0, rest.1)
  }

  // ------------------------------------------------------------ how a string may be written

  /** One piece of a string literal: a character as itself, a two-character escape, or a
      \u escape with its four hex digits and the (at most four) bytes it stands for. */
  datatype Piece =
    | Plain(c: char)
    | Short(letter: char)
    | Unicode(hex: string, means: string)

  predicate HexDigit(c: char) {
    '0' <= c <= '9' || 'a' <= c <= 'f' || 'A' <= c <= 'F'
  }

  lemma HexDigits(c: char)
    ensures HexDigit(c) <==> c in "0123456789" || c in "abcdef" || c in "ABCDEF"
  {
  }

  function HexDigitValue(c: char): (v: nat)
    requires HexDigit(c)
    ensures v < 16 && ("0123456789abcdef"[v] == c || "0123456789ABCDEF"[v] == c)
  {
    if '0' <= c <= '9' then c as int - '0' as int
    else if 'a' <= c <= 'f' then c as int - 'a' as int + 10
    else c as int - 'A' as int + 10
  }

  /** The bytes of a code point up to 0xffff (RFC 3629, section 3). */
  function Utf8(code: nat): string
    requires code < 0x10000
  {
    if code < 0x80 then [code as char]
    else if code < 0x800 then [(0xc0 + code / 64) as char, (0x80 + code % 64) as char]
    else [(0xe0 + code / 4096) as char, (0x80 + code / 64 % 64) as char, (0x80 + code % 64) as char]
  }

  /** A \u escape stands for its code point; what half of a surrogate pair stands for
      depends on the other half, and is at most four bytes. */
  predicate ValidUnicode(hex: string, means: string) {
    && |hex| == 4 && (forall i :: 0 <= i < 4 ==> HexDigit(hex[i])) && |means| <= 4
    && var high := HexDigitValue(hex[0]) * 16 + HexDigitValue(hex[1]);
       0xd8 <= high < 0xe0 || means == Utf8(high * 256 + HexDigitValue(hex[2]) * 16 + HexDigitValue(hex[3]))
  }

  predicate ValidPiece(p: Piece) {
    match p
    case Plain(c) => c != '"' && c != '\\'
    case Short(letter) => letter in "\"\\/bfnrt"
    case Unicode(hex, means) => ValidUnicode(hex, means)
  }

  function Written(p: Piece): (t: string)
    ensures t != ""
  {
    match p
    case Plain(c) => [c]
    case Short(letter) => ['\\', letter]
    case Unicode(hex, _) => "\\u" + hex
  }

  /** What RFC 8259 says the piece stands for. */
  function Meaning(p: Piece): string {
    match p
    case Plain(c) => [c]
    case Short(letter) =>
      (match letter
       case 'b' => [8 as char]
       case 't' => [9 as char]
       case 'n' => [10 as char]
       case 'f' => [12 as char]
       case 'r' => [13 as char]
       case _ => [letter])
    case Unicode(_, means) => means
  }

  /** What the decoding loop makes of it. */
  function Produced(p: Piece): string {
    match p
    case Plain(c) => [c]
    case Short(letter) => [Unescape(letter)]
    case Unicode(hex, _) => "u" + hex
  }

  /** The escapes the parsers support. */
  predicate Supported(p: Piece) {
    p.Plain? || (p.Short? && p.letter != 'b' && p.letter != 'f')
  }

  /** What can stand between quotes in a text of any kind: a backslash may go with any
      character. */
  predicate LoosePiece(p: Piece) {
    p.Short? || ValidPiece(p)
  }

  predicate LoosePieces(ps: seq<Piece>) {
    forall i :: 0 <= i < |ps| ==> LoosePiece(ps[i])
  }

  predicate ValidPieces(ps: seq<Piece>) {
    forall i :: 0 <= i < |ps| ==> ValidPiece(ps[i])
  }

  predicate AllSupported(ps: seq<Piece>) {
    forall i :: 0 <= i < |ps| ==> Supported(ps[i])
  }

  function WrittenAll(ps: seq<Piece>): string {
    if ps == [] then "" else Written(ps[0]) + WrittenAll(ps[1..])
  }

  function MeaningAll(ps: seq<Piece>): string {
    if ps == [] then "" else Meaning(ps[0]) + MeaningAll(ps[1..])
  }

  function ProducedAll(ps: seq<Piece>): string {
    if ps == [] then "" else Produced(ps[0]) + ProducedAll(ps[1..])
  }

  /** A \u escape loses its backslash: the loop reads the u and the four digits. */
  lemma DecodeUnicode(s: string, pos: nat, hex: string)
    requires |hex| == 4 && (forall k :: 0 <= k < 4 ==> HexDigit(hex[k])) && At(s, pos, "\\u" + hex)
    ensures Decode(s, pos).0 == "u" + hex + Decode(s, pos + 6).0
    ensures Decode(s, pos).1 == Decode(s, pos + 6).1
  {
    AtSplit(s, pos, "\\u", hex);
    AtChar(s, pos, "\\u", 0);
    AtChar(s, pos, "\\u", 1);
    forall k | 0 <= k < 4 ensures s[pos + 2 + k] == hex[k] {
      AtChar(s, pos + 2, hex, k);
    }
    DecodePlain(s, pos + 2, hex);
  }

  /** The loop reads exactly what each piece produces. */
  lemma DecodePiece(s: string, pos: nat, p: Piece)
    requires LoosePiece(p) && At(s, pos, Written(p))
    ensures Decode(s, pos).0 == Produced(p) + Decode(s, pos + |Written(p)|).0
    ensures Decode(s, pos).1 == Decode(s, pos + |Written(p)|).1
  {
    var t := Written(p);
    forall k | 0 <= k < |t| ensures pos + k < |s| && s[pos + k] == t[k] {
      AtChar(s, pos, t, k);
    }
    assert s[pos] == t[0];
    if p.Short? {
      assert s[pos + 1] == t[1];
    } else if p.Unicode? {
      DecodeUnicode(s, pos, p.hex);
    }
  }

  /** Characters other than the quote and the backslash are read as themselves. */
  lemma {:induction false} DecodePlain(s: string, pos: nat, t: string)
    requires pos + |t| <= |s|
    requires forall k :: 0 <= k < |t| ==> s[pos + k] == t[k] && t[k] != '"' && t[k] != '\\'
    ensures Decode(s, pos).0 == t + Decode(s, pos + |t|).0
    ensures Decode(s, pos).1 == Decode(s, pos + |t|).1
    decreases |t|
  {
    hide Decode;
    if t != "" {
      assert s[pos + 0] == t[0];
      DecodeTurn(s, pos);
      DecodePlain(s, pos + 1, t[1..]);
      Regroup([t[0]], t[1..], Decode(s, pos + |t|).0);
      assert t == [t[0]] + t[1..];
    }
  }

  /** The decoder stops at a quote or at the end of the text; a backslash at the very end is
      read as itself. */
  lemma DecodeStops(s: string, pos: nat)
    ensures pos >= |s| || s[pos] == '"' ==> Decode(s, pos) == ("", pos)
    ensures pos + 1 == |s| && s[pos] == '\\' ==> Decode(s, pos) == ("\\", |s|)
  {
    if pos + 1 == |s| && s[pos] == '\\' {
      assert Decode(s, pos + 1) == ("", pos + 1);
      assert [s[pos]] + "" == "\\";
    }
  }

  /** The decoder on any text, closed or not: it reads the pieces one by one. */
  lemma {:induction false} DecodeLoose(s: string, pos: nat, ps: seq<Piece>)
    requires LoosePieces(ps) && At(s, pos, WrittenAll(ps))
    ensures var end := pos + |WrittenAll(ps)|;
      && (end >= |s| || s[end] == '"' ==> Decode(s, pos) == (ProducedAll(ps), end))
      && (end + 1 == |s| && s[end] == '\\' ==> Decode(s, pos) == (ProducedAll(ps) + "\\", |s|))
    decreases |ps|
  {
    hide Decode, Produced, Written, LoosePiece, At;
    if ps == [] {
      DecodeStops(s, pos);
      assert ProducedAll(ps) + "\\" == "\\";
    } else {
      AtSplit(s, pos, Written(ps[0]), WrittenAll(ps[1..]));
      DecodePiece(s, pos, ps[0]);
      DecodeLoose(s, pos + |Written(ps[0])|, ps[1..]);
      Regroup(Produced(ps[0]), ProducedAll(ps[1..]), "\\");
    }
  }

  /** Every text is made of such pieces up to where the decoder stops. */
  lemma {:induction false} SomePieces(s: string, pos: nat) returns (ps: seq<Piece>)
    requires pos <= |s|
    ensures LoosePieces(ps) && At(s, pos, WrittenAll(ps))
    ensures var end := pos + |WrittenAll(ps)|;
      end == |s| || s[end] == '"' || (end + 1 == |s| && s[end] == '\\')
    decreases |s| - pos
  {
    hide At, Written, WrittenAll, LoosePiece;
    if pos == |s| || s[pos] == '"' || (pos + 1 == |s| && s[pos] == '\\') {
      ps := [];
      NoPieces(s, pos);
    } else {
      var p := SomePiece(s, pos);
      var rest := SomePieces(s, pos + |Written(p)|);
      ps := [p] + rest;
      WrittenCons(p, rest);
      AtSplit(s, pos, Written(p), WrittenAll(rest));
    }
  }

  lemma NoPieces(s: string, pos: nat)
    requires pos <= |s|
    ensures WrittenAll([]) == "" && At(s, pos, WrittenAll([]))
  {
  }

  lemma SomePiece(s: string, pos: nat) returns (p: Piece)
    requires pos < |s| && s[pos] != '"' && (s[pos] == '\\' ==> pos + 1 < |s|)
    ensures LoosePiece(p) && At(s, pos, Written(p)) && 0 < |Written(p)| <= |s| - pos
  {
    p := if s[pos] == '\\' then Short(s[pos + 1]) else Plain(s[pos]);
  }

  lemma WrittenCons(p: Piece, rest: seq<Piece>)
    ensures WrittenAll([p] + rest) == Written(p) + WrittenAll(rest)
  {
    assert ([p] + rest)[1..] == rest;
  }

  /** The decoder on a string literal written in any of the ways RFC 8259 allows: it stops
      exactly at the closing quote, having produced the pieces one by one. */
  lemma DecodeWritten(s: string, pos: nat, ps: seq<Piece>)
    requires ValidPieces(ps) && At(s, pos, WrittenAll(ps) + "\"")
    ensures Decode(s, pos) == (ProducedAll(ps), pos + |WrittenAll(ps)|)
  {
    hide Decode, Produced, Written, ValidPiece, WrittenAll, ProducedAll, At;
    AtSplit(s, pos, WrittenAll(ps), "\"");
    AtChar(s, pos + |WrittenAll(ps)|, "\"", 0);
    DecodeLoose(s, pos, ps);
  }

  lemma PieceFacts(p: Piece)
    requires ValidPiece(p)
    ensures |Produced(p)| >= |Meaning(p)|
    ensures p.Unicode? ==> |Produced(p)| > |Meaning(p)| && !Supported(p)
    ensures !p.Unicode? ==> |Produced(p)| == |Meaning(p)| == 1 && (Produced(p)[0] == Meaning(p)[0] <==> Supported(p))
  {
    hide Utf8, HexDigitValue;
  }

  lemma {:induction false} ProducedLonger(ps: seq<Piece>)
    requires ValidPieces(ps)
    ensures |ProducedAll(ps)| >= |MeaningAll(ps)|
    ensures (exists i :: 0 <= i < |ps| && ps[i].Unicode?) ==> |ProducedAll(ps)| > |MeaningAll(ps)|
  {
    hide Produced, Meaning, ValidPiece;
    if ps != [] {
      PieceFacts(ps[0]);
      ProducedLonger(ps[1..]);
      if i :| 0 <= i < |ps| && ps[i].Unicode? {
        if i > 0 {
          assert ps[1..][i - 1].Unicode?;
        }
      }
    }
  }

  /** The decoder recovers the meaning of a literal if and only if the literal uses no
      escape other than \" \\ \/ \n \r \t. */
  lemma {:induction false} MeaningRecovered(ps: seq<Piece>)
    requires ValidPieces(ps)
    ensures ProducedAll(ps) == MeaningAll(ps) <==> AllSupported(ps)
  {
    hide Produced, Meaning, ValidPiece, Supported;
    if ps != [] {
      var rest := ps[1..];
      PieceFacts(ps[0]);
      MeaningRecovered(rest);
      ProducedLonger(ps);
      assert AllSupported(ps) <==> Supported(ps[0]) && AllSupported(rest);
      if ProducedAll(ps) == MeaningAll(ps) {
        assert !ps[0].Unicode?;
        assert ProducedAll(ps)[0] == Produced(ps[0])[0] && MeaningAll(ps)[0] == Meaning(ps[0])[0];
        assert ProducedAll(ps)[1..] == ProducedAll(rest) && MeaningAll(ps)[1..] == MeaningAll(rest);
      }
    }
  }

  // ------------------------------------------------------------ the escaper

  function HexChar(n: nat): (c: char)
    requires n < 16
    ensures HexDigit(c) && HexDigitValue(c) == n && !('A' <= c <= 'F')
  {
    "0123456789abcdef"[n]
  }

  /** How `jsonEscape` writes one byte. */
  function EscapePiece(c: char): (p: Piece)
    ensures ValidPiece(p) && Meaning(p) == [c]
    ensures Supported(p) <==> c >= ' ' || c == '\n' || c == '\r' || c == '\t'
    ensures p.Plain? <==> c >= ' ' && c != '"' && c != '\\'
  {
    if c == '"' || c == '\\' then Short(c)
    else if c == '\n' then Short('n')
    else if c == '\r' then Short('r')
    else if c == '\t' then Short('t')
    else if c < ' ' then Unicode(['0', '0', HexChar(c as int / 16), HexChar(c as int % 16)], [c])
    else Plain(c)
  }

  function EscapePieces(s: string): (ps: seq<Piece>)
    ensures |ps| == |s|
  {
    seq(|s|, i requires 0 <= i < |s| => EscapePiece(s[i]))
  }

  lemma {:induction false} EscapeMeans(s: string)
    ensures ValidPieces(EscapePieces(s)) && MeaningAll(EscapePieces(s)) == s
  {
    hide EscapePiece, ValidPiece, Meaning;
    if s != "" {
      EscapeMeans(s[1..]);
      assert EscapePieces(s)[1..] == EscapePieces(s[1..]);
    }
  }

  lemma {:induction false} WrittenAppend(ps: seq<Piece>, p: Piece)
    ensures WrittenAll(ps + [p]) == WrittenAll(ps) + Written(p)
  {
    if ps != [] {
      assert (ps + [p])[1..] == ps[1..] + [p];
      WrittenAppend(ps[1..], p);
    }
  }

  lemma WrittenNothing()
    ensures WrittenAll([]) == ""
  {
  }

  /** `jsonEscape`. */
  method JsonEscape(s: string) returns (out: string)
    ensures out == WrittenAll(EscapePieces(s))
  {
    hide WrittenAll, ValidUnicode, ValidPiece, Meaning, Supported;
    out := "";
    WrittenNothing();
    for i := 0 to |s|
      invariant out == WrittenAll(EscapePieces(s[..i]))
    {
      var c := s[i];
      WrittenAppend(EscapePieces(s[..i]), EscapePiece(c));
      assert EscapePieces(s[..i + 1]) == EscapePieces(s[..i]) + [EscapePiece(c)];
      match c {
        case '"' => out := out + "\\\"";
        case '\\' => out := out + "\\\\";
        case '\n' => out := out + "\\n";
        case '\r' => out := out + "\\r";
        case '\t' => out := out + "\\t";
        case _ =>
          if c < ' ' {
            out := out + "\\u00" + [HexChar(c as int / 16), HexChar(c as int % 16)];
          } else {
            out := out + [c];
          }
      }
    }
    assert s[..|s|] == s;
  }

  /** The control characters `jsonEscape` can hand over: those with a short escape. */
  predicate PlainControls(s: string) {
    forall i :: 0 <= i < |s| ==> s[i] >= ' ' || s[i] == '\n' || s[i] == '\r' || s[i] == '\t'
  }

  /** Whatever is escaped and put between quotes, the decoder stops exactly at the quote
      that closes it; it recovers the text if and only if \n, \r and \t are the only
      bytes below 0x20 in it. */
  lemma EscapeDecode(pre: string, text: string, suf: string)
    ensures var lit := WrittenAll(EscapePieces(text));
      var r := Decode(pre + lit + "\"" + suf, |pre|);
      r.1 == |pre| + |lit| && (r.0 == text <==> PlainControls(text))
  {
    hide Decode, ValidPiece, Meaning, EscapePiece, Written, ProducedAll, MeaningAll;
    var ps := EscapePieces(text);
    var lit := WrittenAll(ps);
    EscapeMeans(text);
    assert pre + lit + "\"" + suf == pre + (lit + "\"") + suf;
    AtHere(pre, lit + "\"", suf);
    DecodeWritten(pre + lit + "\"" + suf, |pre|, ps);
    MeaningRecovered(ps);
    assert AllSupported(ps) <==> PlainControls(text) by {
      assert forall i :: 0 <= i < |text| ==> ps[i] == EscapePiece(text[i]);
    }
  }

  // ------------------------------------------------------------ the three decoders

  lemma DecodeTurn(s: string, pos: nat)
    requires pos < |s| && s[pos] != '"'
    ensures s[pos] == '\\' && pos + 1 < |s| ==>
      Decode(s, pos).0 == [Unescape(s[pos + 1])] + Decode(s, pos + 2).0 && Decode(s, pos).1 == Decode(s, pos + 2).1
    ensures !(s[pos] == '\\' && pos + 1 < |s|) ==>
      Decode(s, pos).0 == [s[pos]] + Decode(s, pos + 1).0 && Decode(s, pos).1 == Decode(s, pos + 1).1
  {
  }

  /** The engine's `parseString`, called on the opening quote. */
  method EngineParseString(s: string, pos: nat) returns (result: string, next: nat)
    requires pos < |s|
    ensures (result, next) == StringLiteral(s, pos)
  {
    hide Decode;
    next := pos + 1;
    result := "";
    while next < |s| && s[next] != '"'
      invariant pos < next <= |s|
      invariant Decode(s, pos + 1).0 == result + Decode(s, next).0
      invariant Decode(s, pos + 1).1 == Decode(s, next).1
      decreases |s| - next
    {
      DecodeTurn(s, next);
      if s[next] == '\\' && next + 1 < |s| {
        next := next + 1;
        Regroup(result, [Unescape(s[next])], Decode(s, next + 1).0);
        match s[next] {
          case '"' => result := result + "\"";
          case '\\' => result := result + "\\";
          case '/' => result := result + "/";
          case 'n' => result := result + "\n";
          case 'r' => result := result + "\r";
          case 't' => result := result + "\t";
          case _ => result := result + [s[next]];
        }
      } else {
        Regroup(result, [s[next]], Decode(s, next + 1).0);
        result := result + [s[next]];
      }
      next := next + 1;
    }
    DecodeStops(s, next);
    assert Decode(s, pos + 1).0 == result;
    if next < |s| {
      next := next + 1;
    }
  }

  /** The value of the string literal whose opening quote is at `pos`, and the position
      after it. */
  function StringLiteral(s: string, pos: nat): (r: (string, nat))
    requires pos < |s|
    ensures pos < r.1 <= |s|
  {
    var d := Decode(s, pos + 1);
    (d.0, if d.1 < |s| then d.1 + 1 else d.1)
  }

  /** The audio editor's `parseJsonString`, which also checks for the opening quote. */
  method EditorParseString(s: string, pos: nat) returns (result: string, next: nat)
    ensures (result, next) == if pos < |s| && s[pos] == '"' then StringLiteral(s, pos) else ("", pos)
  {
    hide Decode;
    if pos >= |s| || s[pos] != '"' {
      return "", pos;
    }
    next := pos + 1;
    result := "";
    while next < |s| && s[next] != '"'
      invariant pos < next <= |s|
      invariant Decode(s, pos + 1).0 == result + Decode(s, next).0
      invariant Decode(s, pos + 1).1 == Decode(s, next).1
      decreases |s| - next
    {
      DecodeTurn(s, next);
      if s[next] == '\\' && next + 1 < |s| {
        next := next + 1;
        match s[next] {
          case '"' => result := result + "\"";
          case '\\' => result := result + "\\";
          case 'n' => result := result + "\n";
          case 'r' => result := result + "\r";
          case 't' => result := result + "\t";
          case '/' => result := result + "/";
          case _ => result := result + [s[next]];
        }
      } else {
        result := result + [s[next]];
      }
      next := next + 1;
    }
    DecodeStops(s, next);
    assert Decode(s, pos + 1).0 == result;
    if next < |s| {
      next := next + 1;
    }
  }

  /** The decode loop of `jsonExtractString`, from after the opening quote. */
  method ExtractString(s: string, pos: nat) returns (result: string)
    requires pos <= |s|
    ensures result == Decode(s, pos).0
  {
    hide Decode;
    var next := pos;
    result := "";
    while next < |s| && s[next] != '"'
      invariant pos <= next <= |s|
      invariant Decode(s, pos).0 == result + Decode(s, next).0
      decreases |s| - next
    {
      DecodeTurn(s, next);
      if s[next] == '\\' && next + 1 < |s| {
        next := next + 1;
        match s[next] {
          case 'n' => result := result + "\n";
          case 't' => result := result + "\t";
          case 'r' => result := result + "\r";
          case _ => result := result + [s[next]];
        }
      } else {
        result := result + [s[next]];
      }
      next := next + 1;
    }
    DecodeStops(s, next);
  }
}
