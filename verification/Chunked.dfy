/** Decoding of the chunked transfer coding (RFC 9112, section 7.1), against the encoding
    and against its truncations.  Positions wrap around modulo 2^64, as size_t does. */
module Chunked {
  import opened Strings
  import opened JsonStrings
  import opened Counting

  const CRLF := "\r\n"

  datatype Size = Bytes(n: nat) | NotASize

  // ------------------------------------------------------------ stoul with base 16

  predicate IsSpace(c: char) {
    c == ' ' || c == '\t' || c == '\n' || c == '\r' || c == 11 as char || c == 12 as char
  }

  predicate AllHex(t: string) {
    forall i :: 0 <= i < |t| ==> HexDigit(t[i])
  }

  function HexValue(t: string): nat
    requires AllHex(t)
  {
    if t == "" then 0 else HexValue(t[..|t| - 1]) * 16 + HexDigitValue(t[|t| - 1])
  }

  /** The length of the run of hex digits from `i`. */
  function HexRunEnd(t: string, i: nat): (r: nat)
    requires i <= |t|
    ensures i <= r <= |t| && AllHex(t[i..r]) && (r < |t| ==> !HexDigit(t[r]))
    decreases |t| - i
  {
    if i < |t| && HexDigit(t[i]) then
      var r := HexRunEnd(t, i + 1);
      assert forall k :: 0 < k < r - i ==> t[i..r][k] == t[i + 1..r][k - 1];
      r
    else i
  }

  function SpaceEnd(t: string, i: nat): (r: nat)
    requires i <= |t|
    ensures i <= r <= |t|
    decreases |t| - i
  {
    if i < |t| && IsSpace(t[i]) then SpaceEnd(t, i + 1) else i
  }

  const TWO64: nat := 0x1_0000_0000_0000_0000

  /** `stoul(t, nullptr, 16)`: leading space, a sign, an optional 0x, then hex digits, with
      whatever follows ignored; no digits or too large a number is an exception, and a
      minus sign negates modulo 2^64. */
  function Stoul(t: string): Size {
    var i := SpaceEnd(t, 0);
    var j := if i < |t| && (t[i] == '+' || t[i] == '-') then i + 1 else i;
    var k := if j + 2 < |t| && t[j] == '0' && (t[j + 1] == 'x' || t[j + 1] == 'X')
        && HexDigit(t[j + 2]) then j + 2 else j;
    var r := HexRunEnd(t, k);
    if r == k || HexValue(t[k..r]) >= TWO64 then NotASize
    else if i < |t| && t[i] == '-' then Bytes((TWO64 - HexValue(t[k..r])) % TWO64)
    else Bytes(HexValue(t[k..r]))
  }

  // ------------------------------------------------------------ the decoder

  /** The size line without its extension. */
  function SizeText(line: string): string {
    var semi := Find(line, ";", 0);
    if semi != NPOS then line[..semi] else line
  }

  /** What one turn of the loop does: it stops, or appends and moves on. */
  datatype Turn = Stop | Go(data: string, next: nat)

  /** One turn from `pos`.  The additions wrap around modulo 2^64, and `substr` takes what
      there is. */
  function TurnAt(s: string, pos: nat): Turn {
    if pos >= |s| then Stop
    else
      var crlf := Find(s, CRLF, pos);
      if crlf == NPOS then Stop
      else
        var size := Stoul(SizeText(s[pos..crlf]));
        if size.NotASize? || size.n == 0 then Stop
        else
          var from := crlf + 2;
          if (from + size.n) % TWO64 > |s| then Stop
          else Go(s[from..if from + size.n <= |s| then from + size.n else |s|], (from + size.n + 2) % TWO64)
  }

  /** From `pos` the loop stops after at most `n` turns. */
  predicate StopsWithin(s: string, pos: nat, n: nat)
    decreases n
  {
    var turn := TurnAt(s, pos);
    turn.Stop? || (n > 0 && StopsWithin(s, turn.next, n - 1))
  }

  /** What up to `n` turns append. */
  function Appended(s: string, pos: nat, n: nat): string
    decreases n
  {
    var turn := TurnAt(s, pos);
    if turn.Stop? || n == 0 then "" else turn.data + Appended(s, turn.next, n - 1)
  }

  /** The loop ends on `s`, and with what. */
  predicate Ends(s: string) {
    StopsWithin(s, 0, |s|)
  }

  function Decoded(s: string): string {
    Appended(s, 0, |s|)
  }

  lemma TurnIs(s: string, pos: nat)
    requires pos < |s|
    ensures var crlf := Find(s, CRLF, pos);
      TurnAt(s, pos) ==
        if crlf == NPOS then Stop
        else
          var size := Stoul(SizeText(s[pos..crlf]));
          var from := crlf + 2;
          if size.NotASize? || size.n == 0 || (from + size.n) % TWO64 > |s| then Stop
          else Go(s[from..if from + size.n <= |s| then from + size.n else |s|], (from + size.n + 2) % TWO64)
  {
    hide Stoul, Find, SizeText;
  }

  lemma TurnsOn(s: string, pos: nat, n: nat)
    requires StopsWithin(s, pos, n) && TurnAt(s, pos).Go?
    ensures n > 0 && StopsWithin(s, TurnAt(s, pos).next, n - 1)
    ensures Appended(s, pos, n) == TurnAt(s, pos).data + Appended(s, TurnAt(s, pos).next, n - 1)
  {
    hide TurnAt;
  }

  lemma TurnStops(s: string, pos: nat, n: nat)
    requires TurnAt(s, pos).Stop?
    ensures StopsWithin(s, pos, n) && Appended(s, pos, n) == ""
  {
    hide TurnAt;
  }

  lemma SizeTextIs(line: string)
    ensures var semi := Find(line, ";", 0);
      SizeText(line) == if semi != NPOS then line[..semi] else line
  {
    hide Find;
  }

  lemma DecodedIs(s: string)
    ensures Decoded(s) == Appended(s, 0, |s|)
  {
    hide Appended;
  }

  /** `unchunk`, on any text on which its loop ends. */
  method Unchunk(chunked: string) returns (result: string)
    requires Ends(chunked)
    ensures result == Decoded(chunked)
  {
    hide Stoul, Find, SizeText, TurnAt, StopsWithin, Appended, Decoded;
    assert Appended(chunked, 0, |chunked|) == Decoded(chunked) by { DecodedIs(chunked); }
    result := "";
    var pos: nat := 0;
    ghost var left: nat := |chunked|;
    while pos < |chunked|
      invariant StopsWithin(chunked, pos, left)
      invariant result + Appended(chunked, pos, left) == Decoded(chunked)
      decreases left
    {
      var crlf := Find(chunked, CRLF, pos);
      if crlf == NPOS {
        TurnStops(chunked, pos, left) by { TurnIs(chunked, pos); }
        return;
      }
      var sizeStr := chunked[pos..crlf];
      SizeTextIs(sizeStr);
      var semi := Find(sizeStr, ";", 0);
      if semi != NPOS {
        sizeStr := sizeStr[..semi];
      }
      var size := Stoul(sizeStr);
      if size.NotASize? {
        TurnStops(chunked, pos, left) by { TurnIs(chunked, pos); }
        return;
      }
      if size.n == 0 {
        TurnStops(chunked, pos, left) by { TurnIs(chunked, pos); }
        return;
      }
      ghost var line := pos;
      pos := crlf + 2;
      if (pos + size.n) % TWO64 > |chunked| {
        TurnStops(chunked, line, left) by { TurnIs(chunked, line); }
        return;
      }
      var data := chunked[pos..if pos + size.n <= |chunked| then pos + size.n else |chunked|];
      assert TurnAt(chunked, line) == Go(data, (pos + size.n + 2) % TWO64) by { TurnIs(chunked, line); }
      TurnsOn(chunked, line, left);
      Regroup(result, data, Appended(chunked, TurnAt(chunked, line).next, left - 1));
      result := result + data;
      pos := (pos + size.n + 2) % TWO64;
      left := left - 1;
    }
    PastTheEnd(chunked, pos);
    TurnStops(chunked, pos, left);
  }

  /** The line from `pos` ends at the first CRLF after it, and asks for `n` bytes. */
  ghost predicate LineAt(s: string, pos: nat, crlf: nat, n: nat) {
    && pos <= crlf && At(s, crlf, CRLF) && (forall i :: pos <= i < crlf ==> !At(s, i, CRLF))
    && Stoul(SizeText(s[pos..crlf])) == Bytes(n)
  }

  /** Exactly when a turn goes on, and what it appends: as many of the bytes asked for as
      there are after the line. */
  lemma TurnIff(s: string, pos: nat, data: string, next: nat)
    ensures TurnAt(s, pos) == Go(data, next) <==>
      exists crlf: nat, n: nat ::
        && LineAt(s, pos, crlf, n) && n > 0 && (crlf + 2 + n) % TWO64 <= |s|
        && At(s, crlf + 2, data) && (|data| == n || (|data| < n && crlf + 2 + |data| == |s|))
        && next == (crlf + 2 + n + 2) % TWO64
  {
    hide Stoul, SizeText, Find, TurnAt;
    if pos < |s| {
      TurnIs(s, pos);
      var found := Find(s, CRLF, pos);
      if TurnAt(s, pos) == Go(data, next) {
        assert LineAt(s, pos, found, Stoul(SizeText(s[pos..found])).n);
      }
    } else {
      PastTheEnd(s, pos);
    }
  }

  lemma PastTheEnd(s: string, pos: nat)
    requires pos >= |s|
    ensures TurnAt(s, pos).Stop?
  {
  }

  // ------------------------------------------------------------ when the loop ends

  lemma {:induction false} StopsLonger(s: string, pos: nat, m: nat, n: nat)
    requires StopsWithin(s, pos, m) && m <= n
    ensures StopsWithin(s, pos, n) && Appended(s, pos, n) == Appended(s, pos, m)
    decreases m
  {
    hide TurnAt;
    if TurnAt(s, pos).Go? {
      StopsLonger(s, TurnAt(s, pos).next, m - 1, n - 1);
    }
  }

  /** The position after `n` turns. */
  function Visit(s: string, pos: nat, n: nat): nat
    requires !StopsWithin(s, pos, n)
    decreases n
  {
    if n == 0 then pos else Visit(s, TurnAt(s, pos).next, n - 1)
  }

  /** The turns after the first `d` are those from the position reached by then. */
  lemma {:induction false} StopsSplit(s: string, pos: nat, d: nat, m: nat)
    requires !StopsWithin(s, pos, d)
    ensures StopsWithin(s, pos, d + m) <==> StopsWithin(s, Visit(s, pos, d), m)
    decreases d
  {
    hide TurnAt;
    if d > 0 {
      StopsSplit(s, TurnAt(s, pos).next, d - 1, m);
    }
  }

  lemma {:induction false} VisitSplit(s: string, pos: nat, d: nat, e: nat)
    requires !StopsWithin(s, pos, d + e)
    ensures !StopsWithin(s, pos, d) && !StopsWithin(s, Visit(s, pos, d), e)
    ensures Visit(s, pos, d + e) == Visit(s, Visit(s, pos, d), e)
    decreases d
  {
    hide TurnAt;
    if d > 0 {
      VisitSplit(s, TurnAt(s, pos).next, d - 1, e);
    } else {
      assert Visit(s, pos, 0) == pos by { VisitNow(s, pos, e); }
    }
  }

  lemma VisitNow(s: string, pos: nat, e: nat)
    requires !StopsWithin(s, pos, e)
    ensures !StopsWithin(s, pos, 0) && Visit(s, pos, 0) == pos
  {
    hide TurnAt;
  }

  /** A position the loop returns to keeps it going for ever. */
  lemma {:induction false} ReturnsForever(s: string, pos: nat, d: nat, n: nat)
    requires d > 0 && !StopsWithin(s, pos, d) && Visit(s, pos, d) == pos
    ensures !StopsWithin(s, pos, n)
    decreases n
  {
    hide TurnAt, StopsWithin, Visit;
    if n <= d {
      if StopsWithin(s, pos, n) {
        StopsLonger(s, pos, n, d);
      }
    } else {
      StopsSplit(s, pos, d, n - d);
      ReturnsForever(s, pos, d, n - d);
    }
  }

  /** Some position is visited after `i` and again after `k` turns. */
  predicate Returns(s: string, i: nat, k: nat) {
    i < k && !StopsWithin(s, 0, i) && !StopsWithin(s, 0, k) && Visit(s, 0, i) == Visit(s, 0, k)
  }

  lemma SomeReturn(s: string) returns (i: nat, k: nat)
    requires !Ends(s)
    ensures k <= |s| && Returns(s, i, k)
  {
    hide TurnAt, StopsWithin;
    forall m | 0 <= m <= |s| ensures !StopsWithin(s, 0, m) && Visit(s, 0, m) < |s| {
      VisitSplit(s, 0, m, |s| - m);
      VisitInside(s, 0, m);
    }
    var visits := seq(|s| + 1, m requires 0 <= m <= |s| => Visit(s, 0, m));
    assert forall v :: v in visits ==> v in Below(|s|);
    i, k := Pigeonhole(visits, Below(|s|));
  }

  lemma ReturnGoesOn(s: string, i: nat, k: nat, n: nat)
    requires Returns(s, i, k)
    ensures !StopsWithin(s, 0, n)
  {
    hide TurnAt, StopsWithin;
    VisitSplit(s, 0, i, k - i);
    ReturnsForever(s, Visit(s, 0, i), k - i, n);
    StopsSplit(s, 0, i, n);
    if StopsWithin(s, 0, n) {
      StopsLonger(s, 0, n, i + n);
    }
  }

  /** The loop ends if and only if it stops within as many turns as the text has bytes. */
  lemma EndsIff(s: string)
    ensures (exists n: nat :: StopsWithin(s, 0, n)) <==> Ends(s)
  {
    hide StopsWithin, Returns;
    if StopsWithin(s, 0, |s|) {
      assert exists n: nat :: StopsWithin(s, 0, n);
    } else {
      var i, k := SomeReturn(s);
      forall n: nat ensures !StopsWithin(s, 0, n) {
        ReturnGoesOn(s, i, k, n);
      }
    }
  }

  /** It goes on for ever if and only if it comes to some position a second time. */
  lemma ForeverIff(s: string)
    ensures !Ends(s) <==> exists i: nat, k: nat :: k <= |s| && Returns(s, i, k)
  {
    hide StopsWithin, Returns;
    if !Ends(s) {
      var i, k := SomeReturn(s);
    }
    if i: nat, k: nat :| k <= |s| && Returns(s, i, k) {
      ReturnGoesOn(s, i, k, |s|);
    }
  }

  lemma {:induction false} VisitInside(s: string, pos: nat, n: nat)
    requires !StopsWithin(s, pos, n)
    ensures Visit(s, pos, n) < |s|
    decreases n
  {
    hide TurnAt;
    if n == 0 {
      if pos >= |s| {
        PastTheEnd(s, pos);
      }
    } else {
      VisitInside(s, TurnAt(s, pos).next, n - 1);
    }
  }

  /** The size line at `pos` makes the position wrap around to `pos` or before it. */
  predicate WrapsBack(s: string, pos: nat) {
    && pos < |s|
    && var crlf := Find(s, CRLF, pos);
    && crlf != NPOS
    && var size := Stoul(SizeText(s[pos..crlf]));
    && size.Bytes? && crlf + 2 + size.n + 2 >= TWO64 && (crlf + 2 + size.n + 2) % TWO64 <= pos
  }

  /** Exactly when a turn does not move forward. */
  lemma BackwardIff(s: string, pos: nat)
    requires TurnAt(s, pos).Go?
    ensures TurnAt(s, pos).next <= pos <==> WrapsBack(s, pos)
  {
    hide Stoul, SizeText, Find, TurnAt;
    if pos < |s| {
      TurnIs(s, pos);
    } else {
      PastTheEnd(s, pos);
    }
  }

  /** No size line that the loop visits from `pos` on leads back. */
  ghost predicate Forward(s: string, pos: nat) {
    forall n: nat {:trigger Visit(s, pos, n)} :: !StopsWithin(s, pos, n) ==> !WrapsBack(s, Visit(s, pos, n))
  }

  lemma ForwardNext(s: string, pos: nat)
    requires Forward(s, pos) && TurnAt(s, pos).Go?
    ensures !WrapsBack(s, pos) && Forward(s, TurnAt(s, pos).next)
  {
    hide TurnAt, WrapsBack;
    var next := TurnAt(s, pos).next;
    assert Visit(s, pos, 0) == pos;
    forall n: nat | !StopsWithin(s, next, n) ensures !WrapsBack(s, Visit(s, next, n)) {
      assert !StopsWithin(s, pos, n + 1) && Visit(s, pos, n + 1) == Visit(s, next, n);
    }
  }

  /** Then every turn moves forward, and the loop ends. */
  lemma {:induction false} ForwardStops(s: string, pos: nat, n: nat)
    requires Forward(s, pos) && n >= |s| - pos
    ensures StopsWithin(s, pos, n)
    decreases n
  {
    hide TurnAt, Forward, WrapsBack;
    if pos >= |s| {
      PastTheEnd(s, pos);
    } else if TurnAt(s, pos).Go? {
      ForwardNext(s, pos);
      BackwardIff(s, pos);
      ForwardStops(s, TurnAt(s, pos).next, n - 1);
    }
  }

  /** The loop ends when no size line it visits leads back. */
  lemma ForwardEnds(s: string)
    requires Forward(s, 0)
    ensures Ends(s)
  {
    hide Forward, StopsWithin;
    ForwardStops(s, 0, |s|);
  }

  /** A text on which the loop never ends: a negative size that leads back to its own line. */
  lemma NeverEnds(s: string)
    requires s == "  -6\r\n"
    ensures !Ends(s)
  {
    hide TurnAt;
    BackToTwo(s, 0);
    BackToTwo(s, 2);
    StaysAtTwo(s, 5);
  }

  lemma BackToTwo(s: string, pos: nat)
    requires s == "  -6\r\n" && (pos == 0 || pos == 2)
    ensures TurnAt(s, pos) == Go("", 2)
  {
    hide Stoul, SizeText, TurnAt, At, Find;
    forall i | 0 <= i <= 4 ensures At(s, i, CRLF) <==> i == 4 {
      CrlfAt(s, i);
    }
    assert At(s, 4, CRLF);
    assert Find(s, CRLF, pos) == 4;
    NegativeSize(s[pos..4]);
    TurnIs(s, pos);
    assert s[6..6] == "";
  }

  lemma {:induction false} StaysAtTwo(s: string, n: nat)
    requires TurnAt(s, 2) == Go("", 2)
    ensures !StopsWithin(s, 2, n)
  {
    hide TurnAt;
    if n > 0 {
      StaysAtTwo(s, n - 1);
    }
  }

  lemma NegativeSize(t: string)
    requires t == "  -6" || t == "-6"
    ensures Stoul(SizeText(t)) == Bytes(TWO64 - 6)
  {
    forall i ensures !At(t, i, ";") {
      if At(t, i, ";") {
        AtChar(t, i, ";", 0);
      }
    }
    assert SizeText(t) == t;
    var i := |t| - 2;
    assert t[i] == '-' && t[i + 1] == '6';
    if i == 2 {
      assert SpaceEnd(t, 2) == 2;
      assert SpaceEnd(t, 1) == 2;
    }
    assert SpaceEnd(t, 0) == i;
    HexRunIs(t, i + 1, i + 2);
    assert t[i + 1..i + 2] == "6";
    assert HexValue("6") == 6 by {
      assert "6"[..0] == "";
    }
  }

  // ------------------------------------------------------------ the encoding

  /** A size line: hex digits and an optional extension, which starts with a blank or a
      semicolon and contains no CRLF. */
  datatype SizeLine = SizeLine(digits: string, ext: string)

  datatype Chunk = Chunk(line: SizeLine, data: string)

  predicate ValidLine(l: SizeLine, n: nat) {
    && l.digits != "" && AllHex(l.digits) && HexValue(l.digits) == n && n < TWO64
    && (l.ext != "" ==> l.ext[0] == ';' || l.ext[0] == ' ' || l.ext[0] == '\t')
    && (forall i :: 0 <= i < |l.ext| ==> !At(l.ext, i, CRLF))
  }

  predicate ValidChunk(c: Chunk) {
    c.data != "" && ValidLine(c.line, |c.data|)
  }

  function LineText(l: SizeLine): string {
    l.digits + l.ext + CRLF
  }

  function ChunkText(c: Chunk): string {
    LineText(c.line) + (c.data + CRLF)
  }

  function Encode(chunks: seq<Chunk>): string {
    if chunks == [] then "" else ChunkText(chunks[0]) + Encode(chunks[1..])
  }

  predicate ValidChunks(chunks: seq<Chunk>) {
    forall i :: 0 <= i < |chunks| ==> ValidChunk(chunks[i])
  }

  function AllData(chunks: seq<Chunk>): string {
    if chunks == [] then "" else chunks[0].data + AllData(chunks[1..])
  }

  /** The data of the chunks that lie wholly within the first `room` bytes. */
  function Within(chunks: seq<Chunk>, room: int): string {
    if chunks == [] || |LineText(chunks[0].line)| + |chunks[0].data| > room then ""
    else chunks[0].data + Within(chunks[1..], room - |ChunkText(chunks[0])|)
  }

  /** What ends a chunked body: nothing, or a line of size zero and anything after it. */
  datatype Ending = NoEnding | LastChunk(line: SizeLine, trailer: string)

  predicate ValidEnding(e: Ending) {
    e.LastChunk? ==> ValidLine(e.line, 0)
  }

  function EndingText(e: Ending): string {
    match e
    case NoEnding => ""
    case LastChunk(line, trailer) => LineText(line) + trailer
  }

  // ------------------------------------------------------------ reading a size line

  lemma {:induction false} HexRunIs(t: string, i: nat, k: nat)
    requires i <= k <= |t| && AllHex(t[i..k]) && (k < |t| ==> !HexDigit(t[k]))
    ensures HexRunEnd(t, i) == k
    decreases k - i
  {
    if i < k {
      assert t[i..k][0] == t[i];
      assert t[i + 1..k] == t[i..k][1..];
      HexRunIs(t, i + 1, k);
    }
  }

  /** `stoul` reads the digits of a size line, blanks after them or not. */
  lemma StoulReadsDigits(digits: string, rest: string)
    requires digits != "" && AllHex(digits) && HexValue(digits) < TWO64
    requires rest != "" ==> rest[0] == ' ' || rest[0] == '\t'
    ensures Stoul(digits + rest) == Bytes(HexValue(digits))
  {
    var t := digits + rest;
    assert t[0..|digits|] == digits;
    assert |digits| < |t| ==> t[|digits|] == rest[0];
    StoulReads(t, 0, 0, 0, |digits|);
  }

  predicate Blank(c: char) {
    c as int in {9, 10, 11, 12, 13, 32}
  }

  predicate Blanks(t: string) {
    forall i :: 0 <= i < |t| ==> Blank(t[i])
  }

  lemma {:induction false} BlanksEnd(t: string, i: nat, k: nat)
    requires i <= k <= |t| && (forall x :: i <= x < k ==> Blank(t[x])) && (k < |t| ==> !Blank(t[k]))
    ensures SpaceEnd(t, i) == k
    decreases k - i
  {
    if i < k {
      BlanksEnd(t, i + 1, k);
    }
  }

  /** From `i` on: a sign or none up to `j`, then `0x`, `0X` or none up to `k`. */
  predicate SignAndPrefix(t: string, i: nat, j: nat, k: nat) {
    && i <= j <= k <= |t|
    && (t[i..j] == "" || t[i..j] == "+" || t[i..j] == "-")
    && (t[j..k] == "" || t[j..k] == "0x" || t[j..k] == "0X")
  }

  /** The digits from `k` to `r` are all there are; a lone zero does not begin a prefix. */
  predicate AllDigits(t: string, j: nat, k: nat, r: nat)
    requires j <= k <= |t|
  {
    && k < r <= |t| && AllHex(t[k..r]) && (r < |t| ==> !HexDigit(t[r]))
    && (j == k && t[k] == '0' && r == k + 1 && r + 1 < |t| && HexDigit(t[r + 1]) ==> t[r] !in "xX")
  }

  /** All that `stoul` reads: blanks, a sign, a prefix and digits of either case, as far as
      they go; more than a word holds is an error. */
  lemma StoulReads(t: string, i: nat, j: nat, k: nat, r: nat)
    requires SignAndPrefix(t, i, j, k) && Blanks(t[..i]) && AllDigits(t, j, k, r)
    ensures Stoul(t) ==
      var n := HexValue(t[k..r]);
      if n >= TWO64 then NotASize else if t[i..j] == "-" then Bytes((TWO64 - n) % TWO64) else Bytes(n)
  {
    hide SpaceEnd, HexRunEnd, HexValue, HexDigitValue;
    StoulStart(t, i, j, k);
    assert t[k..r][0] == t[k];
    BlanksEnd(t, 0, i) by {
      assert forall x :: 0 <= x < i ==> t[x] == t[..i][x];
    }
    HexRunIs(t, k, r);
    if k == j && r > k + 1 {
      assert t[k..r][1] == t[k + 1];
    }
  }

  lemma StoulStart(t: string, i: nat, j: nat, k: nat)
    requires SignAndPrefix(t, i, j, k)
    ensures j <= i + 1 && (j == i + 1 ==> t[i] == '+' || t[i] == '-') && (t[i..j] == "-" <==> j == i + 1 && t[i] == '-')
    ensures k == j || (k == j + 2 && t[j] == '0' && (t[j + 1] == 'x' || t[j + 1] == 'X'))
  {
    if j == i + 1 {
      assert t[i..j] == [t[i]];
    }
    if k == j + 2 {
      assert t[j..k] == [t[j], t[j + 1]];
    }
  }

  /** Without a digit there is no size. */
  lemma StoulNothing(t: string, i: nat, j: nat)
    requires SignAndPrefix(t, i, j, j) && Blanks(t[..i])
    requires j < |t| ==> !HexDigit(t[j]) && (i == j ==> !Blank(t[j]) && t[j] != '+' && t[j] != '-')
    ensures Stoul(t).NotASize?
  {
    hide SpaceEnd, HexRunEnd, HexValue, HexDigitValue;
    StoulStart(t, i, j, j);
    BlanksEnd(t, 0, i) by {
      assert forall x :: 0 <= x < i ==> t[x] == t[..i][x];
    }
    HexRunIs(t, j, j);
  }

  /** The lower case of a hex digit. */
  function Lower(c: char): char {
    if 'A' <= c <= 'F' then (c as int + 32) as char else c
  }

  /** The case of the digits does not matter. */
  lemma {:induction false} CaseIsFree(t: string, u: string)
    requires |t| == |u| && AllHex(t) && forall i :: 0 <= i < |t| ==> Lower(t[i]) == Lower(u[i])
    ensures AllHex(u) && HexValue(u) == HexValue(t)
  {
    if t != "" {
      var n := |t| - 1;
      forall i | 0 <= i < |u| ensures HexDigit(u[i]) {
        assert HexDigit(t[i]) && Lower(t[i]) == Lower(u[i]);
      }
      assert HexDigitValue(t[n]) == HexDigitValue(u[n]) by { assert Lower(t[n]) == Lower(u[n]); }
      CaseIsFree(t[..n], u[..n]);
    }
  }

  lemma SizeTextOf(l: SizeLine, n: nat) returns (rest: string)
    requires ValidLine(l, n)
    ensures SizeText(l.digits + l.ext) == l.digits + rest
    ensures rest != "" ==> rest[0] == ' ' || rest[0] == '\t'
  {
    var line := l.digits + l.ext;
    var semi := Find(line, ";", 0);
    assert l.ext != "" ==> line[|l.digits|] == l.ext[0];
    assert l.ext != "" && l.ext[0] == ';' ==> At(line, |l.digits|, ";");
    if semi == NPOS {
      rest := l.ext;
    } else {
      AtChar(line, semi, ";", 0);
      forall i | 0 <= i < |l.digits| ensures line[i] != ';' {
        assert HexDigit(l.digits[i]);
      }
      rest := l.ext[..semi - |l.digits|];
      assert line[..semi] == l.digits + rest;
    }
  }

  lemma LineSize(l: SizeLine, n: nat)
    requires ValidLine(l, n)
    ensures Stoul(SizeText(l.digits + l.ext)) == Bytes(n)
  {
    var rest := SizeTextOf(l, n);
    StoulReadsDigits(l.digits, rest);
  }

  /** `s` from `pos` on is a prefix of `t`. */
  predicate PrefixFrom(s: string, pos: nat, t: string) {
    (pos < |s| ==> |s| - pos <= |t|) && forall j :: pos <= j < |s| ==> s[j] == t[j - pos]
  }

  lemma CrlfAt(t: string, i: int)
    ensures At(t, i, CRLF) <==> 0 <= i && i + 2 <= |t| && t[i] == '\r' && t[i + 1] == '\n'
  {
    if 0 <= i && i + 2 <= |t| {
      assert t[i..i + 2] == [t[i], t[i + 1]];
    }
  }

  /** The first CRLF of a line is the one that ends it. */
  lemma NoEarlyCrlf(l: SizeLine, n: nat, i: nat)
    requires ValidLine(l, n) && i < |l.digits| + |l.ext|
    ensures !(LineText(l)[i] == '\r' && LineText(l)[i + 1] == '\n')
  {
    var t := LineText(l);
    if i < |l.digits| {
      assert t[i] == l.digits[i];
    } else {
      var k := i - |l.digits|;
      assert t[i] == l.ext[k];
      assert !At(l.ext, k, CRLF);
      CrlfAt(l.ext, k);
      assert t[i + 1] == if k + 1 < |l.ext| then l.ext[k + 1] else '\r';
    }
  }

  /** Where the search for the end of a size line stops on a prefix of the line. */
  lemma FindLineEnd(s: string, pos: nat, l: SizeLine, n: nat, more: string)
    requires ValidLine(l, n) && PrefixFrom(s, pos, LineText(l) + more) && pos < |s|
    ensures var crlf := Find(s, CRLF, pos);
      if pos + |LineText(l)| <= |s|
      then crlf == pos + |l.digits| + |l.ext| && s[pos..crlf] == l.digits + l.ext
      else crlf == NPOS
  {
    hide At, Find, ValidLine;
    var t := LineText(l);
    var m := |l.digits| + |l.ext|;
    forall i | pos <= i < pos + m ensures !At(s, i, CRLF) {
      CrlfAt(s, i);
      NoEarlyCrlf(l, n, i - pos);
    }
    CrlfAt(s, pos + m);
    var crlf := Find(s, CRLF, pos);
    if pos + |t| <= |s| {
      assert At(s, pos + m, CRLF);
      assert s[pos..pos + m] == l.digits + l.ext;
    } else if crlf != NPOS {
      CrlfAt(s, crlf);
    }
  }

  // ------------------------------------------------------------ decoding an encoding

  lemma PrefixDrop(s: string, pos: nat, a: string, b: string)
    requires PrefixFrom(s, pos, a + b)
    ensures PrefixFrom(s, pos + |a|, b)
  {
  }

  lemma PrefixSlice(s: string, pos: nat, a: string, b: string)
    requires PrefixFrom(s, pos, a + b) && pos + |a| <= |s|
    ensures s[pos..pos + |a|] == a
  {
  }

  lemma TurnAtEnding(s: string, pos: nat, e: Ending)
    requires ValidEnding(e) && PrefixFrom(s, pos, EndingText(e))
    ensures TurnAt(s, pos).Stop?
  {
    hide Stoul, Find, ValidLine, LineText;
    if pos < |s| {
      TurnIs(s, pos);
      FindLineEnd(s, pos, e.line, 0, e.trailer);
      LineSize(e.line, 0);
    }
  }

  lemma TurnAtChunk(s: string, pos: nat, c: Chunk, more: string)
    requires ValidChunk(c) && PrefixFrom(s, pos, ChunkText(c) + more)
    requires pos + |ChunkText(c)| < TWO64
    ensures TurnAt(s, pos) ==
      if pos + |LineText(c.line)| + |c.data| > |s| then Stop else Go(c.data, pos + |ChunkText(c)|)
  {
    hide Stoul, Find, SizeText, PrefixFrom, ValidLine;
    var l := c.line;
    if pos < |s| {
      TurnIs(s, pos);
      assert ChunkText(c) + more == LineText(l) + (c.data + (CRLF + more));
      FindLineEnd(s, pos, l, |c.data|, c.data + (CRLF + more));
      LineSize(l, |c.data|);
      PrefixDrop(s, pos, LineText(l), c.data + (CRLF + more));
      if pos + |LineText(l)| + |c.data| <= |s| {
        PrefixSlice(s, pos + |LineText(l)|, c.data, CRLF + more);
      }
    } else {
      PastTheEnd(s, pos);
    }
  }

  lemma {:induction false} DecodePrefix(s: string, pos: nat, chunks: seq<Chunk>, e: Ending)
    requires ValidChunks(chunks) && ValidEnding(e) && PrefixFrom(s, pos, Encode(chunks) + EndingText(e))
    requires pos + |Encode(chunks)| < TWO64
    ensures StopsWithin(s, pos, |chunks|) && Appended(s, pos, |chunks|) == Within(chunks, |s| - pos)
    decreases |chunks|
  {
    hide TurnAt, ChunkText, EndingText;
    if chunks == [] {
      assert Encode(chunks) + EndingText(e) == EndingText(e);
      TurnAtEnding(s, pos, e);
    } else {
      var c := chunks[0];
      var more := Encode(chunks[1..]) + EndingText(e);
      assert Encode(chunks) + EndingText(e) == ChunkText(c) + more;
      TurnAtChunk(s, pos, c, more);
      PrefixDrop(s, pos, ChunkText(c), more);
      DecodePrefix(s, pos + |ChunkText(c)|, chunks[1..], e);
    }
  }

  lemma DecodedWithin(s: string, n: nat)
    requires StopsWithin(s, 0, n)
    ensures Ends(s) && Decoded(s) == Appended(s, 0, n)
  {
    hide StopsWithin, Appended;
    EndsIff(s);
    if n <= |s| {
      StopsLonger(s, 0, n, |s|);
    } else {
      StopsLonger(s, 0, |s|, n);
    }
  }

  /** On every truncation of a chunked body the loop ends, and the decoder returns exactly the
      data of the chunks whose data is wholly present. */
  lemma DecodeTruncated(chunks: seq<Chunk>, e: Ending, k: nat)
    requires ValidChunks(chunks) && ValidEnding(e)
    requires k <= |Encode(chunks) + EndingText(e)| < TWO64
    ensures var s := (Encode(chunks) + EndingText(e))[..k];
      Ends(s) && Decoded(s) == Within(chunks, k)
  {
    hide ValidChunks, ValidEnding, StopsWithin, Appended, Ends, Decoded;
    var s := (Encode(chunks) + EndingText(e))[..k];
    DecodePrefix(s, 0, chunks, e);
    DecodedWithin(s, |chunks|);
  }

  lemma {:induction false} AllWithin(chunks: seq<Chunk>, room: int)
    requires room >= |Encode(chunks)|
    ensures Within(chunks, room) == AllData(chunks)
  {
    if chunks != [] {
      AllWithin(chunks[1..], room - |ChunkText(chunks[0])|);
    }
  }

  /** Decoding inverts encoding, on every body whose size fits in a word. */
  lemma DecodeEncoded(chunks: seq<Chunk>, e: Ending)
    requires ValidChunks(chunks) && ValidEnding(e) && |Encode(chunks) + EndingText(e)| < TWO64
    ensures Ends(Encode(chunks) + EndingText(e))
    ensures Decoded(Encode(chunks) + EndingText(e)) == AllData(chunks)
  {
    hide Ends, Decoded, ValidChunks, ValidEnding, EndingText;
    var body := Encode(chunks) + EndingText(e);
    DecodeTruncated(chunks, e, |body|);
    assert body[..|body|] == body;
    AllWithin(chunks, |body|);
  }

  // ------------------------------------------------------------ every body has an encoding

  function HexOf(n: nat): (t: string)
    ensures t != "" && AllHex(t) && HexValue(t) == n
  {
    var d := [HexChar(n % 16)];
    if n < 16 then
      assert d[..0] == "" && HexDigitValue(d[0]) == n;
      d
    else
      var t := HexOf(n / 16) + d;
      assert t[..|t| - 1] == HexOf(n / 16) && HexDigitValue(t[|t| - 1]) == n % 16;
      t
  }

  /** The plain encoding of a list of blocks. */
  function ChunksOf(blocks: seq<string>): seq<Chunk> {
    seq(|blocks|, i requires 0 <= i < |blocks| => Chunk(SizeLine(HexOf(|blocks[i]|), ""), blocks[i]))
  }

  /** Every size has a line in digits of either case, and `stoul` reads it. */
  lemma AnyCaseReads(n: nat, digits: string)
    requires n < TWO64 && |digits| == |HexOf(n)|
    requires forall i :: 0 <= i < |digits| ==> Lower(digits[i]) == Lower(HexOf(n)[i])
    ensures AllHex(digits) && ValidLine(SizeLine(digits, ""), n) && Stoul(digits) == Bytes(n)
  {
    CaseIsFree(HexOf(n), digits);
    StoulReadsDigits(digits, "");
    assert digits + "" == digits;
  }

  lemma ChunksAreValid(blocks: seq<string>)
    requires forall i :: 0 <= i < |blocks| ==> 0 < |blocks[i]| < TWO64
    ensures ValidChunks(ChunksOf(blocks))
  {
  }
}
