/** Cutting a long text into chunks at paragraph or sentence ends.  A text is a sequence of
    bytes, written as the characters 0 to 255. */
module SplitText {
  import opened Strings

  const PARAGRAPH := "\n\n"
  /** The first byte of the Chinese full stop, and the stop itself. */
  const STOP_LEAD := "\U{e3}"
  const STOP := "\U{e3}\U{80}\U{82}"

  function Concat(chunks: seq<string>): string {
    if chunks == [] then "" else Concat(chunks[..|chunks| - 1]) + chunks[|chunks| - 1]
  }

  /** The Chinese full stop stands at `i`. */
  predicate IsStop(text: string, i: nat) {
    i + 2 < |text| && text[i] == '\U{e3}' && text[i + 1] == '\U{80}' && text[i + 2] == '\U{82}'
  }

  lemma StopAt(text: string, i: nat)
    ensures IsStop(text, i) <==> At(text, i, STOP)
  {
    if i + 3 <= |text| {
      assert text[i..i + 3] == [text[i], text[i + 1], text[i + 2]];
    }
  }

  /** Where the chunk that begins at `start` ends, when more than `max` bytes are left. */
  function CutAt(text: string, start: nat, max: nat): int
    requires start + max < |text|
  {
    var end := start + max;
    var para := RFind(text, PARAGRAPH, end);
    if para > start then para + 2
    else
      var sent := RFind(text, ".", end);
      var lead := RFind(text, STOP_LEAD, end);
      var dot := if sent > start then sent + 1 else NPOS;
      if lead > start && lead > (if dot == NPOS then start else dot) && IsStop(text, lead) then lead + 3
      else if dot != NPOS then dot
      else end
  }

  /** The text up to `end` closes a paragraph or a sentence. */
  predicate Boundary(text: string, end: nat) {
    At(text, end - 2, PARAGRAPH) || At(text, end - 1, ".") || At(text, end - 3, STOP)
  }

  /** A cut keeps at least one byte, ends a paragraph or sentence unless it is made at the
      limit, and passes the limit by at most three bytes. */
  lemma CutIsGood(text: string, start: nat, max: nat)
    requires start + max < |text| && max >= 1
    ensures start < CutAt(text, start, max) <= |text|
    ensures CutAt(text, start, max) <= start + max + 3
    ensures CutAt(text, start, max) == start + max || Boundary(text, CutAt(text, start, max))
  {
    var lead := RFind(text, STOP_LEAD, start + max);
    if lead != NPOS {
      StopAt(text, lead);
    }
  }

  /** The loop moves forward if and only if the limit is at least 1. */
  lemma ProgressIff(text: string, start: nat, max: nat)
    requires start + max < |text|
    ensures CutAt(text, start, max) > start <==> max >= 1
    ensures max == 0 ==> CutAt(text, start, max) == start
  {
    if max >= 1 {
      CutIsGood(text, start, max);
    }
  }

  /** A cut inside a sentence is made only when no paragraph break and no full stop starts
      in the chunk after its first byte. */
  lemma HardCut(text: string, start: nat, max: nat, i: nat)
    requires start + max < |text| && max >= 1 && !Boundary(text, CutAt(text, start, max))
    requires start < i <= start + max
    ensures !At(text, i, PARAGRAPH) && !At(text, i, ".")
  {
  }

  /** A paragraph break starts after `start` at `i`. */
  predicate Break(text: string, start: nat, i: int) {
    i > start && At(text, i, PARAGRAPH)
  }

  predicate Dot(text: string, start: nat, i: int) {
    i > start && At(text, i, ".")
  }

  predicate Lead(text: string, start: nat, i: int) {
    i > start && At(text, i, STOP_LEAD)
  }

  /** The stop at `i`, after `start`, is the one the search takes up: no lead byte follows it
      within the limit, and no full stop stands directly before it or after it there. */
  ghost predicate StopTaken(text: string, start: nat, end: nat, i: int) {
    && start < i <= end && At(text, i, STOP)
    && (forall k :: i < k <= end ==> !Lead(text, start, k))
    && (forall k :: i - 1 <= k <= end ==> !Dot(text, start, k))
  }

  ghost predicate NoBreak(text: string, start: nat, end: nat) {
    forall k :: start < k <= end ==> !Break(text, start, k)
  }

  /** Where a cut passes the limit `end`. */
  ghost predicate PastLimit(text: string, start: nat, end: nat) {
    || Break(text, start, end) || Break(text, start, end - 1)
    || (NoBreak(text, start, end)
        && (Dot(text, start, end) || exists i :: end - 2 <= i <= end && StopTaken(text, start, end, i)))
  }

  /** Exactly when a cut passes the limit: a paragraph break starts on the limit or directly
      before it; or there is no break, and a full stop stands on the limit or a stop that is
      taken up ends past it. */
  lemma PastLimitIff(text: string, start: nat, max: nat)
    requires start + max < |text|
    ensures CutAt(text, start, max) > start + max <==> PastLimit(text, start, start + max)
  {
    hide RFind, IsStop, StopTaken;
    var end := start + max;
    var para := RFind(text, PARAGRAPH, end);
    if para > start {
      assert Break(text, start, para);
    } else {
      hide At;
      NoBreakFound(text, start, end);
      WithoutBreak(text, start, max);
    }
  }

  lemma NoBreakFound(text: string, start: nat, end: nat)
    requires RFind(text, PARAGRAPH, end) <= start
    ensures NoBreak(text, start, end)
  {
    hide RFind;
  }

  /** Without a paragraph break the last full stop and the last lead byte decide. */
  lemma WithoutBreak(text: string, start: nat, max: nat)
    requires start + max < |text| && RFind(text, PARAGRAPH, start + max) <= start
    ensures var end := start + max;
      CutAt(text, start, max) > end <==>
        Dot(text, start, end) || exists i :: end - 2 <= i <= end && StopTaken(text, start, end, i)
  {
    hide RFind, IsStop, At;
    var end := start + max;
    var sent, lead := RFind(text, ".", end), RFind(text, STOP_LEAD, end);
    if lead != NPOS {
      StopAt(text, lead);
    }
    LeadOfStops(text);
    assert sent > start ==> Dot(text, start, sent);
    assert lead > start ==> Lead(text, start, lead);
    if lead > start && At(text, lead, STOP) && (sent <= start || sent < lead - 1) {
      assert StopTaken(text, start, end, lead);
    }
  }

  /** Every stop begins with the lead byte and holds no other, nor a full stop. */
  lemma LeadOfStops(text: string)
    ensures forall i {:trigger At(text, i, STOP)} :: At(text, i, STOP) ==>
      At(text, i, STOP_LEAD) && !At(text, i, ".") && !At(text, i + 1, ".") && !At(text, i + 2, ".")
  {
    forall i | At(text, i, STOP) ensures At(text, i, STOP_LEAD) && !At(text, i, ".") && !At(text, i + 1, ".")
        && !At(text, i + 2, ".") {
      StopAt(text, i);
      forall k, c: char | i <= k < i + 3 && c == '.' ensures !At(text, k, [c]) {
        assert text[k] != '.';
      }
    }
  }

  ghost predicate LastBreak(text: string, start: nat, end: nat, i: int) {
    i <= end && Break(text, start, i) && forall k :: i < k <= end ==> !Break(text, start, k)
  }

  ghost predicate LastDot(text: string, start: nat, end: nat, i: int) {
    i <= end && Dot(text, start, i) && forall k :: i < k <= end ==> !Dot(text, start, k)
  }

  ghost predicate NoStopTaken(text: string, start: nat, end: nat) {
    forall i :: !StopTaken(text, start, end, i)
  }

  ghost predicate NoDot(text: string, start: nat, end: nat) {
    forall k :: start < k <= end ==> !Dot(text, start, k)
  }

  /** Which boundary is taken: after the last paragraph break within the limit; without one,
      after the Chinese full stop that is taken up; without that, after the last full stop;
      and without any of them, at the limit. */
  ghost predicate RightCut(text: string, start: nat, end: nat, cut: int) {
    if !NoBreak(text, start, end) then exists i :: LastBreak(text, start, end, i) && cut == i + 2
    else if !NoStopTaken(text, start, end) then exists i :: StopTaken(text, start, end, i) && cut == i + 3
    else if !NoDot(text, start, end) then exists i :: LastDot(text, start, end, i) && cut == i + 1
    else cut == end
  }

  lemma CutIff(text: string, start: nat, max: nat, cut: int)
    requires start + max < |text|
    ensures cut == CutAt(text, start, max) <==> RightCut(text, start, start + max, cut)
  {
    hide RFind, IsStop, StopTaken;
    var end := start + max;
    var para := RFind(text, PARAGRAPH, end);
    if para > start {
      assert LastBreak(text, start, end, para);
    } else {
      hide At;
      NoBreakFound(text, start, end);
      SentenceCut(text, start, max, cut);
    }
  }

  lemma SentenceCut(text: string, start: nat, max: nat, cut: int)
    requires start + max < |text| && RFind(text, PARAGRAPH, start + max) <= start
    ensures var end := start + max;
      cut == CutAt(text, start, max) <==>
        if !NoStopTaken(text, start, end) then exists i :: StopTaken(text, start, end, i) && cut == i + 3
        else if !NoDot(text, start, end) then exists i :: LastDot(text, start, end, i) && cut == i + 1
        else cut == end
  {
    hide RFind, IsStop, At;
    var end := start + max;
    var sent, lead := RFind(text, ".", end), RFind(text, STOP_LEAD, end);
    if lead != NPOS {
      StopAt(text, lead);
    }
    LeadOfStops(text);
    assert sent > start ==> LastDot(text, start, end, sent);
    assert lead > start ==> Lead(text, start, lead);
    if lead > start && At(text, lead, STOP) && (sent <= start || sent < lead - 1) {
      assert StopTaken(text, start, end, lead);
    }
  }

  /** `i` is the last stop within the limit that no full stop follows there. */
  ghost predicate LastStop(text: string, start: nat, end: nat, i: int) {
    && start < i <= end && At(text, i, STOP)
    && (forall k :: i < k <= end ==> !At(text, k, STOP) && !Dot(text, start, k))
  }

  /** Exactly when a Chinese full stop is honoured, where no paragraph break comes first: no
      later character within the limit starts with the same byte and no full stop stands
      directly before it; or it happens to end on the limit with no full stop before it. */
  lemma StopHonouredIff(text: string, start: nat, max: nat, i: int)
    requires start + max < |text| && NoBreak(text, start, start + max) && LastStop(text, start, start + max, i)
    ensures var end := start + max;
      CutAt(text, start, max) == i + 3 <==>
        || ((forall k :: i < k <= end ==> !Lead(text, start, k)) && !Dot(text, start, i - 1))
        || (i + 3 == end && forall k :: start < k < i ==> !Dot(text, start, k))
  {
    hide RFind, IsStop;
    var end := start + max;
    var para, sent, lead := RFind(text, PARAGRAPH, end), RFind(text, ".", end), RFind(text, STOP_LEAD, end);
    if lead != NPOS {
      StopAt(text, lead);
    }
    LeadOfStops(text);
    assert At(text, i, STOP_LEAD) && !At(text, i, ".");
    assert sent > start ==> Dot(text, start, sent);
    assert lead >= i && Lead(text, start, lead);
    assert para <= start by {
      assert para > start ==> Break(text, start, para);
    }
  }

  /** One way to overlook one: a later character with the same first byte. */
  lemma StopOverlooked(text: string)
    requires text == "a" + STOP + "\U{e3}\U{81}\U{82}bc"
    ensures At(text, 1, STOP) && CutAt(text, 0, 7) == 7 && !Boundary(text, 7)
  {
    StopAt(text, 1);
    StopAt(text, 4);
    assert text[4] == '\U{e3}' && At(text, 4, STOP_LEAD);
    assert text[5] == '\U{81}';
    Plain(text, 0);
  }

  /** The other: a full stop directly before it. */
  lemma StopAfterDotOverlooked(text: string)
    requires text == "a." + STOP + "bbbb"
    ensures At(text, 2, STOP) && CutAt(text, 0, 7) == 2
  {
    StopAt(text, 2);
    forall k | 2 <= k < |text| ensures text[k] != '.' && text[k] != '\n' {
      assert text[k] == (STOP + "bbbb")[k - 2];
    }
    Plain(text, 2);
    assert At(text, 1, ".") && text[0] == 'a' && text[1] == '.';
    forall k | 0 <= k < 2 ensures !At(text, k, PARAGRAPH) {
      if At(text, k, PARAGRAPH) {
        AtChar(text, k, PARAGRAPH, 0);
      }
    }
    assert RFind(text, ".", 7) == 1;
    forall k | 3 <= k <= 7 ensures !At(text, k, STOP_LEAD) {
      assert text[k] != '\U{e3}';
    }
  }

  /** From `lo` on the text has neither full stops nor line ends. */
  lemma Plain(text: string, lo: nat)
    requires forall k :: lo <= k < |text| ==> text[k] != '.' && text[k] != '\n'
    ensures forall i :: i >= lo ==> !At(text, i, ".") && !At(text, i, PARAGRAPH)
  {
    forall i | i >= lo ensures !At(text, i, ".") && !At(text, i, PARAGRAPH) {
      if At(text, i, ".") {
        AtChar(text, i, ".", 0);
      }
      if At(text, i, PARAGRAPH) {
        AtChar(text, i, PARAGRAPH, 0);
      }
    }
  }

  /** What the chunks are. */
  ghost predicate GoodSplit(text: string, max: nat, chunks: seq<string>) {
    && Concat(chunks) == text
    && (text != "" ==> forall i :: 0 <= i < |chunks| ==> chunks[i] != "")
    && (forall i :: 0 <= i < |chunks| ==> |chunks[i]| <= max + 3)
    && (forall i :: 0 <= i < |chunks| - 1 ==> |chunks[i]| == max || EndsWell(chunks[i]))
    && AllRight(text, max, chunks)
    && (|text| <= max ==> chunks == [text])
  }

  /** How many bytes come before chunk `k`. */
  function StartOf(chunks: seq<string>, k: nat): nat
    requires k <= |chunks|
  {
    |Concat(chunks[..k])|
  }

  /** A chunk of `len` bytes from `start` on: it is longer than the limit exactly where the
      text makes a cut pass it; it ends where it should, and the last one is the rest. */
  ghost predicate RightChunk(text: string, max: nat, start: nat, len: nat) {
    && (len > max <==> PastLimit(text, start, start + max))
    && if start + max < |text| then RightCut(text, start, start + max, start + len) else start + len == |text|
  }

  ghost predicate AllRight(text: string, max: nat, chunks: seq<string>) {
    forall k {:trigger chunks[k]} :: 0 <= k < |chunks| ==>
      RightChunk(text, max, StartOf(chunks, k), |chunks[k]|)
  }

  /** The chunk closes a paragraph or a sentence. */
  predicate EndsWell(chunk: string) {
    Boundary(chunk, |chunk|)
  }

  lemma SliceEndsWell(text: string, start: nat, end: nat, mark: string)
    requires mark == PARAGRAPH || mark == "." || mark == STOP
    requires start + |mark| <= end <= |text| && At(text, end - |mark|, mark)
    ensures EndsWell(text[start..end])
  {
    var c := text[start..end];
    assert c[end - start - |mark|..end - start] == text[end - |mark|..end];
  }

  lemma CutEndsWell(text: string, start: nat, max: nat)
    requires start + max < |text| && max >= 1
    ensures var end := CutAt(text, start, max);
      start < end <= |text| && (end == start + max || EndsWell(text[start..end]))
  {
    CutIsGood(text, start, max);
    hide At, RFind, EndsWell;
    var end := CutAt(text, start, max);
    var para := RFind(text, PARAGRAPH, start + max);
    var lead := RFind(text, STOP_LEAD, start + max);
    if para > start {
      SliceEndsWell(text, start, end, PARAGRAPH);
    } else if lead > start && end == lead + 3 && IsStop(text, lead) {
      StopAt(text, lead);
      SliceEndsWell(text, start, end, STOP);
    } else if end != start + max {
      SliceEndsWell(text, start, end, ".");
    }
  }

  lemma ConcatAppend(chunks: seq<string>, c: string)
    ensures Concat(chunks + [c]) == Concat(chunks) + c
  {
    assert (chunks + [c])[..|chunks|] == chunks;
  }

  /** The chunks cut so far make up the first `start` bytes. */
  ghost predicate CutSoFar(text: string, max: nat, chunks: seq<string>, start: nat) {
    && start <= |text| && Concat(chunks) == text[..start]
    && (forall i :: 0 <= i < |chunks| ==> chunks[i] != "" && |chunks[i]| <= max + 3)
    && (forall i :: 0 <= i < |chunks| ==> |chunks[i]| == max || EndsWell(chunks[i]))
    && AllRight(text, max, chunks)
  }

  /** Near the end of the text no cut passes the limit. */
  lemma NotPastEnd(text: string, start: nat, end: nat)
    requires end >= |text|
    ensures !PastLimit(text, start, end)
  {
  }

  lemma StartAppend(chunks: seq<string>, c: string, k: nat)
    requires k <= |chunks|
    ensures StartOf(chunks + [c], k) == StartOf(chunks, k)
  {
    hide Concat;
    assert (chunks + [c])[..k] == chunks[..k];
  }

  lemma AllBefore(chunks: seq<string>)
    ensures StartOf(chunks, |chunks|) == |Concat(chunks)|
  {
    assert chunks[..|chunks|] == chunks;
  }

  lemma RightAppend(text: string, max: nat, chunks: seq<string>, c: string)
    requires AllRight(text, max, chunks) && RightChunk(text, max, |Concat(chunks)|, |c|)
    ensures AllRight(text, max, chunks + [c])
  {
    hide Concat, RightChunk, StartOf;
    StartAppend(chunks, c, |chunks|);
    AllBefore(chunks);
    forall k | 0 <= k < |chunks| ensures StartOf(chunks + [c], k) == StartOf(chunks, k) {
      StartAppend(chunks, c, k);
    }
  }

  lemma NothingCut(text: string, max: nat)
    ensures CutSoFar(text, max, [], 0)
    ensures |text| <= max ==> GoodSplit(text, max, [text])
  {
    hide PastLimit, RightCut;
    ConcatAppend([], text);
    assert [] + [text] == [text];
    if |text| <= max {
      NotPastEnd(text, 0, max);
      RightAppend(text, max, [], text);
    }
  }

  lemma AddChunk(text: string, max: nat, chunks: seq<string>, start: nat)
    requires CutSoFar(text, max, chunks, start) && start + max < |text| && max >= 1
    ensures var end := CutAt(text, start, max);
      start < end <= |text| && CutSoFar(text, max, chunks + [text[start..end]], end)
  {
    hide CutAt, EndsWell, Concat, PastLimit, RightCut, AllRight;
    CutIsGood(text, start, max);
    CutEndsWell(text, start, max);
    PastLimitIff(text, start, max);
    var end := CutAt(text, start, max);
    CutIff(text, start, max, end);
    ConcatAppend(chunks, text[start..end]);
    RightAppend(text, max, chunks, text[start..end]);
    assert text[..start] + text[start..end] == text[..end];
  }

  lemma AddLast(text: string, max: nat, chunks: seq<string>, start: nat)
    requires CutSoFar(text, max, chunks, start) && |text| - start <= max < |text|
    ensures start < |text| ==> GoodSplit(text, max, chunks + [text[start..]])
    ensures start == |text| ==> GoodSplit(text, max, chunks)
  {
    hide EndsWell, Concat, PastLimit, RightCut, AllRight;
    ConcatAppend(chunks, text[start..]);
    NotPastEnd(text, start, start + max);
    RightAppend(text, max, chunks, text[start..]);
    assert text[..start] + text[start..] == text;
    assert start == |text| ==> text[..start] == text;
  }

  /** `splitText`.  With a limit of 0 and a non-empty text the loop never ends
      (ProgressIff), so the limit must be at least 1. */
  method Split(text: string, max: nat) returns (chunks: seq<string>)
    requires max >= 1 || text == ""
    ensures GoodSplit(text, max, chunks)
  {
    hide At, RFind, CutSoFar, GoodSplit;
    NothingCut(text, max);
    if |text| <= max {
      return [text];
    }
    chunks := [];
    var start := 0;
    while start < |text|
      invariant start <= |text| && CutSoFar(text, max, chunks, start)
      decreases |text| - start
    {
      if |text| - start <= max {
        AddLast(text, max, chunks, start);
        chunks := chunks + [text[start..]];
        return;
      }
      AddChunk(text, max, chunks, start);
      var end := start + max;
      var para := RFind(text, PARAGRAPH, end);
      if para != NPOS && para > start {
        end := para + 2;
      } else {
        var sent := RFind(text, ".", end);
        var sentCn := RFind(text, STOP_LEAD, end);
        var best := NPOS;
        if sent != NPOS && sent > start {
          best := sent + 1;
        }
        if sentCn != NPOS && sentCn > start && sentCn > (if best == NPOS then start else best) {
          if sentCn + 2 < |text| && text[sentCn] == '\U{e3}' && text[sentCn + 1] == '\U{80}'
              && text[sentCn + 2] == '\U{82}' {
            best := sentCn + 3;
          }
        }
        if best != NPOS {
          end := best;
        }
      }
      assert end == CutAt(text, start, max);
      chunks := chunks + [text[start..end]];
      start := end;
    }
    AddLast(text, max, chunks, start);
  }

  // ------------------------------------------------------------ the result is determined

  lemma {:induction false} ChunkAt(chunks: seq<string>, k: nat)
    requires k < |chunks|
    ensures StartOf(chunks, k) + |chunks[k]| == StartOf(chunks, k + 1) <= |Concat(chunks)|
    ensures Concat(chunks)[StartOf(chunks, k)..StartOf(chunks, k + 1)] == chunks[k]
    decreases |chunks|
  {
    var n := |chunks| - 1;
    if k < n {
      ChunkAt(chunks[..n], k);
      assert chunks[..n][..k] == chunks[..k] && chunks[..n][..k + 1] == chunks[..k + 1];
    } else {
      assert chunks[..k + 1] == chunks;
    }
  }

  lemma CutUnique(text: string, max: nat, start: nat, m: nat, n: nat)
    requires RightChunk(text, max, start, m) && RightChunk(text, max, start, n)
    ensures m == n
  {
    hide PastLimit, RightCut, CutAt;
    if start + max < |text| {
      CutIff(text, start, max, start + m);
      CutIff(text, start, max, start + n);
    }
  }

  lemma {:induction false} SamePrefix(text: string, max: nat, c: seq<string>, d: seq<string>, k: nat)
    requires GoodSplit(text, max, c) && GoodSplit(text, max, d) && k <= |c| && k <= |d|
    ensures c[..k] == d[..k]
  {
    hide Concat, RightChunk, EndsWell;
    if k > 0 {
      SamePrefix(text, max, c, d, k - 1);
      ChunkAt(c, k - 1);
      ChunkAt(d, k - 1);
      CutUnique(text, max, StartOf(c, k - 1), |c[k - 1]|, |d[k - 1]|);
      assert c[..k] == c[..k - 1] + [c[k - 1]] && d[..k] == d[..k - 1] + [d[k - 1]];
    }
  }

  lemma NotFewer(text: string, max: nat, c: seq<string>, d: seq<string>)
    requires GoodSplit(text, max, c) && GoodSplit(text, max, d)
    ensures |c| >= |d|
  {
    hide Concat, AllRight, EndsWell;
    if |c| < |d| {
      SamePrefix(text, max, c, d, |c|);
      assert c[..|c|] == c;
      ChunkAt(d, |c|);
    }
  }

  /** A text and a limit have exactly one split into such chunks. */
  lemma SplitDetermined(text: string, max: nat, c: seq<string>, d: seq<string>)
    requires GoodSplit(text, max, c) && GoodSplit(text, max, d)
    ensures c == d
  {
    hide GoodSplit;
    NotFewer(text, max, c, d);
    NotFewer(text, max, d, c);
    SamePrefix(text, max, c, d, |c|);
    assert c[..|c|] == c && d[..|c|] == d;
  }

  /** The bound of three bytes past the limit is attained, for every limit. */
  lemma BoundAttained(max: nat, text: string)
    requires max >= 1
    requires text == seq(max, _ => 'a') + STOP
    ensures CutAt(text, 0, max) == max + 3 == |text|
  {
    Plain(text, 0);
    assert text[max] == '\U{e3}' && At(text, max, STOP_LEAD) && At(text, max, STOP);
    StopAt(text, max);
  }
}
