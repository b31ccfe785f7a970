/** The audio editor's scan of a model reply for its edit commands: brace counting, three
    nested loops over one position, and why none of them can stop advancing.  The numeric
    and remaining text fields of a command are not part of this model. */
module EditCommands {
  import opened Strings
  import opened JsonStrings
  import opened JsonParser

  /** Where something begins, and the position after it. */
  datatype Span = Span(open: nat, end: nat)

  datatype EditCommand = EditCommand(kind: string, sources: seq<string>, segments: seq<Span>)

  // ------------------------------------------------------------ brace depth

  function Delta(c: char): int {
    if c == '{' then 1 else if c == '}' then -1 else 0
  }

  /** Opening minus closing braces in s[a..b]. */
  function Depth(s: string, a: nat, b: nat): int
    requires b <= |s|
    decreases b
  {
    if b <= a then 0 else Depth(s, a, b - 1) + Delta(s[b - 1])
  }

  /** The object that opens at `a` closes at `b`: the depth returns to zero there first. */
  ghost predicate Balanced(s: string, a: nat, b: nat) {
    && a < b < |s| && s[a] == '{'
    && Depth(s, a, b + 1) == 0
    && forall i :: a < i <= b ==> Depth(s, a, i) > 0
  }

  /** The object that opens at `a` does not close before `limit`. */
  ghost predicate StaysOpen(s: string, a: nat, limit: nat) {
    limit <= |s| && forall i :: a < i <= limit ==> Depth(s, a, i) > 0
  }

  lemma {:induction false} DepthSplit(s: string, a: nat, b: nat, c: nat)
    requires a <= b <= c <= |s|
    ensures Depth(s, a, c) == Depth(s, a, b) + Depth(s, b, c)
    decreases c
  {
    if b < c {
      DepthSplit(s, a, b, c - 1);
    }
  }

  lemma BalancedEnds(s: string, a: nat, b: nat)
    requires Balanced(s, a, b)
    ensures s[b] == '}' && Depth(s, a, b) == 1
  {
    assert Depth(s, a, b) > 0;
  }

  /** A walk in steps of one that starts above zero and ends at or below zero passes zero,
      and there is a first time. */
  lemma {:induction false} FirstZero(s: string, a: nat, b: nat) returns (e: nat)
    requires a < b <= |s| && s[a] == '{' && Depth(s, a, b) <= 0
    ensures a < e < b && Balanced(s, a, e)
    decreases b
  {
    assert Depth(s, a, a + 1) == 1;
    if i :| a < i < b && Depth(s, a, i) <= 0 {
      e := FirstZero(s, a, i);
    } else {
      e := b - 1;
      assert Depth(s, a, b) == Depth(s, a, b - 1) + Delta(s[b - 1]);
    }
  }

  /** Any brace that opens strictly inside a balanced object closes before the object does. */
  lemma InnerCloses(s: string, a: nat, b: nat, c: nat) returns (e: nat)
    requires Balanced(s, a, b) && a < c < b && s[c] == '{'
    ensures c < e < b && Balanced(s, c, e)
  {
    BalancedEnds(s, a, b);
    assert Depth(s, a, c) > 0;
    DepthSplit(s, a, c, b);
    e := FirstZero(s, c, b);
  }

  /** The brace scan: where the object that opens at `from` closes before `limit`. */
  method ScanObject(s: string, from: nat, limit: nat) returns (depth: int, end: nat)
    requires from < limit <= |s| && s[from] == '{'
    ensures depth == 0 ==> end < limit && Balanced(s, from, end)
    ensures depth != 0 ==> end == from && StaysOpen(s, from, limit)
  {
    depth, end := 0, from;
    for i := from to limit
      invariant depth == Depth(s, from, i) && end == from
      invariant forall k :: from < k <= i ==> Depth(s, from, k) > 0
    {
      if s[i] == '{' {
        depth := depth + 1;
      } else if s[i] == '}' {
        depth := depth - 1;
        if depth == 0 {
          end := i;
          return;
        }
      }
    }
  }

  // ------------------------------------------------------------ fields

  /** `findKey`: the first occurrence of the quoted key from `start` on, and the position
      of what follows its colon. */
  function FindKey(s: string, start: nat, key: string): (r: int)
    ensures r == NPOS || r > start
  {
    var search := "\"" + key + "\"";
    var p := Find(s, search, start);
    if p == NPOS then NPOS
    else
      var q := SkipWs(s, p + |search|);
      if q < |s| && s[q] == ':' then SkipWs(s, q + 1) else q
  }

  function Quoted(key: string): string {
    "\"" + key + "\""
  }

  /** White space only from `a` to `b`, and no more of it at `b`. */
  ghost predicate Spaces(s: string, a: nat, b: nat) {
    a <= b <= |s| && (forall i :: a <= i < b ==> IsWs(s[i])) && (b < |s| ==> !IsWs(s[b]))
  }

  /** The quoted key stands at `i`, and nowhere before it from `start` on. */
  ghost predicate FirstAt(s: string, start: nat, key: string, i: nat) {
    start <= i && At(s, i, Quoted(key)) && forall k :: start <= k < i ==> !At(s, k, Quoted(key))
  }

  ghost predicate NoKey(s: string, start: nat, key: string) {
    forall k :: start <= k ==> !At(s, k, Quoted(key))
  }

  function KeyEnd(i: nat, key: string): nat {
    i + |Quoted(key)|
  }

  /** The key's quotes end at `e`; what follows begins at `r`, past the colon at `q` if there
      is one. */
  ghost predicate Colon(s: string, e: nat, q: nat, r: nat) {
    Spaces(s, e, q) && if q < |s| && s[q] == ':' then Spaces(s, q + 1, r) else r == q
  }

  ghost predicate Follows(s: string, i: nat, key: string, r: nat) {
    exists q: nat :: Colon(s, KeyEnd(i, key), q, r)
  }

  lemma SpacesAt(s: string, a: nat)
    requires a <= |s|
    ensures Spaces(s, a, SkipWs(s, a))
  {
  }

  lemma SpacesUnique(s: string, a: nat, b: nat, c: nat)
    requires Spaces(s, a, b) && Spaces(s, a, c)
    ensures b == c
  {
  }

  lemma FollowsUnique(s: string, i: nat, key: string, r: nat, r': nat)
    requires Follows(s, i, key, r) && Follows(s, i, key, r')
    ensures r == r'
  {
    hide Spaces;
    var e := KeyEnd(i, key);
    var q: nat :| Colon(s, e, q, r);
    var q': nat :| Colon(s, e, q', r');
    SpacesUnique(s, e, q, q');
    if q < |s| && s[q] == ':' {
      SpacesUnique(s, q + 1, r, r');
    }
  }

  lemma KeyFound(s: string, start: nat, key: string)
    ensures FindKey(s, start, key) == NPOS ==> NoKey(s, start, key)
    ensures var i := Find(s, Quoted(key), start);
      FindKey(s, start, key) != NPOS ==>
        i >= 0 && FirstAt(s, start, key, i) && Follows(s, i, key, FindKey(s, start, key))
  {
    hide SkipWs, Spaces, At;
    var i := Find(s, Quoted(key), start);
    if i == NPOS {
      forall k | start <= k ensures !At(s, k, Quoted(key)) {
        if At(s, k, Quoted(key)) {
          AtFits(s, k, Quoted(key));
        }
      }
    } else {
      var e := KeyEnd(i, key);
      AtFits(s, i, Quoted(key));
      var q := SkipWs(s, e);
      SpacesAt(s, e);
      if q < |s| {
        SpacesAt(s, q + 1);
      }
      assert Colon(s, e, q, FindKey(s, start, key));
    }
  }

  /** Exactly what `findKey` finds. */
  lemma FindKeyIff(s: string, start: nat, key: string, r: int)
    ensures FindKey(s, start, key) == r <==>
      || (r == NPOS && NoKey(s, start, key))
      || (r >= 0 && exists i: nat :: FirstAt(s, start, key, i) && Follows(s, i, key, r))
  {
    hide FindKey, Follows, At;
    KeyFound(s, start, key);
    if r >= 0 && exists i: nat :: FirstAt(s, start, key, i) && Follows(s, i, key, r) {
      var i: nat :| FirstAt(s, start, key, i) && Follows(s, i, key, r);
      assert i == Find(s, Quoted(key), start);
      FollowsUnique(s, i, key, r, FindKey(s, start, key));
    }
  }

  lemma AtFits(s: string, i: int, t: string)
    requires At(s, i, t)
    ensures 0 <= i && i + |t| <= |s|
  {
  }

  /** `getStrField` with an empty default. */
  function StrField(s: string, start: nat, key: string): string {
    var p := FindKey(s, start, key);
    if p == NPOS || p >= |s| || s[p] != '"' then "" else StringLiteral(s, p).0
  }

  // ------------------------------------------------------------ what a scanning loop reads

  /** No item starts and no bracket closes in s[a..b]. */
  ghost predicate Gap(s: string, a: nat, b: nat, start: char) {
    b <= |s| && forall i :: a <= i < b ==> s[i] != start && s[i] != ']'
  }

  /** Where the item at index `k` may begin at the earliest. */
  function EndBefore(from: nat, spans: seq<Span>, k: nat): nat
    requires k <= |spans|
  {
    if k == 0 then from else spans[k - 1].end
  }

  ghost predicate ItemAt(s: string, from: nat, spans: seq<Span>, k: nat, start: char)
    requires k < |spans|
  {
    && EndBefore(from, spans, k) <= spans[k].open < spans[k].end && spans[k].open < |s| && s[spans[k].open] == start
    && Gap(s, EndBefore(from, spans, k), spans[k].open, start)
  }

  /** Read from `from` to `stop`, the items that start with `start` are exactly `spans`, in
      order; between them no item starts and no bracket closes. */
  ghost predicate Reads(s: string, from: nat, spans: seq<Span>, stop: nat, start: char) {
    && (forall k {:trigger ItemAt(s, from, spans, k, start)} :: 0 <= k < |spans| ==> ItemAt(s, from, spans, k, start))
    && EndBefore(from, spans, |spans|) <= stop
    && Gap(s, EndBefore(from, spans, |spans|), stop, start)
  }

  lemma ReadsItem(s: string, from: nat, spans: seq<Span>, span: Span, start: char)
    requires Reads(s, from, spans, span.open, start)
    requires span.open < |s| && s[span.open] == start && span.open < span.end <= |s|
    ensures Reads(s, from, spans + [span], span.end, start)
  {
    var longer := spans + [span];
    forall k | 0 <= k < |longer| ensures ItemAt(s, from, longer, k, start) {
      assert k < |spans| ==> ItemAt(s, from, spans, k, start);
    }
  }

  lemma ReadsPast(s: string, from: nat, spans: seq<Span>, stop: nat, stop': nat, start: char)
    requires Reads(s, from, spans, stop, start) && stop <= stop' <= |s|
    requires forall i :: stop <= i < stop' ==> s[i] != start && s[i] != ']'
    ensures Reads(s, from, spans, stop', start)
  {
  }

  lemma ItemsStart(s: string, from: nat, spans: seq<Span>, stop: nat, start: char)
    requires Reads(s, from, spans, stop, start)
    ensures forall k :: 0 <= k < |spans| ==> spans[k].open < |s| && s[spans[k].open] == start
  {
    forall k | 0 <= k < |spans| ensures spans[k].open < |s| && s[spans[k].open] == start {
      assert ItemAt(s, from, spans, k, start);
    }
  }

  /** Items that open at the same place end at the same place. */
  ghost predicate SameEnds(a: seq<Span>, b: seq<Span>) {
    forall i, k :: 0 <= i < |a| && 0 <= k < |b| && a[i].open == b[k].open ==> a[i].end == b[k].end
  }

  /** Two readings from the same place agree as far as both go. */
  lemma {:induction false} ReadsAgree(s: string, from: nat, a: seq<Span>, stopA: nat, b: seq<Span>, stopB: nat,
      start: char, n: nat)
    requires Reads(s, from, a, stopA, start) && Reads(s, from, b, stopB, start) && SameEnds(a, b)
    requires n <= |a| && n <= |b|
    ensures a[..n] == b[..n]
  {
    if n > 0 {
      ReadsAgree(s, from, a, stopA, b, stopB, start, n - 1);
      var k := n - 1;
      assert k > 0 ==> a[k - 1] == a[..k][k - 1] == b[..k][k - 1] == b[k - 1];
      assert ItemAt(s, from, a, k, start) && ItemAt(s, from, b, k, start);
      assert a[k].open == b[k].open;
      assert a[..n] == a[..k] + [a[k]] && b[..n] == b[..k] + [b[k]];
    }
  }

  /** Where a longer reading goes on: at or after the stop of the shorter one. */
  lemma LongerGoesOn(s: string, from: nat, a: seq<Span>, stopA: nat, b: seq<Span>, stopB: nat, start: char)
    requires Reads(s, from, a, stopA, start) && Reads(s, from, b, stopB, start)
    requires |a| < |b| && a == b[..|a|]
    ensures stopA <= b[|a|].open < |s|
    ensures stopA < b[|a|].open ==> s[stopA] != start && s[stopA] != ']'
  {
    var k := |a|;
    assert ItemAt(s, from, b, k, start);
    assert k > 0 ==> a[k - 1] == b[k - 1];
  }

  /** A reading that stops where no further item can begin is not the shorter one. */
  lemma NotShorter(s: string, from: nat, a: seq<Span>, stopA: nat, b: seq<Span>, stopB: nat, start: char)
    requires Reads(s, from, a, stopA, start) && Reads(s, from, b, stopB, start) && SameEnds(a, b)
    requires forall k :: 0 <= k < |b| ==>
      b[k].open != stopA && (b[k].open < stopA || (stopA < |s| && s[stopA] in [start, ']']))
    ensures |b| <= |a|
  {
    if |b| > |a| {
      ReadsAgree(s, from, a, stopA, b, stopB, start, |a|);
      assert a == a[..|a|];
      LongerGoesOn(s, from, a, stopA, b, stopB, start);
    }
  }

  // ------------------------------------------------------------ sources

  /** The string literals at `spans`, which open before `close`, decode to `sources`. */
  ghost predicate Decoded(s: string, close: nat, spans: seq<Span>, sources: seq<string>)
    requires close < |s|
  {
    && |sources| == |spans|
    && forall k :: 0 <= k < |spans| ==>
         spans[k].open < close && StringLiteral(s, spans[k].open) == (sources[k], spans[k].end)
  }

  /** What the list under `key` inside the object s[open..close] starts with, if it is a
      list at all. */
  function ListStart(s: string, open: nat, close: nat, key: string): int
    requires close < |s|
  {
    var p := FindKey(s, open, key);
    if p != NPOS && p < close && s[p] == '[' then p + 1 else NPOS
  }

  /** The loop has come to the end of the list or of the object. */
  ghost predicate ListEnd(s: string, stop: nat, close: nat) {
    stop >= close || (stop < |s| && s[stop] == ']')
  }

  ghost predicate SourcesOf(s: string, open: nat, close: nat, sources: seq<string>) {
    close < |s| &&
    var from := ListStart(s, open, close, "sources");
    if from == NPOS then sources == []
    else exists spans, stop: nat ::
      Reads(s, from, spans, stop, '"') && ListEnd(s, stop, close) && Decoded(s, close, spans, sources)
  }

  lemma NoSources(s: string, from: nat, close: nat)
    requires from <= |s| && close < |s|
    ensures Reads(s, from, [], from, '"') && Decoded(s, close, [], [])
  {
  }

  lemma DecodedAppend(s: string, close: nat, spans: seq<Span>, sources: seq<string>, span: Span, literal: string)
    requires close < |s| && Decoded(s, close, spans, sources)
    requires span.open < close && StringLiteral(s, span.open) == (literal, span.end)
    ensures Decoded(s, close, spans + [span], sources + [literal])
  {
    hide StringLiteral;
  }

  method ReadSources(json: string, open: nat, close: nat) returns (sources: seq<string>)
    requires close < |json|
    ensures SourcesOf(json, open, close, sources)
  {
    hide FindKey, StringLiteral, Reads, Decoded;
    sources := [];
    var pos := FindKey(json, open, "sources");
    if pos != NPOS && pos < close && json[pos] == '[' {
      pos := pos + 1;
      ghost var from := pos;
      ghost var spans: seq<Span> := [];
      NoSources(json, from, close);
      while pos < close
        invariant 0 <= from <= pos <= |json|
        invariant Reads(json, from, spans, pos, '"') && Decoded(json, close, spans, sources)
        decreases close - pos
      {
        var skipped := SkipWhitespace(json, pos);
        ReadsPast(json, from, spans, pos, skipped, '"');
        pos := skipped;
        if pos >= close || json[pos] == ']' {
          break;
        }
        if json[pos] == '"' {
          var literal, next := EditorParseString(json, pos);
          ReadsItem(json, from, spans, Span(pos, next), '"');
          DecodedAppend(json, close, spans, sources, Span(pos, next), literal);
          sources := sources + [literal];
          spans := spans + [Span(pos, next)];
          pos := next;
        } else if json[pos] == ',' {
          ReadsPast(json, from, spans, pos, pos + 1, '"');
          pos := pos + 1;
        } else {
          ReadsPast(json, from, spans, pos, pos + 1, '"');
          pos := pos + 1;
        }
      }
      assert Reads(json, from, spans, pos, '"') && ListEnd(json, pos, close);
    }
  }

  // ------------------------------------------------------------ segments

  /** Each span is an object that closes within the enclosing one. */
  ghost predicate AllBalanced(s: string, spans: seq<Span>, limit: nat) {
    forall k :: 0 <= k < |spans| ==>
      spans[k].end > 0 && spans[k].end <= limit && Balanced(s, spans[k].open, spans[k].end - 1)
  }

  ghost predicate SegmentsOf(s: string, open: nat, close: nat, segments: seq<Span>) {
    close < |s| &&
    var from := ListStart(s, open, close, "segments");
    if from == NPOS then segments == []
    else
      && AllBalanced(s, segments, close)
      && exists stop: nat :: Reads(s, from, segments, stop, '{') && ListEnd(s, stop, close)
  }

  /** The segments loop.  It advances because the brace scan always succeeds. */
  method ReadSegments(json: string, open: nat, close: nat) returns (segments: seq<Span>)
    requires Balanced(json, open, close)
    ensures SegmentsOf(json, open, close, segments)
  {
    hide FindKey, Balanced, StaysOpen, Reads, AllBalanced;
    assert close < |json| by { BalancedBounds(json, open, close); }
    segments := [];
    var pos := FindKey(json, open, "segments");
    if pos != NPOS && pos < close && json[pos] == '[' {
      pos := pos + 1;
      ghost var from := pos;
      NoSegments(json, from, close);
      while pos < close
        invariant open < from <= pos <= |json|
        invariant Reads(json, from, segments, pos, '{') && AllBalanced(json, segments, close)
        decreases close - pos
      {
        var skipped := SkipWhitespace(json, pos);
        ReadsPast(json, from, segments, pos, skipped, '{');
        pos := skipped;
        if pos >= close || json[pos] == ']' {
          break;
        }
        if json[pos] == '{' {
          var depth, end := ScanObject(json, pos, close);
          ScanSucceeds(json, open, close, pos, depth);
          BalancedBounds(json, pos, end);
          ReadsItem(json, from, segments, Span(pos, end + 1), '{');
          BalancedAppend(json, segments, Span(pos, end + 1), close);
          segments := segments + [Span(pos, end + 1)];
          pos := end + 1;
        } else if json[pos] == ',' {
          ReadsPast(json, from, segments, pos, pos + 1, '{');
          pos := pos + 1;
        } else {
          ReadsPast(json, from, segments, pos, pos + 1, '{');
          pos := pos + 1;
        }
      }
      assert Reads(json, from, segments, pos, '{') && ListEnd(json, pos, close);
    }
  }

  lemma NoSegments(s: string, from: nat, limit: nat)
    requires from <= |s|
    ensures Reads(s, from, [], from, '{') && AllBalanced(s, [], limit)
  {
  }

  lemma BalancedAppend(s: string, spans: seq<Span>, span: Span, limit: nat)
    requires AllBalanced(s, spans, limit)
    requires 0 < span.end <= limit && Balanced(s, span.open, span.end - 1)
    ensures AllBalanced(s, spans + [span], limit)
  {
    hide Balanced;
  }

  lemma BalancedBounds(s: string, a: nat, b: nat)
    requires Balanced(s, a, b)
    ensures a < b < |s| && s[a] == '{'
  {
  }

  /** The scan for a segment's end cannot come back empty-handed. */
  lemma ScanSucceeds(s: string, open: nat, close: nat, pos: nat, depth: int)
    requires Balanced(s, open, close) && open < pos < close && s[pos] == '{'
    requires depth != 0 ==> StaysOpen(s, pos, close)
    ensures depth == 0
  {
    var e := InnerCloses(s, open, close, pos);
    assert Depth(s, pos, e + 1) == 0;
  }

  // ------------------------------------------------------------ commands

  ghost predicate CommandOf(s: string, span: Span, cmd: EditCommand) {
    && span.end > 0 && Balanced(s, span.open, span.end - 1)
    && cmd.kind == StrField(s, span.open, "type")
    && SourcesOf(s, span.open, span.end - 1, cmd.sources)
    && SegmentsOf(s, span.open, span.end - 1, cmd.segments)
  }

  ghost predicate CommandsOf(s: string, spans: seq<Span>, all: seq<EditCommand>) {
    && |all| == |spans|
    && forall k :: 0 <= k < |spans| ==> CommandOf(s, spans[k], all[k])
  }

  /** The commands that name a type; the others are dropped. */
  function Typed(all: seq<EditCommand>): seq<EditCommand> {
    if all == [] then []
    else
      var last := all[|all| - 1];
      Typed(all[..|all| - 1]) + if last.kind != "" then [last] else []
  }

  lemma TypedAppend(all: seq<EditCommand>, cmd: EditCommand)
    ensures Typed(all + [cmd]) == Typed(all) + if cmd.kind != "" then [cmd] else []
  {
    assert (all + [cmd])[..|all|] == all;
  }

  /** Where the array of commands begins. */
  function ArrayStart(s: string): int {
    var key := Find(s, "\"edit_commands\"", 0);
    if key == NPOS then NPOS
    else
      var open := Find(s, "[", key);
      if open == NPOS then NPOS else open + 1
  }

  /** The outer loop stops at the end of the text, at the closing bracket, or at an object
      that never closes. */
  ghost predicate ArrayEnd(s: string, stop: nat) {
    stop >= |s| || s[stop] == ']' || (s[stop] == '{' && StaysOpen(s, stop, |s|))
  }

  ghost predicate CommandsRead(s: string, spans: seq<Span>, all: seq<EditCommand>, stop: nat) {
    var from := ArrayStart(s);
    if from == NPOS then all == []
    else Reads(s, from, spans, stop, '{') && ArrayEnd(s, stop) && CommandsOf(s, spans, all)
  }

  /** The commands of a text: those of its objects that name a type. */
  ghost predicate ParsesTo(s: string, cmds: seq<EditCommand>) {
    exists spans, all, stop: nat :: CommandsRead(s, spans, all, stop) && cmds == Typed(all)
  }

  method ReadCommand(json: string, open: nat, close: nat) returns (cmd: EditCommand)
    requires Balanced(json, open, close)
    ensures CommandOf(json, Span(open, close + 1), cmd)
  {
    hide Balanced, SourcesOf, SegmentsOf, StrField;
    assert close < |json| by { BalancedBounds(json, open, close); }
    var kind := StrField(json, open, "type");
    var sources := ReadSources(json, open, close);
    var segments := ReadSegments(json, open, close);
    cmd := EditCommand(kind, sources, segments);
  }

  /** `parseEditCommands`: terminates on every text, and reads the objects of the array one
      after the other, each up to its own closing brace, skipping nothing that opens. */
  method ParseEditCommands(json: string) returns (cmds: seq<EditCommand>)
    ensures ParsesTo(json, cmds)
  {
    hide Balanced, StaysOpen, CommandOf, Find, Reads, CommandsOf, Typed, SkipWs, ArrayEnd;
    cmds := [];
    ghost var spans: seq<Span>, all: seq<EditCommand> := [], [];
    NothingRead(json, 0);
    var key := Find(json, "\"edit_commands\"", 0);
    if key == NPOS {
      assert CommandsRead(json, spans, all, 0);
      return;
    }
    var pos := Find(json, "[", key);
    if pos == NPOS {
      assert CommandsRead(json, spans, all, 0);
      return;
    }
    pos := pos + 1;
    ghost var from := pos;
    NothingRead(json, from);
    while pos < |json|
      invariant 0 <= from <= pos <= |json|
      invariant Reads(json, from, spans, pos, '{') && CommandsOf(json, spans, all) && cmds == Typed(all)
      decreases |json| - pos
    {
      var skipped := SkipWhitespace(json, pos);
      ReadsPast(json, from, spans, pos, skipped, '{');
      pos := skipped;
      if pos >= |json| || json[pos] == ']' {
        break;
      }
      if json[pos] != '{' {
        ReadsPast(json, from, spans, pos, pos + 1, '{');
        pos := pos + 1;
        continue;
      }
      var depth, end := ScanObject(json, pos, |json|);
      if depth != 0 {
        break;
      }
      BalancedBounds(json, pos, end);
      var cmd := ReadCommand(json, pos, end);
      ReadsItem(json, from, spans, Span(pos, end + 1), '{');
      TypedAppend(all, cmd);
      CommandsAppend(json, spans, all, Span(pos, end + 1), cmd);
      spans := spans + [Span(pos, end + 1)];
      all := all + [cmd];
      if cmd.kind != "" {
        cmds := cmds + [cmd];
      }
      pos := end + 1;
    }
    ArrayEnds(json, pos);
    assert CommandsRead(json, spans, all, pos);
  }

  lemma ArrayEnds(s: string, stop: nat)
    requires stop >= |s| || s[stop] == ']' || (s[stop] == '{' && StaysOpen(s, stop, |s|))
    ensures ArrayEnd(s, stop)
  {
  }

  lemma NothingRead(s: string, from: nat)
    requires from <= |s|
    ensures Reads(s, from, [], from, '{') && CommandsOf(s, [], []) && Typed([]) == []
  {
  }

  lemma CommandsAppend(s: string, spans: seq<Span>, all: seq<EditCommand>, span: Span, cmd: EditCommand)
    requires CommandsOf(s, spans, all) && CommandOf(s, span, cmd)
    ensures CommandsOf(s, spans + [span], all + [cmd])
  {
    hide CommandOf;
  }

  // ------------------------------------------------------------ the result is determined

  lemma BalancedUnique(s: string, a: nat, b: nat, c: nat)
    requires Balanced(s, a, b) && Balanced(s, a, c)
    ensures b == c
  {
  }

  lemma ClosedIsNotOpen(s: string, a: nat, b: nat, limit: nat)
    requires Balanced(s, a, b) && StaysOpen(s, a, limit)
    ensures limit <= b
  {
  }

  lemma SegmentsUnique(s: string, open: nat, close: nat, x: seq<Span>, y: seq<Span>)
    requires SegmentsOf(s, open, close, x) && SegmentsOf(s, open, close, y)
    ensures x == y
  {
    hide Reads, Balanced;
    var from := ListStart(s, open, close, "segments");
    if from != NPOS {
      var stopX: nat :| Reads(s, from, x, stopX, '{') && ListEnd(s, stopX, close);
      var stopY: nat :| Reads(s, from, y, stopY, '{') && ListEnd(s, stopY, close);
      forall i, k | 0 <= i < |x| && 0 <= k < |y| && x[i].open == y[k].open ensures x[i].end == y[k].end {
        BalancedUnique(s, x[i].open, x[i].end - 1, y[k].end - 1);
      }
      SegmentsStop(s, x, close);
      SegmentsStop(s, y, close);
      NotShorter(s, from, x, stopX, y, stopY, '{');
      NotShorter(s, from, y, stopY, x, stopX, '{');
      ReadsAgree(s, from, x, stopX, y, stopY, '{', |x|);
      assert x == x[..|x|] && y == y[..|x|];
    }
  }

  lemma SegmentsStop(s: string, x: seq<Span>, close: nat)
    requires AllBalanced(s, x, close)
    ensures forall k :: 0 <= k < |x| ==> x[k].open < close && x[k].open < |s| && s[x[k].open] == '{'
  {
  }

  lemma SourcesUnique(s: string, open: nat, close: nat, x: seq<string>, y: seq<string>)
    requires SourcesOf(s, open, close, x) && SourcesOf(s, open, close, y)
    ensures x == y
  {
    hide Reads, StringLiteral;
    var from := ListStart(s, open, close, "sources");
    if from != NPOS {
      var a, stopA: nat :| Reads(s, from, a, stopA, '"') && ListEnd(s, stopA, close) && Decoded(s, close, a, x);
      var b, stopB: nat :| Reads(s, from, b, stopB, '"') && ListEnd(s, stopB, close) && Decoded(s, close, b, y);
      assert SameEnds(a, b);
      ItemsStart(s, from, a, stopA, '"');
      ItemsStart(s, from, b, stopB, '"');
      NotShorter(s, from, a, stopA, b, stopB, '"');
      NotShorter(s, from, b, stopB, a, stopA, '"');
      ReadsAgree(s, from, a, stopA, b, stopB, '"', |a|);
      assert a == a[..|a|] && b == b[..|a|];
    }
  }

  lemma CommandUnique(s: string, span: Span, x: EditCommand, y: EditCommand)
    requires CommandOf(s, span, x) && CommandOf(s, span, y)
    ensures x == y
  {
    hide SourcesOf, SegmentsOf, StrField, Balanced;
    SourcesUnique(s, span.open, span.end - 1, x.sources, y.sources);
    SegmentsUnique(s, span.open, span.end - 1, x.segments, y.segments);
  }

  lemma ArrayStopsAt(s: string, stop: nat, spans: seq<Span>, all: seq<EditCommand>, from: nat, end: nat)
    requires ArrayEnd(s, stop) && CommandsOf(s, spans, all) && Reads(s, from, spans, end, '{')
    ensures forall k :: 0 <= k < |spans| ==>
      spans[k].open != stop && (spans[k].open < stop || (stop < |s| && s[stop] in ['{', ']']))
  {
    hide Reads, SourcesOf, SegmentsOf, StrField;
    ItemsStart(s, from, spans, end, '{');
    forall k | 0 <= k < |spans| ensures spans[k].open != stop {
      assert CommandOf(s, spans[k], all[k]);
      if spans[k].open == stop {
        ClosedIsNotOpen(s, stop, spans[k].end - 1, |s|);
        assert false;
      }
    }
  }

  /** The contract of `ParseEditCommands` leaves no choice: a text has one list of commands. */
  lemma ParseDetermined(s: string, c: seq<EditCommand>, d: seq<EditCommand>)
    requires ParsesTo(s, c) && ParsesTo(s, d)
    ensures c == d
  {
    var a: seq<Span>, x: seq<EditCommand>, stopA: nat :| CommandsRead(s, a, x, stopA) && c == Typed(x);
    var b: seq<Span>, y: seq<EditCommand>, stopB: nat :| CommandsRead(s, b, y, stopB) && d == Typed(y);
    var from := ArrayStart(s);
    if from != NPOS {
      hide Reads, CommandOf, ArrayEnd, Typed, Balanced;
      forall i, k | 0 <= i < |a| && 0 <= k < |b| && a[i].open == b[k].open ensures a[i].end == b[k].end {
        SameCommandEnd(s, a[i], x[i], b[k], y[k]);
      }
      ArrayStopsAt(s, stopA, b, y, from, stopB);
      ArrayStopsAt(s, stopB, a, x, from, stopA);
      NotShorter(s, from, a, stopA, b, stopB, '{');
      NotShorter(s, from, b, stopB, a, stopA, '{');
      ReadsAgree(s, from, a, stopA, b, stopB, '{', |a|);
      assert a == a[..|a|] && b == b[..|a|];
      forall k | 0 <= k < |x| ensures x[k] == y[k] {
        CommandUnique(s, a[k], x[k], y[k]);
      }
      assert x == y;
    }
  }

  lemma SameCommandEnd(s: string, a: Span, x: EditCommand, b: Span, y: EditCommand)
    requires CommandOf(s, a, x) && CommandOf(s, b, y) && a.open == b.open
    ensures a.end == b.end
  {
    hide SourcesOf, SegmentsOf, StrField;
    BalancedUnique(s, a.open, a.end - 1, b.end - 1);
  }
}
