/** The engine's recursive-descent JSON parser as functions: what each call returns, where
    it leaves the position, and when it throws. */
module JsonParser {
  import opened JsonStrings

  /** A number is kept as its token; `stod` turns it into a double. */
  datatype JsonValue =
    | Null
    | Bool(boolean: bool)
    | Number(token: string)
    | String(str: string)
    | Array(arr: seq<JsonValue>)
    | Object(obj: seq<Entry>)

  datatype Entry = Entry(key: string, value: JsonValue)

  /** A value and the new position, or the exception of `stod`. */
  datatype Parsed = Value(v: JsonValue, pos: nat) | Thrown

  predicate IsWs(c: char) {
    c == ' ' || c == '\t' || c == '\n' || c == '\r'
  }

  function SkipWs(s: string, pos: nat): (r: nat)
    ensures pos <= r && (pos <= |s| ==> r <= |s|) && (pos >= |s| ==> r == pos)
    ensures r < |s| ==> !IsWs(s[r])
    ensures forall k :: pos <= k < r && k < |s| ==> IsWs(s[k])
    decreases |s| - pos
  {
    if pos < |s| && IsWs(s[pos]) then SkipWs(s, pos + 1) else pos
  }

  predicate IsDigit(c: char) {
    '0' <= c <= '9'
  }

  predicate NumChar(c: char) {
    IsDigit(c) || c == '.' || c == '-' || c == '+' || c == 'e' || c == 'E'
  }

  /** The characters of RFC 8259, section 2, between tokens, and those of its numbers. */
  lemma CharClasses(c: char)
    ensures IsWs(c) <==> c as int in {0x20, 0x09, 0x0a, 0x0d}
    ensures NumChar(c) <==> c in "0123456789" || c in "+-.eE"
    ensures IsDigit(c) <==> c in "0123456789"
  {
  }

  function NumEnd(s: string, pos: nat): (r: nat)
    requires pos <= |s|
    ensures pos <= r <= |s|
    ensures r < |s| ==> !NumChar(s[r])
    ensures forall k :: pos <= k < r ==> NumChar(s[k])
    decreases |s| - pos
  {
    if pos < |s| && NumChar(s[pos]) then NumEnd(s, pos + 1) else pos
  }

  /** `stod` finds a number at the start of the token: an optional sign, then a digit, or
      a point followed by a digit. */
  predicate Convertible(token: string) {
    var t := if token != "" && (token[0] == '-' || token[0] == '+') then token[1..] else token;
    (t != "" && IsDigit(t[0])) || (|t| >= 2 && t[0] == '.' && IsDigit(t[1]))
  }

  /** At `p` the parser reads a number that `stod` rejects. */
  predicate BadNumber(s: string, p: nat) {
    && p < |s| && !IsWs(s[p]) && s[p] !in "\"{[tfn"
    && !Convertible(s[p..NumEnd(s, p)])
  }

  function Left(s: string, pos: nat): nat {
    if pos < |s| then |s| - pos else 0
  }

  function Past(s: string, pos: nat): nat {
    if pos < |s| then pos + 1 else pos
  }

  function PastChar(s: string, pos: nat, c: char): nat {
    if pos < |s| && s[pos] == c then pos + 1 else pos
  }

  /** What holds of every answer: the position never moves back, ends at most four past
      the end of the input, and moves forward unless only whitespace was left; an
      exception means some number could not be converted. */
  predicate Bounded(s: string, pos: nat, r: Parsed) {
    match r
    case Thrown => exists p :: pos <= p < |s| && BadNumber(s, p)
    case Value(_, end) => pos <= end && (end <= pos || end <= |s| + 4)
  }

  function ParseValue(s: string, pos: nat): (r: Parsed)
    ensures Bounded(s, pos, r)
    ensures r.Value? && SkipWs(s, pos) < |s| ==> r.pos > SkipWs(s, pos)
    decreases Left(s, pos), 0
  {
    var p := SkipWs(s, pos);
    if p >= |s| then Value(Null, p)
    else if s[p] == '"' then
      var r := StringLiteral(s, p);
      Value(String(r.0), r.1)
    else if s[p] == '{' then ParseMembers(s, SkipWs(s, p + 1), [])
    else if s[p] == '[' then ParseElements(s, SkipWs(s, p + 1), [])
    else if s[p] == 't' then Value(Bool(true), p + 4)
    else if s[p] == 'f' then Value(Bool(false), p + 5)
    else if s[p] == 'n' then Value(Null, p + 4)
    else
      var token := s[p..NumEnd(s, p)];
      if Convertible(token) then Value(Number(token), NumEnd(s, p)) else assert BadNumber(s, p); Thrown
  }

  /** The loop of `parseObject`, to the position after the closing brace. */
  function ParseMembers(s: string, pos: nat, acc: seq<Entry>): (r: Parsed)
    requires pos < |s| ==> !IsWs(s[pos])
    ensures Bounded(s, pos, r)
    decreases Left(s, pos), 1
  {
    if pos >= |s| || s[pos] == '}' then Value(Object(acc), Past(s, pos))
    else
      var p := SkipWs(s, pos);
      if s[p] != '"' then Value(Object(acc), Past(s, p))
      else
        var key := StringLiteral(s, p);
        match ParseValue(s, PastChar(s, SkipWs(s, key.1), ':'))
        case Thrown => Thrown
        case Value(v, end) =>
          ParseMembers(s, SkipWs(s, PastChar(s, SkipWs(s, end), ',')), acc + [Entry(key.0, v)])
  }

  /** The loop of `parseArray`, to the position after the closing bracket. */
  function ParseElements(s: string, pos: nat, acc: seq<JsonValue>): (r: Parsed)
    requires pos < |s| ==> !IsWs(s[pos])
    ensures Bounded(s, pos, r)
    decreases Left(s, pos), 1
  {
    if pos >= |s| || s[pos] == ']' then Value(Array(acc), Past(s, pos))
    else
      match ParseValue(s, pos)
      case Thrown => Thrown
      case Value(v, end) =>
        ParseElements(s, SkipWs(s, PastChar(s, SkipWs(s, end), ',')), acc + [v])
  }

  /** The bound of four past the end is attained: the literals are skipped by length. */
  lemma OvershootAttained(pre: string)
    requires forall i :: 0 <= i < |pre| ==> IsWs(pre[i])
    ensures ParseValue(pre + "f", 0) == Value(Bool(false), |pre + "f"| + 4)
  {
    var s := pre + "f";
    assert s[|pre|] == 'f' && forall i :: 0 <= i < |pre| ==> s[i] == pre[i];
    assert SkipWs(s, 0) == |pre|;
  }

  lemma WsAlready(s: string, pos: nat)
    requires pos < |s| ==> !IsWs(s[pos])
    ensures SkipWs(s, pos) == pos
  {
  }

  lemma MembersStop(s: string, pos: nat, acc: seq<Entry>)
    requires pos < |s| ==> !IsWs(s[pos]) && s[pos] != '"'
    ensures ParseMembers(s, pos, acc) == Value(Object(acc), if pos < |s| then pos + 1 else pos)
  {
  }

  /** One turn of the loop: a key, a value, and where the next turn starts. */
  lemma MembersTurn(s: string, pos: nat, acc: seq<Entry>)
    requires pos < |s| && s[pos] == '"'
    ensures var key := StringLiteral(s, pos);
      var v := ParseValue(s, PastChar(s, SkipWs(s, key.1), ':'));
      ParseMembers(s, pos, acc) ==
        if v.Thrown? then Thrown
        else ParseMembers(s, SkipWs(s, PastChar(s, SkipWs(s, v.pos), ',')), acc + [Entry(key.0, v.v)])
    ensures var key := StringLiteral(s, pos);
      var v := ParseValue(s, PastChar(s, SkipWs(s, key.1), ':'));
      v.Value? ==> v.pos > pos
  {
    var key := StringLiteral(s, pos);
    var q := PastChar(s, SkipWs(s, key.1), ':');
    assert Bounded(s, q, ParseValue(s, q));
  }

  lemma ElementsStop(s: string, pos: nat, acc: seq<JsonValue>)
    requires pos < |s| ==> s[pos] == ']'
    ensures ParseElements(s, pos, acc) == Value(Array(acc), if pos < |s| then pos + 1 else pos)
  {
  }

  lemma ElementsTurn(s: string, pos: nat, acc: seq<JsonValue>)
    requires pos < |s| && s[pos] != ']' && !IsWs(s[pos])
    ensures var v := ParseValue(s, pos);
      && (v.Value? ==> v.pos > pos)
      && ParseElements(s, pos, acc) ==
           if v.Thrown? then Thrown else ParseElements(s, SkipWs(s, PastChar(s, SkipWs(s, v.pos), ',')), acc + [v.v])
  {
  }

  // ------------------------------------------------------------ the parser as loops

  /** `skipWs`. */
  method SkipWhitespace(s: string, pos: nat) returns (next: nat)
    ensures next == SkipWs(s, pos)
  {
    next := pos;
    while next < |s| && (s[next] == ' ' || s[next] == '\t' || s[next] == '\n' || s[next] == '\r')
      invariant pos <= next && SkipWs(s, next) == SkipWs(s, pos)
      decreases |s| - next
    {
      next := next + 1;
    }
  }

  /** `parseObject`, called on the opening brace. */
  method ParseObjectLoop(s: string, start: nat) returns (r: Parsed)
    requires start < |s|
    ensures r == ParseMembers(s, SkipWs(s, start + 1), [])
    decreases Left(s, start), 1
  {
    hide Bounded, BadNumber, ParseMembers, ParseValue, StringLiteral, SkipWs, IsWs, Convertible, NumEnd;
    var obj := [];
    var pos := SkipWhitespace(s, start + 1);
    while pos < |s| && s[pos] != '}'
      invariant pos > start && (pos < |s| ==> !IsWs(s[pos]))
      invariant ParseMembers(s, pos, obj) == ParseMembers(s, SkipWs(s, start + 1), [])
      decreases Left(s, pos)
    {
      WsAlready(s, pos);
      pos := SkipWhitespace(s, pos);
      if s[pos] != '"' {
        break;
      }
      MembersTurn(s, pos, obj);
      var key;
      key, pos := EngineParseString(s, pos);
      pos := SkipWhitespace(s, pos);
      if pos < |s| && s[pos] == ':' {
        pos := pos + 1;
      }
      var value := ParseAt(s, pos);
      if value.Thrown? {
        return Thrown;
      }
      obj := obj + [Entry(key, value.v)];
      pos := SkipWhitespace(s, value.pos);
      if pos < |s| && s[pos] == ',' {
        pos := pos + 1;
      }
      pos := SkipWhitespace(s, pos);
    }
    MembersStop(s, pos, obj);
    if pos < |s| {
      pos := pos + 1;
    }
    r := Value(Object(obj), pos);
  }

  /** `parseArray`, called on the opening bracket. */
  method ParseArrayLoop(s: string, start: nat) returns (r: Parsed)
    requires start < |s|
    ensures r == ParseElements(s, SkipWs(s, start + 1), [])
    decreases Left(s, start), 1
  {
    hide Bounded, BadNumber, ParseElements, ParseValue, SkipWs;
    var arr := [];
    var pos := SkipWhitespace(s, start + 1);
    while pos < |s| && s[pos] != ']'
      invariant pos > start && (pos < |s| ==> !IsWs(s[pos]))
      invariant ParseElements(s, pos, arr) == ParseElements(s, SkipWs(s, start + 1), [])
      decreases Left(s, pos)
    {
      ElementsTurn(s, pos, arr);
      var value := ParseAt(s, pos);
      if value.Thrown? {
        return Thrown;
      }
      arr := arr + [value.v];
      pos := SkipWhitespace(s, value.pos);
      if pos < |s| && s[pos] == ',' {
        pos := pos + 1;
      }
      pos := SkipWhitespace(s, pos);
    }
    ElementsStop(s, pos, arr);
    if pos < |s| {
      pos := pos + 1;
    }
    r := Value(Array(arr), pos);
  }

  /** `parseValue`. */
  method ParseAt(s: string, start: nat) returns (r: Parsed)
    ensures r == ParseValue(s, start)
    decreases Left(s, start), 2
  {
    hide Bounded, BadNumber;
    var pos := SkipWhitespace(s, start);
    if pos >= |s| {
      return Value(Null, pos);
    }
    var c := s[pos];
    if c == '"' {
      var str;
      str, pos := EngineParseString(s, pos);
      return Value(String(str), pos);
    }
    if c == '{' {
      r := ParseObjectLoop(s, pos);
      return;
    }
    if c == '[' {
      r := ParseArrayLoop(s, pos);
      return;
    }
    if c == 't' {
      return Value(Bool(true), pos + 4);
    }
    if c == 'f' {
      return Value(Bool(false), pos + 5);
    }
    if c == 'n' {
      return Value(Null, pos + 4);
    }
    var begin := pos;
    while pos < |s| && (IsDigit(s[pos]) || s[pos] == '.' || s[pos] == '-' || s[pos] == '+'
                        || s[pos] == 'e' || s[pos] == 'E')
      invariant begin <= pos <= |s| && NumEnd(s, pos) == NumEnd(s, begin)
      decreases |s| - pos
    {
      pos := pos + 1;
    }
    if !Convertible(s[begin..pos]) {
      return Thrown;
    }
    r := Value(Number(s[begin..pos]), pos);
  }
}
